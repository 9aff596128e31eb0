/**
 HTTP/2 framing (section 4.1 of RFC 7540): cutting a byte stream into frames, with recovery when
 handling a frame raises, and independence of how the bytes were cut into segments.
 */
module H2Frames {
  import opened Sequences

  const HEADER_SIZE: nat := 9

  datatype Frame = Frame(kind: byte, flags: byte, stream: nat, body: seq<byte>)

  function Number(bytes: seq<byte>): nat {
    if bytes == [] then 0 else Number(bytes[..|bytes| - 1]) * 256 + bytes[|bytes| - 1] as int
  }

  /** A number in so many octets, most significant first. */
  function BigEndian(n: nat, octets: nat): (b: seq<byte>)
    ensures |b| == octets
  {
    if octets == 0 then [] else BigEndian(n / 256, octets - 1) + [n % 256]
  }

  predicate Fits(n: nat, octets: nat) { if octets == 0 then n == 0 else Fits(n / 256, octets - 1) }

  lemma FitsTwo(n: nat)
    ensures n < 0x1_0000 <==> Fits(n, 2)
  {
    assert Fits(n / 256, 1) <==> Fits(n / 256 / 256, 0);
  }

  lemma FitsFour(n: nat)
    ensures n < 0x1_0000_0000 <==> Fits(n, 4)
  {
    assert Fits(n, 4) <==> Fits(n / 256 / 256, 2);
    FitsTwo(n / 256 / 256);
  }

  lemma {:induction false} NumberOf(n: nat, octets: nat)
    requires Fits(n, octets)
    ensures Number(BigEndian(n, octets)) == n
  {
    if octets > 0 {
      NumberOf(n / 256, octets - 1);
      NumberNext(n, octets);
    }
  }

  lemma {:induction false} NumberFits(b: seq<byte>)
    ensures Fits(Number(b), |b|)
  {
    if b != [] {
      NumberFits(b[..|b| - 1]);
      assert Number(b) / 256 == Number(b[..|b| - 1]);
    }
  }

  lemma NumberNext(n: nat, octets: nat)
    requires octets > 0
    ensures Number(BigEndian(n, octets)) == Number(BigEndian(n / 256, octets - 1)) * 256 + n % 256
  {
    var front := BigEndian(n / 256, octets - 1);
    assert (front + [n % 256])[..octets - 1] == front;
  }

  lemma {:induction false} BigEndianOf(b: seq<byte>)
    ensures BigEndian(Number(b), |b|) == b
  {
    if b != [] {
      var front, last := b[..|b| - 1], b[|b| - 1];
      BigEndianOf(front);
      assert Number(b) == Number(front) * 256 + last;
      assert Number(b) / 256 == Number(front) && Number(b) % 256 == last;
      assert b == front + [last];
    }
  }

  /** The 24-bit length at the front of a frame header. */
  function BodyLength(b: seq<byte>): nat
    requires |b| >= HEADER_SIZE
  {
    b[0] as int * 65536 + b[1] as int * 256 + b[2]
  }

  /** The 31-bit stream identifier; the reserved bit is dropped. */
  function StreamId(b: seq<byte>): nat
    requires |b| >= HEADER_SIZE
  {
    (b[5] as int % 128) * 0x100_0000 + b[6] as int * 65536 + b[7] as int * 256 + b[8]
  }

  function FrameSize(b: seq<byte>): nat
    requires |b| >= HEADER_SIZE
  {
    HEADER_SIZE + BodyLength(b)
  }

  /** A complete frame is at the front. */
  predicate HasFrame(b: seq<byte>) { |b| >= HEADER_SIZE && FrameSize(b) <= |b| }

  function FirstFrame(b: seq<byte>): Frame
    requires HasFrame(b)
  {
    Frame(b[3], b[4], StreamId(b), b[HEADER_SIZE..FrameSize(b)])
  }

  // ----- the whole-buffer reference

  function Frames(b: seq<byte>): seq<Frame>
    decreases |b|
  {
    if HasFrame(b) then [FirstFrame(b)] + Frames(b[FrameSize(b)..]) else []
  }

  function Leftover(b: seq<byte>): seq<byte>
    decreases |b|
  {
    if HasFrame(b) then Leftover(b[FrameSize(b)..]) else b
  }

  // ----- the sender's side, as section 4.1 of RFC 7540 lays a frame out

  predicate Sendable(f: Frame) { |f.body| < 0x100_0000 && f.stream < 0x8000_0000 }

  function Encode(f: Frame): seq<byte>
    requires Sendable(f)
  {
    var n, id := |f.body|, f.stream;
    [n / 65536, n / 256 % 256, n % 256, f.kind, f.flags,
     id / 0x100_0000, id / 65536 % 256, id / 256 % 256, id % 256] + f.body
  }

  function EncodeAll(fs: seq<Frame>): seq<byte>
    requires forall i :: 0 <= i < |fs| ==> Sendable(fs[i])
  {
    if fs == [] then [] else Encode(fs[0]) + EncodeAll(fs[1..])
  }

  lemma ThreeDigits(n: nat)
    requires n < 0x100_0000
    ensures n / 65536 * 65536 + n / 256 % 256 * 256 + n % 256 == n
  {}

  lemma FourDigits(n: nat)
    requires n < 0x8000_0000
    ensures n / 0x100_0000 < 128
    ensures n / 0x100_0000 * 0x100_0000 + n / 65536 % 256 * 65536 + n / 256 % 256 * 256 + n % 256 == n
  {}

  lemma EncodedFront(f: Frame, rest: seq<byte>)
    requires Sendable(f)
    ensures var b := Encode(f) + rest;
      HasFrame(b) && FirstFrame(b) == f && b[FrameSize(b)..] == rest
  {
    var b := Encode(f) + rest;
    ThreeDigits(|f.body|);
    FourDigits(f.stream);
    assert BodyLength(b) == |f.body| && StreamId(b) == f.stream;
    assert b[HEADER_SIZE..FrameSize(b)] == f.body;
  }

  /** Whatever frames are sent, they are found in what arrives, in order, and what follows them is left. */
  lemma {:induction false} FramesOfEncoded(fs: seq<Frame>, rest: seq<byte>)
    requires forall i :: 0 <= i < |fs| ==> Sendable(fs[i])
    requires !HasFrame(rest)
    ensures Frames(EncodeAll(fs) + rest) == fs && Leftover(EncodeAll(fs) + rest) == rest
  {
    if fs == [] {
      assert EncodeAll(fs) + rest == rest;
    } else {
      var more := EncodeAll(fs[1..]) + rest;
      assert EncodeAll(fs) + rest == Encode(fs[0]) + more;
      EncodedFront(fs[0], more);
      FramesOfEncoded(fs[1..], rest);
    }
  }

  lemma FrontFrame(a: seq<byte>, b: seq<byte>)
    requires HasFrame(a)
    ensures HasFrame(a + b) && FirstFrame(a + b) == FirstFrame(a) && FrameSize(a + b) == FrameSize(a)
    ensures (a + b)[FrameSize(a)..] == a[FrameSize(a)..] + b
  {
    assert (a + b)[HEADER_SIZE..FrameSize(a)] == a[HEADER_SIZE..FrameSize(a)];
  }

  /** Frames of a concatenation: those of the first part, then those of its leftover and the rest. */
  lemma {:induction false} FramesSplit(a: seq<byte>, b: seq<byte>)
    ensures Frames(a + b) == Frames(a) + Frames(Leftover(a) + b)
    ensures Leftover(a + b) == Leftover(Leftover(a) + b)
    decreases |a|
  {
    if HasFrame(a) {
      FrontFrame(a, b);
      var rest := a[FrameSize(a)..];
      FramesSplit(rest, b);
      assert Frames(a + b) == [FirstFrame(a)] + Frames(rest + b);
      Assoc([FirstFrame(a)], Frames(rest), Frames(Leftover(rest) + b));
    }
  }

  // ----- frame handling that may raise

  datatype Outcome<+S> = Handled(state: S) | Raised(state: S)

  type Handler<!S> = (S, Frame) -> Outcome<S>

  /** What find_next_frame takes for a frame header at an offset: a known type and a body that fits. */
  predicate Plausible(data: seq<byte>, i: nat) {
    i + HEADER_SIZE < |data| && data[i + 3] <= 9 && HasFrame(data[i..])
  }

  function FindNext(data: seq<byte>, from: nat): (r: Option<nat>)
    ensures r.Some? ==> from <= r.value < |data|
    decreases |data| - from
  {
    if from + HEADER_SIZE >= |data| then None
    else if Plausible(data, from) then Some(from)
    else FindNext(data, from + 1)
  }

  /** The frame that a header at an offset announces has one of the types 0 to 9 and fits, the header itself
      not being the last thing there is. */
  ghost predicate FitsAt(data: seq<byte>, i: nat) {
    && i + 9 < |data| && data[i + 3] <= 9
    && i + 9 + (data[i] as int * 65536 + data[i + 1] as int * 256 + data[i + 2] as int) <= |data|
  }

  /** Recovery goes to the next header that fits, passing over none. */
  lemma {:induction false} FindNextIs(data: seq<byte>, from: nat)
    ensures match FindNext(data, from)
            case Some(r) => from <= r && FitsAt(data, r) && forall i :: from <= i < r ==> !FitsAt(data, i)
            case None => forall i :: from <= i ==> !FitsAt(data, i)
    decreases |data| - from
  {
    if from + HEADER_SIZE < |data| {
      assert FitsAt(data, from) <==> Plausible(data, from);
      if !Plausible(data, from) {
        FindNextIs(data, from + 1);
      }
    }
  }

  /** The parsing loop: handle the front frame; if that raises, drop bytes up to the next plausible header,
      or everything when there is none. */
  function Parse<S>(h: Handler<S>, s: S, b: seq<byte>): (S, seq<byte>)
    decreases |b|
  {
    if !HasFrame(b) then (s, b) else
      match h(s, FirstFrame(b))
      case Handled(s') => Parse(h, s', b[FrameSize(b)..])
      case Raised(s') =>
        match FindNext(b, 1)
        case None => (s', [])
        case Some(i) => Parse(h, s', b[i..])
  }

  predicate IsSuffix(a: seq<byte>, b: seq<byte>) { |a| <= |b| && a == b[|b| - |a|..] }

  lemma SuffixTrans(a: seq<byte>, b: seq<byte>, n: nat)
    requires n <= |b| && IsSuffix(a, b[n..])
    ensures IsSuffix(a, b)
  {}

  /** However handling raises: the new buffer is a suffix of the old one and has no complete frame at its
      front, so the parser never stops early and never invents or repeats bytes. */
  lemma {:induction false} ParseConsumes<S>(h: Handler<S>, s: S, b: seq<byte>)
    ensures IsSuffix(Parse(h, s, b).1, b) && !HasFrame(Parse(h, s, b).1)
    decreases |b|
  {
    if HasFrame(b) {
      match h(s, FirstFrame(b))
      case Handled(s') =>
        ParseConsumes(h, s', b[FrameSize(b)..]);
        SuffixTrans(Parse(h, s, b).1, b, FrameSize(b));
      case Raised(s') =>
        match FindNext(b, 1) {
          case None =>
          case Some(i) =>
            ParseConsumes(h, s', b[i..]);
            SuffixTrans(Parse(h, s, b).1, b, i);
        }
    }
  }

  /** Handling the frames one after the other, none of them raising. */
  ghost predicate AllHandled<S>(h: Handler<S>, s: S, fs: seq<Frame>) {
    fs == [] || (h(s, fs[0]).Handled? && AllHandled(h, h(s, fs[0]).state, fs[1..]))
  }

  function Fold<S>(h: Handler<S>, s: S, fs: seq<Frame>): S {
    if fs == [] then s else Fold(h, h(s, fs[0]).state, fs[1..])
  }

  /** Where nothing raises, the loop handles exactly the frames of the whole-buffer reference. */
  lemma {:induction false} ParseIsFold<S>(h: Handler<S>, s: S, b: seq<byte>)
    requires AllHandled(h, s, Frames(b))
    ensures Parse(h, s, b) == (Fold(h, s, Frames(b)), Leftover(b))
    decreases |b|
  {
    if HasFrame(b) {
      var rest := b[FrameSize(b)..];
      assert Frames(b)[1..] == Frames(rest);
      ParseIsFold(h, h(s, FirstFrame(b)).state, rest);
    }
  }

  /** What is lost when handling a frame raises: the bytes up to the next header that fits, and nothing else.
      From there on, if nothing more raises, everything is handled; without such a header the rest is
      dropped. */
  lemma Recovery<S>(h: Handler<S>, s: S, b: seq<byte>, k: nat)
    requires HasFrame(b) && h(s, FirstFrame(b)).Raised? && 1 <= k
    requires forall i :: 1 <= i < k ==> !FitsAt(b, i)
    ensures var s' := h(s, FirstFrame(b)).state;
      && (FitsAt(b, k) && AllHandled(h, s', Frames(b[k..])) ==>
            Parse(h, s, b) == (Fold(h, s', Frames(b[k..])), Leftover(b[k..])))
      && (k >= |b| ==> Parse(h, s, b) == (s', []))
  {
    FindNextIs(b, 1);
    var s' := h(s, FirstFrame(b)).state;
    if FitsAt(b, k) {
      assert FindNext(b, 1) == Some(k);
      if AllHandled(h, s', Frames(b[k..])) {
        ParseIsFold(h, s', b[k..]);
      }
    } else if k >= |b| {
      assert FindNext(b, 1) == None;
    }
  }

  lemma {:induction false} FoldJoin<S>(h: Handler<S>, s: S, a: seq<Frame>, b: seq<Frame>)
    ensures Fold(h, s, a + b) == Fold(h, Fold(h, s, a), b)
    ensures AllHandled(h, s, a + b) <==> AllHandled(h, s, a) && AllHandled(h, Fold(h, s, a), b)
    decreases |a|
  {
    if a == [] {
      assert a + b == b;
    } else {
      assert (a + b)[1..] == a[1..] + b;
      FoldJoin(h, h(s, a[0]).state, a[1..], b);
    }
  }

  // ----- segments

  function Concat(segments: seq<seq<byte>>): seq<byte> {
    if segments == [] then [] else segments[0] + Concat(segments[1..])
  }

  /** Feeding one direction of a connection segment by segment. */
  function Feed<S>(h: Handler<S>, s: S, buffer: seq<byte>, segments: seq<seq<byte>>): (S, seq<byte>)
    decreases |segments|
  {
    if segments == [] then (s, buffer) else
      var (s', left) := Parse(h, s, buffer + segments[0]);
      Feed(h, s', left, segments[1..])
  }

  lemma {:induction false} LeftoverStops(b: seq<byte>)
    ensures !HasFrame(Leftover(b)) && Frames(Leftover(b)) == [] && Leftover(Leftover(b)) == Leftover(b)
    decreases |b|
  {
    if HasFrame(b) {
      LeftoverStops(b[FrameSize(b)..]);
    }
  }

  /** For every byte string and every way of cutting it, the same frames are handled in the same order and
      the same bytes are left over as if it had come in one segment. */
  lemma {:induction false} SegmentationIrrelevant<S>(h: Handler<S>, s: S, buffer: seq<byte>, segments: seq<seq<byte>>)
    requires !HasFrame(buffer)
    requires AllHandled(h, s, Frames(buffer + Concat(segments)))
    ensures Feed(h, s, buffer, segments) == Parse(h, s, buffer + Concat(segments))
    ensures Feed(h, s, buffer, segments) ==
      (Fold(h, s, Frames(buffer + Concat(segments))), Leftover(buffer + Concat(segments)))
    decreases |segments|
  {
    var all := buffer + Concat(segments);
    ParseIsFold(h, s, all);
    if segments == [] {
      assert all == buffer;
    } else {
      var first, rest := buffer + segments[0], Concat(segments[1..]);
      assert all == first + rest;
      FramesSplit(first, rest);
      FoldJoin(h, s, Frames(first), Frames(Leftover(first) + rest));
      ParseIsFold(h, s, first);
      LeftoverStops(first);
      SegmentationIrrelevant(h, Fold(h, s, Frames(first)), Leftover(first), segments[1..]);
    }
  }

  /** find_next_frame */
  method FindNextFrame(data: seq<byte>, from: nat) returns (r: int)
    ensures r == -1 <==> FindNext(data, from) == None
    ensures r != -1 ==> FindNext(data, from) == Some(r)
  {
    var i := from;
    while i < |data| - HEADER_SIZE
      invariant from <= i
      invariant FindNext(data, from) == FindNext(data, i)
    {
      var length := data[i] as int * 65536 + data[i + 1] as int * 256 + data[i + 2];
      var kind := data[i + 3];
      if kind <= 9 && i + HEADER_SIZE + length <= |data| {
        return i;
      }
      i := i + 1;
    }
    r := -1;
  }
}
