/**
 What one direction of a stream comes to, read off its list of frames: header blocks, data, completion and
 the state of the header decoder.  Frame types are the numbers of section 6 of RFC 7540.
 */
module H2Halves {
  import opened Sequences
  import opened H2Frames
  import opened H2Connection
  import opened H2Interleaving

  /** The frame is one of the stream's, of this type, and the frame library accepts it. */
  predicate On<H, Hd>(env: Env<H, Hd>, f: Frame, kind: byte, id: nat) {
    f.kind == kind && f.stream == id && env.creates(kind, id)
  }

  // ----- the header decoder

  datatype Event = Block(bytes: seq<byte>) | Resize(size: nat)

  function Resizes(sizes: seq<nat>): seq<Event> {
    if sizes == [] then [] else [Resize(sizes[0])] + Resizes(sizes[1..])
  }

  /** What a frame has the decoder of its direction do: HEADERS decode a block, SETTINGS resize. */
  function EventsOf<H, Hd>(env: Env<H, Hd>, f: Frame): seq<Event> {
    if f.stream > 0 && On(env, f, 0x1, f.stream) then [Block(f.body)]
    else if On(env, f, 0x4, 0) && |f.body| % 6 == 0 then Resizes(TableSizes(DecodeSettings(f.body)))
    else []
  }

  function Events<H, Hd>(env: Env<H, Hd>, fs: seq<Frame>): seq<Event> {
    if fs == [] then [] else Events(env, fs[..|fs| - 1]) + EventsOf(env, fs[|fs| - 1])
  }

  function Play<H, Hd>(env: Env<H, Hd>, h: H, events: seq<Event>): H
    decreases |events|
  {
    if events == [] then h else
      var h' := match events[0] case Block(b) => env.decode(h, b).0 case Resize(n) => env.resize(h, n);
      Play(env, h', events[1..])
  }

  /** The decoder after these frames. */
  function Decoder<H, Hd>(env: Env<H, Hd>, fs: seq<Frame>): H { Play(env, env.initial, Events(env, fs)) }

  lemma {:induction false} PlayJoin<H, Hd>(env: Env<H, Hd>, h: H, events: seq<Event>, more: seq<Event>)
    ensures Play(env, h, events + more) == Play(env, Play(env, h, events), more)
    decreases |events|
  {
    if events == [] {
      assert events + more == more;
    } else {
      var h' := match events[0] case Block(b) => env.decode(h, b).0 case Resize(n) => env.resize(h, n);
      assert (events + more)[1..] == events[1..] + more;
      PlayJoin(env, h', events[1..], more);
    }
  }

  lemma {:induction false} PlayResizes<H, Hd>(env: Env<H, Hd>, h: H, sizes: seq<nat>)
    ensures Play(env, h, Resizes(sizes)) == ResizeAll(env, h, sizes)
    decreases |sizes|
  {
    if sizes != [] {
      assert Resizes(sizes)[1..] == Resizes(sizes[1..]);
      PlayResizes(env, env.resize(h, sizes[0]), sizes[1..]);
    }
  }

  lemma PlayOne<H, Hd>(env: Env<H, Hd>, d: Dir<H, Hd>, f: Frame)
    ensures DirStep(env, d, f).hpack == Play(env, d.hpack, EventsOf(env, f))
  {
    if f.stream > 0 && On(env, f, 0x1, f.stream) {
      assert [Block(f.body)][1..] == [];
    } else if On(env, f, 0x4, 0) {
      SettingsFrame(env, d.hpack, f);
      if |f.body| % 6 == 0 {
        PlayResizes(env, d.hpack, TableSizes(DecodeSettings(f.body)));
      }
    }
  }

  /** The decoder of a direction has decoded exactly the header blocks of the direction and was resized by
      exactly its settings, in the order of the frames. */
  lemma {:induction false} DecoderIs<H, Hd>(env: Env<H, Hd>, fs: seq<Frame>)
    ensures After(env, fs).hpack == Decoder(env, fs)
  {
    if fs != [] {
      var n := |fs| - 1;
      DecoderIs(env, fs[..n]);
      AfterNext(env, fs, n);
      assert fs[..n + 1] == fs;
      PlayOne(env, After(env, fs[..n]), fs[n]);
      PlayJoin(env, env.initial, Events(env, fs[..n]), EventsOf(env, fs[n]));
    }
  }

  // ----- one half

  /** The decoded header blocks of a stream, in order; a block that does not decode counts as empty. */
  function Blocks<H, Hd>(env: Env<H, Hd>, fs: seq<Frame>, id: nat): seq<seq<Hd>> {
    if fs == [] then [] else
      var before, f := fs[..|fs| - 1], fs[|fs| - 1];
      Blocks(env, before, id) +
      (if On(env, f, 0x1, id) then
         [match env.decode(Decoder(env, before), f.body).1 case Some(headers) => headers case None => []]
       else [])
  }

  /** The DATA bodies of a stream, one after the other. */
  function Data<H, Hd>(env: Env<H, Hd>, fs: seq<Frame>, id: nat): seq<byte> {
    if fs == [] then []
    else Data(env, fs[..|fs| - 1], id) + (if On(env, fs[|fs| - 1], 0x0, id) then fs[|fs| - 1].body else [])
  }

  /** END_STREAM on HEADERS or DATA, or a RST_STREAM with its error code. */
  predicate Ends<H, Hd>(env: Env<H, Hd>, f: Frame, id: nat) {
    || ((On(env, f, 0x0, id) || On(env, f, 0x1, id)) && f.flags % 2 == 1)
    || (On(env, f, 0x3, id) && |f.body| == 4)
  }

  /** The headers are the first block that is not empty, the trailers the last block after it. */
  ghost predicate Shows<Hd>(blocks: seq<seq<Hd>>, headers: seq<Hd>, trailers: seq<Hd>) {
    if forall i :: 0 <= i < |blocks| ==> blocks[i] == [] then headers == [] && trailers == []
    else exists k :: FirstBlock(blocks, k) && headers == blocks[k] &&
                     trailers == if k == |blocks| - 1 then [] else blocks[|blocks| - 1]
  }

  ghost predicate FirstBlock<Hd>(blocks: seq<seq<Hd>>, k: int) {
    0 <= k < |blocks| && blocks[k] != [] && forall i :: 0 <= i < k ==> blocks[i] == []
  }

  /** What these frames make of a stream's half. */
  ghost predicate IsHalf<H, Hd>(env: Env<H, Hd>, fs: seq<Frame>, id: nat, half: Half<Hd>) {
    && Shows(Blocks(env, fs, id), half.headers, half.trailers)
    && half.data == Data(env, fs, id)
    && (half.complete <==> Ended(env, fs, id))
  }

  ghost predicate Ended<H, Hd>(env: Env<H, Hd>, fs: seq<Frame>, id: nat) {
    exists i :: 0 <= i < |fs| && Ends(env, fs[i], id)
  }

  lemma ShowsNext<Hd>(blocks: seq<seq<Hd>>, block: seq<Hd>, headers: seq<Hd>, trailers: seq<Hd>)
    requires Shows(blocks, headers, trailers)
    ensures if headers == [] then Shows(blocks + [block], block, trailers) else Shows(blocks + [block], headers, block)
  {
    var more, n := blocks + [block], |blocks|;
    assert more[n] == block && forall i :: 0 <= i < n ==> more[i] == blocks[i];
    if headers == [] {
      assert forall i :: 0 <= i < n ==> blocks[i] == [];
      if block != [] {
        assert FirstBlock(more, n);
      }
    } else {
      var k :| FirstBlock(blocks, k) && headers == blocks[k];
      assert FirstBlock(more, k) && more[k] != [];
    }
  }

  /** One more frame on a stream's half, without naming how the half is stored. */
  lemma HalfNext<H, Hd>(env: Env<H, Hd>, d: Dir<H, Hd>, f: Frame, id: nat)
    requires id > 0
    ensures var half, half' := Get(d, id), Get(DirStep(env, d, f), id);
      var block := match env.decode(d.hpack, f.body).1 case Some(headers) => headers case None => [];
      && half'.headers == (if On(env, f, 0x1, id) && half.headers == [] then block else half.headers)
      && half'.trailers == (if On(env, f, 0x1, id) && half.headers != [] then block else half.trailers)
      && half'.data == half.data + (if On(env, f, 0x0, id) then f.body else [])
      && (half'.complete <==> half.complete || Ends(env, f, id))
  {}

  lemma EndsNext<H, Hd>(env: Env<H, Hd>, fs: seq<Frame>, id: nat)
    requires fs != []
    ensures var n := |fs| - 1;
      Ended(env, fs, id) <==> Ended(env, fs[..n], id) || Ends(env, fs[n], id)
  {
    var n := |fs| - 1;
    if i :| 0 <= i < |fs| && Ends(env, fs[i], id) && i < n {
      assert fs[..n][i] == fs[i];
    }
    if i :| 0 <= i < |fs[..n]| && Ends(env, fs[..n][i], id) {
      assert fs[i] == fs[..n][i];
    }
  }

  /** For every list of frames of a direction, what is kept of a stream is exactly what they say. */
  lemma {:induction false} HalfIs<H, Hd>(env: Env<H, Hd>, fs: seq<Frame>, id: nat)
    requires id > 0
    ensures IsHalf(env, fs, id, Get(After(env, fs), id))
  {
    if fs != [] {
      var n := |fs| - 1;
      var before, f := fs[..n], fs[n];
      var d := After(env, before);
      HalfIs(env, before, id);
      DecoderIs(env, before);
      AfterNext(env, fs, n);
      assert fs[..n + 1] == fs;
      HalfNext(env, d, f, id);
      EndsNext(env, fs, id);
      if On(env, f, 0x1, id) {
        var block := match env.decode(d.hpack, f.body).1 case Some(headers) => headers case None => [];
        ShowsNext(Blocks(env, before, id), block, Get(d, id).headers, Get(d, id).trailers);
      } else {
        assert Blocks(env, fs, id) == Blocks(env, before, id);
      }
    }
  }

  // ----- what is emitted, from the bytes

  /** A stream without pushes, raises and late additions is emitted exactly if both directions end it, and
      what is emitted is exactly what the frames of each direction say, for every schedule of the bytes. */
  lemma EmittedIs<H, Hd>(env: Env<H, Hd>, segments: seq<Segment>, C: seq<byte>, V: seq<byte>, id: nat)
    requires id > 0 && Delivers(segments, true, C, V)
    requires Clean(env, true, Frames(C)) && Clean(env, false, Frames(V))
    requires NothingLate(env, Frames(C), id) && NothingLate(env, Frames(V), id)
    ensures IsRecord(env, Frames(C), Frames(V), id, RecordFor(Session(env, Fresh(env), segments).1, id))
  {
    EmittedFromBytes(env, segments, C, V, id);
    RecordIs(env, Frames(C), Frames(V), id);
  }

  ghost predicate IsRecord<H, Hd>(env: Env<H, Hd>, fs: seq<Frame>, gs: seq<Frame>, id: nat, r: Option<Record<Hd>>) {
    && (r.Some? <==> Ended(env, fs, id) && Ended(env, gs, id))
    && (r.Some? ==> r.value.stream == id && IsHalf(env, fs, id, r.value.client) && IsHalf(env, gs, id, r.value.server))
  }

  lemma RecordIs<H, Hd>(env: Env<H, Hd>, fs: seq<Frame>, gs: seq<Frame>, id: nat)
    requires id > 0
    ensures var d, e := After(env, fs), After(env, gs);
      IsRecord(env, fs, gs, id, if BothComplete(d, e, id) then Some(Joint(true, id, d, e)) else None)
  {
    HalfIs(env, fs, id);
    HalfIs(env, gs, id);
  }
}
