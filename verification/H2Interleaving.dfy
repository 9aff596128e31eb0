/**
 What is emitted for a stream depends only on the bytes of the two directions, not on how they were cut
 into segments nor on how the segments of the two directions alternated.
 */
module H2Interleaving {
  import opened Sequences
  import opened H2Frames
  import opened H2Connection

  // ----- one direction on its own

  datatype Dir<+H, +Hd> = Dir(hpack: H, halves: map<nat, Half<Hd>>)

  function Get<H, Hd>(d: Dir<H, Hd>, id: nat): Half<Hd> {
    if id in d.halves then d.halves[id] else EmptyHalf()
  }

  function Start<H, Hd>(env: Env<H, Hd>): Dir<H, Hd> { Dir(env.initial, map[]) }

  function DirStep<H, Hd(==)>(env: Env<H, Hd>, d: Dir<H, Hd>, f: Frame): Dir<H, Hd> {
    if !Created(env, f) then d
    else if f.stream == 0 then d.(hpack := HpackStep(env, d.hpack, f))
    else Dir(HpackStep(env, d.hpack, f), d.halves[f.stream := HalfStep(env, d.hpack, Get(d, f.stream), f)])
  }

  function DirRun<H, Hd(==)>(env: Env<H, Hd>, d: Dir<H, Hd>, fs: seq<Frame>): Dir<H, Hd>
    decreases |fs|
  {
    if fs == [] then d else DirRun(env, DirStep(env, d, fs[0]), fs[1..])
  }

  function After<H, Hd(==)>(env: Env<H, Hd>, fs: seq<Frame>): Dir<H, Hd> { DirRun(env, Start(env), fs) }

  lemma {:induction false} DirRunJoin<H, Hd>(env: Env<H, Hd>, d: Dir<H, Hd>, a: seq<Frame>, b: seq<Frame>)
    ensures DirRun(env, d, a + b) == DirRun(env, DirRun(env, d, a), b)
    decreases |a|
  {
    if a == [] {
      assert a + b == b;
    } else {
      assert (a + b)[1..] == a[1..] + b;
      DirRunJoin(env, DirStep(env, d, a[0]), a[1..], b);
    }
  }

  lemma AfterNext<H, Hd>(env: Env<H, Hd>, fs: seq<Frame>, i: nat)
    requires i < |fs|
    ensures After(env, fs[..i + 1]) == DirStep(env, After(env, fs[..i]), fs[i])
  {
    var d, one := After(env, fs[..i]), [fs[i]];
    assert fs[..i + 1] == fs[..i] + one;
    DirRunJoin(env, Start(env), fs[..i], one);
    assert one[1..] == [];
    assert DirRun(env, DirStep(env, d, one[0]), one[1..]) == DirStep(env, d, fs[i]);
  }

  /** A direction that is complete stays complete. */
  lemma {:induction false} StaysComplete<H, Hd>(env: Env<H, Hd>, d: Dir<H, Hd>, fs: seq<Frame>, id: nat)
    requires Get(d, id).complete
    ensures Get(DirRun(env, d, fs), id).complete
    decreases |fs|
  {
    if fs != [] {
      StaysComplete(env, DirStep(env, d, fs[0]), fs[1..], id);
    }
  }

  // ----- frames that come too late

  /** Given that its stream's half is complete, the frame still adds something to it. */
  predicate LateEffect<H, Hd(==)>(env: Env<H, Hd>, d: Dir<H, Hd>, f: Frame, id: nat) {
    && f.stream == id && id > 0 && Created(env, f)
    && ((f.kind == DATA && f.body != [])
        || (f.kind == HEADERS &&
            DecodeHeaders(env, d.hpack, f.body).1 != if Get(d, id).headers == [] then [] else Get(d, id).trailers))
  }

  lemma LateEffectIs<H, Hd>(env: Env<H, Hd>, d: Dir<H, Hd>, f: Frame, id: nat)
    requires Get(d, id).complete
    ensures Get(DirStep(env, d, f), id) != Get(d, id) <==> LateEffect(env, d, f, id)
  {
    var half := Get(d, id);
    if f.stream == id && id > 0 && Created(env, f) && f.kind == DATA {
      assert Get(DirStep(env, d, f), id).data == half.data + f.body;
      assert |half.data + f.body| == |half.data| + |f.body|;
      if f.body == [] {
        assert half.data + f.body == half.data;
      }
    }
  }

  /** No frame adds to the stream's half once that half is complete. */
  ghost predicate NothingLate<H, Hd>(env: Env<H, Hd>, fs: seq<Frame>, id: nat) {
    forall i :: 0 <= i < |fs| && Get(After(env, fs[..i]), id).complete ==> !LateEffect(env, After(env, fs[..i]), fs[i], id)
  }

  /** In particular: no HEADERS and no DATA on the stream after its end. */
  lemma NoHeadersOrDataAfterEnd<H, Hd>(env: Env<H, Hd>, fs: seq<Frame>, id: nat)
    requires forall i :: 0 <= i < |fs| && Get(After(env, fs[..i]), id).complete && fs[i].stream == id ==>
               fs[i].kind != HEADERS && fs[i].kind != DATA
    ensures NothingLate(env, fs, id)
  {
    forall i | 0 <= i < |fs| && Get(After(env, fs[..i]), id).complete
      ensures !LateEffect(env, After(env, fs[..i]), fs[i], id)
    {}
  }

  /** Then the half is final as soon as it is complete. */
  lemma {:induction false} Frozen<H, Hd>(env: Env<H, Hd>, fs: seq<Frame>, n: nat, id: nat)
    requires n <= |fs| && NothingLate(env, fs, id) && Get(After(env, fs[..n]), id).complete
    ensures Get(After(env, fs), id) == Get(After(env, fs[..n]), id)
    decreases |fs| - n
  {
    if n == |fs| {
      assert fs[..n] == fs;
    } else {
      AfterNext(env, fs, n);
      LateEffectIs(env, After(env, fs[..n]), fs[n], id);
      Frozen(env, fs, n + 1, id);
    }
  }

  // ----- the connection is two directions

  function HalfIn<H, Hd>(s: Conn<H, Hd>, id: nat, fromClient: bool): Half<Hd> {
    if id in s.streams then s.streams[id].Side(fromClient) else EmptyHalf()
  }

  ghost predicate SideMatches<H, Hd>(s: Conn<H, Hd>, d: Dir<H, Hd>, fromClient: bool) {
    && s.Hpack(fromClient) == d.hpack
    && forall id: nat :: id !in s.ended ==> HalfIn(s, id, fromClient) == Get(d, id)
  }

  lemma DispatchHalf<H, Hd>(env: Env<H, Hd>, s: Conn<H, Hd>, fromClient: bool, f: Frame, id: nat)
    requires f.kind != PUSH_PROMISE
    ensures var s' := Dispatch(env, s, fromClient, f);
      && HalfIn(s', id, !fromClient) == HalfIn(s, id, !fromClient)
      && HalfIn(s', id, fromClient) ==
           (if Created(env, f) && f.stream == id && id > 0
            then HalfStep(env, s.Hpack(fromClient), HalfIn(s, id, fromClient), f) else HalfIn(s, id, fromClient))
  {}

  /** A frame acts on its own direction as if the other did not exist. */
  lemma DispatchSides<H, Hd>(env: Env<H, Hd>, s: Conn<H, Hd>, fromClient: bool, f: Frame, d: Dir<H, Hd>, e: Dir<H, Hd>)
    requires SideMatches(s, d, fromClient) && SideMatches(s, e, !fromClient) && f.kind != PUSH_PROMISE
    ensures var s' := Dispatch(env, s, fromClient, f);
      SideMatches(s', DirStep(env, d, f), fromClient) && SideMatches(s', e, !fromClient)
  {
    var s' := Dispatch(env, s, fromClient, f);
    var d' := DirStep(env, d, f);
    assert s'.ended == s.ended && s'.Hpack(fromClient) == d'.hpack && s'.Hpack(!fromClient) == e.hpack;
    forall id: nat | id !in s.ended
      ensures HalfIn(s', id, fromClient) == Get(d', id) && HalfIn(s', id, !fromClient) == Get(e, id)
    {
      DispatchHalf(env, s, fromClient, f, id);
      assert HalfIn(s, id, fromClient) == Get(d, id) && HalfIn(s, id, !fromClient) == Get(e, id);
    }
  }

  /** No exception escapes and nothing is pushed. */
  ghost predicate Clean<H, Hd>(env: Env<H, Hd>, fromClient: bool, fs: seq<Frame>) {
    forall i :: 0 <= i < |fs| ==> fs[i].kind != PUSH_PROMISE && !env.raises(fromClient, fs[i])
  }

  lemma {:induction false} FoldSides<H, Hd>(
    env: Env<H, Hd>, s: Conn<H, Hd>, fromClient: bool, fs: seq<Frame>, d: Dir<H, Hd>, e: Dir<H, Hd>)
    requires SideMatches(s, d, fromClient) && SideMatches(s, e, !fromClient) && Clean(env, fromClient, fs)
    ensures AllHandled(HandlerOf(env, fromClient), s, fs)
    ensures var s' := Fold(HandlerOf(env, fromClient), s, fs);
      SideMatches(s', DirRun(env, d, fs), fromClient) && SideMatches(s', e, !fromClient)
    decreases |fs|
  {
    if fs != [] {
      DispatchSides(env, s, fromClient, fs[0], d, e);
      assert Clean(env, fromClient, fs[1..]) by {
        assert forall i :: 0 <= i < |fs[1..]| ==> fs[1..][i] == fs[i + 1];
      }
      FoldSides(env, Dispatch(env, s, fromClient, fs[0]), fromClient, fs[1..], DirStep(env, d, fs[0]), e);
    }
  }

  lemma {:induction false} FoldKeeps<H, Hd>(env: Env<H, Hd>, s: Conn<H, Hd>, fromClient: bool, fs: seq<Frame>)
    requires Valid(s)
    requires AllHandled(HandlerOf(env, fromClient), s, fs)
    ensures var s' := Fold(HandlerOf(env, fromClient), s, fs);
      Valid(s') && s'.ended == s.ended && s'.clientBuffer == s.clientBuffer && s'.serverBuffer == s.serverBuffer
    decreases |fs|
  {
    if fs != [] {
      DispatchValid(env, s, fromClient, fs[0]);
      FoldKeeps(env, Dispatch(env, s, fromClient, fs[0]), fromClient, fs[1..]);
    }
  }

  predicate BothComplete<H, Hd>(d: Dir<H, Hd>, e: Dir<H, Hd>, id: nat) { Get(d, id).complete && Get(e, id).complete }

  /** The connection after `mine` arrived in one direction and `other` in the other. */
  ghost predicate Sync<H, Hd>(env: Env<H, Hd>, s: Conn<H, Hd>, fromClient: bool, mine: seq<byte>, other: seq<byte>) {
    && Valid(s)
    && s.Buffer(fromClient) == Leftover(mine) && s.Buffer(!fromClient) == Leftover(other)
    && SideMatches(s, After(env, Frames(mine)), fromClient) && SideMatches(s, After(env, Frames(other)), !fromClient)
    && forall id: nat :: id in s.ended <==> BothComplete(After(env, Frames(mine)), After(env, Frames(other)), id)
  }

  function RecordFor<Hd>(records: seq<Record<Hd>>, id: nat): Option<Record<Hd>> {
    if records == [] then None
    else if records[0].stream == id then Some(records[0])
    else RecordFor(records[1..], id)
  }

  function Joint<H, Hd>(fromClient: bool, id: nat, d: Dir<H, Hd>, e: Dir<H, Hd>): Record<Hd> {
    if fromClient then Record(id, Get(d, id), Get(e, id)) else Record(id, Get(e, id), Get(d, id))
  }

  lemma {:induction false} RecordForIs<Hd>(records: seq<Record<Hd>>, id: nat)
    ensures RecordFor(records, id) == None <==> id !in Ids(records)
    ensures RecordFor(records, id).Some? ==> exists i :: 0 <= i < |records| && records[i].stream == id && RecordFor(records, id) == Some(records[i])
  {
    if records != [] {
      RecordForIs(records[1..], id);
      if records[0].stream != id && RecordFor(records[1..], id).Some? {
        var i :| 0 <= i < |records[1..]| && records[1..][i].stream == id && RecordFor(records[1..], id) == Some(records[1..][i]);
        assert records[i + 1] == records[1..][i];
      }
    }
  }

  lemma {:induction false} RecordForJoin<Hd>(a: seq<Record<Hd>>, b: seq<Record<Hd>>, id: nat)
    ensures RecordFor(a + b, id) == if RecordFor(a, id).Some? then RecordFor(a, id) else RecordFor(b, id)
  {
    if a == [] {
      assert a + b == b;
    } else {
      RecordForJoin(a[1..], b, id);
      assert (a + b)[1..] == a[1..] + b;
    }
  }

  /** Collecting emits, for a stream that has not ended, exactly the two halves if both are complete. */
  lemma CollectSides<H, Hd>(s: Conn<H, Hd>, fromClient: bool, d: Dir<H, Hd>, e: Dir<H, Hd>)
    requires Valid(s) && SideMatches(s, d, fromClient) && SideMatches(s, e, !fromClient)
    ensures var (s', records) := Collect(s);
      && SideMatches(s', d, fromClient) && SideMatches(s', e, !fromClient)
      && (forall id: nat :: id in s'.ended <==> id in s.ended || BothComplete(d, e, id))
      && (forall id: nat :: RecordFor(records, id) ==
            if id !in s.ended && BothComplete(d, e, id) then Some(Joint(fromClient, id, d, e)) else None)
  {
    var (s', records) := Collect(s);
    CollectValid(s);
    forall id: nat
      ensures id in s'.ended <==> id in s.ended || BothComplete(d, e, id)
      ensures RecordFor(records, id) ==
        if id !in s.ended && BothComplete(d, e, id) then Some(Joint(fromClient, id, d, e)) else None
    {
      assert id !in s.ended ==> HalfIn(s, id, fromClient) == Get(d, id) && HalfIn(s, id, !fromClient) == Get(e, id);
      assert Completed(s, id) <==> id !in s.ended && BothComplete(d, e, id);
      RecordForIs(records, id);
      IdsAt(records);
    }
    forall id: nat | id !in s'.ended
      ensures HalfIn(s', id, fromClient) == Get(d, id) && HalfIn(s', id, !fromClient) == Get(e, id)
    {
      assert id !in s.ended && id !in Ids(records);
      assert HalfIn(s, id, fromClient) == Get(d, id) && HalfIn(s, id, !fromClient) == Get(e, id);
    }
  }

  lemma CleanSuffix<H, Hd>(env: Env<H, Hd>, fromClient: bool, fs: seq<Frame>, more: seq<Frame>)
    requires Clean(env, fromClient, fs + more)
    ensures Clean(env, fromClient, more)
  {
    assert forall i :: 0 <= i < |more| ==> more[i] == (fs + more)[|fs| + i];
  }

  lemma EndedStay<H, Hd>(env: Env<H, Hd>, d: Dir<H, Hd>, e: Dir<H, Hd>, fs: seq<Frame>, ended: set<nat>)
    requires forall id :: id in ended ==> BothComplete(d, e, id)
    ensures forall id :: id in ended ==> BothComplete(DirRun(env, d, fs), e, id)
  {
    forall id | id in ended ensures BothComplete(DirRun(env, d, fs), e, id) {
      assert BothComplete(d, e, id);
      StaysComplete(env, d, fs, id);
    }
  }

  /** The frames of one direction, and then its new buffer. */
  lemma FoldSync<H, Hd>(
    env: Env<H, Hd>, s: Conn<H, Hd>, fromClient: bool, fs: seq<Frame>, d: Dir<H, Hd>, e: Dir<H, Hd>, left: seq<byte>)
    requires Valid(s) && SideMatches(s, d, fromClient) && SideMatches(s, e, !fromClient) && Clean(env, fromClient, fs)
    ensures AllHandled(HandlerOf(env, fromClient), s, fs)
    ensures var s' := Fold(HandlerOf(env, fromClient), s, fs).WithBuffer(fromClient, left);
      && Valid(s') && s'.ended == s.ended
      && s'.Buffer(fromClient) == left && s'.Buffer(!fromClient) == s.Buffer(!fromClient)
      && SideMatches(s', DirRun(env, d, fs), fromClient) && SideMatches(s', e, !fromClient)
  {
    FoldSides(env, s, fromClient, fs, d, e);
    FoldKeeps(env, s, fromClient, fs);
    var s1 := Fold(HandlerOf(env, fromClient), s, fs);
    SidesIgnoreBuffers(s1, s1.WithBuffer(fromClient, left), DirRun(env, d, fs), fromClient);
    SidesIgnoreBuffers(s1, s1.WithBuffer(fromClient, left), e, !fromClient);
  }

  /** More bytes of one direction: the frames they complete, and what that direction has come to. */
  lemma MoreBytes<H, Hd>(env: Env<H, Hd>, fromClient: bool, mine: seq<byte>, p: seq<byte>)
    requires Clean(env, fromClient, Frames(mine + p))
    ensures var fs := Frames(Leftover(mine) + p);
      && Clean(env, fromClient, fs) && Leftover(mine + p) == Leftover(Leftover(mine) + p)
      && After(env, Frames(mine + p)) == DirRun(env, After(env, Frames(mine)), fs)
  {
    FramesSplit(mine, p);
    CleanSuffix(env, fromClient, Frames(mine), Frames(Leftover(mine) + p));
    DirRunJoin(env, Start(env), Frames(mine), Frames(Leftover(mine) + p));
  }

  /** One segment in one direction, before completed streams are collected. */
  lemma ParseSync<H, Hd>(env: Env<H, Hd>, s: Conn<H, Hd>, fromClient: bool, mine: seq<byte>, other: seq<byte>, p: seq<byte>)
    requires Sync(env, s, fromClient, mine, other) && Clean(env, fromClient, Frames(mine + p))
    ensures var (s1, left) := Parse(HandlerOf(env, fromClient), s, s.Buffer(fromClient) + p);
      var s2, d, e := s1.WithBuffer(fromClient, left), After(env, Frames(mine + p)), After(env, Frames(other));
      && Valid(s2) && s2.ended == s.ended
      && s2.Buffer(fromClient) == Leftover(mine + p) && s2.Buffer(!fromClient) == Leftover(other)
      && SideMatches(s2, d, fromClient) && SideMatches(s2, e, !fromClient)
      && forall id: nat :: id in s.ended ==> BothComplete(d, e, id)
  {
    var d, e, buffer := After(env, Frames(mine)), After(env, Frames(other)), Leftover(mine) + p;
    MoreBytes(env, fromClient, mine, p);
    FoldSync(env, s, fromClient, Frames(buffer), d, e, Leftover(buffer));
    ParseIsFold(HandlerOf(env, fromClient), s, buffer);
    EndedStay(env, d, e, Frames(buffer), s.ended);
  }

  /** One segment in one direction. */
  lemma PacketSync<H, Hd>(env: Env<H, Hd>, s: Conn<H, Hd>, fromClient: bool, mine: seq<byte>, other: seq<byte>, p: seq<byte>)
    requires Sync(env, s, fromClient, mine, other) && Clean(env, fromClient, Frames(mine + p))
    ensures var (s', records) := Packet(env, s, fromClient, p);
      && Sync(env, s', fromClient, mine + p, other)
      && (forall id: nat :: RecordFor(records, id) ==
            if id !in s.ended && id in s'.ended
            then Some(Joint(fromClient, id, After(env, Frames(mine + p)), After(env, Frames(other)))) else None)
  {
    if p == [] {
      assert mine + p == mine;
    } else {
      ParseSync(env, s, fromClient, mine, other, p);
      var (s1, left) := Parse(HandlerOf(env, fromClient), s, s.Buffer(fromClient) + p);
      var s2 := s1.WithBuffer(fromClient, left);
      CollectSides(s2, fromClient, After(env, Frames(mine + p)), After(env, Frames(other)));
      CollectValid(s2);
    }
  }

  lemma SidesIgnoreBuffers<H, Hd>(s: Conn<H, Hd>, s': Conn<H, Hd>, d: Dir<H, Hd>, fromClient: bool)
    requires SideMatches(s, d, fromClient)
    requires s'.clientHpack == s.clientHpack && s'.serverHpack == s.serverHpack
    requires s'.streams == s.streams && s'.ended == s.ended
    ensures SideMatches(s', d, fromClient)
  {
    assert forall id: nat :: id !in s.ended ==> HalfIn(s', id, fromClient) == HalfIn(s, id, fromClient);
  }

  lemma SyncSwap<H, Hd>(env: Env<H, Hd>, s: Conn<H, Hd>, fromClient: bool, mine: seq<byte>, other: seq<byte>)
    requires Sync(env, s, fromClient, mine, other)
    ensures Sync(env, s, !fromClient, other, mine)
  {
    assert !!fromClient == fromClient;
  }

  // ----- whole sessions

  function Part(s: Segment, fromClient: bool): seq<byte> { if s.fromClient == fromClient then s.payload else [] }

  /** The bytes a schedule delivers in one direction. */
  function Bytes(segments: seq<Segment>, fromClient: bool): seq<byte> {
    if segments == [] then [] else Part(segments[0], fromClient) + Bytes(segments[1..], fromClient)
  }

  ghost predicate Delivers(segments: seq<Segment>, fromClient: bool, mine: seq<byte>, other: seq<byte>) {
    Bytes(segments, fromClient) == mine && Bytes(segments, !fromClient) == other
  }

  lemma FramesPrefix(a: seq<byte>, b: seq<byte>)
    ensures |Frames(a)| <= |Frames(a + b)| && Frames(a) == Frames(a + b)[..|Frames(a)|]
  {
    FramesSplit(a, b);
  }

  lemma CleanPrefix<H, Hd>(env: Env<H, Hd>, fromClient: bool, a: seq<byte>, b: seq<byte>)
    requires Clean(env, fromClient, Frames(a + b))
    ensures Clean(env, fromClient, Frames(a))
  {
    FramesPrefix(a, b);
    assert forall i :: 0 <= i < |Frames(a)| ==> Frames(a)[i] == Frames(a + b)[i];
  }

  ghost predicate Final<H, Hd>(env: Env<H, Hd>, mine: seq<byte>, other: seq<byte>, id: nat) {
    BothComplete(After(env, Frames(mine)), After(env, Frames(other)), id)
  }

  ghost function FinalRecord<H, Hd>(env: Env<H, Hd>, fromClient: bool, mine: seq<byte>, other: seq<byte>, id: nat)
    : Option<Record<Hd>>
  {
    if Final(env, mine, other, id)
    then Some(Joint(fromClient, id, After(env, Frames(mine)), After(env, Frames(other)))) else None
  }

  lemma JointSwap<H, Hd>(env: Env<H, Hd>, mine: seq<byte>, other: seq<byte>, id: nat, fromClient: bool)
    ensures FinalRecord(env, fromClient, mine, other, id) == FinalRecord(env, !fromClient, other, mine, id)
  {}

  /** If more bytes of one direction only come after the half is complete, and nothing late, it is final. */
  lemma HalfFinal<H, Hd>(env: Env<H, Hd>, a: seq<byte>, b: seq<byte>, id: nat)
    requires NothingLate(env, Frames(a + b), id) && Get(After(env, Frames(a)), id).complete
    ensures Get(After(env, Frames(a + b)), id) == Get(After(env, Frames(a)), id)
  {
    FramesPrefix(a, b);
    Frozen(env, Frames(a + b), |Frames(a)|, id);
  }

  /** What may have been emitted for a stream by the time C and V have arrived: nothing if it had ended
      before, nothing if the directions are not both complete, and the final halves if nothing came late. */
  ghost predicate Emits<H, Hd>(env: Env<H, Hd>, endedBefore: bool, r: Option<Record<Hd>>, C: seq<byte>, V: seq<byte>, id: nat) {
    && (endedBefore || !Final(env, C, V, id) ==> r == None)
    && (!endedBefore && NothingLate(env, Frames(C), id) && NothingLate(env, Frames(V), id) ==>
          r == FinalRecord(env, true, C, V, id))
  }

  lemma EmitsNext<H, Hd>(env: Env<H, Hd>, before: bool, now: bool, r1: Option<Record<Hd>>, r2: Option<Record<Hd>>,
                         c: seq<byte>, moreC: seq<byte>, v: seq<byte>, moreV: seq<byte>, id: nat)
    requires r1 == if !before && now then FinalRecord(env, true, c, v, id) else None
    requires (now <==> Final(env, c, v, id)) && (before ==> now)
    requires Emits(env, now, r2, c + moreC, v + moreV, id)
    ensures Emits(env, before, if r1.Some? then r1 else r2, c + moreC, v + moreV, id)
  {
    if now {
      StillFinal(env, c, moreC, v, moreV, id);
    }
  }

  /** A session is its first segment and then the rest. */
  lemma SessionNext<H, Hd>(env: Env<H, Hd>, s: Conn<H, Hd>, segments: seq<Segment>, id: nat)
    requires segments != []
    ensures var (s1, first) := Packet(env, s, segments[0].fromClient, segments[0].payload);
      && Session(env, s, segments).0 == Session(env, s1, segments[1..]).0
      && RecordFor(Session(env, s, segments).1, id) ==
           (if RecordFor(first, id).Some? then RecordFor(first, id)
            else RecordFor(Session(env, s1, segments[1..]).1, id))
  {
    var (s1, first) := Packet(env, s, segments[0].fromClient, segments[0].payload);
    RecordForJoin(first, Session(env, s1, segments[1..]).1, id);
  }

  lemma EmitsNow<H, Hd>(env: Env<H, Hd>, s: Conn<H, Hd>, c: seq<byte>, v: seq<byte>, id: nat)
    requires Sync(env, s, true, c, v)
    ensures Emits(env, id in s.ended, None, c, v, id)
  {}

  lemma {:induction false} BytesNext(segments: seq<Segment>, c: seq<byte>, fromClient: bool)
    requires segments != []
    ensures c + Bytes(segments, fromClient) == (c + Part(segments[0], fromClient)) + Bytes(segments[1..], fromClient)
  {
    var x, y := Part(segments[0], fromClient), Bytes(segments[1..], fromClient);
    assert c + (x + y) == (c + x) + y;
  }

  /** Every schedule keeps the connection in sync with the bytes delivered, and emits as described. */
  lemma {:induction false} SessionEmits<H, Hd>(
    env: Env<H, Hd>, s: Conn<H, Hd>, c: seq<byte>, v: seq<byte>, segments: seq<Segment>, id: nat,
    C: seq<byte>, V: seq<byte>)
    requires Sync(env, s, true, c, v)
    requires C == c + Bytes(segments, true) && V == v + Bytes(segments, false)
    requires Clean(env, true, Frames(C)) && Clean(env, false, Frames(V))
    ensures Sync(env, Session(env, s, segments).0, true, C, V)
    ensures Emits(env, id in s.ended, RecordFor(Session(env, s, segments).1, id), C, V, id)
    decreases |segments|
  {
    if segments == [] {
      assert C == c && V == v;
      EmitsNow(env, s, c, v, id);
    } else {
      var p, rest := segments[0], segments[1..];
      var c1, v1 := c + Part(p, true), v + Part(p, false);
      BytesNext(segments, c, true);
      BytesNext(segments, v, false);
      SegmentSync(env, s, c, v, p, Bytes(rest, true), Bytes(rest, false), id);
      SessionRest(env, s, c1, v1, segments, id, C, V);
    }
  }

  lemma {:induction false} SessionRest<H, Hd>(
    env: Env<H, Hd>, s: Conn<H, Hd>, c1: seq<byte>, v1: seq<byte>, segments: seq<Segment>, id: nat,
    C: seq<byte>, V: seq<byte>)
    requires segments != []
    requires C == c1 + Bytes(segments[1..], true) && V == v1 + Bytes(segments[1..], false)
    requires Clean(env, true, Frames(C)) && Clean(env, false, Frames(V))
    requires var (s1, first) := Packet(env, s, segments[0].fromClient, segments[0].payload);
      && Sync(env, s1, true, c1, v1)
      && RecordFor(first, id) == (if id !in s.ended && id in s1.ended then FinalRecord(env, true, c1, v1, id) else None)
      && (id in s.ended ==> id in s1.ended)
      && (id in s1.ended <==> Final(env, c1, v1, id))
    ensures Sync(env, Session(env, s, segments).0, true, C, V)
    ensures Emits(env, id in s.ended, RecordFor(Session(env, s, segments).1, id), C, V, id)
    decreases |segments|, 0
  {
    var rest := segments[1..];
    var (s1, first) := Packet(env, s, segments[0].fromClient, segments[0].payload);
    SessionEmits(env, s1, c1, v1, rest, id, C, V);
    SessionNext(env, s, segments, id);
    EmitsNext(env, id in s.ended, id in s1.ended, RecordFor(first, id), RecordFor(Session(env, s1, rest).1, id),
              c1, Bytes(rest, true), v1, Bytes(rest, false), id);
  }

  /** One segment of either direction. */
  lemma SegmentSync<H, Hd>(env: Env<H, Hd>, s: Conn<H, Hd>, c: seq<byte>, v: seq<byte>, p: Segment,
                           moreC: seq<byte>, moreV: seq<byte>, id: nat)
    requires Sync(env, s, true, c, v)
    requires Clean(env, true, Frames((c + Part(p, true)) + moreC))
    requires Clean(env, false, Frames((v + Part(p, false)) + moreV))
    ensures var (s1, first) := Packet(env, s, p.fromClient, p.payload);
      var c1, v1 := c + Part(p, true), v + Part(p, false);
      && Sync(env, s1, true, c1, v1)
      && RecordFor(first, id) == (if id !in s.ended && id in s1.ended then FinalRecord(env, true, c1, v1, id) else None)
      && (id in s.ended ==> id in s1.ended)
      && (id in s1.ended <==> Final(env, c1, v1, id))
  {
    if p.fromClient {
      assert v + Part(p, false) == v;
      CleanPrefix(env, true, c + p.payload, moreC);
      PacketFor(env, s, true, c, v, p.payload, id);
    } else {
      assert c + Part(p, true) == c;
      CleanPrefix(env, false, v + p.payload, moreV);
      SyncSwap(env, s, true, c, v);
      PacketFor(env, s, false, v, c, p.payload, id);
      var (s1, _) := Packet(env, s, false, p.payload);
      SyncSwap(env, s1, false, v + p.payload, c);
      JointSwap(env, c, v + p.payload, id, true);
    }
  }

  /** One segment, seen from one stream. */
  lemma PacketFor<H, Hd>(env: Env<H, Hd>, s: Conn<H, Hd>, fromClient: bool, mine: seq<byte>, other: seq<byte>,
                         p: seq<byte>, id: nat)
    requires Sync(env, s, fromClient, mine, other) && Clean(env, fromClient, Frames(mine + p))
    ensures var (s', records) := Packet(env, s, fromClient, p);
      && Sync(env, s', fromClient, mine + p, other)
      && (id in s.ended ==> id in s'.ended)
      && (id in s.ended <==> Final(env, mine, other, id))
      && (id in s'.ended <==> Final(env, mine + p, other, id))
      && RecordFor(records, id) ==
           (if id !in s.ended && id in s'.ended then FinalRecord(env, fromClient, mine + p, other, id) else None)
  {
    PacketSync(env, s, fromClient, mine, other, p);
    PacketValid(env, s, fromClient, p);
  }

  /** Both halves complete now stay complete, and stay as they are if nothing is late. */
  lemma StillFinal<H, Hd>(env: Env<H, Hd>, c: seq<byte>, moreC: seq<byte>, v: seq<byte>, moreV: seq<byte>, id: nat)
    requires Final(env, c, v, id)
    ensures Final(env, c + moreC, v + moreV, id)
    ensures NothingLate(env, Frames(c + moreC), id) && NothingLate(env, Frames(v + moreV), id) ==>
      FinalRecord(env, true, c + moreC, v + moreV, id) == FinalRecord(env, true, c, v, id)
  {
    FramesSplit(c, moreC);
    DirRunJoin(env, Start(env), Frames(c), Frames(Leftover(c) + moreC));
    StaysComplete(env, After(env, Frames(c)), Frames(Leftover(c) + moreC), id);
    FramesSplit(v, moreV);
    DirRunJoin(env, Start(env), Frames(v), Frames(Leftover(v) + moreV));
    StaysComplete(env, After(env, Frames(v)), Frames(Leftover(v) + moreV), id);
    if NothingLate(env, Frames(c + moreC), id) && NothingLate(env, Frames(v + moreV), id) {
      HalfFinal(env, c, moreC, id);
      HalfFinal(env, v, moreV, id);
    }
  }

  lemma FreshSync<H, Hd>(env: Env<H, Hd>, fromClient: bool)
    ensures Sync(env, Fresh(env), fromClient, [], [])
  {}

  /** Whatever arrives in whatever order, as long as no exception escapes, nothing is pushed and nothing is
      added to a direction of the stream after that direction's end: the stream is emitted exactly if both
      directions become complete, with the halves the two byte strings determine on their own. */
  lemma EmittedFromBytes<H, Hd>(env: Env<H, Hd>, segments: seq<Segment>, C: seq<byte>, V: seq<byte>, id: nat)
    requires Delivers(segments, true, C, V)
    requires Clean(env, true, Frames(C)) && Clean(env, false, Frames(V))
    requires NothingLate(env, Frames(C), id) && NothingLate(env, Frames(V), id)
    ensures RecordFor(Session(env, Fresh(env), segments).1, id) == FinalRecord(env, true, C, V, id)
  {
    FreshSync(env, true);
    assert [] + C == C && [] + V == V;
    SessionEmits(env, Fresh(env), [], [], segments, id, C, V);
  }

  // ----- and the condition is exact

  ghost predicate SameForAllSchedules<H, Hd>(env: Env<H, Hd>, fromClient: bool, mine: seq<byte>, other: seq<byte>, id: nat) {
    forall p, q :: Delivers(p, fromClient, mine, other) && Delivers(q, fromClient, mine, other) ==>
      RecordFor(Session(env, Fresh(env), p).1, id) == RecordFor(Session(env, Fresh(env), q).1, id)
  }

  /** Where the n-th frame starts. */
  function FrameStart(b: seq<byte>, n: nat): nat
    requires n <= |Frames(b)|
    decreases |b|
  {
    if n == 0 then 0 else FrameSize(b) + FrameStart(b[FrameSize(b)..], n - 1)
  }

  lemma CutFront(b: seq<byte>, tail: seq<byte>)
    requires HasFrame(b)
    ensures Frames(b[..FrameSize(b)] + tail) == [FirstFrame(b)] + Frames(tail)
  {
    var front := b[..FrameSize(b)];
    assert FrameSize(front) == FrameSize(b);
    assert front[HEADER_SIZE..FrameSize(b)] == b[HEADER_SIZE..FrameSize(b)];
    assert FirstFrame(front) == FirstFrame(b);
    FrontFrame(front, tail);
    assert front[FrameSize(b)..] + tail == tail;
  }

  lemma {:induction false} CutAtFrame(b: seq<byte>, n: nat)
    requires n <= |Frames(b)|
    ensures FrameStart(b, n) <= |b|
    ensures Frames(b[..FrameStart(b, n)]) == Frames(b)[..n]
    ensures n > 0 ==> FrameStart(b, n) > 0
    decreases |b|
  {
    if n == 0 {
      assert b[..0] == [] && Frames(b)[..0] == [];
    } else {
      var k := FrameSize(b);
      var rest := b[k..];
      CutAtFrame(rest, n - 1);
      var m := FrameStart(rest, n - 1);
      CutFront(b, rest[..m]);
      TwoCuts(b, k, m);
      HeadFirst(FirstFrame(b), Frames(rest), n);
    }
  }

  lemma TwoCuts<T>(b: seq<T>, k: nat, m: nat)
    requires k + m <= |b|
    ensures b[..k + m] == b[..k] + b[k..][..m]
  {}

  lemma HeadFirst<T>(x: T, xs: seq<T>, n: nat)
    requires 0 < n <= |xs| + 1
    ensures ([x] + xs)[..n] == [x] + xs[..n - 1]
  {}

  /** The empty byte string completes nothing. */
  lemma NothingYet<H, Hd>(env: Env<H, Hd>, other: seq<byte>, id: nat)
    ensures !Final(env, [], other, id) && !Final(env, other, [], id)
  {}

  /** A segment of each direction, after which both halves are complete, emits the stream. */
  lemma FirstTwo<H, Hd>(env: Env<H, Hd>, fromClient: bool, a: seq<byte>, b: seq<byte>, id: nat)
    requires Clean(env, fromClient, Frames(a)) && Clean(env, !fromClient, Frames(b)) && Final(env, a, b, id)
    ensures var (t1, r1) := Packet(env, Fresh(env), fromClient, a);
      var (_, r2) := Packet(env, t1, !fromClient, b);
      RecordFor(r1, id) == None && RecordFor(r2, id) == FinalRecord(env, fromClient, a, b, id)
  {
    assert [] + a == a && [] + b == b;
    FreshSync(env, fromClient);
    PacketFor(env, Fresh(env), fromClient, [], [], a, id);
    NothingYet(env, a, id);
    var (t1, _) := Packet(env, Fresh(env), fromClient, a);
    SyncSwap(env, t1, fromClient, a, []);
    PacketFor(env, t1, !fromClient, [], a, b, id);
    JointSwap(env, a, b, id, fromClient);
    assert Final(env, b, a, id);
  }

  /** A schedule that emits the half of `mine` at a chosen frame boundary: all of `other`, then `mine` up to
      there, then the rest of `mine`. */
  lemma CutSchedule<H, Hd>(env: Env<H, Hd>, fromClient: bool, mine: seq<byte>, other: seq<byte>, id: nat, n: nat)
    returns (p: seq<Segment>)
    requires Clean(env, fromClient, Frames(mine)) && Clean(env, !fromClient, Frames(other))
    requires n <= |Frames(mine)| && Get(After(env, Frames(mine)[..n]), id).complete
    requires Get(After(env, Frames(other)), id).complete
    ensures Delivers(p, fromClient, mine, other)
    ensures RecordFor(Session(env, Fresh(env), p).1, id) ==
      Some(Joint(fromClient, id, After(env, Frames(mine)[..n]), After(env, Frames(other))))
  {
    CutAtFrame(mine, n);
    var a, b := mine[..FrameStart(mine, n)], mine[FrameStart(mine, n)..];
    assert a + b == mine;
    CleanPrefix(env, fromClient, a, b);
    p := [Segment(!fromClient, other), Segment(fromClient, a), Segment(fromClient, b)];
    assert Final(env, other, a, id);
    assert !!fromClient == fromClient;
    FirstTwo(env, !fromClient, other, a, id);
    FirstRecord(env, Fresh(env), p[0], p[1], p[2], id);
    JointSwap(env, a, other, id, fromClient);
    BytesOfThree(p[0], p[1], p[2], fromClient);
    BytesOfThree(p[0], p[1], p[2], !fromClient);
    assert [] + (a + b) == mine;
    assert other + ([] + []) == other;
  }

  lemma BytesOfThree(s1: Segment, s2: Segment, s3: Segment, fromClient: bool)
    ensures Bytes([s1, s2, s3], fromClient) == Part(s1, fromClient) + (Part(s2, fromClient) + Part(s3, fromClient))
  {
    assert [s1, s2, s3][1..] == [s2, s3] && [s2, s3][1..] == [s3] && [s3][1..] == [];
    assert Bytes([s3], fromClient) == Part(s3, fromClient) + [] == Part(s3, fromClient);
  }

  /** What the second segment emits is what the session emits, if the first emits nothing. */
  lemma FirstRecord<H, Hd>(env: Env<H, Hd>, t0: Conn<H, Hd>, s1: Segment, s2: Segment, s3: Segment, id: nat)
    requires var (t1, r1) := Packet(env, t0, s1.fromClient, s1.payload);
      var (_, r2) := Packet(env, t1, s2.fromClient, s2.payload);
      RecordFor(r1, id) == None && RecordFor(r2, id).Some?
    ensures var (t1, _) := Packet(env, t0, s1.fromClient, s1.payload);
      var (_, r2) := Packet(env, t1, s2.fromClient, s2.payload);
      RecordFor(Session(env, t0, [s1, s2, s3]).1, id) == RecordFor(r2, id)
  {
    var (t1, _) := Packet(env, t0, s1.fromClient, s1.payload);
    SessionNext(env, t0, [s1, s2, s3], id);
    assert [s1, s2, s3][1..] == [s2, s3];
    SessionNext(env, t1, [s2, s3], id);
  }

  /** A frame that comes late in one direction, with the other direction complete, makes two schedules of
      the same bytes emit different records. */
  lemma LateFrameShows<H, Hd>(env: Env<H, Hd>, fromClient: bool, mine: seq<byte>, other: seq<byte>, id: nat)
    requires Clean(env, fromClient, Frames(mine)) && Clean(env, !fromClient, Frames(other))
    requires !NothingLate(env, Frames(mine), id) && Get(After(env, Frames(other)), id).complete
    ensures !SameForAllSchedules(env, fromClient, mine, other, id)
  {
    var fs := Frames(mine);
    var i :| 0 <= i < |fs| && Get(After(env, fs[..i]), id).complete && LateEffect(env, After(env, fs[..i]), fs[i], id);
    AfterNext(env, fs, i);
    LateEffectIs(env, After(env, fs[..i]), fs[i], id);
    var one := [fs[i]];
    StaysComplete(env, After(env, fs[..i]), one, id);
    assert Get(After(env, fs[..i + 1]), id).complete by {
      assert one[1..] == [];
      assert DirRun(env, After(env, fs[..i]), one) == DirStep(env, After(env, fs[..i]), fs[i]);
    }
    var p := CutSchedule(env, fromClient, mine, other, id, i);
    var q := CutSchedule(env, fromClient, mine, other, id, i + 1);
  }

  lemma SameSwap<H, Hd>(env: Env<H, Hd>, fromClient: bool, mine: seq<byte>, other: seq<byte>, id: nat)
    requires SameForAllSchedules(env, fromClient, mine, other, id)
    ensures SameForAllSchedules(env, !fromClient, other, mine, id)
  {
    assert forall p :: Delivers(p, !fromClient, other, mine) <==> Delivers(p, fromClient, mine, other);
  }

  /** The exact law.  Without escaping exceptions and pushed streams, what is emitted for a stream is the
      same for every segmentation and every alternation of the two directions if and only if the
      directions do not both complete, or nothing is added to either of them after its end. */
  lemma ScheduleIrrelevantIff<H, Hd>(env: Env<H, Hd>, C: seq<byte>, V: seq<byte>, id: nat)
    requires Clean(env, true, Frames(C)) && Clean(env, false, Frames(V))
    ensures SameForAllSchedules(env, true, C, V, id) <==>
      !Final(env, C, V, id) || (NothingLate(env, Frames(C), id) && NothingLate(env, Frames(V), id))
  {
    if !Final(env, C, V, id) || (NothingLate(env, Frames(C), id) && NothingLate(env, Frames(V), id)) {
      forall p | Delivers(p, true, C, V)
        ensures RecordFor(Session(env, Fresh(env), p).1, id) == FinalRecord(env, true, C, V, id)
      {
        FreshSync(env, true);
        assert [] + C == C && [] + V == V;
        SessionEmits(env, Fresh(env), [], [], p, id, C, V);
      }
    } else if !NothingLate(env, Frames(C), id) {
      LateFrameShows(env, true, C, V, id);
    } else {
      LateFrameShows(env, false, V, C, id);
      if SameForAllSchedules(env, true, C, V, id) {
        SameSwap(env, true, C, V, id);
      }
    }
  }

  /** The schedule does matter: the client ends the stream and then sends more data on it, the server resets
      it, and what is emitted depends on whether the reset arrives before or after that data. */
  lemma ScheduleMatters<H, Hd>(env: Env<H, Hd>, id: nat, late: seq<byte>) returns (C: seq<byte>, V: seq<byte>)
    requires 0 < id < 0x8000_0000 && 0 < |late| < 0x100_0000
    requires env.creates(DATA, id) && env.creates(RST_STREAM, id)
    requires !env.raises(true, Frame(DATA, 1, id, [])) && !env.raises(true, Frame(DATA, 0, id, late))
    requires !env.raises(false, Frame(RST_STREAM, 0, id, [0, 0, 0, 0]))
    ensures Frames(C) == [Frame(DATA, 1, id, []), Frame(DATA, 0, id, late)]
    ensures Frames(V) == [Frame(RST_STREAM, 0, id, [0, 0, 0, 0])]
    ensures Final(env, C, V, id) && !NothingLate(env, Frames(C), id)
    ensures !SameForAllSchedules(env, true, C, V, id)
  {
    var end, more, reset := Frame(DATA, 1, id, []), Frame(DATA, 0, id, late), Frame(RST_STREAM, 0, id, [0, 0, 0, 0]);
    C, V := EncodeAll([end, more]), EncodeAll([reset]);
    FramesOfEncoded([end, more], []);
    FramesOfEncoded([reset], []);
    assert C + [] == C && V + [] == V;
    EndThenMore(env, end, more, id);
    AfterNext(env, [reset], 0);
    assert [reset][..0] == [] && [reset][..1] == [reset];
    ScheduleIrrelevantIff(env, C, V, id);
  }

  lemma EndThenMore<H, Hd>(env: Env<H, Hd>, end: Frame, more: Frame, id: nat)
    requires id > 0 && env.creates(DATA, id) && end == Frame(DATA, 1, id, [])
    requires more.kind == DATA && more.stream == id && more.body != []
    ensures Get(After(env, [end, more]), id).complete && !NothingLate(env, [end, more], id)
  {
    var fs := [end, more];
    AfterNext(env, fs, 0);
    AfterNext(env, fs, 1);
    assert fs[..0] == [] && fs[..2] == fs;
    assert Get(After(env, fs[..1]), id).complete;
    assert LateEffect(env, After(env, fs[..1]), fs[1], id);
  }
}
