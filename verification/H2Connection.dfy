/**
 What the decoder does with the frames of one connection: header blocks and data are assembled per
 stream and direction, and a stream is emitted once both directions are complete.

 HPACK is a decoder state per direction and functions on it.  `creates` says whether the frame library
 accepts a frame type on a stream identifier, `raises` whether an exception escapes while a frame is
 handled.
 */
module H2Connection {
  import opened Sequences
  import opened H2Frames

  datatype Env<!H, !Hd> = Env(
    initial: H,
    decode: (H, seq<byte>) -> (H, Option<seq<Hd>>),
    resize: (H, nat) -> H,
    creates: (byte, nat) -> bool,
    raises: (bool, Frame) -> bool)

  const DATA: byte := 0
  const HEADERS: byte := 1
  const RST_STREAM: byte := 3
  const SETTINGS: byte := 4
  const PUSH_PROMISE: byte := 5
  const LAST_SUPPORTED: byte := 8

  /** One direction of a stream. */
  datatype Half<+Hd> = Half(headers: seq<Hd>, data: seq<byte>, trailers: seq<Hd>, complete: bool)

  datatype Stream<+Hd> = Stream(client: Half<Hd>, server: Half<Hd>) {
    function Side(fromClient: bool): Half<Hd> { if fromClient then client else server }
    function WithSide(fromClient: bool, half: Half<Hd>): Stream<Hd> {
      if fromClient then this.(client := half) else this.(server := half)
    }
  }

  function EmptyHalf<Hd>(): Half<Hd> { Half([], [], [], false) }
  function EmptyStream<Hd>(): Stream<Hd> { Stream(EmptyHalf(), EmptyHalf()) }

  /** `order` is the insertion order of the stream table. */
  datatype Conn<+H, +Hd> = Conn(
    clientHpack: H, serverHpack: H,
    streams: map<nat, Stream<Hd>>, order: seq<nat>,
    clientBuffer: seq<byte>, serverBuffer: seq<byte>,
    ended: set<nat>)
  {
    function Hpack(fromClient: bool): H { if fromClient then clientHpack else serverHpack }
    function WithHpack(fromClient: bool, h: H): Conn<H, Hd> {
      if fromClient then this.(clientHpack := h) else this.(serverHpack := h)
    }
    function Buffer(fromClient: bool): seq<byte> { if fromClient then clientBuffer else serverBuffer }
    function WithBuffer(fromClient: bool, b: seq<byte>): Conn<H, Hd> {
      if fromClient then this.(clientBuffer := b) else this.(serverBuffer := b)
    }
  }

  function Fresh<H, Hd>(env: Env<H, Hd>): Conn<H, Hd> {
    Conn(env.initial, env.initial, map[], [], [], [], {})
  }

  // ----- one half

  function AddHeaders<Hd(==)>(half: Half<Hd>, headers: seq<Hd>, end: bool): Half<Hd> {
    var h := if half.headers == [] then half.(headers := headers) else half.(trailers := headers);
    if end then h.(complete := true) else h
  }

  function AddData<Hd>(half: Half<Hd>, data: seq<byte>, end: bool): Half<Hd> {
    var h := half.(data := half.data + data);
    if end then h.(complete := true) else h
  }

  predicate EndStream(f: Frame) { f.flags % 2 == 1 }

  /** Decoding never fails outward: a broken block counts as an empty one. */
  function DecodeHeaders<H, Hd>(env: Env<H, Hd>, h: H, block: seq<byte>): (H, seq<Hd>) {
    var (h', r) := env.decode(h, block);
    (h', match r case Some(headers) => headers case None => [])
  }

  predicate Created<H, Hd>(env: Env<H, Hd>, f: Frame) { f.kind > LAST_SUPPORTED || env.creates(f.kind, f.stream) }

  /** What a frame does to the half of its own stream and direction. */
  function HalfStep<H, Hd(==)>(env: Env<H, Hd>, h: H, half: Half<Hd>, f: Frame): Half<Hd> {
    if f.kind == HEADERS then AddHeaders(half, DecodeHeaders(env, h, f.body).1, EndStream(f))
    else if f.kind == DATA then AddData(half, f.body, EndStream(f))
    else if f.kind == RST_STREAM && |f.body| == 4 then half.(complete := true)
    else half
  }

  // ----- settings

  /** SETTINGS_HEADER_TABLE_SIZE resizes the decoder; a body that is not a whole number of settings is
      dropped altogether. */
  function ApplySettings<H, Hd>(env: Env<H, Hd>, h: H, body: seq<byte>): H
    decreases |body|
  {
    if |body| < 6 then h else
      var h' := if Number(body[..2]) == 1 then env.resize(h, Number(body[2..6])) else h;
      ApplySettings(env, h', body[6..])
  }

  /** What a frame does to the HPACK decoder of its direction. */
  function HpackStep<H, Hd>(env: Env<H, Hd>, h: H, f: Frame): H {
    if f.stream > 0 then (if f.kind == HEADERS then DecodeHeaders(env, h, f.body).0 else h)
    else if f.kind == SETTINGS && |f.body| % 6 == 0 then ApplySettings(env, h, f.body)
    else h
  }

  // SETTINGS as section 6.5 of RFC 7540 lays them out.

  datatype Setting = Setting(id: nat, value: nat)

  predicate InBounds(settings: seq<Setting>) {
    forall i :: 0 <= i < |settings| ==> settings[i].id < 0x1_0000 && settings[i].value < 0x1_0000_0000
  }

  function EncodeSettings(settings: seq<Setting>): seq<byte> {
    if settings == [] then []
    else BigEndian(settings[0].id, 2) + BigEndian(settings[0].value, 4) + EncodeSettings(settings[1..])
  }

  function DecodeSettings(body: seq<byte>): seq<Setting>
    requires |body| % 6 == 0
    decreases |body|
  {
    if body == [] then [] else [Setting(Number(body[..2]), Number(body[2..6]))] + DecodeSettings(body[6..])
  }

  /** The values of SETTINGS_HEADER_TABLE_SIZE, identifier 0x1, in order. */
  function TableSizes(settings: seq<Setting>): seq<nat> {
    if settings == [] then []
    else (if settings[0].id == 0x1 then [settings[0].value] else []) + TableSizes(settings[1..])
  }

  function ResizeAll<H, Hd>(env: Env<H, Hd>, h: H, sizes: seq<nat>): H
    decreases |sizes|
  {
    if sizes == [] then h else ResizeAll(env, env.resize(h, sizes[0]), sizes[1..])
  }

  /** Every body of whole settings is the layout of the settings read from it. */
  lemma {:induction false} SettingsRoundTrip(body: seq<byte>)
    requires |body| % 6 == 0
    ensures EncodeSettings(DecodeSettings(body)) == body
    decreases |body|
  {
    if body != [] {
      var settings := DecodeSettings(body);
      SettingsRoundTrip(body[6..]);
      assert settings[1..] == DecodeSettings(body[6..]);
      BigEndianOf(body[..2]);
      BigEndianOf(body[2..6]);
      assert body == body[..2] + body[2..6] + body[6..];
    }
  }

  lemma EncodedFirst(settings: seq<Setting>)
    requires settings != []
    ensures var body := EncodeSettings(settings);
      && |body| >= 6 && body[..2] == BigEndian(settings[0].id, 2) && body[2..6] == BigEndian(settings[0].value, 4)
      && body[6..] == EncodeSettings(settings[1..])
  {}

  /** Applying a SETTINGS body resizes the decoder with the values of exactly those settings that have the
      identifier 0x1, in order. */
  lemma {:induction false} SettingsApplied<H, Hd>(env: Env<H, Hd>, h: H, settings: seq<Setting>)
    requires InBounds(settings)
    ensures |EncodeSettings(settings)| % 6 == 0
    ensures ApplySettings(env, h, EncodeSettings(settings)) == ResizeAll(env, h, TableSizes(settings))
    decreases |settings|
  {
    if settings != [] {
      var body, first, rest := EncodeSettings(settings), settings[0], settings[1..];
      EncodedFirst(settings);
      FitsTwo(first.id);
      FitsFour(first.value);
      NumberOf(first.id, 2);
      NumberOf(first.value, 4);
      SettingsApplied(env, if first.id == 1 then env.resize(h, first.value) else h, rest);
      if first.id == 1 {
        assert TableSizes(settings)[1..] == TableSizes(rest);
      } else {
        assert TableSizes(settings) == TableSizes(rest);
      }
    }
  }

  /** What a SETTINGS frame does to the decoder of its direction: a body that is not a whole number of settings
      does nothing. */
  lemma SettingsFrame<H, Hd>(env: Env<H, Hd>, h: H, f: Frame)
    requires f.stream == 0 && f.kind == 0x4
    ensures HpackStep(env, h, f) ==
      if |f.body| % 6 == 0 then ResizeAll(env, h, TableSizes(DecodeSettings(f.body))) else h
  {
    if |f.body| % 6 == 0 {
      SettingsRoundTrip(f.body);
      DecodedInBounds(f.body);
      SettingsApplied(env, h, DecodeSettings(f.body));
    }
  }

  lemma {:induction false} DecodedInBounds(body: seq<byte>)
    requires |body| % 6 == 0
    ensures InBounds(DecodeSettings(body))
    decreases |body|
  {
    if body != [] {
      var id, value := Number(body[..2]), Number(body[2..6]);
      NumberFits(body[..2]);
      NumberFits(body[2..6]);
      FitsTwo(id);
      FitsFour(value);
      DecodedInBounds(body[6..]);
    }
  }

  // ----- the connection

  function Ensure<H, Hd>(s: Conn<H, Hd>, id: nat): Conn<H, Hd> {
    if id in s.streams then s
    else s.(streams := s.streams[id := EmptyStream()], order := s.order + [id])
  }

  /** PUSH_PROMISE: the promised request becomes the client side of the promised stream, decoded with the
      server's decoder. */
  function Promise<H, Hd(==)>(env: Env<H, Hd>, s: Conn<H, Hd>, f: Frame): Conn<H, Hd> {
    if |f.body| < 4 then s else
      var id := Number(f.body[..4]) % 0x8000_0000;
      var (h, headers) := DecodeHeaders(env, s.serverHpack, f.body[4..]);
      var s1 := Ensure(s.(serverHpack := h), id);
      var stream := s1.streams[id];
      s1.(streams := s1.streams[id := stream.(client := AddHeaders(stream.client, headers, false))])
  }

  /** What a promise of a stream amounts to: the header block, decoded with the server's decoder, becomes the
      headers of the promised stream's client side, or its trailers if it has headers; neither side is
      completed by it, and no other stream and no server side changes. */
  lemma PromiseIs<H, Hd>(env: Env<H, Hd>, s: Conn<H, Hd>, f: Frame, id: nat, block: seq<byte>)
    requires id < 0x8000_0000 && f.body == BigEndian(id, 4) + block
    ensures var s', before := Promise(env, s, f), if id in s.streams then s.streams[id] else EmptyStream();
      var headers := env.decode(s.serverHpack, block).1;
      && s'.serverHpack == env.decode(s.serverHpack, block).0 && s'.clientHpack == s.clientHpack && s'.ended == s.ended
      && s'.streams.Keys == s.streams.Keys + {id}
      && (forall k :: k in s.streams && k != id ==> s'.streams[k] == s.streams[k])
      && s'.streams[id].server == before.server
      && TakesBlock(before.client, s'.streams[id].client, if headers.Some? then headers.value else [])
  {
    FitsFour(id);
    NumberOf(id, 4);
    assert f.body[..4] == BigEndian(id, 4) && f.body[4..] == block;
    var s1 := Ensure(s.(serverHpack := env.decode(s.serverHpack, block).0), id);
    assert s1.streams.Keys == s.streams.Keys + {id};
    assert Promise(env, s, f).streams.Keys == s1.streams.Keys;
  }

  /** The first block that is not empty becomes the headers, what follows it the trailers. */
  ghost predicate TakesBlock<Hd>(before: Half<Hd>, after: Half<Hd>, block: seq<Hd>) {
    && after.headers == (if before.headers == [] then block else before.headers)
    && after.trailers == (if before.headers == [] then before.trailers else block)
    && after.data == before.data && after.complete == before.complete
  }

  function Dispatch<H, Hd(==)>(env: Env<H, Hd>, s: Conn<H, Hd>, fromClient: bool, f: Frame): Conn<H, Hd> {
    if !Created(env, f) then s
    else if f.stream == 0 then s.WithHpack(fromClient, HpackStep(env, s.Hpack(fromClient), f))
    else
      var s1 := Ensure(s, f.stream);
      if f.kind == PUSH_PROMISE then Promise(env, s1, f) else
        var stream := s1.streams[f.stream];
        var half := HalfStep(env, s1.Hpack(fromClient), stream.Side(fromClient), f);
        s1.(streams := s1.streams[f.stream := stream.WithSide(fromClient, half)])
          .WithHpack(fromClient, HpackStep(env, s1.Hpack(fromClient), f))
  }

  function HandlerOf<H, Hd(==)>(env: Env<H, Hd>, fromClient: bool): Handler<Conn<H, Hd>> {
    (s: Conn<H, Hd>, f: Frame) =>
      if env.raises(fromClient, f) then Raised(s) else Handled(Dispatch(env, s, fromClient, f))
  }

  datatype Record<+Hd> = Record(stream: nat, client: Half<Hd>, server: Half<Hd>)

  predicate Completed<H, Hd>(s: Conn<H, Hd>, id: nat) {
    id in s.streams && s.streams[id].server.complete && s.streams[id].client.complete && id !in s.ended
  }

  /** The completed streams among the given ids, in that order. */
  function CompletedOf<H, Hd>(s: Conn<H, Hd>, ids: seq<nat>): seq<nat> {
    if ids == [] then [] else (if Completed(s, ids[0]) then [ids[0]] else []) + CompletedOf(s, ids[1..])
  }

  function RecordOf<H, Hd>(s: Conn<H, Hd>, id: nat): Record<Hd>
    requires id in s.streams
  {
    Record(id, s.streams[id].client, s.streams[id].server)
  }

  function RecordsOf<H, Hd>(s: Conn<H, Hd>, ids: seq<nat>): (r: seq<Record<Hd>>)
    requires forall i :: 0 <= i < |ids| ==> ids[i] in s.streams
    ensures |r| == |ids| && forall i :: 0 <= i < |ids| ==> r[i] == RecordOf(s, ids[i])
  {
    if ids == [] then [] else [RecordOf(s, ids[0])] + RecordsOf(s, ids[1..])
  }

  function Without(ids: seq<nat>, gone: set<nat>): seq<nat> {
    if ids == [] then [] else (if ids[0] in gone then [] else [ids[0]]) + Without(ids[1..], gone)
  }

  lemma {:induction false} CompletedOfIs<H, Hd>(s: Conn<H, Hd>, ids: seq<nat>)
    ensures forall id :: id in CompletedOf(s, ids) <==> id in ids && Completed(s, id)
    ensures Distinct(ids) ==> Distinct(CompletedOf(s, ids))
  {
    if ids != [] {
      CompletedOfIs(s, ids[1..]);
      assert forall id :: id in ids <==> id == ids[0] || id in ids[1..];
    }
  }

  lemma {:induction false} WithoutIs(ids: seq<nat>, gone: set<nat>)
    ensures forall id :: id in Without(ids, gone) <==> id in ids && id !in gone
    ensures Distinct(ids) ==> Distinct(Without(ids, gone))
  {
    if ids != [] {
      WithoutIs(ids[1..], gone);
      assert forall id :: id in ids <==> id == ids[0] || id in ids[1..];
    }
  }

  /** The ids of the completed streams. */
  function Ready<H, Hd>(s: Conn<H, Hd>): (r: seq<nat>)
    ensures forall i :: 0 <= i < |r| ==> r[i] in s.streams && Completed(s, r[i])
  {
    CompletedOfIs(s, s.order);
    var r := CompletedOf(s, s.order);
    assert forall i :: 0 <= i < |r| ==> r[i] in r;
    r
  }

  function Members(ids: seq<nat>): set<nat> { set id | id in ids }

  /** _collect_and_remove_completed_streams */
  function Collect<H, Hd>(s: Conn<H, Hd>): (Conn<H, Hd>, seq<Record<Hd>>) {
    var ready := Ready(s);
    var gone := Members(ready);
    (s.(streams := s.streams - gone, order := Without(s.order, gone), ended := s.ended + gone), RecordsOf(s, ready))
  }

  /** One TCP segment of an established connection, frames being handled by any handler. */
  function PacketBy<H, Hd>(h: Handler<Conn<H, Hd>>, s: Conn<H, Hd>, fromClient: bool, payload: seq<byte>)
    : (Conn<H, Hd>, seq<Record<Hd>>)
  {
    if payload == [] then (s, []) else
      var (s1, left) := Parse(h, s, s.Buffer(fromClient) + payload);
      Collect(s1.WithBuffer(fromClient, left))
  }

  /** One TCP segment of an established connection. */
  function Packet<H, Hd(==)>(env: Env<H, Hd>, s: Conn<H, Hd>, fromClient: bool, payload: seq<byte>)
    : (Conn<H, Hd>, seq<Record<Hd>>)
  {
    PacketBy(HandlerOf(env, fromClient), s, fromClient, payload)
  }

  datatype Segment = Segment(fromClient: bool, payload: seq<byte>)

  function Session<H, Hd(==)>(env: Env<H, Hd>, s: Conn<H, Hd>, segments: seq<Segment>)
    : (Conn<H, Hd>, seq<Record<Hd>>)
    decreases |segments|
  {
    if segments == [] then (s, []) else
      var (s1, first) := Packet(env, s, segments[0].fromClient, segments[0].payload);
      var (s2, rest) := Session(env, s1, segments[1..]);
      (s2, first + rest)
  }

  // ----- in any run at all, a stream id is emitted at most once

  ghost predicate Valid<H, Hd>(s: Conn<H, Hd>) {
    && Distinct(s.order)
    && (forall id :: id in s.order <==> id in s.streams)
  }

  lemma EnsureValid<H, Hd>(s: Conn<H, Hd>, id: nat)
    requires Valid(s)
    ensures Valid(Ensure(s, id)) && Ensure(s, id).ended == s.ended
  {
    var s' := Ensure(s, id);
    if id !in s.streams {
      assert forall x :: x in s'.order <==> x in s.order || x == id;
    }
  }

  lemma DispatchValid<H, Hd>(env: Env<H, Hd>, s: Conn<H, Hd>, fromClient: bool, f: Frame)
    requires Valid(s)
    ensures Valid(Dispatch(env, s, fromClient, f)) && Dispatch(env, s, fromClient, f).ended == s.ended
  {
    if Created(env, f) && f.stream != 0 {
      EnsureValid(s, f.stream);
      var s1 := Ensure(s, f.stream);
      if f.kind == PUSH_PROMISE && |f.body| >= 4 {
        var (h, _) := DecodeHeaders(env, s1.serverHpack, f.body[4..]);
        EnsureValid(s1.(serverHpack := h), Number(f.body[..4]) % 0x8000_0000);
      }
    }
  }

  // A handler is careful if, whatever else it does, raising half-way included, it keeps the stream table in
  // order and leaves the ended ids to the collection.

  lemma {:induction false} ParseKeeps<H, Hd>(h: Handler<Conn<H, Hd>>, s: Conn<H, Hd>, b: seq<byte>)
    requires Valid(s)
    requires forall x: Conn<H, Hd>, f :: Valid(x) ==> Valid(h(x, f).state) && h(x, f).state.ended == x.ended
    ensures var (s', _) := Parse(h, s, b); Valid(s') && s'.ended == s.ended
    decreases |b|
  {
    if HasFrame(b) {
      match h(s, FirstFrame(b))
      case Handled(s') => ParseKeeps(h, s', b[FrameSize(b)..]);
      case Raised(s') =>
        match FindNext(b, 1) {
          case None =>
          case Some(i) => ParseKeeps(h, s', b[i..]);
        }
    }
  }

  lemma HandlerIsCareful<H, Hd>(env: Env<H, Hd>, fromClient: bool)
    ensures forall x: Conn<H, Hd>, f ::
      Valid(x) ==> Valid(HandlerOf(env, fromClient)(x, f).state) && HandlerOf(env, fromClient)(x, f).state.ended == x.ended
  {
    var h := HandlerOf(env, fromClient);
    forall x: Conn<H, Hd>, f | Valid(x) ensures Valid(h(x, f).state) && h(x, f).state.ended == x.ended {
      DispatchValid(env, x, fromClient, f);
    }
  }

  lemma ParseValid<H, Hd>(env: Env<H, Hd>, s: Conn<H, Hd>, fromClient: bool, b: seq<byte>)
    requires Valid(s)
    ensures var (s', _) := Parse(HandlerOf(env, fromClient), s, b); Valid(s') && s'.ended == s.ended
  {
    HandlerIsCareful(env, fromClient);
    ParseKeeps(HandlerOf(env, fromClient), s, b);
  }

  function Ids<Hd>(records: seq<Record<Hd>>): seq<nat> {
    if records == [] then [] else [records[0].stream] + Ids(records[1..])
  }

  lemma {:induction false} IdsAt<Hd>(records: seq<Record<Hd>>)
    ensures |Ids(records)| == |records| && forall i :: 0 <= i < |records| ==> Ids(records)[i] == records[i].stream
  {
    if records != [] { IdsAt(records[1..]); }
  }

  /** Emitted streams leave the table, and no others do. */
  lemma CollectLeaves<H, Hd>(s: Conn<H, Hd>)
    requires Valid(s)
    ensures var s' := Collect(s).0;
      && (forall id :: id in s'.streams <==> id in s.streams && !Completed(s, id))
      && (forall id :: id in s'.streams ==> s'.streams[id] == s.streams[id])
      && s'.clientHpack == s.clientHpack && s'.serverHpack == s.serverHpack
      && s'.clientBuffer == s.clientBuffer && s'.serverBuffer == s.serverBuffer
  {
    CompletedOfIs(s, s.order);
  }

  /** Streams are emitted in the order in which they entered the table. */
  lemma {:induction false} CompletedInOrder<H, Hd>(s: Conn<H, Hd>, ids: seq<nat>, i: nat, j: nat)
    requires i < j < |CompletedOf(s, ids)|
    ensures exists a, b :: 0 <= a < b < |ids| && ids[a] == CompletedOf(s, ids)[i] && ids[b] == CompletedOf(s, ids)[j]
  {
    var all, rest := CompletedOf(s, ids), CompletedOf(s, ids[1..]);
    if Completed(s, ids[0]) && i == 0 {
      CompletedOfIs(s, ids[1..]);
      assert all[j] == rest[j - 1] && rest[j - 1] in rest;
      var b :| 0 <= b < |ids[1..]| && ids[1..][b] == all[j];
      assert ids[0] == all[i] && ids[b + 1] == all[j];
    } else {
      var n := if Completed(s, ids[0]) then 1 else 0;
      assert all[i] == rest[i - n] && all[j] == rest[j - n];
      CompletedInOrder(s, ids[1..], i - n, j - n);
      var a, b :| 0 <= a < b < |ids[1..]| && ids[1..][a] == all[i] && ids[1..][b] == all[j];
      assert ids[a + 1] == all[i] && ids[b + 1] == all[j];
    }
  }

  lemma CollectValid<H, Hd>(s: Conn<H, Hd>)
    requires Valid(s)
    ensures var (s', records) := Collect(s);
      && Valid(s') && Ids(records) == Ready(s)
      && Distinct(Ids(records))
      && (forall id :: id in Ids(records) <==> Completed(s, id))
      && (forall id :: id in s'.ended <==> id in s.ended || id in Ids(records))
  {
    var (s', records) := Collect(s);
    CompletedOfIs(s, s.order);
    WithoutIs(s.order, Members(Ready(s)));
    IdsAt(records);
  }

  lemma PacketKeeps<H, Hd>(h: Handler<Conn<H, Hd>>, s: Conn<H, Hd>, fromClient: bool, payload: seq<byte>)
    requires Valid(s)
    requires forall x: Conn<H, Hd>, f :: Valid(x) ==> Valid(h(x, f).state) && h(x, f).state.ended == x.ended
    ensures var (s', records) := PacketBy(h, s, fromClient, payload);
      && Valid(s') && Distinct(Ids(records))
      && (forall id :: id in Ids(records) ==> id !in s.ended)
      && (forall id :: id in s'.ended <==> id in s.ended || id in Ids(records))
  {
    if payload != [] {
      var (s1, left) := Parse(h, s, s.Buffer(fromClient) + payload);
      ParseKeeps(h, s, s.Buffer(fromClient) + payload);
      CollectValid(s1.WithBuffer(fromClient, left));
    }
  }

  lemma PacketValid<H, Hd>(env: Env<H, Hd>, s: Conn<H, Hd>, fromClient: bool, payload: seq<byte>)
    requires Valid(s)
    ensures var (s', records) := Packet(env, s, fromClient, payload);
      && Valid(s') && Distinct(Ids(records))
      && (forall id :: id in Ids(records) ==> id !in s.ended)
      && (forall id :: id in s'.ended <==> id in s.ended || id in Ids(records))
  {
    HandlerIsCareful(env, fromClient);
    PacketKeeps(HandlerOf(env, fromClient), s, fromClient, payload);
  }

  lemma {:induction false} IdsJoin<Hd>(a: seq<Record<Hd>>, b: seq<Record<Hd>>)
    ensures Ids(a + b) == Ids(a) + Ids(b)
  {
    if a == [] {
      assert a + b == b;
    } else {
      IdsJoin(a[1..], b);
      assert (a + b)[1..] == a[1..] + b;
    }
  }

  /** A session whose frames of each direction are handled by any handler. */
  function SessionBy<H, Hd>(hs: bool -> Handler<Conn<H, Hd>>, s: Conn<H, Hd>, segments: seq<Segment>)
    : (Conn<H, Hd>, seq<Record<Hd>>)
    decreases |segments|
  {
    if segments == [] then (s, []) else
      var fromClient := segments[0].fromClient;
      var (s1, first) := PacketBy(hs(fromClient), s, fromClient, segments[0].payload);
      var (s2, rest) := SessionBy(hs, s1, segments[1..]);
      (s2, first + rest)
  }

  /** Whatever arrives, pushed streams, reused ids, recoveries and handlers that raise after any part of
      their work included, no stream id is emitted twice on a connection, and the ids emitted are exactly
      those marked as ended. */
  lemma {:induction false} EmittedOnce<H, Hd>(
    hs: bool -> Handler<Conn<H, Hd>>, s: Conn<H, Hd>, segments: seq<Segment>)
    requires Valid(s)
    requires forall fromClient, x: Conn<H, Hd>, f ::
      Valid(x) ==> Valid(hs(fromClient)(x, f).state) && hs(fromClient)(x, f).state.ended == x.ended
    ensures var (s', records) := SessionBy(hs, s, segments);
      && Valid(s') && Distinct(Ids(records))
      && (forall id :: id in Ids(records) ==> id !in s.ended)
      && (forall id :: id in s'.ended <==> id in s.ended || id in Ids(records))
    decreases |segments|
  {
    if segments != [] {
      var fromClient := segments[0].fromClient;
      var (s1, first) := PacketBy(hs(fromClient), s, fromClient, segments[0].payload);
      var (s2, rest) := SessionBy(hs, s1, segments[1..]);
      PacketKeeps(hs(fromClient), s, fromClient, segments[0].payload);
      EmittedOnce(hs, s1, segments[1..]);
      IdsJoin(first, rest);
      assert forall id :: id in Ids(first) + Ids(rest) <==> id in Ids(first) || id in Ids(rest);
      assert forall i, j :: 0 <= i < |Ids(first)| && 0 <= j < |Ids(rest)| ==> Ids(first)[i] != Ids(rest)[j] by {
        assert forall i :: 0 <= i < |Ids(first)| ==> Ids(first)[i] in s1.ended;
      }
    }
  }

  function Handlers<H, Hd(==)>(env: Env<H, Hd>): bool -> Handler<Conn<H, Hd>> {
    fromClient => HandlerOf(env, fromClient)
  }

  lemma {:induction false} SessionIs<H, Hd>(env: Env<H, Hd>, s: Conn<H, Hd>, segments: seq<Segment>)
    ensures Session(env, s, segments) == SessionBy(Handlers(env), s, segments)
    decreases |segments|
  {
    if segments != [] {
      var (s1, first) := Packet(env, s, segments[0].fromClient, segments[0].payload);
      SessionIs(env, s1, segments[1..]);
    }
  }

  /** The same of sessions with the decoder's own handler. */
  lemma SessionEmitsOnce<H, Hd>(env: Env<H, Hd>, s: Conn<H, Hd>, segments: seq<Segment>)
    requires Valid(s)
    ensures var (s', records) := Session(env, s, segments);
      && Valid(s') && Distinct(Ids(records))
      && (forall id :: id in Ids(records) ==> id !in s.ended)
      && (forall id :: id in s'.ended <==> id in s.ended || id in Ids(records))
  {
    SessionIs(env, s, segments);
    forall fromClient, x: Conn<H, Hd>, f | Valid(x)
      ensures Valid(Handlers(env)(fromClient)(x, f).state) && Handlers(env)(fromClient)(x, f).state.ended == x.ended
    {
      DispatchValid(env, x, fromClient, f);
    }
    EmittedOnce(Handlers(env), s, segments);
  }
}
