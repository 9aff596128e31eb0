/**
 A whole capture: packets of any number of connections, told apart by their pair of addresses.  A
 connection is tracked from the first packet that holds the client preface (section 3.5 of RFC 7540).
 */
module H2Capture {
  import opened Sequences
  import opened H2Frames
  import opened H2Connection

  // ----- the key of a connection

  datatype Addr = Addr(ip: string, port: nat)

  /** Strings in dictionary order. */
  predicate Before(a: string, b: string) {
    b != [] && (a == [] || a[0] < b[0] || (a[0] == b[0] && Before(a[1..], b[1..])))
  }

  predicate Less(a: Addr, b: Addr) { Before(a.ip, b.ip) || (a.ip == b.ip && a.port < b.port) }

  datatype Key = Key(lowIp: string, highIp: string, lowPort: nat, highPort: nat)

  function Canonical(src: Addr, dst: Addr): Key {
    if Less(src, dst) then Key(src.ip, dst.ip, src.port, dst.port) else Key(dst.ip, src.ip, dst.port, src.port)
  }

  lemma {:induction false} Trichotomy(a: string, b: string)
    ensures !(Before(a, b) && Before(b, a)) && !Before(a, a)
    ensures a != b ==> Before(a, b) || Before(b, a)
  {
    if a != [] {
      Trichotomy(a[1..], if b == [] then [] else b[1..]);
      if b != [] && a[0] == b[0] && a[1..] == b[1..] {
        assert a == [a[0]] + a[1..] && b == [b[0]] + b[1..];
      }
    }
  }

  /** Both directions of a connection share a key, and no two connections do. */
  lemma CanonicalIff(a: Addr, b: Addr, c: Addr, d: Addr)
    ensures Canonical(a, b) == Canonical(c, d) <==> (a == c && b == d) || (a == d && b == c)
  {
    Trichotomy(a.ip, b.ip);
    Trichotomy(c.ip, d.ip);
  }

  // ----- the preface

  const PREFACE: seq<byte> :=
    [80, 82, 73, 32, 42, 32, 72, 84, 84, 80, 47, 50, 46, 48, 13, 10, 13, 10, 83, 77, 13, 10, 13, 10]

  predicate PrefaceAt(b: seq<byte>, i: nat) { i + |PREFACE| <= |b| && b[i..i + |PREFACE|] == PREFACE }

  /** Where the preface first occurs. */
  function FindPreface(b: seq<byte>, from: nat): (r: Option<nat>)
    ensures r.Some? ==> from <= r.value && PrefaceAt(b, r.value) && forall i :: from <= i < r.value ==> !PrefaceAt(b, i)
    ensures r.None? ==> forall i :: from <= i ==> !PrefaceAt(b, i)
    decreases |b| - from
  {
    if from + |PREFACE| > |b| then None else if PrefaceAt(b, from) then Some(from) else FindPreface(b, from + 1)
  }

  ghost predicate Opens(p: TcpPacket) { exists i :: PrefaceAt(p.payload, i) }

  function AfterPreface(b: seq<byte>): seq<byte>
    requires FindPreface(b, 0).Some?
  {
    b[FindPreface(b, 0).value + |PREFACE|..]
  }

  // ----- the table of connections

  datatype TcpPacket = TcpPacket(src: Addr, dst: Addr, payload: seq<byte>)

  datatype Tracked<+H, +Hd> = Tracked(client: Addr, server: Addr, conn: Conn<H, Hd>)

  datatype Emitted<+Hd> = Emitted(client: Addr, server: Addr, record: Record<Hd>)

  type Table<+H, +Hd> = map<Key, Tracked<H, Hd>>

  function KeyOf(p: TcpPacket): Key { Canonical(p.src, p.dst) }

  function Entry<H, Hd>(t: Table<H, Hd>, k: Key): Option<Tracked<H, Hd>> { if k in t then Some(t[k]) else None }

  function Labelled<Hd>(client: Addr, server: Addr, records: seq<Record<Hd>>): (r: seq<Emitted<Hd>>)
    ensures |r| == |records| && forall i :: 0 <= i < |r| ==> r[i] == Emitted(client, server, records[i])
  {
    if records == [] then [] else [Emitted(client, server, records[0])] + Labelled(client, server, records[1..])
  }

  /** What a packet does to a connection that is already tracked: whoever did not send the preface is the
      server. */
  function Follow<H, Hd(==)>(env: Env<H, Hd>, c: Tracked<H, Hd>, p: TcpPacket): (Tracked<H, Hd>, seq<Emitted<Hd>>) {
    var (conn, records) := Packet(env, c.conn, p.src == c.client, p.payload);
    (c.(conn := conn), Labelled(c.client, c.server, records))
  }

  /** The first tracked packet of a connection. */
  function Open<H, Hd(==)>(env: Env<H, Hd>, p: TcpPacket, bytes: seq<byte>): (Tracked<H, Hd>, seq<Emitted<Hd>>) {
    var (conn, left) := Parse(HandlerOf(env, true), Fresh(env), bytes);
    var (conn', records) := Collect(conn.WithBuffer(true, left));
    (Tracked(p.src, p.dst, conn'), Labelled(p.src, p.dst, records))
  }

  /** process_tcp_packet */
  function Tcp<H, Hd(==)>(env: Env<H, Hd>, t: Table<H, Hd>, p: TcpPacket): (Table<H, Hd>, seq<Emitted<Hd>>) {
    if p.payload == [] then (t, [])
    else if KeyOf(p) in t then
      var (c, out) := Follow(env, t[KeyOf(p)], p);
      (t[KeyOf(p) := c], out)
    else if FindPreface(p.payload, 0).Some? then
      var (c, out) := Open(env, p, AfterPreface(p.payload));
      (t[KeyOf(p) := c], out)
    else (t, [])
  }

  function Capture<H, Hd(==)>(env: Env<H, Hd>, t: Table<H, Hd>, packets: seq<TcpPacket>)
    : (Table<H, Hd>, seq<Emitted<Hd>>)
    decreases |packets|
  {
    if packets == [] then (t, []) else
      var (t1, first) := Tcp(env, t, packets[0]);
      var (t2, rest) := Capture(env, t1, packets[1..]);
      (t2, first + rest)
  }

  // ----- one connection at a time: the reference

  function SentOn(k: Key): TcpPacket -> bool { p => KeyOf(p) == k }
  function Source<Hd>(e: Emitted<Hd>): Key { Canonical(e.client, e.server) }
  function EmittedOn<Hd>(k: Key): Emitted<Hd> -> bool { e => Source(e) == k }

  /** The packets of one connection, and what was emitted for it. */
  function Own(packets: seq<TcpPacket>, k: Key): seq<TcpPacket> { Filter(SentOn(k), packets) }
  function OwnOut<Hd>(out: seq<Emitted<Hd>>, k: Key): seq<Emitted<Hd>> { Filter(EmittedOn(k), out) }

  function Segments(client: Addr, packets: seq<TcpPacket>): seq<Segment> {
    if packets == [] then [] else [Segment(packets[0].src == client, packets[0].payload)] + Segments(client, packets[1..])
  }

  /** What a connection's packets amount to on their own: nothing until one holds the preface, and from
      there on the session of the segments, the sender of that packet being the client. */
  function Alone<H, Hd(==)>(env: Env<H, Hd>, packets: seq<TcpPacket>): (Option<Tracked<H, Hd>>, seq<Emitted<Hd>>)
    decreases |packets|
  {
    if packets == [] then (None, [])
    else if FindPreface(packets[0].payload, 0).None? then Alone(env, packets[1..])
    else
      var p := packets[0];
      var segments := [Segment(true, AfterPreface(p.payload))] + Segments(p.src, packets[1..]);
      var (conn, records) := Session(env, Fresh(env), segments);
      (Some(Tracked(p.src, p.dst, conn)), Labelled(p.src, p.dst, records))
  }

  /** The same for a connection that may be tracked already. */
  function Continue<H, Hd(==)>(env: Env<H, Hd>, o: Option<Tracked<H, Hd>>, packets: seq<TcpPacket>)
    : (Option<Tracked<H, Hd>>, seq<Emitted<Hd>>)
  {
    match o
    case None => Alone(env, packets)
    case Some(c) =>
      var (conn, records) := Session(env, c.conn, Segments(c.client, packets));
      (Some(c.(conn := conn)), Labelled(c.client, c.server, records))
  }

  ghost predicate Sound<H, Hd>(t: Table<H, Hd>) {
    forall k :: k in t ==> Canonical(t[k].client, t[k].server) == k && Valid(t[k].conn)
  }

  lemma LabelledJoin<Hd>(client: Addr, server: Addr, a: seq<Record<Hd>>, b: seq<Record<Hd>>)
    ensures Labelled(client, server, a + b) == Labelled(client, server, a) + Labelled(client, server, b)
  {}

  /** Opening a connection is following a fresh one. */
  lemma OpenIsPacket<H, Hd>(env: Env<H, Hd>, p: TcpPacket, bytes: seq<byte>)
    ensures Open(env, p, bytes) ==
      var (conn, records) := Packet(env, Fresh(env), true, bytes);
      (Tracked(p.src, p.dst, conn), Labelled(p.src, p.dst, records))
  {
    var s := Fresh(env);
    assert [] + bytes == bytes;
    if bytes == [] {
      var (s', records) := Collect(s);
      assert Ready(s) == [] && Members([]) == {};
      assert s'.streams == s.streams && s'.ended == s.ended;
      assert s' == s && records == [];
      assert Parse(HandlerOf(env, true), s, bytes) == (s, []);
    }
  }

  lemma TcpSound<H, Hd>(env: Env<H, Hd>, t: Table<H, Hd>, p: TcpPacket)
    requires Sound(t)
    ensures var (t', out) := Tcp(env, t, p);
      && Sound(t')
      && (forall i :: 0 <= i < |out| ==> Source(out[i]) == KeyOf(p))
      && (forall k :: k != KeyOf(p) ==> Entry(t', k) == Entry(t, k))
  {
    if p.payload != [] {
      if KeyOf(p) in t {
        var c := t[KeyOf(p)];
        PacketValid(env, c.conn, p.src == c.client, p.payload);
      } else if FindPreface(p.payload, 0).Some? {
        OpenIsPacket(env, p, AfterPreface(p.payload));
        PacketValid(env, Fresh(env), true, AfterPreface(p.payload));
      }
    }
  }

  /** A tracked connection's next packet is the next segment of its session. */
  lemma FollowFirst<H, Hd>(env: Env<H, Hd>, c: Tracked<H, Hd>, packets: seq<TcpPacket>)
    requires packets != []
    ensures var (c1, first) := Follow(env, c, packets[0]);
      var (o, rest) := Continue(env, Some(c1), packets[1..]);
      Continue(env, Some(c), packets) == (o, first + rest)
  {
    var segments := Segments(c.client, packets);
    assert segments[1..] == Segments(c.client, packets[1..]);
    var (s1, first) := Packet(env, c.conn, packets[0].src == c.client, packets[0].payload);
    var (_, rest) := Session(env, s1, segments[1..]);
    LabelledJoin(c.client, c.server, first, rest);
  }

  lemma OpenFirst<H, Hd>(env: Env<H, Hd>, packets: seq<TcpPacket>)
    requires packets != [] && FindPreface(packets[0].payload, 0).Some?
    ensures var (c1, first) := Open(env, packets[0], AfterPreface(packets[0].payload));
      var (o, rest) := Continue(env, Some(c1), packets[1..]);
      Continue(env, None, packets) == (o, first + rest)
  {
    var p := packets[0];
    var bytes := AfterPreface(p.payload);
    OpenIsPacket(env, p, bytes);
    var segments := [Segment(true, bytes)] + Segments(p.src, packets[1..]);
    assert segments[1..] == Segments(p.src, packets[1..]);
    var (s1, first) := Packet(env, Fresh(env), true, bytes);
    var (_, rest) := Session(env, s1, segments[1..]);
    LabelledJoin(p.src, p.dst, first, rest);
  }

  /** One packet, seen from its own connection. */
  lemma TcpOwn<H, Hd>(env: Env<H, Hd>, t: Table<H, Hd>, p: TcpPacket, more: seq<TcpPacket>)
    ensures var (t', first) := Tcp(env, t, p);
      var (o, rest) := Continue(env, Entry(t', KeyOf(p)), more);
      Continue(env, Entry(t, KeyOf(p)), [p] + more) == (o, first + rest)
  {
    var packets := [p] + more;
    assert packets[1..] == more;
    if KeyOf(p) in t {
      FollowFirst(env, t[KeyOf(p)], packets);
      var c := t[KeyOf(p)];
      assert c.(conn := c.conn) == c;
    } else if FindPreface(p.payload, 0).Some? {
      OpenFirst(env, packets);
    } else {
      var (_, rest) := Continue(env, None, more);
      assert [] + rest == rest;
    }
  }

  /** However the packets of all connections interleave, each connection ends as its own packets alone would
      leave it, and emits exactly what they alone would emit, in that order. */
  lemma {:induction false} Demultiplexed<H, Hd>(env: Env<H, Hd>, t: Table<H, Hd>, packets: seq<TcpPacket>, k: Key)
    requires Sound(t)
    ensures var (t', out) := Capture(env, t, packets);
      Sound(t') && Continue(env, Entry(t, k), Own(packets, k)) == (Entry(t', k), OwnOut(out, k))
    decreases |packets|
  {
    if packets == [] {
      match Entry(t, k)
      case None =>
      case Some(c) => assert c.(conn := c.conn) == c;
    } else {
      var p, more := packets[0], packets[1..];
      var (t1, first) := Tcp(env, t, p);
      var (t2, rest) := Capture(env, t1, more);
      TcpSound(env, t, p);
      Demultiplexed(env, t1, more, k);
      FilterJoin(EmittedOn(k), first, rest);
      FilterUniform(EmittedOn(k), first, KeyOf(p) == k);
      if KeyOf(p) == k {
        TcpOwn(env, t, p, Own(more, k));
        assert Own(packets, k) == [p] + Own(more, k);
      } else {
        assert Own(packets, k) == Own(more, k);
        assert OwnOut(first + rest, k) == OwnOut(rest, k);
      }
    }
  }

  // ----- consequences for a capture from the start

  lemma {:induction false} TrackedIff<H, Hd>(env: Env<H, Hd>, packets: seq<TcpPacket>)
    ensures Alone(env, packets).0.Some? <==> exists i :: 0 <= i < |packets| && Opens(packets[i])
    ensures Alone(env, packets).0.None? ==> Alone(env, packets).1 == []
  {
    if packets != [] {
      var p := packets[0];
      TrackedIff(env, packets[1..]);
      assert FindPreface(p.payload, 0).Some? <==> Opens(p);
      if FindPreface(p.payload, 0).Some? {
        assert Opens(packets[0]);
      } else {
        if i :| 0 <= i < |packets| && Opens(packets[i]) {
          assert Opens(packets[1..][i - 1]);
        }
        if i :| 0 <= i < |packets[1..]| && Opens(packets[1..][i]) {
          assert Opens(packets[i + 1]);
        }
      }
    }
  }

  /** A connection is tracked exactly when one of its packets holds the whole preface. */
  lemma CaptureTracks<H, Hd>(env: Env<H, Hd>, packets: seq<TcpPacket>, k: Key)
    ensures var (t, out) := Capture(env, map[], packets);
      && (k in t <==> exists i :: 0 <= i < |packets| && KeyOf(packets[i]) == k && Opens(packets[i]))
      && (k !in t ==> OwnOut(out, k) == [])
  {
    var own := Own(packets, k);
    Demultiplexed(env, map[], packets, k);
    TrackedIff(env, own);
    if i :| 0 <= i < |own| && Opens(own[i]) {
      FilterIn(SentOn(k), packets, own[i]);
    }
    if i :| 0 <= i < |packets| && KeyOf(packets[i]) == k && Opens(packets[i]) {
      FilterIn(SentOn(k), packets, packets[i]);
    }
  }

  ghost predicate StreamsOnce<Hd>(out: seq<Emitted<Hd>>) {
    forall i, j :: 0 <= i < j < |out| ==> out[i].record.stream != out[j].record.stream
  }

  lemma {:induction false} AloneOnce<H, Hd>(env: Env<H, Hd>, packets: seq<TcpPacket>)
    ensures StreamsOnce(Alone(env, packets).1)
  {
    if packets != [] {
      if FindPreface(packets[0].payload, 0).None? {
        AloneOnce(env, packets[1..]);
      } else {
        var p := packets[0];
        var segments := [Segment(true, AfterPreface(p.payload))] + Segments(p.src, packets[1..]);
        SessionEmitsOnce(env, Fresh(env), segments);
        var records := Session(env, Fresh(env), segments).1;
        IdsAt(records);
        assert forall i, j :: 0 <= i < j < |records| ==> Ids(records)[i] != Ids(records)[j];
      }
    }
  }

  /** In a whole capture no stream of a connection is emitted twice. */
  lemma CaptureEmitsOnce<H, Hd>(env: Env<H, Hd>, packets: seq<TcpPacket>, i: nat, j: nat)
    requires i < j < |Capture(env, map[], packets).1|
    ensures var out := Capture(env, map[], packets).1;
      Source(out[i]) == Source(out[j]) ==>
        out[i].record.stream != out[j].record.stream
  {
    var out := Capture(env, map[], packets).1;
    var k := Source(out[j]);
    if Source(out[i]) == k {
      Demultiplexed(env, map[], packets, k);
      AloneOnce(env, Own(packets, k));
      FilterPair(EmittedOn(k), out, i, j);
    }
  }

  /** The preface itself is not reassembled: cut anywhere between two packets, it is not seen, while in one
      packet it is. */
  lemma SplitPrefaceMissed<H, Hd>(env: Env<H, Hd>, src: Addr, dst: Addr, n: nat)
    requires 0 < n < |PREFACE|
    ensures Capture(env, map[], [TcpPacket(src, dst, PREFACE[..n]), TcpPacket(src, dst, PREFACE[n..])]) == (map[], [])
    ensures Canonical(src, dst) in Capture(env, map[], [TcpPacket(src, dst, PREFACE)]).0
  {
    var first, second := TcpPacket(src, dst, PREFACE[..n]), TcpPacket(src, dst, PREFACE[n..]);
    assert [first, second][1..] == [second];
    assert Tcp<H, Hd>(env, map[], first) == (map[], []) == Tcp(env, map[], second);
    assert [second][1..] == [];
    assert Capture<H, Hd>(env, map[], []) == (map[], []);
    var whole := TcpPacket(src, dst, PREFACE);
    assert PREFACE[0..0 + |PREFACE|] == PREFACE;
    assert PrefaceAt(whole.payload, 0);
    CaptureTracks(env, [whole], Canonical(src, dst));
    assert Opens([whole][0]);
  }

  /** The preface is this text. */
  lemma PrefaceIsText()
    ensures var text := "PRI * HTTP/2.0\r\n\r\nSM\r\n\r\n";
      |PREFACE| == |text| && forall i :: 0 <= i < |text| ==> PREFACE[i] == text[i] as int
  {}

  /** What precedes the first preface of a packet, and the preface itself, are dropped; the connection starts
      with exactly what follows, its sender being the client. */
  lemma OpensAfterPreface<H, Hd>(env: Env<H, Hd>, src: Addr, dst: Addr, junk: seq<byte>, rest: seq<byte>)
    requires forall i :: 0 <= i < |junk| ==> !PrefaceAt(junk + PREFACE + rest, i)
    ensures var (t, out) := Capture(env, map[], [TcpPacket(src, dst, junk + PREFACE + rest)]);
      var (conn, records) := Packet(env, Fresh(env), true, rest);
      t == map[Canonical(src, dst) := Tracked(src, dst, conn)] && out == Labelled(src, dst, records)
  {
    var b := junk + PREFACE + rest;
    var p := TcpPacket(src, dst, b);
    assert b[|junk|..|junk| + |PREFACE|] == PREFACE && b[|junk| + |PREFACE|..] == rest;
    assert PrefaceAt(b, |junk|);
    assert FindPreface(b, 0) == Some(|junk|) && AfterPreface(b) == rest;
    OpenIsPacket(env, p, rest);
    var (t1, first) := Tcp<H, Hd>(env, map[], p);
    assert [p][1..] == [];
    assert Capture(env, t1, []) == (t1, []);
    assert first + [] == first;
  }

  lemma PrefaceInFront(rest: seq<byte>)
    ensures FindPreface(PREFACE + rest, 0) == Some(0) && AfterPreface(PREFACE + rest) == rest
  {
    assert (PREFACE + rest)[0..|PREFACE|] == PREFACE && (PREFACE + rest)[|PREFACE|..] == rest;
    assert PrefaceAt(PREFACE + rest, 0);
  }

  /** Once a client has opened a connection, what comes from it is its side and what comes from the other
      address is the server's. */
  lemma TwoSides<H, Hd>(env: Env<H, Hd>, src: Addr, dst: Addr, rest: seq<byte>, answer: seq<byte>, more: seq<byte>)
    requires src != dst
    ensures var packets :=
        [TcpPacket(src, dst, PREFACE + rest), TcpPacket(dst, src, answer), TcpPacket(src, dst, more)];
      var (conn, records) := Session(env, Fresh(env), [Segment(true, rest), Segment(false, answer), Segment(true, more)]);
      Alone(env, packets) == (Some(Tracked(src, dst, conn)), Labelled(src, dst, records))
  {
    var first, second, third := TcpPacket(src, dst, PREFACE + rest), TcpPacket(dst, src, answer), TcpPacket(src, dst, more);
    PrefaceInFront(rest);
    assert [first, second, third][1..] == [second, third] && [second, third][1..] == [third] && [third][1..] == [];
    assert Segments(src, [third]) == [Segment(true, more)];
    assert Segments(src, [second, third]) == [Segment(false, answer), Segment(true, more)];
    assert [Segment(true, rest)] + Segments(src, [second, third]) ==
           [Segment(true, rest), Segment(false, answer), Segment(true, more)];
  }
}
