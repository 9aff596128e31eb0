/**
 The decoder as the objects it updates in place: streams, and the connection that holds them.
 */
module H2Decoder {
  import opened Sequences
  import opened H2Frames
  import opened H2Connection
  import opened H2Capture

  class StreamObject<Hd(==)> {
    var clientHeaders: seq<Hd>
    var clientData: seq<byte>
    var clientTrailers: seq<Hd>
    var clientComplete: bool
    var serverHeaders: seq<Hd>
    var serverData: seq<byte>
    var serverTrailers: seq<Hd>
    var serverComplete: bool

    function View(): Stream<Hd>
      reads this
    {
      Stream(Half(clientHeaders, clientData, clientTrailers, clientComplete),
             Half(serverHeaders, serverData, serverTrailers, serverComplete))
    }

    constructor ()
      ensures View() == EmptyStream()
    {
      clientHeaders, clientData, clientTrailers, clientComplete := [], [], [], false;
      serverHeaders, serverData, serverTrailers, serverComplete := [], [], [], false;
    }

    method AddHeaders(headers: seq<Hd>, fromClient: bool, end: bool)
      modifies this
      ensures View() == old(View()).WithSide(fromClient, H2Connection.AddHeaders(old(View()).Side(fromClient), headers, end))
      ensures View().Side(!fromClient) == old(View()).Side(!fromClient)
      ensures var before, after := old(View()).Side(fromClient), View().Side(fromClient);
        && TakesBlock(before, after.(complete := before.complete), headers)
        && (after.complete <==> before.complete || end)
    {
      if fromClient {
        if clientHeaders == [] {
          clientHeaders := headers;
        } else {
          clientTrailers := headers;
        }
        if end {
          clientComplete := true;
        }
      } else {
        if serverHeaders == [] {
          serverHeaders := headers;
        } else {
          serverTrailers := headers;
        }
        if end {
          serverComplete := true;
        }
      }
    }

    method AddData(data: seq<byte>, fromClient: bool, end: bool)
      modifies this
      ensures View() == old(View()).WithSide(fromClient, H2Connection.AddData(old(View()).Side(fromClient), data, end))
      ensures View().Side(!fromClient) == old(View()).Side(!fromClient)
      ensures var before, after := old(View()).Side(fromClient), View().Side(fromClient);
        && after.headers == before.headers && after.trailers == before.trailers && after.data == before.data + data
        && (after.complete <==> before.complete || end)
    {
      if fromClient {
        clientData := clientData + data;
        if end {
          clientComplete := true;
        }
      } else {
        serverData := serverData + data;
        if end {
          serverComplete := true;
        }
      }
    }

    method Reset(fromClient: bool)
      modifies this
      ensures View() == old(View()).WithSide(fromClient, old(View()).Side(fromClient).(complete := true))
    {
      if fromClient {
        clientComplete := true;
      } else {
        serverComplete := true;
      }
    }
  }

  class ConnectionObject<H, Hd(==)> {
    const env: Env<H, Hd>
    const client: Addr
    const server: Addr
    var clientHpack: H
    var serverHpack: H
    var streams: map<nat, StreamObject<Hd>>
    var order: seq<nat>
    var clientBuffer: seq<byte>
    var serverBuffer: seq<byte>
    var ended: set<nat>

    /** No two ids share a stream object. */
    ghost predicate Separate()
      reads this
    {
      forall i, j :: i in streams && j in streams && i != j ==> streams[i] != streams[j]
    }

    ghost function View(): Conn<H, Hd>
      reads this, streams.Values
    {
      Conn(clientHpack, serverHpack, map id | id in streams :: streams[id].View(), order,
           clientBuffer, serverBuffer, ended)
    }

    constructor (env: Env<H, Hd>, client: Addr, server: Addr)
      ensures this.env == env && this.client == client && this.server == server
      ensures Separate() && streams == map[] && View() == Fresh(env)
    {
      this.env, this.client, this.server := env, client, server;
      clientHpack, serverHpack := env.initial, env.initial;
      streams, order, clientBuffer, serverBuffer, ended := map[], [], [], [], {};
      new;
      assert View().streams == map[];
    }

    /** The stream object of an id, made on first use. */
    method StreamFor(id: nat) returns (st: StreamObject<Hd>)
      requires Separate()
      modifies this
      ensures Separate() && fresh(streams.Values - old(streams.Values))
      ensures id in streams && streams[id] == st
      ensures View() == Ensure(old(View()), id)
      ensures forall k :: k in old(streams) ==> k in streams && streams[k] == old(streams)[k]
    {
      if id !in streams {
        st := new StreamObject();
        streams := streams[id := st];
        order := order + [id];
        assert View().streams == old(View()).streams[id := EmptyStream()];
        assert forall o :: o in streams.Values ==> o == st || o in old(streams.Values);
      } else {
        st := streams[id];
      }
    }

    /** decode_headers with the decoder of a direction. */
    method Decode(block: seq<byte>, fromClient: bool) returns (headers: seq<Hd>)
      modifies this
      ensures View() == old(View()).WithHpack(fromClient, DecodeHeaders(env, old(View()).Hpack(fromClient), block).0)
      ensures headers == DecodeHeaders(env, old(View()).Hpack(fromClient), block).1
      ensures streams == old(streams)
    {
      var (h, r) := env.decode(if fromClient then clientHpack else serverHpack, block);
      if fromClient {
        clientHpack := h;
      } else {
        serverHpack := h;
      }
      headers := match r case Some(hs) => hs case None => [];
      assert View().streams == old(View()).streams;
    }

    /** The SETTINGS branch of _handle_connection_frame. */
    method ProcessSettings(body: seq<byte>, fromClient: bool)
      modifies this
      ensures View() == old(View()).WithHpack(fromClient,
        if |body| % 6 == 0 then ApplySettings(env, old(View()).Hpack(fromClient), body) else old(View()).Hpack(fromClient))
      ensures View().Hpack(fromClient) ==
        if |body| % 6 == 0 then ResizeAll(env, old(View()).Hpack(fromClient), TableSizes(DecodeSettings(body)))
        else old(View()).Hpack(fromClient)
      ensures streams == old(streams)
    {
      SettingsFrame(env, View().Hpack(fromClient), Frame(SETTINGS, 0, 0, body));
      if |body| % 6 != 0 {
        return;
      }
      var h := if fromClient then clientHpack else serverHpack;
      var i := 0;
      while i < |body|
        invariant 0 <= i <= |body| && i % 6 == 0
        invariant ApplySettings(env, h, body[i..]) == ApplySettings(env, old(View()).Hpack(fromClient), body)
      {
        var rest := body[i..];
        var id, value := Number(rest[..2]), Number(rest[2..6]);
        if id == 1 {
          h := env.resize(h, value);
        }
        assert rest[6..] == body[i + 6..];
        i := i + 6;
      }
      if fromClient {
        clientHpack := h;
      } else {
        serverHpack := h;
      }
      assert View().streams == old(View()).streams;
    }

    /** The stream's object has changed and nothing else has. */
    twostate lemma OneStreamChanged(id: nat)
      requires old(Separate()) && streams == old(streams) && id in streams
      requires forall k :: k in streams && streams[k] != streams[id] ==> streams[k].View() == old(streams[k].View())
      ensures View().streams == old(View()).streams[id := streams[id].View()]
    {
      var now, before := View().streams, old(View()).streams;
      assert now.Keys == before.Keys == before[id := streams[id].View()].Keys;
    }

    /** handle_frame for a PUSH_PROMISE. */
    method HandlePromise(f: Frame)
      requires Separate()
      modifies this, streams.Values
      ensures Separate() && fresh(streams.Values - old(streams.Values))
      ensures View() == Promise(env, old(View()), f)
    {
      if |f.body| < 4 {
        return;
      }
      var id := Number(f.body[..4]) % 0x8000_0000;
      var headers := Decode(f.body[4..], false);
      var st := StreamFor(id);
      label found:
      st.AddHeaders(headers, true, false);
      OneStreamChanged@found(id);
    }

    /** handle_frame for every other frame type. */
    method HandleStreamFrame(f: Frame, fromClient: bool, st: StreamObject<Hd>)
      requires Separate() && f.stream in streams && streams[f.stream] == st && f.kind != PUSH_PROMISE && f.stream > 0
      modifies this, st
      ensures streams == old(streams)
      ensures var s := old(View());
        var half := HalfStep(env, s.Hpack(fromClient), s.streams[f.stream].Side(fromClient), f);
        View() == s.(streams := s.streams[f.stream := s.streams[f.stream].WithSide(fromClient, half)])
                   .WithHpack(fromClient, HpackStep(env, s.Hpack(fromClient), f))
    {
      if f.kind == HEADERS {
        var headers := Decode(f.body, fromClient);
        st.AddHeaders(headers, fromClient, f.flags % 2 == 1);
      } else if f.kind == DATA {
        st.AddData(f.body, fromClient, f.flags % 2 == 1);
      } else if f.kind == RST_STREAM && |f.body| == 4 {
        st.Reset(fromClient);
      }
      OneStreamChanged(f.stream);
    }

    /** One complete frame. */
    method HandleFrame(f: Frame, fromClient: bool)
      requires Separate()
      modifies this, streams.Values
      ensures Separate() && fresh(streams.Values - old(streams.Values))
      ensures View() == Dispatch(env, old(View()), fromClient, f)
    {
      if f.kind <= LAST_SUPPORTED && !env.creates(f.kind, f.stream) {
        return;
      }
      if f.stream == 0 {
        if f.kind == SETTINGS {
          ProcessSettings(f.body, fromClient);
        }
        return;
      }
      var st := StreamFor(f.stream);
      if f.kind == PUSH_PROMISE {
        HandlePromise(f);
      } else {
        HandleStreamFrame(f, fromClient, st);
      }
    }

    /** One round of the parsing loop: the frame at an offset is handled, or skipped when handling raises. */
    method ParseOne(buffer: seq<byte>, offset: nat, fromClient: bool) returns (next: nat)
      requires Separate() && offset <= |buffer| && HasFrame(buffer[offset..])
      modifies this, streams.Values
      ensures Separate() && fresh(streams.Values - old(streams.Values))
      ensures clientBuffer == old(clientBuffer) && serverBuffer == old(serverBuffer)
      ensures offset < next <= |buffer|
      ensures Parse(HandlerOf(env, fromClient), View(), buffer[next..]) ==
        Parse(HandlerOf(env, fromClient), old(View()), buffer[offset..])
    {
      var header := buffer[offset..offset + HEADER_SIZE];
      var length := BodyLength(header);
      var body := buffer[offset + HEADER_SIZE..offset + HEADER_SIZE + length];
      var frame := Frame(header[3], header[4], StreamId(header), body);
      FrameAt(buffer, offset);
      if env.raises(fromClient, frame) {
        var r := FindNextFrame(buffer, offset + 1);
        next := if r != -1 then r else |buffer|;
        SkipAt(env, View(), fromClient, buffer, offset);
      } else {
        HandleAt(env, View(), fromClient, buffer, offset);
        BuffersKept(env, View(), fromClient, frame);
        HandleFrame(frame, fromClient);
        next := offset + HEADER_SIZE + length;
      }
    }

    /** parse_http2_frames_from_buffer */
    method ParseBuffer(fromClient: bool)
      requires Separate()
      modifies this, streams.Values
      ensures Separate() && fresh(streams.Values - old(streams.Values))
      ensures var (s, left) := Parse(HandlerOf(env, fromClient), old(View()), old(View()).Buffer(fromClient));
        View() == s.WithBuffer(fromClient, left)
    {
      var buffer := if fromClient then clientBuffer else serverBuffer;
      ghost var h := HandlerOf(env, fromClient);
      ghost var result := Parse(h, View(), buffer);
      var offset := 0;
      assert buffer[0..] == buffer;
      while offset + HEADER_SIZE <= |buffer|
        invariant offset <= |buffer|
        invariant Separate() && fresh(streams.Values - old(streams.Values))
        invariant clientBuffer == old(clientBuffer) && serverBuffer == old(serverBuffer)
        invariant Parse(h, View(), buffer[offset..]) == result
        decreases |buffer| - offset
      {
        var header := buffer[offset..offset + HEADER_SIZE];
        assert BodyLength(buffer[offset..]) == BodyLength(header);
        if offset + HEADER_SIZE + BodyLength(header) > |buffer| {
          break;
        }
        offset := ParseOne(buffer, offset, fromClient);
      }
      assert result == (View(), buffer[offset..]);
      SetBuffer(buffer[offset..], fromClient);
    }

    method SetBuffer(buffer: seq<byte>, fromClient: bool)
      modifies this
      ensures streams == old(streams)
      ensures View() == old(View()).WithBuffer(fromClient, buffer)
    {
      if fromClient {
        clientBuffer := buffer;
      } else {
        serverBuffer := buffer;
      }
      assert View().streams == old(View()).streams;
    }

    /** Dropping streams from the table, one by one. */
    method Remove(ids: seq<nat>)
      requires Separate()
      modifies this
      ensures Separate() && streams.Values <= old(streams.Values)
      ensures var s, gone := old(View()), Members(ids);
        View() == s.(streams := s.streams - gone, order := Without(s.order, gone), ended := s.ended + gone)
    {
      ghost var gone := {};
      WithoutNone(order);
      for i := 0 to |ids|
        invariant gone == Members(ids[..i])
        invariant streams == old(streams) - gone && order == Without(old(order), gone) && ended == old(ended) + gone
        invariant clientHpack == old(clientHpack) && serverHpack == old(serverHpack)
        invariant clientBuffer == old(clientBuffer) && serverBuffer == old(serverBuffer)
      {
        WithoutNext(old(order), gone, ids[i]);
        assert ids[..i + 1] == ids[..i] + [ids[i]];
        ended := ended + {ids[i]};
        streams := streams - {ids[i]};
        order := Without(order, {ids[i]});
        gone := gone + {ids[i]};
      }
      assert ids[..|ids|] == ids;
      assert View().streams == old(View()).streams - gone;
    }

    /** The completed streams in table order, and their records. */
    method FindCompleted() returns (ids: seq<nat>, records: seq<Record<Hd>>)
      requires Valid(View())
      ensures ids == Ready(View()) && records == RecordsOf(View(), ids)
    {
      ghost var s := View();
      ids, records := [], [];
      for i := 0 to |order|
        invariant ids == CompletedOf(s, order[..i])
        invariant |records| == |ids|
        invariant forall k :: 0 <= k < |ids| ==> ids[k] in s.streams && records[k] == RecordOf(s, ids[k])
      {
        var id := order[i];
        assert id in s.order;
        var st := streams[id];
        assert s.streams[id] == st.View();
        CompletedSnoc(s, order[..i], id);
        assert order[..i + 1] == order[..i] + [id];
        if st.serverComplete && st.clientComplete && id !in ended {
          records := records + [Record(id, st.View().client, st.View().server)];
          ids := ids + [id];
        }
      }
      assert order[..|order|] == order;
    }

    /** _collect_and_remove_completed_streams */
    method CollectCompleted() returns (records: seq<Record<Hd>>)
      requires Separate() && Valid(View())
      modifies this
      ensures Separate() && streams.Values <= old(streams.Values)
      ensures (View(), records) == Collect(old(View()))
    {
      var toRemove;
      toRemove, records := FindCompleted();
      Remove(toRemove);
    }

    /** process_tcp_packet, once the connection and the direction are known. */
    method ProcessPayload(payload: seq<byte>, fromClient: bool) returns (records: seq<Record<Hd>>)
      requires Separate() && Valid(View())
      modifies this, streams.Values
      ensures Separate() && Valid(View()) && fresh(streams.Values - old(streams.Values))
      ensures (View(), records) == Packet(env, old(View()), fromClient, payload)
    {
      PacketValid(env, View(), fromClient, payload);
      if payload == [] {
        return [];
      }
      ghost var bytes := View().Buffer(fromClient) + payload;
      ParseValid(env, View(), fromClient, bytes);
      ParseIgnoresBuffer(env, View(), fromClient, bytes, bytes);
      SetBuffer((if fromClient then clientBuffer else serverBuffer) + payload, fromClient);
      ParseBuffer(fromClient);
      records := CollectCompleted();
    }
  }

  /** The table of connections. */
  class DecoderObject<H, Hd(==)> {
    const env: Env<H, Hd>
    var connections: map<Key, ConnectionObject<H, Hd>>

    ghost function Repr(): set<object>
      reads this, connections.Values
    {
      (set c | c in connections.Values :: c as object)
      + (set c, o | c in connections.Values && o in c.streams.Values :: o as object)
    }

    /** Connections share neither objects nor streams. */
    ghost predicate Apart()
      reads this, connections.Values
    {
      && (forall k :: k in connections ==> connections[k].Separate() && connections[k].env == env)
      && (forall k, l :: k in connections && l in connections && k != l ==>
            connections[k] != connections[l] && connections[k].streams.Values !! connections[l].streams.Values)
    }

    ghost function View(): Table<H, Hd>
      reads this, Repr()
    {
      map k | k in connections :: Tracked(connections[k].client, connections[k].server, connections[k].View())
    }

    constructor (env: Env<H, Hd>)
      ensures this.env == env && Apart() && View() == map[]
    {
      this.env := env;
      connections := map[];
    }

    /** One connection has changed, by its own objects and new ones only. */
    twostate predicate OnlyChanged(k: Key)
      reads this, connections.Values
    {
      && connections == old(connections) && k in connections && connections[k].Separate()
      && fresh(connections[k].streams.Values - old(connections[k].streams.Values))
      && forall l :: l in connections && l != k ==> connections[l].streams == old(connections[l].streams)
    }

    twostate lemma ApartKept(k: Key)
      requires old(Apart()) && OnlyChanged(k)
      ensures Apart()
    {
      forall l | l in connections && l != k ensures connections[k].streams.Values !! connections[l].streams.Values {
        assert connections[l].streams.Values == old(connections[l].streams.Values);
      }
    }

    twostate lemma ReprGrows(k: Key)
      requires OnlyChanged(k)
      ensures fresh(Repr() - old(Repr()))
    {
      forall o | o in Repr() && o !in old(Repr()) ensures fresh(o) {
        var c, st :| c in connections.Values && st in c.streams.Values && o == st;
        assert c == connections[k];
      }
    }

    twostate lemma ViewChanged(k: Key)
      requires OnlyChanged(k)
      requires forall l :: l in connections && l != k ==> connections[l].View() == old(connections[l].View())
      ensures View() == old(View())[k := old(View())[k].(conn := connections[k].View())]
    {
      var now, before := View(), old(View());
      assert now.Keys == before.Keys;
    }

    /** Feeding one connection leaves the others alone. */
    method FeedOne(k: Key, c: ConnectionObject<H, Hd>, payload: seq<byte>, fromClient: bool)
      returns (records: seq<Record<Hd>>)
      requires Apart() && k in connections && connections[k] == c && Valid(c.View())
      modifies c, c.streams.Values
      ensures OnlyChanged(k)
      ensures forall l :: l in connections && l != k ==> connections[l].View() == old(connections[l].View())
      ensures (c.View(), records) == Packet(c.env, old(c.View()), fromClient, payload)
    {
      records := c.ProcessPayload(payload, fromClient);
    }

    method Follow(c: ConnectionObject<H, Hd>, p: TcpPacket) returns (out: seq<Emitted<Hd>>)
      requires Apart() && Sound(View()) && KeyOf(p) in connections && connections[KeyOf(p)] == c
      modifies c, c.streams.Values
      ensures connections == old(connections) && Apart() && fresh(Repr() - old(Repr()))
      ensures var (t, out') := H2Capture.Follow(env, old(View())[KeyOf(p)], p);
        View() == old(View())[KeyOf(p) := t] && out == out'
    {
      assert View()[KeyOf(p)].conn == c.View();
      var records := FeedOne(KeyOf(p), c, p.payload, p.src == c.client);
      ApartKept(KeyOf(p));
      ReprGrows(KeyOf(p));
      ViewChanged(KeyOf(p));
      out := Labelled(c.client, c.server, records);
    }

    /** A connection object for a packet that holds the preface, fed what follows the preface. */
    method NewConnection(p: TcpPacket, bytes: seq<byte>) returns (c: ConnectionObject<H, Hd>, out: seq<Emitted<Hd>>)
      ensures fresh(c) && fresh(c.streams.Values) && c.env == env && c.Separate()
      ensures var (t, out') := Open(env, p, bytes);
        Tracked(c.client, c.server, c.View()) == t && out == out'
    {
      c := new ConnectionObject(env, p.src, p.dst);
      ParseValid(env, c.View(), true, bytes);
      ParseIgnoresBuffer(env, c.View(), true, bytes, bytes);
      c.SetBuffer(bytes, true);
      c.ParseBuffer(true);
      var records := c.CollectCompleted();
      out := Labelled(p.src, p.dst, records);
    }

    /** A new connection has been put into the table, and no other has changed. */
    twostate predicate Inserted(k: Key, new c: ConnectionObject<H, Hd>)
      reads this, c, connections.Values
    {
      && k !in old(connections) && connections == old(connections)[k := c]
      && c.env == env && c.Separate() && fresh(c) && fresh(c.streams.Values)
      && forall l :: l in old(connections) ==> connections[l].streams == old(connections[l].streams)
    }

    twostate lemma ApartInserted(k: Key, new c: ConnectionObject<H, Hd>)
      requires old(Apart()) && Inserted(k, c)
      ensures Apart()
    {
      forall l | l in old(connections) ensures connections[l] != c && c.streams.Values !! connections[l].streams.Values {
        assert connections[l].streams.Values == old(connections[l].streams.Values);
      }
    }

    twostate lemma ReprInserted(k: Key, new c: ConnectionObject<H, Hd>)
      requires Inserted(k, c)
      ensures fresh(Repr() - old(Repr()))
    {
      forall l | l in old(connections)
        ensures connections[l] in old(Repr()) && forall o :: o in connections[l].streams.Values ==> o in old(Repr())
      {
        assert connections[l] in old(connections.Values);
      }
      forall o | o in Repr() && o !in old(Repr()) ensures fresh(o) {
        if o !in connections.Values {
          var d, st :| d in connections.Values && st in d.streams.Values && o == st;
        }
      }
    }

    twostate lemma ViewInserted(k: Key, new c: ConnectionObject<H, Hd>)
      requires Inserted(k, c)
      requires forall l :: l in old(connections) ==> connections[l].View() == old(connections[l].View())
      ensures View() == old(View())[k := Tracked(c.client, c.server, c.View())]
    {
      var now, before := View(), old(View());
      assert now.Keys == before.Keys + {k};
    }

    method Put(k: Key, c: ConnectionObject<H, Hd>)
      requires k !in connections
      modifies this
      ensures connections == old(connections)[k := c] && c.View() == old(c.View())
      ensures forall l :: l in old(connections) ==> connections[l].View() == old(connections[l].View())
    {
      connections := connections[k := c];
    }

    /** Adding a connection leaves the others alone. */
    method Add(p: TcpPacket, bytes: seq<byte>) returns (c: ConnectionObject<H, Hd>, out: seq<Emitted<Hd>>)
      requires KeyOf(p) !in connections
      modifies this
      ensures Inserted(KeyOf(p), c)
      ensures forall l :: l in old(connections) ==> connections[l].View() == old(connections[l].View())
      ensures (Tracked(c.client, c.server, c.View()), out) == Open(env, p, bytes)
    {
      c, out := NewConnection(p, bytes);
      assert forall l :: l in connections ==> connections[l].View() == old(connections[l].View());
      Put(KeyOf(p), c);
    }

    /** The first packet of a connection that has not been tracked. */
    method Start(p: TcpPacket, bytes: seq<byte>) returns (out: seq<Emitted<Hd>>)
      requires Apart() && KeyOf(p) !in connections
      modifies this
      ensures Apart() && fresh(Repr() - old(Repr()))
      ensures var (t, out') := Open(env, p, bytes);
        View() == old(View())[KeyOf(p) := t] && out == out'
    {
      var c;
      c, out := Add(p, bytes);
      ApartInserted(KeyOf(p), c);
      ReprInserted(KeyOf(p), c);
      ViewInserted(KeyOf(p), c);
    }

    lemma InRepr(k: Key)
      requires k in connections
      ensures connections[k] in Repr() && forall o :: o in connections[k].streams.Values ==> o in Repr()
    {
      assert connections[k] in connections.Values;
    }

    /** process_tcp_packet */
    method ProcessTcpPacket(p: TcpPacket) returns (out: seq<Emitted<Hd>>)
      requires Apart() && Sound(View())
      modifies this, Repr()
      ensures Apart() && Sound(View()) && fresh(Repr() - old(Repr()))
      ensures (View(), out) == Tcp(env, old(View()), p)
    {
      TcpSound(env, View(), p);
      if p.payload == [] {
        return [];
      }
      var k := KeyOf(p);
      if k in connections {
        InRepr(k);
        out := Follow(connections[k], p);
      } else {
        var at := FindPreface(p.payload, 0);
        if at.None? {
          return [];
        }
        out := Start(p, p.payload[at.value + |PREFACE|..]);
      }
    }
  }

  lemma {:induction false} WithoutNone(ids: seq<nat>)
    ensures Without(ids, {}) == ids
  {
    if ids != [] { WithoutNone(ids[1..]); }
  }

  lemma {:induction false} WithoutNext(ids: seq<nat>, gone: set<nat>, id: nat)
    ensures Without(Without(ids, gone), {id}) == Without(ids, gone + {id})
  {
    if ids != [] {
      WithoutNext(ids[1..], gone, id);
      var rest := Without(ids[1..], gone);
      if ids[0] !in gone {
        assert Without(ids, gone) == [ids[0]] + rest;
        assert ([ids[0]] + rest)[1..] == rest;
      } else {
        assert Without(ids, gone) == rest;
      }
    }
  }

  lemma {:induction false} CompletedSnoc<H, Hd>(s: Conn<H, Hd>, ids: seq<nat>, id: nat)
    ensures CompletedOf(s, ids + [id]) == CompletedOf(s, ids) + (if Completed(s, id) then [id] else [])
    decreases |ids|
  {
    if ids != [] {
      CompletedSnoc(s, ids[1..], id);
      assert (ids + [id])[1..] == ids[1..] + [id];
    }
  }

  /** Handling frames neither reads nor writes the buffers. */
  lemma {:induction false} ParseIgnoresBuffer<H, Hd>(env: Env<H, Hd>, s: Conn<H, Hd>, fromClient: bool, held: seq<byte>, b: seq<byte>)
    ensures var h := HandlerOf(env, fromClient);
      var (s', left) := Parse(h, s, b);
      Parse(h, s.WithBuffer(fromClient, held), b) == (s'.WithBuffer(fromClient, held), left)
    decreases |b|
  {
    if HasFrame(b) {
      var f := FirstFrame(b);
      if env.raises(fromClient, f) {
        match FindNext(b, 1) {
          case None =>
          case Some(i) => ParseIgnoresBuffer(env, s, fromClient, held, b[i..]);
        }
      } else {
        DispatchIgnoresBuffer(env, s, fromClient, held, f);
        ParseIgnoresBuffer(env, Dispatch(env, s, fromClient, f), fromClient, held, b[FrameSize(b)..]);
      }
    }
  }

  lemma DispatchIgnoresBuffer<H, Hd>(env: Env<H, Hd>, s: Conn<H, Hd>, fromClient: bool, held: seq<byte>, f: Frame)
    ensures Dispatch(env, s.WithBuffer(fromClient, held), fromClient, f) ==
      Dispatch(env, s, fromClient, f).WithBuffer(fromClient, held)
  {}

  lemma BuffersKept<H, Hd>(env: Env<H, Hd>, s: Conn<H, Hd>, fromClient: bool, f: Frame)
    ensures Dispatch(env, s, fromClient, f).clientBuffer == s.clientBuffer
    ensures Dispatch(env, s, fromClient, f).serverBuffer == s.serverBuffer
  {}

  /** The frame at an offset, read off the whole buffer. */
  lemma FrameAt(buffer: seq<byte>, offset: nat)
    requires offset <= |buffer| && HasFrame(buffer[offset..])
    ensures offset + HEADER_SIZE <= |buffer|
    ensures var header := buffer[offset..offset + HEADER_SIZE];
      && BodyLength(header) == BodyLength(buffer[offset..])
      && offset + HEADER_SIZE + BodyLength(header) <= |buffer|
      && FirstFrame(buffer[offset..]) == Frame(header[3], header[4], StreamId(header),
                                               buffer[offset + HEADER_SIZE..offset + HEADER_SIZE + BodyLength(header)])
  {
    var rest, header := buffer[offset..], buffer[offset..offset + HEADER_SIZE];
    assert forall i :: 0 <= i < HEADER_SIZE ==> rest[i] == header[i];
  }

  lemma HandleAt<H, Hd>(env: Env<H, Hd>, s: Conn<H, Hd>, fromClient: bool, buffer: seq<byte>, offset: nat)
    requires offset <= |buffer| && HasFrame(buffer[offset..])
    requires !env.raises(fromClient, FirstFrame(buffer[offset..]))
    ensures var h, rest := HandlerOf(env, fromClient), buffer[offset..];
      && offset + FrameSize(rest) <= |buffer|
      && Parse(h, s, rest) == Parse(h, Dispatch(env, s, fromClient, FirstFrame(rest)), buffer[offset + FrameSize(rest)..])
  {
    var rest := buffer[offset..];
    assert buffer[offset + FrameSize(rest)..] == rest[FrameSize(rest)..];
  }

  lemma SkipAt<H, Hd>(env: Env<H, Hd>, s: Conn<H, Hd>, fromClient: bool, buffer: seq<byte>, offset: nat)
    requires offset <= |buffer| && HasFrame(buffer[offset..])
    requires env.raises(fromClient, FirstFrame(buffer[offset..]))
    ensures var h := HandlerOf(env, fromClient);
      match FindNext(buffer, offset + 1)
      case None => Parse(h, s, buffer[offset..]) == Parse(h, s, buffer[|buffer|..])
      case Some(i) => i <= |buffer| && Parse(h, s, buffer[offset..]) == Parse(h, s, buffer[i..])
  {
    var rest := buffer[offset..];
    FindNextShift(buffer, offset, 1);
    ParseRaised(HandlerOf(env, fromClient), s, rest);
    match FindNext(buffer, offset + 1)
    case None => assert buffer[|buffer|..] == [];
    case Some(i) => assert buffer[i..] == rest[i - offset..];
  }

  lemma ParseRaised<S>(h: Handler<S>, s: S, b: seq<byte>)
    requires HasFrame(b) && h(s, FirstFrame(b)) == Raised(s)
    ensures Parse(h, s, b) == match FindNext(b, 1) case None => (s, []) case Some(i) => Parse(h, s, b[i..])
    ensures Parse(h, s, []) == (s, [])
  {}

  function Shifted(r: Option<nat>, n: nat): Option<int> {
    match r case None => None case Some(i) => Some(i - n)
  }

  lemma {:induction false} FindNextShift(data: seq<byte>, offset: nat, from: nat)
    requires offset <= |data|
    ensures FindNext(data[offset..], from) == Shifted(FindNext(data, offset + from), offset)
    decreases |data| - from
  {
    var rest := data[offset..];
    if from + HEADER_SIZE < |rest| {
      assert rest[from..] == data[offset + from..];
      if !Plausible(rest, from) {
        FindNextShift(data, offset, from + 1);
      }
    }
  }
}
