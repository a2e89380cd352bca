/** Bytes, and results of decoding them. */
module Bytes {
  type byte = n: int | 0 <= n < 256

  datatype Decoded<+T, +E> = Ok(value: T) | Malformed(error: E)
}

/** packages/protocol/src/messages.ts: what browsers and servers say to each other. */
module Protocol {
  import opened Bytes

  datatype Message =
    | Sync(payload: seq<byte>)
    | Awareness(payload: seq<byte>)
    | Ping
    | Pong
    | Auth(token: seq<byte>)

  datatype Fault = EmptyFrame | UnknownType

  const SYNC: byte := 0
  const AWARENESS: byte := 1
  const PING: byte := 2
  const PONG: byte := 3
  const AUTH: byte := 4

  function TypeOf(m: Message): byte {
    match m
    case Sync(_) => SYNC
    case Awareness(_) => AWARENESS
    case Ping => PING
    case Pong => PONG
    case Auth(_) => AUTH
  }

  function PayloadOf(m: Message): seq<byte> {
    match m
    case Sync(p) => p
    case Awareness(p) => p
    case Auth(t) => t
    case _ => []
  }

  function Encoded(m: Message): seq<byte> {
    [TypeOf(m)] + PayloadOf(m)
  }

  function Decode(frame: seq<byte>): Decoded<Message, Fault> {
    if |frame| == 0 then Malformed(EmptyFrame)
    else
      var payload := frame[1..];
      if frame[0] == SYNC then Ok(Sync(payload))
      else if frame[0] == AWARENESS then Ok(Awareness(payload))
      else if frame[0] == PING then Ok(Ping)
      else if frame[0] == PONG then Ok(Pong)
      else if frame[0] == AUTH then Ok(Auth(payload))
      else Malformed(UnknownType)
  }

  method EncodeMessage(m: Message) returns (frame: array<byte>)
    ensures fresh(frame) && frame[..] == Encoded(m)
  {
    var payload: seq<byte> := [];
    if m.Auth? {
      payload := m.token;
    } else if m.Sync? || m.Awareness? {
      payload := m.payload;
    }
    frame := new byte[|payload| + 1];
    frame[0] := TypeOf(m);
    forall i | 0 <= i < |payload| {
      frame[1 + i] := payload[i];
    }
  }

  lemma DecodeUndoesEncode(m: Message)
    ensures Decode(Encoded(m)) == Ok(m)
  {
    assert Encoded(m)[1..] == PayloadOf(m);
  }

  /** The bytes on the wire: the type in the first, as both ends know it, and the payload after it. */
  lemma WireFormat(m: Message)
    ensures var frame := Encoded(m);
      match m
      case Sync(p) => |frame| == 1 + |p| && frame[0] == 0 && frame[1..] == p
      case Awareness(p) => |frame| == 1 + |p| && frame[0] == 1 && frame[1..] == p
      case Ping => frame == [2]
      case Pong => frame == [3]
      case Auth(token) => |frame| == 1 + |token| && frame[0] == 4 && frame[1..] == token
  {
    assert Encoded(m)[1..] == PayloadOf(m);
  }

  /** A frame that decodes is the encoding of what it decodes to, unless it is a ping or pong with a tail. */
  lemma EncodeUndoesDecodeIff(frame: seq<byte>)
    requires Decode(frame).Ok?
    ensures Encoded(Decode(frame).value) == frame <==> ((frame[0] == PING || frame[0] == PONG) ==> |frame| == 1)
  {
    assert frame == [frame[0]] + frame[1..];
  }

  lemma DecodesIff(frame: seq<byte>)
    ensures Decode(frame).Ok? <==> exists m, tail :: frame == Encoded(m) + tail && (tail == [] || m.Ping? || m.Pong?)
  {
    if Decode(frame).Ok? {
      var m := Decode(frame).value;
      assert frame == [frame[0]] + frame[1..];
      assert frame == Encoded(m) + if m.Ping? || m.Pong? then frame[1..] else [];
    }
  }
}

/** apps/server/src/cluster/messages.ts: what instances say to each other. */
module BusCodec {
  import opened Bytes

  datatype BusKind = Update | Awareness | StateRequest

  datatype BusMessage = BusMessage(kind: BusKind, origin: seq<byte>, payload: seq<byte>)

  datatype Fault = TooShort | UnknownKind | Truncated

  datatype Encoding = Frame(frame: array<byte>) | OriginTooLong

  function Code(k: BusKind): byte {
    match k
    case Update => 0
    case Awareness => 1
    case StateRequest => 2
  }

  function Encoded(m: BusMessage): seq<byte>
    requires |m.origin| <= 255
  {
    [Code(m.kind), |m.origin|] + m.origin + m.payload
  }

  function Decode(frame: seq<byte>): Decoded<BusMessage, Fault> {
    if |frame| < 2 then Malformed(TooShort)
    else if frame[0] != 0 && frame[0] != 1 && frame[0] != 2 then Malformed(UnknownKind)
    else
      var originLength: int := frame[1];
      if |frame| < 2 + originLength then Malformed(Truncated)
      else
        var kind := if frame[0] == 0 then Update else if frame[0] == 1 then Awareness else StateRequest;
        Ok(BusMessage(kind, frame[2..2 + originLength], frame[2 + originLength..]))
  }

  method EncodeBusMessage(m: BusMessage) returns (r: Encoding)
    ensures r.Frame? <==> |m.origin| <= 255
    ensures r.Frame? ==> fresh(r.frame) && r.frame[..] == Encoded(m)
  {
    if |m.origin| > 255 {
      return OriginTooLong;
    }
    var frame := new byte[2 + |m.origin| + |m.payload|];
    frame[0] := Code(m.kind);
    frame[1] := |m.origin|;
    forall i | 0 <= i < |m.origin| {
      frame[2 + i] := m.origin[i];
    }
    forall i | 0 <= i < |m.payload| {
      frame[2 + |m.origin| + i] := m.payload[i];
    }
    return Frame(frame);
  }

  lemma DecodeUndoesEncode(m: BusMessage)
    requires |m.origin| <= 255
    ensures Decode(Encoded(m)) == Ok(m)
  {
    var f := Encoded(m);
    assert f[2..2 + |m.origin|] == m.origin;
    assert f[2 + |m.origin|..] == m.payload;
  }

  lemma EncodeUndoesDecode(frame: seq<byte>)
    requires Decode(frame).Ok?
    ensures |Decode(frame).value.origin| <= 255 && Encoded(Decode(frame).value) == frame
  {
    var n: nat := frame[1];
    assert frame == [frame[0], frame[1]] + frame[2..2 + n] + frame[2 + n..];
  }

  /** The bytes on the bus: kind, length of the origin, origin, payload. */
  lemma WireFormat(m: BusMessage)
    requires |m.origin| <= 255
    ensures var (frame, n) := (Encoded(m), |m.origin|);
      && |frame| == 2 + n + |m.payload| && frame[1] == n && frame[2..2 + n] == m.origin && frame[2 + n..] == m.payload
      && frame[0] == (match m.kind case Update => 0 case Awareness => 1 case StateRequest => 2)
  {
    var f := Encoded(m);
    assert f[2..2 + |m.origin|] == m.origin;
    assert f[2 + |m.origin|..] == m.payload;
  }

  /** The frames that decode are exactly the encodings of messages: nothing truncated or unknown gets through. */
  lemma DecodesIffEncoded(frame: seq<byte>)
    ensures Decode(frame).Ok? <==> exists m: BusMessage :: |m.origin| <= 255 && frame == Encoded(m)
  {
    if Decode(frame).Ok? {
      EncodeUndoesDecode(frame);
    }
    if m: BusMessage :| |m.origin| <= 255 && frame == Encoded(m) {
      DecodeUndoesEncode(m);
    }
  }
}

/** apps/server/src/cluster/redis-bus.ts: the listener map and the filter for our own echo. */
module RedisBus {
  import opened Bytes
  import opened BusCodec

  type DocumentId = string
  type ListenerId = nat

  const CHANNEL_PREFIX := "cce:doc:"

  datatype Heard = Heard(listener: ListenerId, message: BusMessage)

  /** The listener map by channel, and every call made on a listener. */
  datatype Bus = Bus(listeners: map<string, ListenerId>, heard: seq<Heard>)

  function Channel(id: DocumentId): string {
    CHANNEL_PREFIX + id
  }

  function OnFrame(b: Bus, me: seq<byte>, channel: string, frame: seq<byte>): Bus {
    if channel !in b.listeners then b
    else match Decode(frame)
      case Malformed(_) => b
      case Ok(m) => if m.origin == me then b else b.(heard := b.heard + [Heard(b.listeners[channel], m)])
  }

  class RedisDocumentBus {
    const instanceId: seq<byte>
    var listeners: map<string, ListenerId>
    var heard: seq<Heard>

    function View(): Bus
      reads this
    {
      Bus(listeners, heard)
    }

    constructor (instanceId: seq<byte>)
      ensures this.instanceId == instanceId && View() == Bus(map[], [])
    {
      this.instanceId := instanceId;
      listeners, heard := map[], [];
    }

    method Subscribe(id: DocumentId, listener: ListenerId)
      modifies this`listeners
      ensures listeners == old(listeners)[Channel(id) := listener]
    {
      listeners := listeners[Channel(id) := listener];
    }

    method Unsubscribe(id: DocumentId)
      modifies this`listeners
      ensures listeners == old(listeners) - {Channel(id)}
    {
      listeners := listeners - {Channel(id)};
    }

    method OnMessage(channel: string, frame: seq<byte>)
      modifies this`heard
      ensures View() == OnFrame(old(View()), instanceId, channel, frame)
    {
      if channel !in listeners {
        return;
      }
      var message := Decode(frame);
      if message.Malformed? {
        return;
      }
      if message.value.origin == instanceId {
        return;
      }
      heard := heard + [Heard(listeners[channel], message.value)];
    }
  }

  /** One publish by some instance, as the broker relays it. */
  datatype Relayed = Relayed(id: DocumentId, message: BusMessage)

  predicate Sendable(rs: seq<Relayed>) {
    forall i :: 0 <= i < |rs| ==> |rs[i].message.origin| <= 255
  }

  function AfterAll(b: Bus, me: seq<byte>, rs: seq<Relayed>): Bus
    requires Sendable(rs)
  {
    if rs == [] then b
    else
      var last := rs[|rs| - 1];
      OnFrame(AfterAll(b, me, rs[..|rs| - 1]), me, Channel(last.id), Encoded(last.message))
  }

  /** The other instances' publishes for one document, in the order the broker relayed them. */
  function FromOthers(rs: seq<Relayed>, me: seq<byte>, id: DocumentId): seq<BusMessage> {
    if rs == [] then []
    else
      var last := rs[|rs| - 1];
      FromOthers(rs[..|rs| - 1], me, id) + if last.id == id && last.message.origin != me then [last.message] else []
  }

  function HeardBy(heard: seq<Heard>, listener: ListenerId): seq<BusMessage> {
    if heard == [] then []
    else
      var last := heard[|heard| - 1];
      HeardBy(heard[..|heard| - 1], listener) + if last.listener == listener then [last.message] else []
  }

  lemma ChannelsDiffer(a: DocumentId, b: DocumentId)
    ensures Channel(a) == Channel(b) <==> a == b
  {
    assert Channel(a)[|CHANNEL_PREFIX|..] == a && Channel(b)[|CHANNEL_PREFIX|..] == b;
  }

  /**
   A listener hears exactly what the other instances published for its document, in
   order: none of its own instance's publishes, none of another document's.
   */
  lemma {:induction false} ListenerHearsTheOthers(b: Bus, me: seq<byte>, rs: seq<Relayed>, id: DocumentId)
    requires Sendable(rs) && Channel(id) in b.listeners
    requires forall c :: c in b.listeners && b.listeners[c] == b.listeners[Channel(id)] ==> c == Channel(id)
    ensures var after := AfterAll(b, me, rs);
      && after.listeners == b.listeners
      && HeardBy(after.heard, b.listeners[Channel(id)])
         == HeardBy(b.heard, b.listeners[Channel(id)]) + FromOthers(rs, me, id)
  {
    var listener := b.listeners[Channel(id)];
    if rs == [] {
      assert HeardBy(b.heard, listener) + [] == HeardBy(b.heard, listener);
    } else {
      var front, last := rs[..|rs| - 1], rs[|rs| - 1];
      ListenerHearsTheOthers(b, me, front, id);
      DecodeUndoesEncode(last.message);
      ChannelsDiffer(last.id, id);
      var before, after := AfterAll(b, me, front), AfterAll(b, me, rs);
      if after.heard != before.heard {
        assert after.heard[..|before.heard|] == before.heard;
      }
      var base, others := HeardBy(b.heard, listener), FromOthers(front, me, id);
      assert base + (others + [last.message]) == base + others + [last.message];
      assert base + (others + []) == base + others;
    }
  }

  // ------------------------------------------------ subscribing while messages come

  datatype Event =
    | Subscribes(id: DocumentId, listener: ListenerId)
    | Unsubscribes(id: DocumentId)
    | Relays(relayed: Relayed)

  predicate AllSendable(es: seq<Event>) {
    forall e :: e in es && e.Relays? ==> |e.relayed.message.origin| <= 255
  }

  /** The methods of the bus, called in this order on a new one. */
  function BusAfter(me: seq<byte>, es: seq<Event>): Bus
    requires AllSendable(es)
  {
    if es == [] then Bus(map[], [])
    else
      var b, e := BusAfter(me, es[..|es| - 1]), es[|es| - 1];
      match e
      case Subscribes(id, listener) => b.(listeners := b.listeners[Channel(id) := listener])
      case Unsubscribes(id) => b.(listeners := b.listeners - {Channel(id)})
      case Relays(r) =>
        assert e in es;
        OnFrame(b, me, Channel(r.id), Encoded(r.message))
  }

  /** The listener was the last to subscribe for the document, and nobody has unsubscribed it since. */
  predicate Subscribed(es: seq<Event>, id: DocumentId, listener: ListenerId) {
    es != [] &&
    match es[|es| - 1]
    case Subscribes(d, k) => if d == id then k == listener else Subscribed(es[..|es| - 1], id, listener)
    case Unsubscribes(d) => d != id && Subscribed(es[..|es| - 1], id, listener)
    case Relays(_) => Subscribed(es[..|es| - 1], id, listener)
  }

  /** The other instances' publishes relayed while the listener was subscribed for their document, in order. */
  function WhileSubscribed(es: seq<Event>, me: seq<byte>, listener: ListenerId): seq<BusMessage> {
    if es == [] then []
    else
      var front, e := es[..|es| - 1], es[|es| - 1];
      WhileSubscribed(front, me, listener)
      + if e.Relays? && Subscribed(front, e.relayed.id, listener) && e.relayed.message.origin != me
        then [e.relayed.message] else []
  }

  lemma {:induction false} ListenersFollow(me: seq<byte>, es: seq<Event>, id: DocumentId, listener: ListenerId)
    requires AllSendable(es)
    ensures var m := BusAfter(me, es).listeners;
      Subscribed(es, id, listener) <==> Channel(id) in m && m[Channel(id)] == listener
  {
    if es != [] {
      var front, e := es[..|es| - 1], es[|es| - 1];
      ListenersFollow(me, front, id, listener);
      if e.Subscribes? || e.Unsubscribes? {
        ChannelsDiffer(e.id, id);
      }
    }
  }

  /**
   Over every sequence of subscribing, unsubscribing and relaying, a listener hears
   exactly what other instances published for a document while it was subscribed for
   it, in the order relayed.
   */
  lemma {:induction false} ListenerHearsWhileSubscribed(me: seq<byte>, es: seq<Event>, listener: ListenerId)
    requires AllSendable(es)
    ensures HeardBy(BusAfter(me, es).heard, listener) == WhileSubscribed(es, me, listener)
  {
    if es != [] {
      var front, e := es[..|es| - 1], es[|es| - 1];
      ListenerHearsWhileSubscribed(me, front, listener);
      var before, after := BusAfter(me, front), BusAfter(me, es);
      if e.Relays? {
        assert e in es;
        ListenersFollow(me, front, e.relayed.id, listener);
        DecodeUndoesEncode(e.relayed.message);
        if after.heard != before.heard {
          assert after.heard[..|before.heard|] == before.heard;
        }
      }
    }
  }
}
