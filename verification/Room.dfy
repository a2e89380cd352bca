/**
 apps/server/src/rooms/room.ts: one document plus everyone editing it on one
 instance. Who records, publishes and fans out an update is decided here.
 */
module Room {
  import opened Crdt

  type ClientId = nat
  type InstanceId = nat

  /** The three messages of the Yjs sync protocol; step 1 carries a state vector. */
  datatype Sync = Step1(have: Ops) | Step2(ops: Ops) | Update(ops: Ops)

  datatype BusKind = BusUpdate | BusStateRequest

  datatype BusMessage = BusMessage(kind: BusKind, origin: InstanceId, ops: Ops)

  /** The origin Yjs attaches to a transaction. */
  datatype Origin = Hydrate | Remote | Local(client: ClientId)

  datatype Send = Send(to: ClientId, frame: Sync)

  /** A room: its document and its clients, in the order a JavaScript Set iterates them. */
  datatype RoomState = RoomState(doc: Ops, clients: seq<ClientId>)

  /** A room after one operation, with the calls it made on its sink, its bus and its clients. */
  datatype Effect = Effect(room: RoomState, recorded: seq<Ops>, published: seq<(BusKind, Ops)>, sent: seq<Send>)

  function FanOut(clients: seq<ClientId>, origin: Origin, frame: Sync): seq<Send> {
    if clients == [] then []
    else
      var last := clients[|clients| - 1];
      FanOut(clients[..|clients| - 1], origin, frame)
      + if origin == Local(last) then [] else [Send(last, frame)]
  }

  /** Y.applyUpdate followed by the room's own update listener. */
  function Apply(r: RoomState, ops: Ops, origin: Origin): Effect {
    var gained := ops - r.doc;
    if gained == {} then Effect(r, [], [], [])
    else
      Effect(r.(doc := r.doc + gained),
             if origin.Local? then [gained] else [],
             if origin.Local? then [(BusUpdate, gained)] else [],
             FanOut(r.clients, origin, Update(gained)))
  }

  function Added(r: RoomState, c: ClientId): Effect {
    var joined := if c in r.clients then r else r.(clients := r.clients + [c]);
    Effect(joined, [], [], [Send(c, Step1(r.doc))])
  }

  function Without(clients: seq<ClientId>, c: ClientId): (rest: seq<ClientId>)
    ensures forall d :: d in rest <==> d in clients && d != c
  {
    if clients == [] then []
    else
      var last := clients[|clients| - 1];
      Without(clients[..|clients| - 1], c) + if last == c then [] else [last]
  }

  function Removed(r: RoomState, c: ClientId): Effect {
    Effect(r.(clients := Without(r.clients, c)), [], [], [])
  }

  function Handled(r: RoomState, c: ClientId, message: Sync): Effect {
    match message
    case Step1(have) => Effect(r, [], [], [Send(c, Step2(r.doc - have))])
    case Step2(ops) => Apply(r, ops, Local(c))
    case Update(ops) => Apply(r, ops, Local(c))
  }

  function Received(r: RoomState, message: BusMessage): Effect {
    match message.kind
    case BusUpdate => Apply(r, message.ops, Remote)
    case BusStateRequest =>
      Effect(r, [], if r.clients != [] then [(BusUpdate, r.doc)] else [], [])
  }

  class Room {
    const id: string
    var doc: Ops
    /** Insertion order, no repetition. */
    var clients: seq<ClientId>
    /** The calls made so far on the update sink, the bus and the client sockets. */
    var recorded: seq<Ops>
    var published: seq<(BusKind, Ops)>
    var sent: seq<Send>

    function View(): RoomState
      reads this
    {
      RoomState(doc, clients)
    }

    ghost predicate Valid()
      reads this
    {
      Distinct(clients)
    }

    /** What every operation promises: the room moved by `e` and made exactly `e`'s calls. */
    twostate predicate Did(e: Effect)
      reads this
    {
      && View() == e.room
      && recorded == old(recorded) + e.recorded
      && published == old(published) + e.published
      && sent == old(sent) + e.sent
    }

    constructor (id: string)
      ensures Valid() && View() == RoomState({}, [])
      ensures this.id == id && recorded == [] && published == [] && sent == []
    {
      this.id := id;
      doc, clients := {}, [];
      recorded, published, sent := [], [], [];
    }

    method HydrateFrom(state: Ops)
      requires Valid()
      modifies this
      ensures Valid() && Did(Apply(old(View()), state, Hydrate))
    {
      ApplyUpdate(state, Hydrate);
    }

    method Add(c: ClientId)
      requires Valid()
      modifies this
      ensures Valid() && Did(Added(old(View()), c))
    {
      if c !in clients {
        clients := clients + [c];
      }
      sent := sent + [Send(c, Step1(doc))];
    }

    method Remove(c: ClientId)
      requires Valid()
      modifies this
      ensures Valid() && Did(Removed(old(View()), c))
    {
      DistinctWithout(clients, c);
      clients := Without(clients, c);
    }

    method HandleSync(c: ClientId, message: Sync)
      requires Valid()
      modifies this
      ensures Valid() && Did(Handled(old(View()), c, message))
    {
      match message
      case Step1(have) => sent := sent + [Send(c, Step2(doc - have))];
      case Step2(ops) => ApplyUpdate(ops, Local(c));
      case Update(ops) => ApplyUpdate(ops, Local(c));
    }

    method Receive(message: BusMessage)
      requires Valid()
      modifies this
      ensures Valid() && Did(Received(old(View()), message))
    {
      match message.kind
      case BusUpdate => ApplyUpdate(message.ops, Remote);
      case BusStateRequest =>
        if |clients| > 0 {
          published := published + [(BusUpdate, doc)];
        }
    }

    method RequestState()
      modifies this
      ensures Did(Effect(old(View()), [], [(BusStateRequest, {})], []))
    {
      published := published + [(BusStateRequest, {})];
    }

    /** Yjs fires `update` only when the transaction added something, with only what is new. */
    method ApplyUpdate(ops: Ops, origin: Origin)
      requires Valid()
      modifies this
      ensures Valid() && Did(Apply(old(View()), ops, origin))
    {
      var gained := ops - doc;
      if gained != {} {
        doc := doc + gained;
        OnDocUpdate(gained, origin);
      }
    }

    method OnDocUpdate(update: Ops, origin: Origin)
      requires Valid()
      modifies this`recorded, this`published, this`sent
      ensures recorded == old(recorded) + if origin.Local? then [update] else []
      ensures published == old(published) + if origin.Local? then [(BusUpdate, update)] else []
      ensures sent == old(sent) + FanOut(clients, origin, Update(update))
    {
      if origin != Hydrate && origin != Remote {
        recorded := recorded + [update];
        published := published + [(BusUpdate, update)];
      }
      for i := 0 to |clients|
        modifies this`sent
        invariant sent == old(sent) + FanOut(clients[..i], origin, Update(update))
      {
        assert clients[..i + 1][..i] == clients[..i];
        if Local(clients[i]) != origin {
          sent := sent + [Send(clients[i], Update(update))];
        }
      }
      assert clients[..|clients|] == clients;
    }
  }

  // ------------------------------------------------------- who hears of an update

  lemma {:induction false} DistinctWithout(clients: seq<ClientId>, c: ClientId)
    requires Distinct(clients)
    ensures Distinct(Without(clients, c))
    ensures |Without(clients, c)| == |clients| - if c in clients then 1 else 0
  {
    if clients != [] {
      var front, last := clients[..|clients| - 1], clients[|clients| - 1];
      assert last !in front;
      DistinctWithout(front, c);
      assert c in clients <==> c in front || c == last;
    }
  }

  /** What the sends addressed to one client put on its socket, in order. */
  function Inbox(sent: seq<Send>, c: ClientId): seq<Sync> {
    if sent == [] then []
    else Inbox(sent[..|sent| - 1], c) + if sent[|sent| - 1].to == c then [sent[|sent| - 1].frame] else []
  }

  lemma InboxExtends(sent: seq<Send>, s: Send, c: ClientId)
    ensures Inbox(sent + [s], c) == Inbox(sent, c) + if s.to == c then [s.frame] else []
  {
    assert (sent + [s])[..|sent|] == sent;
  }

  /** Every client of the room but the one the update came from gets it, exactly once. */
  lemma {:induction false} FanOutReaches(clients: seq<ClientId>, origin: Origin, frame: Sync, c: ClientId)
    requires Distinct(clients)
    ensures Inbox(FanOut(clients, origin, frame), c)
         == if c in clients && origin != Local(c) then [frame] else []
  {
    if clients != [] {
      var front, last := clients[..|clients| - 1], clients[|clients| - 1];
      assert Distinct(front);
      FanOutReaches(front, origin, frame, c);
      assert last !in front;
      assert c in clients <==> c in front || c == last;
      assert FanOut(front, origin, frame) + [] == FanOut(front, origin, frame);
      if origin != Local(last) {
        InboxExtends(FanOut(front, origin, frame), Send(last, frame), c);
      }
    }
  }

  /** Sends only ever go to clients of the room. */
  lemma {:induction false} FanOutStaysInRoom(clients: seq<ClientId>, origin: Origin, frame: Sync)
    ensures forall s :: s in FanOut(clients, origin, frame) ==> s.to in clients && s.frame == frame
  {
    if clients != [] {
      FanOutStaysInRoom(clients[..|clients| - 1], origin, frame);
    }
  }

  /**
   An operation is recorded and published by the instance whose client brought it
   in, exactly when it is new to the room, and by no other: remote and hydrated
   updates only reach the clients here.
   */
  lemma RecordedExactlyWhenLocalAndNew(r: RoomState, ops: Ops, origin: Origin)
    ensures var e := Apply(r, ops, origin);
      && Merge(e.recorded) == (if origin.Local? then ops - r.doc else {})
      && e.room.doc == r.doc + ops
      && (e.published == [] <==> e.recorded == [])
      && (e.recorded == []
          || (|e.recorded| == 1 && e.recorded[0] !! r.doc && e.published == [(BusUpdate, e.recorded[0])]))
  {
    var e := Apply(r, ops, origin);
    assert r.doc + (ops - r.doc) == r.doc + ops;
    if e.recorded != [] {
      MergeOne(ops - r.doc);
      assert e.recorded == [ops - r.doc];
    }
  }

  /** No bus message makes a room record anything, and only a state request makes it publish. */
  lemma BusTrafficIsNeverRecorded(r: RoomState, message: BusMessage)
    ensures var e := Received(r, message);
      && e.recorded == []
      && (e.published != [] <==> message.kind == BusStateRequest && r.clients != [])
      && r.doc <= e.room.doc <= r.doc + message.ops
  {
  }
}
