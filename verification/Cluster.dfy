/**
 One document on many instances: apps/server/src/rooms/registry.ts opens and
 closes its rooms, apps/server/src/rooms/room.ts relays their updates over a bus
 that delivers one totally ordered channel to every subscriber, and each room's
 writer (apps/server/src/persistence/writer.ts) takes what its clients brought in
 to the store, also after the room has gone and until it is closed and has flushed.
 One step is one synchronous stretch of code on one instance.
 */
module Cluster {
  import opened Crdt
  import opened Room
  import W = Writer

  type WriterId = nat

  /**
   A room being opened or open. Loading reads the store before it subscribes; an
   open room remembers where on the channel its own state request went.
   */
  datatype Node =
    | Reading(loaded: Ops)
    | Listening(loaded: Ops, room: RoomState, cursor: nat)
    | Open(room: RoomState, cursor: nat, asked: nat, writer: WriterId)

  /** A writer and the instance it lives on; it outlives its room until it has flushed. */
  datatype Keeper = Keeper(at: InstanceId, state: W.State)

  /** `chan` is everything ever published; `recorded` and `lost` are the history. */
  datatype State = State(
    chan: seq<BusMessage>,
    nodes: map<InstanceId, Node>,
    store: Ops,
    writers: map<WriterId, Keeper>,
    recorded: Ops,
    lost: Ops)

  datatype Event =
    | ReadStore(i: InstanceId)
    | Subscribe(i: InstanceId)
    | Finish(i: InstanceId, w: WriterId, rows: nat)
    | Join(i: InstanceId, k: ClientId)
    | ClientSync(i: InstanceId, k: ClientId, message: Sync, bytes: nat, now: int)
    | Deliver(i: InstanceId)
    | LeaveRoom(i: InstanceId, k: ClientId)
    | Write(w: WriterId, e: W.Event)
    | Crash(i: InstanceId)

  predicate IsOpen(s: State, i: InstanceId) {
    i in s.nodes && s.nodes[i].Open?
  }

  predicate Subscribed(s: State, i: InstanceId) {
    i in s.nodes && !s.nodes[i].Reading?
  }

  /**
   A room that has just opened takes its waiting clients in before the next bus
   message is delivered, so an open room without clients delivers nothing.
   */
  predicate Enabled(s: State, e: Event) {
    match e
    case ReadStore(i) => i !in s.nodes
    case Subscribe(i) => i in s.nodes && s.nodes[i].Reading?
    case Finish(i, w, _) => i in s.nodes && s.nodes[i].Listening? && w !in s.writers
    case Join(i, k) => IsOpen(s, i)
    case ClientSync(i, k, _, _, _) => IsOpen(s, i) && k in s.nodes[i].room.clients && s.nodes[i].writer in s.writers
    case Deliver(i) =>
      Subscribed(s, i) && s.nodes[i].cursor < |s.chan| && (s.nodes[i].Open? ==> s.nodes[i].room.clients != [])
    case LeaveRoom(i, k) => IsOpen(s, i) && k in s.nodes[i].room.clients && s.nodes[i].writer in s.writers
    case Write(w, we) =>
      w in s.writers && !we.Record? && (we.Close? ==> Retired(s, w)) && W.Enabled(s.writers[w].state, we)
    case Crash(i) => true
  }

  /** The room has let go of its writer, which is to be closed once the bus has been told. */
  predicate Retired(s: State, w: WriterId)
    requires w in s.writers
  {
    !s.writers[w].state.closed && forall i :: i in s.nodes && s.nodes[i].Open? ==> s.nodes[i].writer != w
  }

  function Posts(i: InstanceId, published: seq<(BusKind, Ops)>): seq<BusMessage> {
    seq(|published|, n requires 0 <= n < |published| => BusMessage(published[n].0, i, published[n].1))
  }

  function Kept(s: State, o: W.Options, w: WriterId, e: W.Event): map<WriterId, Keeper>
    requires w in s.writers && W.Enabled(s.writers[w].state, e)
  {
    s.writers[w := s.writers[w].(state := W.Next(s.writers[w].state, o, e))]
  }

  /** The room's document listener reaches its writer for each update it records. */
  function RecordedBy(
    s: State, o: W.Options, w: WriterId, recorded: seq<Ops>, bytes: nat, now: int): map<WriterId, Keeper>
    requires w in s.writers
  {
    if recorded == [] then s.writers else Kept(s, o, w, W.Record(W.Chunk(recorded[0], bytes), now))
  }

  /** LeaveRoom takes the last client out, so the room closes with it. */
  predicate Closes(s: State, e: Event) {
    e.LeaveRoom? && IsOpen(s, e.i) && Removed(s.nodes[e.i].room, e.k).room.clients == []
  }

  function Next(s: State, o: W.Options, e: Event): State
    requires Enabled(s, e)
  {
    match e
    case ReadStore(i) => s.(nodes := s.nodes[i := Reading(s.store)])
    case Subscribe(i) =>
      s.(nodes := s.nodes[i := Listening(s.nodes[i].loaded, RoomState({}, []), |s.chan|)])
    case Finish(i, w, rows) =>
      var n := s.nodes[i];
      var room := Apply(n.room, n.loaded, Hydrate).room;
      s.(nodes := s.nodes[i := Open(room, n.cursor, |s.chan|, w)],
         chan := s.chan + [BusMessage(BusStateRequest, i, {})],
         writers := s.writers[w := Keeper(i, W.Initial(rows))])
    case Join(i, k) =>
      s.(nodes := s.nodes[i := s.nodes[i].(room := Added(s.nodes[i].room, k).room)])
    case ClientSync(i, k, m, bytes, now) =>
      var n := s.nodes[i];
      var effect := Handled(n.room, k, m);
      s.(nodes := s.nodes[i := n.(room := effect.room)],
         chan := s.chan + Posts(i, effect.published),
         writers := RecordedBy(s, o, n.writer, effect.recorded, bytes, now),
         recorded := s.recorded + Merge(effect.recorded))
    case Deliver(i) =>
      var n := s.nodes[i];
      var m := s.chan[n.cursor];
      if m.origin == i then s.(nodes := s.nodes[i := n.(cursor := n.cursor + 1)])
      else
        var effect := Received(n.room, m);
        s.(nodes := s.nodes[i := n.(room := effect.room, cursor := n.cursor + 1)],
           chan := s.chan + Posts(i, effect.published))
    case LeaveRoom(i, k) =>
      var n := s.nodes[i];
      if Closes(s, e) then s.(nodes := s.nodes - {i})
      else s.(nodes := s.nodes[i := n.(room := Removed(n.room, k).room)])
    case Write(w, we) =>
      var st := s.writers[w].state;
      var after := s.(writers := Kept(s, o, w, we));
      if we.AppendOk? then after.(store := s.store + W.OpsOf(st.stage.batch))
      else if we.AppendFailed? && st.closed then after.(lost := s.lost + W.OpsOf(st.stage.batch))
      else after
    case Crash(i) =>
      s.(nodes := s.nodes - {i},
         writers := map w | w in s.writers && s.writers[w].at != i :: s.writers[w],
         lost := s.lost + HeldAt(s.writers, i))
  }

  /** What all writers still owe the store. */
  function HeldByAll(writers: map<WriterId, Keeper>): Ops {
    set w, o | w in writers && o in W.Held(writers[w].state) :: o
  }

  function HeldAt(writers: map<WriterId, Keeper>, i: InstanceId): Ops {
    set w, o | w in writers && writers[w].at == i && o in W.Held(writers[w].state) :: o
  }

  /** A store with a history; no instance has the document open. */
  predicate Init(s: State) {
    s.chan == [] && s.nodes == map[] && s.writers == map[] && s.recorded == s.store && s.lost == {}
  }

  predicate Runs(s: State, o: W.Options, es: seq<Event>)
    decreases |es|
  {
    es == [] || (Enabled(s, es[0]) && Runs(Next(s, o, es[0]), o, es[1..]))
  }

  function After(s: State, o: W.Options, es: seq<Event>): State
    requires Runs(s, o, es)
    decreases |es|
  {
    if es == [] then s else After(Next(s, o, es[0]), o, es[1..])
  }

  lemma {:induction false} RunsConcat(s: State, o: W.Options, a: seq<Event>, b: seq<Event>)
    requires Runs(s, o, a) && Runs(After(s, o, a), o, b)
    ensures Runs(s, o, a + b) && After(s, o, a + b) == After(After(s, o, a), o, b)
    decreases |a|
  {
    if a == [] {
      assert [] + b == b;
    } else {
      RunsConcat(Next(s, o, a[0]), o, a[1..], b);
      assert (a + b)[1..] == a[1..] + b;
    }
  }

  lemma PostsOne(i: InstanceId, kind: BusKind, ops: Ops)
    ensures Posts(i, [(kind, ops)]) == [BusMessage(kind, i, ops)] && Posts(i, []) == []
  {
  }

  /** What a client's frame does to its instance, spelt out. */
  lemma ClientSyncEffect(s: State, o: W.Options, i: InstanceId, k: ClientId, m: Sync, bytes: nat, now: int)
    requires Enabled(s, ClientSync(i, k, m, bytes, now))
    ensures var t := Next(s, o, ClientSync(i, k, m, bytes, now));
      var gained := if m.Step1? then {} else m.ops - s.nodes[i].room.doc;
      && t.nodes == s.nodes[i := s.nodes[i].(room := s.nodes[i].room.(doc := s.nodes[i].room.doc + gained))]
      && t.recorded == s.recorded + gained && t.store == s.store && t.lost == s.lost
      && t.chan == s.chan + (if gained == {} then [] else [BusMessage(BusUpdate, i, gained)])
      && t.writers == (if gained == {} then s.writers
                       else Kept(s, o, s.nodes[i].writer, W.Record(W.Chunk(gained, bytes), now)))
  {
    var r := s.nodes[i].room;
    var gained := if m.Step1? then {} else m.ops - r.doc;
    PostsOne(i, BusUpdate, gained);
    MergeOne(gained);
    assert r.doc + gained == if gained == {} then r.doc else r.doc + gained;
  }

  /** What a bus message does to the instance it reaches, spelt out. */
  lemma DeliverEffect(s: State, o: W.Options, i: InstanceId)
    requires Enabled(s, Deliver(i))
    ensures var (t, n) := (Next(s, o, Deliver(i)), s.nodes[i]);
      var m := s.chan[n.cursor];
      var gained := if m.origin != i && m.kind.BusUpdate? then m.ops - n.room.doc else {};
      && t.nodes == s.nodes[i := n.(room := n.room.(doc := n.room.doc + gained), cursor := n.cursor + 1)]
      && t.recorded == s.recorded && t.store == s.store && t.lost == s.lost && t.writers == s.writers
      && t.chan == s.chan + (if m.origin != i && m.kind.BusStateRequest? && n.room.clients != []
                             then [BusMessage(BusUpdate, i, n.room.doc)] else [])
  {
    var n := s.nodes[i];
    var m := s.chan[n.cursor];
    PostsOne(i, BusUpdate, n.room.doc);
    var gained := if m.origin != i && m.kind.BusUpdate? then m.ops - n.room.doc else {};
    assert n.room.doc + gained == if gained == {} then n.room.doc else n.room.doc + gained;
  }

  // ------------------------------------------------------------------ durability

  ghost predicate Known(n: Node, all: Ops) {
    match n
    case Reading(loaded) => loaded <= all
    case Listening(loaded, room, _) => loaded <= all && room.doc <= all
    case Open(room, _, _, _) => room.doc <= all
  }

  /**
   Every operation any client ever brought in is in the store, or owed by a writer,
   open or closing, or on the list of the lost; rooms and bus carry no other.
   */
  ghost predicate Durable(s: State) {
    && s.recorded == s.store + HeldByAll(s.writers) + s.lost
    && (forall i :: i in s.nodes ==> Known(s.nodes[i], s.recorded))
    && (forall n :: 0 <= n < |s.chan| ==> s.chan[n].ops <= s.recorded)
    && (forall i :: i in s.nodes && s.nodes[i].Open? ==>
          s.nodes[i].writer in s.writers && s.writers[s.nodes[i].writer].at == i)
  }

  lemma HeldUpdate(writers: map<WriterId, Keeper>, w: WriterId, k: Keeper)
    ensures HeldByAll(writers[w := k]) + (if w in writers then W.Held(writers[w].state) else {})
         == HeldByAll(writers) + W.Held(k.state)
            + (if w in writers then W.Held(writers[w].state) else {})
    ensures HeldByAll(writers[w := k]) <= HeldByAll(writers) + W.Held(k.state)
    ensures W.Held(k.state) <= HeldByAll(writers[w := k])
  {
    var after := writers[w := k];
    assert after[w] == k;
    forall o | o in HeldByAll(writers)
      ensures o in HeldByAll(after) || (w in writers && o in W.Held(writers[w].state))
    {
      var v :| v in writers && o in W.Held(writers[v].state);
      assert v != w ==> after[v] == writers[v];
    }
    forall o | o in HeldByAll(after) ensures o in HeldByAll(writers) || o in W.Held(k.state) {
      var v :| v in after && o in W.Held(after[v].state);
      assert v != w ==> after[v] == writers[v];
    }
  }

  /** What a client newly brought in is at once owed by the room's writer. */
  lemma RecordIsHeld(s: State, o: W.Options, w: WriterId, gained: Ops, bytes: nat, now: int)
    requires w in s.writers
    ensures HeldByAll(Kept(s, o, w, W.Record(W.Chunk(gained, bytes), now))) == HeldByAll(s.writers) + gained
  {
    var record := W.Record(W.Chunk(gained, bytes), now);
    var after := Kept(s, o, w, record);
    W.NextMovesHeld(s.writers[w].state, o, record);
    HeldUpdate(s.writers, w, after[w]);
    assert W.Held(s.writers[w].state) <= HeldByAll(s.writers);
  }

  lemma ClientSyncKeepsDurable(s: State, o: W.Options, i: InstanceId, k: ClientId, m: Sync, bytes: nat, now: int)
    requires Durable(s) && Enabled(s, ClientSync(i, k, m, bytes, now))
    ensures Durable(Next(s, o, ClientSync(i, k, m, bytes, now)))
  {
    ClientSyncEffect(s, o, i, k, m, bytes, now);
    var gained := if m.Step1? then {} else m.ops - s.nodes[i].room.doc;
    GainedKeepsDurable(s, Next(s, o, ClientSync(i, k, m, bytes, now)), o, i, gained, bytes, now);
  }

  function Enriched(n: Node, gained: Ops): Node
    requires !n.Reading?
  {
    n.(room := n.room.(doc := n.room.doc + gained))
  }

  lemma GainedKeepsDurable(s: State, t: State, o: W.Options, i: InstanceId, gained: Ops, bytes: nat, now: int)
    requires Durable(s) && IsOpen(s, i) && s.nodes[i].writer in s.writers
    requires t.nodes == s.nodes[i := Enriched(s.nodes[i], gained)]
    requires t.recorded == s.recorded + gained && t.store == s.store && t.lost == s.lost
    requires t.chan == s.chan + (if gained == {} then [] else [BusMessage(BusUpdate, i, gained)])
    requires t.writers == (if gained == {} then s.writers
                           else Kept(s, o, s.nodes[i].writer, W.Record(W.Chunk(gained, bytes), now)))
    ensures Durable(t)
  {
    if gained != {} {
      RecordIsHeld(s, o, s.nodes[i].writer, gained, bytes, now);
    }
    KnownGrows(s, t, i, gained);
  }

  lemma KnownGrows(s: State, t: State, i: InstanceId, gained: Ops)
    requires IsOpen(s, i) && (forall j :: j in s.nodes ==> Known(s.nodes[j], s.recorded))
    requires t.nodes == s.nodes[i := Enriched(s.nodes[i], gained)]
    requires t.recorded == s.recorded + gained
    ensures forall j :: j in t.nodes ==> Known(t.nodes[j], t.recorded)
  {
    forall j | j in t.nodes ensures Known(t.nodes[j], t.recorded) {
      assert Known(s.nodes[j], s.recorded);
    }
  }

  lemma DeliverKeepsDurable(s: State, o: W.Options, i: InstanceId)
    requires Durable(s) && Enabled(s, Deliver(i))
    ensures Durable(Next(s, o, Deliver(i)))
  {
    DeliverEffect(s, o, i);
    assert Known(s.nodes[i], s.recorded);
    assert s.chan[s.nodes[i].cursor].ops <= s.recorded;
  }

  lemma WriteKeepsDurable(s: State, o: W.Options, w: WriterId, e: W.Event)
    requires Durable(s) && Enabled(s, Write(w, e))
    ensures Durable(Next(s, o, Write(w, e)))
  {
    var t := Next(s, o, Write(w, e));
    W.NextMovesHeld(s.writers[w].state, o, e);
    HeldUpdate(s.writers, w, t.writers[w]);
    assert W.Held(s.writers[w].state) <= HeldByAll(s.writers);
  }

  lemma CrashKeepsDurable(s: State, o: W.Options, i: InstanceId)
    requires Durable(s)
    ensures Durable(Next(s, o, Crash(i)))
  {
    var t := Next(s, o, Crash(i));
    forall x ensures x in HeldByAll(s.writers) <==> x in HeldByAll(t.writers) || x in HeldAt(s.writers, i) {
      if x in HeldByAll(s.writers) {
        var w :| w in s.writers && x in W.Held(s.writers[w].state);
        assert s.writers[w].at != i ==> t.writers[w] == s.writers[w];
      }
      if x in HeldByAll(t.writers) {
        var w :| w in t.writers && x in W.Held(t.writers[w].state);
        assert t.writers[w] == s.writers[w];
      }
    }
  }

  lemma CloseKeepsDurable(s: State, o: W.Options, i: InstanceId, k: ClientId)
    requires Durable(s) && Enabled(s, LeaveRoom(i, k))
    ensures Durable(Next(s, o, LeaveRoom(i, k)))
  {
    assert Known(s.nodes[i], s.recorded);
  }

  lemma FinishKeepsDurable(s: State, o: W.Options, i: InstanceId, w: WriterId, rows: nat)
    requires Durable(s) && Enabled(s, Finish(i, w, rows))
    ensures Durable(Next(s, o, Finish(i, w, rows)))
  {
    assert Known(s.nodes[i], s.recorded);
    HeldUpdate(s.writers, w, Keeper(i, W.Initial(rows)));
    assert W.Held(W.Initial(rows)) == {};
  }

  lemma NextKeepsDurable(s: State, o: W.Options, e: Event)
    requires Durable(s) && Enabled(s, e)
    ensures Durable(Next(s, o, e))
  {
    match e
    case ReadStore(i) =>
    case Subscribe(i) => assert Known(s.nodes[i], s.recorded);
    case Finish(i, w, rows) => FinishKeepsDurable(s, o, i, w, rows);
    case Join(i, k) => assert Known(s.nodes[i], s.recorded);
    case ClientSync(i, k, m, bytes, now) => ClientSyncKeepsDurable(s, o, i, k, m, bytes, now);
    case Deliver(i) => DeliverKeepsDurable(s, o, i);
    case LeaveRoom(i, k) => CloseKeepsDurable(s, o, i, k);
    case Write(w, we) => WriteKeepsDurable(s, o, w, we);
    case Crash(i) => CrashKeepsDurable(s, o, i);
  }

  lemma {:induction false} RunKeepsDurable(s: State, o: W.Options, es: seq<Event>)
    requires Durable(s) && Runs(s, o, es)
    ensures Durable(After(s, o, es))
    decreases |es|
  {
    if es != [] {
      NextKeepsDurable(s, o, es[0]);
      RunKeepsDurable(Next(s, o, es[0]), o, es[1..]);
    }
  }

  /** Does any room or the bus carry this operation? */
  ghost predicate Alive(s: State, x: Op) {
    || (exists i :: i in s.nodes && !s.nodes[i].Reading? && x in s.nodes[i].room.doc)
    || (exists n :: 0 <= n < |s.chan| && x in s.chan[n].ops)
  }

  /** Durability over every run, crashes and failed appends included. */
  lemma EveryOperationIsOwned(s: State, o: W.Options, es: seq<Event>, x: Op)
    requires Init(s) && Runs(s, o, es)
    ensures var t := After(s, o, es);
      && t.recorded == t.store + HeldByAll(t.writers) + t.lost
      && (Alive(t, x) ==> x in t.store || x in HeldByAll(t.writers) || x in t.lost)
  {
    RunKeepsDurable(s, o, es);
    var t := After(s, o, es);
    forall i | i in t.nodes && !t.nodes[i].Reading? && x in t.nodes[i].room.doc ensures x in t.recorded {
      assert Known(t.nodes[i], t.recorded);
    }
  }

  /** The two ways to lose an operation: an instance dies, or an append fails once its writer is closed. */
  predicate Loses(s: State, e: Event) {
    e.Crash? || (e.Write? && e.e.AppendFailed? && e.w in s.writers && s.writers[e.w].state.closed)
  }

  predicate LosslessRun(s: State, o: W.Options, es: seq<Event>)
    requires Runs(s, o, es)
    decreases |es|
  {
    es == [] || (!Loses(s, es[0]) && LosslessRun(Next(s, o, es[0]), o, es[1..]))
  }

  lemma {:induction false} LosslessRunsLoseNothing(s: State, o: W.Options, es: seq<Event>)
    requires Runs(s, o, es) && LosslessRun(s, o, es)
    ensures After(s, o, es).lost == s.lost
    decreases |es|
  {
    if es != [] {
      LosslessRunsLoseNothing(Next(s, o, es[0]), o, es[1..]);
    }
  }

  /** A writer that has nothing pending, nothing queued and nothing under way. */
  predicate Settled(w: W.State) {
    w.pending == [] && W.Drained(w)
  }

  /**
   Once every writer has settled, whatever any client ever brought in, on any
   instance, is in the store, unless a crash or a failed last append took it.
   */
  lemma SettledWritersMeanStored(s: State, o: W.Options, es: seq<Event>)
    requires Init(s) && Runs(s, o, es) && LosslessRun(s, o, es)
    requires forall w :: w in After(s, o, es).writers ==> Settled(After(s, o, es).writers[w].state)
    ensures After(s, o, es).recorded == After(s, o, es).store
  {
    RunKeepsDurable(s, o, es);
    LosslessRunsLoseNothing(s, o, es);
    var t := After(s, o, es);
    forall w | w in t.writers ensures W.Held(t.writers[w].state) == {} {
      assert Settled(t.writers[w].state);
    }
    assert HeldByAll(t.writers) == {};
  }
}
