/**
 The whole system on one document: users on sockets (Session) and instances on a
 bus and a store (Cluster), moving together. A frame a room handles is at once a
 step of the session and a step of the cluster; so is a bus message it receives.
 */
module System {
  import opened Crdt
  import opened Room
  import S = Session
  import C = Cluster
  import V = Convergence
  import W = Writer

  datatype State = State(session: S.State, cluster: C.State)

  datatype Event =
    | Outside(step: S.Event)
    | Frame(k: ClientId, bytes: nat, now: int)
    | Enter(k: ClientId)
    | Leave(k: ClientId)
    | OpenRoom(i: InstanceId, w: C.WriterId, rows: nat)
    | Deliver(i: InstanceId)
    | Background(work: C.Event)
    | Crash(i: InstanceId)

  /** The frame the server would take from this connection next, if it is one for the room. */
  function ForRoom(c: S.Conn): Option<Sync> {
    match c.stage
    case Joined => if c.up != [] && c.up[0].Doc? then Some(c.up[0].message) else None
    case Draining(rest) => if rest != [] && rest[0].Doc? then Some(rest[0].message) else None
    case _ => None
  }

  /** Steps of users and sockets that reach no room. */
  predicate IsOutside(s: S.State, e: S.Event) {
    match e
    case ServerRead(k) => k in s.conns && ForRoom(s.conns[k]).None?
    case Drain(k) => k in s.conns && ForRoom(s.conns[k]).None?
    case Enter(_) => false
    case Leave(_) => false
    case FromBus(_, _) => false
    case Reopen(_, _) => false
    case Crash(_) => false
    case _ => true
  }

  predicate IsBackground(e: C.Event) {
    e.ReadStore? || e.Subscribe? || e.Write?
  }

  function Hydrated(b: C.State, i: InstanceId): Ops
    requires i in b.nodes && b.nodes[i].Listening?
  {
    Apply(b.nodes[i].room, b.nodes[i].loaded, Hydrate).room.doc
  }

  /** The session's share of an event. */
  function SessionPart(g: State, e: Event): Option<S.Event> {
    match e
    case Outside(step) => Some(step)
    case Frame(k, _, _) =>
      Some(if k in g.session.conns && g.session.conns[k].stage.Draining? then S.Drain(k) else S.ServerRead(k))
    case Enter(k) => Some(S.Enter(k))
    case Leave(k) => Some(S.Leave(k))
    case OpenRoom(i, _, _) =>
      if i in g.cluster.nodes && g.cluster.nodes[i].Listening? then Some(S.Reopen(i, Hydrated(g.cluster, i))) else None
    case Deliver(i) =>
      if C.IsOpen(g.cluster, i) && g.cluster.nodes[i].cursor < |g.cluster.chan|
         && g.cluster.chan[g.cluster.nodes[i].cursor].origin != i
      then Some(S.FromBus(i, g.cluster.chan[g.cluster.nodes[i].cursor])) else None
    case Background(_) => None
    case Crash(i) => Some(S.Crash(i))
  }

  /** The cluster's share. */
  function ClusterPart(g: State, e: Event): Option<C.Event> {
    match e
    case Outside(_) => None
    case Frame(k, bytes, now) =>
      if k in g.session.conns && ForRoom(g.session.conns[k]).Some?
      then Some(C.ClientSync(g.session.conns[k].at, k, ForRoom(g.session.conns[k]).value, bytes, now)) else None
    case Enter(k) => if k in g.session.conns then Some(C.Join(g.session.conns[k].at, k)) else None
    case Leave(k) => if k in g.session.conns then Some(C.LeaveRoom(g.session.conns[k].at, k)) else None
    case OpenRoom(i, w, rows) => Some(C.Finish(i, w, rows))
    case Deliver(i) => Some(C.Deliver(i))
    case Background(work) => Some(work)
    case Crash(i) => Some(C.Crash(i))
  }

  predicate Enabled(g: State, e: Event) {
    && (SessionPart(g, e).Some? ==> S.Enabled(g.session, SessionPart(g, e).value))
    && (ClusterPart(g, e).Some? ==> C.Enabled(g.cluster, ClusterPart(g, e).value))
    && (e.Outside? ==> IsOutside(g.session, e.step))
    && (e.Frame? ==> ClusterPart(g, e).Some?)
    && (e.Background? ==> IsBackground(e.work))
  }

  function Next(g: State, o: W.Options, e: Event): State
    requires Enabled(g, e)
  {
    State(if SessionPart(g, e).Some? then S.Next(g.session, SessionPart(g, e).value) else g.session,
          if ClusterPart(g, e).Some? then C.Next(g.cluster, o, ClusterPart(g, e).value) else g.cluster)
  }

  /** Both views show the same rooms, and a room that is not open has nobody in it. */
  ghost predicate SameRoom(a: S.State, b: C.State, i: InstanceId) {
    if C.IsOpen(b, i) then i in a.rooms && a.rooms[i] == b.nodes[i].room
    else i in a.rooms ==> a.rooms[i].clients == []
  }

  ghost predicate Coupled(g: State) {
    forall i: nat :: SameRoom(g.session, g.cluster, i)
  }

  lemma FrameKeepsCoupled(g: State, o: W.Options, k: ClientId, bytes: nat, now: int)
    requires Coupled(g) && Enabled(g, Frame(k, bytes, now))
    ensures Coupled(Next(g, o, Frame(k, bytes, now)))
  {
    var t := Next(g, o, Frame(k, bytes, now));
    var c := g.session.conns[k];
    assert SameRoom(g.session, g.cluster, c.at);
    var effect := Handled(g.session.rooms[c.at], k, ForRoom(c).value);
    assert t.session.rooms == g.session.rooms[c.at := effect.room];
    forall i: nat ensures SameRoom(t.session, t.cluster, i) {
      assert SameRoom(g.session, g.cluster, i);
    }
  }

  lemma EnterKeepsCoupled(g: State, o: W.Options, k: ClientId)
    requires Coupled(g) && Enabled(g, Enter(k))
    ensures Coupled(Next(g, o, Enter(k)))
  {
    var t := Next(g, o, Enter(k));
    var c := g.session.conns[k];
    forall i: nat ensures SameRoom(t.session, t.cluster, i) {
      assert SameRoom(g.session, g.cluster, i);
    }
  }

  lemma LeaveKeepsCoupled(g: State, o: W.Options, k: ClientId)
    requires Coupled(g) && Enabled(g, Leave(k))
    ensures Coupled(Next(g, o, Leave(k)))
  {
    var t := Next(g, o, Leave(k));
    var c := g.session.conns[k];
    assert SameRoom(g.session, g.cluster, c.at);
    forall i: nat ensures SameRoom(t.session, t.cluster, i) {
      assert SameRoom(g.session, g.cluster, i);
    }
  }

  lemma OpenRoomKeepsCoupled(g: State, o: W.Options, i: InstanceId, w: C.WriterId, rows: nat)
    requires Coupled(g) && Enabled(g, OpenRoom(i, w, rows))
    requires g.cluster.nodes[i].room.clients == []
    ensures Coupled(Next(g, o, OpenRoom(i, w, rows)))
  {
    var t := Next(g, o, OpenRoom(i, w, rows));
    forall j: nat ensures SameRoom(t.session, t.cluster, j) {
      assert SameRoom(g.session, g.cluster, j);
    }
  }

  lemma DeliverKeepsCoupled(g: State, o: W.Options, i: InstanceId)
    requires Coupled(g) && Enabled(g, Deliver(i))
    ensures Coupled(Next(g, o, Deliver(i)))
  {
    var t := Next(g, o, Deliver(i));
    forall j: nat ensures SameRoom(t.session, t.cluster, j) {
      assert SameRoom(g.session, g.cluster, j);
    }
  }

  lemma BackgroundKeepsCoupled(g: State, o: W.Options, work: C.Event)
    requires Coupled(g) && Enabled(g, Background(work))
    ensures Coupled(Next(g, o, Background(work)))
  {
    var t := Next(g, o, Background(work));
    forall j: nat ensures SameRoom(t.session, t.cluster, j) {
      assert SameRoom(g.session, g.cluster, j);
    }
  }

  lemma CrashKeepsCoupled(g: State, o: W.Options, i: InstanceId)
    requires Coupled(g)
    ensures Coupled(Next(g, o, Crash(i)))
  {
    var t := Next(g, o, Crash(i));
    forall j: nat ensures SameRoom(t.session, t.cluster, j) {
      assert SameRoom(g.session, g.cluster, j);
    }
  }

  // ------------------------------------------------------------------ whole runs

  ghost predicate Careful(g: State, e: Event) {
    ClusterPart(g, e).Some? ==> V.Careful(g.cluster, ClusterPart(g, e).value)
  }

  /** What holds in every run, careful or not. */
  ghost predicate Sane(g: State) {
    Coupled(g) && V.Unpeopled(g.cluster) && S.Inv(g.session) && C.Durable(g.cluster) && V.AllPlaced(g.cluster)
  }

  ghost predicate Inv(g: State) {
    Sane(g) && V.Inv(g.cluster)
  }

  lemma NextKeepsCoupled(g: State, o: W.Options, e: Event)
    requires Coupled(g) && V.Unpeopled(g.cluster) && Enabled(g, e)
    ensures Coupled(Next(g, o, e))
  {
    match e
    case Outside(step) =>
      var t := Next(g, o, e);
      forall j: nat ensures SameRoom(t.session, t.cluster, j) {
        assert SameRoom(g.session, g.cluster, j);
      }
    case Frame(k, bytes, now) => FrameKeepsCoupled(g, o, k, bytes, now);
    case Enter(k) => EnterKeepsCoupled(g, o, k);
    case Leave(k) => LeaveKeepsCoupled(g, o, k);
    case OpenRoom(i, w, rows) => OpenRoomKeepsCoupled(g, o, i, w, rows);
    case Deliver(i) => DeliverKeepsCoupled(g, o, i);
    case Background(work) => BackgroundKeepsCoupled(g, o, work);
    case Crash(i) => CrashKeepsCoupled(g, o, i);
  }

  lemma NextKeepsSane(g: State, o: W.Options, e: Event)
    requires Sane(g) && Enabled(g, e)
    ensures Sane(Next(g, o, e))
  {
    NextKeepsCoupled(g, o, e);
    if SessionPart(g, e).Some? {
      S.NextKeepsInv(g.session, SessionPart(g, e).value);
    }
    if ClusterPart(g, e).Some? {
      var ce := ClusterPart(g, e).value;
      V.NextKeepsUnpeopled(g.cluster, o, ce);
      C.NextKeepsDurable(g.cluster, o, ce);
      V.NextKeepsPlaced(g.cluster, o, ce);
    }
  }

  lemma NextKeepsInv(g: State, o: W.Options, e: Event)
    requires Inv(g) && Enabled(g, e) && Careful(g, e)
    ensures Inv(Next(g, o, e))
  {
    NextKeepsSane(g, o, e);
    if ClusterPart(g, e).Some? {
      V.NextKeepsInv(g.cluster, o, ClusterPart(g, e).value);
    }
  }

  predicate Runs(g: State, o: W.Options, es: seq<Event>)
    decreases |es|
  {
    es == [] || (Enabled(g, es[0]) && Runs(Next(g, o, es[0]), o, es[1..]))
  }

  function After(g: State, o: W.Options, es: seq<Event>): State
    requires Runs(g, o, es)
    decreases |es|
  {
    if es == [] then g else After(Next(g, o, es[0]), o, es[1..])
  }

  ghost predicate CarefulRun(g: State, o: W.Options, es: seq<Event>)
    requires Runs(g, o, es)
    decreases |es|
  {
    es == [] || (Careful(g, es[0]) && CarefulRun(Next(g, o, es[0]), o, es[1..]))
  }

  /** Users may have drafts and the store a history; nobody is connected and no room is open. */
  predicate Init(g: State) {
    S.Init(g.session) && C.Init(g.cluster)
  }

  lemma {:induction false} RunKeepsInv(g: State, o: W.Options, es: seq<Event>)
    requires Inv(g) && Runs(g, o, es) && CarefulRun(g, o, es)
    ensures Inv(After(g, o, es))
    decreases |es|
  {
    if es != [] {
      NextKeepsInv(g, o, es[0]);
      RunKeepsInv(Next(g, o, es[0]), o, es[1..]);
    }
  }

  lemma {:induction false} RunKeepsSane(g: State, o: W.Options, es: seq<Event>)
    requires Sane(g) && Runs(g, o, es)
    ensures Sane(After(g, o, es))
    decreases |es|
  {
    if es != [] {
      NextKeepsSane(g, o, es[0]);
      RunKeepsSane(Next(g, o, es[0]), o, es[1..]);
    }
  }

  lemma InitHasInv(g: State)
    requires Init(g)
    ensures Inv(g)
  {
    assert C.HeldByAll(g.cluster.writers) == {};
  }

  /** Nothing in flight to or from a connected user, and the channel read by every open room. */
  ghost predicate Quiescent(g: State) {
    && V.ChannelDrained(g.cluster)
    && forall k :: S.Connected(g.session, k) ==> S.Silent(g.session.conns[k])
  }

  /**
   End to end: in every careful run of the whole system, once nothing is in flight,
   every connected user on every instance holds the same document, and it is
   exactly everything that any user ever got through to any room.
   */
  lemma EveryoneConverges(g: State, o: W.Options, es: seq<Event>, k: ClientId)
    requires Init(g) && Runs(g, o, es) && CarefulRun(g, o, es)
    requires Quiescent(After(g, o, es)) && S.Connected(After(g, o, es).session, k)
    ensures var t := After(g, o, es);
      t.session.users[t.session.conns[k].user].doc == t.cluster.recorded
  {
    InitHasInv(g);
    RunKeepsInv(g, o, es);
    QuiescentMeansEqual(After(g, o, es), k);
  }

  lemma QuiescentMeansEqual(t: State, k: ClientId)
    requires Inv(t) && Quiescent(t) && S.Connected(t.session, k)
    ensures t.session.users[t.session.conns[k].user].doc == t.cluster.recorded
  {
    var at := t.session.conns[k].at;
    assert S.LinkAt(t.session, k);
    S.SilentMeansEqual(t.session, k);
    assert S.Seated(t.session.rooms, k, t.session.conns[k]);
    assert SameRoom(t.session, t.cluster, at);
    V.DrainedMeansEqual(t.cluster, at);
  }
}
