/**
 Do messages ever stop? Answers, forwards and republished updates beget messages;
 with no new edits, sockets or store reads they still run out, in whatever order they
 are delivered, and when they have run out everyone agrees.
 */
module Termination {
  import opened Crdt
  import opened Room
  import S = Session
  import C = Cluster
  import V = Convergence
  import W = Writer
  import opened System

  /** Handing over a message that is already on its way: a frame up, a frame down, or one off the bus. */
  predicate IsDelivery(e: Event) {
    || e.Frame? || e.Deliver?
    || (e.Outside? && (e.step.ServerRead? || e.step.ServerSkip? || e.step.Drain? || e.step.UserRead?))
  }

  /** A step of an opening under way: subscribing, or hydrating and asking for state. */
  predicate IsOpening(e: Event) {
    e.OpenRoom? || (e.Background? && e.work.Subscribe?)
  }

  /**
   Getting on with what is under way: deliveries, joins whose room is open, sockets
   that have gone, openings that have read the store.
   */
  predicate IsProgress(e: Event) {
    IsDelivery(e) || e.Enter? || e.Leave? || IsOpening(e)
  }

  // -------------------------------------------------------------- finite sums

  ghost function Sum(keys: set<nat>, f: nat -> nat): nat {
    if keys == {} then 0
    else
      var k :| k in keys;
      f(k) + Sum(keys - {k}, f)
  }

  lemma {:induction false} SumSplits(keys: set<nat>, f: nat -> nat, k: nat)
    requires k in keys
    ensures Sum(keys, f) == f(k) + Sum(keys - {k}, f)
    decreases |keys|
  {
    var j :| j in keys && Sum(keys, f) == f(j) + Sum(keys - {j}, f);
    if j != k {
      SumSplits(keys - {j}, f, k);
      SumSplits(keys - {k}, f, j);
      assert keys - {j} - {k} == keys - {k} - {j};
    }
  }

  lemma {:induction false} SumAgrees(keys: set<nat>, f: nat -> nat, g: nat -> nat)
    requires forall k :: k in keys ==> g(k) <= f(k)
    ensures Sum(keys, g) <= Sum(keys, f)
    decreases |keys|
  {
    if keys != {} {
      var k :| k in keys;
      SumSplits(keys, f, k);
      SumSplits(keys, g, k);
      SumAgrees(keys - {k}, f, g);
    }
  }

  lemma {:induction false} SumOfFewer(keys: set<nat>, fewer: set<nat>, f: nat -> nat, g: nat -> nat)
    requires fewer <= keys && forall k :: k in fewer ==> g(k) <= f(k)
    ensures Sum(fewer, g) <= Sum(keys, f)
    decreases |fewer|
  {
    if fewer != {} {
      var k :| k in fewer;
      SumSplits(keys, f, k);
      SumSplits(fewer, g, k);
      SumOfFewer(keys - {k}, fewer - {k}, f, g);
    }
  }

  /** One term drops and none grows. */
  lemma SumDrops(keys: set<nat>, f: nat -> nat, g: nat -> nat, k: nat)
    requires k in keys && g(k) < f(k)
    requires forall j :: j in keys && j != k ==> g(j) <= f(j)
    ensures Sum(keys, g) < Sum(keys, f)
  {
    SumSplits(keys, f, k);
    SumSplits(keys, g, k);
    SumAgrees(keys - {k}, f, g);
  }

  lemma {:induction false} SumBumped(keys: set<nat>, f: nat -> nat, g: nat -> nat)
    requires forall k :: k in keys ==> g(k) <= f(k) + 1
    ensures Sum(keys, g) <= Sum(keys, f) + |keys|
    decreases |keys|
  {
    if keys != {} {
      var k :| k in keys;
      SumSplits(keys, f, k);
      SumSplits(keys, g, k);
      SumBumped(keys - {k}, f, g);
      assert |keys - {k}| == |keys| - 1;
    }
  }

  /** One term drops by the number of terms while each other grows by at most one. */
  lemma SumGives(keys: set<nat>, f: nat -> nat, g: nat -> nat, k: nat)
    requires k in keys && g(k) + |keys| <= f(k)
    requires forall j :: j in keys && j != k ==> g(j) <= f(j) + 1
    ensures Sum(keys, g) < Sum(keys, f)
  {
    SumSplits(keys, f, k);
    SumSplits(keys, g, k);
    SumBumped(keys - {k}, f, g);
    assert |keys - {k}| == |keys| - 1;
  }

  // ------------------------------------------------------------ the measure

  /** Everything in the system is among these operations. */
  ghost predicate Within(g: State, all: Ops) {
    && (forall u :: u in g.session.users ==> g.session.users[u].doc <= all)
    && (forall k :: k in g.session.conns ==> ConnWithin(g.session.conns[k], all))
    && (forall i :: i in g.session.rooms ==> g.session.rooms[i].doc <= all)
    && (forall i :: i in g.cluster.nodes ==> C.Known(g.cluster.nodes[i], all))
    && (forall n :: 0 <= n < |g.cluster.chan| ==> g.cluster.chan[n].ops <= all)
  }

  ghost predicate ConnWithin(c: S.Conn, all: Ops) {
    && (forall f :: f in S.Unread(c) && f.Doc? ==> S.Mentions(f.message) <= all)
    && (forall m :: m in c.down ==> S.Mentions(m) <= all)
  }

  function MissingAt(users: map<S.UserId, S.User>, all: Ops): nat -> nat {
    (u: nat) => if u in users then |all - users[u].doc| else 0
  }

  function MissingIn(nodes: map<InstanceId, C.Node>, all: Ops): nat -> nat {
    (i: nat) => if i in nodes && !nodes[i].Reading? then |all - nodes[i].room.doc| else 0
  }

  /** Operations still missing somewhere. */
  ghost function Missing(g: State, all: Ops): nat {
    Sum(g.session.users.Keys, MissingAt(g.session.users, all))
    + Sum(g.cluster.nodes.Keys, MissingIn(g.cluster.nodes, all))
  }

  /** A step 1 outranks the step 2 that answers it, even counting the step 2's own reading. */
  function Rank(m: Sync): nat {
    if m.Step1? then 3 else 1
  }

  function FrameRank(f: S.Frame): nat {
    if f.Doc? then Rank(f.message) else 1
  }

  function RanksOf(fs: seq<S.Frame>, extra: nat): nat {
    if fs == [] then 0 else FrameRank(fs[0]) + extra + RanksOf(fs[1..], extra)
  }

  function DownRanks(ms: seq<Sync>): nat {
    if ms == [] then 0 else Rank(ms[0]) + DownRanks(ms[1..])
  }

  /** How far a connection still has to go; entering the room costs it a step 1. */
  function StageRank(s: S.Stage): nat {
    match s
    case Unauthenticated => 7
    case Loading(_) => 6
    case Draining(_) => 2
    case Joined => 1
    case Left => 0
  }

  function ConnRank(c: S.Conn): nat {
    RanksOf(c.up, 1) + RanksOf(S.Queued(c), 0) + DownRanks(c.down) + StageRank(c.stage)
  }

  /** A state request outranks the update every subscriber will get in answer. */
  function BusRanks(chan: seq<BusMessage>, cursor: nat, subscribers: nat): nat
    requires cursor <= |chan|
    decreases |chan| - cursor
  {
    if cursor == |chan| then 0
    else (if chan[cursor].kind.BusStateRequest? then 1 + subscribers else 1) + BusRanks(chan, cursor + 1, subscribers)
  }

  function ConnRankAt(conns: map<ClientId, S.Conn>): nat -> nat {
    (k: nat) => if k in conns then ConnRank(conns[k]) else 0
  }

  function BusRankAt(b: C.State, subscribers: nat): nat -> nat {
    (i: nat) =>
      if i in b.nodes && !b.nodes[i].Reading? && b.nodes[i].cursor <= |b.chan|
      then BusRanks(b.chan, b.nodes[i].cursor, subscribers) else 0
  }

  /** Ranked messages not yet delivered. */
  ghost function InFlight(g: State): nat {
    Sum(g.session.conns.Keys, ConnRankAt(g.session.conns))
    + Sum(g.cluster.nodes.Keys, BusRankAt(g.cluster, |g.cluster.nodes|))
  }

  lemma {:induction false} RanksAppend(fs: seq<S.Frame>, f: S.Frame, extra: nat)
    ensures RanksOf(fs + [f], extra) == RanksOf(fs, extra) + FrameRank(f) + extra
  {
    if fs != [] {
      assert (fs + [f])[1..] == fs[1..] + [f];
      RanksAppend(fs[1..], f, extra);
    }
  }

  lemma {:induction false} DownAppend(ms: seq<Sync>, m: Sync)
    ensures DownRanks(ms + [m]) == DownRanks(ms) + Rank(m)
  {
    if ms != [] {
      assert (ms + [m])[1..] == ms[1..] + [m];
      DownAppend(ms[1..], m);
    }
  }

  lemma {:induction false} BusAppend(chan: seq<BusMessage>, m: BusMessage, cursor: nat, subscribers: nat)
    requires cursor <= |chan| && m.kind.BusUpdate?
    ensures BusRanks(chan + [m], cursor, subscribers) == BusRanks(chan, cursor, subscribers) + 1
    decreases |chan| - cursor
  {
    if cursor < |chan| {
      BusAppend(chan, m, cursor + 1, subscribers);
    } else {
      assert BusRanks(chan + [m], cursor + 1, subscribers) == 0;
    }
  }

  // ------------------------------------------------------ a delivery descends

  ghost predicate Descends(g: State, t: State, all: Ops) {
    || Missing(t, all) < Missing(g, all)
    || (Missing(t, all) == Missing(g, all) && InFlight(t) < InFlight(g))
  }

  lemma MoreDocLessMissing(all: Ops, doc: Ops, after: Ops)
    requires doc <= after <= all && doc != after
    ensures |all - after| < |all - doc|
  {
    var x :| x in after && x !in doc;
    assert all - after <= all - doc - {x};
    SubsetIsSmaller(all - after, all - doc - {x});
  }

  /** One connection's messages run down and nothing else moves. */
  lemma ConnDescends(g: State, t: State, all: Ops, k: ClientId)
    requires t.cluster == g.cluster && k in g.session.conns && t.session.conns.Keys == g.session.conns.Keys
    requires t.session.users == g.session.users
    requires forall j :: j in g.session.conns && j != k ==> t.session.conns[j] == g.session.conns[j]
    requires ConnRank(t.session.conns[k]) < ConnRank(g.session.conns[k])
    ensures Descends(g, t, all)
  {
    SumDrops(g.session.conns.Keys, ConnRankAt(g.session.conns), ConnRankAt(t.session.conns), k);
  }

  /** The same when the frame was for a room that learnt nothing from it. */
  lemma FrameDescends(g: State, t: State, all: Ops, k: ClientId)
    requires t.cluster.nodes == g.cluster.nodes && t.cluster.chan == g.cluster.chan
    requires k in g.session.conns && t.session.conns.Keys == g.session.conns.Keys
    requires t.session.users == g.session.users
    requires forall j :: j in g.session.conns && j != k ==> t.session.conns[j] == g.session.conns[j]
    requires ConnRank(t.session.conns[k]) < ConnRank(g.session.conns[k])
    ensures Descends(g, t, all)
  {
    SumDrops(g.session.conns.Keys, ConnRankAt(g.session.conns), ConnRankAt(t.session.conns), k);
    SumAgrees(g.cluster.nodes.Keys, BusRankAt(g.cluster, |g.cluster.nodes|), BusRankAt(t.cluster, |t.cluster.nodes|));
  }

  lemma NodeLearns(g: State, t: State, all: Ops, i: InstanceId)
    requires i in g.cluster.nodes && !g.cluster.nodes[i].Reading? && t.cluster.nodes.Keys == g.cluster.nodes.Keys
    requires t.session.users == g.session.users
    requires forall j :: j in g.cluster.nodes && j != i ==> t.cluster.nodes[j] == g.cluster.nodes[j]
    requires !t.cluster.nodes[i].Reading?
    requires g.cluster.nodes[i].room.doc <= t.cluster.nodes[i].room.doc <= all
    requires g.cluster.nodes[i].room.doc != t.cluster.nodes[i].room.doc
    ensures Descends(g, t, all)
  {
    MoreDocLessMissing(all, g.cluster.nodes[i].room.doc, t.cluster.nodes[i].room.doc);
    SumDrops(g.cluster.nodes.Keys, MissingIn(g.cluster.nodes, all), MissingIn(t.cluster.nodes, all), i);
  }

  lemma UserLearns(g: State, t: State, all: Ops, u: S.UserId)
    requires u in g.session.users && t.session.users.Keys == g.session.users.Keys && t.cluster == g.cluster
    requires forall v :: v in g.session.users && v != u ==> t.session.users[v] == g.session.users[v]
    requires g.session.users[u].doc <= t.session.users[u].doc <= all
    requires g.session.users[u].doc != t.session.users[u].doc
    ensures Descends(g, t, all)
  {
    MoreDocLessMissing(all, g.session.users[u].doc, t.session.users[u].doc);
    SumDrops(g.session.users.Keys, MissingAt(g.session.users, all), MissingAt(t.session.users, all), u);
  }

  /** The server takes a frame off a socket that no room sees. */
  lemma ServerReadDescends(g: State, o: W.Options, all: Ops, k: ClientId)
    requires Enabled(g, Outside(S.ServerRead(k)))
    ensures Descends(g, Next(g, o, Outside(S.ServerRead(k))), all)
  {
    var c := g.session.conns[k];
    var t := Next(g, o, Outside(S.ServerRead(k)));
    assert RanksOf(c.up, 1) == FrameRank(c.up[0]) + 1 + RanksOf(c.up[1..], 1);
    if c.stage.Loading? {
      RanksAppend(c.stage.waiting, c.up[0], 0);
    }
    ConnDescends(g, t, all, k);
  }

  lemma DrainDescends(g: State, o: W.Options, all: Ops, k: ClientId)
    requires Enabled(g, Outside(S.Drain(k)))
    ensures Descends(g, Next(g, o, Outside(S.Drain(k))), all)
  {
    ConnDescends(g, Next(g, o, Outside(S.Drain(k))), all, k);
  }

  lemma ServerSkipDescends(g: State, o: W.Options, all: Ops, k: ClientId)
    requires Enabled(g, Outside(S.ServerSkip(k)))
    ensures Descends(g, Next(g, o, Outside(S.ServerSkip(k))), all)
  {
    var c := g.session.conns[k];
    assert RanksOf(c.up, 1) == FrameRank(c.up[0]) + 1 + RanksOf(c.up[1..], 1);
    ConnDescends(g, Next(g, o, Outside(S.ServerSkip(k))), all, k);
  }

  lemma UserReadDescends(g: State, o: W.Options, all: Ops, k: ClientId)
    requires Within(g, all) && Enabled(g, Outside(S.UserRead(k)))
    ensures Descends(g, Next(g, o, Outside(S.UserRead(k))), all)
  {
    var c := g.session.conns[k];
    var t := Next(g, o, Outside(S.UserRead(k)));
    var m := c.down[0];
    assert m in c.down && ConnWithin(c, all);
    if m.Step1? {
      RanksAppend(c.up, S.Doc(Step2(g.session.users[c.user].doc - m.have)), 1);
      ConnDescends(g, t, all, k);
    } else if m.ops <= g.session.users[c.user].doc {
      assert t.session.users[c.user].doc == g.session.users[c.user].doc;
      assert t.session.users == g.session.users;
      ConnDescends(g, t, all, k);
    } else {
      UserLearns(g, t, all, c.user);
    }
  }

  /** The connection once the frame for its room has been taken off it. */
  function Taken(c: S.Conn): S.Conn
    requires ForRoom(c).Some?
  {
    if c.stage.Draining? then c.(stage := S.Draining(c.stage.rest[1..])) else c.(up := c.up[1..])
  }

  lemma TakenRanksLess(c: S.Conn)
    requires ForRoom(c).Some?
    ensures ConnRank(Taken(c)) + Rank(ForRoom(c).value) <= ConnRank(c)
    ensures S.Doc(ForRoom(c).value) in S.Unread(c)
  {
    if c.stage.Draining? {
      assert S.Queued(c) == [c.stage.rest[0]] + c.stage.rest[1..];
    } else {
      assert c.up == [c.up[0]] + c.up[1..];
    }
  }

  /** Handing a frame to its room is taking it off the connection and settling what the room does. */
  lemma SessionHandsOver(g: State, k: ClientId, bytes: nat, now: int)
    requires Enabled(g, Frame(k, bytes, now))
    ensures var (a, c) := (g.session, g.session.conns[k]);
      && c.at in a.rooms
      && S.Next(a, SessionPart(g, Frame(k, bytes, now)).value)
         == S.Settle(a.(conns := a.conns[k := Taken(c)]), c.at, Handled(a.rooms[c.at], k, ForRoom(c).value))
  {
  }

  lemma QuietRoomSendsOnlyAnswers(conns: map<ClientId, S.Conn>, k: ClientId, r: RoomState, m: Sync)
    requires k in conns && (m.Step1? || m.ops <= r.doc)
    ensures var sent := Handled(r, k, m).sent;
      var answer := if m.Step1? && conns[k].open then [Step2(r.doc - m.have)] else [];
      S.Post(conns, sent) == conns[k := conns[k].(down := conns[k].down + answer)]
  {
    assert conns[k].down + [] == conns[k].down;
    if m.Step1? {
      S.PostOne(conns, k, Step2(r.doc - m.have));
    } else {
      assert m.ops - r.doc == {};
    }
  }

  /** A frame that teaches its room nothing costs itself, and a step 1 its answer. */
  lemma QuietFrameCosts(g: State, o: W.Options, k: ClientId, bytes: nat, now: int)
    requires Coupled(g) && Enabled(g, Frame(k, bytes, now))
    requires var c := g.session.conns[k];
      ForRoom(c).value.Step1? || ForRoom(c).value.ops <= g.cluster.nodes[c.at].room.doc
    ensures var (t, c) := (Next(g, o, Frame(k, bytes, now)), g.session.conns[k]);
      && k in t.session.conns && t.session.conns == g.session.conns[k := t.session.conns[k]]
      && ConnRank(t.session.conns[k]) < ConnRank(c)
      && t.session.users == g.session.users
  {
    var c := g.session.conns[k];
    var m := ForRoom(c).value;
    assert SameRoom(g.session, g.cluster, c.at);
    var r := g.session.rooms[c.at];
    SessionHandsOver(g, k, bytes, now);
    TakenRanksLess(c);
    QuietRoomSendsOnlyAnswers(g.session.conns[k := Taken(c)], k, r, m);
    if m.Step1? && c.open {
      DownAppend(c.down, Step2(r.doc - m.have));
    }
    assert c.down + [] == c.down;
  }

  lemma QuietFrameKeepsCluster(g: State, o: W.Options, k: ClientId, bytes: nat, now: int)
    requires Enabled(g, Frame(k, bytes, now))
    requires var c := g.session.conns[k];
      ForRoom(c).value.Step1? || ForRoom(c).value.ops <= g.cluster.nodes[c.at].room.doc
    ensures var t := Next(g, o, Frame(k, bytes, now));
      t.cluster.nodes == g.cluster.nodes && t.cluster.chan == g.cluster.chan
  {
    var c := g.session.conns[k];
    C.ClientSyncEffect(g.cluster, o, c.at, k, ForRoom(c).value, bytes, now);
    var r := g.cluster.nodes[c.at].room;
    assert r.doc + {} == r.doc;
  }

  lemma FrameForRoomDescends(g: State, o: W.Options, all: Ops, k: ClientId, bytes: nat, now: int)
    requires Coupled(g) && Within(g, all) && Enabled(g, Frame(k, bytes, now))
    ensures Descends(g, Next(g, o, Frame(k, bytes, now)), all)
  {
    var c := g.session.conns[k];
    var t := Next(g, o, Frame(k, bytes, now));
    var m := ForRoom(c).value;
    if m.Step1? || m.ops <= g.cluster.nodes[c.at].room.doc {
      QuietFrameCosts(g, o, k, bytes, now);
      QuietFrameKeepsCluster(g, o, k, bytes, now);
      FrameDescends(g, t, all, k);
    } else {
      LearningFrameDescends(g, o, all, k, bytes, now);
    }
  }

  lemma LearningFrameDescends(g: State, o: W.Options, all: Ops, k: ClientId, bytes: nat, now: int)
    requires Within(g, all) && Enabled(g, Frame(k, bytes, now))
    requires var (c, m) := (g.session.conns[k], ForRoom(g.session.conns[k]).value);
      !m.Step1? && !(m.ops <= g.cluster.nodes[c.at].room.doc)
    ensures Descends(g, Next(g, o, Frame(k, bytes, now)), all)
  {
    var c := g.session.conns[k];
    var m := ForRoom(c).value;
    TakenRanksLess(c);
    assert ConnWithin(c, all) && C.Known(g.cluster.nodes[c.at], all);
    C.ClientSyncEffect(g.cluster, o, c.at, k, m, bytes, now);
    RoomLearnt(g, Next(g, o, Frame(k, bytes, now)), all, c.at, m.ops);
  }

  lemma RoomLearnt(g: State, t: State, all: Ops, i: InstanceId, ops: Ops)
    requires i in g.cluster.nodes && !g.cluster.nodes[i].Reading? && t.session.users == g.session.users
    requires i in t.cluster.nodes && t.cluster.nodes == g.cluster.nodes[i := t.cluster.nodes[i]]
    requires !t.cluster.nodes[i].Reading?
    requires var doc := g.cluster.nodes[i].room.doc;
      t.cluster.nodes[i].room.doc == doc + (ops - doc) && ops <= all && doc <= all && !(ops <= doc)
    ensures Descends(g, t, all)
  {
    var x :| x in ops && x !in g.cluster.nodes[i].room.doc;
    assert x in t.cluster.nodes[i].room.doc;
    NodeLearns(g, t, all, i);
  }

  lemma LearningDeliveryDescends(g: State, o: W.Options, all: Ops, i: InstanceId)
    requires Within(g, all) && Enabled(g, Deliver(i))
    requires var (n, m) := (g.cluster.nodes[i], g.cluster.chan[g.cluster.nodes[i].cursor]);
      m.origin != i && m.kind.BusUpdate? && !(m.ops <= n.room.doc)
    ensures Descends(g, Next(g, o, Deliver(i)), all)
  {
    C.DeliverEffect(g.cluster, o, i);
    assert C.Known(g.cluster.nodes[i], all);
    OutsideUsersUntouched(g, o, i);
    RoomLearnt(g, Next(g, o, Deliver(i)), all, i, g.cluster.chan[g.cluster.nodes[i].cursor].ops);
  }

  lemma QuietMissing(nodes: map<InstanceId, C.Node>, after: map<InstanceId, C.Node>, all: Ops, i: InstanceId)
    requires i in nodes && !nodes[i].Reading? && after == nodes[i := nodes[i].(cursor := nodes[i].cursor + 1)]
    ensures after.Keys == nodes.Keys && |after| == |nodes|
    ensures Sum(after.Keys, MissingIn(after, all)) == Sum(nodes.Keys, MissingIn(nodes, all))
  {
    assert after.Keys == nodes.Keys;
    SameKeysSameSize(nodes, after);
    var f, h := MissingIn(nodes, all), MissingIn(after, all);
    forall j | j in nodes.Keys ensures h(j) == f(j) {
    }
    SumAgrees(nodes.Keys, f, h);
    SumAgrees(nodes.Keys, h, f);
  }

  lemma OtherDeliveryDescends(g: State, o: W.Options, all: Ops, i: InstanceId)
    requires Coupled(g) && V.AllPlaced(g.cluster) && Enabled(g, Deliver(i))
    requires var (n, m) := (g.cluster.nodes[i], g.cluster.chan[g.cluster.nodes[i].cursor]);
      m.origin == i || m.kind.BusStateRequest? || m.ops <= n.room.doc
    ensures Descends(g, Next(g, o, Deliver(i)), all)
  {
    var t := Next(g, o, Deliver(i));
    QuietDeliveryKeepsDocs(g, o, i);
    QuietMissing(g.cluster.nodes, t.cluster.nodes, all, i);
    assert i in g.cluster.nodes;
    forall j | j in g.cluster.nodes && !g.cluster.nodes[j].Reading?
      ensures g.cluster.nodes[j].cursor <= |g.cluster.chan|
    {
      assert V.Placed(g.cluster, j, g.cluster.nodes[j]);
    }
    QuietDeliveryDescends(g, t, i);
  }

  lemma DeliverDescends(g: State, o: W.Options, all: Ops, i: InstanceId)
    requires Coupled(g) && V.AllPlaced(g.cluster) && Within(g, all) && Enabled(g, Deliver(i))
    ensures Descends(g, Next(g, o, Deliver(i)), all)
  {
    var m := g.cluster.chan[g.cluster.nodes[i].cursor];
    if m.origin != i && m.kind.BusUpdate? && !(m.ops <= g.cluster.nodes[i].room.doc) {
      LearningDeliveryDescends(g, o, all, i);
    } else {
      OtherDeliveryDescends(g, o, all, i);
    }
  }

  lemma OutsideUsersUntouched(g: State, o: W.Options, i: InstanceId)
    requires Enabled(g, Deliver(i))
    ensures Next(g, o, Deliver(i)).session.users == g.session.users
  {
  }

  lemma SameKeysSameSize(a: map<InstanceId, C.Node>, b: map<InstanceId, C.Node>)
    requires a.Keys == b.Keys
    ensures |a| == |b|
  {
    assert |a| == |a.Keys| && |b| == |b.Keys|;
  }

  /** A bus message that teaches the room nothing reaches no client and changes no document. */
  lemma QuietDeliveryKeepsDocs(g: State, o: W.Options, i: InstanceId)
    requires Coupled(g) && Enabled(g, Deliver(i))
    requires var (n, m) := (g.cluster.nodes[i], g.cluster.chan[g.cluster.nodes[i].cursor]);
      m.origin == i || m.kind.BusStateRequest? || m.ops <= n.room.doc
    ensures var t := Next(g, o, Deliver(i));
      && t.session.users == g.session.users && t.session.conns == g.session.conns
      && t.cluster.nodes == g.cluster.nodes[i := g.cluster.nodes[i].(cursor := g.cluster.nodes[i].cursor + 1)]
      && (t.cluster.chan == g.cluster.chan
          || (g.cluster.chan[g.cluster.nodes[i].cursor].kind.BusStateRequest?
              && t.cluster.chan == g.cluster.chan + [BusMessage(BusUpdate, i, g.cluster.nodes[i].room.doc)]))
  {
    C.DeliverEffect(g.cluster, o, i);
    var n := g.cluster.nodes[i];
    assert n.room.doc + {} == n.room.doc;
    assert SameRoom(g.session, g.cluster, i);
  }

  predicate AnsweredWithState(b: C.State, t: C.State, i: InstanceId)
    requires i in b.nodes && !b.nodes[i].Reading? && b.nodes[i].cursor < |b.chan|
  {
    && b.chan[b.nodes[i].cursor].kind.BusStateRequest?
    && t.chan == b.chan + [BusMessage(BusUpdate, i, b.nodes[i].room.doc)]
  }

  /** One subscriber has read one more message; nothing else about the nodes changed. */
  ghost predicate CursorMoved(b: C.State, t: C.State, i: InstanceId) {
    && i in b.nodes && !b.nodes[i].Reading? && b.nodes[i].cursor < |b.chan|
    && t.nodes == b.nodes[i := b.nodes[i].(cursor := b.nodes[i].cursor + 1)]
    && forall j :: j in b.nodes && !b.nodes[j].Reading? ==> b.nodes[j].cursor <= |b.chan|
  }

  lemma PlainDeliveryDescends(b: C.State, t: C.State, i: InstanceId)
    requires CursorMoved(b, t, i) && t.chan == b.chan
    ensures Sum(b.nodes.Keys, BusRankAt(t, |b.nodes|)) < Sum(b.nodes.Keys, BusRankAt(b, |b.nodes|))
  {
    SumDrops(b.nodes.Keys, BusRankAt(b, |b.nodes|), BusRankAt(t, |b.nodes|), i);
  }

  lemma AnsweredDeliveryDescends(b: C.State, t: C.State, i: InstanceId)
    requires CursorMoved(b, t, i) && AnsweredWithState(b, t, i)
    ensures Sum(b.nodes.Keys, BusRankAt(t, |b.nodes|)) < Sum(b.nodes.Keys, BusRankAt(b, |b.nodes|))
  {
    var f, h := BusRankAt(b, |b.nodes|), BusRankAt(t, |b.nodes|);
    forall j | j in b.nodes && j != i ensures h(j) <= f(j) + 1 {
      AnswerCostsOne(b, t, i, j);
    }
    AnswerPaysForItself(b, t, i);
    assert |b.nodes| == |b.nodes.Keys|;
    SumGives(b.nodes.Keys, f, h, i);
  }

  lemma QuietDeliveryDescends(g: State, t: State, i: InstanceId)
    requires t.session.conns == g.session.conns && CursorMoved(g.cluster, t.cluster, i)
    requires t.cluster.chan == g.cluster.chan || AnsweredWithState(g.cluster, t.cluster, i)
    ensures InFlight(t) < InFlight(g)
  {
    SameKeysSameSize(g.cluster.nodes, t.cluster.nodes);
    if t.cluster.chan == g.cluster.chan {
      PlainDeliveryDescends(g.cluster, t.cluster, i);
    } else {
      AnsweredDeliveryDescends(g.cluster, t.cluster, i);
    }
  }

  /** Every other subscriber gets the one update that answers a state request. */
  lemma AnswerCostsOne(b: C.State, t: C.State, i: InstanceId, j: InstanceId)
    requires i in b.nodes && j in b.nodes && j != i && !b.nodes[i].Reading?
    requires t.nodes == b.nodes[i := b.nodes[i].(cursor := b.nodes[i].cursor + 1)]
    requires t.chan == b.chan + [BusMessage(BusUpdate, i, b.nodes[i].room.doc)]
    requires !b.nodes[j].Reading? ==> b.nodes[j].cursor <= |b.chan|
    ensures BusRankAt(t, |b.nodes|)(j) <= BusRankAt(b, |b.nodes|)(j) + 1
  {
    if !b.nodes[j].Reading? {
      BusAppend(b.chan, BusMessage(BusUpdate, i, b.nodes[i].room.doc), b.nodes[j].cursor, |b.nodes|);
    }
  }

  lemma AnswerPaysForItself(b: C.State, t: C.State, i: InstanceId)
    requires i in b.nodes && !b.nodes[i].Reading? && b.nodes[i].cursor < |b.chan|
    requires b.chan[b.nodes[i].cursor].kind.BusStateRequest?
    requires t.nodes == b.nodes[i := b.nodes[i].(cursor := b.nodes[i].cursor + 1)]
    requires t.chan == b.chan + [BusMessage(BusUpdate, i, b.nodes[i].room.doc)]
    ensures BusRankAt(t, |b.nodes|)(i) + |b.nodes| <= BusRankAt(b, |b.nodes|)(i)
  {
    BusAppend(b.chan, BusMessage(BusUpdate, i, b.nodes[i].room.doc), b.nodes[i].cursor + 1, |b.nodes|);
  }

  /** Whatever is delivered, either an operation reaches a place that missed it, or less is in flight. */
  lemma DeliveryDescends(g: State, o: W.Options, all: Ops, e: Event)
    requires Sane(g) && Within(g, all) && Enabled(g, e) && IsDelivery(e)
    ensures Descends(g, Next(g, o, e), all)
  {
    match e
    case Frame(k, bytes, now) => FrameForRoomDescends(g, o, all, k, bytes, now);
    case Deliver(i) => DeliverDescends(g, o, all, i);
    case Outside(step) =>
      match step {
        case ServerRead(k) => ServerReadDescends(g, o, all, k);
        case ServerSkip(k) => ServerSkipDescends(g, o, all, k);
        case Drain(k) => DrainDescends(g, o, all, k);
        case UserRead(k) => UserReadDescends(g, o, all, k);
      }
  }

  // ------------------------------------------------- joining and leaving descend

  /** The same rooms, with the same documents, at the same places of the channel. */
  ghost predicate SameStanding(a: map<InstanceId, C.Node>, b: map<InstanceId, C.Node>) {
    && a.Keys == b.Keys
    && forall i :: i in a ==>
      && a[i].Reading? == b[i].Reading?
      && (!a[i].Reading? ==> a[i].room.doc == b[i].room.doc && a[i].cursor == b[i].cursor)
  }

  lemma SameStandingMissing(a: map<InstanceId, C.Node>, b: map<InstanceId, C.Node>, all: Ops)
    requires SameStanding(a, b)
    ensures Sum(b.Keys, MissingIn(b, all)) == Sum(a.Keys, MissingIn(a, all))
  {
    var f, h := MissingIn(a, all), MissingIn(b, all);
    forall i | i in a.Keys ensures h(i) == f(i) {
    }
    SumAgrees(a.Keys, f, h);
    SumAgrees(a.Keys, h, f);
  }

  lemma SameStandingBus(a: C.State, b: C.State)
    requires SameStanding(a.nodes, b.nodes) && b.chan == a.chan
    ensures Sum(b.nodes.Keys, BusRankAt(b, |b.nodes|)) <= Sum(a.nodes.Keys, BusRankAt(a, |a.nodes|))
  {
    SameKeysSameSize(a.nodes, b.nodes);
    var f, h := BusRankAt(a, |a.nodes|), BusRankAt(b, |b.nodes|);
    forall i | i in a.nodes.Keys ensures h(i) == f(i) {
    }
    SumAgrees(a.nodes.Keys, f, h);
  }

  lemma SeatDescends(g: State, t: State, all: Ops, k: ClientId)
    requires SameStanding(g.cluster.nodes, t.cluster.nodes) && t.cluster.chan == g.cluster.chan
    requires k in g.session.conns && t.session.conns.Keys == g.session.conns.Keys
    requires t.session.users == g.session.users
    requires forall j :: j in g.session.conns && j != k ==> t.session.conns[j] == g.session.conns[j]
    requires ConnRank(t.session.conns[k]) < ConnRank(g.session.conns[k])
    ensures Descends(g, t, all)
  {
    SameStandingMissing(g.cluster.nodes, t.cluster.nodes, all);
    SameStandingBus(g.cluster, t.cluster);
    SumDrops(g.session.conns.Keys, ConnRankAt(g.session.conns), ConnRankAt(t.session.conns), k);
  }

  lemma EnterDescends(g: State, o: W.Options, all: Ops, k: ClientId)
    requires Coupled(g) && Enabled(g, Enter(k))
    ensures Descends(g, Next(g, o, Enter(k)), all)
  {
    var c, t := g.session.conns[k], Next(g, o, Enter(k));
    assert SameRoom(g.session, g.cluster, c.at);
    var step1 := Step1(g.session.rooms[c.at].doc);
    S.PostOne(g.session.conns[k := c.(stage := S.Draining(c.stage.waiting))], k, step1);
    DownAppend(c.down, step1);
    assert c.down + [] == c.down;
    SeatDescends(g, t, all, k);
  }

  lemma LeftRanksLess(c: S.Conn)
    requires S.InRoom(c)
    ensures ConnRank(c.(stage := S.Left)) < ConnRank(c)
  {
  }

  lemma LeaveDescends(g: State, o: W.Options, all: Ops, k: ClientId)
    requires Coupled(g) && Enabled(g, Leave(k))
    ensures Descends(g, Next(g, o, Leave(k)), all)
  {
    var c, t := g.session.conns[k], Next(g, o, Leave(k));
    LeftRanksLess(c);
    assert t.session.conns == g.session.conns[k := c.(stage := S.Left)];
    if C.Closes(g.cluster, C.LeaveRoom(c.at, k)) {
      RoomGoneDescends(g, t, all, c.at, k);
    } else {
      SeatDescends(g, t, all, k);
    }
  }

  lemma {:induction false} BusRanksFewer(chan: seq<BusMessage>, cursor: nat, few: nat, many: nat)
    requires cursor <= |chan| && few <= many
    ensures BusRanks(chan, cursor, few) <= BusRanks(chan, cursor, many)
    decreases |chan| - cursor
  {
    if cursor < |chan| {
      BusRanksFewer(chan, cursor + 1, few, many);
    }
  }

  lemma GoneMissing(a: map<InstanceId, C.Node>, i: InstanceId, all: Ops)
    ensures Sum((a - {i}).Keys, MissingIn(a - {i}, all)) <= Sum(a.Keys, MissingIn(a, all))
  {
    var f, h := MissingIn(a, all), MissingIn(a - {i}, all);
    forall j | j in (a - {i}).Keys ensures h(j) <= f(j) {
    }
    SumOfFewer(a.Keys, (a - {i}).Keys, f, h);
  }

  lemma GoneBus(a: C.State, b: C.State, i: InstanceId)
    requires b.nodes == a.nodes - {i} && b.chan == a.chan
    ensures Sum(b.nodes.Keys, BusRankAt(b, |b.nodes|)) <= Sum(a.nodes.Keys, BusRankAt(a, |a.nodes|))
  {
    assert |a.nodes| == |a.nodes.Keys| && |b.nodes| == |b.nodes.Keys|;
    assert b.nodes.Keys == a.nodes.Keys - {i};
    SubsetIsSmaller(b.nodes.Keys, a.nodes.Keys);
    var f, h := BusRankAt(a, |a.nodes|), BusRankAt(b, |b.nodes|);
    forall j | j in b.nodes.Keys ensures h(j) <= f(j) {
      if !b.nodes[j].Reading? && b.nodes[j].cursor <= |a.chan| {
        BusRanksFewer(a.chan, b.nodes[j].cursor, |b.nodes|, |a.nodes|);
      }
    }
    SumOfFewer(a.nodes.Keys, b.nodes.Keys, f, h);
  }

  /** With the room goes its share of what is missing and in flight, and one subscriber for every request. */
  lemma RoomGoneDescends(g: State, t: State, all: Ops, i: InstanceId, k: ClientId)
    requires i in g.cluster.nodes && t.cluster.nodes == g.cluster.nodes - {i} && t.cluster.chan == g.cluster.chan
    requires k in g.session.conns && t.session.conns.Keys == g.session.conns.Keys
    requires t.session.users == g.session.users
    requires forall j :: j in g.session.conns && j != k ==> t.session.conns[j] == g.session.conns[j]
    requires ConnRank(t.session.conns[k]) < ConnRank(g.session.conns[k])
    ensures Descends(g, t, all)
  {
    GoneMissing(g.cluster.nodes, i, all);
    GoneBus(g.cluster, t.cluster, i);
    SumDrops(g.session.conns.Keys, ConnRankAt(g.session.conns), ConnRankAt(t.session.conns), k);
  }

  // ------------------------------------------------------------- openings descend

  function StillReading(b: C.State): set<InstanceId> {
    set i | i in b.nodes && b.nodes[i].Reading?
  }

  function StillOpening(b: C.State): set<InstanceId> {
    set i | i in b.nodes && !b.nodes[i].Open?
  }

  /** Steps the openings under way still have to take. */
  function Unopened(b: C.State): nat {
    |StillReading(b)| + |StillOpening(b)|
  }

  lemma OpeningStepDescends(g: State, o: W.Options, e: Event)
    requires Enabled(g, e) && IsOpening(e)
    ensures Unopened(Next(g, o, e).cluster) < Unopened(g.cluster)
  {
    var b, t := g.cluster, Next(g, o, e).cluster;
    if e.OpenRoom? {
      assert StillReading(t) == StillReading(b) && StillOpening(t) == StillOpening(b) - {e.i};
    } else {
      assert StillReading(t) == StillReading(b) - {e.work.i} && StillOpening(t) == StillOpening(b);
    }
  }

  /** What joins, leaves and messages do to rooms takes no opening further, nor away. */
  lemma ClusterKeepsUnopened(b: C.State, o: W.Options, e: C.Event)
    requires C.Enabled(b, e) && (e.Join? || e.ClientSync? || e.Deliver? || e.LeaveRoom?)
    ensures Unopened(C.Next(b, o, e)) == Unopened(b)
  {
    match e
    case Join(_, _) => SameStages(b, C.Next(b, o, e));
    case LeaveRoom(_, _) => SameStages(b, C.Next(b, o, e));
    case ClientSync(i, k, m, bytes, now) =>
      C.ClientSyncEffect(b, o, i, k, m, bytes, now);
      SameStages(b, C.Next(b, o, e));
    case Deliver(i) =>
      C.DeliverEffect(b, o, i);
      SameStages(b, C.Next(b, o, e));
  }

  lemma SameStages(b: C.State, t: C.State)
    requires forall i :: i in b.nodes && !b.nodes[i].Open? ==>
      i in t.nodes && !t.nodes[i].Open? && t.nodes[i].Reading? == b.nodes[i].Reading?
    requires forall i :: i in t.nodes ==> i in b.nodes && (b.nodes[i].Open? ==> t.nodes[i].Open?)
    ensures Unopened(t) == Unopened(b)
  {
    assert StillReading(t) == StillReading(b);
    assert StillOpening(t) == StillOpening(b);
  }

  lemma OthersKeepUnopened(g: State, o: W.Options, e: Event)
    requires Enabled(g, e) && IsProgress(e) && !IsOpening(e)
    ensures Unopened(Next(g, o, e).cluster) == Unopened(g.cluster)
  {
    if ClusterPart(g, e).Some? {
      ClusterKeepsUnopened(g.cluster, o, ClusterPart(g, e).value);
    }
  }

  /** Fewer steps of opening to come, or as many and fewer operations missing, or as many and less in flight. */
  ghost predicate GetsOn(g: State, t: State, all: Ops) {
    || Unopened(t.cluster) < Unopened(g.cluster)
    || (Unopened(t.cluster) == Unopened(g.cluster) && Descends(g, t, all))
  }

  lemma ProgressDescends(g: State, o: W.Options, all: Ops, e: Event)
    requires Sane(g) && Within(g, all) && Enabled(g, e) && IsProgress(e)
    ensures GetsOn(g, Next(g, o, e), all)
  {
    if IsOpening(e) {
      OpeningStepDescends(g, o, e);
    } else {
      OthersKeepUnopened(g, o, e);
      if e.Enter? {
        EnterDescends(g, o, all, e.k);
      } else if e.Leave? {
        LeaveDescends(g, o, all, e.k);
      } else {
        DeliveryDescends(g, o, all, e);
      }
    }
  }

  // --------------------------------------------------- deliveries stay within

  lemma PostWithin(conns: map<ClientId, S.Conn>, sent: seq<Send>, all: Ops)
    requires forall k :: k in conns ==> ConnWithin(conns[k], all)
    requires forall s :: s in sent ==> S.Mentions(s.frame) <= all
    ensures forall k :: k in S.Post(conns, sent) ==> ConnWithin(S.Post(conns, sent)[k], all)
  {
    if sent != [] {
      var front, last := sent[..|sent| - 1], sent[|sent| - 1];
      PostWithin(conns, front, all);
      assert last in sent;
    }
  }

  lemma HandledWithin(r: RoomState, k: ClientId, m: Sync, all: Ops)
    requires r.doc <= all && S.Mentions(m) <= all
    ensures var e := Handled(r, k, m);
      e.room.doc <= all && (forall s :: s in e.sent ==> S.Mentions(s.frame) <= all)
  {
    if !m.Step1? {
      FanOutStaysInRoom(r.clients, Local(k), Update(m.ops - r.doc));
    }
  }

  lemma FrameStaysWithin(g: State, o: W.Options, all: Ops, k: ClientId, bytes: nat, now: int)
    requires Coupled(g) && Within(g, all) && Enabled(g, Frame(k, bytes, now))
    ensures Within(Next(g, o, Frame(k, bytes, now)), all)
  {
    var t := Next(g, o, Frame(k, bytes, now));
    var c := g.session.conns[k];
    var m := ForRoom(c).value;
    assert SameRoom(g.session, g.cluster, c.at);
    TakenRanksLess(c);
    assert ConnWithin(c, all) && C.Known(g.cluster.nodes[c.at], all);
    TakenWithin(c, all);
    HandledWithin(g.session.rooms[c.at], k, m, all);
    SessionHandsOver(g, k, bytes, now);
    PostWithin(g.session.conns[k := Taken(c)], Handled(g.session.rooms[c.at], k, m).sent, all);
    ClusterStaysWithin(g.cluster, o, all, c.at, k, m, bytes, now);
  }

  lemma ClusterStaysWithin(
    b: C.State, o: W.Options, all: Ops, i: InstanceId, k: ClientId, m: Sync, bytes: nat, now: int)
    requires C.Enabled(b, C.ClientSync(i, k, m, bytes, now)) && (m.Step1? || m.ops <= all)
    requires forall j :: j in b.nodes ==> C.Known(b.nodes[j], all)
    requires forall n :: 0 <= n < |b.chan| ==> b.chan[n].ops <= all
    ensures var t := C.Next(b, o, C.ClientSync(i, k, m, bytes, now));
      && (forall j :: j in t.nodes ==> C.Known(t.nodes[j], all))
      && (forall n :: 0 <= n < |t.chan| ==> t.chan[n].ops <= all)
  {
    C.ClientSyncEffect(b, o, i, k, m, bytes, now);
    var t := C.Next(b, o, C.ClientSync(i, k, m, bytes, now));
    forall j | j in t.nodes ensures C.Known(t.nodes[j], all) {
      assert C.Known(b.nodes[j], all);
    }
  }

  lemma TakenWithin(c: S.Conn, all: Ops)
    requires ForRoom(c).Some? && ConnWithin(c, all)
    ensures ConnWithin(Taken(c), all)
  {
    assert forall f :: f in S.Unread(Taken(c)) ==> f in S.Unread(c);
  }

  lemma DeliverStaysWithin(g: State, o: W.Options, all: Ops, i: InstanceId)
    requires Coupled(g) && Within(g, all) && Enabled(g, Deliver(i))
    ensures Within(Next(g, o, Deliver(i)), all)
  {
    var t := Next(g, o, Deliver(i));
    var (n, m) := (g.cluster.nodes[i], g.cluster.chan[g.cluster.nodes[i].cursor]);
    assert SameRoom(g.session, g.cluster, i);
    assert C.Known(n, all);
    C.DeliverEffect(g.cluster, o, i);
    forall j | j in t.cluster.nodes ensures C.Known(t.cluster.nodes[j], all) {
      assert C.Known(g.cluster.nodes[j], all);
    }
    if SessionPart(g, Deliver(i)).Some? {
      var e := Received(g.session.rooms[i], m);
      if m.kind.BusUpdate? {
        FanOutStaysInRoom(n.room.clients, Remote, Update(m.ops - n.room.doc));
      }
      PostWithin(g.session.conns, e.sent, all);
    }
  }

  lemma ReplaceStaysWithin(g: State, t: State, all: Ops, k: ClientId)
    requires Within(g, all) && t.cluster == g.cluster && t.session.rooms == g.session.rooms
    requires k in t.session.conns && t.session.conns == g.session.conns[k := t.session.conns[k]]
    requires ConnWithin(t.session.conns[k], all)
    requires forall u :: u in t.session.users ==> t.session.users[u].doc <= all
    ensures Within(t, all)
  {
  }

  lemma ServerReadStaysWithin(g: State, o: W.Options, all: Ops, k: ClientId)
    requires Within(g, all) && Enabled(g, Outside(S.ServerRead(k)))
    ensures Within(Next(g, o, Outside(S.ServerRead(k))), all)
  {
    var t := Next(g, o, Outside(S.ServerRead(k)));
    var c := g.session.conns[k];
    assert ConnWithin(c, all);
    assert c.up == [c.up[0]] + c.up[1..];
    assert forall f :: f in S.Unread(t.session.conns[k]) ==> f in S.Unread(c);
    ReplaceStaysWithin(g, t, all, k);
  }

  lemma ServerSkipStaysWithin(g: State, o: W.Options, all: Ops, k: ClientId)
    requires Within(g, all) && Enabled(g, Outside(S.ServerSkip(k)))
    ensures Within(Next(g, o, Outside(S.ServerSkip(k))), all)
  {
    var t := Next(g, o, Outside(S.ServerSkip(k)));
    var c := g.session.conns[k];
    assert ConnWithin(c, all);
    assert forall f :: f in S.Unread(t.session.conns[k]) ==> f in S.Unread(c);
    ReplaceStaysWithin(g, t, all, k);
  }

  lemma DrainStaysWithin(g: State, o: W.Options, all: Ops, k: ClientId)
    requires Within(g, all) && Enabled(g, Outside(S.Drain(k)))
    ensures Within(Next(g, o, Outside(S.Drain(k))), all)
  {
    var t := Next(g, o, Outside(S.Drain(k)));
    var c := g.session.conns[k];
    assert ConnWithin(c, all);
    assert forall f :: f in S.Unread(t.session.conns[k]) ==> f in S.Unread(c);
    ReplaceStaysWithin(g, t, all, k);
  }

  lemma UserReadStaysWithin(g: State, o: W.Options, all: Ops, k: ClientId)
    requires Within(g, all) && Enabled(g, Outside(S.UserRead(k)))
    ensures Within(Next(g, o, Outside(S.UserRead(k))), all)
  {
    var t := Next(g, o, Outside(S.UserRead(k)));
    var c := g.session.conns[k];
    var m := c.down[0];
    assert ConnWithin(c, all) && m in c.down;
    if m.Step1? {
      S.UnreadAppend(c.(down := c.down[1..]), S.Doc(Step2(g.session.users[c.user].doc - m.have)));
      assert S.Unread(c.(down := c.down[1..])) == S.Unread(c);
    }
    assert forall n :: n in t.session.conns[k].down ==> n in c.down;
    ReplaceStaysWithin(g, t, all, k);
  }

  lemma DeliveryStaysWithin(g: State, o: W.Options, all: Ops, e: Event)
    requires Coupled(g) && Within(g, all) && Enabled(g, e) && IsDelivery(e)
    ensures Within(Next(g, o, e), all)
  {
    match e
    case Frame(k, bytes, now) => FrameStaysWithin(g, o, all, k, bytes, now);
    case Deliver(i) => DeliverStaysWithin(g, o, all, i);
    case Outside(step) =>
      match step {
        case ServerRead(k) => ServerReadStaysWithin(g, o, all, k);
        case ServerSkip(k) => ServerSkipStaysWithin(g, o, all, k);
        case Drain(k) => DrainStaysWithin(g, o, all, k);
        case UserRead(k) => UserReadStaysWithin(g, o, all, k);
      }
  }

  lemma SeatStaysWithin(g: State, t: State, all: Ops)
    requires Within(g, all) && t.session.users == g.session.users && t.cluster.chan == g.cluster.chan
    requires forall i :: i in t.session.rooms ==>
      i in g.session.rooms && t.session.rooms[i].doc == g.session.rooms[i].doc
    requires forall i :: i in t.cluster.nodes ==> (
      && i in g.cluster.nodes
      && (t.cluster.nodes[i] == g.cluster.nodes[i]
          || (g.cluster.nodes[i].Open? && t.cluster.nodes[i].Open?
              && t.cluster.nodes[i].room.doc == g.cluster.nodes[i].room.doc)))
    requires forall j :: j in t.session.conns ==> ConnWithin(t.session.conns[j], all)
    ensures Within(t, all)
  {
    forall i | i in t.cluster.nodes ensures C.Known(t.cluster.nodes[i], all) {
      assert C.Known(g.cluster.nodes[i], all);
    }
  }

  lemma EnterStaysWithin(g: State, o: W.Options, all: Ops, k: ClientId)
    requires Coupled(g) && Within(g, all) && Enabled(g, Enter(k))
    ensures Within(Next(g, o, Enter(k)), all)
  {
    var c, t := g.session.conns[k], Next(g, o, Enter(k));
    var r := g.session.rooms[c.at];
    var mid := g.session.conns[k := c.(stage := S.Draining(c.stage.waiting))];
    assert ConnWithin(c, all);
    assert S.Unread(mid[k]) == S.Unread(c);
    assert SameRoom(g.session, g.cluster, c.at);
    PostWithin(mid, [Send(k, Step1(r.doc))], all);
    SeatStaysWithin(g, t, all);
  }

  lemma LeaveStaysWithin(g: State, o: W.Options, all: Ops, k: ClientId)
    requires Coupled(g) && Within(g, all) && Enabled(g, Leave(k))
    ensures Within(Next(g, o, Leave(k)), all)
  {
    var c, t := g.session.conns[k], Next(g, o, Leave(k));
    assert ConnWithin(c, all);
    assert forall f :: f in S.Unread(c.(stage := S.Left)) ==> f in S.Unread(c);
    SeatStaysWithin(g, t, all);
  }

  lemma OpeningStaysWithin(g: State, o: W.Options, all: Ops, e: Event)
    requires Within(g, all) && Enabled(g, e) && IsOpening(e)
    ensures Within(Next(g, o, e), all)
  {
    var i := if e.OpenRoom? then e.i else e.work.i;
    assert C.Known(g.cluster.nodes[i], all);
    var t := Next(g, o, e);
    forall j | j in t.cluster.nodes ensures C.Known(t.cluster.nodes[j], all) {
      assert j != i ==> C.Known(g.cluster.nodes[j], all);
    }
  }

  lemma ProgressStaysWithin(g: State, o: W.Options, all: Ops, e: Event)
    requires Coupled(g) && Within(g, all) && Enabled(g, e) && IsProgress(e)
    ensures Within(Next(g, o, e), all)
  {
    if e.Enter? {
      EnterStaysWithin(g, o, all, e.k);
    } else if e.Leave? {
      LeaveStaysWithin(g, o, all, e.k);
    } else if IsOpening(e) {
      OpeningStaysWithin(g, o, all, e);
    } else {
      DeliveryStaysWithin(g, o, all, e);
    }
  }

  // ------------------------------------------------------------- the theorems

  ghost predicate Proceeds(g: State, o: W.Options, e: Event, t: State) {
    Enabled(g, e) && IsProgress(e) && t == Next(g, o, e)
  }

  /** An endless schedule, one step of progress after each state. */
  ghost predicate Endless(states: nat -> State, events: nat -> Event, o: W.Options) {
    forall n: nat :: Proceeds(states(n), o, events(n), states(n + 1))
  }

  ghost predicate Sound(g: State, all: Ops) {
    Sane(g) && Within(g, all)
  }

  lemma ProceedsSoundly(g: State, o: W.Options, all: Ops, e: Event, t: State)
    requires Sound(g, all) && Proceeds(g, o, e, t)
    ensures Sound(t, all) && GetsOn(g, t, all)
  {
    ProgressDescends(g, o, all, e);
    ProgressStaysWithin(g, o, all, e);
    NextKeepsSane(g, o, e);
  }

  /** There is none: every order runs out of things to do. */
  lemma {:induction false} NoEndlessSchedule(
    states: nat -> State, events: nat -> Event, o: W.Options, all: Ops, from: nat)
    requires Sound(states(from), all)
    ensures !Endless(states, events, o)
    decreases Unopened(states(from).cluster), Missing(states(from), all), InFlight(states(from))
  {
    if Endless(states, events, o) {
      assert Proceeds(states(from), o, events(from), states(from + 1));
      ProceedsSoundly(states(from), o, all, events(from), states(from + 1));
      NoEndlessSchedule(states, events, o, all, from + 1);
    }
  }

  /** Everything anyone has or is being sent is some finite set. */
  function Everything(g: State): Ops {
    (set u, x | u in g.session.users && x in g.session.users[u].doc :: x)
    + (set k, f, x |
        k in g.session.conns && f in S.Unread(g.session.conns[k]) && f.Doc? && x in S.Mentions(f.message) :: x)
    + (set k, m, x | k in g.session.conns && m in g.session.conns[k].down && x in S.Mentions(m) :: x)
    + (set i, x | i in g.session.rooms && x in g.session.rooms[i].doc :: x)
    + g.cluster.recorded
  }

  lemma EverythingIsEverything(g: State)
    requires C.Durable(g.cluster)
    ensures Within(g, Everything(g))
  {
    var all := Everything(g);
    forall i | i in g.cluster.nodes ensures C.Known(g.cluster.nodes[i], all) {
      assert C.Known(g.cluster.nodes[i], g.cluster.recorded);
    }
    forall k | k in g.session.conns ensures ConnWithin(g.session.conns[k], all) {
      var c := g.session.conns[k];
      forall f | f in S.Unread(c) && f.Doc? ensures S.Mentions(f.message) <= all {
      }
      forall m | m in c.down ensures S.Mentions(m) <= all {
      }
    }
  }

  /**
   Message processing terminates: from any state any run reaches, no order of
   openings, deliveries, entries and departures goes on for ever.
   */
  lemma MessageProcessingTerminates(
    g: State, o: W.Options, es: seq<Event>, states: nat -> State, events: nat -> Event)
    requires Init(g) && Runs(g, o, es) && states(0) == After(g, o, es)
    ensures !Endless(states, events, o)
  {
    InitHasInv(g);
    RunKeepsSane(g, o, es);
    EverythingIsEverything(states(0));
    NoEndlessSchedule(states, events, o, Everything(states(0)), 0);
  }

  /** Nothing is left to deliver, and no room is half way through opening to its first client. */
  ghost predicate Exhausted(g: State) {
    && (forall e :: IsDelivery(e) ==> !Enabled(g, e))
    && (forall i :: C.IsOpen(g.cluster, i) ==> g.cluster.nodes[i].room.clients != [])
  }

  lemma ExhaustedIsQuiescent(g: State)
    requires Sane(g) && Exhausted(g)
    ensures Quiescent(g)
  {
    forall i | i in g.cluster.nodes && g.cluster.nodes[i].Open? ensures g.cluster.nodes[i].cursor == |g.cluster.chan| {
      assert V.Placed(g.cluster, i, g.cluster.nodes[i]);
      assert SameRoom(g.session, g.cluster, i);
      assert C.IsOpen(g.cluster, i);
      assert !Enabled(g, Deliver(i));
    }
    forall k | S.Connected(g.session, k) ensures S.Silent(g.session.conns[k]) {
      NothingLeftOn(g, k);
    }
  }

  lemma NothingLeftOn(g: State, k: ClientId)
    requires Sane(g) && Exhausted(g) && S.Connected(g.session, k)
    ensures S.Silent(g.session.conns[k])
  {
    var c := g.session.conns[k];
    assert S.Seated(g.session.rooms, k, c);
    assert SameRoom(g.session, g.cluster, c.at);
    NothingToHandOver(g, k);
    NothingToTake(g, k);
  }

  lemma NothingToTake(g: State, k: ClientId)
    requires Exhausted(g)
    ensures !Enabled(g, Outside(S.UserRead(k)))
    ensures !Enabled(g, Outside(S.ServerRead(k)))
    ensures !Enabled(g, Outside(S.Drain(k)))
  {
  }

  /** A seated connection has a room on the bus, so nothing it holds for that room can be left. */
  lemma NothingToHandOver(g: State, k: ClientId)
    requires Exhausted(g) && k in g.session.conns
    ensures !Enabled(g, Frame(k, 0, 0))
  {
  }

  /**
   Together: let a careful run stop wherever it likes, deliver what is in flight in
   any order, and when nothing is left every connected user on every instance has
   everything any user ever got through to any room.
   */
  lemma DeliveriesEndInAgreement(g: State, o: W.Options, es: seq<Event>, k: ClientId)
    requires Init(g) && Runs(g, o, es) && CarefulRun(g, o, es)
    requires Exhausted(After(g, o, es)) && S.Connected(After(g, o, es).session, k)
    ensures var t := After(g, o, es);
      t.session.users[t.session.conns[k].user].doc == t.cluster.recorded
  {
    InitHasInv(g);
    RunKeepsInv(g, o, es);
    ExhaustedIsQuiescent(After(g, o, es));
    QuiescentMeansEqual(After(g, o, es), k);
  }
}
