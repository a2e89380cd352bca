/**
 Openings, schedule by schedule: from any state every opening can be finished and every
 message delivered, and between the schedules that do so lie exactly the outcomes that
 Openings calls certain and possible. The exact answer to what an instance that opens a
 document (apps/server/src/rooms/registry.ts) may or must end up with.
 */
module Outcomes {
  import opened Crdt
  import opened Room
  import opened Cluster
  import opened Convergence
  import opened Openings
  import T = Termination
  import W = Writer

  predicate Settles(s: State, o: W.Options, es: seq<Event>) {
    Runs(s, o, es) && Settling(es)
  }

  /** A schedule that leaves every room open and the channel read. */
  predicate Finishes(s: State, o: W.Options, es: seq<Event>) {
    Settles(s, o, es) && Completed(After(s, o, es))
  }

  /** After this schedule the instance is open and has the operation. */
  predicate EndsWith(s: State, o: W.Options, es: seq<Event>, i: InstanceId, x: Op) {
    Runs(s, o, es) && IsOpen(After(s, o, es), i) && x in After(s, o, es).nodes[i].room.doc
  }

  lemma SettlesConcat(s: State, o: W.Options, a: seq<Event>, b: seq<Event>)
    requires Settles(s, o, a) && Settles(After(s, o, a), o, b)
    ensures Settles(s, o, a + b) && After(s, o, a + b) == After(After(s, o, a), o, b)
  {
    RunsConcat(s, o, a, b);
  }

  lemma OneStep(s: State, o: W.Options, e: Event)
    requires Enabled(s, e) && (e.Subscribe? || e.Finish? || e.Join? || e.Deliver?)
    ensures Settles(s, o, [e]) && After(s, o, [e]) == Next(s, o, e)
    ensures Fit(s) ==> Fit(Next(s, o, e))
  {
    assert [e][1..] == [];
    if Fit(s) {
      NextKeepsPlaced(s, o, e);
      NextKeepsUnpeopled(s, o, e);
    }
  }

  lemma SettlesKeepsFit(s: State, o: W.Options, es: seq<Event>)
    requires Fit(s) && Settles(s, o, es)
    ensures Fit(After(s, o, es))
  {
    RunKeepsFit(s, o, es);
  }

  lemma {:induction false} FreshNumber(taken: set<nat>) returns (w: nat)
    ensures forall k :: k in taken ==> k < w
  {
    if k :| k in taken {
      var v := FreshNumber(taken - {k});
      w := if k < v then v else k + 1;
      assert forall m :: m in taken ==> m == k || m in taken - {k};
    } else {
      w := 0;
    }
  }

  // ----------------------------------------------------- every schedule can be finished

  function EmptyRooms(s: State): set<InstanceId> {
    set k | k in s.nodes && s.nodes[k].Open? && s.nodes[k].room.clients == []
  }

  ghost function Undelivered(s: State): nat {
    T.Sum(s.nodes.Keys, T.BusRankAt(s, |s.nodes|))
  }

  /** The next step of one opening. */
  lemma OpeningStep(s: State, o: W.Options, k: InstanceId) returns (e: Event)
    requires Fit(s) && Opening(s, k)
    ensures Enabled(s, e) && (e == Subscribe(k) || (e.Finish? && e.i == k))
    ensures s.nodes[k].Reading? <==> e == Subscribe(k)
    ensures T.Unopened(Next(s, o, e)) < T.Unopened(s)
  {
    if s.nodes[k].Reading? {
      e := Subscribe(k);
      var t := Next(s, o, e);
      assert T.StillReading(t) == T.StillReading(s) - {k} && T.StillOpening(t) == T.StillOpening(s);
    } else {
      var w := FreshNumber(s.writers.Keys);
      e := Finish(k, w, 0);
      var t := Next(s, o, e);
      assert T.StillReading(t) == T.StillReading(s) && T.StillOpening(t) == T.StillOpening(s) - {k};
    }
  }

  lemma JoiningStep(s: State, o: W.Options, k: InstanceId)
    requires IsOpen(s, k) && s.nodes[k].room.clients == []
    ensures T.Unopened(Next(s, o, Join(k, 0))) == T.Unopened(s)
    ensures |EmptyRooms(Next(s, o, Join(k, 0)))| < |EmptyRooms(s)|
  {
    var t := Next(s, o, Join(k, 0));
    assert t.nodes[k].room.clients == [] + [0];
    assert T.StillReading(t) == T.StillReading(s) && T.StillOpening(t) == T.StillOpening(s);
    assert EmptyRooms(t) == EmptyRooms(s) - {k};
  }

  lemma DeliveringStep(s: State, o: W.Options, k: InstanceId)
    requires Enabled(s, Deliver(k))
    ensures T.Unopened(Next(s, o, Deliver(k))) == T.Unopened(s)
    ensures EmptyRooms(Next(s, o, Deliver(k))) == EmptyRooms(s)
  {
    DeliverEffect(s, o, k);
    T.ClusterKeepsUnopened(s, o, Deliver(k));
    assert EmptyRooms(Next(s, o, Deliver(k))) == EmptyRooms(s);
  }

  /** The cursor moves on and the channel grows; what the room learns does not count. */
  function Moved(s: State, o: W.Options, k: InstanceId): State
    requires Enabled(s, Deliver(k))
  {
    s.(nodes := s.nodes[k := s.nodes[k].(cursor := s.nodes[k].cursor + 1)], chan := Next(s, o, Deliver(k)).chan)
  }

  lemma MovedRanksLess(s: State, o: W.Options, k: InstanceId)
    requires Fit(s) && Enabled(s, Deliver(k))
    ensures T.Sum(s.nodes.Keys, T.BusRankAt(Moved(s, o, k), |s.nodes|)) < Undelivered(s)
  {
    DeliverEffect(s, o, k);
    var mid := Moved(s, o, k);
    forall j | j in s.nodes && !s.nodes[j].Reading? ensures s.nodes[j].cursor <= |s.chan| {
      assert Placed(s, j, s.nodes[j]);
    }
    if mid.chan == s.chan {
      T.PlainDeliveryDescends(s, mid, k);
    } else {
      T.AnsweredDeliveryDescends(s, mid, k);
    }
  }

  /** The bus ranks look at stages and cursors alone. */
  lemma SameCursorsRankAlike(a: State, t: State)
    requires t.nodes.Keys == a.nodes.Keys && t.chan == a.chan
    requires forall j :: j in a.nodes ==>
      && t.nodes[j].Reading? == a.nodes[j].Reading?
      && (!a.nodes[j].Reading? ==> t.nodes[j].cursor == a.nodes[j].cursor)
    ensures Undelivered(t) <= Undelivered(a)
  {
    T.SameKeysSameSize(a.nodes, t.nodes);
    var f, h := T.BusRankAt(a, |a.nodes|), T.BusRankAt(t, |a.nodes|);
    forall j | j in a.nodes.Keys ensures h(j) == f(j) {
    }
    T.SumAgrees(a.nodes.Keys, f, h);
  }

  lemma MovedKeys(s: State, o: W.Options, k: InstanceId)
    requires Enabled(s, Deliver(k))
    ensures Moved(s, o, k).nodes.Keys == s.nodes.Keys && |Moved(s, o, k).nodes| == |s.nodes|
  {
    assert Moved(s, o, k).nodes.Keys == s.nodes.Keys;
    T.SameKeysSameSize(s.nodes, Moved(s, o, k).nodes);
  }

  lemma DeliveryRanksLess(s: State, o: W.Options, k: InstanceId)
    requires Fit(s) && Enabled(s, Deliver(k))
    ensures Undelivered(Next(s, o, Deliver(k))) < Undelivered(s)
  {
    MovedRanksLess(s, o, k);
    MovedKeys(s, o, k);
    DeliverEffect(s, o, k);
    SameCursorsRankAlike(Moved(s, o, k), Next(s, o, Deliver(k)));
  }

  /** From any state there is a schedule that opens every room and delivers everything. */
  lemma {:induction false} ScheduleExists(s: State, o: W.Options) returns (es: seq<Event>)
    requires Fit(s)
    ensures Finishes(s, o, es)
    decreases T.Unopened(s), |EmptyRooms(s)|, Undelivered(s)
  {
    var e: Event;
    if k :| Opening(s, k) {
      e := OpeningStep(s, o, k);
    } else if k :| IsOpen(s, k) && s.nodes[k].room.clients == [] {
      e := Join(k, 0);
      JoiningStep(s, o, k);
    } else if k :| IsOpen(s, k) && s.nodes[k].cursor != |s.chan| {
      e := Deliver(k);
      assert Placed(s, k, s.nodes[k]);
      DeliveringStep(s, o, k);
      DeliveryRanksLess(s, o, k);
    } else {
      NothingLeft(s);
      return [];
    }
    OneStep(s, o, e);
    var rest := ScheduleExists(Next(s, o, e), o);
    SettlesConcat(s, o, [e], rest);
    es := [e] + rest;
  }

  lemma NothingLeft(s: State)
    requires forall k :: !Opening(s, k)
    requires forall k :: IsOpen(s, k) ==> s.nodes[k].cursor == |s.chan|
    ensures Completed(s)
  {
    forall k | k in s.nodes ensures s.nodes[k].Open? && s.nodes[k].cursor == |s.chan| {
      assert !Opening(s, k) && IsOpen(s, k);
    }
  }

  // ------------------------------------------------------ a schedule that brings it

  /** The carrier opens while it still faces a request, or while somebody else has yet to ask. */
  lemma CarrierOpens(s: State, o: W.Options, j: InstanceId, w: WriterId, i: InstanceId, x: Op)
    requires Fit(s) && Enabled(s, Finish(j, w, 0)) && CanShare(s, j, x) && i != j
    ensures Sure(Next(s, o, Finish(j, w, 0)), i, x)
  {
    var t := Next(s, o, Finish(j, w, 0));
    FinishHasComing(s, o, j, w, 0, j, x);
    if n: nat :| Faces(s, j, n, x) {
      FinishFaces(s, o, j, w, 0, j, n, x);
    } else {
      var k :| k != j && Opening(s, k);
      assert Opening(t, k);
    }
    assert WillShare(t, j, x);
  }

  lemma ScheduleThatBrings(s: State, o: W.Options, i: InstanceId, x: Op) returns (es: seq<Event>)
    requires Fit(s) && i in s.nodes && CanGet(s, i, x)
    ensures Settles(s, o, es) && Sure(After(s, o, es), i, x)
  {
    if HasComing(s, i, x) {
      return [];
    }
    var j :| j != i && CanShare(s, j, x);
    if IsOpen(s, j) {
      assert WillShare(s, j, x);
      return [];
    }
    var t := s;
    es := [];
    if s.nodes[j].Reading? {
      es := [Subscribe(j)];
      OneStep(s, o, Subscribe(j));
      t := Next(s, o, Subscribe(j));
      SameViews(s, t, x);
    }
    var w := FreshNumber(t.writers.Keys);
    OneStep(t, o, Finish(j, w, 0));
    CarrierOpens(t, o, j, w, i, x);
    SettlesConcat(s, o, es, [Finish(j, w, 0)]);
    es := es + [Finish(j, w, 0)];
  }

  // --------------------------------------------------- a schedule that withholds it

  /** Nobody but j has the operation, and j is still opening. */
  ghost predicate OnlyCarrier(s: State, j: InstanceId, x: Op) {
    Opening(s, j) && forall k :: k != j ==> !HasComing(s, k, x)
  }

  lemma UncertainHasOneCarrier(s: State, i: InstanceId, x: Op) returns (j: InstanceId)
    requires i in s.nodes && !Always(s, i, x) && CanGet(s, i, x)
    ensures j != i && OnlyCarrier(s, j, x) && CanShare(s, j, x)
  {
    j :| j != i && CanShare(s, j, x);
    assert !WillShare(s, j, x);
    assert Opening(s, j);
    forall k | k != j ensures !HasComing(s, k, x) {
      if k != i && HasComing(s, k, x) {
        assert IsOpen(s, k) || Opening(s, k);
        if IsOpen(s, k) {
          assert WillShare(s, k, x);
        }
      }
    }
  }

  /** All the others open first. */
  lemma {:induction false} OthersOpen(s: State, o: W.Options, j: InstanceId, x: Op) returns (es: seq<Event>)
    requires Fit(s) && OnlyCarrier(s, j, x)
    ensures Settles(s, o, es) && OnlyCarrier(After(s, o, es), j, x)
    ensures After(s, o, es).nodes.Keys == s.nodes.Keys
    ensures forall k :: Opening(After(s, o, es), k) ==> k == j
    decreases T.Unopened(s)
  {
    if k :| k != j && Opening(s, k) {
      var e := OpeningStep(s, o, k);
      var t := Next(s, o, e);
      OneStep(s, o, e);
      OpeningMovesNoOperation(s, o, e, k, x);
      assert Opening(t, j);
      var rest := OthersOpen(t, o, j, x);
      SettlesConcat(s, o, [e], rest);
      es := [e] + rest;
    } else {
      es := [];
    }
  }

  lemma OpeningMovesNoOperation(s: State, o: W.Options, e: Event, k: InstanceId, x: Op)
    requires Fit(s) && Enabled(s, e) && (e == Subscribe(k) || (e.Finish? && e.i == k))
    ensures forall m :: HasComing(s, m, x) <==> HasComing(Next(s, o, e), m, x)
  {
    var t := Next(s, o, e);
    if e.Subscribe? {
      SameViews(s, t, x);
    } else {
      forall m ensures HasComing(s, m, x) <==> HasComing(t, m, x) {
        if m in s.nodes {
          FinishHasComing(s, o, k, e.w, e.rows, m, x);
        }
      }
    }
  }

  /** Then j, still listening, reads the channel to its end and answers nobody. */
  lemma {:induction false} ReadsToTheEnd(s: State, o: W.Options, j: InstanceId, x: Op) returns (es: seq<Event>)
    requires Fit(s) && OnlyCarrier(s, j, x) && s.nodes[j].Listening? && s.nodes[j].cursor <= |s.chan|
    requires forall k :: Opening(s, k) ==> k == j
    ensures Settles(s, o, es)
    ensures var t := After(s, o, es);
      && Fit(t) && OnlyCarrier(t, j, x) && t.nodes.Keys == s.nodes.Keys
      && t.nodes[j].Listening? && t.nodes[j].cursor == |t.chan|
      && forall k :: Opening(t, k) ==> k == j
    decreases |s.chan| - s.nodes[j].cursor
  {
    if s.nodes[j].cursor == |s.chan| {
      return [];
    }
    var t := Next(s, o, Deliver(j));
    OneStep(s, o, Deliver(j));
    DeliverEffect(s, o, j);
    DeliverKeepsOpening(s, o, j);
    forall k | k != j ensures !HasComing(t, k, x) {
      if HasComing(t, k, x) {
        DeliverHasComingWas(s, o, j, k, x);
      }
    }
    var rest := ReadsToTheEnd(t, o, j, x);
    SettlesConcat(s, o, [Deliver(j)], rest);
    es := [Deliver(j)] + rest;
  }

  /** And opens last, with no request ahead but its own. */
  lemma OpensTooLate(s: State, o: W.Options, j: InstanceId, w: WriterId, i: InstanceId, x: Op)
    requires Fit(s) && OnlyCarrier(s, j, x) && Enabled(s, Finish(j, w, 0)) && i in s.nodes && i != j
    requires s.nodes[j].cursor == |s.chan| && forall k :: Opening(s, k) ==> k == j
    ensures !CanGet(Next(s, o, Finish(j, w, 0)), i, x)
  {
    var t := Next(s, o, Finish(j, w, 0));
    OpeningMovesNoOperation(s, o, Finish(j, w, 0), j, x);
    forall k ensures !Opening(t, k) {
      assert Opening(t, k) ==> Opening(s, k) && k != j;
    }
    forall n: nat ensures !Faces(t, j, n, x) {
      FinishFaces(s, o, j, w, 0, j, n, x);
    }
  }

  lemma ScheduleThatWithholds(s: State, o: W.Options, i: InstanceId, x: Op) returns (es: seq<Event>)
    requires Fit(s) && i in s.nodes && !Always(s, i, x)
    ensures Settles(s, o, es) && i in After(s, o, es).nodes && !CanGet(After(s, o, es), i, x)
  {
    if !CanGet(s, i, x) {
      return [];
    }
    var j := UncertainHasOneCarrier(s, i, x);
    es := OthersOpen(s, o, j, x);
    SettlesKeepsFit(s, o, es);
    var a := After(s, o, es);
    if a.nodes[j].Reading? {
      var b := Next(a, o, Subscribe(j));
      OneStep(a, o, Subscribe(j));
      OpeningMovesNoOperation(a, o, Subscribe(j), j, x);
      assert Opening(b, j) && forall k :: Opening(b, k) ==> Opening(a, k);
      SettlesConcat(s, o, es, [Subscribe(j)]);
      es := es + [Subscribe(j)];
      a := b;
    }
    assert Placed(a, j, a.nodes[j]);
    var more := ReadsToTheEnd(a, o, j, x);
    SettlesConcat(s, o, es, more);
    es := es + more;
    a := After(s, o, es);
    var w := FreshNumber(a.writers.Keys);
    OneStep(a, o, Finish(j, w, 0));
    OpensTooLate(a, o, j, w, i, x);
    SettlesConcat(s, o, es, [Finish(j, w, 0)]);
    es := es + [Finish(j, w, 0)];
  }

  // ---------------------------------------------------------------- the exact answer

  /**
   What an instance must end up with. From any state, whatever is opening: every
   schedule leaves it with the operation if and only if it has or has coming the
   operation, an open room will share it, or two other instances still opening have it.
   */
  lemma AlwaysIff(s: State, o: W.Options, i: InstanceId, x: Op)
    requires Fit(s) && i in s.nodes
    ensures (forall es :: Finishes(s, o, es) ==> EndsWith(s, o, es, i, x)) <==> Always(s, i, x)
  {
    if Always(s, i, x) {
      forall es | Finishes(s, o, es) ensures EndsWith(s, o, es, i, x) {
        SettlingEndsBetween(s, o, es, i, x);
      }
    } else {
      var a := ScheduleThatWithholds(s, o, i, x);
      SettlesKeepsFit(s, o, a);
      var b := ScheduleExists(After(s, o, a), o);
      SettlingEndsBetween(After(s, o, a), o, b, i, x);
      SettlesConcat(s, o, a, b);
      assert Finishes(s, o, a + b) && !EndsWith(s, o, a + b, i, x);
    }
  }

  /**
   What it may end up with: some schedule leaves it with the operation if and only if
   it has or has coming the operation, or another instance, open or opening, has it
   and either faces somebody's request with it or will be asked by one yet to open.
   */
  lemma SometimesIff(s: State, o: W.Options, i: InstanceId, x: Op)
    requires Fit(s) && i in s.nodes
    ensures (exists es :: Finishes(s, o, es) && EndsWith(s, o, es, i, x)) <==> CanGet(s, i, x)
  {
    if CanGet(s, i, x) {
      var a := ScheduleThatBrings(s, o, i, x);
      SettlesKeepsFit(s, o, a);
      RunKeepsOutlook(s, o, a, i, x);
      var b := ScheduleExists(After(s, o, a), o);
      SettlingEndsBetween(After(s, o, a), o, b, i, x);
      SettlesConcat(s, o, a, b);
      assert Finishes(s, o, a + b) && EndsWith(s, o, a + b, i, x);
    } else {
      forall es | Finishes(s, o, es) ensures !EndsWith(s, o, es, i, x) {
        SettlingEndsBetween(s, o, es, i, x);
      }
    }
  }

  /**
   So the order of things decides exactly when one other instance, still opening, is
   the only one to have the operation and may come to share it.
   */
  lemma OrderMattersIff(s: State, i: InstanceId, x: Op)
    requires i in s.nodes
    ensures Always(s, i, x) ==> CanGet(s, i, x)
    ensures CanGet(s, i, x) && !Always(s, i, x) <==> exists j :: j != i && OnlyCarrier(s, j, x) && CanShare(s, j, x)
  {
    if CanGet(s, i, x) && !Always(s, i, x) {
      var j := UncertainHasOneCarrier(s, i, x);
    }
    if j :| j != i && OnlyCarrier(s, j, x) && CanShare(s, j, x) {
      forall h | h != i ensures !WillShare(s, h, x) {
        SharersHaveIt(s, h, x);
      }
    }
    if Always(s, i, x) && !HasComing(s, i, x) {
      if h :| h != i && WillShare(s, h, x) {
        SharersHaveIt(s, h, x);
        assert CanShare(s, h, x);
      } else {
        var j, k :| j != i && k != i && j != k
          && Opening(s, j) && HasComing(s, j, x) && Opening(s, k) && HasComing(s, k, x);
        assert CanShare(s, j, x);
      }
    }
  }

  lemma SharersHaveIt(s: State, h: InstanceId, x: Op)
    ensures WillShare(s, h, x) ==> HasComing(s, h, x) && (forall j :: Opening(s, j) ==> j != h)
  {
    if n: nat :| Faces(s, h, n, x) {
      assert Holds(s.nodes[h], x) || Coming(s.chan, h, s.nodes[h].cursor, n, x);
    }
  }

  /** Every instance is open with exactly what was recorded. */
  predicate Agreed(t: State) {
    forall i :: i in t.nodes ==> t.nodes[i].Open? && t.nodes[i].room.doc == t.recorded
  }

  /** Hence when everyone agrees in the end, whatever the schedule: from any state a run can reach. */
  lemma AgreementIff(s: State, o: W.Options)
    requires Fit(s) && Durable(s)
    ensures (forall es :: Finishes(s, o, es) ==> Agreed(After(s, o, es)))
       <==> (forall i, x :: i in s.nodes && x in s.recorded ==> Always(s, i, x))
  {
    if forall i, x :: i in s.nodes && x in s.recorded ==> Always(s, i, x) {
      forall es | Finishes(s, o, es) ensures Agreed(After(s, o, es)) {
        AgreesAfter(s, o, es);
      }
    }
    if forall es :: Finishes(s, o, es) ==> Agreed(After(s, o, es)) {
      forall i, x | i in s.nodes && x in s.recorded ensures Always(s, i, x) {
        forall es | Finishes(s, o, es) ensures EndsWith(s, o, es, i, x) {
          assert Agreed(After(s, o, es));
          RunKeepsOutlook(s, o, es, i, x);
        }
        AlwaysIff(s, o, i, x);
      }
    }
  }

  lemma AgreesAfter(s: State, o: W.Options, es: seq<Event>)
    requires Fit(s) && Durable(s) && Finishes(s, o, es)
    requires forall i, x :: i in s.nodes && x in s.recorded ==> Always(s, i, x)
    ensures Agreed(After(s, o, es))
  {
    var t := After(s, o, es);
    RunKeepsDurable(s, o, es);
    SettlingKeepsKeys(s, o, es);
    forall i | i in t.nodes ensures t.nodes[i].Open? && t.nodes[i].room.doc == t.recorded {
      assert Known(t.nodes[i], t.recorded);
      forall x | x in s.recorded ensures x in t.nodes[i].room.doc {
        SettlingEndsBetween(s, o, es, i, x);
      }
    }
  }

  lemma {:induction false} SettlingKeepsKeys(s: State, o: W.Options, es: seq<Event>)
    requires Settles(s, o, es)
    ensures After(s, o, es).nodes.Keys == s.nodes.Keys && After(s, o, es).recorded == s.recorded
    decreases |es|
  {
    if es != [] {
      assert es[0] in es && forall e :: e in es[1..] ==> e in es;
      if es[0].Deliver? {
        DeliverEffect(s, o, es[0].i);
      }
      SettlingKeepsKeys(Next(s, o, es[0]), o, es[1..]);
    }
  }

  /**
   A close or a crash is harmless, whatever is opening and in whatever order things go
   on, if and only if everything recorded is certain for everyone without the one
   that left.
   */
  lemma DepartureAlwaysHarmlessIff(s: State, o: W.Options, e: Event, h: InstanceId)
    requires Fit(s) && Durable(s) && Enabled(s, e) && Goes(s, e, h)
    ensures (forall es :: Finishes(Next(s, o, e), o, es) ==> Agreed(After(Next(s, o, e), o, es)))
       <==> (forall i, x :: i in Rest(s, h).nodes && x in s.recorded ==> Always(Rest(s, h), i, x))
  {
    var t := Next(s, o, e);
    GoneLeavesRest(s, o, e, h);
    NextKeepsDurable(s, o, e);
    AgreementIff(t, o);
    forall i, x ensures Always(t, i, x) <==> Always(Rest(s, h), i, x) {
      SameViews(t, Rest(s, h), x);
      assert SameOutlook(t, Rest(s, h), i, x);
    }
  }

  // ------------------------------------------------------- runs that get there

  function Visit(): seq<Event> {
    [ReadStore(1)] + ([Subscribe(1)] + ([Finish(1, 0, 0)] + ([Join(1, 7)] + [])))
  }

  function Typing(x: Op): Event {
    ClientSync(1, 7, Update({x}), 1, 0)
  }

  /** A client of instance 1 edits; instance 2 reads a store that does not have the edit yet. */
  function EditWhileReading(x: Op): seq<Event> {
    [Typing(x)] + ([ReadStore(2)] + [])
  }

  /** The client leaves, the writer of its room flushes, and instance 3 reads the store. */
  const CLOSE_AND_READ: seq<Event> :=
    [LeaveRoom(1, 7)]
    + ([Write(0, W.Close)] + ([Write(0, W.BeginWrite)] + ([Write(0, W.AppendOk)] + ([ReadStore(3)] + []))))

  /** The only writer has the edit pending, or queued if it fills a batch. */
  function Typed(o: W.Options, x: Op): W.State {
    W.Next(W.Initial(0), o, W.Record(W.Chunk({x}, 1), 0))
  }

  function Edited(o: W.Options, x: Op): State {
    State([BusMessage(BusStateRequest, 1, {}), BusMessage(BusUpdate, 1, {x})],
          map[1 := Open(RoomState({x}, [7]), 0, 0, 0), 2 := Reading({})], {}, map[0 := Keeper(1, Typed(o, x))], {x}, {})
  }

  lemma VisitRuns(o: W.Options)
    ensures Runs(Empty(), o, Visit()) && After(Empty(), o, Visit()) == Visited() && CarefulRun(Empty(), o, Visit())
  {
    VisitStarts(o, []);
  }

  lemma EditRuns(o: W.Options, x: Op)
    ensures Runs(Visited(), o, EditWhileReading(x)) && After(Visited(), o, EditWhileReading(x)) == Edited(o, x)
    ensures CarefulRun(Visited(), o, EditWhileReading(x)) && LosslessRun(Visited(), o, EditWhileReading(x))
  {
    ClientSyncEffect(Visited(), o, 1, 7, Update({x}), 1, 0);
    var e := Next(Visited(), o, Typing(x));
    assert {x} - {} == {x} && {} + {x} == {x};
    assert e.nodes == map[1 := Open(RoomState({x}, [7]), 0, 0, 0)];
    assert e.chan == Edited(o, x).chan && e.writers == Edited(o, x).writers;
    assert IsOpen(e, 1) && StoreSuffices(e);
    var r := Next(e, o, ReadStore(2));
    assert r.nodes == Edited(o, x).nodes;
    RunStartsWith(e, o, ReadStore(2), []);
    RunStartsWith(Visited(), o, Typing(x), [ReadStore(2)] + []);
  }

  lemma EditedIsReached(o: W.Options, x: Op)
    ensures var es := Visit() + EditWhileReading(x);
      Runs(Empty(), o, es) && After(Empty(), o, es) == Edited(o, x)
    ensures Fit(Edited(o, x)) && Durable(Edited(o, x))
  {
    VisitRuns(o);
    EditRuns(o, x);
    RunsConcat(Empty(), o, Visit(), EditWhileReading(x));
    ReachedIsFit(Empty(), o, Visit() + EditWhileReading(x));
  }

  /**
   The window is real: one opening, one edit, a second opening that has read the store
   and not subscribed yet, and the last other room closes. No schedule from there on
   brings that instance the edit.
   */
  lemma ClosingInTheWindowCanLose(o: W.Options, x: Op)
    ensures Runs(Empty(), o, Visit() + EditWhileReading(x))
    ensures After(Empty(), o, Visit() + EditWhileReading(x)) == Edited(o, x)
    ensures Enabled(Edited(o, x), LeaveRoom(1, 7)) && Goes(Edited(o, x), LeaveRoom(1, 7), 1)
    ensures var t := Next(Edited(o, x), o, LeaveRoom(1, 7));
      && x in t.recorded && 2 in t.nodes
      && forall es :: Finishes(t, o, es) ==> IsOpen(After(t, o, es), 2) && !EndsWith(t, o, es, 2, x)
  {
    EditedIsReached(o, x);
    var s := Edited(o, x);
    assert Without([7], 7) == [];
    var t := Next(s, o, LeaveRoom(1, 7));
    GoneLeavesRest(s, o, LeaveRoom(1, 7), 1);
    assert t.nodes == map[2 := Reading({})];
    assert !CanGet(t, 2, x);
    forall es | Finishes(t, o, es) ensures IsOpen(After(t, o, es), 2) && !EndsWith(t, o, es, 2, x) {
      SettlingEndsBetween(t, o, es, 2, x);
    }
  }

  /** Instance 2 has read the store without the edit, instance 3 with it; nobody is open. */
  predicate BothReading(s: State, x: Op) {
    s.nodes == map[2 := Reading({}), 3 := Reading({x})] && s.recorded == {x}
  }

  lemma ClosedWriter(o: W.Options, x: Op)
    ensures var w := W.Next(Typed(o, x), o, W.Close);
      w.pending == [] && w.queue == [[W.Chunk({x}, 1)]] && w.stage == W.Idle
  {
    assert [] + [W.Chunk({x}, 1)] == [W.Chunk({x}, 1)];
    assert [] + [[W.Chunk({x}, 1)]] == [[W.Chunk({x}, 1)]];
  }

  lemma CloseAndReadRuns(o: W.Options, x: Op)
    ensures Runs(Edited(o, x), o, CLOSE_AND_READ) && BothReading(After(Edited(o, x), o, CLOSE_AND_READ), x)
  {
    var s := Edited(o, x);
    assert Without([7], 7) == [];
    var l := Next(s, o, LeaveRoom(1, 7));
    assert l.nodes == map[2 := Reading({})] && Retired(l, 0);
    ClosedWriter(o, x);
    var a := Next(l, o, Write(0, W.Close));
    assert a.nodes == l.nodes && a.writers[0].state.queue == [[W.Chunk({x}, 1)]];
    var b := Next(a, o, Write(0, W.BeginWrite));
    assert b.writers[0].state.stage == W.Appending([W.Chunk({x}, 1)]);
    var c := Next(b, o, Write(0, W.AppendOk));
    W.MergedKeepsOps([W.Chunk({x}, 1)], 1);
    assert c.store == {} + {x} == {x} && c.nodes == a.nodes;
    assert Next(c, o, ReadStore(3)).nodes == map[2 := Reading({}), 3 := Reading({x})];
    var last := [ReadStore(3)] + [];
    RunStartsWith(c, o, ReadStore(3), []);
    RunStartsWith(b, o, Write(0, W.AppendOk), last);
    RunStartsWith(a, o, Write(0, W.BeginWrite), [Write(0, W.AppendOk)] + last);
    RunStartsWith(l, o, Write(0, W.Close), [Write(0, W.BeginWrite)] + ([Write(0, W.AppendOk)] + last));
    RunStartsWith(s, o, LeaveRoom(1, 7),
                  [Write(0, W.Close)] + ([Write(0, W.BeginWrite)] + ([Write(0, W.AppendOk)] + last)));
  }

  /**
   The order can decide. A run reaches a state from which one schedule leaves instance
   2 with the edit and another leaves it without.
   */
  lemma OrderDecides(o: W.Options, x: Op)
    ensures var es := Visit() + EditWhileReading(x) + CLOSE_AND_READ;
      && Runs(Empty(), o, es)
      && var s := After(Empty(), o, es);
      && BothReading(s, x)
      && (exists more :: Finishes(s, o, more) && EndsWith(s, o, more, 2, x))
      && (exists more :: Finishes(s, o, more) && !EndsWith(s, o, more, 2, x))
  {
    EditedIsReached(o, x);
    CloseAndReadRuns(o, x);
    var es := Visit() + EditWhileReading(x) + CLOSE_AND_READ;
    RunsConcat(Empty(), o, Visit() + EditWhileReading(x), CLOSE_AND_READ);
    ReachedIsFit(Empty(), o, es);
    var s := After(Empty(), o, es);
    assert Opening(s, 2) && HasComing(s, 3, x);
    assert CanShare(s, 3, x);
    assert !Sure(s, 2, x) && !TwoCarry(s, 2, x);
    SometimesIff(s, o, 2, x);
    AlwaysIff(s, o, 2, x);
  }
}
