/**
 What becomes of an operation while instances open the document and others go away:
 apps/server/src/rooms/registry.ts reads, subscribes, hydrates and asks, in that
 order, and whoever is open and has clients answers
 (apps/server/src/rooms/room.ts). From any state, without new edits, readings and
 departures, it is settled beforehand what an instance ends up with.
 */
module Openings {
  import opened Crdt
  import opened Room
  import opened Cluster
  import opened Convergence
  import W = Writer

  // ---------------------------------------------------- who has it, who passes it on

  /** The instance has the operation, read it, or has it ahead on the channel. */
  predicate HasComing(s: State, i: InstanceId, x: Op) {
    i in s.nodes &&
    match s.nodes[i]
    case Reading(loaded) => x in loaded
    case Listening(loaded, room, cursor) => x in loaded || x in room.doc || Coming(s.chan, i, cursor, |s.chan|, x)
    case Open(room, cursor, _, _) => x in room.doc || Coming(s.chan, i, cursor, |s.chan|, x)
  }

  /** What a room holds, or will once it is hydrated. */
  predicate Holds(n: Node, x: Op) {
    match n
    case Reading(loaded) => x in loaded
    case Listening(loaded, room, _) => x in loaded || x in room.doc
    case Open(room, _, _, _) => x in room.doc
  }

  /** Somebody else's state request lies ahead of the instance, and it will have the operation by then. */
  predicate Faces(s: State, j: InstanceId, n: nat, x: Op) {
    && Subscribed(s, j) && s.nodes[j].cursor <= n < |s.chan|
    && s.chan[n].kind.BusStateRequest? && s.chan[n].origin != j
    && (Holds(s.nodes[j], x) || Coming(s.chan, j, s.nodes[j].cursor, n, x))
  }

  predicate Opening(s: State, j: InstanceId) {
    j in s.nodes && !s.nodes[j].Open?
  }

  /** An open room that will publish the operation: it owes an answer, or somebody has yet to ask. */
  ghost predicate WillShare(s: State, h: InstanceId, x: Op) {
    && IsOpen(s, h)
    && ((exists n: nat :: Faces(s, h, n, x)) || (HasComing(s, h, x) && exists j :: Opening(s, j)))
  }

  /** The instance has it, or an open room will share it. */
  ghost predicate Sure(s: State, i: InstanceId, x: Op) {
    HasComing(s, i, x) || exists h :: h != i && WillShare(s, h, x)
  }

  /** Two other instances still opening have it: whichever opens first, the other asks it. */
  ghost predicate TwoCarry(s: State, i: InstanceId, x: Op) {
    exists j, k :: j != i && k != i && j != k
      && Opening(s, j) && HasComing(s, j, x) && Opening(s, k) && HasComing(s, k, x)
  }

  /** The instance ends up with the operation, in whatever order things happen. */
  ghost predicate Always(s: State, i: InstanceId, x: Op) {
    Sure(s, i, x) || TwoCarry(s, i, x)
  }

  /**
   An instance, open or not, that may come to publish the operation: besides having
   it, it faces a request that it can be open to answer, or somebody else has yet to ask.
   */
  ghost predicate CanShare(s: State, j: InstanceId, x: Op) {
    HasComing(s, j, x) && ((exists n: nat :: Faces(s, j, n, x)) || exists k :: k != j && Opening(s, k))
  }

  /** The instance ends up with the operation in some order of things. */
  ghost predicate CanGet(s: State, i: InstanceId, x: Op) {
    HasComing(s, i, x) || exists j :: j != i && CanShare(s, j, x)
  }

  ghost predicate Fit(s: State) {
    AllPlaced(s) && Unpeopled(s)
  }

  /** Openings go on, first clients come in and messages are delivered. */
  predicate Settling(es: seq<Event>) {
    forall e :: e in es ==> e.Subscribe? || e.Finish? || e.Join? || e.Deliver?
  }

  /** Every room is open and has read the whole channel. */
  predicate Completed(s: State) {
    ChannelDrained(s) && forall i :: i in s.nodes ==> s.nodes[i].Open?
  }

  // ------------------------------------------------------------- a delivery

  /** What delivering j's next message publishes, if it is somebody else's request. */
  predicate AnswersNow(s: State, j: InstanceId, x: Op) {
    && IsOpen(s, j) && s.nodes[j].cursor < |s.chan| && x in s.nodes[j].room.doc
    && s.chan[s.nodes[j].cursor].kind.BusStateRequest? && s.chan[s.nodes[j].cursor].origin != j
  }

  lemma DeliverKeepsHasComing(s: State, o: W.Options, j: InstanceId, i: InstanceId, x: Op)
    requires Fit(s) && Enabled(s, Deliver(j)) && HasComing(s, i, x)
    ensures HasComing(Next(s, o, Deliver(j)), i, x)
  {
    DeliverEffect(s, o, j);
    var t := Next(s, o, Deliver(j));
    if !s.nodes[i].Reading? && Coming(s.chan, i, s.nodes[i].cursor, |s.chan|, x) {
      var n :| s.nodes[i].cursor <= n < |s.chan| && s.chan[n].kind.BusUpdate?
               && s.chan[n].origin != i && x in s.chan[n].ops;
      assert t.chan[n] == s.chan[n];
    }
  }

  lemma DeliverHasComingWas(s: State, o: W.Options, j: InstanceId, i: InstanceId, x: Op)
    requires Fit(s) && Enabled(s, Deliver(j)) && HasComing(Next(s, o, Deliver(j)), i, x)
    ensures HasComing(s, i, x) || (i != j && AnswersNow(s, j, x))
  {
    DeliverEffect(s, o, j);
    var t := Next(s, o, Deliver(j));
    assert Placed(s, i, s.nodes[i]);
    if !t.nodes[i].Reading? && Coming(t.chan, i, t.nodes[i].cursor, |t.chan|, x) {
      var n :| t.nodes[i].cursor <= n < |t.chan| && t.chan[n].kind.BusUpdate?
               && t.chan[n].origin != i && x in t.chan[n].ops;
      if n < |s.chan| {
        assert t.chan[n] == s.chan[n];
      }
    }
  }

  lemma DeliverKeepsFaces(s: State, o: W.Options, j: InstanceId, h: InstanceId, n: nat, x: Op)
    requires Fit(s) && Enabled(s, Deliver(j)) && Faces(s, h, n, x) && (h == j ==> n != s.nodes[j].cursor)
    ensures Faces(Next(s, o, Deliver(j)), h, n, x)
  {
    DeliverEffect(s, o, j);
    var t := Next(s, o, Deliver(j));
    assert t.chan[n] == s.chan[n];
    if Coming(s.chan, h, s.nodes[h].cursor, n, x) {
      var m :| s.nodes[h].cursor <= m < n && s.chan[m].kind.BusUpdate? && s.chan[m].origin != h && x in s.chan[m].ops;
      assert t.chan[m] == s.chan[m];
    }
  }

  lemma DeliverFacesWas(s: State, o: W.Options, j: InstanceId, h: InstanceId, n: nat, x: Op)
    requires Fit(s) && Enabled(s, Deliver(j)) && Faces(Next(s, o, Deliver(j)), h, n, x)
    ensures Faces(s, h, n, x)
  {
    DeliverEffect(s, o, j);
    var t := Next(s, o, Deliver(j));
    assert n < |s.chan| && t.chan[n] == s.chan[n];
    if Coming(t.chan, h, t.nodes[h].cursor, n, x) {
      var m :| t.nodes[h].cursor <= m < n && t.chan[m].kind.BusUpdate? && t.chan[m].origin != h && x in t.chan[m].ops;
      assert t.chan[m] == s.chan[m];
    }
  }

  /** The answer reaches everyone listening; whoever is not listening yet has still to ask. */
  lemma AnswerReaches(s: State, o: W.Options, j: InstanceId, i: InstanceId, x: Op)
    requires Fit(s) && Enabled(s, Deliver(j)) && AnswersNow(s, j, x) && i != j && i in s.nodes
    ensures Sure(Next(s, o, Deliver(j)), i, x)
  {
    DeliverEffect(s, o, j);
    var t := Next(s, o, Deliver(j));
    assert Placed(s, i, s.nodes[i]);
    if s.nodes[i].Reading? {
      assert Opening(t, i) && HasComing(t, j, x);
      assert WillShare(t, j, x);
    } else {
      assert t.chan[|s.chan|] == BusMessage(BusUpdate, j, s.nodes[j].room.doc);
      assert Coming(t.chan, i, t.nodes[i].cursor, |t.chan|, x);
    }
  }

  lemma DeliverKeepsSure(s: State, o: W.Options, j: InstanceId, i: InstanceId, x: Op)
    requires Fit(s) && Enabled(s, Deliver(j)) && i in s.nodes && Sure(s, i, x)
    ensures Sure(Next(s, o, Deliver(j)), i, x)
  {
    var t := Next(s, o, Deliver(j));
    if HasComing(s, i, x) {
      DeliverKeepsHasComing(s, o, j, i, x);
    } else {
      var h :| h != i && WillShare(s, h, x);
      if n: nat :| Faces(s, h, n, x) {
        if h == j && n == s.nodes[j].cursor {
          AnswerReaches(s, o, j, i, x);
        } else {
          DeliverKeepsFaces(s, o, j, h, n, x);
          assert WillShare(t, h, x);
        }
      } else {
        DeliverKeepsHasComing(s, o, j, h, x);
        DeliverKeepsOpening(s, o, j);
        assert WillShare(t, h, x);
      }
    }
  }

  lemma DeliverKeepsOpening(s: State, o: W.Options, j: InstanceId)
    requires Enabled(s, Deliver(j))
    ensures var t := Next(s, o, Deliver(j));
      t.nodes.Keys == s.nodes.Keys && forall k :: (Opening(t, k) <==> Opening(s, k)) && (IsOpen(t, k) <==> IsOpen(s, k))
    ensures (exists k :: Opening(s, k)) <==> (exists k :: Opening(Next(s, o, Deliver(j)), k))
  {
    DeliverEffect(s, o, j);
    var t := Next(s, o, Deliver(j));
    assert forall k :: Opening(t, k) <==> Opening(s, k);
  }

  /** A request under j's eyes that it can answer makes the operation sure for everyone else. */
  lemma AnswersNowShares(s: State, j: InstanceId, x: Op)
    requires AnswersNow(s, j, x)
    ensures WillShare(s, j, x) && HasComing(s, j, x)
  {
    assert Faces(s, j, s.nodes[j].cursor, x);
  }

  lemma DeliverCanGetWas(s: State, o: W.Options, j: InstanceId, i: InstanceId, x: Op)
    requires Fit(s) && Enabled(s, Deliver(j)) && i in s.nodes && CanGet(Next(s, o, Deliver(j)), i, x)
    ensures CanGet(s, i, x)
  {
    var t := Next(s, o, Deliver(j));
    DeliverKeepsOpening(s, o, j);
    if AnswersNow(s, j, x) {
      AnswersNowShares(s, j, x);
      assert CanShare(s, j, x);
    } else if HasComing(t, i, x) {
      DeliverHasComingWas(s, o, j, i, x);
    } else {
      var h :| h != i && CanShare(t, h, x);
      DeliverHasComingWas(s, o, j, h, x);
      if n: nat :| Faces(t, h, n, x) {
        DeliverFacesWas(s, o, j, h, n, x);
      } else {
        var k :| k != h && Opening(t, k);
        assert Opening(s, k);
      }
      assert CanShare(s, h, x);
    }
  }

  lemma DeliverKeepsTwo(s: State, o: W.Options, j: InstanceId, i: InstanceId, x: Op)
    requires Fit(s) && Enabled(s, Deliver(j)) && TwoCarry(s, i, x)
    ensures TwoCarry(Next(s, o, Deliver(j)), i, x)
  {
    var a, b :| a != i && b != i && a != b
      && Opening(s, a) && HasComing(s, a, x) && Opening(s, b) && HasComing(s, b, x);
    DeliverKeepsOpening(s, o, j);
    DeliverKeepsHasComing(s, o, j, a, x);
    DeliverKeepsHasComing(s, o, j, b, x);
    assert Opening(Next(s, o, Deliver(j)), a) && Opening(Next(s, o, Deliver(j)), b);
  }

  // ------------------------------------------------------------- an opening

  /** Two states in which every instance has, faces and opens alike. */
  ghost predicate Alike(s: State, t: State, x: Op) {
    && (forall k :: HasComing(s, k, x) <==> HasComing(t, k, x))
    && (forall k :: (Opening(s, k) <==> Opening(t, k)) && (IsOpen(s, k) <==> IsOpen(t, k)))
    && (forall k, n: nat :: Faces(s, k, n, x) <==> Faces(t, k, n, x))
  }

  ghost predicate SameOutlook(s: State, t: State, i: InstanceId, x: Op) {
    && (Sure(s, i, x) <==> Sure(t, i, x)) && (Always(s, i, x) <==> Always(t, i, x))
    && (CanGet(s, i, x) <==> CanGet(t, i, x))
  }

  lemma AlikeShares(s: State, t: State, x: Op, i: InstanceId)
    requires Alike(s, t, x)
    ensures SameOutlook(s, t, i, x)
  {
    assert (exists k :: Opening(s, k)) <==> (exists k :: Opening(t, k));
    forall h ensures (WillShare(s, h, x) <==> WillShare(t, h, x)) && (CanShare(s, h, x) <==> CanShare(t, h, x)) {
      assert (exists n: nat :: Faces(s, h, n, x)) <==> (exists n: nat :: Faces(t, h, n, x));
      assert (exists k :: k != h && Opening(s, k)) <==> (exists k :: k != h && Opening(t, k));
    }
  }

  lemma SameViews(s: State, t: State, x: Op)
    requires t.chan == s.chan && t.nodes.Keys == s.nodes.Keys
    requires forall k :: k in s.nodes ==>
      || t.nodes[k] == s.nodes[k]
      || (s.nodes[k].Reading? && t.nodes[k] == Listening(s.nodes[k].loaded, RoomState({}, []), |s.chan|))
      || (s.nodes[k].Open? && t.nodes[k].Open? && t.nodes[k] == s.nodes[k].(room := t.nodes[k].room)
          && t.nodes[k].room.doc == s.nodes[k].room.doc)
    ensures Alike(s, t, x)
    ensures forall i :: SameOutlook(s, t, i, x)
  {
    forall i ensures SameOutlook(s, t, i, x) {
      AlikeShares(s, t, x, i);
    }
  }

  lemma FinishHasComing(s: State, o: W.Options, j: InstanceId, w: WriterId, rows: nat, i: InstanceId, x: Op)
    requires Fit(s) && Enabled(s, Finish(j, w, rows)) && i in s.nodes
    ensures HasComing(s, i, x) <==> HasComing(Next(s, o, Finish(j, w, rows)), i, x)
  {
    var t, n := Next(s, o, Finish(j, w, rows)), s.nodes[j];
    assert n.room.doc + (n.loaded - n.room.doc) == n.room.doc + n.loaded;
    assert t.chan == s.chan + [BusMessage(BusStateRequest, j, {})];
    if !s.nodes[i].Reading? {
      RequestBringsNothing(s.chan, j, i, s.nodes[i].cursor, x);
    }
  }

  lemma RequestBringsNothing(chan: seq<BusMessage>, j: InstanceId, i: InstanceId, low: nat, x: Op)
    ensures var longer := chan + [BusMessage(BusStateRequest, j, {})];
      Coming(chan, i, low, |chan|, x) <==> Coming(longer, i, low, |longer|, x)
    ensures var longer := chan + [BusMessage(BusStateRequest, j, {})];
      forall high: nat :: high <= |chan| ==> (Coming(chan, i, low, high, x) <==> Coming(longer, i, low, high, x))
  {
    var longer := chan + [BusMessage(BusStateRequest, j, {})];
    assert forall n :: 0 <= n < |chan| ==> longer[n] == chan[n];
  }

  lemma FinishFaces(s: State, o: W.Options, j: InstanceId, w: WriterId, rows: nat, h: InstanceId, n: nat, x: Op)
    requires Fit(s) && Enabled(s, Finish(j, w, rows)) && Subscribed(s, h)
    ensures var t := Next(s, o, Finish(j, w, rows));
      Faces(t, h, n, x) <==> Faces(s, h, n, x) || (h != j && n == |s.chan| && HasComing(s, h, x))
  {
    var t, m := Next(s, o, Finish(j, w, rows)), s.nodes[j];
    assert m.room.doc + (m.loaded - m.room.doc) == m.room.doc + m.loaded;
    assert Placed(s, h, s.nodes[h]);
    assert Holds(t.nodes[h], x) <==> Holds(s.nodes[h], x);
    RequestBringsNothing(s.chan, j, h, s.nodes[h].cursor, x);
  }

  lemma FinishKeepsSure(s: State, o: W.Options, j: InstanceId, w: WriterId, rows: nat, i: InstanceId, x: Op)
    requires Fit(s) && Enabled(s, Finish(j, w, rows)) && i in s.nodes && Sure(s, i, x)
    ensures Sure(Next(s, o, Finish(j, w, rows)), i, x)
  {
    var t := Next(s, o, Finish(j, w, rows));
    FinishHasComing(s, o, j, w, rows, i, x);
    if !HasComing(s, i, x) {
      var h :| h != i && WillShare(s, h, x);
      if n: nat :| Faces(s, h, n, x) {
        FinishFaces(s, o, j, w, rows, h, n, x);
      } else {
        FinishFaces(s, o, j, w, rows, h, |s.chan|, x);
      }
      assert WillShare(t, h, x);
    }
  }

  /** Of two that carry it, the first to open shares it with the other. */
  lemma FinishKeepsTwo(s: State, o: W.Options, j: InstanceId, w: WriterId, rows: nat, i: InstanceId, x: Op)
    requires Fit(s) && Enabled(s, Finish(j, w, rows)) && i in s.nodes && TwoCarry(s, i, x)
    ensures Always(Next(s, o, Finish(j, w, rows)), i, x)
  {
    var t := Next(s, o, Finish(j, w, rows));
    var a, b :| a != i && b != i && a != b
      && Opening(s, a) && HasComing(s, a, x) && Opening(s, b) && HasComing(s, b, x);
    FinishHasComing(s, o, j, w, rows, a, x);
    FinishHasComing(s, o, j, w, rows, b, x);
    if j == a {
      assert Opening(t, b) && WillShare(t, a, x);
    } else if j == b {
      assert Opening(t, a) && WillShare(t, b, x);
    } else {
      assert Opening(t, a) && Opening(t, b);
    }
  }

  lemma FinishCanGetWas(s: State, o: W.Options, j: InstanceId, w: WriterId, rows: nat, i: InstanceId, x: Op)
    requires Fit(s) && Enabled(s, Finish(j, w, rows)) && i in s.nodes && CanGet(Next(s, o, Finish(j, w, rows)), i, x)
    ensures CanGet(s, i, x)
  {
    var t := Next(s, o, Finish(j, w, rows));
    FinishHasComing(s, o, j, w, rows, i, x);
    if !HasComing(t, i, x) {
      var h :| h != i && CanShare(t, h, x);
      FinishHasComing(s, o, j, w, rows, h, x);
      if n: nat :| Faces(t, h, n, x) {
        FinishFaces(s, o, j, w, rows, h, n, x);
        assert Opening(s, j);
      } else {
        var k :| k != h && Opening(t, k);
        assert Opening(s, k);
      }
      assert CanShare(s, h, x);
    }
  }

  // ------------------------------------------------------------------ whole runs

  /** What was certain stays so, and what is possible was. */
  ghost predicate NoWorse(s: State, t: State, i: InstanceId, x: Op) {
    && (Sure(s, i, x) ==> Sure(t, i, x)) && (Always(s, i, x) ==> Always(t, i, x))
    && (CanGet(t, i, x) ==> CanGet(s, i, x))
  }

  lemma StepKeepsOutlook(s: State, o: W.Options, e: Event, i: InstanceId, x: Op)
    requires Fit(s) && Enabled(s, e) && Settling([e]) && i in s.nodes
    ensures var t := Next(s, o, e);
      && Fit(t) && i in t.nodes && t.recorded == s.recorded
      && NoWorse(s, t, i, x)
  {
    assert e in [e];
    NextKeepsPlaced(s, o, e);
    NextKeepsUnpeopled(s, o, e);
    var t := Next(s, o, e);
    match e
    case Subscribe(j) =>
      SameViews(s, t, x);
      assert SameOutlook(s, t, i, x);
    case Join(j, k) =>
      SameViews(s, t, x);
      assert SameOutlook(s, t, i, x);
    case Finish(j, w, rows) => FinishKeepsOutlook(s, o, j, w, rows, i, x);
    case Deliver(j) => DeliverKeepsOutlook(s, o, j, i, x);
  }

  lemma FinishKeepsOutlook(s: State, o: W.Options, j: InstanceId, w: WriterId, rows: nat, i: InstanceId, x: Op)
    requires Fit(s) && Enabled(s, Finish(j, w, rows)) && i in s.nodes
    ensures var t := Next(s, o, Finish(j, w, rows));
      NoWorse(s, t, i, x)
  {
    if Sure(s, i, x) {
      FinishKeepsSure(s, o, j, w, rows, i, x);
    } else if TwoCarry(s, i, x) {
      FinishKeepsTwo(s, o, j, w, rows, i, x);
    }
    if CanGet(Next(s, o, Finish(j, w, rows)), i, x) {
      FinishCanGetWas(s, o, j, w, rows, i, x);
    }
  }

  lemma DeliverKeepsOutlook(s: State, o: W.Options, j: InstanceId, i: InstanceId, x: Op)
    requires Fit(s) && Enabled(s, Deliver(j)) && i in s.nodes
    ensures var t := Next(s, o, Deliver(j));
      && t.recorded == s.recorded && i in t.nodes
      && NoWorse(s, t, i, x)
  {
    DeliverEffect(s, o, j);
    if Sure(s, i, x) {
      DeliverKeepsSure(s, o, j, i, x);
    } else if TwoCarry(s, i, x) {
      DeliverKeepsTwo(s, o, j, i, x);
    }
    if CanGet(Next(s, o, Deliver(j)), i, x) {
      DeliverCanGetWas(s, o, j, i, x);
    }
  }

  lemma {:induction false} RunKeepsOutlook(s: State, o: W.Options, es: seq<Event>, i: InstanceId, x: Op)
    requires Fit(s) && Runs(s, o, es) && Settling(es) && i in s.nodes
    ensures var t := After(s, o, es);
      && i in t.nodes && t.recorded == s.recorded
      && NoWorse(s, t, i, x)
    decreases |es|
  {
    if es != [] {
      StepKeepsOutlook(s, o, es[0], i, x);
      RunKeepsOutlook(Next(s, o, es[0]), o, es[1..], i, x);
    }
  }

  lemma {:induction false} RunKeepsFit(s: State, o: W.Options, es: seq<Event>)
    requires Fit(s) && Runs(s, o, es)
    ensures Fit(After(s, o, es))
    decreases |es|
  {
    if es != [] {
      NextKeepsPlaced(s, o, es[0]);
      NextKeepsUnpeopled(s, o, es[0]);
      RunKeepsFit(Next(s, o, es[0]), o, es[1..]);
    }
  }

  /** Every state any run reaches is one the results below speak of. */
  lemma ReachedIsFit(s: State, o: W.Options, es: seq<Event>)
    requires Init(s) && Runs(s, o, es)
    ensures Fit(After(s, o, es)) && Durable(After(s, o, es))
  {
    assert HeldByAll(s.writers) == {};
    RunKeepsFit(s, o, es);
    RunKeepsDurable(s, o, es);
  }

  lemma CompletedIsExact(t: State, i: InstanceId, x: Op)
    requires Completed(t) && i in t.nodes
    ensures x in t.nodes[i].room.doc <==> Always(t, i, x)
    ensures x in t.nodes[i].room.doc <==> CanGet(t, i, x)
  {
    assert forall j :: !Opening(t, j);
  }

  /**
   Whatever the order in which openings finish and messages arrive: what is always
   had is had in the end, and what is had in the end could be got at the start.
   */
  lemma SettlingEndsBetween(s: State, o: W.Options, es: seq<Event>, i: InstanceId, x: Op)
    requires Fit(s) && Runs(s, o, es) && Settling(es) && i in s.nodes && Completed(After(s, o, es))
    ensures i in After(s, o, es).nodes
    ensures Always(s, i, x) ==> x in After(s, o, es).nodes[i].room.doc
    ensures x in After(s, o, es).nodes[i].room.doc ==> CanGet(s, i, x)
  {
    RunKeepsOutlook(s, o, es, i, x);
    CompletedIsExact(After(s, o, es), i, x);
  }

  /** No other instance still opening may come to publish the operation. */
  ghost predicate NoOtherCarrier(s: State, i: InstanceId, x: Op) {
    forall j :: j != i && Opening(s, j) ==> !CanShare(s, j, x)
  }

  lemma WithoutCarrierSureIffCanGet(s: State, i: InstanceId, x: Op)
    requires NoOtherCarrier(s, i, x)
    ensures CanGet(s, i, x) <==> Sure(s, i, x)
  {
    if Sure(s, i, x) && !HasComing(s, i, x) {
      var h :| h != i && WillShare(s, h, x);
      if n: nat :| Faces(s, h, n, x) {
        assert Holds(s.nodes[h], x) || Coming(s.chan, h, s.nodes[h].cursor, n, x);
      }
      assert CanShare(s, h, x);
    }
    if CanGet(s, i, x) && !HasComing(s, i, x) {
      var j :| j != i && CanShare(s, j, x);
      assert WillShare(s, j, x);
    }
  }

  /**
   And it is the same in every order, for any number of instances at whatever stage,
   unless another instance still opening may come to publish it: the asked instance
   ends up with the operation if and only if it has it, read it, has it ahead on the
   channel, or another open room has yet to answer a request with it.
   */
  lemma SettlingEndsExactly(s: State, o: W.Options, es: seq<Event>, i: InstanceId, x: Op)
    requires Fit(s) && Runs(s, o, es) && Settling(es) && i in s.nodes && Completed(After(s, o, es))
    requires NoOtherCarrier(s, i, x)
    ensures i in After(s, o, es).nodes
    ensures x in After(s, o, es).nodes[i].room.doc <==> Sure(s, i, x)
  {
    SettlingEndsBetween(s, o, es, i, x);
    WithoutCarrierSureIffCanGet(s, i, x);
  }

  // -------------------------------------------------------------- rooms that go away

  /** The room closes with its last client, or its instance dies. */
  predicate Goes(s: State, e: Event, h: InstanceId) {
    h in s.nodes && ((Closes(s, e) && e.i == h) || e == Crash(h))
  }

  function Rest(s: State, h: InstanceId): State {
    s.(nodes := s.nodes - {h})
  }

  /** Everything recorded is sure to reach instance i without h. */
  ghost predicate Spared(s: State, h: InstanceId, i: InstanceId) {
    forall x :: x in s.recorded ==> Sure(Rest(s, h), i, x)
  }

  lemma GoneLeavesRest(s: State, o: W.Options, e: Event, h: InstanceId)
    requires Fit(s) && Enabled(s, e) && Goes(s, e, h)
    ensures var t := Next(s, o, e);
      Fit(t) && t.nodes == Rest(s, h).nodes && t.chan == s.chan && t.recorded == s.recorded
  {
    NextKeepsPlaced(s, o, e);
    NextKeepsUnpeopled(s, o, e);
  }

  /**
   A room closes or dies while another instance is anywhere between its store read
   and its agreement with the rest, and no third instance still opening may come to
   publish what is recorded. However things go on, that instance ends up with
   everything if and only if everything was sure to reach it without the one that
   left; flushing afterwards does not help.
   */
  lemma ClosingInTheWindowConvergesIff(
    s: State, o: W.Options, e: Event, h: InstanceId, es: seq<Event>, i: InstanceId)
    requires Fit(s) && Durable(s) && Enabled(s, e) && Goes(s, e, h) && i in s.nodes && i != h
    requires forall x :: x in s.recorded ==> NoOtherCarrier(Rest(s, h), i, x)
    requires Runs(Next(s, o, e), o, es) && Settling(es) && Completed(After(Next(s, o, e), o, es))
    ensures i in After(Next(s, o, e), o, es).nodes
    ensures After(Next(s, o, e), o, es).nodes[i].room.doc == s.recorded <==> Spared(s, h, i)
  {
    var t := Next(s, o, e);
    var end := After(t, o, es);
    GoneLeavesRest(s, o, e, h);
    NextKeepsDurable(s, o, e);
    RunKeepsDurable(t, o, es);
    assert end.recorded == s.recorded && i in end.nodes by {
      RunKeepsOutlook(t, o, es, i, Op(0, 0));
    }
    assert Known(end.nodes[i], end.recorded);
    forall x | x in s.recorded ensures x in end.nodes[i].room.doc <==> Sure(Rest(s, h), i, x) {
      SameViews(t, Rest(s, h), x);
      assert SameOutlook(t, Rest(s, h), i, x);
      SettlingEndsBetween(t, o, es, i, x);
      WithoutCarrierSureIffCanGet(Rest(s, h), i, x);
    }
  }

  /** With every other room open, a departure is harmless to all if and only if each of them is spared. */
  lemma DepartureIsHarmlessIff(s: State, o: W.Options, e: Event, h: InstanceId, es: seq<Event>)
    requires Fit(s) && Durable(s) && Enabled(s, e) && Goes(s, e, h)
    requires forall j :: j in s.nodes && j != h ==> s.nodes[j].Open?
    requires Runs(Next(s, o, e), o, es) && Settling(es) && Completed(After(Next(s, o, e), o, es))
    ensures forall i :: i in s.nodes && i != h ==> i in After(Next(s, o, e), o, es).nodes
    ensures (forall i :: i in s.nodes && i != h ==> After(Next(s, o, e), o, es).nodes[i].room.doc == s.recorded)
       <==> (forall i :: i in s.nodes && i != h ==> Spared(s, h, i))
  {
    assert forall j :: !Opening(Rest(s, h), j);
    forall i | i in s.nodes && i != h
      ensures i in After(Next(s, o, e), o, es).nodes
      ensures After(Next(s, o, e), o, es).nodes[i].room.doc == s.recorded <==> Spared(s, h, i)
    {
      ClosingInTheWindowConvergesIff(s, o, e, h, es, i);
    }
  }

  /** Left alone, an instance is spared if and only if it has or has coming everything itself. */
  lemma LeftAloneIsSparedIff(s: State, h: InstanceId, i: InstanceId)
    requires s.nodes.Keys == {h, i} && h != i
    ensures Spared(s, h, i) <==> forall x :: x in s.recorded ==> HasComing(s, i, x)
  {
    forall x ensures Sure(Rest(s, h), i, x) <==> HasComing(s, i, x) {
      assert Rest(s, h).nodes.Keys == {i};
    }
  }

  /** What the invariant of careful runs promises is sure. */
  lemma ProvidedIsSure(s: State, i: InstanceId, x: Op)
    requires i in s.nodes && Placed(s, i, s.nodes[i]) && Provided(s, i, s.nodes[i], x)
    ensures Sure(s, i, x)
  {
    var n := s.nodes[i];
    var high := if n.Open? then n.asked else |s.chan|;
    if !HasComing(s, i, x) {
      assert Answerable(s, i, high, x);
      var h :| h in s.nodes && h != i && WillHold(s, h, high, x);
      if n.Open? {
        assert Faces(s, h, n.asked, x);
      } else {
        assert Opening(s, i) && HasComing(s, h, x);
      }
      assert WillShare(s, h, x);
    }
  }

  /** Hence in careful runs a room nobody waits for leaves everyone spared. */
  lemma CarefulDeparturesSpareEveryone(s: State, h: InstanceId, i: InstanceId)
    requires Convergence.Inv(s) && NobodyWaitsFor(s, h) && i in s.nodes && i != h
    ensures Spared(s, h, i)
  {
    GoneKeepsInv(s, Rest(s, h), h);
    forall x | x in s.recorded ensures Sure(Rest(s, h), i, x) {
      assert Provided(Rest(s, h), i, Rest(s, h).nodes[i], x);
      ProvidedIsSure(Rest(s, h), i, x);
    }
  }
}
