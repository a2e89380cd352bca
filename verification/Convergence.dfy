/**
 Do the instances of a cluster agree? Nothing but the order of messages on the
 channel, the state request a room makes when it opens
 (apps/server/src/rooms/registry.ts) and the answer of rooms that have clients
 (apps/server/src/rooms/room.ts) makes them.
 */
module Convergence {
  import opened Crdt
  import opened Room
  import opened Cluster
  import W = Writer

  /** An update from elsewhere between two points of the channel brings the operation. */
  predicate Coming(chan: seq<BusMessage>, to: InstanceId, low: nat, high: nat, x: Op) {
    exists n :: low <= n < high && n < |chan| && chan[n].kind.BusUpdate? && chan[n].origin != to && x in chan[n].ops
  }

  /** An open room that will hold the operation by the time it has read the channel up to `high`. */
  predicate WillHold(s: State, h: InstanceId, high: nat, x: Op) {
    IsOpen(s, h) && s.nodes[h].cursor <= high
    && (x in s.nodes[h].room.doc || Coming(s.chan, h, s.nodes[h].cursor, high, x))
  }

  /** Some other open room will have the operation when a request at `high` reaches it. */
  ghost predicate Answerable(s: State, i: InstanceId, high: nat, x: Op) {
    exists h :: h in s.nodes && h != i && WillHold(s, h, high, x)
  }

  /** Nothing ever recorded can escape this node: it has it, it is coming, or its request will fetch it. */
  ghost predicate Provided(s: State, i: InstanceId, n: Node, x: Op) {
    match n
    case Reading(loaded) => x in loaded || Answerable(s, i, |s.chan|, x)
    case Listening(loaded, room, cursor) =>
      x in loaded || x in room.doc || Coming(s.chan, i, cursor, |s.chan|, x) || Answerable(s, i, |s.chan|, x)
    case Open(room, cursor, asked, _) =>
      x in room.doc || Coming(s.chan, i, cursor, |s.chan|, x) || Answerable(s, i, asked, x)
  }

  ghost predicate Placed(s: State, i: InstanceId, n: Node) {
    && (!n.Reading? ==> n.cursor <= |s.chan|)
    && (n.Open? ==> n.asked < |s.chan| && s.chan[n.asked] == BusMessage(BusStateRequest, i, {}))
  }

  ghost predicate AllPlaced(s: State) {
    forall i :: i in s.nodes ==> Placed(s, i, s.nodes[i])
  }

  /** A room nobody has joined yet, while it opens. */
  ghost predicate Unpeopled(s: State) {
    forall i :: i in s.nodes && s.nodes[i].Listening? ==> s.nodes[i].room.clients == []
  }

  ghost predicate Inv(s: State) {
    AllPlaced(s) && forall i, x :: i in s.nodes && x in s.recorded ==> Provided(s, i, s.nodes[i], x)
  }

  // ---------------------------------------------------------- the two conditions

  /**
   No opening is under way elsewhere that still counts on room h: every other room
   is open and h has already handled its state request.
   */
  predicate NobodyWaitsFor(s: State, h: InstanceId) {
    IsOpen(s, h) ==>
      forall i :: i in s.nodes && i != h ==> s.nodes[i].Open? && s.nodes[i].asked < s.nodes[h].cursor
  }

  /** The store has everything recorded, or another instance has the document open. */
  ghost predicate StoreSuffices(s: State) {
    s.recorded <= s.store || exists j :: IsOpen(s, j)
  }

  /** A room closes, or dies, only when nobody waits for it; the store is read only when it suffices. */
  ghost predicate Careful(s: State, e: Event) {
    && (Closes(s, e) ==> NobodyWaitsFor(s, e.i))
    && (e.Crash? ==> NobodyWaitsFor(s, e.i))
    && (e.ReadStore? ==> StoreSuffices(s))
  }

  // ----------------------------------------------------------- one step at a time

  lemma ComingGrows(chan: seq<BusMessage>, more: seq<BusMessage>, to: InstanceId, low: nat, high: nat, x: Op)
    requires Coming(chan, to, low, high, x)
    ensures Coming(chan + more, to, low, high + |more|, x) && Coming(chan + more, to, low, high, x)
  {
    var n :| low <= n < high && n < |chan| && chan[n].kind.BusUpdate? && chan[n].origin != to && x in chan[n].ops;
    assert (chan + more)[n] == chan[n];
  }

  /** Every open room of s is open in t, has not lost anything, and answers at least as early. */
  ghost predicate Keeps(s: State, t: State, h: InstanceId) {
    IsOpen(s, h) ==>
      && IsOpen(t, h) && s.nodes[h].room.doc <= t.nodes[h].room.doc && t.nodes[h].cursor == s.nodes[h].cursor
  }

  /** A longer channel and the same open rooms: whoever could answer still can. */
  lemma AnswerableStays(s: State, t: State, i: InstanceId, high: nat, high': nat, x: Op)
    requires Answerable(s, i, high, x) && high <= high'
    requires |s.chan| <= |t.chan| && t.chan[..|s.chan|] == s.chan
    requires forall h :: h in s.nodes && h != i ==> Keeps(s, t, h)
    ensures Answerable(t, i, high', x)
  {
    var h :| h in s.nodes && h != i && WillHold(s, h, high, x);
    assert Keeps(s, t, h);
    if x !in s.nodes[h].room.doc {
      var n :| s.nodes[h].cursor <= n < high && n < |s.chan| && s.chan[n].kind.BusUpdate?
               && s.chan[n].origin != h && x in s.chan[n].ops;
      assert t.chan[n] == s.chan[n];
    }
    assert WillHold(t, h, high', x);
  }

  /** One node changes without harm to the others. */
  ghost predicate Gentle(s: State, t: State, i: InstanceId) {
    && |s.chan| <= |t.chan| && t.chan[..|s.chan|] == s.chan
    && (forall j :: j != i ==> (j in t.nodes <==> j in s.nodes) && (j in s.nodes ==> t.nodes[j] == s.nodes[j]))
    && Keeps(s, t, i)
  }

  lemma OthersStayProvided(s: State, t: State, i: InstanceId, j: InstanceId, x: Op)
    requires Gentle(s, t, i) && j in s.nodes && j != i
    requires Placed(s, j, s.nodes[j]) && Provided(s, j, s.nodes[j], x)
    ensures Placed(t, j, t.nodes[j]) && Provided(t, j, t.nodes[j], x)
  {
    var n := s.nodes[j];
    assert t.chan == s.chan + t.chan[|s.chan|..];
    if !n.Reading? && Coming(s.chan, j, n.cursor, |s.chan|, x) {
      ComingGrows(s.chan, t.chan[|s.chan|..], j, n.cursor, |s.chan|, x);
    }
    var high := if n.Open? then n.asked else |s.chan|;
    var high' := if n.Open? then n.asked else |t.chan|;
    if Answerable(s, j, high, x) {
      forall h | h in s.nodes && h != j ensures Keeps(s, t, h) {
      }
      AnswerableStays(s, t, j, high, high', x);
    }
  }

  lemma ReadStoreKeepsInv(s: State, o: W.Options, i: InstanceId)
    requires Inv(s) && Enabled(s, ReadStore(i)) && Careful(s, ReadStore(i))
    ensures Inv(Next(s, o, ReadStore(i)))
  {
    var t := Next(s, o, ReadStore(i));
    forall j, x | j in t.nodes && x in t.recorded ensures Placed(t, j, t.nodes[j]) && Provided(t, j, t.nodes[j], x) {
      if j != i {
        OthersStayProvided(s, t, i, j, x);
      } else if x !in s.store {
        var h :| IsOpen(s, h);
        assert Provided(s, h, s.nodes[h], x);
        if x in s.nodes[h].room.doc || Coming(s.chan, h, s.nodes[h].cursor, |s.chan|, x) {
          assert WillHold(t, h, |t.chan|, x);
        } else {
          var g :| g in s.nodes && g != h && WillHold(s, g, s.nodes[h].asked, x);
          assert WillHold(t, g, |t.chan|, x);
        }
      }
    }
    forall j | j in t.nodes ensures Placed(t, j, t.nodes[j]) {
      assert j != i ==> Placed(s, j, s.nodes[j]);
    }
  }

  lemma SubscribeKeepsInv(s: State, o: W.Options, i: InstanceId)
    requires Inv(s) && Enabled(s, Subscribe(i))
    ensures Inv(Next(s, o, Subscribe(i)))
  {
    var t := Next(s, o, Subscribe(i));
    forall j, x | j in t.nodes && x in t.recorded ensures Provided(t, j, t.nodes[j], x) {
      if j != i {
        OthersStayProvided(s, t, i, j, x);
      } else {
        assert Provided(s, i, s.nodes[i], x);
        if Answerable(s, i, |s.chan|, x) {
          AnswerableStays(s, t, i, |s.chan|, |t.chan|, x);
        }
      }
    }
  }

  lemma FinishKeepsInv(s: State, o: W.Options, i: InstanceId, w: WriterId, rows: nat)
    requires Inv(s) && Enabled(s, Finish(i, w, rows))
    ensures Inv(Next(s, o, Finish(i, w, rows)))
  {
    var t := Next(s, o, Finish(i, w, rows));
    var n := s.nodes[i];
    assert t.nodes[i].room.doc == n.room.doc + (n.loaded - n.room.doc);
    forall j | j in t.nodes ensures Placed(t, j, t.nodes[j]) {
      assert Placed(s, j, s.nodes[j]);
    }
    forall j, x | j in t.nodes && x in t.recorded ensures Provided(t, j, t.nodes[j], x) {
      if j != i {
        OthersStayProvided(s, t, i, j, x);
      } else {
        assert Provided(s, i, n, x);
        if Coming(s.chan, i, n.cursor, |s.chan|, x) {
          ComingGrows(s.chan, [BusMessage(BusStateRequest, i, {})], i, n.cursor, |s.chan|, x);
        } else if Answerable(s, i, |s.chan|, x) {
          AnswerableStays(s, t, i, |s.chan|, |s.chan|, x);
        }
      }
    }
  }

  lemma ClientSyncKeepsInv(s: State, o: W.Options, i: InstanceId, k: ClientId, m: Sync, bytes: nat, now: int)
    requires Inv(s) && Enabled(s, ClientSync(i, k, m, bytes, now))
    ensures Inv(Next(s, o, ClientSync(i, k, m, bytes, now)))
  {
    var t := Next(s, o, ClientSync(i, k, m, bytes, now));
    ClientSyncEffect(s, o, i, k, m, bytes, now);
    var gained := if m.Step1? then {} else m.ops - s.nodes[i].room.doc;
    assert t.chan[..|s.chan|] == s.chan;
    forall j | j in t.nodes ensures Placed(t, j, t.nodes[j]) {
      assert Placed(s, j, s.nodes[j]);
    }
    forall j, x | j in t.nodes && x in t.recorded ensures Provided(t, j, t.nodes[j], x) {
      if x in s.recorded {
        assert Provided(s, j, s.nodes[j], x);
        if j != i {
          OthersStayProvided(s, t, i, j, x);
        } else {
          OwnClientsKeepProvided(s, t, i, x);
        }
      } else {
        assert x in gained && t.chan[|s.chan|] == BusMessage(BusUpdate, i, gained);
        assert x in t.nodes[i].room.doc;
        if j != i {
          if t.nodes[j].Reading? {
            assert WillHold(t, i, |t.chan|, x);
          } else {
            assert Placed(s, j, s.nodes[j]);
            assert Coming(t.chan, j, t.nodes[j].cursor, |t.chan|, x);
          }
        }
      }
    }
  }

  lemma OwnClientsKeepProvided(s: State, t: State, i: InstanceId, x: Op)
    requires Gentle(s, t, i) && IsOpen(s, i) && IsOpen(t, i)
    requires t.nodes[i].asked == s.nodes[i].asked && Provided(s, i, s.nodes[i], x)
    ensures Provided(t, i, t.nodes[i], x)
  {
    var n := s.nodes[i];
    assert t.chan == s.chan + t.chan[|s.chan|..];
    if Coming(s.chan, i, n.cursor, |s.chan|, x) {
      ComingGrows(s.chan, t.chan[|s.chan|..], i, n.cursor, |s.chan|, x);
    }
    if Answerable(s, i, n.asked, x) {
      AnswerableStays(s, t, i, n.asked, n.asked, x);
    }
  }

  lemma JoinKeepsInv(s: State, t: State, i: InstanceId)
    requires Inv(s) && Gentle(s, t, i) && IsOpen(s, i) && IsOpen(t, i)
    requires t.chan == s.chan && t.recorded == s.recorded && t.nodes[i].asked == s.nodes[i].asked
    ensures Inv(t)
  {
    forall j | j in t.nodes ensures Placed(t, j, t.nodes[j]) {
      assert Placed(s, j, s.nodes[j]);
    }
    forall j, x | j in t.nodes && x in t.recorded ensures Provided(t, j, t.nodes[j], x) {
      assert Provided(s, j, s.nodes[j], x);
      if j != i {
        OthersStayProvided(s, t, i, j, x);
      } else {
        OwnClientsKeepProvided(s, t, i, x);
      }
    }
  }

  // -------------------------------------------------------------- a delivery

  /** What a room was going to hold, it still is, one message later, short of its own request's turn. */
  lemma DeliveredStillHolds(s: State, o: W.Options, h: InstanceId, high: nat, x: Op)
    requires Enabled(s, Deliver(h)) && WillHold(s, h, high, x) && s.nodes[h].cursor < high
    ensures WillHold(Next(s, o, Deliver(h)), h, high, x)
  {
    DeliverEffect(s, o, h);
    var t, n := Next(s, o, Deliver(h)), s.nodes[h];
    if x !in n.room.doc {
      var m :| n.cursor <= m < high && m < |s.chan| && s.chan[m].kind.BusUpdate?
               && s.chan[m].origin != h && x in s.chan[m].ops;
      assert t.chan[m] == s.chan[m];
    }
  }

  /** Another room that could answer node i still can after h takes a message, unless that message is i's request. */
  lemma DeliveredStillAnswerable(s: State, o: W.Options, h: InstanceId, i: InstanceId, high: nat, high': nat, x: Op)
    requires Enabled(s, Deliver(h)) && h != i && Answerable(s, i, high, x) && high <= high' && high <= |s.chan|
    requires IsOpen(s, h) && s.nodes[h].cursor == high ==> !WillHold(s, h, high, x)
    ensures Answerable(Next(s, o, Deliver(h)), i, high', x)
  {
    DeliverEffect(s, o, h);
    var t := Next(s, o, Deliver(h));
    var g :| g in s.nodes && g != i && WillHold(s, g, high, x);
    if g == h {
      DeliveredStillHolds(s, o, h, high, x);
      assert WillHold(t, h, high', x);
    } else {
      if x !in s.nodes[g].room.doc {
        var m :| s.nodes[g].cursor <= m < high && m < |s.chan| && s.chan[m].kind.BusUpdate?
                 && s.chan[m].origin != g && x in s.chan[m].ops;
        assert t.chan[m] == s.chan[m];
      }
      assert WillHold(t, g, high', x);
    }
  }

  /** The heart of it: when h reaches i's state request, its answer takes over what h was relied on for. */
  lemma DeliverKeepsOthers(s: State, o: W.Options, h: InstanceId, i: InstanceId, x: Op)
    requires Enabled(s, Deliver(h)) && i in s.nodes && i != h
    requires Placed(s, i, s.nodes[i]) && Provided(s, i, s.nodes[i], x)
    ensures Provided(Next(s, o, Deliver(h)), i, s.nodes[i], x)
  {
    DeliverEffect(s, o, h);
    var t, n := Next(s, o, Deliver(h)), s.nodes[i];
    var more := t.chan[|s.chan|..];
    assert t.chan == s.chan + more;
    if !n.Reading? && Coming(s.chan, i, n.cursor, |s.chan|, x) {
      ComingGrows(s.chan, more, i, n.cursor, |s.chan|, x);
    } else {
      var high := if n.Open? then n.asked else |s.chan|;
      var high' := if n.Open? then n.asked else |t.chan|;
      if Answerable(s, i, high, x) {
        if IsOpen(s, h) && s.nodes[h].cursor == high && WillHold(s, h, high, x) {
          assert n.Open? && s.chan[high] == BusMessage(BusStateRequest, i, {});
          assert x in s.nodes[h].room.doc;
          assert t.chan[|s.chan|] == BusMessage(BusUpdate, h, s.nodes[h].room.doc);
          assert Coming(t.chan, i, n.cursor, |t.chan|, x);
        } else {
          DeliveredStillAnswerable(s, o, h, i, high, high', x);
        }
      }
    }
  }

  lemma DeliverKeepsSelf(s: State, o: W.Options, h: InstanceId, x: Op)
    requires Enabled(s, Deliver(h)) && Placed(s, h, s.nodes[h]) && Provided(s, h, s.nodes[h], x)
    ensures Provided(Next(s, o, Deliver(h)), h, Next(s, o, Deliver(h)).nodes[h], x)
  {
    DeliverEffect(s, o, h);
    var t, n := Next(s, o, Deliver(h)), s.nodes[h];
    if Coming(s.chan, h, n.cursor, |s.chan|, x) {
      var m :| n.cursor <= m < |s.chan| && s.chan[m].kind.BusUpdate? && s.chan[m].origin != h && x in s.chan[m].ops;
      assert t.chan[m] == s.chan[m];
    } else {
      var high := if n.Open? then n.asked else |s.chan|;
      if Answerable(s, h, high, x) {
        var g :| g in s.nodes && g != h && WillHold(s, g, high, x);
        if x !in s.nodes[g].room.doc {
          var m :| s.nodes[g].cursor <= m < high && m < |s.chan| && s.chan[m].kind.BusUpdate?
                   && s.chan[m].origin != g && x in s.chan[m].ops;
          assert t.chan[m] == s.chan[m];
        }
        assert WillHold(t, g, if n.Open? then n.asked else |t.chan|, x);
      }
    }
  }

  lemma DeliverKeepsInv(s: State, o: W.Options, h: InstanceId)
    requires Inv(s) && Enabled(s, Deliver(h))
    ensures Inv(Next(s, o, Deliver(h)))
  {
    DeliverEffect(s, o, h);
    var t := Next(s, o, Deliver(h));
    forall i | i in t.nodes ensures Placed(t, i, t.nodes[i]) {
      assert Placed(s, i, s.nodes[i]);
    }
    forall i, x | i in t.nodes && x in t.recorded ensures Provided(t, i, t.nodes[i], x) {
      assert Placed(s, i, s.nodes[i]) && Provided(s, i, s.nodes[i], x);
      if i == h {
        DeliverKeepsSelf(s, o, h, x);
      } else {
        DeliverKeepsOthers(s, o, h, i, x);
      }
    }
  }

  /** A room nobody waits for goes without anyone missing it. */
  lemma GoneKeepsInv(s: State, t: State, h: InstanceId)
    requires Inv(s) && NobodyWaitsFor(s, h)
    requires t.nodes == s.nodes - {h} && t.chan == s.chan && t.recorded == s.recorded
    ensures Inv(t)
  {
    forall i, x | i in t.nodes && x in t.recorded ensures Provided(t, i, t.nodes[i], x) {
      assert Provided(s, i, s.nodes[i], x);
      var high := if s.nodes[i].Open? then s.nodes[i].asked else |s.chan|;
      if Answerable(s, i, high, x) {
        var g :| g in s.nodes && g != i && WillHold(s, g, high, x);
        assert g != h;
        assert WillHold(t, g, high, x);
      }
    }
    forall i | i in t.nodes ensures Placed(t, i, t.nodes[i]) {
      assert Placed(s, i, s.nodes[i]);
    }
  }

  lemma NextKeepsInv(s: State, o: W.Options, e: Event)
    requires Inv(s) && Enabled(s, e) && Careful(s, e)
    ensures Inv(Next(s, o, e))
  {
    match e
    case ReadStore(i) => ReadStoreKeepsInv(s, o, i);
    case Subscribe(i) => SubscribeKeepsInv(s, o, i);
    case Finish(i, w, rows) => FinishKeepsInv(s, o, i, w, rows);
    case Join(i, k) => JoinKeepsInv(s, Next(s, o, e), i);
    case ClientSync(i, k, m, bytes, now) => ClientSyncKeepsInv(s, o, i, k, m, bytes, now);
    case Deliver(i) => DeliverKeepsInv(s, o, i);
    case LeaveRoom(i, k) =>
      if Closes(s, e) {
        GoneKeepsInv(s, Next(s, o, e), i);
      } else {
        JoinKeepsInv(s, Next(s, o, e), i);
      }
    case Write(_, _) => SameRoomsKeepInv(s, Next(s, o, e));
    case Crash(i) => GoneKeepsInv(s, Next(s, o, e), i);
  }

  /** Cursors and state requests stay where they belong in any run, careful or not. */
  lemma NextKeepsPlaced(s: State, o: W.Options, e: Event)
    requires AllPlaced(s) && Enabled(s, e)
    ensures AllPlaced(Next(s, o, e))
  {
    if e.ClientSync? {
      ClientSyncEffect(s, o, e.i, e.k, e.message, e.bytes, e.now);
    }
    if e.Deliver? {
      DeliverEffect(s, o, e.i);
    }
    var t := Next(s, o, e);
    assert t.chan == s.chan + t.chan[|s.chan|..];
    forall i | i in t.nodes ensures Placed(t, i, t.nodes[i]) {
      assert i in s.nodes ==> Placed(s, i, s.nodes[i]);
    }
  }

  lemma NextKeepsUnpeopled(s: State, o: W.Options, e: Event)
    requires Unpeopled(s) && Enabled(s, e)
    ensures Unpeopled(Next(s, o, e))
  {
    if e.Deliver? {
      DeliverEffect(s, o, e.i);
    }
  }

  lemma SameRoomsKeepInv(s: State, t: State)
    requires Inv(s) && t.nodes == s.nodes && t.chan == s.chan && t.recorded == s.recorded
    ensures Inv(t)
  {
    forall i, x | i in t.nodes && x in t.recorded ensures Provided(t, i, t.nodes[i], x) {
      assert Provided(s, i, s.nodes[i], x);
      var high := if s.nodes[i].Open? then s.nodes[i].asked else |s.chan|;
      if Answerable(s, i, high, x) {
        var g :| g in s.nodes && g != i && WillHold(s, g, high, x);
        assert WillHold(t, g, high, x);
      }
    }
    forall i | i in t.nodes ensures Placed(t, i, t.nodes[i]) {
      assert Placed(s, i, s.nodes[i]);
    }
  }

  // ------------------------------------------------------------------ whole runs

  ghost predicate CarefulRun(s: State, o: W.Options, es: seq<Event>)
    requires Runs(s, o, es)
    decreases |es|
  {
    es == [] || (Careful(s, es[0]) && CarefulRun(Next(s, o, es[0]), o, es[1..]))
  }

  lemma {:induction false} RunKeepsInv(s: State, o: W.Options, es: seq<Event>)
    requires Inv(s) && Runs(s, o, es) && CarefulRun(s, o, es)
    ensures Inv(After(s, o, es))
    decreases |es|
  {
    if es != [] {
      NextKeepsInv(s, o, es[0]);
      RunKeepsInv(Next(s, o, es[0]), o, es[1..]);
    }
  }

  /** Every open room has read the whole channel. */
  predicate ChannelDrained(s: State) {
    forall i :: i in s.nodes && s.nodes[i].Open? ==> s.nodes[i].cursor == |s.chan|
  }

  /**
   Cluster convergence: in every careful run, once the channel is drained, every
   open room holds exactly the set of all operations ever recorded, whatever the
   order in which instances opened the document and clients edited it.
   */
  lemma ClusterConverges(s: State, o: W.Options, es: seq<Event>, i: InstanceId)
    requires Init(s) && Runs(s, o, es) && CarefulRun(s, o, es)
    requires ChannelDrained(After(s, o, es)) && IsOpen(After(s, o, es), i)
    ensures After(s, o, es).nodes[i].room.doc == After(s, o, es).recorded
  {
    RunKeepsInv(s, o, es);
    assert HeldByAll(s.writers) == {};
    RunKeepsDurable(s, o, es);
    DrainedMeansEqual(After(s, o, es), i);
  }

  lemma DrainedMeansEqual(t: State, i: InstanceId)
    requires Inv(t) && Durable(t) && ChannelDrained(t) && IsOpen(t, i)
    ensures t.nodes[i].room.doc == t.recorded
  {
    var n := t.nodes[i];
    assert Placed(t, i, n) && Known(n, t.recorded);
    forall x | x in t.recorded ensures x in n.room.doc {
      assert Provided(t, i, n, x);
    }
  }

  // --------------------------------------------------- exactly where it breaks

  /** The rest of an opening with nobody else about: subscribe, finish, a first client, its own echo. */
  function OpenedAlone(s: State, o: W.Options, i: InstanceId, w: WriterId, rows: nat, k: ClientId): (t: State)
    requires i in s.nodes && s.nodes[i].Reading? && w !in s.writers
    ensures IsOpen(t, i) && t.nodes[i].room == RoomState(s.nodes[i].loaded, [k]) && t.nodes[i].cursor == |t.chan|
    ensures t.nodes == s.nodes[i := t.nodes[i]] && t.recorded == s.recorded && t.store == s.store
  {
    var a := Next(s, o, Subscribe(i));
    var b := Next(a, o, Finish(i, w, rows));
    assert {} + (s.nodes[i].loaded - {}) == s.nodes[i].loaded;
    var c := Next(b, o, Join(i, k));
    Next(c, o, Deliver(i))
  }

  /**
   An instance that opens the document when nobody has it open ends up with
   everything if and only if the store sufficed when it was read.
   */
  lemma ColdOpenConvergesIffStoreSuffices(s: State, o: W.Options, i: InstanceId, w: WriterId, rows: nat, k: ClientId)
    requires Durable(s) && s.nodes == map[] && w !in s.writers
    ensures var t := OpenedAlone(Next(s, o, ReadStore(i)), o, i, w, rows, k);
      ChannelDrained(t) && (t.nodes[i].room.doc == t.recorded <==> StoreSuffices(s))
  {
    assert Next(s, o, ReadStore(i)).nodes == map[i := Reading(s.store)];
  }

  lemma RunStartsWith(s: State, o: W.Options, e: Event, es: seq<Event>)
    requires Enabled(s, e) && Runs(Next(s, o, e), o, es)
    ensures Runs(s, o, [e] + es) && After(s, o, [e] + es) == After(Next(s, o, e), o, es)
    ensures LosslessRun(s, o, [e] + es) <==> !Loses(s, e) && LosslessRun(Next(s, o, e), o, es)
    ensures CarefulRun(s, o, [e] + es) <==> Careful(s, e) && CarefulRun(Next(s, o, e), o, es)
  {
    assert ([e] + es)[1..] == es;
  }

  function Empty(): State {
    State([], map[], {}, map[], {}, {})
  }

  /** Instance 1 has just opened the empty document for its first client. */
  function Visited(): State {
    State([BusMessage(BusStateRequest, 1, {})], map[1 := Open(RoomState({}, [7]), 0, 0, 0)], {},
          map[0 := Keeper(1, W.Initial(0))], {}, {})
  }

  /** The client edits, then leaves. */
  function EditAndLeave(x: Op): seq<Event> {
    [ClientSync(1, 7, Update({x}), 1, 0)] + ([LeaveRoom(1, 7)] + [])
  }

  function ShortVisit(x: Op): seq<Event> {
    [ReadStore(1)] + ([Subscribe(1)] + ([Finish(1, 0, 0)] + ([Join(1, 7)] + EditAndLeave(x))))
  }

  lemma VisitEnds(o: W.Options, x: Op)
    ensures var (s, es) := (Visited(), EditAndLeave(x));
      && Runs(s, o, es) && LosslessRun(s, o, es) && CarefulRun(s, o, es)
      && var t := After(s, o, es);
      t.nodes == map[] && t.recorded == {x} && t.store == {} && t.writers.Keys == {0}
  {
    var visit := ClientSync(1, 7, Update({x}), 1, 0);
    ClientSyncEffect(Visited(), o, 1, 7, Update({x}), 1, 0);
    var e := Next(Visited(), o, visit);
    assert {x} - {} == {x} && {} + {x} == {x};
    assert e.nodes == map[1 := Open(RoomState({x}, [7]), 0, 0, 0)] && e.recorded == {x} && e.store == {};
    assert Without([7], 7) == [];
    assert Closes(e, LeaveRoom(1, 7));
    RunStartsWith(e, o, LeaveRoom(1, 7), []);
    RunStartsWith(Visited(), o, visit, [LeaveRoom(1, 7)] + []);
  }

  lemma VisitStarts(o: W.Options, es: seq<Event>)
    requires Runs(Visited(), o, es) && LosslessRun(Visited(), o, es) && CarefulRun(Visited(), o, es)
    ensures var all := [ReadStore(1)] + ([Subscribe(1)] + ([Finish(1, 0, 0)] + ([Join(1, 7)] + es)));
      && Runs(Empty(), o, all) && LosslessRun(Empty(), o, all) && CarefulRun(Empty(), o, all)
      && After(Empty(), o, all) == After(Visited(), o, es)
  {
    var a := Next(Empty(), o, ReadStore(1));
    var b := Next(a, o, Subscribe(1));
    var c := Next(b, o, Finish(1, 0, 0));
    assert c == Visited().(nodes := map[1 := Open(RoomState({}, []), 0, 0, 0)]);
    assert [] + [7] == [7];
    assert Next(c, o, Join(1, 7)) == Visited();
    RunStartsWith(c, o, Join(1, 7), es);
    RunStartsWith(b, o, Finish(1, 0, 0), [Join(1, 7)] + es);
    RunStartsWith(a, o, Subscribe(1), [Finish(1, 0, 0)] + ([Join(1, 7)] + es));
    RunStartsWith(Empty(), o, ReadStore(1), [Subscribe(1)] + ([Finish(1, 0, 0)] + ([Join(1, 7)] + es)));
  }

  /**
   The store can fail to suffice without anything going wrong: after one short
   visit the room is closed, its writer has not flushed yet, and a reopening that
   reads the store now comes up without the edit.
   */
  lemma StaleReopen(o: W.Options, x: Op)
    ensures Init(Empty()) && Runs(Empty(), o, ShortVisit(x))
    ensures LosslessRun(Empty(), o, ShortVisit(x)) && CarefulRun(Empty(), o, ShortVisit(x))
    ensures var s := After(Empty(), o, ShortVisit(x));
      && s.nodes == map[] && s.recorded == {x} && !StoreSuffices(s) && 1 !in s.writers
      && var t := OpenedAlone(Next(s, o, ReadStore(1)), o, 1, 1, 0, 8);
      ChannelDrained(t) && t.nodes[1].room.doc != t.recorded
  {
    VisitEnds(o, x);
    VisitStarts(o, EditAndLeave(x));
    var s := After(Empty(), o, ShortVisit(x));
    assert HeldByAll(Empty().writers) == {};
    RunKeepsDurable(Empty(), o, ShortVisit(x));
    assert x !in s.store;
    ColdOpenConvergesIffStoreSuffices(s, o, 1, 1, 0, 8);
  }
}
