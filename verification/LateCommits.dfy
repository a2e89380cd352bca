/**
 An append of one instance and a compaction of another
 (apps/server/src/persistence/postgres-store.ts): what happens to a row whose number
 was taken before a compaction read the log and which commits after.
 */
module LateCommits {
  import opened Crdt
  import opened Transactions

  /** Everything the tables still hold, whether or not a load looks there. */
  function Stored(db: Db): Ops {
    BaseOf(db.snapshot) + Carried(db.rows)
  }

  // ------------------------------------------------- what holds without any proviso

  ghost predicate HalfAbreast(db: Db, p: Phase) {
    && (p.Based? ==> p.base == BaseOf(db.snapshot))
    && (p.Merged? || p.Upserted? || p.Truncated? ==> BaseOf(db.snapshot) <= p.merged <= Stored(db))
  }

  /** Numbers are handed out once and one compaction at a time is past the lock. */
  ghost predicate Sound(db: Db) {
    && (forall n :: n in db.rows ==> n < db.nextSeq)
    && (forall n :: n in db.inserting ==> n < db.nextSeq && n !in db.rows)
    && (forall w: nat :: At(db, w) ==> db.holder == Some(w))
    && (forall w :: w in db.compactions ==> HalfAbreast(db, db.compactions[w]))
  }

  lemma CommitInsertStores(db: Db, n: nat)
    requires Sound(db) && Enabled(db, CommitInsert(n))
    ensures Stored(Next(db, CommitInsert(n))) == Stored(db) + db.inserting[n].ops
  {
    var after := Next(db, CommitInsert(n));
    assert after.rows[n] == db.inserting[n];
    forall o | o in Carried(db.rows) ensures o in Carried(after.rows) {
      var m :| m in db.rows && o in db.rows[m].ops;
      assert after.rows[m] == db.rows[m];
    }
    forall o | o in Carried(after.rows) ensures o in Carried(db.rows) || o in db.inserting[n].ops {
      var m :| m in after.rows && o in after.rows[m].ops;
      assert m != n ==> db.rows[m] == after.rows[m];
    }
  }

  /** What a committing compaction deletes without having read it. */
  function DeletedUnread(db: Db, e: Event): Ops {
    if e.CommitCompact? && Enabled(db, e)
    then
      var p := db.compactions[e.w];
      set n, o | n in p.doomed && n in db.rows && o in db.rows[n].ops && o !in p.merged :: o
    else {}
  }

  lemma CommitCompactStores(db: Db, w: nat)
    requires Sound(db) && Enabled(db, CommitCompact(w))
    ensures var after := Next(db, CommitCompact(w));
      Stored(after) <= Stored(db) && Stored(db) == Stored(after) + DeletedUnread(db, CommitCompact(w))
  {
    var p := db.compactions[w];
    assert HalfAbreast(db, p);
    var after := Next(db, CommitCompact(w));
    assert after.rows == db.rows - p.doomed;
    forall o | o in Carried(db.rows) ensures o in Stored(after) || o in DeletedUnread(db, CommitCompact(w)) {
      var m :| m in db.rows && o in db.rows[m].ops;
      assert m !in p.doomed ==> after.rows[m] == db.rows[m];
    }
    forall o | o in Carried(after.rows) ensures o in Carried(db.rows) {
      var m :| m in after.rows && o in after.rows[m].ops;
      assert db.rows[m] == after.rows[m];
    }
  }

  lemma OthersStore(db: Db, e: Event)
    requires Enabled(db, e) && !e.CommitInsert? && !e.CommitCompact?
    ensures Stored(Next(db, e)) == Stored(db) && Next(db, e).committed == db.committed
  {
  }

  /** What one event brings into the tables, and what it deletes unread. */
  lemma StepStores(db: Db, e: Event)
    requires Sound(db) && Enabled(db, e)
    ensures var (next, brought) := (Next(db, e), if e.CommitInsert? then db.inserting[e.n].ops else {});
      && next.committed == db.committed + brought
      && Stored(db) + brought == Stored(next) + DeletedUnread(db, e)
  {
    match e
    case CommitInsert(n) => CommitInsertStores(db, n);
    case CommitCompact(w) => CommitCompactStores(db, w);
    case _ => OthersStore(db, e);
  }

  lemma TailIsStored(db: Db, w: nat)
    requires Sound(db) && Enabled(db, ReadTail(w))
    ensures HalfAbreast(Next(db, ReadTail(w)), Next(db, ReadTail(w)).compactions[w])
  {
    assert HalfAbreast(db, db.compactions[w]);
    assert UpTo(db.rows, db.compactions[w].cutoff) <= Carried(db.rows);
  }

  lemma NextKeepsSound(db: Db, e: Event)
    requires Sound(db) && Enabled(db, e)
    ensures Sound(Next(db, e))
  {
    var after := Next(db, e);
    if e.CommitInsert? {
      CommitInsertStores(db, e.n);
    }
    if e.ReadTail? {
      TailIsStored(db, e.w);
    }
    forall v | v in after.compactions
      ensures HalfAbreast(after, after.compactions[v]) && (At(after, v) ==> after.holder == Some(v))
    {
      assert v in db.compactions ==> HalfAbreast(db, db.compactions[v]) && (At(db, v) ==> db.holder == Some(v));
    }
  }

  lemma {:induction false} RunKeepsSound(db: Db, es: seq<Event>)
    requires Sound(db) && Runs(db, es)
    ensures Sound(After(db, es))
    decreases |es|
  {
    if es != [] {
      NextKeepsSound(db, es[0]);
      RunKeepsSound(Next(db, es[0]), es[1..]);
    }
  }

  /** Everything deleted unread over a run. */
  function AllDeletedUnread(db: Db, es: seq<Event>): Ops
    requires Runs(db, es)
    decreases |es|
  {
    if es == [] then {} else DeletedUnread(db, es[0]) + AllDeletedUnread(Next(db, es[0]), es[1..])
  }

  lemma StepFollows(db: Db, e: Event, gone: Ops)
    requires Sound(db) && Enabled(db, e) && db.committed == Stored(db) + gone
    ensures Next(db, e).committed == Stored(Next(db, e)) + (gone + DeletedUnread(db, e))
  {
    StepStores(db, e);
  }

  lemma {:induction false} StoredFollows(db: Db, es: seq<Event>, gone: Ops)
    requires Sound(db) && Runs(db, es) && db.committed == Stored(db) + gone
    ensures After(db, es).committed == Stored(After(db, es)) + (gone + AllDeletedUnread(db, es))
    decreases |es|
  {
    if es != [] {
      var e, next := es[0], Next(db, es[0]);
      StepFollows(db, e, gone);
      NextKeepsSound(db, e);
      StoredFollows(next, es[1..], gone + DeletedUnread(db, e));
      assert gone + (DeletedUnread(db, e) + AllDeletedUnread(next, es[1..]))
          == gone + DeletedUnread(db, e) + AllDeletedUnread(next, es[1..]);
    }
  }

  /**
   However appends, compactions, rollbacks and loads interleave, clean or not, every
   committed operation is still in the tables or was deleted by a compaction that had
   not read it; there is no third way.
   */
  lemma NothingElseVanishes(es: seq<Event>)
    requires Runs(Initial(), es)
    ensures After(Initial(), es).committed == Stored(After(Initial(), es)) + AllDeletedUnread(Initial(), es)
  {
    assert Stored(Initial()) == {};
    StoredFollows(Initial(), es, {});
    assert {} + AllDeletedUnread(Initial(), es) == AllDeletedUnread(Initial(), es);
  }

  lemma {:induction false} CleanRunsReadWhatTheyDelete(db: Db, es: seq<Event>)
    requires Inv(db) && Runs(db, es) && CleanRun(db, es)
    ensures AllDeletedUnread(db, es) == {}
    decreases |es|
  {
    if es != [] {
      if es[0].CommitCompact? {
        var p := db.compactions[es[0].w];
        assert Abreast(db, p);
        assert forall n, o :: n in p.doomed && n in db.rows && o in db.rows[n].ops ==> o in UpTo(db.rows, p.cutoff);
      }
      NextKeepsInv(db, es[0]);
      CleanRunsReadWhatTheyDelete(Next(db, es[0]), es[1..]);
    }
  }

  // ----------------------------------------------------------- gone, and hidden

  /** Neither in the tables nor on its way there. */
  ghost predicate Gone(db: Db, o: Op) {
    o !in Stored(db) && forall n :: n in db.inserting ==> o !in db.inserting[n].ops
  }

  predicate NeverInserted(es: seq<Event>, o: Op) {
    forall e :: e in es && e.Insert? ==> o !in e.ops
  }

  /** What is gone stays gone, for every continuation that does not insert it again. */
  lemma {:induction false} GoneForGood(db: Db, es: seq<Event>, o: Op)
    requires Sound(db) && Gone(db, o) && Runs(db, es) && NeverInserted(es, o)
    ensures Gone(After(db, es), o) && o !in Content(After(db, es))
    decreases |es|
  {
    if es == [] {
      ContentIsStored(db);
    } else {
      var e := es[0];
      assert e in es;
      StepStores(db, e);
      NextKeepsSound(db, e);
      assert forall f :: f in es[1..] ==> f in es;
      GoneForGood(Next(db, e), es[1..], o);
    }
  }

  lemma ContentIsStored(db: Db)
    ensures Content(db) <= Stored(db)
  {
  }

  /**
   What is stored where no load looks comes back: the next compaction that nothing
   interrupts folds it into the snapshot, because it reads its tail without a lower
   bound.
   */
  lemma NextCompactionRestores(db: Db, w: nat, cutoff: nat)
    requires db.holder == None && w !in db.compactions && cutoff in db.rows && forall n :: n in db.rows ==> n <= cutoff
    ensures var es := FirstHalf(w, cutoff) + SecondHalf(w);
      && Runs(db, es) && Content(After(db, es)) == Stored(db)
      && After(db, es).committed == db.committed && After(db, es).inserting == db.inserting
  {
    WholeCompaction(db, w, cutoff);
  }

  // --------------------------------------------------- the fate of a late commit

  /** The operation is carried by row n and by nothing else. */
  ghost predicate Lone(db: Db, n: nat, o: Op) {
    && o !in BaseOf(db.snapshot)
    && (forall m :: m in db.rows && o in db.rows[m].ops ==> m == n)
    && (forall m :: m in db.inserting && o in db.inserting[m].ops ==> m == n)
  }

  /** A compaction that has read its tail, with an append in flight that it has not read. */
  ghost predicate Overtaken(db: Db, w: nat, n: nat, o: Op) {
    && Sound(db) && At(db, w) && db.compactions[w].Merged? && o !in db.compactions[w].merged
    && Lone(db, n, o) && n in db.inserting && o in db.inserting[n].ops
  }

  /**
   Nobody else brings the operation, append and compaction are not rolled back, and
   no further compaction gets the lock.
   */
  predicate Quiet(es: seq<Event>, w: nat, n: nat, o: Op) {
    && NeverInserted(es, o) && AbortInsert(n) !in es && AbortCompact(w) !in es
    && forall e :: e in es ==> !e.TakeLock?
  }

  /** Does the append commit while the compaction has yet to issue its delete? */
  predicate CommitsBeforeDelete(db: Db, es: seq<Event>, w: nat, n: nat)
    requires Runs(db, es)
    decreases |es|
  {
    es != [] && (CommitsNow(db, es[0], w, n) || CommitsBeforeDelete(Next(db, es[0]), es[1..], w, n))
  }

  predicate CommitsNow(db: Db, e: Event, w: nat, n: nat) {
    e == CommitInsert(n) && At(db, w) && !db.compactions[w].Truncated?
  }

  /** The row is committed, or still to commit. */
  ghost predicate Around(db: Db, n: nat, o: Op) {
    if n in db.inserting then o in db.inserting[n].ops else n in db.rows && o in db.rows[n].ops
  }

  /** Where row n stands, given whether it committed before the delete. */
  ghost predicate Following(db: Db, w: nat, n: nat, o: Op, cutoff: nat, early: bool) {
    && Sound(db) && Lone(db, n, o) && n < db.nextSeq && (early ==> n !in db.inserting)
    && if At(db, w) then
         var p := db.compactions[w];
         && (p.Merged? || p.Upserted? || p.Truncated?) && p.cutoff == cutoff && o !in p.merged && Around(db, n, o)
         && (!p.Truncated? && n !in db.inserting ==> early)
         && (p.Truncated? ==> (n in p.doomed <==> early && n <= cutoff))
       else
         && db.holder == None && db.snapshot.Some? && db.snapshot.value.through == cutoff
         && if early && n <= cutoff then n !in db.rows else Around(db, n, o)
  }

  lemma CommitKeepsFollowing(db: Db, m: nat, w: nat, n: nat, o: Op, cutoff: nat, early: bool)
    requires Following(db, w, n, o, cutoff, early) && Enabled(db, CommitInsert(m))
    ensures Following(Next(db, CommitInsert(m)), w, n, o, cutoff, early || CommitsNow(db, CommitInsert(m), w, n))
  {
    NextKeepsSound(db, CommitInsert(m));
  }

  lemma CompactionKeepsFollowing(db: Db, e: Event, w: nat, n: nat, o: Op, cutoff: nat, early: bool)
    requires Following(db, w, n, o, cutoff, early) && Enabled(db, e)
    requires e.Upsert? || e.Truncate? || e.CommitCompact?
    ensures Following(Next(db, e), w, n, o, cutoff, early)
  {
    NextKeepsSound(db, e);
    assert At(db, e.w) && db.holder == Some(e.w);
    assert e.w == w;
  }

  lemma OthersKeepFollowing(db: Db, e: Event, w: nat, n: nat, o: Op, cutoff: nat, early: bool)
    requires Following(db, w, n, o, cutoff, early) && Enabled(db, e) && Quiet([e], w, n, o)
    requires !e.CommitInsert? && !e.Upsert? && !e.Truncate? && !e.CommitCompact?
    ensures Following(Next(db, e), w, n, o, cutoff, early)
  {
    assert e in [e];
    NextKeepsSound(db, e);
  }

  lemma {:induction false} RunFollows(db: Db, es: seq<Event>, w: nat, n: nat, o: Op, cutoff: nat, early: bool)
    requires Following(db, w, n, o, cutoff, early) && Runs(db, es) && Quiet(es, w, n, o)
    ensures Following(After(db, es), w, n, o, cutoff, early || CommitsBeforeDelete(db, es, w, n))
    decreases |es|
  {
    if es != [] {
      var e, rest := es[0], es[1..];
      assert e in es && forall f :: f in rest ==> f in es;
      if e.CommitInsert? {
        CommitKeepsFollowing(db, e.n, w, n, o, cutoff, early);
      } else if e.Upsert? || e.Truncate? || e.CommitCompact? {
        CompactionKeepsFollowing(db, e, w, n, o, cutoff, early);
      } else {
        OthersKeepFollowing(db, e, w, n, o, cutoff, early);
      }
      RunFollows(Next(db, e), rest, w, n, o, cutoff, early || CommitsNow(db, e, w, n));
    }
  }

  /**
   The guard of CompactionLosesNothing is exact, and there are two ways to break it.
   Let an append be in flight when a compaction has read its tail, and let both
   commit, in whatever order and whatever else goes on until another compaction gets
   the lock. Then loads miss its operation if and only if its number is not above the
   cutoff; and it is gone from the tables if and only if, besides, it committed before
   the delete. Otherwise it is only hidden.
   */
  lemma LateCommitFate(db: Db, es: seq<Event>, w: nat, n: nat, o: Op)
    requires Overtaken(db, w, n, o) && Runs(db, es) && Quiet(es, w, n, o)
    requires !At(After(db, es), w) && n !in After(db, es).inserting
    ensures var (after, cutoff) := (After(db, es), db.compactions[w].cutoff);
      && (o in Content(after) <==> n > cutoff)
      && (o in Stored(after) <==> n > cutoff || !CommitsBeforeDelete(db, es, w, n))
      && (o !in Stored(after) ==> Gone(after, o))
  {
    var cutoff := db.compactions[w].cutoff;
    RunFollows(db, es, w, n, o, cutoff, false);
    var after := After(db, es);
    if n in after.rows {
      assert o in after.rows[n].ops ==> o in Carried(after.rows);
    }
  }

  /** An append in flight when the tail is read overtakes the compaction, whatever its number. */
  lemma TailReadIsOvertaken(db: Db, w: nat, n: nat, o: Op)
    requires Sound(db) && Enabled(db, ReadTail(w)) && o !in Stored(db)
    requires n in db.inserting && o in db.inserting[n].ops
    requires forall m :: m in db.inserting && m != n ==> o !in db.inserting[m].ops
    ensures Overtaken(Next(db, ReadTail(w)), w, n, o)
    ensures Next(db, ReadTail(w)).compactions[w].cutoff == db.compactions[w].cutoff
  {
    TailIsStored(db, w);
    NextKeepsSound(db, ReadTail(w));
    assert forall m :: m in db.rows && o in db.rows[m].ops ==> o in Carried(db.rows);
  }

  // ---------------------------------------------------------- both are within reach

  /** Two appends took numbers 1 and 2, the second has committed, and a compaction has read the log up to 2. */
  function Race(first: Ops, second: Ops): Db {
    Db(None, map[2 := Row(2, second)], map[1 := Row(1, first)], 3, map[2 := Merged(2, second)], Some(2), map[], second)
  }

  function RaceEvents(first: Ops, second: Ops): seq<Event> {
    [Insert(1, first)] + ([Insert(2, second)] + ([CommitInsert(2)] + []))
    + (FirstHalf(2, 2) + ([ReadTail(2)] + []))
  }

  lemma RaceIsReachable(first: Ops, second: Ops)
    ensures Runs(Initial(), RaceEvents(first, second))
    ensures After(Initial(), RaceEvents(first, second)) == Race(first, second)
  {
    var a := Next(Initial(), Insert(1, first));
    var b := Next(a, Insert(2, second));
    assert b == Db(None, map[], map[1 := Row(1, first), 2 := Row(2, second)], 3, map[], None, map[], {});
    var c := Next(b, CommitInsert(2));
    assert c == Db(None, map[2 := Row(2, second)], map[1 := Row(1, first)], 3, map[], None, map[], second);
    RunStartsWith(b, CommitInsert(2), []);
    RunStartsWith(a, Insert(2, second), [CommitInsert(2)] + []);
    RunStartsWith(Initial(), Insert(1, first), [Insert(2, second)] + ([CommitInsert(2)] + []));
    FirstHalfRuns(c, 2, 2);
    var d := After(c, FirstHalf(2, 2));
    assert UpTo(c.rows, 2) == second;
    assert Next(d, ReadTail(2)) == Race(first, second);
    RunStartsWith(d, ReadTail(2), []);
    RunsConcat(c, FirstHalf(2, 2), [ReadTail(2)] + []);
    RunsConcat(Initial(), [Insert(1, first)] + ([Insert(2, second)] + ([CommitInsert(2)] + [])),
               FirstHalf(2, 2) + ([ReadTail(2)] + []));
  }

  const RACED: Db := Race({Op(1, 0)}, {Op(2, 0)})
  const RACE_EVENTS: seq<Event> := RaceEvents({Op(1, 0)}, {Op(2, 0)})

  lemma RacedIsOvertaken()
    ensures Overtaken(RACED, 2, 1, Op(1, 0))
  {
    assert RACED.rows[2].ops == {Op(2, 0)} && RACED.compactions[2] == Merged(2, {Op(2, 0)});
    assert Op(2, 0) in Carried(RACED.rows);
  }

  /** The append commits before the delete, or after the compaction has committed. */
  function Finish(beforeDelete: bool): seq<Event> {
    if beforeDelete then [CommitInsert(1)] + ([Upsert(2)] + ([Truncate(2)] + ([CommitCompact(2)] + [])))
    else [Upsert(2)] + ([Truncate(2)] + ([CommitCompact(2)] + ([CommitInsert(1)] + [])))
  }

  lemma RaceLoses()
    ensures Runs(RACED, Finish(true)) && CommitsBeforeDelete(RACED, Finish(true), 2, 1)
    ensures var after := After(RACED, Finish(true));
      !At(after, 2) && after.inserting == map[] && Op(1, 0) in after.committed
  {
    var a := Next(RACED, CommitInsert(1));
    var b := Next(a, Upsert(2));
    var c := Next(b, Truncate(2));
    assert Enabled(c, CommitCompact(2));
    assert a.inserting == map[];
    RunStartsWith(c, CommitCompact(2), []);
    RunStartsWith(b, Truncate(2), [CommitCompact(2)] + []);
    RunStartsWith(a, Upsert(2), [Truncate(2)] + ([CommitCompact(2)] + []));
    RunStartsWith(RACED, CommitInsert(1), [Upsert(2)] + ([Truncate(2)] + ([CommitCompact(2)] + [])));
    assert CommitsNow(RACED, Finish(true)[0], 2, 1);
  }

  lemma RaceHides()
    ensures Runs(RACED, Finish(false)) && !CommitsBeforeDelete(RACED, Finish(false), 2, 1)
    ensures var after := After(RACED, Finish(false));
      && after.compactions == map[] && after.holder == None && after.inserting == map[]
      && after.rows.Keys == {1} && Op(1, 0) in after.committed
  {
    var a := Next(RACED, Upsert(2));
    var b := Next(a, Truncate(2));
    var c := Next(b, CommitCompact(2));
    assert b.compactions[2].doomed == {2};
    assert c.rows == map[] && c.compactions == map[];
    var d := Next(c, CommitInsert(1));
    assert d.rows.Keys == {1} && d.inserting == map[];
    RunStartsWith(c, CommitInsert(1), []);
    RunStartsWith(b, CommitCompact(2), [CommitInsert(1)] + []);
    RunStartsWith(a, Truncate(2), [CommitCompact(2)] + ([CommitInsert(1)] + []));
    RunStartsWith(RACED, Upsert(2), [Truncate(2)] + ([CommitCompact(2)] + ([CommitInsert(1)] + [])));
    assert Finish(false)[1..] == [Truncate(2)] + ([CommitCompact(2)] + ([CommitInsert(1)] + []));
    assert Finish(false)[1..][1..] == [CommitCompact(2)] + ([CommitInsert(1)] + []);
    assert Finish(false)[1..][1..][1..] == [CommitInsert(1)] + [];
    assert Finish(false)[1..][1..][1..][1..] == [];
  }

  lemma RaceGoesOn(es: seq<Event>)
    requires Runs(RACED, es)
    ensures Runs(Initial(), RACE_EVENTS + es) && After(Initial(), RACE_EVENTS + es) == After(RACED, es)
  {
    RaceIsReachable({Op(1, 0)}, {Op(2, 0)});
    RunsConcat(Initial(), RACE_EVENTS, es);
  }

  /** What both endings of the race come to. */
  lemma RaceEnds(es: seq<Event>)
    requires Runs(RACED, es) && Quiet(es, 2, 1, Op(1, 0))
    requires !At(After(RACED, es), 2) && 1 !in After(RACED, es).inserting
    ensures Op(1, 0) !in Content(After(RACED, es))
    ensures Op(1, 0) in Stored(After(RACED, es)) <==> !CommitsBeforeDelete(RACED, es, 2, 1)
    ensures Op(1, 0) !in Stored(After(RACED, es)) ==> Gone(After(RACED, es), Op(1, 0))
    ensures Sound(After(RACED, es))
  {
    RacedIsOvertaken();
    assert RACED.compactions[2].cutoff == 2;
    LateCommitFate(RACED, es, 2, 1, Op(1, 0));
    RunKeepsSound(RACED, es);
  }

  /** A loss within reach of the code: committed, deleted unread, and no continuation of any kind brings it back. */
  lemma CompactionCanLoseACommit(es: seq<Event>)
    requires Runs(After(RACED, Finish(true)), es) && NeverInserted(es, Op(1, 0))
    ensures Runs(Initial(), RACE_EVENTS + Finish(true))
    ensures var lost := After(Initial(), RACE_EVENTS + Finish(true));
      && lost == After(RACED, Finish(true))
      && Op(1, 0) in lost.committed && Op(1, 0) !in Content(After(lost, es))
  {
    RaceLoses();
    RaceGoesOn(Finish(true));
    RaceEnds(Finish(true));
    GoneForGood(After(RACED, Finish(true)), es, Op(1, 0));
  }

  /** The other way: committed, hidden from every load, and back once another compaction has run. */
  lemma CompactionCanHideACommit(w: nat)
    ensures Runs(Initial(), RACE_EVENTS + Finish(false))
    ensures var hidden := After(Initial(), RACE_EVENTS + Finish(false));
      && Op(1, 0) in hidden.committed && Op(1, 0) !in Content(hidden)
      && Runs(hidden, FirstHalf(w, 1) + SecondHalf(w))
      && Op(1, 0) in Content(After(hidden, FirstHalf(w, 1) + SecondHalf(w)))
  {
    RaceHides();
    RaceGoesOn(Finish(false));
    RaceEnds(Finish(false));
    NextCompactionRestores(After(RACED, Finish(false)), w, 1);
  }
}
