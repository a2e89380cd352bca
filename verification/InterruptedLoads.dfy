/**
 The two statements of load in apps/server/src/persistence/postgres-store.ts are not
 one: a compaction that commits between them takes the rows it folded out from under
 the second.
 */
module InterruptedLoads {
  import opened Crdt
  import opened Transactions
  import opened LateCommits

  /** What a committing compaction moves from the log into the snapshot. */
  function Folded(db: Db, e: Event): Ops {
    if e.CommitCompact? && Enabled(db, e)
    then set n, o | n in db.compactions[e.w].doomed && n in db.rows && o in db.rows[n].ops :: o
    else {}
  }

  /** What the compactions committed in a run have folded. */
  function FoldedIn(db: Db, es: seq<Event>): Ops
    requires Runs(db, es)
    decreases |es|
  {
    if es == [] then {} else Folded(db, es[0]) + FoldedIn(Next(db, es[0]), es[1..])
  }

  lemma FoldGrowsSnapshot(db: Db, e: Event)
    requires Inv(db) && Enabled(db, e)
    ensures BaseOf(Next(db, e).snapshot) == BaseOf(db.snapshot) + Folded(db, e)
  {
    if e.CommitCompact? {
      var p := db.compactions[e.w];
      assert Abreast(db, p);
      assert Folded(db, e) == UpTo(db.rows, p.cutoff);
    }
  }

  lemma {:induction false} FoldsGrowSnapshot(db: Db, es: seq<Event>)
    requires Inv(db) && Runs(db, es) && CleanRun(db, es)
    ensures BaseOf(After(db, es).snapshot) == BaseOf(db.snapshot) + FoldedIn(db, es)
    decreases |es|
  {
    if es != [] {
      FoldGrowsSnapshot(db, es[0]);
      NextKeepsInv(db, es[0]);
      FoldsGrowSnapshot(Next(db, es[0]), es[1..]);
    }
  }

  /** Every load between its statements read a snapshot no newer than the current one. */
  ghost predicate LoadsBehind(db: Db) {
    forall l :: l in db.loads ==> Through(db.loads[l]) <= Through(db.snapshot)
  }

  lemma NextKeepsLoadsBehind(db: Db, e: Event)
    requires Inv(db) && LoadsBehind(db) && Enabled(db, e)
    ensures LoadsBehind(Next(db, e))
  {
    if e.CommitCompact? {
      assert Abreast(db, db.compactions[e.w]);
    }
  }

  lemma {:induction false} RunKeepsLoadsBehind(db: Db, es: seq<Event>)
    requires Inv(db) && LoadsBehind(db) && Runs(db, es) && CleanRun(db, es)
    ensures LoadsBehind(After(db, es))
    decreases |es|
  {
    if es != [] {
      NextKeepsLoadsBehind(db, es[0]);
      NextKeepsInv(db, es[0]);
      RunKeepsLoadsBehind(Next(db, es[0]), es[1..]);
    }
  }

  /** A load between its statements holds on to what it read. */
  lemma {:induction false} LoadHoldsOn(db: Db, es: seq<Event>, l: nat)
    requires Runs(db, es) && l in db.loads && LoadTail(l) !in es
    ensures l in After(db, es).loads && After(db, es).loads[l] == db.loads[l]
    decreases |es|
  {
    if es != [] {
      assert es[0] in es && forall e :: e in es[1..] ==> e in es;
      LoadHoldsOn(Next(db, es[0]), es[1..], l);
    }
  }

  /** A run up to a load's first statement, and on from there while it waits for its second. */
  predicate LoadWaits(before: seq<Event>, l: nat, during: seq<Event>) {
    && Runs(Initial(), before) && Enabled(After(Initial(), before), LoadSnapshot(l))
    && Runs(Begun(before, l), during) && LoadTail(l) !in during
  }

  /** The same where no compaction reads its tail over the head of an append in flight. */
  predicate LoadUnderWay(before: seq<Event>, l: nat, during: seq<Event>) {
    && LoadWaits(before, l, during)
    && CleanRun(Initial(), before) && CleanRun(Begun(before, l), during)
  }

  /** The database as the load's first statement leaves it. */
  function Begun(before: seq<Event>, l: nat): Db
    requires Runs(Initial(), before) && Enabled(After(Initial(), before), LoadSnapshot(l))
  {
    Next(After(Initial(), before), LoadSnapshot(l))
  }

  // ---------------------------------------------------------------- in every run

  /** The snapshots committed in a run. */
  function MergedIn(db: Db, es: seq<Event>): Ops
    requires Runs(db, es)
    decreases |es|
  {
    if es == [] then {}
    else
      (if es[0].CommitCompact? then db.compactions[es[0].w].merged else {}) + MergedIn(Next(db, es[0]), es[1..])
  }

  lemma {:induction false} CommittedGrows(db: Db, es: seq<Event>)
    requires Runs(db, es)
    ensures db.committed <= After(db, es).committed
    decreases |es|
  {
    if es != [] {
      CommittedGrows(Next(db, es[0]), es[1..]);
    }
  }

  /** Snapshots hold nothing but what was committed, and the current one is the last of them. */
  lemma {:induction false} SnapshotsAreMerged(db: Db, es: seq<Event>, gone: Ops)
    requires Sound(db) && Runs(db, es) && db.committed == Stored(db) + gone
    ensures MergedIn(db, es) <= After(db, es).committed
    ensures BaseOf(After(db, es).snapshot) <= BaseOf(db.snapshot) + MergedIn(db, es)
    decreases |es|
  {
    if es != [] {
      var e := es[0];
      if e.CommitCompact? {
        assert HalfAbreast(db, db.compactions[e.w]);
        CommittedGrows(db, es);
      }
      StepFollows(db, e, gone);
      NextKeepsSound(db, e);
      SnapshotsAreMerged(Next(db, e), es[1..], gone + DeletedUnread(db, e));
    }
  }

  /** Everything deleted unread from the beginning, the stretch before the load included. */
  function DeletedSoFar(before: seq<Event>, l: nat, during: seq<Event>): Ops
    requires LoadWaits(before, l, during)
  {
    AllDeletedUnread(Initial(), before) + AllDeletedUnread(Begun(before, l), during)
  }

  lemma WaitsSoundly(before: seq<Event>, l: nat, during: seq<Event>)
    requires LoadWaits(before, l, during)
    ensures var (s, db) := (Begun(before, l), After(Begun(before, l), during));
      && Sound(s) && Sound(db) && l in db.loads && db.loads[l] == s.snapshot
      && s.committed == Stored(s) + AllDeletedUnread(Initial(), before)
      && db.committed == Stored(db) + DeletedSoFar(before, l, during)
  {
    var a := After(Initial(), before);
    NothingElseVanishes(before);
    RunKeepsSound(Initial(), before);
    NextKeepsSound(a, LoadSnapshot(l));
    OthersStore(a, LoadSnapshot(l));
    RunKeepsSound(Begun(before, l), during);
    StoredFollows(Begun(before, l), during, AllDeletedUnread(Initial(), before));
    LoadHoldsOn(Begun(before, l), during, l);
  }

  lemma RowsSplit(rows: map<nat, Row>, low: nat)
    ensures Carried(rows) == UpTo(rows, low) + Above(rows, low)
  {
  }

  /**
   In every run, clean or not: a load misses exactly what compactions committed since
   its first statement put into their snapshots, what was deleted unread, and what
   rows at or below the snapshot it read carry, so far as it does not return it all
   the same. It returns nothing uncommitted.
   */
  lemma LoadMissesExactly(before: seq<Event>, l: nat, during: seq<Event>)
    requires LoadWaits(before, l, during)
    ensures var (s, db) := (Begun(before, l), After(Begun(before, l), during));
      var hidden := UpTo(db.rows, Through(s.snapshot));
      && l in db.loads && LoadedWith(db, db.loads[l]) <= db.committed
      && db.committed - LoadedWith(db, db.loads[l])
         == MergedIn(s, during) + DeletedSoFar(before, l, during) + hidden - LoadedWith(db, db.loads[l])
  {
    WaitsSoundly(before, l, during);
    var s, db := Begun(before, l), After(Begun(before, l), during);
    SnapshotsAreMerged(s, during, AllDeletedUnread(Initial(), before));
    CommittedGrows(s, during);
    RowsSplit(db.rows, Through(s.snapshot));
    var loaded := LoadedWith(db, db.loads[l]);
    assert loaded == BaseOf(s.snapshot) + Above(db.rows, Through(s.snapshot));
    assert BaseOf(s.snapshot) <= Stored(s) <= s.committed;
    assert Carried(db.rows) <= Stored(db) <= db.committed;
  }

  /** A load nothing interrupts misses what is hidden and what is gone, and nothing else. */
  lemma UninterruptedLoadMisses(before: seq<Event>, l: nat, during: seq<Event>)
    requires LoadWaits(before, l, during) && forall e :: e in during ==> !e.CommitCompact?
    ensures var (s, db) := (Begun(before, l), After(Begun(before, l), during));
      var hidden := UpTo(db.rows, Through(s.snapshot));
      && l in db.loads
      && (LoadedWith(db, db.loads[l]) == db.committed
          <==> DeletedSoFar(before, l, during) + hidden <= LoadedWith(db, db.loads[l]))
  {
    LoadMissesExactly(before, l, during);
    NothingMerged(Begun(before, l), during);
    var s, db := Begun(before, l), After(Begun(before, l), during);
    var lacking := DeletedSoFar(before, l, during) + UpTo(db.rows, Through(s.snapshot));
    assert {} + lacking == lacking;
    NothingMissingIff(LoadedWith(db, db.loads[l]), db.committed);
    NothingMissingIff(LoadedWith(db, db.loads[l]), lacking);
  }

  lemma {:induction false} NothingMerged(db: Db, es: seq<Event>)
    requires Runs(db, es) && forall e :: e in es ==> !e.CommitCompact?
    ensures MergedIn(db, es) == {}
    decreases |es|
  {
    if es != [] {
      assert es[0] in es && forall e :: e in es[1..] ==> e in es;
      NothingMerged(Next(db, es[0]), es[1..]);
    }
  }

  // ---------------------------------------------------------------- in clean runs

  lemma UnderWay(before: seq<Event>, l: nat, during: seq<Event>)
    requires LoadUnderWay(before, l, during)
    ensures var (s, db) := (Begun(before, l), After(Begun(before, l), during));
      && Inv(s) && Inv(db) && LoadsBehind(db) && l in db.loads && db.loads[l] == s.snapshot
  {
    assert Content(Initial()) == {};
    RunKeepsInv(Initial(), before);
    RunKeepsLoadsBehind(Initial(), before);
    var s := Begun(before, l);
    NextKeepsInv(After(Initial(), before), LoadSnapshot(l));
    NextKeepsLoadsBehind(After(Initial(), before), LoadSnapshot(l));
    RunKeepsInv(s, during);
    RunKeepsLoadsBehind(s, during);
    LoadHoldsOn(s, during, l);
  }

  /**
   In every clean run exactly this is missing from what a load returns: what
   compactions that committed since its first statement have folded, and that neither
   the snapshot it read nor a surviving row holds as well.
   */
  lemma LoadMissesWhatWasFoldedBetween(before: seq<Event>, l: nat, during: seq<Event>)
    requires LoadUnderWay(before, l, during)
    ensures var (s, db) := (Begun(before, l), After(Begun(before, l), during));
      && l in db.loads && LoadedWith(db, db.loads[l]) <= db.committed
      && db.committed - LoadedWith(db, db.loads[l]) == FoldedIn(s, during) - (BaseOf(s.snapshot) + Carried(db.rows))
  {
    UnderWay(before, l, during);
    var s, db := Begun(before, l), After(Begun(before, l), during);
    FoldsGrowSnapshot(s, during);
    assert Through(db.loads[l]) <= Through(db.snapshot);
    assert Above(db.rows, Through(db.snapshot)) == Carried(db.rows);
    assert Above(db.rows, Through(db.loads[l])) == Carried(db.rows);
    assert db.committed == BaseOf(s.snapshot) + FoldedIn(s, during) + Carried(db.rows);
  }

  /** So in clean runs a load returns everything committed if and only if all of that is held elsewhere. */
  lemma LoadReturnsEverythingIff(before: seq<Event>, l: nat, during: seq<Event>)
    requires LoadUnderWay(before, l, during)
    ensures var (s, db) := (Begun(before, l), After(Begun(before, l), during));
      && l in db.loads
      && (LoadedWith(db, db.loads[l]) == db.committed
          <==> FoldedIn(s, during) <= BaseOf(s.snapshot) + Carried(db.rows))
  {
    LoadMissesWhatWasFoldedBetween(before, l, during);
    var s, db := Begun(before, l), After(Begun(before, l), during);
    NothingMissingIff(LoadedWith(db, db.loads[l]), db.committed);
    NothingMissingIff(BaseOf(s.snapshot) + Carried(db.rows), FoldedIn(s, during));
  }

  lemma NothingMissingIff(a: Ops, b: Ops)
    ensures b - a == {} <==> b <= a
    ensures a <= b ==> (b - a == {} <==> a == b)
  {
    if b - a == {} {
      forall o | o in b ensures o in a {
        assert o !in b - a;
      }
    }
  }

  lemma {:induction false} NothingFolded(db: Db, es: seq<Event>)
    requires Runs(db, es) && forall e :: e in es ==> !e.CommitCompact?
    ensures FoldedIn(db, es) == {}
    decreases |es|
  {
    if es != [] {
      assert es[0] in es && forall e :: e in es[1..] ==> e in es;
      NothingFolded(Next(db, es[0]), es[1..]);
    }
  }

  /** In particular when no compaction committed in between. */
  lemma LoadIsExactWithoutCompaction(before: seq<Event>, l: nat, during: seq<Event>)
    requires LoadUnderWay(before, l, during) && forall e :: e in during ==> !e.CommitCompact?
    ensures var db := After(Begun(before, l), during);
      l in db.loads && LoadedWith(db, db.loads[l]) == db.committed
  {
    LoadReturnsEverythingIff(before, l, during);
    NothingFolded(Begun(before, l), during);
  }

  // ------------------------------------------------------- a miss within reach

  function OneRow(x: Op): seq<Event> {
    [Insert(1, {x})] + ([CommitInsert(1)] + [])
  }

  lemma OneRowRuns(x: Op)
    ensures Runs(Initial(), OneRow(x)) && CleanRun(Initial(), OneRow(x))
    ensures After(Initial(), OneRow(x)) == Initial().(rows := map[1 := Row(1, {x})], nextSeq := 2, committed := {x})
  {
    var a := Next(Initial(), Insert(1, {x}));
    assert a == Initial().(inserting := map[1 := Row(1, {x})], nextSeq := 2);
    var b := Next(a, CommitInsert(1));
    assert b == Initial().(rows := map[1 := Row(1, {x})], nextSeq := 2, committed := {x});
    RunStartsWith(a, CommitInsert(1), []);
    RunStartsWith(Initial(), Insert(1, {x}), [CommitInsert(1)] + []);
  }

  /**
   A miss within reach of the code: one committed row, a load reads that there is no
   snapshot, a whole compaction goes by, and the load comes back empty-handed.
   */
  lemma LoadCanMissACommit(x: Op)
    ensures LoadUnderWay(OneRow(x), 0, FirstHalf(1, 1) + SecondHalf(1))
    ensures var db := After(Begun(OneRow(x), 0), FirstHalf(1, 1) + SecondHalf(1));
      0 in db.loads && db.committed == {x} && LoadedWith(db, db.loads[0]) == {}
  {
    OneRowRuns(x);
    var s := Begun(OneRow(x), 0);
    WholeCompaction(s, 1, 1);
    assert LoadTail(0) !in FirstHalf(1, 1) + SecondHalf(1);
  }
}
