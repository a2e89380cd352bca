/**
 apps/server/src/persistence/postgres-store.ts as several instances use it at once
 on one document. Every SQL statement is a step of its own; statements see what
 has committed (READ COMMITTED), and what a transaction writes shows at its commit.
 An append takes its sequence number when the row is inserted, before it commits.
 */
module Transactions {
  import opened Crdt

  datatype Row = Row(author: nat, ops: Ops)

  datatype Snapshot = Snapshot(state: Ops, through: nat)

  /** How far a compacting transaction has got. */
  datatype Phase =
    | Waiting
    | Locked
    | Cut(cutoff: nat)
    | Based(cutoff: nat, base: Ops)
    | Merged(cutoff: nat, merged: Ops)
    | Upserted(cutoff: nat, merged: Ops)
    | Truncated(cutoff: nat, merged: Ops, doomed: set<nat>)

  /**
   `inserting` are rows inserted and not yet committed; `loads` are reads between
   their two statements; `committed` is the history of every committed append.
   */
  datatype Db = Db(
    snapshot: Option<Snapshot>,
    rows: map<nat, Row>,
    inserting: map<nat, Row>,
    nextSeq: nat,
    compactions: map<nat, Phase>,
    holder: Option<nat>,
    loads: map<nat, Option<Snapshot>>,
    committed: Ops)

  datatype Event =
    | Insert(author: nat, ops: Ops)
    | CommitInsert(n: nat)
    | AbortInsert(n: nat)
    | BeginCompact(w: nat)
    | TakeLock(w: nat)
    | FindNothing(w: nat)
    | ReadCutoff(w: nat, cutoff: nat)
    | ReadSnapshot(w: nat)
    | ReadTail(w: nat)
    | Upsert(w: nat)
    | Truncate(w: nat)
    | CommitCompact(w: nat)
    | AbortCompact(w: nat)
    | LoadSnapshot(l: nat)
    | LoadTail(l: nat)

  function BaseOf(s: Option<Snapshot>): Ops {
    if s.Some? then s.value.state else {}
  }

  function Through(s: Option<Snapshot>): nat {
    if s.Some? then s.value.through else 0
  }

  /** What the rows numbered above `low` carry. */
  function Above(rows: map<nat, Row>, low: nat): Ops {
    set n, o | n in rows && n > low && o in rows[n].ops :: o
  }

  function UpTo(rows: map<nat, Row>, high: nat): Ops {
    set n, o | n in rows && n <= high && o in rows[n].ops :: o
  }

  /** What a load that read `base` gets when its second statement runs. */
  function LoadedWith(db: Db, base: Option<Snapshot>): Ops {
    BaseOf(base) + Above(db.rows, Through(base))
  }

  /** What a load that nothing interrupts returns. */
  function Content(db: Db): Ops {
    LoadedWith(db, db.snapshot)
  }

  predicate At(db: Db, w: nat) {
    w in db.compactions && !db.compactions[w].Waiting?
  }

  predicate Enabled(db: Db, e: Event) {
    match e
    case Insert(_, _) => true
    case CommitInsert(n) => n in db.inserting
    case AbortInsert(n) => n in db.inserting
    case BeginCompact(w) => w !in db.compactions
    case TakeLock(w) => w in db.compactions && db.compactions[w].Waiting? && db.holder == None
    case FindNothing(w) => At(db, w) && db.compactions[w].Locked? && db.rows == map[]
    case ReadCutoff(w, c) =>
      At(db, w) && db.compactions[w].Locked? && c in db.rows && forall n :: n in db.rows ==> n <= c
    case ReadSnapshot(w) => At(db, w) && db.compactions[w].Cut?
    case ReadTail(w) => At(db, w) && db.compactions[w].Based?
    case Upsert(w) => At(db, w) && db.compactions[w].Merged?
    case Truncate(w) => At(db, w) && db.compactions[w].Upserted?
    case CommitCompact(w) => At(db, w) && db.compactions[w].Truncated?
    case AbortCompact(w) => w in db.compactions
    case LoadSnapshot(l) => l !in db.loads
    case LoadTail(l) => l in db.loads
  }

  /** The end of a compacting transaction, however it ends, gives the lock back. */
  function Ended(db: Db, w: nat): Db {
    db.(compactions := db.compactions - {w}, holder := if db.holder == Some(w) then None else db.holder)
  }

  function Moved(db: Db, w: nat, p: Phase): Db {
    db.(compactions := db.compactions[w := p])
  }

  function Next(db: Db, e: Event): Db
    requires Enabled(db, e)
  {
    match e
    case Insert(author, ops) =>
      db.(inserting := db.inserting[db.nextSeq := Row(author, ops)], nextSeq := db.nextSeq + 1)
    case CommitInsert(n) =>
      db.(inserting := db.inserting - {n}, rows := db.rows[n := db.inserting[n]],
          committed := db.committed + db.inserting[n].ops)
    case AbortInsert(n) => db.(inserting := db.inserting - {n})
    case BeginCompact(w) => Moved(db, w, Waiting)
    case TakeLock(w) => Moved(db, w, Locked).(holder := Some(w))
    case FindNothing(w) => Ended(db, w)
    case ReadCutoff(w, c) => Moved(db, w, Cut(c))
    case ReadSnapshot(w) => Moved(db, w, Based(db.compactions[w].cutoff, BaseOf(db.snapshot)))
    case ReadTail(w) =>
      var p := db.compactions[w];
      Moved(db, w, Merged(p.cutoff, p.base + UpTo(db.rows, p.cutoff)))
    case Upsert(w) => Moved(db, w, Upserted(db.compactions[w].cutoff, db.compactions[w].merged))
    case Truncate(w) =>
      var p := db.compactions[w];
      Moved(db, w, Truncated(p.cutoff, p.merged, set n | n in db.rows && n <= p.cutoff))
    case CommitCompact(w) =>
      var p := db.compactions[w];
      Ended(db.(snapshot := Some(Snapshot(p.merged, p.cutoff)), rows := db.rows - p.doomed), w)
    case AbortCompact(w) => Ended(db, w)
    case LoadSnapshot(l) => db.(loads := db.loads[l := db.snapshot])
    case LoadTail(l) => db.(loads := db.loads - {l})
  }

  function Initial(): Db {
    Db(None, map[], map[], 1, map[], None, map[], {})
  }

  /**
   The condition everything hangs on: when a compaction reads the rows up to its
   cutoff, no append still in flight holds a number at or below it. An append that
   takes its number at its commit meets it always.
   */
  predicate CleanTail(db: Db, e: Event) {
    e.ReadTail? && e.w in db.compactions && db.compactions[e.w].Based? ==>
      forall n :: n in db.inserting ==> n > db.compactions[e.w].cutoff
  }

  // ---------------------------------------------------------------- the invariant

  /** What a compacting transaction knows stays true until it commits. */
  ghost predicate Abreast(db: Db, p: Phase) {
    && (!p.Waiting? && !p.Locked? ==> p.cutoff < db.nextSeq && Through(db.snapshot) <= p.cutoff)
    && (p.Based? ==> p.base == BaseOf(db.snapshot))
    && (p.Merged? || p.Upserted? || p.Truncated? ==>
          && p.merged == BaseOf(db.snapshot) + UpTo(db.rows, p.cutoff)
          && forall n :: n in db.inserting ==> n > p.cutoff)
    && (p.Truncated? ==> p.doomed == set n | n in db.rows && n <= p.cutoff)
  }

  ghost predicate Inv(db: Db) {
    && (forall n :: n in db.rows ==> Through(db.snapshot) < n < db.nextSeq)
    && (forall n :: n in db.inserting ==> Through(db.snapshot) < n < db.nextSeq && n !in db.rows)
    && Through(db.snapshot) < db.nextSeq
    && (forall w: nat :: At(db, w) ==> db.holder == Some(w))
    && (forall w :: w in db.compactions ==> Abreast(db, db.compactions[w]))
    && Content(db) == db.committed
  }

  lemma CommitInsertKeepsInv(db: Db, n: nat)
    requires Inv(db) && Enabled(db, CommitInsert(n))
    ensures Inv(Next(db, CommitInsert(n)))
  {
    var after := Next(db, CommitInsert(n));
    assert after.rows[n] == db.inserting[n];
    forall o ensures o in Above(after.rows, Through(db.snapshot))
               <==> o in Above(db.rows, Through(db.snapshot)) || o in db.inserting[n].ops {
      if o in Above(db.rows, Through(db.snapshot)) {
        var m :| m in db.rows && m > Through(db.snapshot) && o in db.rows[m].ops;
        assert after.rows[m] == db.rows[m];
      }
    }
    forall w | w in after.compactions ensures Abreast(after, after.compactions[w]) {
      var p := db.compactions[w];
      assert Abreast(db, p);
      if p.Merged? || p.Upserted? || p.Truncated? {
        assert n > p.cutoff;
        SameUpTo(db.rows, after.rows, p.cutoff);
      }
    }
  }

  lemma SameUpTo(rows: map<nat, Row>, after: map<nat, Row>, high: nat)
    requires forall n :: n <= high ==> (n in rows <==> n in after) && (n in rows ==> after[n] == rows[n])
    ensures UpTo(rows, high) == UpTo(after, high)
    ensures (set n | n in rows && n <= high) == (set n | n in after && n <= high)
  {
    forall o ensures o in UpTo(rows, high) <==> o in UpTo(after, high) {
      if o in UpTo(rows, high) {
        var n :| n in rows && n <= high && o in rows[n].ops;
        assert after[n] == rows[n];
      }
      if o in UpTo(after, high) {
        var n :| n in after && n <= high && o in after[n].ops;
        assert rows[n] == after[n];
      }
    }
  }

  /** Moving the rows up to the cutoff into the snapshot changes nothing a load can see. */
  lemma FoldKeepsContent(db: Db, p: Phase)
    requires p.Truncated? && Abreast(db, p)
    requires forall n :: n in db.rows ==> Through(db.snapshot) < n
    ensures p.merged + Above(db.rows - p.doomed, p.cutoff) == Content(db)
  {
    var kept := db.rows - p.doomed;
    forall o ensures o in p.merged + Above(kept, p.cutoff) <==> o in Content(db) {
      if o in Above(db.rows, Through(db.snapshot)) {
        var n :| n in db.rows && o in db.rows[n].ops;
        assert n > p.cutoff ==> kept[n] == db.rows[n];
      }
      if o in Above(kept, p.cutoff) {
        var n :| n in kept && n > p.cutoff && o in kept[n].ops;
        assert db.rows[n] == kept[n];
      }
    }
  }

  lemma CommitCompactKeepsInv(db: Db, w: nat)
    requires Inv(db) && Enabled(db, CommitCompact(w))
    ensures Inv(Next(db, CommitCompact(w)))
  {
    var p := db.compactions[w];
    assert Abreast(db, p);
    FoldKeepsContent(db, p);
    var after := Next(db, CommitCompact(w));
    forall v | v in after.compactions ensures Abreast(after, after.compactions[v]) {
      assert !At(db, v);
    }
  }

  /** Steps inside one compacting transaction touch nothing but that transaction. */
  lemma MovedKeepsInv(db: Db, w: nat, p: Phase)
    requires Inv(db) && At(db, w) && !p.Waiting? && Abreast(db, p)
    ensures Inv(Moved(db, w, p))
  {
    var after := Moved(db, w, p);
    forall v | v in after.compactions ensures Abreast(after, after.compactions[v]) {
      assert v != w ==> Abreast(db, db.compactions[v]);
    }
    forall v: nat | At(after, v) ensures after.holder == Some(v) {
      assert v != w ==> At(db, v);
    }
  }

  lemma EndedKeepsInv(db: Db, w: nat)
    requires Inv(db) && w in db.compactions
    ensures Inv(Ended(db, w))
  {
    var after := Ended(db, w);
    forall v | v in after.compactions
      ensures Abreast(after, after.compactions[v]) && (At(after, v) ==> after.holder == Some(v))
    {
      assert Abreast(db, db.compactions[v]);
      assert At(after, v) ==> At(db, v);
    }
  }

  /** An append in flight, however it ends unless by committing, moves no document. */
  lemma InFlightKeepsInv(db: Db, e: Event)
    requires Inv(db) && Enabled(db, e) && (e.Insert? || e.AbortInsert?)
    ensures Inv(Next(db, e))
  {
    var after := Next(db, e);
    forall v | v in after.compactions ensures Abreast(after, after.compactions[v]) {
      assert Abreast(db, db.compactions[v]);
    }
    forall v: nat | At(after, v) ensures after.holder == Some(v) {
      assert At(db, v);
    }
  }

  lemma NextKeepsInv(db: Db, e: Event)
    requires Inv(db) && Enabled(db, e) && CleanTail(db, e)
    ensures Inv(Next(db, e))
  {
    match e
    case Insert(_, _) => InFlightKeepsInv(db, e);
    case AbortInsert(_) => InFlightKeepsInv(db, e);
    case CommitInsert(n) => CommitInsertKeepsInv(db, n);
    case BeginCompact(w) =>
      var after := Next(db, e);
      forall v | v in after.compactions
        ensures Abreast(after, after.compactions[v]) && (At(after, v) ==> after.holder == Some(v))
      {
        assert v != w ==> Abreast(db, db.compactions[v]) && (At(after, v) ==> At(db, v));
      }
    case TakeLock(w) =>
      var after := Next(db, e);
      forall v | v in after.compactions
        ensures Abreast(after, after.compactions[v]) && (At(after, v) ==> after.holder == Some(v))
      {
        assert v != w ==> Abreast(db, db.compactions[v]) && (At(after, v) ==> At(db, v));
      }
    case FindNothing(w) => EndedKeepsInv(db, w);
    case ReadCutoff(w, c) => MovedKeepsInv(db, w, Cut(c));
    case ReadSnapshot(w) => MovedKeepsInv(db, w, Next(db, e).compactions[w]);
    case ReadTail(w) => MovedKeepsInv(db, w, Next(db, e).compactions[w]);
    case Upsert(w) => MovedKeepsInv(db, w, Next(db, e).compactions[w]);
    case Truncate(w) => MovedKeepsInv(db, w, Next(db, e).compactions[w]);
    case CommitCompact(w) => CommitCompactKeepsInv(db, w);
    case AbortCompact(w) => EndedKeepsInv(db, w);
    case LoadSnapshot(l) =>
      var after := Next(db, e);
      forall v | v in after.compactions
        ensures Abreast(after, after.compactions[v]) && (At(after, v) ==> after.holder == Some(v))
      {
        assert Abreast(db, db.compactions[v]) && (At(after, v) ==> At(db, v));
      }
    case LoadTail(l) =>
      var after := Next(db, e);
      forall v | v in after.compactions
        ensures Abreast(after, after.compactions[v]) && (At(after, v) ==> after.holder == Some(v))
      {
        assert Abreast(db, db.compactions[v]) && (At(after, v) ==> At(db, v));
      }
  }

  // ------------------------------------------------------------------ whole runs

  predicate Runs(db: Db, es: seq<Event>)
    decreases |es|
  {
    es == [] || (Enabled(db, es[0]) && Runs(Next(db, es[0]), es[1..]))
  }

  function After(db: Db, es: seq<Event>): Db
    requires Runs(db, es)
    decreases |es|
  {
    if es == [] then db else After(Next(db, es[0]), es[1..])
  }

  predicate CleanRun(db: Db, es: seq<Event>)
    requires Runs(db, es)
    decreases |es|
  {
    es == [] || (CleanTail(db, es[0]) && CleanRun(Next(db, es[0]), es[1..]))
  }

  lemma {:induction false} RunKeepsInv(db: Db, es: seq<Event>)
    requires Inv(db) && Runs(db, es) && CleanRun(db, es)
    ensures Inv(After(db, es))
    decreases |es|
  {
    if es != [] {
      NextKeepsInv(db, es[0]);
      RunKeepsInv(Next(db, es[0]), es[1..]);
    }
  }

  /**
   Compaction under concurrent appends: however appends, compactions, rollbacks and
   loads of several instances interleave, the snapshot with the rows above it is
   everything ever committed, and no row is left at or below the snapshot.
   */
  lemma CompactionLosesNothing(es: seq<Event>)
    requires Runs(Initial(), es) && CleanRun(Initial(), es)
    ensures var db := After(Initial(), es);
      Content(db) == db.committed && forall n :: n in db.rows ==> n > Through(db.snapshot)
  {
    assert Content(Initial()) == {};
    RunKeepsInv(Initial(), es);
  }

  /** Rolling back, at whatever statement, leaves the document as it was. */
  lemma RollbackChangesNothing(db: Db, e: Event)
    requires Enabled(db, e) && (e.AbortCompact? || e.AbortInsert?)
    ensures Next(db, e).snapshot == db.snapshot && Next(db, e).rows == db.rows && Next(db, e).committed == db.committed
    ensures e.AbortCompact? ==> Next(db, e).holder != Some(e.w) && e.w !in Next(db, e).compactions
  {
  }

  lemma {:induction false} RunsConcat(db: Db, a: seq<Event>, b: seq<Event>)
    requires Runs(db, a) && Runs(After(db, a), b)
    ensures Runs(db, a + b) && After(db, a + b) == After(After(db, a), b)
    ensures CleanRun(db, a + b) <==> CleanRun(db, a) && CleanRun(After(db, a), b)
    decreases |a|
  {
    if a == [] {
      assert [] + b == b;
    } else {
      RunsConcat(Next(db, a[0]), a[1..], b);
      assert (a + b)[1..] == a[1..] + b;
    }
  }

  lemma RunStartsWith(db: Db, e: Event, es: seq<Event>)
    requires Enabled(db, e) && Runs(Next(db, e), es)
    ensures Runs(db, [e] + es) && After(db, [e] + es) == After(Next(db, e), es)
    ensures CleanRun(db, [e] + es) <==> CleanTail(db, e) && CleanRun(Next(db, e), es)
  {
    assert ([e] + es)[1..] == es;
  }

  // ------------------------------------------------ one compaction, undisturbed

  /** A compaction up to the point where it reads its tail, and from there to its commit. */
  function FirstHalf(w: nat, cutoff: nat): seq<Event> {
    [BeginCompact(w)] + ([TakeLock(w)] + ([ReadCutoff(w, cutoff)] + ([ReadSnapshot(w)] + [])))
  }

  function SecondHalf(w: nat): seq<Event> {
    [ReadTail(w)] + ([Upsert(w)] + ([Truncate(w)] + ([CommitCompact(w)] + [])))
  }

  lemma FirstHalfRuns(db: Db, w: nat, cutoff: nat)
    requires db.holder == None && w !in db.compactions && cutoff in db.rows && forall n :: n in db.rows ==> n <= cutoff
    ensures Runs(db, FirstHalf(w, cutoff)) && CleanRun(db, FirstHalf(w, cutoff))
    ensures After(db, FirstHalf(w, cutoff))
         == db.(compactions := db.compactions[w := Based(cutoff, BaseOf(db.snapshot))], holder := Some(w))
  {
    var a := Next(db, BeginCompact(w));
    var b := Next(a, TakeLock(w));
    assert b == db.(compactions := db.compactions[w := Locked], holder := Some(w));
    var c := Next(b, ReadCutoff(w, cutoff));
    assert c == db.(compactions := db.compactions[w := Cut(cutoff)], holder := Some(w));
    var based := db.compactions[w := Based(cutoff, BaseOf(db.snapshot))];
    assert Next(c, ReadSnapshot(w)) == db.(compactions := based, holder := Some(w));
    RunStartsWith(c, ReadSnapshot(w), []);
    RunStartsWith(b, ReadCutoff(w, cutoff), [ReadSnapshot(w)] + []);
    RunStartsWith(a, TakeLock(w), [ReadCutoff(w, cutoff)] + ([ReadSnapshot(w)] + []));
    RunStartsWith(db, BeginCompact(w), [TakeLock(w)] + ([ReadCutoff(w, cutoff)] + ([ReadSnapshot(w)] + [])));
  }

  lemma SecondHalfRuns(db: Db, w: nat)
    requires At(db, w) && db.compactions[w].Based? && db.holder == Some(w)
    ensures Runs(db, SecondHalf(w)) && (CleanRun(db, SecondHalf(w)) <==> CleanTail(db, ReadTail(w)))
    ensures var (after, p) := (After(db, SecondHalf(w)), db.compactions[w]);
      after == db.(snapshot := Some(Snapshot(p.base + UpTo(db.rows, p.cutoff), p.cutoff)),
                   rows := db.rows - (set n | n in db.rows && n <= p.cutoff),
                   compactions := db.compactions - {w}, holder := None)
  {
    var p := db.compactions[w];
    var merged := p.base + UpTo(db.rows, p.cutoff);
    var a := Next(db, ReadTail(w));
    assert a == db.(compactions := db.compactions[w := Merged(p.cutoff, merged)]);
    var b := Next(a, Upsert(w));
    assert b == db.(compactions := db.compactions[w := Upserted(p.cutoff, merged)]);
    var c := Next(b, Truncate(w));
    var doomed := set n | n in db.rows && n <= p.cutoff;
    assert c == db.(compactions := db.compactions[w := Truncated(p.cutoff, merged, doomed)]);
    assert db.compactions[w := Truncated(p.cutoff, merged, doomed)] - {w} == db.compactions - {w};
    RunStartsWith(c, CommitCompact(w), []);
    RunStartsWith(b, Truncate(w), [CommitCompact(w)] + []);
    RunStartsWith(a, Upsert(w), [Truncate(w)] + ([CommitCompact(w)] + []));
    RunStartsWith(db, ReadTail(w), [Upsert(w)] + ([Truncate(w)] + ([CommitCompact(w)] + [])));
  }

  /** What the rows of the log carry, whatever their numbers. */
  function Carried(rows: map<nat, Row>): Ops {
    set n, o | n in rows && o in rows[n].ops :: o
  }

  /** A whole compaction that nothing interrupts folds every row there is and leaves the log empty. */
  lemma WholeCompaction(db: Db, w: nat, cutoff: nat)
    requires db.holder == None && w !in db.compactions && cutoff in db.rows && forall n :: n in db.rows ==> n <= cutoff
    ensures var es := FirstHalf(w, cutoff) + SecondHalf(w);
      && Runs(db, es)
      && After(db, es) == db.(snapshot := Some(Snapshot(BaseOf(db.snapshot) + Carried(db.rows), cutoff)), rows := map[])
      && (CleanRun(db, es) <==> forall n :: n in db.inserting ==> n > cutoff)
  {
    FirstHalfRuns(db, w, cutoff);
    var mid := After(db, FirstHalf(w, cutoff));
    SecondHalfRuns(mid, w);
    RunsConcat(db, FirstHalf(w, cutoff), SecondHalf(w));
    assert UpTo(db.rows, cutoff) == Carried(db.rows);
    assert db.rows - (set n | n in db.rows && n <= cutoff) == map[];
    assert mid.compactions - {w} == db.compactions;
  }
}
