/**
 Writers and the log they share: apps/server/src/persistence/writer.ts counts the
 rows it has appended since its last compaction, and that count is all it knows of
 the log in apps/server/src/persistence/postgres-store.ts.
 */
module LogLength {
  import opened Crdt
  import W = Writer
  import T = Transactions

  type WriterId = nat

  datatype Shared = Shared(db: T.Db, writers: map<WriterId, W.State>)

  datatype Event =
    | Open(w: WriterId)
    | Alone(w: WriterId, e: W.Event)
    | Appended(w: WriterId)
    | Compaction(w: WriterId, statement: T.Event)
    | Compacted(w: WriterId)
    | CompactionThrew(w: WriterId)

  /** What a writer does without the database, or when the database refuses an append. */
  predicate IsAlone(e: W.Event) {
    !e.AppendOk? && !e.CompactOk? && !e.CompactFailed?
  }

  /** The statements of a compaction short of its end. */
  predicate IsStatement(w: WriterId, e: T.Event) {
    match e
    case BeginCompact(v) => v == w
    case TakeLock(v) => v == w
    case ReadCutoff(v, _) => v == w
    case ReadSnapshot(v) => v == w
    case ReadTail(v) => v == w
    case Upsert(v) => v == w
    case Truncate(v) => v == w
    case _ => false
  }

  predicate Enabled(s: Shared, e: Event) {
    match e
    case Open(w) => w !in s.writers
    case Alone(w, we) => w in s.writers && IsAlone(we) && W.Enabled(s.writers[w], we)
    case Appended(w) => w in s.writers && s.writers[w].stage.Appending?
    case Compaction(w, te) =>
      w in s.writers && s.writers[w].stage.Compacting? && IsStatement(w, te) && T.Enabled(s.db, te)
    case Compacted(w) => w in s.writers && s.writers[w].stage.Compacting? && Closing(s.db, w).Some?
    case CompactionThrew(w) => w in s.writers && s.writers[w].stage.Compacting?
  }

  /** The statement that ends a compaction well: its commit, or the early one when there is nothing to fold. */
  function Closing(db: T.Db, w: WriterId): Option<T.Event> {
    if T.Enabled(db, T.CommitCompact(w)) then Some(T.CommitCompact(w))
    else if T.Enabled(db, T.FindNothing(w)) then Some(T.FindNothing(w))
    else None
  }

  function AppendRow(db: T.Db, w: WriterId, ops: Ops): T.Db {
    T.Next(T.Next(db, T.Insert(w, ops)), T.CommitInsert(db.nextSeq))
  }

  /** The rows a load counts: those above the snapshot. */
  function Tail(db: T.Db): set<nat> {
    set n | n in db.rows && n > T.Through(db.snapshot)
  }

  function Next(s: Shared, o: W.Options, e: Event): Shared
    requires Enabled(s, e)
  {
    match e
    case Open(w) => s.(writers := s.writers[w := W.Initial(|Tail(s.db)|)])
    case Alone(w, we) => s.(writers := s.writers[w := W.Next(s.writers[w], o, we)])
    case Appended(w) =>
      Shared(AppendRow(s.db, w, W.OpsOf(s.writers[w].stage.batch)), s.writers[w := W.Next(s.writers[w], o, W.AppendOk)])
    case Compaction(w, te) => s.(db := T.Next(s.db, te))
    case Compacted(w) =>
      Shared(T.Next(s.db, Closing(s.db, w).value), s.writers[w := W.Next(s.writers[w], o, W.CompactOk)])
    case CompactionThrew(w) =>
      Shared(if w in s.db.compactions then T.Next(s.db, T.AbortCompact(w)) else s.db,
             s.writers[w := W.Next(s.writers[w], o, W.CompactFailed)])
  }

  predicate Runs(s: Shared, o: W.Options, es: seq<Event>)
    decreases |es|
  {
    es == [] || (Enabled(s, es[0]) && Runs(Next(s, o, es[0]), o, es[1..]))
  }

  function After(s: Shared, o: W.Options, es: seq<Event>): Shared
    requires Runs(s, o, es)
    decreases |es|
  {
    if es == [] then s else After(Next(s, o, es[0]), o, es[1..])
  }

  /** The rows of the log that one writer appended. */
  function Own(rows: map<nat, T.Row>, w: WriterId): set<nat> {
    set n | n in rows && rows[n].author == w
  }

  predicate HasCutoff(p: T.Phase) {
    !p.Waiting? && !p.Locked?
  }

  /** A compaction belongs to a writer that is waiting for it, and reaches past all of that writer's rows. */
  ghost predicate Covering(s: Shared, w: WriterId) {
    w in s.db.compactions ==>
      && w in s.writers && s.writers[w].stage.Compacting?
      && (HasCutoff(s.db.compactions[w]) ==> forall n :: n in Own(s.db.rows, w) ==> n <= s.db.compactions[w].cutoff)
      && (s.db.compactions[w].Truncated? ==>
            forall n :: n in s.db.rows && n <= s.db.compactions[w].cutoff ==> n in s.db.compactions[w].doomed)
  }

  ghost predicate RowKnown(s: Shared, n: nat) {
    n in s.db.rows ==> n < s.db.nextSeq && s.db.rows[n].author in s.writers
  }

  ghost predicate CutoffKnown(s: Shared, w: WriterId) {
    w in s.db.compactions && HasCutoff(s.db.compactions[w]) ==> s.db.compactions[w].cutoff < s.db.nextSeq
  }

  ghost predicate CountEnough(s: Shared, w: WriterId) {
    w in s.writers ==> |Own(s.db.rows, w)| <= s.writers[w].rows
  }

  ghost predicate Inv(s: Shared) {
    && s.db.inserting == map[]
    && (forall n: nat :: RowKnown(s, n))
    && (forall w: nat :: Covering(s, w))
    && (forall w: nat :: CutoffKnown(s, w))
    && (forall w: nat :: CountEnough(s, w))
  }

  lemma OwnShrinks(rows: map<nat, T.Row>, gone: set<nat>, w: WriterId)
    ensures Own(rows - gone, w) == Own(rows, w) - gone
    ensures |Own(rows - gone, w)| <= |Own(rows, w)|
  {
    SubsetIsSmaller(Own(rows - gone, w), Own(rows, w));
  }

  /** The database has one more row, the next one, appended by w. */
  ghost predicate Grew(db: T.Db, after: T.Db, w: WriterId) {
    && after.inserting == map[] && after.nextSeq == db.nextSeq + 1
    && after.rows.Keys == db.rows.Keys + {db.nextSeq} && |after.rows| == |db.rows| + 1
    && (forall n :: n in db.rows ==> after.rows[n] == db.rows[n])
    && after.rows[db.nextSeq].author == w
    && after.compactions == db.compactions
  }

  lemma AppendRowGrows(db: T.Db, w: WriterId, ops: Ops)
    requires db.inserting == map[] && db.nextSeq !in db.rows
    ensures Grew(db, AppendRow(db, w, ops), w)
  {
    assert AppendRow(db, w, ops).inserting == map[];
  }

  lemma OwnGrows(db: T.Db, after: T.Db, w: WriterId, v: WriterId)
    requires Grew(db, after, w) && db.nextSeq !in db.rows
    ensures Own(after.rows, v) == Own(db.rows, v) + if v == w then {db.nextSeq} else {}
    ensures |Own(after.rows, v)| == |Own(db.rows, v)| + if v == w then 1 else 0
  {
    var before, now := Own(db.rows, v), Own(after.rows, v);
    assert db.nextSeq !in before;
    if v == w {
      assert now == before + {db.nextSeq};
    } else {
      assert now == before;
    }
  }

  lemma AppendKeepsCovering(s: Shared, t: Shared, w: WriterId, v: WriterId)
    requires Grew(s.db, t.db, w) && s.db.nextSeq !in s.db.rows && Covering(s, v)
    requires w in s.writers && s.writers[w].stage.Appending? && w in t.writers
    requires t.writers == s.writers[w := t.writers[w]]
    requires v in s.db.compactions && HasCutoff(s.db.compactions[v]) ==> s.db.compactions[v].cutoff < s.db.nextSeq
    ensures Covering(t, v)
  {
    OwnGrows(s.db, t.db, w, v);
  }

  /** One writer has one more row in the log and one more on its counter. */
  ghost predicate Counted(s: Shared, t: Shared, w: WriterId) {
    && Grew(s.db, t.db, w) && w in s.writers && s.writers[w].stage.Appending? && w in t.writers
    && t.writers == s.writers[w := t.writers[w]] && t.writers[w].rows == s.writers[w].rows + 1
  }

  lemma AppendedCounts(s: Shared, o: W.Options, w: WriterId)
    requires s.db.inserting == map[] && s.db.nextSeq !in s.db.rows && Enabled(s, Appended(w))
    ensures Counted(s, Next(s, o, Appended(w)), w)
  {
    AppendRowGrows(s.db, w, W.OpsOf(s.writers[w].stage.batch));
  }

  lemma CountedKeepsInv(s: Shared, t: Shared, w: WriterId)
    requires Inv(s) && Counted(s, t, w)
    ensures Inv(t)
  {
    assert RowKnown(s, s.db.nextSeq);
    forall v: nat ensures Covering(t, v) && CutoffKnown(t, v) && CountEnough(t, v) {
      assert Covering(s, v) && CutoffKnown(s, v) && CountEnough(s, v);
      AppendKeepsCovering(s, t, w, v);
      CountedIsEnough(s, t, w, v);
    }
    forall n: nat ensures RowKnown(t, n) {
      assert RowKnown(s, n);
    }
  }

  lemma CountedIsEnough(s: Shared, t: Shared, w: WriterId, v: WriterId)
    requires Counted(s, t, w) && CountEnough(s, v) && s.db.nextSeq !in s.db.rows
    ensures CountEnough(t, v)
  {
    OwnGrows(s.db, t.db, w, v);
  }

  lemma AppendedKeepsInv(s: Shared, o: W.Options, w: WriterId)
    requires Inv(s) && Enabled(s, Appended(w))
    ensures Inv(Next(s, o, Appended(w)))
  {
    assert RowKnown(s, s.db.nextSeq);
    AppendedCounts(s, o, w);
    CountedKeepsInv(s, Next(s, o, Appended(w)), w);
  }

  lemma StatementKeepsInv(s: Shared, o: W.Options, w: WriterId, e: T.Event)
    requires Inv(s) && Enabled(s, Compaction(w, e))
    ensures Inv(Next(s, o, Compaction(w, e)))
  {
    var t := Next(s, o, Compaction(w, e));
    forall n | n in s.db.rows ensures n < s.db.nextSeq {
      assert RowKnown(s, n);
    }
    forall v: nat ensures Covering(t, v) && CutoffKnown(t, v) {
      assert Covering(s, v) && CutoffKnown(s, v);
    }
    RowsStay(s, t);
  }

  /** The log and the counters stay, and no writer goes. */
  lemma RowsStay(s: Shared, t: Shared)
    requires Inv(s) && t.db.rows == s.db.rows && t.db.nextSeq == s.db.nextSeq
    requires forall v :: v in s.writers ==> v in t.writers && t.writers[v].rows >= s.writers[v].rows
    requires forall v :: v in t.writers && v !in s.writers ==> Own(s.db.rows, v) == {}
    ensures forall n: nat :: RowKnown(t, n)
    ensures forall v: nat :: CountEnough(t, v)
  {
    forall n: nat ensures RowKnown(t, n) {
      assert RowKnown(s, n);
    }
    forall v: nat ensures CountEnough(t, v) {
      assert CountEnough(s, v);
    }
  }

  lemma CompactedKeepsInv(s: Shared, o: W.Options, w: WriterId)
    requires Inv(s) && Enabled(s, Compacted(w))
    ensures Inv(Next(s, o, Compacted(w))) && Own(Next(s, o, Compacted(w)).db.rows, w) == {}
  {
    var t := Next(s, o, Compacted(w));
    assert Covering(s, w);
    var gone := if Closing(s.db, w) == Some(T.CommitCompact(w)) then s.db.compactions[w].doomed else {};
    assert t.db.rows == s.db.rows - gone;
    OwnShrinks(s.db.rows, gone, w);
    assert Own(t.db.rows, w) == {};
    forall v: nat ensures Covering(t, v) && CutoffKnown(t, v) && CountEnough(t, v) {
      assert Covering(s, v) && CutoffKnown(s, v) && CountEnough(s, v);
      OwnShrinks(s.db.rows, gone, v);
    }
    forall n: nat ensures RowKnown(t, n) {
      assert RowKnown(s, n);
    }
  }

  lemma NextKeepsInv(s: Shared, o: W.Options, e: Event)
    requires Inv(s) && Enabled(s, e)
    ensures Inv(Next(s, o, e))
  {
    match e
    case Appended(w) => AppendedKeepsInv(s, o, w);
    case Compaction(w, te) => StatementKeepsInv(s, o, w, te);
    case Compacted(w) => CompactedKeepsInv(s, o, w);
    case Open(w) =>
      NoRowsYet(s, w);
      OthersKeepInv(s, o, e);
    case Alone(w, we) => OthersKeepInv(s, o, e);
    case CompactionThrew(w) => OthersKeepInv(s, o, e);
  }

  lemma NoRowsYet(s: Shared, w: WriterId)
    requires Inv(s) && w !in s.writers
    ensures Own(s.db.rows, w) == {}
  {
    forall n | n in s.db.rows ensures n !in Own(s.db.rows, w) {
      assert RowKnown(s, n);
    }
  }

  lemma OthersKeepInv(s: Shared, o: W.Options, e: Event)
    requires Inv(s) && Enabled(s, e) && (e.Open? || e.Alone? || e.CompactionThrew?)
    requires e.Open? ==> Own(s.db.rows, e.w) == {}
    ensures Inv(Next(s, o, e))
  {
    var t := Next(s, o, e);
    forall v: nat ensures Covering(t, v) && CutoffKnown(t, v) {
      assert Covering(s, v) && CutoffKnown(s, v);
    }
    RowsStay(s, t);
  }

  /** A database nobody is using, with whatever earlier writers left in its log. */
  predicate AtRest(s: Shared) {
    && s.db.inserting == map[] && s.db.compactions == map[] && T.Through(s.db.snapshot) < s.db.nextSeq
    && forall n :: n in s.db.rows ==> n < s.db.nextSeq
  }

  lemma {:induction false} RunKeepsInv(s: Shared, o: W.Options, es: seq<Event>)
    requires Inv(s) && Runs(s, o, es)
    ensures Inv(After(s, o, es))
    decreases |es|
  {
    if es != [] {
      NextKeepsInv(s, o, es[0]);
      RunKeepsInv(Next(s, o, es[0]), o, es[1..]);
    }
  }

  /** With any number of writers, the rows of each that survive never exceed its own count. */
  lemma SurvivorsNeverExceedTheCount(o: W.Options, es: seq<Event>, w: WriterId)
    requires Runs(Shared(T.Initial(), map[]), o, es)
    requires w in After(Shared(T.Initial(), map[]), o, es).writers
    ensures var s := After(Shared(T.Initial(), map[]), o, es); |Own(s.db.rows, w)| <= s.writers[w].rows
  {
    RunKeepsInv(Shared(T.Initial(), map[]), o, es);
    assert CountEnough(After(Shared(T.Initial(), map[]), o, es), w);
  }

  // ------------------------------------------------------------ one writer alone

  /** The count is the number of rows above the snapshot, and a compaction will empty the log. */
  ghost predicate Sole(s: Shared, w: WriterId) {
    && s.writers.Keys == {w}
    && s.db.inserting == map[] && T.Through(s.db.snapshot) < s.db.nextSeq
    && (forall n :: n in s.db.rows ==> n < s.db.nextSeq)
    && |Tail(s.db)| == s.writers[w].rows
    && s.db.compactions.Keys <= {w}
    && (w in s.db.compactions ==> s.writers[w].stage.Compacting? && Emptying(s.db, s.db.compactions[w]))
  }

  ghost predicate Emptying(db: T.Db, p: T.Phase) {
    && (HasCutoff(p) ==> p.cutoff < db.nextSeq && forall n :: n in db.rows ==> n <= p.cutoff)
    && (p.Truncated? ==> db.rows.Keys == p.doomed)
  }

  lemma TailGrows(db: T.Db, after: T.Db, w: WriterId)
    requires Grew(db, after, w) && after.snapshot == db.snapshot && db.nextSeq !in db.rows
    requires T.Through(db.snapshot) < db.nextSeq
    ensures |Tail(after)| == |Tail(db)| + 1
  {
    assert Tail(after) == Tail(db) + {db.nextSeq};
  }

  lemma AppendedKeepsSole(s: Shared, o: W.Options, w: WriterId)
    requires Sole(s, w) && Enabled(s, Appended(w))
    ensures Sole(Next(s, o, Appended(w)), w)
  {
    AppendRowGrows(s.db, w, W.OpsOf(s.writers[w].stage.batch));
    TailGrows(s.db, Next(s, o, Appended(w)).db, w);
    if w in s.db.compactions {
      assert false;
    }
  }

  lemma StatementKeepsSole(s: Shared, o: W.Options, w: WriterId, e: T.Event)
    requires Sole(s, w) && Enabled(s, Compaction(w, e))
    ensures Sole(Next(s, o, Compaction(w, e)), w)
  {
    var t := Next(s, o, Compaction(w, e));
    assert t.db.rows == s.db.rows && t.db.snapshot == s.db.snapshot && t.writers == s.writers;
    assert Tail(t.db) == Tail(s.db);
    if e.Truncate? {
      assert s.db.rows.Keys == set n | n in s.db.rows && n <= s.db.compactions[w].cutoff;
    }
  }

  lemma CompactedKeepsSole(s: Shared, o: W.Options, w: WriterId)
    requires Sole(s, w) && Enabled(s, Compacted(w))
    ensures Sole(Next(s, o, Compacted(w)), w)
  {
    var end := Closing(s.db, w).value;
    var db := T.Next(s.db, end);
    if end.CommitCompact? {
      assert s.db.rows - s.db.compactions[w].doomed == map[];
    }
    assert db.rows == map[] && db.compactions == map[] && db.inserting == map[];
    assert Tail(db) == {};
    assert Next(s, o, Compacted(w)) == Shared(db, s.writers[w := W.Next(s.writers[w], o, W.CompactOk)]);
  }

  lemma NextKeepsSole(s: Shared, o: W.Options, w: WriterId, e: Event)
    requires Sole(s, w) && Enabled(s, e) && !e.Open?
    ensures Sole(Next(s, o, e), w)
  {
    match e
    case Appended(_) => AppendedKeepsSole(s, o, w);
    case Compacted(_) => CompactedKeepsSole(s, o, w);
    case Compaction(_, te) => StatementKeepsSole(s, o, w, te);
    case Alone(_, we) =>
    case CompactionThrew(_) =>
  }

  predicate NobodyElseOpens(es: seq<Event>) {
    forall i :: 0 <= i < |es| ==> !es[i].Open?
  }

  lemma {:induction false} RunKeepsSole(s: Shared, o: W.Options, w: WriterId, es: seq<Event>)
    requires Sole(s, w) && Runs(s, o, es) && NobodyElseOpens(es)
    ensures Sole(After(s, o, es), w)
    decreases |es|
  {
    if es != [] {
      NextKeepsSole(s, o, w, es[0]);
      assert NobodyElseOpens(es[1..]) by {
        forall i | 0 <= i < |es[1..]| ensures !es[1..][i].Open? {
          assert es[1..][i] == es[i + 1];
        }
      }
      RunKeepsSole(Next(s, o, es[0]), o, w, es[1..]);
    }
  }

  /**
   A sole writer's count is exactly the number of rows above the snapshot, through
   failed appends and failed compactions and whatever earlier writers left behind; so
   after every write but one whose compaction failed there are fewer than compactAfter.
   */
  lemma SoleWriterKeepsTheLogShort(s: Shared, o: W.Options, w: WriterId, es: seq<Event>, last: Event)
    requires AtRest(s) && s.writers == map[] && NobodyElseOpens(es) && !last.Open?
    requires Enabled(s, Open(w)) && Runs(Next(s, o, Open(w)), o, es)
    requires Enabled(After(Next(s, o, Open(w)), o, es), last)
    ensures var t := Next(After(Next(s, o, Open(w)), o, es), o, last);
      && t.writers.Keys == {w}
      && t.writers[w].rows == |Tail(t.db)|
      && (0 < o.compactAfter && (last.Appended? || last.Compacted?) && t.writers[w].stage.Idle? ==>
            |Tail(t.db)| < o.compactAfter)
  {
    RunKeepsSole(Next(s, o, Open(w)), o, w, es);
    NextKeepsSole(After(Next(s, o, Open(w)), o, es), o, w, last);
  }
}
