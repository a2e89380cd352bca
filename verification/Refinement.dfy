/**
 The cluster on the real tables: where Cluster has one store that takes an append in
 one step and is read in one step, apps/server/src/persistence/postgres-store.ts runs
 statements of several transactions. Under the proviso of compaction, and for loads no
 compaction interrupts, nobody in the cluster can tell.
 */
module Refinement {
  import opened Crdt
  import C = Cluster
  import T = Transactions
  import W = Writer

  /** Instances, channel and writers, over the tables; the cluster's own store is not looked at. */
  datatype State = State(cluster: C.State, db: T.Db)

  datatype Event =
    | Statement(statement: T.Event)
    | Persist(w: C.WriterId, n: nat)
    | Read(i: nat, l: nat)
    | Elsewhere(e: C.Event)

  predicate UsesStore(e: C.Event) {
    e.ReadStore? || (e.Write? && e.e.AppendOk?)
  }

  /**
   A writer's append settles when the transaction that inserted its batch commits; an
   instance has read the document when the second statement of its load returns.
   */
  predicate Enabled(g: State, e: Event) {
    match e
    case Statement(te) => T.Enabled(g.db, te) && !te.CommitInsert?
    case Persist(w, n) =>
      && w in g.cluster.writers && g.cluster.writers[w].state.stage.Appending?
      && n in g.db.inserting && g.db.inserting[n].ops == W.OpsOf(g.cluster.writers[w].state.stage.batch)
    case Read(i, l) => i !in g.cluster.nodes && l in g.db.loads
    case Elsewhere(ce) => C.Enabled(g.cluster, ce) && !UsesStore(ce)
  }

  function Next(g: State, o: W.Options, e: Event): State
    requires Enabled(g, e)
  {
    match e
    case Statement(te) => g.(db := T.Next(g.db, te))
    case Persist(w, n) =>
      g.(cluster := g.cluster.(writers := C.Kept(g.cluster, o, w, W.AppendOk)), db := T.Next(g.db, T.CommitInsert(n)))
    case Read(i, l) =>
      var loaded := C.Reading(T.LoadedWith(g.db, g.db.loads[l]));
      g.(cluster := g.cluster.(nodes := g.cluster.nodes[i := loaded]), db := T.Next(g.db, T.LoadTail(l)))
    case Elsewhere(ce) => g.(cluster := C.Next(g.cluster, o, ce))
  }

  /** What the cluster takes for its store is what an uninterrupted load returns. */
  function Abstraction(g: State): C.State {
    g.cluster.(store := T.Content(g.db))
  }

  /** The step of Cluster this is, if it is one. */
  function Image(g: State, e: Event): seq<C.Event> {
    match e
    case Statement(_) => []
    case Persist(w, _) => [C.Write(w, W.AppendOk)]
    case Read(i, _) => [C.ReadStore(i)]
    case Elsewhere(ce) => [ce]
  }

  /** No append in flight below a cutoff being read, no compaction since a load began. */
  predicate Undisturbed(g: State, e: Event) {
    && (e.Statement? ==> T.CleanTail(g.db, e.statement))
    && (e.Read? && e.l in g.db.loads ==> g.db.loads[e.l] == g.db.snapshot)
  }

  lemma NextKeepsInv(g: State, o: W.Options, e: Event)
    requires T.Inv(g.db) && Enabled(g, e) && Undisturbed(g, e)
    ensures T.Inv(Next(g, o, e).db)
  {
    match e
    case Statement(te) => T.NextKeepsInv(g.db, te);
    case Persist(_, n) => T.NextKeepsInv(g.db, T.CommitInsert(n));
    case Read(_, l) => T.NextKeepsInv(g.db, T.LoadTail(l));
    case Elsewhere(_) =>
  }

  /** Of all statements only the commit of an append changes what a load shows. */
  lemma ContentMoves(db: T.Db, e: T.Event)
    requires T.Inv(db) && T.Enabled(db, e) && T.CleanTail(db, e)
    ensures T.Content(T.Next(db, e)) == T.Content(db) + if e.CommitInsert? then db.inserting[e.n].ops else {}
  {
    T.NextKeepsInv(db, e);
  }

  lemma PersistRefines(g: State, o: W.Options, w: C.WriterId, n: nat)
    requires T.Inv(g.db) && Enabled(g, Persist(w, n))
    ensures C.Enabled(Abstraction(g), C.Write(w, W.AppendOk))
    ensures Abstraction(Next(g, o, Persist(w, n))) == C.Next(Abstraction(g), o, C.Write(w, W.AppendOk))
  {
    ContentMoves(g.db, T.CommitInsert(n));
  }

  lemma ReadRefines(g: State, o: W.Options, i: nat, l: nat)
    requires T.Inv(g.db) && Enabled(g, Read(i, l)) && Undisturbed(g, Read(i, l))
    ensures C.Enabled(Abstraction(g), C.ReadStore(i))
    ensures Abstraction(Next(g, o, Read(i, l))) == C.Next(Abstraction(g), o, C.ReadStore(i))
  {
    ContentMoves(g.db, T.LoadTail(l));
  }

  /** A step that does not use the store does not see it. */
  lemma ElsewhereRefines(g: State, o: W.Options, e: C.Event)
    requires Enabled(g, Elsewhere(e))
    ensures C.Enabled(Abstraction(g), e)
    ensures Abstraction(Next(g, o, Elsewhere(e))) == C.Next(Abstraction(g), o, e)
  {
    var s, a := g.cluster, Abstraction(g);
    match e
    case Subscribe(_) =>
    case Finish(_, _, _) =>
    case Join(_, _) =>
    case ClientSync(i, k, m, bytes, now) =>
      C.ClientSyncEffect(s, o, i, k, m, bytes, now);
      C.ClientSyncEffect(a, o, i, k, m, bytes, now);
    case Deliver(i) =>
      C.DeliverEffect(s, o, i);
      C.DeliverEffect(a, o, i);
    case LeaveRoom(_, _) =>
    case Write(_, _) =>
    case Crash(_) =>
  }

  lemma StepRefines(g: State, o: W.Options, e: Event)
    requires T.Inv(g.db) && Enabled(g, e) && Undisturbed(g, e)
    ensures C.Runs(Abstraction(g), o, Image(g, e))
    ensures C.After(Abstraction(g), o, Image(g, e)) == Abstraction(Next(g, o, e))
  {
    match e
    case Statement(te) => ContentMoves(g.db, te);
    case Persist(w, n) =>
      PersistRefines(g, o, w, n);
      OneStep(Abstraction(g), o, C.Write(w, W.AppendOk));
    case Read(i, l) =>
      ReadRefines(g, o, i, l);
      OneStep(Abstraction(g), o, C.ReadStore(i));
    case Elsewhere(ce) =>
      ElsewhereRefines(g, o, ce);
      OneStep(Abstraction(g), o, ce);
  }

  lemma OneStep(s: C.State, o: W.Options, e: C.Event)
    requires C.Enabled(s, e)
    ensures C.Runs(s, o, [e]) && C.After(s, o, [e]) == C.Next(s, o, e)
  {
    assert [e][1..] == [];
  }

  // ------------------------------------------------------------------ whole runs

  predicate Runs(g: State, o: W.Options, es: seq<Event>)
    decreases |es|
  {
    es == [] || (Enabled(g, es[0]) && Runs(Next(g, o, es[0]), o, es[1..]))
  }

  function After(g: State, o: W.Options, es: seq<Event>): State
    requires Runs(g, o, es)
    decreases |es|
  {
    if es == [] then g else After(Next(g, o, es[0]), o, es[1..])
  }

  predicate UndisturbedRun(g: State, o: W.Options, es: seq<Event>)
    requires Runs(g, o, es)
    decreases |es|
  {
    es == [] || (Undisturbed(g, es[0]) && UndisturbedRun(Next(g, o, es[0]), o, es[1..]))
  }

  function Images(g: State, o: W.Options, es: seq<Event>): seq<C.Event>
    requires Runs(g, o, es)
    decreases |es|
  {
    if es == [] then [] else Image(g, es[0]) + Images(Next(g, o, es[0]), o, es[1..])
  }

  /** Every undisturbed run over the tables is a run of Cluster with its one store. */
  lemma {:induction false} TablesRefineTheStore(g: State, o: W.Options, es: seq<Event>)
    requires T.Inv(g.db) && Runs(g, o, es) && UndisturbedRun(g, o, es)
    ensures T.Inv(After(g, o, es).db)
    ensures C.Runs(Abstraction(g), o, Images(g, o, es))
    ensures C.After(Abstraction(g), o, Images(g, o, es)) == Abstraction(After(g, o, es))
    decreases |es|
  {
    if es != [] {
      var next := Next(g, o, es[0]);
      StepRefines(g, o, es[0]);
      NextKeepsInv(g, o, es[0]);
      TablesRefineTheStore(next, o, es[1..]);
      C.RunsConcat(Abstraction(g), o, Image(g, es[0]), Images(next, o, es[1..]));
    }
  }

  /** Nobody has the document open; what was ever recorded is what the tables show. */
  ghost predicate Init(g: State) {
    T.Inv(g.db) && C.Init(Abstraction(g))
  }

  /**
   So the results about Cluster are results about the tables. Once every writer has
   settled, a load returns exactly what any client ever brought in, whatever statements
   of whatever transactions were interleaved on the way there.
   */
  lemma SettledWritersMeanCommitted(g: State, o: W.Options, es: seq<Event>)
    requires Init(g) && Runs(g, o, es) && UndisturbedRun(g, o, es)
    requires C.Runs(Abstraction(g), o, Images(g, o, es)) && C.LosslessRun(Abstraction(g), o, Images(g, o, es))
    requires forall w :: w in After(g, o, es).cluster.writers ==> C.Settled(After(g, o, es).cluster.writers[w].state)
    ensures T.Content(After(g, o, es).db) == After(g, o, es).cluster.recorded
  {
    TablesRefineTheStore(g, o, es);
    C.SettledWritersMeanStored(Abstraction(g), o, Images(g, o, es));
  }
}
