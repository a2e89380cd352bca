/**
 The contract both stores promise (apps/server/src/persistence/store.ts): a
 document is one grow-only set, with a count of the rows not yet folded.
 */
module StoreContract {
  import opened Crdt

  type DocumentId = string

  datatype Loaded = Loaded(state: Option<Ops>, pendingUpdates: nat)

  datatype Command = Append(id: DocumentId, update: Ops) | Load(id: DocumentId) | Compact(id: DocumentId)

  datatype Reply = Done | Read(loaded: Loaded) | Folded(rows: nat)

  /** A document that has been written to. */
  datatype Grown = Grown(content: Ops, tail: nat)

  type Abstract = map<DocumentId, Grown>

  function Step(a: Abstract, c: Command): (Abstract, Reply) {
    match c
    case Append(id, u) =>
      var g := if id in a then a[id] else Grown({}, 0);
      (a[id := Grown(g.content + u, g.tail + 1)], Done)
    case Load(id) =>
      (a, Read(if id in a then Loaded(Some(a[id].content), a[id].tail) else Loaded(None, 0)))
    case Compact(id) =>
      if id in a then (a[id := a[id].(tail := 0)], Folded(a[id].tail)) else (a, Folded(0))
  }

  function Replies(a: Abstract, cs: seq<Command>): seq<Reply>
    decreases |cs|
  {
    if cs == [] then [] else [Step(a, cs[0]).1] + Replies(Step(a, cs[0]).0, cs[1..])
  }

  /** Everything appended to one document by a sequence of commands. */
  function Appended(cs: seq<Command>, id: DocumentId): Ops {
    if cs == [] then {}
    else (if cs[0].Append? && cs[0].id == id then cs[0].update else {}) + Appended(cs[1..], id)
  }

  function Final(a: Abstract, cs: seq<Command>): Abstract
    decreases |cs|
  {
    if cs == [] then a else Final(Step(a, cs[0]).0, cs[1..])
  }

  /** The contract is a grow-only set: no compaction or load ever changes what a document holds. */
  lemma {:induction false} ContentIsWhatWasAppended(a: Abstract, cs: seq<Command>, id: DocumentId)
    ensures var f := Final(a, cs);
      && (id in f <==> id in a || exists i :: 0 <= i < |cs| && cs[i].Append? && cs[i].id == id)
      && (id in f ==> f[id].content == (if id in a then a[id].content else {}) + Appended(cs, id))
    decreases |cs|
  {
    if cs != [] {
      var b := Step(a, cs[0]).0;
      ContentIsWhatWasAppended(b, cs[1..], id);
      if i :| 0 <= i < |cs[1..]| && cs[1..][i].Append? && cs[1..][i].id == id {
        assert cs[i + 1] == cs[1..][i];
      }
      if i :| 0 <= i < |cs| && cs[i].Append? && cs[i].id == id {
        assert i > 0 ==> cs[1..][i - 1] == cs[i];
      }
    }
  }
}

/** apps/server/src/persistence/memory-store.ts */
module MemoryStore {
  import opened Crdt
  import opened StoreContract

  datatype Entry = Entry(snapshot: Option<Ops>, updates: seq<Ops>)

  type Documents = map<DocumentId, Entry>

  function Parts(e: Entry): seq<Ops> {
    (if e.snapshot.Some? then [e.snapshot.value] else []) + e.updates
  }

  function LoadFrom(m: Documents, id: DocumentId): Loaded {
    if id !in m || (m[id].snapshot.None? && m[id].updates == []) then Loaded(None, 0)
    else Loaded(Some(Merge(Parts(m[id]))), |m[id].updates|)
  }

  function AppendTo(m: Documents, id: DocumentId, u: Ops): Documents {
    var e := if id in m then m[id] else Entry(None, []);
    m[id := e.(updates := e.updates + [u])]
  }

  function CompactIn(m: Documents, id: DocumentId): (Documents, nat) {
    if id !in m || m[id].updates == [] then (m, 0)
    else (m[id := Entry(Some(Merge(Parts(m[id]))), [])], |m[id].updates|)
  }

  class MemoryDocumentStore {
    var documents: Documents

    constructor ()
      ensures documents == map[]
    {
      documents := map[];
    }

    method Load(id: DocumentId) returns (r: Loaded)
      ensures r == LoadFrom(documents, id)
    {
      if id !in documents || (documents[id].snapshot.None? && |documents[id].updates| == 0) {
        return Loaded(None, 0);
      }
      var entry := documents[id];
      var parts := if entry.snapshot.Some? then [entry.snapshot.value] + entry.updates else entry.updates;
      assert parts == Parts(entry);
      if |parts| == 1 {
        assert parts == [parts[0]];
        MergeOne(parts[0]);
      }
      return Loaded(Some(if |parts| == 1 then parts[0] else Merge(parts)), |entry.updates|);
    }

    method Append(id: DocumentId, update: Ops)
      modifies this
      ensures documents == AppendTo(old(documents), id, update)
    {
      var entry := if id in documents then documents[id] else Entry(None, []);
      entry := entry.(updates := entry.updates + [update]);
      documents := documents[id := entry];
    }

    method Compact(id: DocumentId) returns (folded: nat)
      modifies this
      ensures (documents, folded) == CompactIn(old(documents), id)
    {
      if id !in documents || |documents[id].updates| == 0 {
        return 0;
      }
      var entry := documents[id];
      folded := |entry.updates|;
      var parts := if entry.snapshot.Some? then [entry.snapshot.value] + entry.updates else entry.updates;
      assert parts == Parts(entry);
      documents := documents[id := Entry(Some(Merge(parts)), [])];
    }
  }

  function Step(m: Documents, c: Command): (Documents, Reply) {
    match c
    case Append(id, u) => (AppendTo(m, id, u), Done)
    case Load(id) => (m, Read(LoadFrom(m, id)))
    case Compact(id) => (CompactIn(m, id).0, Folded(CompactIn(m, id).1))
  }

  function Replies(m: Documents, cs: seq<Command>): seq<Reply>
    decreases |cs|
  {
    if cs == [] then [] else [Step(m, cs[0]).1] + Replies(Step(m, cs[0]).0, cs[1..])
  }

  /** An entry, once made, is never empty. */
  predicate Valid(m: Documents) {
    forall id :: id in m ==> m[id].snapshot.Some? || m[id].updates != []
  }

  function Abstraction(m: Documents): Abstract {
    map id | id in m :: Grown(Merge(Parts(m[id])), |m[id].updates|)
  }

  /** Replacing one entry replaces one document of the abstract store. */
  lemma AbstractionUpdate(m: Documents, id: DocumentId, e: Entry)
    ensures Abstraction(m[id := e]) == Abstraction(m)[id := Grown(Merge(Parts(e)), |e.updates|)]
  {
  }

  lemma GrownEntry(e: Entry, u: Ops)
    ensures Merge(Parts(e.(updates := e.updates + [u]))) == Merge(Parts(e)) + u
  {
    assert Parts(e.(updates := e.updates + [u])) == Parts(e) + [u];
    MergeConcat(Parts(e), [u]);
    MergeOne(u);
  }

  lemma AppendRefines(m: Documents, id: DocumentId, u: Ops)
    ensures Abstraction(AppendTo(m, id, u)) == StoreContract.Step(Abstraction(m), Append(id, u)).0
  {
    var e := if id in m then m[id] else Entry(None, []);
    var grown := e.(updates := e.updates + [u]);
    AbstractionUpdate(m, id, grown);
    GrownEntry(e, u);
    if id !in m {
      assert Parts(e) == [];
    } else {
      assert Abstraction(m)[id] == Grown(Merge(Parts(e)), |e.updates|);
    }
  }

  lemma CompactRefines(m: Documents, id: DocumentId)
    ensures Abstraction(CompactIn(m, id).0) == StoreContract.Step(Abstraction(m), Compact(id)).0
  {
    if id in m {
      var merged := Merge(Parts(m[id]));
      assert Parts(Entry(Some(merged), [])) == [merged];
      MergeOne(merged);
      AbstractionUpdate(m, id, Entry(Some(merged), []));
      AbstractionUpdate(m, id, m[id]);
      assert m[id := m[id]] == m;
    }
  }

  lemma StepRefines(m: Documents, c: Command)
    requires Valid(m)
    ensures Valid(Step(m, c).0)
    ensures (Abstraction(Step(m, c).0), Step(m, c).1) == StoreContract.Step(Abstraction(m), c)
  {
    match c
    case Append(id, u) => AppendRefines(m, id, u);
    case Load(id) =>
    case Compact(id) => CompactRefines(m, id);
  }

  lemma {:induction false} RepliesRefine(m: Documents, cs: seq<Command>)
    requires Valid(m)
    ensures Replies(m, cs) == StoreContract.Replies(Abstraction(m), cs)
    decreases |cs|
  {
    if cs != [] {
      StepRefines(m, cs[0]);
      RepliesRefine(Step(m, cs[0]).0, cs[1..]);
    }
  }
}

/**
 apps/server/src/persistence/postgres-store.ts with its three operations taken one
 at a time. The tables hold every document, and one sequence numbers every row.
 */
module PostgresStore {
  import opened Crdt
  import opened StoreContract

  datatype Snapshot = Snapshot(state: Ops, throughSeq: nat)

  datatype Row = Row(id: DocumentId, seqNo: nat, payload: Ops)

  /** document_snapshots, document_updates in primary-key order, and the identity sequence. */
  datatype Tables = Tables(snapshots: map<DocumentId, Snapshot>, updates: seq<Row>, nextSeq: nat)

  function Through(t: Tables, id: DocumentId): nat {
    if id in t.snapshots then t.snapshots[id].throughSeq else 0
  }

  /** select payload ... where document_id = id and low < seq and seq <= high order by seq */
  function Select(rows: seq<Row>, id: DocumentId, low: nat, high: nat): seq<Ops> {
    if rows == [] then []
    else
      var r := rows[|rows| - 1];
      Select(rows[..|rows| - 1], id, low, high) + if r.id == id && low < r.seqNo <= high then [r.payload] else []
  }

  /** select max(seq) ... where document_id = id */
  function MaxSeq(rows: seq<Row>, id: DocumentId): Option<nat> {
    if rows == [] then None
    else
      var r, before := rows[|rows| - 1], MaxSeq(rows[..|rows| - 1], id);
      if r.id != id then before
      else if before.Some? && before.value > r.seqNo then before else Some(r.seqNo)
  }

  /** delete ... where document_id = id and seq <= high */
  function Delete(rows: seq<Row>, id: DocumentId, high: nat): (kept: seq<Row>)
    ensures |kept| <= |rows|
  {
    if rows == [] then []
    else
      var r := rows[|rows| - 1];
      Delete(rows[..|rows| - 1], id, high) + if r.id == id && r.seqNo <= high then [] else [r]
  }

  function Base(t: Tables, id: DocumentId): seq<Ops> {
    if id in t.snapshots then [t.snapshots[id].state] else []
  }

  function LoadFrom(t: Tables, id: DocumentId): Loaded {
    var tail := Select(t.updates, id, Through(t, id), t.nextSeq);
    if id !in t.snapshots && tail == [] then Loaded(None, 0)
    else Loaded(Some(Merge(Base(t, id) + tail)), |tail|)
  }

  function AppendTo(t: Tables, id: DocumentId, u: Ops): Tables {
    t.(updates := t.updates + [Row(id, t.nextSeq, u)], nextSeq := t.nextSeq + 1)
  }

  function CompactIn(t: Tables, id: DocumentId): (Tables, nat) {
    match MaxSeq(t.updates, id)
    case None => (t, 0)
    case Some(cutoff) =>
      var merged := Merge(Base(t, id) + Select(t.updates, id, 0, cutoff));
      var kept := Delete(t.updates, id, cutoff);
      (t.(snapshots := t.snapshots[id := Snapshot(merged, cutoff)], updates := kept), |t.updates| - |kept|)
  }

  predicate Ordered(rows: seq<Row>) {
    forall i, j :: 0 <= i < j < |rows| ==> rows[i].seqNo < rows[j].seqNo
  }

  /** Rows are numbered from 1 in order, and none of a document's rows is at or below its snapshot. */
  ghost predicate Valid(t: Tables) {
    && (forall i :: 0 <= i < |t.updates| ==> 0 < t.updates[i].seqNo < t.nextSeq)
    && Ordered(t.updates)
    && (forall i :: 0 <= i < |t.updates| ==> Through(t, t.updates[i].id) < t.updates[i].seqNo)
    && (forall id :: id in t.snapshots ==> t.snapshots[id].throughSeq < t.nextSeq)
    && 0 < t.nextSeq
  }

  class PostgresDocumentStore {
    var snapshots: map<DocumentId, Snapshot>
    var updates: seq<Row>
    var nextSeq: nat

    function View(): Tables
      reads this
    {
      Tables(snapshots, updates, nextSeq)
    }

    constructor ()
      ensures View() == Tables(map[], [], 1) && Valid(View())
    {
      snapshots, updates, nextSeq := map[], [], 1;
    }

    method Load(id: DocumentId) returns (r: Loaded)
      requires Valid(View())
      ensures r == LoadFrom(View(), id)
    {
      var tail := Select(updates, id, Through(View(), id), nextSeq);
      if id !in snapshots && |tail| == 0 {
        return Loaded(None, 0);
      }
      var parts := CollectParts(id, tail);
      if |parts| == 1 {
        assert parts == [parts[0]];
        MergeOne(parts[0]);
      }
      return Loaded(Some(if |parts| == 1 then parts[0] else Merge(parts)), |tail|);
    }

    /** The loops that push the snapshot and the rows into `parts`. */
    method CollectParts(id: DocumentId, tail: seq<Ops>) returns (parts: seq<Ops>)
      ensures parts == Base(View(), id) + tail
    {
      parts := [];
      if id in snapshots {
        parts := parts + [snapshots[id].state];
      }
      for i := 0 to |tail|
        invariant parts == Base(View(), id) + tail[..i]
      {
        parts := parts + [tail[i]];
      }
    }

    method Append(id: DocumentId, update: Ops)
      requires Valid(View())
      modifies this
      ensures Valid(View()) && View() == AppendTo(old(View()), id, update)
    {
      updates := updates + [Row(id, nextSeq, update)];
      nextSeq := nextSeq + 1;
    }

    method Compact(id: DocumentId) returns (folded: nat)
      requires Valid(View())
      modifies this
      ensures Valid(View()) && (View(), folded) == CompactIn(old(View()), id)
    {
      CompactKeepsValid(View(), id);
      var cutoff := MaxSeq(updates, id);
      if cutoff.None? {
        return 0;
      }
      var tail := Select(updates, id, 0, cutoff.value);
      var parts := CollectParts(id, tail);
      var before := |updates|;
      snapshots := snapshots[id := Snapshot(Merge(parts), cutoff.value)];
      updates := Delete(updates, id, cutoff.value);
      folded := before - |updates|;
    }
  }

  // -------------------------------------------------------- facts about the queries

  lemma {:induction false} DeleteKeepsTheRest(rows: seq<Row>, id: DocumentId, high: nat)
    ensures forall r :: r in Delete(rows, id, high) <==> r in rows && !(r.id == id && r.seqNo <= high)
  {
    if rows != [] {
      var front, last := rows[..|rows| - 1], rows[|rows| - 1];
      DeleteKeepsTheRest(front, id, high);
      assert forall r :: r in rows <==> r in front || r == last;
    }
  }

  lemma {:induction false} DeleteKeepsOrder(rows: seq<Row>, id: DocumentId, high: nat)
    requires Ordered(rows)
    ensures Ordered(Delete(rows, id, high))
  {
    if rows != [] {
      var front, last := rows[..|rows| - 1], rows[|rows| - 1];
      DeleteKeepsOrder(front, id, high);
      DeleteKeepsTheRest(front, id, high);
      var d := Delete(front, id, high);
      forall i | 0 <= i < |d| ensures d[i].seqNo < last.seqNo {
        assert d[i] in d;
        var x :| 0 <= x < |front| && front[x] == d[i];
        assert rows[x] == front[x];
      }
      assert d + [] == d;
    }
  }

  lemma {:induction false} MaxSeqIsMax(rows: seq<Row>, id: DocumentId)
    ensures var m := MaxSeq(rows, id);
      && (m.None? <==> forall r :: r in rows ==> r.id != id)
      && (m.Some? ==> (exists r :: r in rows && r.id == id && r.seqNo == m.value)
                      && forall r :: r in rows && r.id == id ==> r.seqNo <= m.value)
  {
    if rows != [] {
      var front, last := rows[..|rows| - 1], rows[|rows| - 1];
      MaxSeqIsMax(front, id);
      assert forall r :: r in rows <==> r in front || r == last;
      var m := MaxSeq(rows, id);
      if m.Some? && m != MaxSeq(front, id) {
        assert last in rows && last.seqNo == m.value;
      }
    }
  }

  /** Between bounds that leave no row of the document out, a selection returns all of them. */
  lemma {:induction false} SelectWithinBounds(
    rows: seq<Row>, id: DocumentId, low: nat, high: nat, low': nat, high': nat)
    requires forall r :: r in rows && r.id == id ==> low < r.seqNo <= high && low' < r.seqNo <= high'
    ensures Select(rows, id, low, high) == Select(rows, id, low', high')
  {
    if rows != [] {
      assert rows[|rows| - 1] in rows;
      SelectWithinBounds(rows[..|rows| - 1], id, low, high, low', high');
    }
  }

  /** Deleting a document's rows up to the largest takes exactly that document's rows. */
  lemma {:induction false} DeleteTakesTheSelection(rows: seq<Row>, id: DocumentId, high: nat)
    requires forall r :: r in rows && r.id == id ==> 0 < r.seqNo <= high
    ensures |rows| - |Delete(rows, id, high)| == |Select(rows, id, 0, high)|
    ensures forall lo, hi :: Select(Delete(rows, id, high), id, lo, hi) == []
    ensures forall other, lo, hi :: other != id ==>
      Select(Delete(rows, id, high), other, lo, hi) == Select(rows, other, lo, hi)
  {
    if rows != [] {
      var front, last := rows[..|rows| - 1], rows[|rows| - 1];
      assert last in rows;
      DeleteTakesTheSelection(front, id, high);
      var d := Delete(front, id, high);
      if last.id != id {
        assert (d + [last])[..|d|] == d;
      } else {
        assert d + [] == d;
      }
    }
  }

  lemma SelectPush(rows: seq<Row>, r: Row, id: DocumentId, low: nat, high: nat)
    ensures Select(rows + [r], id, low, high)
         == Select(rows, id, low, high) + if r.id == id && low < r.seqNo <= high then [r.payload] else []
  {
    assert (rows + [r])[..|rows|] == rows;
  }

  lemma CompactKeepsValid(t: Tables, id: DocumentId)
    requires Valid(t)
    ensures Valid(CompactIn(t, id).0)
  {
    MaxSeqIsMax(t.updates, id);
    var m := MaxSeq(t.updates, id);
    if m.Some? {
      DeleteKeepsTheRest(t.updates, id, m.value);
      DeleteKeepsOrder(t.updates, id, m.value);
      var after := CompactIn(t, id).0;
      forall i | 0 <= i < |after.updates|
        ensures 0 < after.updates[i].seqNo < t.nextSeq && Through(after, after.updates[i].id) < after.updates[i].seqNo
      {
        assert after.updates[i] in after.updates;
        assert after.updates[i] in t.updates;
      }
    }
  }

  // ------------------------------------------------------------------ refinement

  function Step(t: Tables, c: Command): (Tables, Reply) {
    match c
    case Append(id, u) => (AppendTo(t, id, u), Done)
    case Load(id) => (t, Read(LoadFrom(t, id)))
    case Compact(id) => (CompactIn(t, id).0, Folded(CompactIn(t, id).1))
  }

  function Replies(t: Tables, cs: seq<Command>): seq<Reply>
    decreases |cs|
  {
    if cs == [] then [] else [Step(t, cs[0]).1] + Replies(Step(t, cs[0]).0, cs[1..])
  }

  /** What one document looks like from outside. */
  function Seen(t: Tables, id: DocumentId): Option<Grown> {
    var l := LoadFrom(t, id);
    if l.state.None? then None else Some(Grown(l.state.value, l.pendingUpdates))
  }

  /** The tables show the abstract store `a`, document by document. */
  ghost predicate Represents(t: Tables, a: Abstract) {
    forall id :: Seen(t, id) == if id in a then Some(a[id]) else None
  }

  /** The rows a load reads on top of the snapshot. */
  function Tail(t: Tables, id: DocumentId): seq<Ops> {
    Select(t.updates, id, Through(t, id), t.nextSeq)
  }

  lemma AppendTail(t: Tables, id: DocumentId, u: Ops, other: DocumentId)
    requires Valid(t)
    ensures Tail(AppendTo(t, id, u), other) == Tail(t, other) + if other == id then [u] else []
  {
    var after := AppendTo(t, id, u);
    SelectPush(t.updates, Row(id, t.nextSeq, u), other, Through(t, other), after.nextSeq);
    SelectWithinBounds(t.updates, other, Through(t, other), t.nextSeq, Through(t, other), after.nextSeq);
  }

  lemma AppendSeen(t: Tables, id: DocumentId, u: Ops, other: DocumentId)
    requires Valid(t)
    ensures Seen(AppendTo(t, id, u), other)
         == if other != id then Seen(t, other)
            else var g := Seen(t, id).GetOr(Grown({}, 0)); Some(Grown(g.content + u, g.tail + 1))
  {
    AppendTail(t, id, u, other);
    var base, tail := Base(t, other), Tail(t, other);
    if other == id {
      assert base + (tail + [u]) == base + tail + [u];
      MergeConcat(base + tail, [u]);
      MergeOne(u);
      assert Seen(t, id).None? ==> base + tail == [];
    } else {
      assert tail + [] == tail;
    }
  }

  lemma CompactSeen(t: Tables, id: DocumentId, other: DocumentId)
    requires Valid(t)
    ensures var (after, folded) := CompactIn(t, id);
      && Seen(after, other)
         == (if other == id && Seen(t, id).Some? then Some(Seen(t, id).value.(tail := 0)) else Seen(t, other))
      && folded == if Seen(t, id).Some? then Seen(t, id).value.tail else 0
  {
    MaxSeqIsMax(t.updates, id);
    var m := MaxSeq(t.updates, id);
    if m.None? {
      NothingToSelect(t.updates, id, Through(t, id), t.nextSeq);
    } else {
      var cutoff := m.value;
      DeleteTakesTheSelection(t.updates, id, cutoff);
      SelectWithinBounds(t.updates, id, Through(t, id), t.nextSeq, 0, cutoff);
      var merged := Merge(Base(t, id) + Select(t.updates, id, 0, cutoff));
      MergeOne(merged);
      assert [merged] + [] == [merged];
      var r :| r in t.updates && r.id == id && r.seqNo == cutoff;
      SomethingToSelect(t.updates, r, 0, cutoff);
    }
  }

  lemma {:induction false} NothingToSelect(rows: seq<Row>, id: DocumentId, low: nat, high: nat)
    requires forall r :: r in rows ==> r.id != id
    ensures Select(rows, id, low, high) == []
  {
    if rows != [] {
      assert rows[|rows| - 1] in rows;
      NothingToSelect(rows[..|rows| - 1], id, low, high);
    }
  }

  lemma {:induction false} SomethingToSelect(rows: seq<Row>, r: Row, low: nat, high: nat)
    requires r in rows && low < r.seqNo <= high
    ensures Select(rows, r.id, low, high) != []
  {
    if rows[|rows| - 1] != r {
      assert r in rows[..|rows| - 1];
      SomethingToSelect(rows[..|rows| - 1], r, low, high);
    }
  }

  lemma AppendRefines(t: Tables, a: Abstract, id: DocumentId, u: Ops)
    requires Valid(t) && Represents(t, a)
    ensures Represents(AppendTo(t, id, u), StoreContract.Step(a, Append(id, u)).0)
  {
    var after, b := AppendTo(t, id, u), StoreContract.Step(a, Append(id, u)).0;
    forall other ensures Seen(after, other) == if other in b then Some(b[other]) else None {
      AppendSeen(t, id, u, other);
      assert Seen(t, other) == if other in a then Some(a[other]) else None;
    }
  }

  lemma CompactRefines(t: Tables, a: Abstract, id: DocumentId)
    requires Valid(t) && Represents(t, a)
    ensures Represents(CompactIn(t, id).0, StoreContract.Step(a, Compact(id)).0)
    ensures Folded(CompactIn(t, id).1) == StoreContract.Step(a, Compact(id)).1
  {
    var after, b := CompactIn(t, id).0, StoreContract.Step(a, Compact(id)).0;
    assert Seen(t, id) == if id in a then Some(a[id]) else None;
    CompactSeen(t, id, id);
    forall other ensures Seen(after, other) == if other in b then Some(b[other]) else None {
      CompactSeen(t, id, other);
      assert Seen(t, other) == if other in a then Some(a[other]) else None;
    }
  }

  lemma StepRefines(t: Tables, a: Abstract, c: Command)
    requires Valid(t) && Represents(t, a)
    ensures Valid(Step(t, c).0)
    ensures Represents(Step(t, c).0, StoreContract.Step(a, c).0) && Step(t, c).1 == StoreContract.Step(a, c).1
  {
    match c
    case Append(id, u) => AppendRefines(t, a, id, u);
    case Load(id) => assert Seen(t, id) == if id in a then Some(a[id]) else None;
    case Compact(id) =>
      CompactKeepsValid(t, id);
      CompactRefines(t, a, id);
  }

  lemma {:induction false} RepliesRefine(t: Tables, a: Abstract, cs: seq<Command>)
    requires Valid(t) && Represents(t, a)
    ensures Replies(t, cs) == StoreContract.Replies(a, cs)
    decreases |cs|
  {
    if cs != [] {
      StepRefines(t, a, cs[0]);
      RepliesRefine(Step(t, cs[0]).0, StoreContract.Step(a, cs[0]).0, cs[1..]);
    }
  }
}

/** The two stores cannot be told apart. */
module StoreEquivalence {
  import opened Crdt
  import opened StoreContract
  import MemoryStore
  import PostgresStore

  /**
   Whatever appends, loads and compactions are made one at a time, on whatever
   documents, both stores give every reply alike: content, null-ness, rows pending
   and rows folded.
   */
  lemma StoresAgree(cs: seq<Command>)
    ensures MemoryStore.Replies(map[], cs) == PostgresStore.Replies(PostgresStore.Tables(map[], [], 1), cs)
  {
    MemoryStore.RepliesRefine(map[], cs);
    PostgresStore.RepliesRefine(PostgresStore.Tables(map[], [], 1), map[], cs);
    assert MemoryStore.Abstraction(map[]) == map[];
  }
}
