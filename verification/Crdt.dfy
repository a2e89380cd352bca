/**
 The document as every other module sees it. A Yjs document is a grow-only set
 of operations, each named by the client that made it and that client's clock.
 Applying or merging updates is set union, so the order of the parts does not
 matter; a state vector is a summary of what its sender already has.
 */
module Crdt {
  datatype Op = Op(client: nat, clock: nat)

  type Ops = set<Op>

  datatype Option<+T> = None | Some(value: T) {
    function GetOr(default: T): T {
      if Some? then value else default
    }
  }

  /** Y.mergeUpdates: the operations of all the parts. */
  function Merge(parts: seq<Ops>): (merged: Ops)
    ensures forall o :: o in merged <==> exists i :: 0 <= i < |parts| && o in parts[i]
  {
    if parts == [] then {} else parts[0] + Merge(parts[1..])
  }

  lemma {:induction false} MergeConcat(a: seq<Ops>, b: seq<Ops>)
    ensures Merge(a + b) == Merge(a) + Merge(b)
  {
    forall o ensures o in Merge(a + b) <==> o in Merge(a) + Merge(b) {
      if o in Merge(a) {
        var i :| 0 <= i < |a| && o in a[i];
        assert (a + b)[i] == a[i];
      }
      if o in Merge(b) {
        var i :| 0 <= i < |b| && o in b[i];
        assert (a + b)[|a| + i] == b[i];
      }
    }
  }

  lemma MergeOne(x: Ops)
    ensures Merge([x]) == x
  {
    assert [x][0] == x;
  }

  lemma {:induction false} SubsetIsSmaller<T>(a: set<T>, b: set<T>)
    requires a <= b
    ensures |a| <= |b|
  {
    if x :| x in a {
      SubsetIsSmaller(a - {x}, b - {x});
    }
  }

  /** No element occurs twice: how a JavaScript Set looks in iteration order. */
  predicate Distinct<T(==)>(s: seq<T>) {
    forall i, j :: 0 <= i < j < |s| ==> s[i] != s[j]
  }
}
