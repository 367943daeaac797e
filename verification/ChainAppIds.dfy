/** Application identifiers and their sorting (cosmux/multiplexer.go, lines 22-63). */
module ChainAppIds {
  import opened Abci
  import opened Orders

  type ChainAppIdentifier = s: Bytes | |s| == 4 witness [0, 0, 0, 0]

  /** The identifier read as a big-endian number. */
  function Num(id: ChainAppIdentifier): nat {
    id[3] as int + 256 * (id[2] as int + 256 * (id[1] as int + 256 * id[0] as int))
  }

  lemma NumInjective(a: ChainAppIdentifier, b: ChainAppIdentifier)
    requires Num(a) == Num(b)
    ensures a == b
  {
    assert a[3] == b[3];
    assert a[2] == b[2];
    assert a[1] == b[1];
    assert a[0] == b[0];
  }

  ghost predicate Sorted(ids: seq<ChainAppIdentifier>) {
    forall i, j :: 0 <= i < j < |ids| ==> Num(ids[i]) <= Num(ids[j])
  }

  ghost predicate StrictlySorted(ids: seq<ChainAppIdentifier>) {
    forall i, j :: 0 <= i < j < |ids| ==> Num(ids[i]) < Num(ids[j])
  }

  class AppIdStorter {
    const identifiers: array<ChainAppIdentifier>

    constructor (ids: array<ChainAppIdentifier>)
      ensures identifiers == ids
    {
      identifiers := ids;
    }

    method Less(l: nat, k: nat) returns (less: bool)
      requires l < identifiers.Length && k < identifiers.Length
      ensures less <==> Num(identifiers[l]) < Num(identifiers[k])
    {
      var a, b := identifiers[l], identifiers[k];
      for i := 0 to 4
        invariant forall j :: 0 <= j < i ==> a[j] == b[j]
      {
        if a[i] != b[i] {
          FirstDifference(a, b, i);
          return a[i] < b[i];
        }
      }
      assert a == b;
      return false;
    }

    method Swap(i: nat, j: nat)
      requires i < identifiers.Length && j < identifiers.Length
      modifies identifiers
      ensures identifiers[i] == old(identifiers[j]) && identifiers[j] == old(identifiers[i])
      ensures forall m :: 0 <= m < identifiers.Length && m != i && m != j ==> identifiers[m] == old(identifiers[m])
      ensures multiset(identifiers[..]) == multiset(old(identifiers[..]))
    {
      identifiers[i], identifiers[j] := identifiers[j], identifiers[i];
    }

    /** The inner loop of the sort: moves element `i` down to its place in the sorted front. */
    method Sink(i: nat)
      requires i < identifiers.Length
      requires forall p, q :: 0 <= p < q < i ==> Num(identifiers[p]) <= Num(identifiers[q])
      modifies identifiers
      ensures forall p, q :: 0 <= p < q <= i ==> Num(identifiers[p]) <= Num(identifiers[q])
      ensures multiset(identifiers[..]) == multiset(old(identifiers[..]))
    {
      var j := i;
      while j > 0
        invariant j <= i
        invariant forall p, q :: 0 <= p < q <= i && q != j ==> Num(identifiers[p]) <= Num(identifiers[q])
        invariant multiset(identifiers[..]) == multiset(old(identifiers[..]))
      {
        var less := Less(j, j - 1);
        if !less { break; }
        Swap(j, j - 1);
        j := j - 1;
      }
    }
  }

  lemma FirstDifference(a: ChainAppIdentifier, b: ChainAppIdentifier, i: nat)
    requires i < 4 && a[i] != b[i]
    requires forall j :: 0 <= j < i ==> a[j] == b[j]
    ensures Num(a) < Num(b) <==> a[i] < b[i]
  {
    if i == 0 {
    } else if i == 1 {
    } else if i == 2 {
    } else {
    }
  }

  /** The order of identifiers is that of their first differing bytes. */
  lemma NumIsLexicographic(a: ChainAppIdentifier, b: ChainAppIdentifier)
    ensures Num(a) < Num(b) <==> exists i :: 0 <= i < 4 && a[i] < b[i] && a[..i] == b[..i]
  {
    forall k | 0 <= k < 4 && a[..k] == b[..k] ensures forall j :: 0 <= j < k ==> a[j] == b[j] {
      SamePrefix(a, b, k);
    }
    if i :| 0 <= i < 4 && a[i] != b[i] && a[..i] == b[..i] {
      FirstDifference(a, b, i);
    } else {
      SameBytes(a, b, 4);
      assert a == b;
    }
  }

  lemma SamePrefix(a: ChainAppIdentifier, b: ChainAppIdentifier, k: nat)
    requires k < 4 && a[..k] == b[..k]
    ensures forall j :: 0 <= j < k ==> a[j] == b[j]
  {
    assert forall j :: 0 <= j < k ==> a[j] == a[..k][j] == b[..k][j] == b[j];
  }

  lemma {:induction false} SameBytes(a: ChainAppIdentifier, b: ChainAppIdentifier, n: nat)
    requires n <= 4 && forall i :: 0 <= i < 4 && a[..i] == b[..i] ==> a[i] == b[i]
    ensures a[..n] == b[..n]
  {
    if n > 0 {
      SameBytes(a, b, n - 1);
      assert a[..n] == a[..n - 1] + [a[n - 1]] && b[..n] == b[..n - 1] + [b[n - 1]];
    }
  }

  /** sort.Sort driven by Less and Swap; the loops are those Go runs on short slices. */
  method SortChainAppIDs(ids: array<ChainAppIdentifier>)
    modifies ids
    ensures Sorted(ids[..])
    ensures multiset(ids[..]) == multiset(old(ids[..]))
  {
    var x := new AppIdStorter(ids);
    for i := 0 to ids.Length
      invariant forall p, q :: 0 <= p < q < i ==> Num(ids[p]) <= Num(ids[q])
      invariant multiset(ids[..]) == multiset(old(ids[..]))
    {
      x.Sink(i);
    }
  }

  ghost function Insert(id: ChainAppIdentifier, ids: seq<ChainAppIdentifier>): (r: seq<ChainAppIdentifier>)
    requires StrictlySorted(ids) && id !in ids
    ensures StrictlySorted(r)
    ensures forall x :: x in r <==> x == id || x in ids
  {
    if ids == [] then [id]
    else if Num(id) < Num(ids[0]) then [id] + ids
    else
      if Num(id) == Num(ids[0]) then NumInjective(id, ids[0]); assert false; ids
      else
        var rest := Insert(id, ids[1..]);
        assert forall x :: x in rest ==> Num(ids[0]) < Num(x);
        [ids[0]] + rest
  }

  /** The identifiers of a set in increasing order. */
  ghost function SortedIds(s: set<ChainAppIdentifier>): (r: seq<ChainAppIdentifier>)
    ensures StrictlySorted(r)
    ensures IsOrder(r, s)
  {
    if s == {} then []
    else
      var id :| id in s;
      var r := Insert(id, SortedIds(s - {id}));
      assert forall i, j :: 0 <= i < j < |r| ==> Num(r[i]) < Num(r[j]);
      r
  }

  /** There is one way to put a set of identifiers in increasing order. */
  lemma {:induction false} StrictOrderUnique(a: seq<ChainAppIdentifier>, b: seq<ChainAppIdentifier>)
    requires StrictlySorted(a) && StrictlySorted(b)
    requires forall x :: x in a <==> x in b
    ensures a == b
  {
    if a == [] {
      assert forall i :: 0 <= i < |b| ==> b[i] in b;
    } else {
      assert a[0] in b;
      assert b[0] in a;
      assert a[0] == b[0];
      forall x ensures x in a[1..] <==> x in b[1..] {
        if x in a[1..] { assert x in b; assert x != a[0]; }
        if x in b[1..] { assert x in a; assert x != b[0]; }
      }
      StrictOrderUnique(a[1..], b[1..]);
    }
  }

  /** Whatever order the keys leave the map in, and whichever sorter drives Less and Swap, sorting
      them gives the one increasing listing of their set. */
  lemma SortIsCanonical(keys: seq<ChainAppIdentifier>, sorted: seq<ChainAppIdentifier>, s: set<ChainAppIdentifier>)
    requires IsOrder(keys, s)
    requires Sorted(sorted) && multiset(sorted) == multiset(keys)
    ensures sorted == SortedIds(s)
  {
    forall x ensures x in sorted <==> x in s {
      assert x in sorted <==> x in multiset(sorted);
      assert x in keys <==> x in multiset(keys);
    }
    forall i, j | 0 <= i < j < |sorted| ensures Num(sorted[i]) < Num(sorted[j]) {
      if Num(sorted[i]) == Num(sorted[j]) {
        NumInjective(sorted[i], sorted[j]);
        TwiceInMultiset(sorted, i, j);
        OnceInMultiset(keys, sorted[i]);
      }
    }
    StrictOrderUnique(sorted, SortedIds(s));
  }
}
