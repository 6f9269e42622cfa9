/** Keys and KeySets: strictly sorted sequences of uniquely named keys. */
module KeySets {
  import opened Wrappers
  import opened KeyNames

  type Byte = b: nat | b < 256

  /** `data` is None for a key without data; `meta` holds the metadata keys. */
  datatype Key = Key(name: KeyName, data: Option<seq<Byte>>, meta: seq<Key>)

  predicate Sorted(ks: seq<Key>) {
    forall i, j | 0 <= i < j < |ks| :: Lt(ks[i].name, ks[j].name)
  }

  type KeySet = ks: seq<Key> | Sorted(ks)

  // ----- lookup

  function PosFrom(ks: KeySet, n: KeyName, i: nat): (p: nat)
    requires i <= |ks|
    ensures i <= p <= |ks|
    decreases |ks| - i
  {
    if i < |ks| && Lt(ks[i].name, n) then PosFrom(ks, n, i + 1) else i
  }

  /** The number of keys that sort before `n`: its position, or where it would be inserted. */
  function Pos(ks: KeySet, n: KeyName): (p: nat)
    ensures p <= |ks|
  {
    PosFrom(ks, n, 0)
  }

  lemma {:induction false} PosFromSplits(ks: KeySet, n: KeyName, i: nat)
    requires i <= |ks| && forall j | 0 <= j < i :: Lt(ks[j].name, n)
    ensures forall j | 0 <= j < PosFrom(ks, n, i) :: Lt(ks[j].name, n)
    ensures forall j | PosFrom(ks, n, i) <= j < |ks| :: !Lt(ks[j].name, n)
    decreases |ks| - i
  {
    if i < |ks| {
      if Lt(ks[i].name, n) {
        PosFromSplits(ks, n, i + 1);
      } else {
        forall j | i < j < |ks| ensures !Lt(ks[j].name, n) {
          if Lt(ks[j].name, n) { LtTransitive(ks[i].name, ks[j].name, n); }
        }
      }
    }
  }

  lemma PosSplits(ks: KeySet, n: KeyName)
    ensures forall j | 0 <= j < Pos(ks, n) :: Lt(ks[j].name, n)
    ensures forall j | Pos(ks, n) <= j < |ks| :: !Lt(ks[j].name, n)
  {
    PosFromSplits(ks, n, 0);
  }

  /** The key called `n`. */
  function Get(ks: KeySet, n: KeyName): (r: Option<Key>)
    ensures r.Some? ==> r.value.name == n
  {
    var p := Pos(ks, n);
    if p < |ks| && ks[p].name == n then Some(ks[p]) else None
  }

  lemma GetIn(ks: KeySet, n: KeyName)
    ensures Get(ks, n).Some? ==> Get(ks, n).value in ks
    ensures Get(ks, n).None? ==> forall k | k in ks :: k.name != n
  {
    if Get(ks, n).None? {
      forall i | 0 <= i < |ks| ensures ks[i].name != n { GetAt(ks, i); }
    }
  }

  lemma GetAt(ks: KeySet, i: nat)
    requires i < |ks|
    ensures Get(ks, ks[i].name) == Some(ks[i])
    ensures Pos(ks, ks[i].name) == i
  {
    var n := ks[i].name;
    var p := Pos(ks, n);
    PosSplits(ks, n);
    LtIrreflexive(n);
    assert p <= i;
    if i > 0 { assert Lt(ks[i - 1].name, n); }
  }

  lemma GetMember(ks: KeySet, k: Key)
    requires k in ks
    ensures Get(ks, k.name) == Some(k)
  {
    var i :| 0 <= i < |ks| && ks[i] == k;
    GetAt(ks, i);
  }

  predicate SameNames(a: KeySet, b: KeySet) {
    |a| == |b| && forall i | 0 <= i < |a| :: a[i].name == b[i].name
  }

  ghost predicate SameDomain(a: KeySet, b: KeySet) {
    forall n :: Get(a, n).Some? <==> Get(b, n).Some?
  }

  /** Equal domains mean equal names at equal positions. */
  lemma {:induction false} DomainFixesNames(a: KeySet, b: KeySet)
    requires SameDomain(a, b)
    ensures SameNames(a, b)
  {
    if a == [] {
      if b != [] { GetAt(b, 0); }
    } else if b == [] {
      GetAt(a, 0);
    } else {
      SameFirst(a, b);
      assert SameDomain(a[1..], b[1..]) by {
        forall n ensures Get(a[1..], n).Some? <==> Get(b[1..], n).Some? {
          GetTail(a, n);
          GetTail(b, n);
        }
      }
      DomainFixesNames(a[1..], b[1..]);
      forall i | 0 <= i < |a| ensures a[i].name == b[i].name {
        if i > 0 { assert a[i] == a[1..][i - 1] && b[i] == b[1..][i - 1]; }
      }
    }
  }

  lemma SameFirst(a: KeySet, b: KeySet)
    requires SameDomain(a, b) && a != [] && b != []
    ensures a[0].name == b[0].name
  {
    GetAt(a, 0);
    GetAt(b, 0);
    FirstIsLeast(a, b[0].name);
    FirstIsLeast(b, a[0].name);
    LtTotal(a[0].name, b[0].name);
  }

  /** A KeySet is determined by its lookups. */
  lemma Extensional(a: KeySet, b: KeySet)
    requires forall n :: Get(a, n) == Get(b, n)
    ensures a == b
  {
    assert SameDomain(a, b);
    DomainFixesNames(a, b);
    forall i | 0 <= i < |a| ensures a[i] == b[i] {
      GetAt(a, i);
      GetAt(b, i);
    }
  }

  lemma FirstIsLeast(ks: KeySet, n: KeyName)
    requires ks != [] && Get(ks, n).Some?
    ensures Le(ks[0].name, n)
  {
    PosSplits(ks, n);
  }

  lemma GetTail(ks: KeySet, n: KeyName)
    requires ks != []
    ensures Get(ks[1..], n) == if n == ks[0].name then None else Get(ks, n)
  {
    GetAt(ks, 0);
    LtIrreflexive(n);
    GetIn(ks[1..], n);
    GetIn(ks, n);
    if Get(ks[1..], n).Some? {
      var k := Get(ks[1..], n).value;
      assert k in ks;
      GetMember(ks, k);
      assert Lt(ks[0].name, n);
    }
  }

  /** One more key of a prefix. */
  lemma GetPrefix(ks: KeySet, i: nat, n: KeyName)
    requires i < |ks|
    ensures Get(ks[..i + 1], n) == if n == ks[i].name then Some(ks[i]) else Get(ks[..i], n)
    ensures Get(ks[..i], ks[i].name).None?
    ensures Get(ks[..i], n).Some? ==> Get(ks[..i], n) == Get(ks, n)
  {
    var s, t := ks[..i], ks[..i + 1];
    GetAt(t, i);
    LtIrreflexive(ks[i].name);
    GetIn(s, n);
    GetIn(s, ks[i].name);
    GetIn(t, n);
    if Get(s, n).Some? {
      var k := Get(s, n).value;
      assert k in t && k in ks;
      GetMember(t, k);
      GetMember(ks, k);
    } else {
      assert t == s + [ks[i]];
    }
  }

  // ----- ksSearch: binary search with the encoded insert position

  method Search(ks: KeySet, n: KeyName) returns (r: int)
    ensures r >= 0 ==> r == Pos(ks, n) < |ks| && ks[r].name == n
    ensures r < 0 ==> Get(ks, n).None? && -r - 1 == Pos(ks, n)
  {
    if |ks| == 0 { return -1; }
    ghost var p := Pos(ks, n);
    PosSplits(ks, n);
    if Lt(ks[|ks| - 1].name, n) { return -|ks| - 1; }
    var left, right, insertPos := 0, |ks| - 1, 0;
    while left <= right
      invariant 0 <= left <= right + 1 <= |ks|
      invariant left <= p <= right + 1
      invariant left > right ==> insertPos == left
      invariant p < |ks| && ks[p].name == n ==> p <= right
    {
      var middle := left + (right - left) / 2;
      MiddleSide(ks, n, middle);
      if Lt(ks[middle].name, n) {
        insertPos := middle + 1;
        left := middle + 1;
      } else if ks[middle].name == n {
        return middle;
      } else {
        insertPos := middle;
        right := middle - 1;
      }
    }
    return -insertPos - 1;
  }

  lemma MiddleSide(ks: KeySet, n: KeyName, m: nat)
    requires m < |ks|
    ensures Lt(ks[m].name, n) ==> m < Pos(ks, n) && ks[m].name != n
    ensures ks[m].name == n ==> m == Pos(ks, n)
    ensures Lt(n, ks[m].name) ==> Pos(ks, n) <= m
    ensures Lt(n, ks[m].name) ==> Pos(ks, n) < |ks| && ks[Pos(ks, n)].name == n ==> Pos(ks, n) < m
    ensures Lt(n, ks[m].name) || ks[m].name == n || Lt(ks[m].name, n)
  {
    LtTotal(n, ks[m].name);
    PosSplits(ks, n);
    GetAt(ks, m);
    LtIrreflexive(n);
  }

  // ----- insertion and removal

  lemma NotLtMeansAfter(ks: KeySet, n: KeyName, p: nat)
    requires p == Pos(ks, n)
    ensures forall i | p <= i < |ks| && !(i == p && ks[p].name == n) :: Lt(n, ks[i].name)
  {
    PosSplits(ks, n);
    forall i | p <= i < |ks| && !(i == p && ks[p].name == n) ensures Lt(n, ks[i].name) {
      LtTotal(n, ks[i].name);
      if i > p { LtTotal(n, ks[p].name); LtIrreflexive(n); }
    }
  }

  /** Lookups follow from membership. */
  lemma GetByMembers(r: KeySet, ks: KeySet, k: Key, n: KeyName)
    requires k in r
    requires forall x | x in r :: x == k || (x in ks && x.name != k.name)
    requires forall x | x in ks && x.name != k.name :: x in r
    ensures Get(r, n) == if n == k.name then Some(k) else Get(ks, n)
  {
    GetIn(ks, n);
    GetIn(r, n);
    if n == k.name {
      GetMember(r, k);
    } else if Get(ks, n).Some? {
      GetMember(r, Get(ks, n).value);
    }
  }

  lemma ReplacedSorted(ks: KeySet, k: Key, p: nat, r: seq<Key>)
    requires p < |ks| && ks[p].name == k.name && r == ks[p := k]
    ensures Sorted(r)
  {
    forall i, j | 0 <= i < j < |r| ensures Lt(r[i].name, r[j].name) {
      assert r[i].name == ks[i].name && r[j].name == ks[j].name;
    }
  }

  lemma ReplacedMembers(ks: KeySet, k: Key, p: nat, r: seq<Key>)
    requires p < |ks| && ks[p].name == k.name && r == ks[p := k]
    ensures k in r
    ensures forall x | x in r :: x == k || (x in ks && x.name != k.name)
    ensures forall x | x in ks && x.name != k.name :: x in r
  {
    assert r[p] == k;
    forall x | x in r ensures x == k || (x in ks && x.name != k.name) {
      var i :| 0 <= i < |r| && r[i] == x;
      LtIrreflexive(k.name);
      if i != p { assert ks[i] == x; }
    }
    forall x | x in ks && x.name != k.name ensures x in r {
      var i :| 0 <= i < |ks| && ks[i] == x;
      assert r[i] == x;
    }
  }

  lemma InsertedSorted(ks: KeySet, k: Key, p: nat, r: seq<Key>)
    requires p == Pos(ks, k.name) && !(p < |ks| && ks[p].name == k.name)
    requires r == ks[..p] + [k] + ks[p..]
    ensures Sorted(r)
  {
    NotLtMeansAfter(ks, k.name, p);
    PosSplits(ks, k.name);
    forall i, j | 0 <= i < j < |r| ensures Lt(r[i].name, r[j].name) {
      InsertedAt(ks, k, p, i);
      InsertedAt(ks, k, p, j);
      if i < p < j {
        assert Lt(ks[i].name, ks[j - 1].name);
      }
    }
  }

  lemma InsertedAt(ks: seq<Key>, k: Key, p: nat, i: nat)
    requires p <= |ks| && i <= |ks|
    ensures (ks[..p] + [k] + ks[p..])[i] == if i < p then ks[i] else if i == p then k else ks[i - 1]
  {
  }

  lemma InsertedMembers(ks: KeySet, k: Key, p: nat, r: seq<Key>)
    requires p == Pos(ks, k.name) && !(p < |ks| && ks[p].name == k.name)
    requires r == ks[..p] + [k] + ks[p..]
    ensures k in r
    ensures forall x | x in r :: x == k || (x in ks && x.name != k.name)
    ensures forall x | x in ks :: x in r
  {
    InsertedMember(ks, k, p, k);
    forall x | x in ks ensures x in r && x.name != k.name {
      InsertedMember(ks, k, p, x);
      var i :| 0 <= i < |ks| && ks[i] == x;
      NotAt(ks, k.name, i);
    }
    forall x | x in r ensures x == k || x in ks { InsertedMember(ks, k, p, x); }
  }

  lemma InsertedMember(ks: seq<Key>, k: Key, p: nat, x: Key)
    requires p <= |ks|
    ensures x in ks[..p] + [k] + ks[p..] <==> x == k || x in ks
  {
    assert ks == ks[..p] + ks[p..];
  }

  lemma NotAt(ks: KeySet, n: KeyName, i: nat)
    requires i < |ks| && !(Pos(ks, n) < |ks| && ks[Pos(ks, n)].name == n)
    ensures ks[i].name != n
  {
    GetAt(ks, i);
  }

  /** ksAppendKey: replace the key of the same name, or insert at its position. */
  function AppendKey(ks: KeySet, k: Key): (r: KeySet)
    ensures forall n :: Get(r, n) == if n == k.name then Some(k) else Get(ks, n)
  {
    var p := Pos(ks, k.name);
    if p < |ks| && ks[p].name == k.name then
      ReplacedSorted(ks, k, p, ks[p := k]);
      var r: KeySet := ks[p := k];
      ReplacedMembers(ks, k, p, r);
      assert forall n :: Get(r, n) == if n == k.name then Some(k) else Get(ks, n) by {
        forall n { GetByMembers(r, ks, k, n); }
      }
      r
    else
      InsertedSorted(ks, k, p, ks[..p] + [k] + ks[p..]);
      var r: KeySet := ks[..p] + [k] + ks[p..];
      InsertedMembers(ks, k, p, r);
      assert forall n :: Get(r, n) == if n == k.name then Some(k) else Get(ks, n) by {
        forall n { GetByMembers(r, ks, k, n); }
      }
      r
  }


  lemma GetSubset(r: KeySet, ks: KeySet, n: KeyName)
    requires forall x | x in r :: x in ks
    ensures Get(r, n).Some? ==> Get(r, n) == Get(ks, n)
  {
    GetIn(r, n);
    if Get(r, n).Some? { GetMember(ks, Get(r, n).value); }
  }

  /** The keys whose name passes a test, in order. */
  function Filter(ks: KeySet, keep: KeyName -> bool): (r: KeySet)
    ensures forall k :: k in r <==> k in ks && keep(k.name)
  {
    if ks == [] then []
    else
      var last := |ks| - 1;
      var r := Filter(ks[..last], keep);
      assert ks == ks[..last] + [ks[last]];
      if keep(ks[last].name) then
        assert Sorted(r + [ks[last]]) by {
          forall i | 0 <= i < |r| ensures Lt(r[i].name, ks[last].name) { assert r[i] in ks[..last]; }
        }
        r + [ks[last]]
      else r
  }

  lemma FilterGet(ks: KeySet, keep: KeyName -> bool, n: KeyName)
    ensures Get(Filter(ks, keep), n) == if keep(n) then Get(ks, n) else None
  {
    var r := Filter(ks, keep);
    GetSubset(r, ks, n);
    GetIn(ks, n);
    GetIn(r, n);
    if Get(ks, n).Some? && keep(n) { GetMember(r, Get(ks, n).value); }
  }

  /** Popping a key (KDB_O_POP, elektraKsPopAtCursor). */
  function Remove(ks: KeySet, n: KeyName): (r: KeySet)
    ensures forall m :: Get(r, m) == if m == n then None else Get(ks, m)
  {
    var keep := (m: KeyName) => m != n;
    assert forall m :: Get(Filter(ks, keep), m) == if m == n then None else Get(ks, m) by {
      forall m { FilterGet(ks, keep, m); }
    }
    Filter(ks, keep)
  }

  function RemoveAt(ks: KeySet, p: nat): KeySet
    requires p < |ks|
  {
    RemoveAtIsRemove(ks, p);
    ks[..p] + ks[p + 1..]
  }

  lemma RemoveAtIsRemove(ks: KeySet, p: nat)
    requires p < |ks|
    ensures Sorted(ks[..p] + ks[p + 1..])
    ensures ks[..p] + ks[p + 1..] == Remove(ks, ks[p].name)
  {
    var r, n := ks[..p] + ks[p + 1..], ks[p].name;
    RemovedSorted(ks, p, r);
    forall k ensures k in r <==> k in ks && k.name != n { RemovedMember(ks, p, r, k); }
    forall m ensures Get(r, m) == Get(Remove(ks, n), m) {
      GetSubset(r, ks, m);
      GetIn(ks, m);
      GetIn(r, m);
      if m != n && Get(ks, m).Some? { GetMember(r, Get(ks, m).value); }
    }
    Extensional(r, Remove(ks, n));
  }

  lemma RemovedAt(ks: seq<Key>, p: nat, i: nat)
    requires p < |ks| && i + 1 < |ks|
    ensures (ks[..p] + ks[p + 1..])[i] == ks[if i < p then i else i + 1]
  {
  }

  lemma RemovedSorted(ks: KeySet, p: nat, r: seq<Key>)
    requires p < |ks| && r == ks[..p] + ks[p + 1..]
    ensures Sorted(r)
  {
    forall i, j | 0 <= i < j < |r| ensures Lt(r[i].name, r[j].name) {
      RemovedAt(ks, p, i);
      RemovedAt(ks, p, j);
    }
  }

  lemma RemovedMember(ks: KeySet, p: nat, r: seq<Key>, k: Key)
    requires p < |ks| && r == ks[..p] + ks[p + 1..]
    ensures k in r <==> k in ks && k.name != ks[p].name
  {
    hide Lt;
    LtIrreflexive(ks[p].name);
    if k in ks && k.name != ks[p].name {
      var i :| 0 <= i < |ks| && ks[i] == k;
      RemovedAt(ks, p, if i < p then i else i - 1);
    }
    if k in r {
      var i :| 0 <= i < |r| && r[i] == k;
      RemovedAt(ks, p, i);
    }
  }

  /** ksAppend: keys of `other` win. */
  function Append(ks: KeySet, other: KeySet): (r: KeySet)
    ensures forall n :: Get(r, n) == if Get(other, n).Some? then Get(other, n) else Get(ks, n)
  {
    if other == [] then ks
    else
      var last := |other| - 1;
      var r := AppendKey(Append(ks, other[..last]), other[last]);
      assert forall n :: Get(r, n) == if Get(other, n).Some? then Get(other, n) else Get(ks, n) by {
        forall n ensures Get(r, n) == if Get(other, n).Some? then Get(other, n) else Get(ks, n) {
          GetPrefix(other, last, n);
          assert other[..last + 1] == other;
        }
      }
      r
  }

  // ----- ksSubtract

  /** Absent between two neighbours. */
  lemma AbsentAt(r: KeySet, t: nat, n: KeyName)
    requires PassedBefore(r, t, n)
    requires t < |r| ==> Lt(n, r[t].name)
    ensures Get(r, n).None?
  {
    LtIrreflexive(n);
    GetIn(r, n);
    forall i | 0 <= i < |r| ensures r[i].name != n {
      if i > t { LtTransitive(n, r[t].name, r[i].name); }
    }
  }

  predicate PassedBefore(r: KeySet, t: nat, n: KeyName) {
    forall j | 0 <= j < t && j < |r| :: Lt(r[j].name, n)
  }

  ghost predicate Subtracted(r: KeySet, total: KeySet, sub: KeySet) {
    forall n :: Get(r, n) == if Get(sub, n).Some? then None else Get(total, n)
  }

  lemma SubtractStep(r: KeySet, r': KeySet, total: KeySet, sub: KeySet, i: nat)
    requires i < |sub|
    requires Subtracted(r, total, sub[..i])
    requires forall n :: Get(r', n) == if n == sub[i].name then None else Get(r, n)
    ensures Subtracted(r', total, sub[..i + 1])
  {
    forall n ensures Get(r', n) == if Get(sub[..i + 1], n).Some? then None else Get(total, n) {
      GetPrefix(sub, i, n);
    }
  }

  /** Every key of `sub` from `i` on sorts after all of `r`. */
  lemma SubtractRest(r: KeySet, total: KeySet, sub: KeySet, i: nat)
    requires i <= |sub|
    requires Subtracted(r, total, sub[..i])
    requires i < |sub| ==> PassedBefore(r, |r|, sub[i].name)
    ensures Subtracted(r, total, sub)
    decreases |sub| - i
  {
    if i == |sub| {
      assert sub[..i] == sub;
    } else {
      AbsentAt(r, |r|, sub[i].name);
      SubtractStep(r, r, total, sub, i);
      if i + 1 < |sub| { StillBefore(r, |r|, sub, i); }
      SubtractRest(r, total, sub, i + 1);
    }
  }

  lemma NothingFound(total: KeySet, sub: KeySet, i: nat)
    requires i <= |sub|
    requires forall j | 0 <= j < i :: Get(total, sub[j].name).None?
    ensures Subtracted(total, total, sub[..i])
  {
    forall n ensures Get(total, n) == if Get(sub[..i], n).Some? then None else Get(total, n) {
      GetIn(sub[..i], n);
      if Get(sub[..i], n).Some? {
        var j :| 0 <= j < i && sub[..i][j] == Get(sub[..i], n).value;
      }
    }
  }

  /** Walking one further in `sub` keeps the keys already passed before it. */
  lemma StillBefore(r: KeySet, t: nat, sub: KeySet, i: nat)
    requires i + 1 < |sub|
    requires PassedBefore(r, t, sub[i].name)
    ensures PassedBefore(r, t, sub[i + 1].name)
  {
    forall j | 0 <= j < t && j < |r| ensures Lt(r[j].name, sub[i + 1].name) {
      LtTransitive(r[j].name, sub[i].name, sub[i + 1].name);
    }
  }

  /** The first key of `sub` that `total` has, and its position; (|sub|, -1) if there is none. */
  method FirstCommon(total: KeySet, sub: KeySet) returns (subI: nat, totalI: int)
    ensures totalI >= 0 ==> subI < |sub| && totalI == Pos(total, sub[subI].name)
    ensures subI <= |sub| && (totalI < 0 ==> subI == |sub|)
    ensures forall j | 0 <= j < subI :: Get(total, sub[j].name).None?
  {
    subI, totalI := 0, -1;
    for i := 0 to |sub|
      invariant forall j | 0 <= j < i :: Get(total, sub[j].name).None?
    {
      totalI := Search(total, sub[i].name);
      subI := i;
      if totalI >= 0 { return; }
    }
    subI, totalI := |sub|, -1;
  }

  /** ksSubtract: a merge from the first common key on. */
  method Subtract(total: KeySet, sub: KeySet) returns (r: KeySet)
    ensures Subtracted(r, total, sub)
  {
    hide Lt;
    r := total;
    var subI, totalI := FirstCommon(total, sub);
    NothingFound(total, sub, subI);
    if totalI < 0 {
      assert sub[..|sub|] == sub;
      return;
    }
    PosSplits(total, sub[subI].name);
    while subI < |sub| && totalI < |r|
      invariant 0 <= subI <= |sub| && 0 <= totalI
      invariant Subtracted(r, total, sub[..subI])
      invariant subI < |sub| ==> PassedBefore(r, totalI, sub[subI].name)
      decreases |sub| - subI + |r| - totalI
    {
      var n := sub[subI].name;
      LtTotal(n, r[totalI].name);
      if r[totalI].name == n {
        r := SubtractHit(r, totalI, total, sub, subI);
        subI := subI + 1;
      } else if Lt(n, r[totalI].name) {
        SubtractMiss(r, totalI, total, sub, subI);
        subI := subI + 1;
      } else {
        totalI := totalI + 1;
      }
    }
    SubtractRest(r, total, sub, subI);
  }

  lemma SubtractMiss(r: KeySet, t: nat, total: KeySet, sub: KeySet, i: nat)
    requires i < |sub| && t < |r| && Lt(sub[i].name, r[t].name)
    requires Subtracted(r, total, sub[..i])
    requires PassedBefore(r, t, sub[i].name)
    ensures Subtracted(r, total, sub[..i + 1])
    ensures i + 1 < |sub| ==> PassedBefore(r, t, sub[i + 1].name)
  {
    AbsentAt(r, t, sub[i].name);
    SubtractStep(r, r, total, sub, i);
    if i + 1 < |sub| { StillBefore(r, t, sub, i); }
  }

  method SubtractHit(r: KeySet, t: nat, ghost total: KeySet, sub: KeySet, i: nat) returns (r': KeySet)
    requires i < |sub| && t < |r| && r[t].name == sub[i].name
    requires Subtracted(r, total, sub[..i])
    requires PassedBefore(r, t, sub[i].name)
    ensures Subtracted(r', total, sub[..i + 1])
    ensures i + 1 < |sub| ==> PassedBefore(r', t, sub[i + 1].name)
    ensures |r'| == |r| - 1
  {
    RemoveAtIsRemove(r, t);
    r' := RemoveAt(r, t);
    SubtractStep(r, r', total, sub, i);
    forall j | 0 <= j < t ensures r'[j] == r[j] { RemovedAt(r, t, j); }
    if i + 1 < |sub| { StillBefore(r', t, sub, i); }
  }
}
