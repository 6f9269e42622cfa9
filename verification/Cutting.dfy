/** ksCut: splitting off the hierarchy at or below a cutpoint. */
module Cutting {
  import opened Wrappers
  import opened KeyNames
  import opened KeySets

  datatype Parted = Parted(rest: KeySet, taken: KeySet)

  /** Every key goes to exactly one side. */
  ghost predicate Partition(ks: KeySet, p: Parted) {
    forall n :: Splits(ks, p, n)
  }

  predicate Splits(ks: KeySet, p: Parted, n: KeyName) {
    if Get(p.taken, n).Some?
    then Get(p.taken, n) == Get(ks, n) && Get(p.rest, n).None?
    else Get(p.rest, n) == Get(ks, n)
  }

  /** The first position from `it` on whose key is not at or below the cutpoint. */
  function HierarchyEnd(ks: KeySet, cut: KeyName, it: nat): (e: nat)
    requires it <= |ks|
    ensures it <= e <= |ks|
    ensures forall i | it <= i < e :: BelowOrSame(cut, ks[i].name)
    ensures e < |ks| ==> !BelowOrSame(cut, ks[e].name)
    decreases |ks| - it
  {
    if it < |ks| && BelowOrSame(cut, ks[it].name) then HierarchyEnd(ks, cut, it + 1) else it
  }

  /** elektraKsFindCutpoint and the copy that follows it. */
  function CutHere(ks: KeySet, cut: KeyName): (p: Parted)
    ensures Partition(ks, p)
  {
    var found := Pos(ks, cut);
    var it := HierarchyEnd(ks, cut, found);
    SliceOut(ks, found, it);
    Parted(ks[..found] + ks[it..], ks[found..it])
  }

  lemma SlicesSorted(ks: KeySet, f: nat, e: nat)
    requires f <= e <= |ks|
    ensures Sorted(ks[..f] + ks[e..]) && Sorted(ks[f..e])
  {
    var r := ks[..f] + ks[e..];
    forall i, j | 0 <= i < j < |r| ensures Lt(r[i].name, r[j].name) {
      SliceAt(ks, f, e, i);
      SliceAt(ks, f, e, j);
    }
    var t := ks[f..e];
    forall i, j | 0 <= i < j < |t| ensures Lt(t[i].name, t[j].name) {
      assert t[i] == ks[f + i] && t[j] == ks[f + j];
    }
  }

  lemma SliceAt(ks: seq<Key>, f: nat, e: nat, i: nat)
    requires f <= e <= |ks| && i < |ks| - (e - f)
    ensures (ks[..f] + ks[e..])[i] == ks[if i < f then i else i + (e - f)]
  {
  }

  lemma SliceOut(ks: KeySet, f: nat, e: nat)
    requires f <= e <= |ks|
    ensures Sorted(ks[..f] + ks[e..]) && Sorted(ks[f..e])
    ensures Partition(ks, Parted(ks[..f] + ks[e..], ks[f..e]))
  {
    SlicesSorted(ks, f, e);
    var p := Parted(ks[..f] + ks[e..], ks[f..e]);
    assert ks == ks[..f] + ks[f..e] + ks[e..];
    forall n ensures Splits(ks, p, n) {
      GetSubset(p.taken, ks, n);
      GetSubset(p.rest, ks, n);
      GetIn(ks, n);
      GetIn(p.taken, n);
      GetIn(p.rest, n);
      if Get(p.taken, n).Some? && Get(p.rest, n).Some? {
        NamesApart(ks, f, e, Get(p.taken, n).value, Get(p.rest, n).value);
      }
      if Get(ks, n).Some? {
        var k := Get(ks, n).value;
        assert k in p.taken || k in p.rest;
      }
    }
  }

  lemma NamesApart(ks: KeySet, f: nat, e: nat, x: Key, y: Key)
    requires f <= e <= |ks|
    requires x in ks[f..e] && y in ks[..f] + ks[e..]
    ensures x.name != y.name
  {
    var i :| 0 <= i < e - f && ks[f..e][i] == x;
    var r := ks[..f] + ks[e..];
    var j :| 0 <= j < |r| && r[j] == y;
    SliceAt(ks, f, e, j);
    LtIrreflexive(x.name);
    assert x == ks[f + i];
  }

  // ----- exactly which keys are taken

  /** The taken keys are those whose name passes `f`. */
  ghost predicate TakesExactly(ks: KeySet, p: Parted, f: KeyName -> bool) {
    forall n :: Get(p.taken, n).Some? <==> Get(ks, n).Some? && f(n)
  }

  lemma NotBefore(ks: KeySet, cut: KeyName, i: nat)
    requires Pos(ks, cut) <= i < |ks|
    ensures Le(cut, ks[i].name)
  {
    PosSplits(ks, cut);
    LtTotal(cut, ks[i].name);
  }

  lemma InSlice(ks: KeySet, f: nat, e: nat, i: nat)
    requires f <= e <= |ks| && i < |ks|
    ensures ks[i] in ks[f..e] <==> f <= i < e
  {
    hide Lt;
    var t := ks[f..e];
    if f <= i < e { assert t[i - f] == ks[i]; }
    if ks[i] in t {
      var j :| 0 <= j < |t| && t[j] == ks[i];
      assert ks[f + j] == ks[i];
      GetAt(ks, i);
      GetAt(ks, f + j);
    }
  }

  /** A key is taken exactly when it stands in the run. */
  lemma TakenAt(ks: KeySet, cut: KeyName, i: nat)
    requires i < |ks|
    ensures Get(CutHere(ks, cut).taken, ks[i].name).Some?
            <==> Pos(ks, cut) <= i < HierarchyEnd(ks, cut, Pos(ks, cut))
  {
    var p := CutHere(ks, cut);
    GetAt(ks, i);
    assert Splits(ks, p, ks[i].name);
    GetIn(p.taken, ks[i].name);
    GetIn(p.rest, ks[i].name);
    InSlice(ks, Pos(ks, cut), HierarchyEnd(ks, cut, Pos(ks, cut)), i);
  }

  /** Below a cutpoint with a namespace lies one contiguous run, and all of it is taken. */
  lemma CutHereExact(ks: KeySet, cut: KeyName)
    requires cut.ns != Cascading
    ensures TakesExactly(ks, CutHere(ks, cut), (n: KeyName) => Below(cut, n))
  {
    var p := CutHere(ks, cut);
    forall n ensures Get(p.taken, n).Some? <==> Get(ks, n).Some? && Below(cut, n) {
      assert Splits(ks, p, n);
      GetIn(ks, n);
      if Get(ks, n).Some? {
        var i :| 0 <= i < |ks| && ks[i] == Get(ks, n).value;
        TakenAt(ks, cut, i);
        RunIsBelow(ks, cut, i);
      }
    }
  }

  lemma RunIsBelow(ks: KeySet, cut: KeyName, i: nat)
    requires cut.ns != Cascading && i < |ks|
    ensures Pos(ks, cut) <= i < HierarchyEnd(ks, cut, Pos(ks, cut)) <==> Below(cut, ks[i].name)
  {
    if Below(cut, ks[i].name) {
      RunReaches(ks, cut, i);
    } else if Pos(ks, cut) <= i {
      NotBefore(ks, cut, i);
      LtNamespace(cut, ks[i].name);
    }
  }

  lemma RunReaches(ks: KeySet, cut: KeyName, i: nat)
    requires i < |ks| && Below(cut, ks[i].name)
    ensures Pos(ks, cut) <= i < HierarchyEnd(ks, cut, Pos(ks, cut))
  {
    var f := Pos(ks, cut);
    var e := HierarchyEnd(ks, cut, f);
    BelowSortsAfter(cut, ks[i].name);
    PosSplits(ks, cut);
    LtTotal(cut, ks[i].name);
    if e <= i {
      NotBefore(ks, cut, e);
      assert Le(ks[e].name, ks[i].name);
      Contiguous(cut, ks[e].name, ks[i].name);
    }
  }

  // ----- cascading cutpoints

  /** Cut the same parts in one namespace after the other. */
  function CutIn(ks: KeySet, parts: seq<Part>, spaces: seq<Namespace>): (p: Parted)
    requires parts != [[]]
    ensures Partition(ks, p)
    decreases |spaces|
  {
    if spaces == [] then
      assert Partition(ks, Parted(ks, []));
      Parted(ks, [])
    else
      var first := CutHere(ks, RawName(spaces[0], parts));
      var others := CutIn(first.rest, parts, spaces[1..]);
      var p := Parted(others.rest, Append(first.taken, others.taken));
      PartitionTwice(ks, first, others, p);
      p
  }

  lemma PartitionTwice(ks: KeySet, p: Parted, q: Parted, r: Parted)
    requires Partition(ks, p) && Partition(p.rest, q)
    requires r.rest == q.rest
    requires forall n :: Get(r.taken, n) == if Get(q.taken, n).Some? then Get(q.taken, n) else Get(p.taken, n)
    ensures Partition(ks, r)
  {
    forall n ensures Splits(ks, r, n) {
      assert Splits(ks, p, n) && Splits(p.rest, q, n);
    }
  }

  /** All namespaces that a cascading cut visits; default is not one of them. */
  function CutSpaces(cut: KeyName): seq<Namespace> {
    if cut.ns == Cascading then [Meta, Spec, Proc, Dir, User, System] else []
  }

  /** ksCut. */
  function Cut(ks: KeySet, cut: KeyName): (p: Parted)
    ensures Partition(ks, p)
  {
    if cut.ns != Cascading then CutHere(ks, cut)
    else
      var spaces := CutIn(ks, cut.parts, CutSpaces(cut));
      var here := CutHere(spaces.rest, cut);
      var p := Parted(here.rest, Append(here.taken, spaces.taken));
      assert forall n :: Get(p.taken, n) == if Get(here.taken, n).Some? then Get(here.taken, n) else Get(spaces.taken, n) by {
        forall n ensures Get(p.taken, n) == if Get(here.taken, n).Some? then Get(here.taken, n) else Get(spaces.taken, n) {
          assert Splits(ks, spaces, n) && Splits(spaces.rest, here, n);
        }
      }
      PartitionTwice(ks, spaces, here, p);
      p
  }

  lemma {:induction false} CutInExact(ks: KeySet, parts: seq<Part>, spaces: seq<Namespace>)
    requires parts != [[]] && Cascading !in spaces
    ensures TakesExactly(ks, CutIn(ks, parts, spaces), (n: KeyName) => n.ns in spaces && parts <= n.parts)
    decreases |spaces|
  {
    if spaces != [] {
      var cut: KeyName := RawName(spaces[0], parts);
      var first := CutHere(ks, cut);
      CutHereExact(ks, cut);
      CutInExact(first.rest, parts, spaces[1..]);
      var others := CutIn(first.rest, parts, spaces[1..]);
      var p := CutIn(ks, parts, spaces);
      forall n ensures Get(p.taken, n).Some? <==> Get(ks, n).Some? && n.ns in spaces && parts <= n.parts {
        assert Splits(ks, first, n) && Splits(first.rest, others, n);
        assert Get(first.taken, n).Some? <==> Get(ks, n).Some? && Below(cut, n);
        assert n.ns in spaces <==> n.ns == spaces[0] || n.ns in spaces[1..];
      }
    }
  }

  /** A cut with a namespace takes exactly the keys at or below the cutpoint. */
  lemma CutExact(ks: KeySet, cut: KeyName, n: KeyName)
    requires cut.ns != Cascading
    ensures Get(Cut(ks, cut).taken, n).Some? <==> Get(ks, n).Some? && Below(cut, n)
  {
    CutHereExact(ks, cut);
  }

  /** What lets the last run of a cascading cut pass a name: it is gone already, or below the cutpoint. */
  predicate Passed(cut: KeyName, m: KeyName) {
    if m.ns in CutSpaces(cut) then cut.parts <= m.parts else BelowOrSame(cut, m)
  }

  /** Which keys a cut takes. In the visited namespaces a cascading cutpoint takes what is below its parts;
      elsewhere - cascading keys and the default namespace - a key is taken when the last run, which starts at
      the cutpoint itself, reaches it without meeting a key that stays. */
  predicate Takes(ks: KeySet, cut: KeyName, n: KeyName) {
    if cut.ns != Cascading then Below(cut, n)
    else if n.ns in CutSpaces(cut) then cut.parts <= n.parts
    else Le(cut, n) && forall k | k in ks && Le(cut, k.name) && Le(k.name, n) :: Passed(cut, k.name)
  }

  lemma {:induction false} RunReachesIff(ks: KeySet, cut: KeyName, i: nat)
    requires i < |ks|
    ensures Pos(ks, cut) <= i < HierarchyEnd(ks, cut, Pos(ks, cut)) <==>
            Le(cut, ks[i].name) && forall j | 0 <= j <= i && Le(cut, ks[j].name) :: BelowOrSame(cut, ks[j].name)
  {
    hide Lt;
    var f := Pos(ks, cut);
    var e := HierarchyEnd(ks, cut, f);
    PosSplits(ks, cut);
    LtTotal(cut, ks[i].name);
    if f <= i {
      NotBefore(ks, cut, i);
      forall j | 0 <= j <= i && Le(cut, ks[j].name) ensures f <= j { LtTotal(cut, ks[j].name); }
      if e <= i { NotBefore(ks, cut, e); }
    }
  }

  /** Which keys the last run takes, by names. */
  lemma {:induction false} RunTakes(ks: KeySet, cut: KeyName, n: KeyName)
    requires Get(ks, n).Some?
    ensures Get(CutHere(ks, cut).taken, n).Some? <==>
            Le(cut, n) && forall k | k in ks && Le(cut, k.name) && Le(k.name, n) :: BelowOrSame(cut, k.name)
  {
    hide Lt;
    GetIn(ks, n);
    var i :| 0 <= i < |ks| && ks[i] == Get(ks, n).value;
    TakenAt(ks, cut, i);
    RunReachesIff(ks, cut, i);
    forall j | 0 <= j < |ks| ensures Le(ks[j].name, n) <==> j <= i {
      LtTotal(ks[j].name, n);
      if j < i { assert Lt(ks[j].name, ks[i].name); }
      if i < j { assert Lt(ks[i].name, ks[j].name); LtIrreflexive(n); }
    }
    if Le(cut, n) && forall j | 0 <= j <= i && Le(cut, ks[j].name) :: BelowOrSame(cut, ks[j].name) {
      forall k | k in ks && Le(cut, k.name) && Le(k.name, n) ensures BelowOrSame(cut, k.name) {
        var j :| 0 <= j < |ks| && ks[j] == k;
      }
    }
  }

  /** Exactly which keys ksCut takes, for every cutpoint. */
  lemma {:induction false} CutTakes(ks: KeySet, cut: KeyName, n: KeyName)
    requires Get(ks, n).Some?
    ensures Get(Cut(ks, cut).taken, n).Some? <==> Takes(ks, cut, n)
  {
    hide Lt, CutIn;
    if cut.ns != Cascading {
      CutExact(ks, cut, n);
    } else {
      CutInExact(ks, cut.parts, CutSpaces(cut));
      var spaces := CutIn(ks, cut.parts, CutSpaces(cut));
      var here := CutHere(spaces.rest, cut);
      assert Splits(ks, spaces, n) && Splits(spaces.rest, here, n);
      if Get(spaces.rest, n).Some? {
        RunTakes(spaces.rest, cut, n);
        LastRun(ks, cut, spaces, n);
      }
    }
  }

  /** The keys that the last run meets are those that stay in their namespace. */
  lemma LastRun(ks: KeySet, cut: KeyName, spaces: Parted, n: KeyName)
    requires cut.ns == Cascading && Partition(ks, spaces)
    requires TakesExactly(ks, spaces, (m: KeyName) => m.ns in CutSpaces(cut) && cut.parts <= m.parts)
    ensures (forall k | k in spaces.rest && Le(cut, k.name) && Le(k.name, n) :: BelowOrSame(cut, k.name)) <==>
            (forall k | k in ks && Le(cut, k.name) && Le(k.name, n) :: Passed(cut, k.name))
  {
    hide Lt;
    forall k: Key ensures k in spaces.rest <==> k in ks && !(k.name.ns in CutSpaces(cut) && cut.parts <= k.name.parts) {
      assert Splits(ks, spaces, k.name);
      GetIn(ks, k.name);
      GetIn(spaces.rest, k.name);
      if k in ks { GetMember(ks, k); }
      if k in spaces.rest { GetMember(spaces.rest, k); }
    }
  }

  /** A cascading cut takes nothing that is not under the cutpoint, and outside the default namespace and the
      cascading keys all that is. */
  lemma CascadingCut(ks: KeySet, cut: KeyName, n: KeyName)
    requires cut.ns == Cascading && Get(ks, n).Some?
    ensures Get(Cut(ks, cut).taken, n).Some? ==> cut.parts <= n.parts
    ensures n.ns != Default && n.ns != Cascading ==> (Get(Cut(ks, cut).taken, n).Some? <==> cut.parts <= n.parts)
  {
    hide Lt;
    CutTakes(ks, cut, n);
    GetIn(ks, n);
    if Takes(ks, cut, n) && n.ns !in CutSpaces(cut) {
      assert Passed(cut, Get(ks, n).value.name);
    }
  }

  /** In the default namespace both happens: alone the key is taken, behind a key that stays it is not. */
  lemma DefaultCutExamples()
    ensures exists ks: KeySet, cut: KeyName, n: KeyName ::
      cut.ns == Cascading && n.ns == Default && cut.parts <= n.parts && Get(ks, n).Some? && Get(Cut(ks, cut).taken, n).Some?
    ensures exists ks: KeySet, cut: KeyName, n: KeyName ::
      cut.ns == Cascading && n.ns == Default && cut.parts <= n.parts && Get(ks, n).Some? && Get(Cut(ks, cut).taken, n).None?
  {
    hide Lt, Cut;
    var cut: KeyName, n: KeyName, other: KeyName := RawName(Cascading, [[97]]), RawName(Default, [[97]]), RawName(User, [[98]]);
    assert Lt(cut, n) && Lt(cut, other) && Lt(other, n) by {
      LtIsPartOrder(cut, n);
      LtIsPartOrder(cut, other);
      LtIsPartOrder(other, n);
    }
    var alone: KeySet, behind: KeySet := [Key(n, None, [])], [Key(other, None, []), Key(n, None, [])];
    GetAt(alone, 0);
    GetAt(behind, 1);
    CutTakes(alone, cut, n);
    CutTakes(behind, cut, n);
    assert Takes(alone, cut, n);
    assert behind[0] in behind && !Passed(cut, other);
    assert !Takes(behind, cut, n);
  }

  // ----- the split depends on the names alone

  lemma CutHereNames(a: KeySet, b: KeySet, cut: KeyName)
    requires SameNames(a, b)
    ensures SameNames(CutHere(a, cut).rest, CutHere(b, cut).rest)
    ensures SameNames(CutHere(a, cut).taken, CutHere(b, cut).taken)
  {
    PosNames(a, b, cut);
    var f := Pos(a, cut);
    EndNames(a, b, cut, f);
    var e := HierarchyEnd(a, cut, f);
    var x, y := CutHere(a, cut).rest, CutHere(b, cut).rest;
    forall i | 0 <= i < |x| ensures x[i].name == y[i].name {
      SliceAt(a, f, e, i);
      SliceAt(b, f, e, i);
    }
  }

  lemma PosNames(a: KeySet, b: KeySet, n: KeyName)
    requires SameNames(a, b)
    ensures Pos(a, n) == Pos(b, n)
  {
    var p, q := Pos(a, n), Pos(b, n);
    PosSplits(a, n);
    PosSplits(b, n);
    if p < |a| { assert a[p].name == b[p].name; }
    if q < |b| { assert a[q].name == b[q].name; }
  }

  lemma {:induction false} EndNames(a: KeySet, b: KeySet, cut: KeyName, it: nat)
    requires SameNames(a, b) && it <= |a|
    ensures HierarchyEnd(a, cut, it) == HierarchyEnd(b, cut, it)
    decreases |a| - it
  {
    if it < |a| {
      assert a[it].name == b[it].name;
      EndNames(a, b, cut, it + 1);
    }
  }

  lemma AppendNames(a: KeySet, b: KeySet, c: KeySet, d: KeySet)
    requires SameNames(a, b) && SameNames(c, d)
    ensures SameNames(Append(a, c), Append(b, d))
  {
    NamesFixDomain(a, b);
    NamesFixDomain(c, d);
    assert SameDomain(Append(a, c), Append(b, d));
    DomainFixesNames(Append(a, c), Append(b, d));
  }

  lemma NamesFixDomain(a: KeySet, b: KeySet)
    requires SameNames(a, b)
    ensures SameDomain(a, b)
  {
    forall n ensures Get(a, n).Some? <==> Get(b, n).Some? {
      PosNames(a, b, n);
    }
  }

  lemma {:induction false} CutInNames(a: KeySet, b: KeySet, parts: seq<Part>, spaces: seq<Namespace>)
    requires SameNames(a, b) && parts != [[]]
    ensures SameNames(CutIn(a, parts, spaces).rest, CutIn(b, parts, spaces).rest)
    ensures SameNames(CutIn(a, parts, spaces).taken, CutIn(b, parts, spaces).taken)
    decreases |spaces|
  {
    if spaces != [] {
      var cut: KeyName := RawName(spaces[0], parts);
      CutHereNames(a, b, cut);
      var x, y := CutHere(a, cut), CutHere(b, cut);
      CutInNames(x.rest, y.rest, parts, spaces[1..]);
      AppendNames(x.taken, y.taken, CutIn(x.rest, parts, spaces[1..]).taken, CutIn(y.rest, parts, spaces[1..]).taken);
    }
  }

  lemma CutNames(a: KeySet, b: KeySet, cut: KeyName)
    requires SameNames(a, b)
    ensures SameNames(Cut(a, cut).rest, Cut(b, cut).rest)
    ensures SameNames(Cut(a, cut).taken, Cut(b, cut).taken)
  {
    if cut.ns != Cascading {
      CutHereNames(a, b, cut);
    } else {
      CutInNames(a, b, cut.parts, CutSpaces(cut));
      var x, y := CutIn(a, cut.parts, CutSpaces(cut)), CutIn(b, cut.parts, CutSpaces(cut));
      CutHereNames(x.rest, y.rest, cut);
      AppendNames(CutHere(x.rest, cut).taken, CutHere(y.rest, cut).taken, x.taken, y.taken);
    }
  }
}
