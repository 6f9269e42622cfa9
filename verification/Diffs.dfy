/** The contents of a diff: four KeySets, read as one change per name. */
module Diffs {
  import opened Wrappers
  import opened KeyNames
  import opened KeySets
  import opened Cutting
  import opened Changes

  datatype Diff = Diff(added: KeySet, removed: KeySet, modifiedOld: KeySet, modifiedNew: KeySet)

  /** The change recorded at `n`. */
  function At(d: Diff, n: KeyName): Change {
    if Get(d.added, n).Some? then Added(Get(d.added, n).value)
    else if Get(d.removed, n).Some? then Removed(Get(d.removed, n).value)
    else if Get(d.modifiedOld, n).Some? && Get(d.modifiedNew, n).Some?
    then Modified(Get(d.modifiedOld, n).value, Get(d.modifiedNew, n).value)
    else Unchanged
  }

  /** The diff records exactly `c` at `n`: the other KeySets do not have the name. */
  predicate Records(d: Diff, n: KeyName, c: Change) {
    Get(d.added, n) == (if c.Added? then Some(c.key) else None) &&
    Get(d.removed, n) == (if c.Removed? then Some(c.key) else None) &&
    Get(d.modifiedOld, n) == (if c.Modified? then Some(c.oldKey) else None) &&
    Get(d.modifiedNew, n) == (if c.Modified? then Some(c.newKey) else None)
  }

  predicate WellFormedAt(d: Diff, n: KeyName) {
    Records(d, n, At(d, n)) && Proper(At(d, n))
  }

  /** Names disjoint, modified pairs complete and really different, at every name. */
  ghost predicate WellFormed(d: Diff) {
    forall n :: WellFormedAt(d, n)
  }

  lemma RecordsAt(d: Diff, n: KeyName, c: Change)
    requires Records(d, n, c)
    ensures At(d, n) == c
  {
  }

  /** In a well-formed diff both modified KeySets hold the same names at the same positions. */
  lemma ModifiedAligned(d: Diff)
    requires WellFormed(d)
    ensures SameNames(d.modifiedOld, d.modifiedNew)
  {
    forall n ensures Get(d.modifiedOld, n).Some? <==> Get(d.modifiedNew, n).Some? {
      assert WellFormedAt(d, n);
    }
    DomainFixesNames(d.modifiedOld, d.modifiedNew);
  }

  lemma EmptyIff(ks: KeySet)
    ensures ks == [] <==> forall n :: Get(ks, n).None?
  {
    if ks != [] { GetAt(ks, 0); }
  }

  /** elektraDiffIsEmpty counts three KeySets; it means no change anywhere. */
  lemma EmptyMeansUnchanged(d: Diff)
    requires WellFormed(d)
    ensures |d.added| + |d.removed| + |d.modifiedOld| == 0 <==> forall n :: At(d, n).Unchanged?
  {
    EmptyIff(d.added);
    EmptyIff(d.removed);
    EmptyIff(d.modifiedOld);
    if forall n :: At(d, n).Unchanged? {
      forall n ensures Get(d.added, n).None? && Get(d.removed, n).None? && Get(d.modifiedOld, n).None? {
        assert WellFormedAt(d, n) && At(d, n).Unchanged?;
      }
    }
  }

  // ----- the difference of two KeySets

  ghost predicate IsDifference(d: Diff, newKeys: KeySet, oldKeys: KeySet, parent: Option<KeyName>) {
    forall n :: DiffersAt(d, newKeys, oldKeys, parent, n)
  }

  predicate DiffersAt(d: Diff, newKeys: KeySet, oldKeys: KeySet, parent: Option<KeyName>, n: KeyName) {
    Records(d, n, ChangeOf(parent, n, Get(newKeys, n), Get(oldKeys, n)))
  }

  /** What a calculated diff records for two versions of a key without metadata: a modification exactly when the bytes
      before the first zero byte differ. */
  lemma TextRecorded(d: Diff, newKeys: KeySet, oldKeys: KeySet, parent: Option<KeyName>, n: KeyName,
                     x: seq<Byte>, y: seq<Byte>, u: seq<Byte>, v: seq<Byte>)
    requires IsDifference(d, newKeys, oldKeys, parent) && n.ns != Cascading && InScope(parent, n) && 0 !in x && 0 !in y
    requires Get(oldKeys, n) == Some(Key(n, Some(x + [0] + u), [])) && Get(newKeys, n) == Some(Key(n, Some(y + [0] + v), []))
    ensures At(d, n) == if x == y then Unchanged else Modified(Get(oldKeys, n).value, Get(newKeys, n).value)
  {
    hide ChangeOf;
    assert DiffersAt(d, newKeys, oldKeys, parent, n);
    TextModified(parent, n, x, y, u, v);
  }

  /** With the metadata key named by the bytes of "binary" exactly when any of the data differs. */
  lemma BinaryRecorded(d: Diff, newKeys: KeySet, oldKeys: KeySet, parent: Option<KeyName>, n: KeyName, mark: Key, x: seq<Byte>, y: seq<Byte>)
    requires IsDifference(d, newKeys, oldKeys, parent) && n.ns != Cascading && InScope(parent, n)
    requires mark.name == RawName(Meta, [[98, 105, 110, 97, 114, 121]])
    requires Get(oldKeys, n) == Some(Key(n, Some(x), [mark])) && Get(newKeys, n) == Some(Key(n, Some(y), [mark]))
    ensures At(d, n) == if x == y then Unchanged else Modified(Get(oldKeys, n).value, Get(newKeys, n).value)
  {
    hide ChangeOf;
    assert DiffersAt(d, newKeys, oldKeys, parent, n);
    BinaryModified(parent, n, mark, x, y);
  }

  lemma DifferenceWellFormed(d: Diff, newKeys: KeySet, oldKeys: KeySet, parent: Option<KeyName>)
    requires IsDifference(d, newKeys, oldKeys, parent)
    requires ValidKeys(newKeys) && ValidKeys(oldKeys)
    ensures WellFormed(d)
  {
    forall n ensures WellFormedAt(d, n) {
      assert DiffersAt(d, newKeys, oldKeys, parent, n);
      GetIn(newKeys, n);
      GetIn(oldKeys, n);
    }
  }

  // ----- the composition law for whole diffs

  /** `r` is `t` with `s` appended inside the scope of `parent`. */
  ghost predicate IsAppended(r: Diff, t: Diff, s: Diff, parent: Option<KeyName>) {
    WellFormed(r) && forall n :: AppendedAt(r, t, s, parent, n)
  }

  predicate AppendedAt(r: Diff, t: Diff, s: Diff, parent: Option<KeyName>, n: KeyName) {
    At(r, n) == if InScope(parent, n) then Compose(At(t, n), At(s, n)) else At(t, n)
  }

  ghost predicate NoConflict(t: Diff, s: Diff, parent: Option<KeyName>) {
    forall n :: InScope(parent, n) ==> !Conflict(At(t, n), At(s, n))
  }

  /** The same names in each of the four KeySets, with the same contents. */
  ghost predicate SameDiff(x: Diff, y: Diff) {
    SameNames(x.added, y.added) && SameNames(x.removed, y.removed) &&
    SameNames(x.modifiedOld, y.modifiedOld) && SameNames(x.modifiedNew, y.modifiedNew) &&
    forall n :: SameChange(At(x, n), At(y, n))
  }

  ghost predicate NoMetaDrift(a: KeySet, b: KeySet, c: KeySet, parent: Option<KeyName>) {
    forall n :: !MetaDrift(parent, n, Get(a, n), Get(b, n), Get(c, n))
  }

  lemma SameChangesSameNames(x: Diff, y: Diff)
    requires WellFormed(x) && WellFormed(y)
    requires forall n :: SameChange(At(x, n), At(y, n))
    ensures SameDiff(x, y)
  {
    forall n
      ensures Get(x.added, n).Some? <==> Get(y.added, n).Some?
      ensures Get(x.removed, n).Some? <==> Get(y.removed, n).Some?
      ensures Get(x.modifiedOld, n).Some? <==> Get(y.modifiedOld, n).Some?
      ensures Get(x.modifiedNew, n).Some? <==> Get(y.modifiedNew, n).Some?
    {
      assert WellFormedAt(x, n) && WellFormedAt(y, n) && SameChange(At(x, n), At(y, n));
    }
    DomainFixesNames(x.added, y.added);
    DomainFixesNames(x.removed, y.removed);
    DomainFixesNames(x.modifiedOld, y.modifiedOld);
    DomainFixesNames(x.modifiedNew, y.modifiedNew);
  }

  lemma DiffsComposeAt(a: KeySet, b: KeySet, c: KeySet, parent: Option<KeyName>,
                       ab: Diff, bc: Diff, abc: Diff, ac: Diff, n: KeyName)
    requires DiffersAt(ab, b, a, parent, n) && DiffersAt(bc, c, b, parent, n) && DiffersAt(ac, c, a, parent, n)
    requires AppendedAt(abc, ab, bc, parent, n)
    ensures InScope(parent, n) ==> !Conflict(At(ab, n), At(bc, n))
    ensures SameChange(At(abc, n), At(ac, n)) <==> !MetaDrift(parent, n, Get(a, n), Get(b, n), Get(c, n))
  {
    RecordsAt(ab, n, ChangeOf(parent, n, Get(b, n), Get(a, n)));
    RecordsAt(bc, n, ChangeOf(parent, n, Get(c, n), Get(b, n)));
    RecordsAt(ac, n, ChangeOf(parent, n, Get(c, n), Get(a, n)));
    ComposeAt(parent, n, Get(a, n), Get(b, n), Get(c, n));
  }

  /** Diffs compose: the diff from `a` to `b` with the diff from `b` to `c` appended is the diff from
      `a` to `c`, name by name and content by content, and never conflicts - exactly when no metadata
      of a meta key drifts. */
  lemma DiffsCompose(a: KeySet, b: KeySet, c: KeySet, parent: Option<KeyName>,
                     ab: Diff, bc: Diff, abc: Diff, ac: Diff)
    requires ValidKeys(a) && ValidKeys(b) && ValidKeys(c)
    requires IsDifference(ab, b, a, parent)
    requires IsDifference(bc, c, b, parent)
    requires IsDifference(ac, c, a, parent)
    requires IsAppended(abc, ab, bc, parent)
    ensures NoConflict(ab, bc, parent)
    ensures SameDiff(abc, ac) <==> NoMetaDrift(a, b, c, parent)
  {
    DifferenceWellFormed(ac, c, a, parent);
    forall n
      ensures InScope(parent, n) ==> !Conflict(At(ab, n), At(bc, n))
      ensures SameChange(At(abc, n), At(ac, n)) <==> !MetaDrift(parent, n, Get(a, n), Get(b, n), Get(c, n))
    {
      DiffsComposeAt(a, b, c, parent, ab, bc, abc, ac, n);
    }
    if NoMetaDrift(a, b, c, parent) {
      SameChangesSameNames(abc, ac);
    }
  }

  /** Without meta keys nothing can drift. */
  lemma NoMetaKeysNoDrift(a: KeySet, b: KeySet, c: KeySet, parent: Option<KeyName>)
    requires forall k | k in a :: k.name.ns != Meta
    ensures NoMetaDrift(a, b, c, parent)
  {
    forall n ensures !MetaDrift(parent, n, Get(a, n), Get(b, n), Get(c, n)) { GetIn(a, n); }
  }

  const DriftName: KeyName := RawName(Meta, [[97]])
  const Bare: Key := Key(DriftName, None, [])
  const Marked: Key := Key(DriftName, None, [Key(RawName(Meta, [[98]]), None, [])])

  /** The drift happens: remove a meta key and add it back with a metadata key of its own. */
  lemma MetaDriftExample(a: KeySet, b: KeySet, c: KeySet)
    requires a == [Bare] && b == [] && c == [Marked]
    ensures ValidKeys(a) && ValidKeys(b) && ValidKeys(c) && !NoMetaDrift(a, b, c, None)
  {
    GetAt(a, 0);
    GetAt(c, 0);
    assert !SameMeta(Bare, Marked);
    assert MetaDrift(None, DriftName, Get(a, DriftName), Get(b, DriftName), Get(c, DriftName));
  }

  // ----- undo

  ghost predicate IsUndone(r: KeySet, d: Diff, ks: KeySet) {
    forall n :: Get(r, n) == UndoAt(At(d, n), Get(ks, n))
  }

  /** Cutting a diff in two and undoing both parts, in either order, is undoing the diff. */
  lemma UndoParts(d: Diff, x: Diff, y: Diff, ks: KeySet, once: KeySet, twice: KeySet, whole: KeySet)
    requires IsSplit(d, x, y)
    requires IsUndone(once, x, ks) && IsUndone(twice, y, once) && IsUndone(whole, d, ks)
    ensures twice == whole
  {
    forall n ensures Get(twice, n) == Get(whole, n) { assert SplitAt(d, x, y, n); }
    Extensional(twice, whole);
  }

  // ----- one key at a time

  ghost predicate SameElsewhere(r: Diff, t: Diff, k: KeyName) {
    forall n | n != k ::
      Get(r.added, n) == Get(t.added, n) && Get(r.removed, n) == Get(t.removed, n) &&
      Get(r.modifiedOld, n) == Get(t.modifiedOld, n) && Get(r.modifiedNew, n) == Get(t.modifiedNew, n)
  }

  /** `r` is `t` with the change `s` composed onto the one at `k`. */
  ghost predicate IsStepped(r: Diff, t: Diff, k: KeyName, s: Change) {
    WellFormed(r) && forall n :: At(r, n) == if n == k then Compose(At(t, n), s) else At(t, n)
  }

  lemma StepRecorded(r: Diff, t: Diff, k: KeyName, s: Change)
    requires WellFormed(t) && Proper(s)
    requires SameElsewhere(r, t, k)
    requires Records(r, k, Compose(At(t, k), s))
    ensures IsStepped(r, t, k, s)
  {
    assert WellFormedAt(t, k);
    ComposeProper(At(t, k), s);
    RecordsAt(r, k, Compose(At(t, k), s));
    forall n
      ensures WellFormedAt(r, n)
      ensures At(r, n) == if n == k then Compose(At(t, n), s) else At(t, n)
    {
      assert WellFormedAt(t, n);
    }
  }

  /** `r` is `t` with the changes of `s` composed at the names of `keys` inside the scope. */
  ghost predicate IsFolded(r: Diff, t: Diff, s: Diff, keys: KeySet, parent: Option<KeyName>) {
    WellFormed(r) && forall n :: FoldedAt(r, t, s, keys, parent, n)
  }

  predicate FoldedAt(r: Diff, t: Diff, s: Diff, keys: KeySet, parent: Option<KeyName>, n: KeyName) {
    At(r, n) == if InScope(parent, n) && Get(keys, n).Some? then Compose(At(t, n), At(s, n)) else At(t, n)
  }

  lemma FoldStart(t: Diff, s: Diff, parent: Option<KeyName>)
    requires WellFormed(t)
    ensures IsFolded(t, t, s, [], parent)
  {
    forall n ensures FoldedAt(t, t, s, [], parent, n) {}
  }

  lemma FoldStep(r': Diff, r: Diff, t: Diff, s: Diff, keys: KeySet, i: nat, parent: Option<KeyName>)
    requires i < |keys|
    requires IsFolded(r, t, s, keys[..i], parent)
    requires InScope(parent, keys[i].name) ==> IsStepped(r', r, keys[i].name, At(s, keys[i].name))
    requires !InScope(parent, keys[i].name) ==> r' == r
    ensures IsFolded(r', t, s, keys[..i + 1], parent)
  {
    var next: KeySet := keys[..i + 1];
    forall n ensures FoldedAt(r', t, s, next, parent, n) {
      GetPrefix(keys, i, n);
      assert FoldedAt(r, t, s, keys[..i], parent, n);
    }
  }

  /** Folding in the three KeySets of a well-formed diff, one after the other, appends the diff. */
  lemma FoldsAppend(t: Diff, r1: Diff, r2: Diff, r3: Diff, s: Diff, parent: Option<KeyName>)
    requires WellFormed(t) && WellFormed(s)
    requires IsFolded(r1, t, s, s.added, parent)
    requires IsFolded(r2, r1, s, s.modifiedNew, parent)
    requires IsFolded(r3, r2, s, s.removed, parent)
    ensures IsAppended(r3, t, s, parent)
  {
    forall n ensures AppendedAt(r3, t, s, parent, n) {
      assert WellFormedAt(s, n);
      assert FoldedAt(r1, t, s, s.added, parent, n) && FoldedAt(r2, r1, s, s.modifiedNew, parent, n)
          && FoldedAt(r3, r2, s, s.removed, parent, n);
    }
  }

  // ----- splitting a diff at a cutpoint

  predicate SplitAt(d: Diff, x: Diff, y: Diff, n: KeyName) {
    (At(x, n) == At(d, n) && At(y, n).Unchanged?) || (At(y, n) == At(d, n) && At(x, n).Unchanged?)
  }

  /** `x` and `y` are well-formed, have no name in common, and together are `d`. */
  ghost predicate IsSplit(d: Diff, x: Diff, y: Diff) {
    WellFormed(x) && WellFormed(y) && forall n :: SplitAt(d, x, y, n)
  }

  function RestOf(d: Diff, cut: KeyName): Diff {
    Diff(Cut(d.added, cut).rest, Cut(d.removed, cut).rest, Cut(d.modifiedOld, cut).rest, Cut(d.modifiedNew, cut).rest)
  }

  function TakenFrom(d: Diff, cut: KeyName): Diff {
    Diff(Cut(d.added, cut).taken, Cut(d.removed, cut).taken, Cut(d.modifiedOld, cut).taken, Cut(d.modifiedNew, cut).taken)
  }

  lemma CutSplits(d: Diff, cut: KeyName)
    requires WellFormed(d)
    ensures IsSplit(d, RestOf(d, cut), TakenFrom(d, cut))
  {
    var x, y := RestOf(d, cut), TakenFrom(d, cut);
    ModifiedAligned(d);
    CutNames(d.modifiedOld, d.modifiedNew, cut);
    NamesFixDomain(x.modifiedOld, x.modifiedNew);
    NamesFixDomain(y.modifiedOld, y.modifiedNew);
    forall n ensures SplitAt(d, x, y, n) && WellFormedAt(x, n) && WellFormedAt(y, n) {
      assert WellFormedAt(d, n);
      assert Splits(d.added, Cut(d.added, cut), n) && Splits(d.removed, Cut(d.removed, cut), n);
      assert Splits(d.modifiedOld, Cut(d.modifiedOld, cut), n) && Splits(d.modifiedNew, Cut(d.modifiedNew, cut), n);
      assert Get(y.modifiedOld, n).Some? <==> Get(y.modifiedNew, n).Some?;
    }
  }

  /** The KeySet that has the name. */
  function HomeOf(d: Diff, n: KeyName): KeySet {
    if Get(d.added, n).Some? then d.added
    else if Get(d.removed, n).Some? then d.removed
    else d.modifiedOld
  }

  /** The taken part is what was recorded at the names that the cut takes, the rest is everything else. */
  lemma {:induction false} CutTakesChanges(d: Diff, cut: KeyName, n: KeyName)
    requires WellFormed(d)
    ensures At(TakenFrom(d, cut), n) == if Takes(HomeOf(d, n), cut, n) then At(d, n) else Unchanged
    ensures At(RestOf(d, cut), n) == if Takes(HomeOf(d, n), cut, n) then Unchanged else At(d, n)
  {
    hide Lt, Cut, Takes;
    CutSplits(d, cut);
    assert SplitAt(d, RestOf(d, cut), TakenFrom(d, cut), n);
    assert WellFormedAt(d, n) && WellFormedAt(RestOf(d, cut), n) && WellFormedAt(TakenFrom(d, cut), n);
    if !At(d, n).Unchanged? { CutTakes(HomeOf(d, n), cut, n); }
    assert Splits(d.added, Cut(d.added, cut), n) && Splits(d.removed, Cut(d.removed, cut), n);
    assert Splits(d.modifiedOld, Cut(d.modifiedOld, cut), n);
  }

  /** Everything a cut guarantees, for all names. */
  ghost predicate PartsCut(d: Diff, x: Diff, y: Diff, cut: KeyName) {
    forall n ::
      At(y, n) == (if Takes(HomeOf(d, n), cut, n) then At(d, n) else Unchanged) &&
      At(x, n) == (if Takes(HomeOf(d, n), cut, n) then Unchanged else At(d, n))
  }

  lemma CutParts(d: Diff, cut: KeyName)
    requires WellFormed(d)
    ensures IsSplit(d, RestOf(d, cut), TakenFrom(d, cut))
    ensures PartsCut(d, RestOf(d, cut), TakenFrom(d, cut), cut)
    ensures d.modifiedNew == [] ==> RestOf(d, cut).modifiedNew == [] && TakenFrom(d, cut).modifiedNew == []
  {
    CutSplits(d, cut);
    CutEmpty(cut);
    forall n
      ensures At(TakenFrom(d, cut), n) == if Takes(HomeOf(d, n), cut, n) then At(d, n) else Unchanged
      ensures At(RestOf(d, cut), n) == if Takes(HomeOf(d, n), cut, n) then Unchanged else At(d, n)
    {
      CutTakesChanges(d, cut, n);
    }
  }

  lemma CutEmpty(cut: KeyName)
    ensures Cut([], cut) == Parted([], [])
  {
    var p := Cut([], cut);
    forall n ensures Get(p.rest, n).None? && Get(p.taken, n).None? {
      assert Splits([], p, n);
    }
    EmptyIff(p.rest);
    EmptyIff(p.taken);
  }

  // ----- removing one name

  /** The namespaces that a cascading ksLookup visits when it takes out what it finds. */
  const SEARCHED: seq<Namespace> := [Spec, Proc, Dir, User, System, Default, Cascading]

  function FirstIn(ks: KeySet, n: KeyName, spaces: seq<Namespace>): Option<KeyName> {
    if spaces == [] then None
    else if Get(ks, RawName(spaces[0], n.parts)).Some? then Some(RawName(spaces[0], n.parts))
    else FirstIn(ks, n, spaces[1..])
  }

  function Found(ks: KeySet, n: KeyName): Option<KeyName> {
    if n.ns == Cascading then FirstIn(ks, n, SEARCHED)
    else if Get(ks, n).Some? then Some(n)
    else None
  }

  /** ksLookup with KDB_O_POP. */
  function Pop(ks: KeySet, n: KeyName): KeySet {
    if Found(ks, n).Some? then Remove(ks, Found(ks, n).value) else ks
  }

  /** The order in which the namespaces are visited; those of the meta namespace are not. */
  function Turn(ns: Namespace): nat {
    match ns
    case Spec => 0
    case Proc => 1
    case Dir => 2
    case User => 3
    case System => 4
    case Default => 5
    case Cascading => 6
    case Meta => 7
  }

  /** The name is the one that a lookup of `k` finds: it has the same parts and is in the namespace of `k` or, when `k` is
      cascading, no namespace visited earlier has such a key. */
  ghost predicate Hits(ks: KeySet, k: KeyName, n: KeyName) {
    Get(ks, n).Some? && n.parts == k.parts &&
    if k.ns != Cascading then n.ns == k.ns
    else n.ns != Meta && forall ns: Namespace | Turn(ns) < Turn(n.ns) :: Get(ks, RawName(ns, k.parts)).None?
  }

  lemma {:induction false} FirstInHits(ks: KeySet, k: KeyName, i: nat)
    requires i <= |SEARCHED| && forall ns: Namespace | Turn(ns) < i :: Get(ks, RawName(ns, k.parts)).None?
    ensures var found := FirstIn(ks, k, SEARCHED[i..]);
            if found.Some?
            then found.value.parts == k.parts && found.value.ns != Meta && Get(ks, found.value).Some? &&
                 forall ns: Namespace | Turn(ns) < Turn(found.value.ns) :: Get(ks, RawName(ns, k.parts)).None?
            else forall ns: Namespace | ns != Meta :: Get(ks, RawName(ns, k.parts)).None?
    decreases |SEARCHED| - i
  {
    if i < |SEARCHED| {
      TurnIs(i);
      if Get(ks, RawName(SEARCHED[i], k.parts)).None? {
        assert SEARCHED[i..][1..] == SEARCHED[i + 1..];
        FirstInHits(ks, k, i + 1);
      }
    }
  }

  lemma TurnIs(i: nat)
    requires i < |SEARCHED|
    ensures Turn(SEARCHED[i]) == i && forall ns: Namespace | Turn(ns) == i :: ns == SEARCHED[i]
  {
  }

  lemma FoundHits(ks: KeySet, k: KeyName)
    ensures var found := Found(ks, k); if found.Some? then Hits(ks, k, found.value) else forall n :: !Hits(ks, k, n)
  {
    if k.ns == Cascading {
      assert SEARCHED[0..] == SEARCHED;
      FirstInHits(ks, k, 0);
      forall n ensures Found(ks, k).None? ==> !Hits(ks, k, n) { assert n == RawName(n.ns, n.parts); }
    }
  }

  lemma HitUnique(ks: KeySet, k: KeyName, n: KeyName, m: KeyName)
    requires Hits(ks, k, n) && Hits(ks, k, m)
    ensures n == m
  {
    assert n == RawName(n.ns, k.parts) && m == RawName(m.ns, k.parts);
    if k.ns == Cascading { assert Turn(n.ns) == Turn(m.ns); }
  }

  /** Exactly the key that the lookup finds is taken out. */
  lemma PopGet(ks: KeySet, k: KeyName, n: KeyName)
    ensures Get(Pop(ks, k), n) == if Hits(ks, k, n) then None else Get(ks, n)
  {
    hide Hits, Found;
    FoundHits(ks, k);
    if Hits(ks, k, n) && Found(ks, k).Some? { HitUnique(ks, k, n, Found(ks, k).value); }
  }

  function PopAll(d: Diff, k: KeyName): Diff {
    Diff(Pop(d.added, k), Pop(d.removed, k), Pop(d.modifiedOld, k), Pop(d.modifiedNew, k))
  }

  /** The change at a name is found by a lookup among the changes of its kind. */
  ghost predicate HitsChange(d: Diff, k: KeyName, n: KeyName) {
    Hits(d.added, k, n) || Hits(d.removed, k, n) || Hits(d.modifiedOld, k, n)
  }

  lemma PopAllAt(d: Diff, k: KeyName, n: KeyName)
    requires WellFormed(d)
    ensures WellFormedAt(PopAll(d, k), n) && At(PopAll(d, k), n) == if HitsChange(d, k, n) then Unchanged else At(d, n)
  {
    hide Pop, SameKey, ValidKey, Hits, Get;
    PopGet(d.added, k, n);
    PopGet(d.removed, k, n);
    PopGet(d.modifiedOld, k, n);
    PopGet(d.modifiedNew, k, n);
    assert WellFormedAt(d, n);
    SameHits(d, k, n);
    HitsHeld(d.added, k, n);
    HitsHeld(d.removed, k, n);
    HitsHeld(d.modifiedOld, k, n);
  }

  lemma SameHits(d: Diff, k: KeyName, n: KeyName)
    requires WellFormed(d)
    ensures Hits(d.modifiedOld, k, n) <==> Hits(d.modifiedNew, k, n)
  {
    hide Proper;
    forall m: KeyName ensures Get(d.modifiedOld, m).Some? <==> Get(d.modifiedNew, m).Some? { assert WellFormedAt(d, m); }
    forall ns: Namespace
      ensures Get(d.modifiedOld, RawName(ns, k.parts)).Some? <==> Get(d.modifiedNew, RawName(ns, k.parts)).Some? {}
  }

  lemma HitsHeld(ks: KeySet, k: KeyName, n: KeyName)
    ensures Hits(ks, k, n) ==> Get(ks, n).Some?
  {
  }

  /** Of each kind of change the one that is found goes, for a name in a namespace the change at this name. */
  lemma PopWellFormed(d: Diff, k: KeyName)
    requires WellFormed(d)
    ensures WellFormed(PopAll(d, k))
    ensures forall n :: At(PopAll(d, k), n) == if HitsChange(d, k, n) then Unchanged else At(d, n)
    ensures k.ns != Cascading ==> forall n :: At(PopAll(d, k), n) == if n == k then Unchanged else At(d, n)
  {
    hide PopAll, Hits;
    forall n ensures WellFormedAt(PopAll(d, k), n) && At(PopAll(d, k), n) == if HitsChange(d, k, n) then Unchanged else At(d, n) {
      PopAllAt(d, k, n);
    }
    if k.ns != Cascading {
      forall n ensures At(PopAll(d, k), n) == if n == k then Unchanged else At(d, n) { HitsPlain(d, k, n); }
    }
  }

  lemma HitsPlain(d: Diff, k: KeyName, n: KeyName)
    requires WellFormed(d) && k.ns != Cascading
    ensures HitsChange(d, k, n) <==> n == k && !At(d, n).Unchanged?
  {
    assert WellFormedAt(d, n);
  }

  // Metadata that makes a lookup leave a key of its own in the KeySet that is searched.
  const DefaultMeta: KeyName := RawName(Meta, [[100, 101, 102, 97, 117, 108, 116]])

  /** No specification of `k` that gives a default value. */
  predicate NoDefaultFor(ks: KeySet, k: KeyName) {
    var spec := Get(ks, RawName(Spec, k.parts));
    spec.Some? ==> forall i | 0 <= i < |spec.value.meta| :: spec.value.meta[i].name != DefaultMeta
  }

  predicate NoDefaults(d: Diff, k: KeyName) {
    NoDefaultFor(d.added, k) && NoDefaultFor(d.removed, k) && NoDefaultFor(d.modifiedOld, k) && NoDefaultFor(d.modifiedNew, k)
  }

  // ----- a run of versions

  /** The diff fits the first and the current version at every name. */
  ghost predicate FitsRun(d: Diff, first: KeySet, now: KeySet, parent: Option<KeyName>) {
    forall n :: Fits(parent, n, At(d, n), Get(first, n), Get(now, n))
  }

  lemma RunStepAt(d: Diff, step: Diff, d': Diff, first: KeySet, now: KeySet, next: KeySet, parent: Option<KeyName>, n: KeyName)
    requires WellFormedAt(d, n) && Fits(parent, n, At(d, n), Get(first, n), Get(now, n))
    requires DiffersAt(step, next, now, parent, n) && AppendedAt(d', d, step, parent, n)
    ensures Fits(parent, n, At(d', n), Get(first, n), Get(next, n))
    ensures InScope(parent, n) ==> !Conflict(At(d, n), At(step, n))
  {
    hide Lt;
    RecordsAt(step, n, ChangeOf(parent, n, Get(next, n), Get(now, n)));
    ComposeFits(parent, n, At(d, n), Get(first, n), Get(now, n), Get(next, n));
  }

  lemma RunStep(d: Diff, step: Diff, d': Diff, first: KeySet, now: KeySet, next: KeySet, parent: Option<KeyName>)
    requires WellFormed(d) && FitsRun(d, first, now, parent)
    requires IsDifference(step, next, now, parent)
    requires IsAppended(d', d, step, parent)
    ensures FitsRun(d', first, next, parent)
    ensures NoConflict(d, step, parent)
  {
    hide At, Fits, Conflict, WellFormedAt, DiffersAt, AppendedAt, InScope;
    forall n
      ensures Fits(parent, n, At(d', n), Get(first, n), Get(next, n))
      ensures InScope(parent, n) ==> !Conflict(At(d, n), At(step, n))
    {
      assert WellFormedAt(d, n) && Fits(parent, n, At(d, n), Get(first, n), Get(now, n));
      assert DiffersAt(step, next, now, parent, n) && AppendedAt(d', d, step, parent, n);
      RunStepAt(d, step, d', first, now, next, parent, n);
    }
  }

  /** In scope the first version's content, elsewhere the current keys untouched. */
  predicate RestoredAt(r: KeySet, first: KeySet, now: KeySet, parent: Option<KeyName>, n: KeyName) {
    if n.ns == Cascading || !InScope(parent, n) then Get(r, n) == Get(now, n)
    else SameOption(Get(r, n), Get(first, n))
  }

  ghost predicate Restored(r: KeySet, first: KeySet, now: KeySet, parent: Option<KeyName>) {
    forall n :: RestoredAt(r, first, now, parent, n)
  }

  lemma UndoRestores(d: Diff, first: KeySet, now: KeySet, r: KeySet, parent: Option<KeyName>)
    requires FitsRun(d, first, now, parent) && IsUndone(r, d, now)
    ensures Restored(r, first, now, parent)
  {
    forall n ensures RestoredAt(r, first, now, parent, n) {
      assert Fits(parent, n, At(d, n), Get(first, n), Get(now, n));
      assert Get(r, n) == UndoAt(At(d, n), Get(now, n));
    }
  }
}
