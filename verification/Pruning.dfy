/** kdbSet drops read-only backends and backends whose keys did not change since kdbGet. */
module Pruning {
  import opened Wrappers
  import opened KeyNames
  import opened KeySets
  import opened Changes
  import opened Diffs
  import opened ElektraDiffs
  import opened Mountpoints
  import opened Backends
  import opened ErrorRecord
  import opened Reports
  import opened ParentKeys
  import opened Answers
  import opened RunReports

  /** At or below `root`, and not at or below a listed mountpoint nested in it. */
  predicate Exposed(names: seq<KeyName>, root: KeyName, n: KeyName) {
    Below(root, n) && forall m | m in names && m != root && Below(root, m) :: !Below(m, n)
  }

  /** What is exposed to a mountpoint is what it owns. */
  lemma ExposedIsOwned(names: seq<KeyName>, b: nat, n: KeyName)
    requires MountTable(names) && b < |names|
    ensures Exposed(names, names[b], n) <==> IsOwner(names, n, b)
  {
    var root := names[b];
    if Exposed(names, root, n) {
      forall j | 0 <= j < |names| && Below(names[j], n) ensures Below(names[j], root) {
        assert names[j] in names;
        assert Below(names[j], root) || Below(root, names[j]);
      }
    }
    if IsOwner(names, n, b) {
      forall m | m in names && m != root && Below(root, m) ensures !Below(m, n) {
        var j :| 0 <= j < |names| && names[j] == m;
        assert Below(m, n) ==> Below(m, root);
      }
    }
  }

  /** The keys differ from what kdbGet left, seen from this mountpoint; without a record of kdbGet
      nothing differs. */
  ghost predicate Differs(names: seq<KeyName>, root: KeyName, keys: KeySet, allKeys: Option<KeySet>) {
    allKeys.Some? &&
    exists n :: Exposed(names, root, n) && !SameOption(Get(allKeys.value, n), Get(keys, n))
  }

  ghost predicate Changed(names: seq<KeyName>, root: KeyName, keys: KeySet, getSize: nat, allKeys: Option<KeySet>) {
    Differs(names, root, keys, allKeys) || getSize != |keys|
  }

  // ----- one backend

  /** The positions from `i` on that hold names below the one at `i` end at `end`. */
  method HierarchyOf(names: seq<KeyName>, i: nat) returns (end: nat)
    requires MountTable(names) && i < |names|
    ensures i < end <= |names|
    ensures forall j | 0 <= j < |names| :: Below(names[i], names[j]) <==> i <= j < end
  {
    hide Lt;
    end := i + 1;
    while end < |names| && BelowOrSame(names[i], names[end])
      invariant i < end <= |names|
      invariant forall j | i <= j < end :: Below(names[i], names[j])
    {
      end := end + 1;
    }
    forall j | 0 <= j < |names| && Below(names[i], names[j]) ensures i <= j < end {
      BelowSortsAfter(names[i], names[j]);
      LtTotal(names[i], names[j]);
      if j >= end { Contiguous(names[i], names[end], names[j]); }
    }
  }

  /** Outside the removed hierarchies the diff is untouched, inside it is empty. */
  ghost predicate Reduced(d: Diff, whole: Diff, removed: seq<KeyName>) {
    forall n :: At(d, n) == if exists m | m in removed :: Below(m, n) then Unchanged else At(whole, n)
  }

  lemma ReducedStart(d: Diff)
    ensures Reduced(d, d, [])
  {
  }

  lemma NotCascading(names: seq<KeyName>)
    requires MountTable(names)
    ensures forall i | 0 <= i < |names| :: names[i].ns != Cascading
  {
  }

  lemma OneMore(names: seq<KeyName>, a: nat, b: nat)
    requires a <= b < |names|
    ensures names[a..b] + [names[b]] == names[a..b + 1]
  {
  }

  lemma NothingDiffers(names: seq<KeyName>, root: KeyName, keys: KeySet)
    ensures !Differs(names, root, keys, None)
  {
  }

  lemma ReducedStep(d: Diff, d': Diff, taken: Diff, whole: Diff, removed: seq<KeyName>, m: KeyName)
    requires Reduced(d, whole, removed) && PartsCut(d, d', taken, m) && m.ns != Cascading
    ensures Reduced(d', whole, removed + [m])
  {
    forall n ensures At(d', n) == if exists x | x in removed + [m] :: Below(x, n) then Unchanged else At(whole, n) {
      assert (exists x | x in removed + [m] :: Below(x, n)) <==> (exists x | x in removed :: Below(x, n)) || Below(m, n) by {
        if Below(m, n) { assert m in removed + [m]; }
        if exists x | x in removed :: Below(x, n) {
          var x :| x in removed && Below(x, n);
          assert x in removed + [m];
        }
      }
    }
  }

  /** What is left of the diff after removing the nested mountpoints says whether the keys differ. */
  lemma ReducedMeansDiffers(d: Diff, whole: Diff, names: seq<KeyName>, i: nat, end: nat, keys: KeySet, all: KeySet)
    requires MountTable(names) && i < end <= |names|
    requires forall j | 0 <= j < |names| :: Below(names[i], names[j]) <==> i <= j < end
    requires IsDifference(whole, keys, all, Some(names[i])) && Reduced(d, whole, names[i + 1..end])
    ensures (exists n :: !At(d, n).Unchanged?) <==> Differs(names, names[i], keys, Some(all))
  {
    var root, inner := names[i], names[i + 1..end];
    forall n ensures At(d, n).Unchanged? <==> (Exposed(names, root, n) ==> SameOption(Get(all, n), Get(keys, n))) {
      assert DiffersAt(whole, keys, all, Some(root), n);
      RecordsAt(whole, n, ChangeOf(Some(root), n, Get(keys, n), Get(all, n)));
      InnerIsNested(names, i, end, n);
    }
  }

  lemma {:induction false} InnerIsNested(names: seq<KeyName>, i: nat, end: nat, n: KeyName)
    requires MountTable(names) && i < end <= |names|
    requires forall j | 0 <= j < |names| :: Below(names[i], names[j]) <==> i <= j < end
    ensures Exposed(names, names[i], n) <==> Below(names[i], n) && !exists m | m in names[i + 1..end] :: Below(m, n)
  {
    hide Lt, MountTable;
    forall m ensures m in names[i + 1..end] <==> m in names && m != names[i] && Below(names[i], m) {
      InnerMember(names, i, end, m);
    }
  }

  lemma {:induction false} InnerMember(names: seq<KeyName>, i: nat, end: nat, m: KeyName)
    requires MountTable(names) && i < end <= |names|
    requires forall j | 0 <= j < |names| :: Below(names[i], names[j]) <==> i <= j < end
    ensures m in names[i + 1..end] <==> m in names && m != names[i] && Below(names[i], m)
  {
    hide Lt;
    var inner := names[i + 1..end];
    if m in inner {
      var j :| 0 <= j < |inner| && inner[j] == m;
      assert names[i + 1 + j] == m;
      assert Lt(names[i], names[i + 1 + j]);
      LtIrreflexive(names[i]);
    }
    if m in names && m != names[i] && Below(names[i], m) {
      var j :| 0 <= j < |names| && names[j] == m;
      assert i <= j < end && j != i;
      assert inner[j - (i + 1)] == m;
    }
  }

  /** The diff of one backend against what kdbGet left, without the backends mounted below it. */
  method IsUnchanged(names: seq<KeyName>, i: nat, keys: KeySet, allKeys: Option<KeySet>) returns (empty: bool)
    requires MountTable(names) && i < |names|
    requires ValidKeys(keys) && (allKeys.Some? ==> ValidKeys(allKeys.value))
    ensures empty <==> !Differs(names, names[i], keys, allKeys)
  {
    hide Lt, MountTable, WellFormed, Reduced, IsDifference, Differs, PartsCut, ValidKeys;
    if allKeys.None? {
      NothingDiffers(names, names[i], keys);
      return true;
    }
    var diff := Calculate(keys, allKeys.value, Some(names[i]));
    ghost var whole := diff.Value();
    assert names[i + 1..i + 1] == [];
    ReducedStart(whole);
    var end := HierarchyOf(names, i);
    NotCascading(names);
    for it := i + 1 to end
      invariant fresh(diff) && WellFormed(diff.Value())
      invariant Reduced(diff.Value(), whole, names[i + 1..it])
    {
      ghost var before := diff.Value();
      diff.RemoveSameOrBelow(names[it]);
      ReducedStep(before, diff.Value(), TakenFrom(before, names[it]), whole, names[i + 1..it], names[it]);
      OneMore(names, i + 1, it);
    }
    empty := diff.IsEmpty();
    ReducedMeansDiffers(diff.Value(), whole, names, i, end, keys, allKeys.value);
  }

  // ----- the loop

  /** Removals only touch names before the cursor, so everything nested below the examined mountpoint
      is still listed. */
  lemma NestedStillListed(bs: seq<Backend>, left: seq<Backend>, i: nat, j: nat, m: KeyName)
    requires Mounted(bs) && i < |left| && j < |bs| && left[i..] == bs[j..]
    requires forall b | b in left :: b in bs
    requires Below(bs[j].name, m)
    ensures m in Names(left) <==> m in Names(bs)
  {
    if m in Names(bs) {
      var p :| 0 <= p < |bs| && Names(bs)[p] == m;
      BelowSortsAfter(bs[j].name, m);
      LtTotal(bs[j].name, m);
      assert Names(bs)[j] == bs[j].name;
      assert p >= j;
      assert bs[j..][p - j] == left[i..][p - j] == left[i + (p - j)];
      assert Names(left)[i + (p - j)] == m;
    }
    if m in Names(left) {
      var p :| 0 <= p < |left| && Names(left)[p] == m;
      assert left[p] in bs;
      var q :| 0 <= q < |bs| && bs[q] == left[p];
      assert Names(bs)[q] == m;
    }
  }

  /** So the verdict is the one against the full selection. */
  lemma SameVerdict(bs: seq<Backend>, left: seq<Backend>, i: nat, j: nat, keys: KeySet, allKeys: Option<KeySet>)
    requires Mounted(bs) && i < |left| && j < |bs| && left[i..] == bs[j..]
    requires forall b | b in left :: b in bs
    ensures Differs(Names(left), bs[j].name, keys, allKeys) <==> Differs(Names(bs), bs[j].name, keys, allKeys)
  {
    var root := bs[j].name;
    forall n ensures Exposed(Names(left), root, n) <==> Exposed(Names(bs), root, n) {
      forall m | Below(root, m) ensures m in Names(left) <==> m in Names(bs) {
        NestedStillListed(bs, left, i, j, m);
      }
    }
  }

  ghost predicate NeedsWrite(bs: seq<Backend>, b: Backend, allKeys: Option<KeySet>)
    reads b
  {
    Changed(Names(bs), b.name, b.keys, b.getSize, allKeys)
  }

  /** The changed backends among the first `hi`, in order: those that can be written, or those that are read-only. */
  ghost function Picked(bs: seq<Backend>, allKeys: Option<KeySet>, hi: nat, readOnly: bool): seq<Backend>
    requires hi <= |bs|
    reads bs
  {
    if hi == 0 then []
    else
      var r := Picked(bs, allKeys, hi - 1, readOnly);
      if bs[hi - 1].readOnly == readOnly && NeedsWrite(bs, bs[hi - 1], allKeys) then r + [bs[hi - 1]] else r
  }

  lemma {:induction false} PickedMember(bs: seq<Backend>, allKeys: Option<KeySet>, hi: nat, readOnly: bool, b: Backend)
    requires hi <= |bs|
    ensures b in Picked(bs, allKeys, hi, readOnly) <==> b in bs[..hi] && b.readOnly == readOnly && NeedsWrite(bs, b, allKeys)
  {
    hide NeedsWrite;
    if hi > 0 {
      PickedMember(bs, allKeys, hi - 1, readOnly, b);
      assert bs[..hi] == bs[..hi - 1] + [bs[hi - 1]];
    }
  }

  lemma {:induction false} PickedMounted(bs: seq<Backend>, allKeys: Option<KeySet>, hi: nat, readOnly: bool)
    requires Mounted(bs) && hi <= |bs|
    ensures Mounted(Picked(bs, allKeys, hi, readOnly))
  {
    hide Lt, NeedsWrite;
    if hi > 0 {
      PickedMounted(bs, allKeys, hi - 1, readOnly);
      var r := Picked(bs, allKeys, hi - 1, readOnly);
      forall i | 0 <= i < |r| ensures Lt(r[i].name, bs[hi - 1].name) {
        PickedMember(bs, allKeys, hi - 1, readOnly, r[i]);
        var j :| 0 <= j < hi - 1 && bs[..hi - 1][j] == r[i];
        assert Lt(Names(bs)[j], Names(bs)[hi - 1]);
      }
      assert Names(bs)[hi - 1] == bs[hi - 1].name;
    }
  }

  lemma RefusalStep(bs: seq<Backend>, allKeys: Option<KeySet>, j: nat, show: KeyName -> string, l: Log<Report>)
    requires j < |bs|
    ensures var before := Replay(l, RefusalActs(Names(Picked(bs, allKeys, j, true)), show));
            Replay(l, RefusalActs(Names(Picked(bs, allKeys, j + 1, true)), show)) ==
            if bs[j].readOnly && NeedsWrite(bs, bs[j], allKeys) then Warning(before, ReadOnlyChanged(show(bs[j].name))) else before
  {
    hide NeedsWrite, ReadOnlyChanged, Replay;
    var r, report := Picked(bs, allKeys, j, true), (n: KeyName) => ReadOnlyChanged(show(n));
    if bs[j].readOnly && NeedsWrite(bs, bs[j], allKeys) {
      var names := Names(r + [bs[j]]);
      assert names[..|names| - 1] == Names(r) && names[|names| - 1] == bs[j].name;
      var said := Say(AsWarning(report(bs[j].name)));
      assert WarningsAbout(names, report) == WarningsAbout(Names(r), report) + [said];
      ReplayConcat(l, WarningsAbout(Names(r), report), [said]);
      ReplayOne(Replay(l, WarningsAbout(Names(r), report)), said);
    }
  }

  /** The warnings on the parent after the first `j` backends: one for each refused backend, in order. */
  ghost predicate WarnedAfter(bs: seq<Backend>, allKeys: Option<KeySet>, j: nat, parent: ParentKey, before: Log<Entry>)
    requires j <= |bs|
    reads bs, parent
  {
    Extends(before, parent.log) &&
    parent.Heard() == Replay(Plainly(before), RefusalActs(Names(Picked(bs, allKeys, j, true)), parent.show))
  }

  /** The list that is left when the cursor has passed the first `j` backends. */
  ghost predicate LeftAfter(bs: seq<Backend>, allKeys: Option<KeySet>, left: seq<Backend>, i: nat, j: nat)
    requires j <= |bs|
    reads bs
  {
    i <= |left| && left == Picked(bs, allKeys, j, false) + bs[j..] && i == |Picked(bs, allKeys, j, false)|
  }

  lemma LeftListed(bs: seq<Backend>, allKeys: Option<KeySet>, left: seq<Backend>, i: nat, j: nat)
    requires Mounted(bs) && j < |bs| && LeftAfter(bs, allKeys, left, i, j)
    ensures i < |left| && left[i] == bs[j] && left[i..] == bs[j..]
    ensures (forall b | b in left :: b in bs) && Mounted(left)
    ensures left[..i] + left[i + 1..] == Picked(bs, allKeys, j, false) + bs[j + 1..]
    ensures left == Picked(bs, allKeys, j, false) + [bs[j]] + bs[j + 1..]
  {
    hide Lt;
    var r := Picked(bs, allKeys, j, false);
    PickedMounted(bs, allKeys, j, false);
    forall b | b in left ensures b in bs {
      PickedMember(bs, allKeys, j, false, b);
      assert b in r || b in bs[j..];
    }
    LeftMounted(bs, allKeys, left, j);
  }

  lemma LeftMounted(bs: seq<Backend>, allKeys: Option<KeySet>, left: seq<Backend>, j: nat)
    requires Mounted(bs) && j < |bs| && left == Picked(bs, allKeys, j, false) + bs[j..]
    requires Mounted(Picked(bs, allKeys, j, false)) && forall b | b in left :: b in bs
    ensures Mounted(left)
  {
    hide Picked, Lt;
    var r := Picked(bs, allKeys, j, false);
    forall p, q | 0 <= p < q < |left| ensures Lt(Names(left)[p], Names(left)[q]) {
      if q < |r| {
        assert Lt(Names(r)[p], Names(r)[q]);
      } else if p < |r| {
        PickedMember(bs, allKeys, j, false, r[p]);
        var x :| 0 <= x < j && bs[..j][x] == r[p];
        assert Lt(Names(bs)[x], Names(bs)[j + (q - |r|)]);
      } else {
        assert Lt(Names(bs)[j + (p - |r|)], Names(bs)[j + (q - |r|)]);
      }
    }
    forall p | 0 <= p < |left| ensures Names(left)[p].ns != Cascading {
      assert left[p] in bs;
      var x :| 0 <= x < |bs| && bs[x] == left[p];
      assert Names(bs)[x].ns != Cascading;
    }
  }

  /** The verdict on the backend at the cursor. */
  method Examine(bs: seq<Backend>, allKeys: Option<KeySet>, left: seq<Backend>, i: nat, ghost j: nat) returns (changed: bool)
    requires Mounted(bs) && j < |bs| && LeftAfter(bs, allKeys, left, i, j) && i < |left|
    requires forall b | b in bs :: ValidKeys(b.keys)
    requires allKeys.Some? ==> ValidKeys(allKeys.value)
    ensures changed <==> NeedsWrite(bs, bs[j], allKeys)
  {
    LeftListed(bs, allKeys, left, i, j);
    var same := IsUnchanged(Names(left), i, left[i].keys, allKeys);
    SameVerdict(bs, left, i, j, left[i].keys, allKeys);
    changed := !same || left[i].getSize != |left[i].keys|;
  }

  /** Dropping the backend at the cursor, or keeping it and moving on. */
  lemma LeftStep(bs: seq<Backend>, allKeys: Option<KeySet>, left: seq<Backend>, i: nat, j: nat)
    requires Mounted(bs) && j < |bs| && LeftAfter(bs, allKeys, left, i, j) && i < |left|
    ensures if !bs[j].readOnly && NeedsWrite(bs, bs[j], allKeys) then LeftAfter(bs, allKeys, left, i + 1, j + 1)
            else LeftAfter(bs, allKeys, left[..i] + left[i + 1..], i, j + 1)
  {
    hide NeedsWrite;
    LeftListed(bs, allKeys, left, i, j);
  }

  /** One round: warn about changes that cannot be stored, drop the backend or move on. */
  method PruneAt(bs: seq<Backend>, allKeys: Option<KeySet>, left: seq<Backend>, i: nat, ghost j: nat,
                 parent: ParentKey, ghost before: Log<Entry>)
    returns (left': seq<Backend>, i': nat)
    requires Mounted(bs) && j < |bs| && LeftAfter(bs, allKeys, left, i, j) && i < |left| && parent.Valid()
    requires WarnedAfter(bs, allKeys, j, parent, before)
    requires forall b | b in bs :: ValidKeys(b.keys)
    requires allKeys.Some? ==> ValidKeys(allKeys.value)
    modifies parent`log, parent.record`meta
    ensures LeftAfter(bs, allKeys, left', i', j + 1) && parent.Valid()
    ensures WarnedAfter(bs, allKeys, j + 1, parent, before)
  {
    hide NeedsWrite, ReadOnlyChanged, ParentKey.Valid, RefusalActs, LeftAfter, Picked, MountTable, Replay, Plainly;
    LeftListed(bs, allKeys, left, i, j);
    LeftStep(bs, allKeys, left, i, j);
    var changed := Examine(bs, allKeys, left, i, j);
    var b := left[i];
    RefusalStep(bs, allKeys, j, parent.show, Plainly(before));
    ghost var earlier := parent.log;
    if b.readOnly && changed {
      parent.Warn(ReadOnlyChanged(parent.show(b.name)));
      ExtendsFurther(before, earlier, parent.log);
    }
    if b.readOnly || !changed {
      left', i' := left[..i] + left[i + 1..], i;
    } else {
      left', i' := left, i + 1;
    }
  }

  lemma KeptExactly(bs: seq<Backend>, allKeys: Option<KeySet>, left: seq<Backend>, i: nat, j: nat)
    requires Mounted(bs) && j <= |bs| && LeftAfter(bs, allKeys, left, i, j) && i == |left|
    ensures j == |bs| && left == Picked(bs, allKeys, |bs|, false) && Mounted(left)
    ensures forall b | b in bs :: b in left <==> !b.readOnly && NeedsWrite(bs, b, allKeys)
  {
    hide NeedsWrite;
    assert bs[j..] == [];
    PickedMounted(bs, allKeys, |bs|, false);
    forall b | b in bs ensures b in left <==> !b.readOnly && NeedsWrite(bs, b, allKeys) {
      PickedMember(bs, allKeys, |bs|, false, b);
      assert bs[..|bs|] == bs;
    }
  }

  /** Remove read-only backends and backends that have not changed; the list shrinks under the cursor. */
  method Prune(bs: seq<Backend>, allKeys: Option<KeySet>, parent: ParentKey) returns (left: seq<Backend>)
    requires Mounted(bs) && parent.Valid()
    requires forall b | b in bs :: ValidKeys(b.keys)
    requires allKeys.Some? ==> ValidKeys(allKeys.value)
    modifies parent`log, parent.record`meta
    ensures left == Picked(bs, allKeys, |bs|, false) && Mounted(left) && parent.Valid()
    ensures forall b | b in bs :: b in left <==> !b.readOnly && NeedsWrite(bs, b, allKeys)
    ensures WarnedAfter(bs, allKeys, |bs|, parent, old(parent.log))
  {
    hide NeedsWrite, ParentKey.Valid, LeftAfter, WarnedAfter, Picked;
    left := bs;
    var i := 0;
    ghost var j, before := 0, parent.log;
    PruneStart(bs, allKeys, parent);
    while i < |left|
      invariant 0 <= i && 0 <= j <= |bs| && LeftAfter(bs, allKeys, left, i, j) && parent.Valid()
      invariant WarnedAfter(bs, allKeys, j, parent, before)
      decreases |bs| - j
    {
      AtCursor(bs, allKeys, left, i, j);
      left, i := PruneAt(bs, allKeys, left, i, j, parent, before);
      j := j + 1;
    }
    AtCursor(bs, allKeys, left, i, j);
    KeptExactly(bs, allKeys, left, i, j);
  }

  lemma PruneStart(bs: seq<Backend>, allKeys: Option<KeySet>, parent: ParentKey)
    ensures LeftAfter(bs, allKeys, bs, 0, 0) && WarnedAfter(bs, allKeys, 0, parent, parent.log)
  {
  }

  lemma AtCursor(bs: seq<Backend>, allKeys: Option<KeySet>, left: seq<Backend>, i: nat, j: nat)
    requires j <= |bs| && LeftAfter(bs, allKeys, left, i, j)
    ensures i <= |left| && (i < |left| <==> j < |bs|)
  {
  }

  // ----- what dropping a backend means

  /** The entries of kdbGet's KeySet that the mountpoint owns. */
  function OwnEntry(names: seq<KeyName>, b: nat, all: KeySet, n: KeyName): Option<Key> {
    if IsOwner(names, n, b) then Get(all, n) else None
  }

  /** A backend counts as unchanged exactly when its keys equal, name by name, the entries that it owns -
      as long as it holds only keys it owns. */
  lemma UnchangedMeansEqual(names: seq<KeyName>, b: nat, keys: KeySet, all: KeySet)
    requires MountTable(names) && b < |names|
    ensures (forall n :: SameOption(OwnEntry(names, b, all, n), Get(keys, n))) <==>
            !Differs(names, names[b], keys, Some(all)) && forall k | k in keys :: IsOwner(names, k.name, b)
  {
    forall n ensures Exposed(names, names[b], n) <==> IsOwner(names, n, b) { ExposedIsOwned(names, b, n); }
    forall n ensures Get(keys, n).Some? <==> exists k | k in keys :: k.name == n { GetIn(keys, n); }
    if forall n :: SameOption(OwnEntry(names, b, all, n), Get(keys, n)) {
      forall k | k in keys ensures IsOwner(names, k.name, b) {
        GetMember(keys, k);
        assert SameOption(OwnEntry(names, b, all, k.name), Get(keys, k.name));
      }
      assert forall n :: Exposed(names, names[b], n) ==> SameOption(OwnEntry(names, b, all, n), Get(keys, n));
    }
  }

  /** After the division of owned keys a backend holds only keys it owns, unless it is default:/ with
      other mountpoints inside. */
  lemma {:induction false} DividedKeysOwned(names: seq<KeyName>, ks: KeySet, b: nat, k: Key)
    requires MountTable(names) && b < |names| && k in Portion(names, ks, |ks|, b)
    requires !NoOwner(names, k.name)
    requires names[b] == DefaultRoot ==> forall m | m in names && m.ns == Default :: m == DefaultRoot
    ensures IsOwner(names, k.name, b)
  {
    PortionMembers(names, ks, |ks|, b, k);
    OwnerOfCorrect(names, k.name);
    var o, d := OwnerOf(names, k.name), DefaultIndex(names);
    if d >= 0 && k.name.ns == Default {
      assert names[o] in names;
      LtIrreflexive(names[b]);
    }
  }
}
