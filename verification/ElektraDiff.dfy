/** The diff object: calculation by a two-cursor merge, append, cut, remove and undo in place. */
module ElektraDiffs {
  import opened Wrappers
  import opened KeyNames
  import opened KeySets
  import opened Cutting
  import opened Changes
  import opened Diffs

  // ----- comparing KeySets

  /** Only keys outside the meta namespace have their metadata compared. */
  predicate Comparable(ks: KeySet) {
    forall k | k in ks && k.name.ns != Meta :: ValidKey(k)
  }

  /** Both cursors stand at the first key that is not yet compared. */
  predicate CursorsAligned(newKeys: KeySet, oldKeys: KeySet, iNew: nat, iOld: nat)
  {
    iNew <= |newKeys| && iOld <= |oldKeys| &&
    (0 < iNew && iOld < |oldKeys| ==> Lt(newKeys[iNew - 1].name, oldKeys[iOld].name)) &&
    (0 < iOld && iNew < |newKeys| ==> Lt(oldKeys[iOld - 1].name, newKeys[iNew].name))
  }

  lemma PrefixBefore(ks: KeySet, i: nat, n: KeyName)
    requires i <= |ks| && (i > 0 ==> Lt(ks[i - 1].name, n))
    ensures Get(ks[..i], n).None?
  {
    LtIrreflexive(n);
    GetIn(ks[..i], n);
    forall j | 0 <= j < i ensures ks[..i][j].name != n {
      if j < i - 1 { LtTransitive(ks[j].name, ks[i - 1].name, n); }
    }
  }

  /** One key of `old` that `new` does not have. */
  lemma OldOnly(d: Diff, d': Diff, newKeys: KeySet, oldKeys: KeySet, iNew: nat, iOld: nat, parent: Option<KeyName>)
    requires CursorsAligned(newKeys, oldKeys, iNew, iOld) && iOld < |oldKeys|
    requires IsDifference(d, newKeys[..iNew], oldKeys[..iOld], parent)
    requires d' == (if oldKeys[iOld].name.ns != Cascading && InScope(parent, oldKeys[iOld].name)
                    then d.(removed := AppendKey(d.removed, oldKeys[iOld])) else d)
    ensures IsDifference(d', newKeys[..iNew], oldKeys[..iOld + 1], parent)
  {
    hide Lt;
    var x, y: KeySet := newKeys[..iNew], oldKeys[..iOld + 1];
    PrefixBefore(newKeys, iNew, oldKeys[iOld].name);
    forall n ensures DiffersAt(d', x, y, parent, n) {
      GetPrefix(oldKeys, iOld, n);
      assert DiffersAt(d, newKeys[..iNew], oldKeys[..iOld], parent, n);
    }
  }

  /** One key of `new` that `old` does not have. */
  lemma NewOnly(d: Diff, d': Diff, newKeys: KeySet, oldKeys: KeySet, iNew: nat, iOld: nat, parent: Option<KeyName>)
    requires CursorsAligned(newKeys, oldKeys, iNew, iOld) && iNew < |newKeys|
    requires IsDifference(d, newKeys[..iNew], oldKeys[..iOld], parent)
    requires d' == (if newKeys[iNew].name.ns != Cascading && InScope(parent, newKeys[iNew].name)
                    then d.(added := AppendKey(d.added, newKeys[iNew])) else d)
    ensures IsDifference(d', newKeys[..iNew + 1], oldKeys[..iOld], parent)
  {
    hide Lt;
    var x: KeySet, y := newKeys[..iNew + 1], oldKeys[..iOld];
    PrefixBefore(oldKeys, iOld, newKeys[iNew].name);
    forall n ensures DiffersAt(d', x, y, parent, n) {
      GetPrefix(newKeys, iNew, n);
      assert DiffersAt(d, newKeys[..iNew], oldKeys[..iOld], parent, n);
    }
  }

  /** Both have the key. */
  lemma BothHave(d: Diff, d': Diff, newKeys: KeySet, oldKeys: KeySet, iNew: nat, iOld: nat, parent: Option<KeyName>)
    requires iNew < |newKeys| && iOld < |oldKeys| && newKeys[iNew].name == oldKeys[iOld].name
    requires IsDifference(d, newKeys[..iNew], oldKeys[..iOld], parent)
    requires
      var o, k := oldKeys[iOld], newKeys[iNew];
      d' == if o.name.ns != Cascading && InScope(parent, o.name) && !SameAt(o, k)
            then d.(modifiedOld := AppendKey(d.modifiedOld, o), modifiedNew := AppendKey(d.modifiedNew, k)) else d
    ensures IsDifference(d', newKeys[..iNew + 1], oldKeys[..iOld + 1], parent)
  {
    hide Lt;
    var x: KeySet, y: KeySet := newKeys[..iNew + 1], oldKeys[..iOld + 1];
    var x0: KeySet, y0: KeySet := newKeys[..iNew], oldKeys[..iOld];
    forall n ensures DiffersAt(d', x, y, parent, n) {
      GetPrefix(newKeys, iNew, n);
      GetPrefix(oldKeys, iOld, n);
      assert DiffersAt(d, x0, y0, parent, n);
      if n != oldKeys[iOld].name { assert Get(x, n) == Get(x0, n) && Get(y, n) == Get(y0, n); }
    }
  }

  /** keyMetaDifferent: true exactly when the metadata differs as a set of named values. */
  method KeyMetaDifferent(oldKey: Key, newKey: Key) returns (r: bool)
    requires ValidKey(oldKey) && ValidKey(newKey)
    ensures r <==> !SameMeta(oldKey, newKey)
    decreases oldKey, 0
  {
    if |oldKey.meta| != |newKey.meta| {
      return true;
    }
    if |oldKey.meta| == 0 {
      return false;
    }
    var oldMeta: KeySet, newMeta: KeySet := oldKey.meta, newKey.meta;
    var d;
    d, r := FindDifferences(newMeta, oldMeta, None);
    NoDifferencesMeansSameMeta(d, oldKey, newKey, oldMeta, newMeta);
  }

  ghost predicate NoEntries(d: Diff) {
    d.added == [] && d.removed == [] && d.modifiedOld == [] && d.modifiedNew == []
  }

  lemma NoEntriesIff(d: Diff, newKeys: KeySet, oldKeys: KeySet, parent: Option<KeyName>)
    requires IsDifference(d, newKeys, oldKeys, parent)
    ensures NoEntries(d) <==> forall n :: ChangeOf(parent, n, Get(newKeys, n), Get(oldKeys, n)).Unchanged?
  {
    EmptyIff(d.added);
    EmptyIff(d.removed);
    EmptyIff(d.modifiedOld);
    EmptyIff(d.modifiedNew);
    forall n ensures Records(d, n, Unchanged) <==> ChangeOf(parent, n, Get(newKeys, n), Get(oldKeys, n)).Unchanged? {
      assert DiffersAt(d, newKeys, oldKeys, parent, n);
    }
    if forall n :: ChangeOf(parent, n, Get(newKeys, n), Get(oldKeys, n)).Unchanged? {
      forall n ensures Get(d.added, n).None? && Get(d.removed, n).None? && Get(d.modifiedOld, n).None? && Get(d.modifiedNew, n).None? {
        assert Records(d, n, Unchanged);
      }
    }
  }

  lemma NoDifferencesMeansSameMeta(d: Diff, oldKey: Key, newKey: Key, oldMeta: KeySet, newMeta: KeySet)
    requires ValidKey(oldKey) && ValidKey(newKey) && oldMeta == oldKey.meta && newMeta == newKey.meta
    requires IsDifference(d, newMeta, oldMeta, None)
    ensures NoEntries(d) <==> SameMeta(oldKey, newKey)
  {
    NoEntriesIff(d, newMeta, oldMeta, None);
    if NoEntries(d) {
      forall n ensures Get(oldMeta, n).Some? <==> Get(newMeta, n).Some? {
        assert ChangeOf(None, n, Get(newMeta, n), Get(oldMeta, n)).Unchanged?;
      }
      DomainFixesNames(oldMeta, newMeta);
      forall i | 0 <= i < |oldMeta| ensures ContentOf(oldMeta[i]) == ContentOf(newMeta[i]) {
        GetAt(oldMeta, i);
        GetAt(newMeta, i);
        assert ChangeOf(None, oldMeta[i].name, Get(newMeta, oldMeta[i].name), Get(oldMeta, oldMeta[i].name)).Unchanged?;
      }
    }
    if SameMeta(oldKey, newKey) {
      assert SameNames(oldMeta, newMeta);
      forall n ensures ChangeOf(None, n, Get(newMeta, n), Get(oldMeta, n)).Unchanged? {
        PosNames(oldMeta, newMeta, n);
      }
    }
  }

  /** Two keys of one name: the value first, then - outside the meta namespace - the metadata. */
  method KeyDifferent(oldKey: Key, newKey: Key) returns (different: bool)
    requires oldKey.name.ns != Meta ==> ValidKey(oldKey) && ValidKey(newKey)
    ensures different <==> !SameAt(oldKey, newKey)
    decreases oldKey, 1
  {
    ValueDifferentIff(newKey, oldKey, false);
    different := KeyValueDifferent(newKey, oldKey, false);
    if !different && oldKey.name.ns != Meta {
      different := KeyMetaDifferent(oldKey, newKey);
    }
  }

  /** findDifferences: at most |old| + |new| rounds, each advancing a cursor; together they visit every
      key, and the result is the pointwise difference. */
  method FindDifferences(newKeys: KeySet, oldKeys: KeySet, parent: Option<KeyName>) returns (d: Diff, differences: bool)
    requires Comparable(newKeys) && Comparable(oldKeys)
    ensures IsDifference(d, newKeys, oldKeys, parent)
    ensures differences <==> !NoEntries(d)
    decreases oldKeys, 2
  {
    hide Lt;
    d := Diff([], [], [], []);
    var iOld, iNew, i := 0, 0, 0;
    while i < |oldKeys| + |newKeys| && !(iOld == |oldKeys| && iNew == |newKeys|)
      invariant CursorsAligned(newKeys, oldKeys, iNew, iOld)
      invariant i <= iOld + iNew
      invariant IsDifference(d, newKeys[..iNew], oldKeys[..iOld], parent)
    {
      ghost var before := d;
      if iNew == |newKeys| || (iOld < |oldKeys| && Lt(oldKeys[iOld].name, newKeys[iNew].name)) {
        var oldKey := oldKeys[iOld];
        if oldKey.name.ns != Cascading && InScope(parent, oldKey.name) {
          d := d.(removed := AppendKey(d.removed, oldKey));
        }
        OldOnly(before, d, newKeys, oldKeys, iNew, iOld, parent);
        AdvanceOld(newKeys, oldKeys, iNew, iOld);
        iOld := iOld + 1;
      } else if iOld == |oldKeys| || oldKeys[iOld].name != newKeys[iNew].name {
        var newKey := newKeys[iNew];
        if newKey.name.ns != Cascading && InScope(parent, newKey.name) {
          d := d.(added := AppendKey(d.added, newKey));
        }
        NewOnly(before, d, newKeys, oldKeys, iNew, iOld, parent);
        AdvanceNew(newKeys, oldKeys, iNew, iOld);
        iNew := iNew + 1;
      } else {
        var oldKey, newKey := oldKeys[iOld], newKeys[iNew];
        if oldKey.name.ns != Cascading && InScope(parent, newKey.name) {
          var different := KeyDifferent(oldKey, newKey);
          if different {
            d := d.(modifiedOld := AppendKey(d.modifiedOld, oldKey), modifiedNew := AppendKey(d.modifiedNew, newKey));
          }
        }
        BothHave(before, d, newKeys, oldKeys, iNew, iOld, parent);
        iOld, iNew := iOld + 1, iNew + 1;
      }
      i := i + 1;
    }
    assert newKeys[..iNew] == newKeys && oldKeys[..iOld] == oldKeys;
    differences := |d.added| > 0 || |d.removed| > 0 || |d.modifiedOld| > 0 || |d.modifiedNew| > 0;
  }

  lemma AdvanceOld(newKeys: KeySet, oldKeys: KeySet, iNew: nat, iOld: nat)
    requires CursorsAligned(newKeys, oldKeys, iNew, iOld) && iOld < |oldKeys|
    requires iNew < |newKeys| ==> Lt(oldKeys[iOld].name, newKeys[iNew].name)
    ensures CursorsAligned(newKeys, oldKeys, iNew, iOld + 1)
  {
    if 0 < iNew && iOld + 1 < |oldKeys| {
      LtTransitive(newKeys[iNew - 1].name, oldKeys[iOld].name, oldKeys[iOld + 1].name);
    }
  }

  lemma AdvanceNew(newKeys: KeySet, oldKeys: KeySet, iNew: nat, iOld: nat)
    requires CursorsAligned(newKeys, oldKeys, iNew, iOld) && iNew < |newKeys|
    requires iOld < |oldKeys| ==> !Lt(oldKeys[iOld].name, newKeys[iNew].name) && oldKeys[iOld].name != newKeys[iNew].name
    ensures CursorsAligned(newKeys, oldKeys, iNew + 1, iOld)
  {
    if iOld < |oldKeys| { LtTotal(newKeys[iNew].name, oldKeys[iOld].name); }
    if 0 < iOld && iNew + 1 < |newKeys| {
      LtTransitive(oldKeys[iOld - 1].name, newKeys[iNew].name, newKeys[iNew + 1].name);
    }
  }

  /** The names for which a warning was added to the parent key, or the error that stopped the append. */
  datatype AppendResult = SourceIncomplete | Appended(warnings: seq<KeyName>)

  /** Which names of `keys` get a warning when `s` is folded into `t`. */
  ghost predicate Warned(warnings: seq<KeyName>, t: Diff, s: Diff, keys: KeySet, parent: Option<KeyName>) {
    forall n :: n in warnings <==> InScope(parent, n) && Get(keys, n).Some? && Conflict(At(t, n), At(s, n))
  }

  class ElektraDiff {
    var parentKey: Option<KeyName>
    var addedKeys: KeySet
    var removedKeys: KeySet
    var modifiedKeys: KeySet
    var modifiedNewKeys: Option<KeySet>

    function Value(): Diff
      reads this
    {
      Diff(addedKeys, removedKeys, modifiedKeys, if modifiedNewKeys.Some? then modifiedNewKeys.value else [])
    }

    /** elektraDiffNew */
    constructor (added: KeySet, removed: KeySet, modified: KeySet, modifiedNew: Option<KeySet>, parent: Option<KeyName>)
      ensures addedKeys == added && removedKeys == removed && modifiedKeys == modified
      ensures modifiedNewKeys == modifiedNew && parentKey == parent
    {
      addedKeys, removedKeys, modifiedKeys, modifiedNewKeys, parentKey := added, removed, modified, modifiedNew, parent;
    }

    constructor OfValue(d: Diff, complete: bool, parent: Option<KeyName>)
      requires complete || d.modifiedNew == []
      ensures Value() == d && modifiedNewKeys.Some? == complete && parentKey == parent
    {
      addedKeys, removedKeys, modifiedKeys, parentKey := d.added, d.removed, d.modifiedOld, parent;
      modifiedNewKeys := if complete then Some(d.modifiedNew) else None;
    }

    // ----- elektraDiffAppend, one source key at a time

    method DifferentFrom(targetKey: Key, key: Key) returns (r: bool)
      requires ValidKey(targetKey) && ValidKey(key)
      ensures r <==> !SameKey(targetKey, key)
    {
      ValueDifferentIff(targetKey, key, false);
      r := KeyValueDifferent(targetKey, key, false);
      if !r { r := KeyMetaDifferent(targetKey, key); }
    }

    method AppendAddedKey(key: Key) returns (warned: bool)
      requires WellFormed(Value()) && modifiedNewKeys.Some? && ValidKey(key)
      modifies this
      ensures parentKey == old(parentKey) && modifiedNewKeys.Some?
      ensures IsStepped(Value(), old(Value()), key.name, Added(key))
      ensures warned == Conflict(old(At(Value(), key.name)), Added(key))
    {
      hide Lt;
      ghost var t := Value();
      assert WellFormedAt(t, key.name);
      warned := false;
      if Get(addedKeys, key.name).Some? {
        warned := true;
      } else {
        var targetKey := Get(removedKeys, key.name);
        if targetKey.Some? {
          removedKeys := Remove(removedKeys, key.name);
          var different := DifferentFrom(targetKey.value, key);
          if different {
            modifiedKeys := AppendKey(modifiedKeys, targetKey.value);
            modifiedNewKeys := Some(AppendKey(modifiedNewKeys.value, key));
          }
        } else if Get(modifiedKeys, key.name).None? {
          addedKeys := AppendKey(addedKeys, key);
        } else {
          warned := true;
        }
      }
      StepRecorded(Value(), t, key.name, Added(key));
    }

    /** `oldKey` is the source's key with the old value at the same position. */
    method AppendModifiedKey(key: Key, oldKey: Key) returns (warned: bool)
      requires WellFormed(Value()) && modifiedNewKeys.Some?
      requires Proper(Modified(oldKey, key)) && oldKey.name == key.name
      modifies this
      ensures parentKey == old(parentKey) && modifiedNewKeys.Some?
      ensures IsStepped(Value(), old(Value()), key.name, Modified(oldKey, key))
      ensures warned == Conflict(old(At(Value(), key.name)), Modified(oldKey, key))
    {
      hide Lt;
      ghost var t := Value();
      assert WellFormedAt(t, key.name);
      ModifiedAligned(t);
      warned := false;
      if Get(addedKeys, key.name).Some? {
        addedKeys := AppendKey(addedKeys, key);
      } else {
        var pos := Search(modifiedKeys, key.name);
        if pos >= 0 {
          GetAt(modifiedKeys, pos);
          var different := DifferentFrom(modifiedKeys[pos], key);
          if different {
            modifiedNewKeys := Some(AppendKey(modifiedNewKeys.value, key));
          } else {
            PopBoth(pos);
          }
        } else if Get(removedKeys, key.name).Some? {
          warned := true;
        } else {
          modifiedKeys := AppendKey(modifiedKeys, oldKey);
          modifiedNewKeys := Some(AppendKey(modifiedNewKeys.value, key));
        }
      }
      StepRecorded(Value(), t, key.name, Modified(oldKey, key));
    }

    /** Popping both modified KeySets at one position removes one and the same name. */
    method PopBoth(pos: nat)
      requires modifiedNewKeys.Some? && SameNames(modifiedKeys, modifiedNewKeys.value) && pos < |modifiedKeys|
      modifies this`modifiedKeys, this`modifiedNewKeys
      ensures modifiedKeys == Remove(old(modifiedKeys), old(modifiedKeys[pos].name))
      ensures modifiedNewKeys == Some(Remove(old(modifiedNewKeys.value), old(modifiedKeys[pos].name)))
    {
      RemoveAtIsRemove(modifiedKeys, pos);
      RemoveAtIsRemove(modifiedNewKeys.value, pos);
      modifiedKeys := RemoveAt(modifiedKeys, pos);
      modifiedNewKeys := Some(RemoveAt(modifiedNewKeys.value, pos));
    }

    method AppendRemovedKey(key: Key) returns (warned: bool)
      requires WellFormed(Value()) && modifiedNewKeys.Some? && ValidKey(key)
      modifies this
      ensures parentKey == old(parentKey) && modifiedNewKeys.Some?
      ensures IsStepped(Value(), old(Value()), key.name, Removed(key))
      ensures warned == Conflict(old(At(Value(), key.name)), Removed(key))
    {
      hide Lt;
      ghost var t := Value();
      assert WellFormedAt(t, key.name);
      warned := false;
      if Get(addedKeys, key.name).Some? {
        addedKeys := Remove(addedKeys, key.name);
      } else {
        var targetKey := Get(modifiedKeys, key.name);
        if targetKey.Some? {
          modifiedKeys := Remove(modifiedKeys, key.name);
          removedKeys := AppendKey(removedKeys, targetKey.value);
          modifiedNewKeys := Some(Remove(modifiedNewKeys.value, key.name));
        } else if Get(removedKeys, key.name).None? {
          removedKeys := AppendKey(removedKeys, key);
        } else {
          warned := true;
        }
      }
      StepRecorded(Value(), t, key.name, Removed(key));
    }

    // ----- the three loops

    /** One round of the loop over the added keys of the source. */
    method FoldAddedAt(source: Diff, i: nat, parent: Option<KeyName>, ghost t: Diff, before: seq<KeyName>) returns (warnings: seq<KeyName>)
      requires modifiedNewKeys.Some? && WellFormed(source) && i < |source.added|
      requires IsFolded(Value(), t, source, source.added[..i], parent)
      requires Warned(before, t, source, source.added[..i], parent)
      modifies this
      ensures parentKey == old(parentKey) && modifiedNewKeys.Some?
      ensures IsFolded(Value(), t, source, source.added[..i + 1], parent)
      ensures Warned(warnings, t, source, source.added[..i + 1], parent)
    {
      var key := source.added[i];
      ghost var r := Value();
      AddedChange(source, i);
      var warned := false;
      if InScope(parent, key.name) {
        warned := AppendAddedKey(key);
      }
      warnings := if warned then before + [key.name] else before;
      FoldStep(Value(), r, t, source, source.added, i, parent);
      WarnStep(warnings, before, warned, r, t, source, source.added, i, parent);
    }

    method AppendAddedKeys(source: Diff, parent: Option<KeyName>) returns (warnings: seq<KeyName>)
      requires WellFormed(Value()) && modifiedNewKeys.Some? && WellFormed(source)
      modifies this
      ensures parentKey == old(parentKey) && modifiedNewKeys.Some?
      ensures IsFolded(Value(), old(Value()), source, source.added, parent)
      ensures Warned(warnings, old(Value()), source, source.added, parent)
    {
      hide IsFolded, Warned, WellFormed;
      warnings := [];
      FoldStart(Value(), source, parent);
      NoneWarned(Value(), source, parent);
      assert source.added[..0] == [];
      for i := 0 to |source.added|
        invariant parentKey == old(parentKey) && modifiedNewKeys.Some?
        invariant IsFolded(Value(), old(Value()), source, source.added[..i], parent)
        invariant Warned(warnings, old(Value()), source, source.added[..i], parent)
      {
        warnings := FoldAddedAt(source, i, parent, old(Value()), warnings);
      }
      assert source.added[..|source.added|] == source.added;
    }

    /** One round of the loop over the modified keys of the source. */
    method FoldModifiedAt(source: Diff, i: nat, parent: Option<KeyName>, ghost t: Diff, before: seq<KeyName>) returns (warnings: seq<KeyName>)
      requires modifiedNewKeys.Some? && WellFormed(source) && i < |source.modifiedNew|
      requires IsFolded(Value(), t, source, source.modifiedNew[..i], parent)
      requires Warned(before, t, source, source.modifiedNew[..i], parent)
      modifies this
      ensures parentKey == old(parentKey) && modifiedNewKeys.Some?
      ensures IsFolded(Value(), t, source, source.modifiedNew[..i + 1], parent)
      ensures Warned(warnings, t, source, source.modifiedNew[..i + 1], parent)
    {
      var key := source.modifiedNew[i];
      ghost var r := Value();
      ModifiedChange(source, i);
      var warned := false;
      if InScope(parent, key.name) {
        warned := AppendModifiedKey(key, source.modifiedOld[i]);
      }
      warnings := if warned then before + [key.name] else before;
      FoldStep(Value(), r, t, source, source.modifiedNew, i, parent);
      WarnStep(warnings, before, warned, r, t, source, source.modifiedNew, i, parent);
    }

    method AppendModifiedKeys(source: Diff, parent: Option<KeyName>) returns (warnings: seq<KeyName>)
      requires WellFormed(Value()) && modifiedNewKeys.Some? && WellFormed(source)
      modifies this
      ensures parentKey == old(parentKey) && modifiedNewKeys.Some?
      ensures IsFolded(Value(), old(Value()), source, source.modifiedNew, parent)
      ensures Warned(warnings, old(Value()), source, source.modifiedNew, parent)
    {
      hide IsFolded, Warned, WellFormed;
      warnings := [];
      FoldStart(Value(), source, parent);
      NoneWarned(Value(), source, parent);
      assert source.modifiedNew[..0] == [];
      for i := 0 to |source.modifiedNew|
        invariant parentKey == old(parentKey) && modifiedNewKeys.Some?
        invariant IsFolded(Value(), old(Value()), source, source.modifiedNew[..i], parent)
        invariant Warned(warnings, old(Value()), source, source.modifiedNew[..i], parent)
      {
        warnings := FoldModifiedAt(source, i, parent, old(Value()), warnings);
      }
      assert source.modifiedNew[..|source.modifiedNew|] == source.modifiedNew;
    }

    /** One round of the loop over the removed keys of the source. */
    method FoldRemovedAt(source: Diff, i: nat, parent: Option<KeyName>, ghost t: Diff, before: seq<KeyName>) returns (warnings: seq<KeyName>)
      requires modifiedNewKeys.Some? && WellFormed(source) && i < |source.removed|
      requires IsFolded(Value(), t, source, source.removed[..i], parent)
      requires Warned(before, t, source, source.removed[..i], parent)
      modifies this
      ensures parentKey == old(parentKey) && modifiedNewKeys.Some?
      ensures IsFolded(Value(), t, source, source.removed[..i + 1], parent)
      ensures Warned(warnings, t, source, source.removed[..i + 1], parent)
    {
      var key := source.removed[i];
      ghost var r := Value();
      RemovedChange(source, i);
      var warned := false;
      if InScope(parent, key.name) {
        warned := AppendRemovedKey(key);
      }
      warnings := if warned then before + [key.name] else before;
      FoldStep(Value(), r, t, source, source.removed, i, parent);
      WarnStep(warnings, before, warned, r, t, source, source.removed, i, parent);
    }

    method AppendRemovedKeys(source: Diff, parent: Option<KeyName>) returns (warnings: seq<KeyName>)
      requires WellFormed(Value()) && modifiedNewKeys.Some? && WellFormed(source)
      modifies this
      ensures parentKey == old(parentKey) && modifiedNewKeys.Some?
      ensures IsFolded(Value(), old(Value()), source, source.removed, parent)
      ensures Warned(warnings, old(Value()), source, source.removed, parent)
    {
      hide IsFolded, Warned, WellFormed;
      warnings := [];
      FoldStart(Value(), source, parent);
      NoneWarned(Value(), source, parent);
      assert source.removed[..0] == [];
      for i := 0 to |source.removed|
        invariant parentKey == old(parentKey) && modifiedNewKeys.Some?
        invariant IsFolded(Value(), old(Value()), source, source.removed[..i], parent)
        invariant Warned(warnings, old(Value()), source, source.removed[..i], parent)
      {
        warnings := FoldRemovedAt(source, i, parent, old(Value()), warnings);
      }
      assert source.removed[..|source.removed|] == source.removed;
    }

    /** elektraDiffAppend: at every name the two changes are composed; a warning names each conflict. */
    method Append(source: ElektraDiff, parent: Option<KeyName>) returns (result: AppendResult)
      requires source != this
      requires WellFormed(Value()) && WellFormed(source.Value())
      modifies this
      ensures parentKey == old(parentKey)
      ensures source.modifiedNewKeys.None? ==> result.SourceIncomplete? && Value() == old(Value())
      ensures source.modifiedNewKeys.Some? ==>
        result.Appended? && modifiedNewKeys.Some? && IsAppended(Value(), old(Value()), source.Value(), parent) &&
        forall n :: n in result.warnings <==> InScope(parent, n) && Conflict(old(At(Value(), n)), At(source.Value(), n))
    {
      if source.modifiedNewKeys.None? {
        return SourceIncomplete;
      }
      if modifiedNewKeys.None? {
        modifiedNewKeys := Some([]);
      }
      ghost var t, s := Value(), source.Value();
      var w1 := AppendAddedKeys(source.Value(), parent);
      ghost var r1 := Value();
      var w2 := AppendModifiedKeys(source.Value(), parent);
      ghost var r2 := Value();
      var w3 := AppendRemovedKeys(source.Value(), parent);
      FoldsAppend(t, r1, r2, Value(), s, parent);
      WarningsTogether(t, r1, r2, s, parent, w1, w2, w3);
      return Appended(w1 + w2 + w3);
    }

    // ----- cut and remove

    method SetValue(d: Diff)
      requires modifiedNewKeys.None? ==> d.modifiedNew == []
      modifies this`addedKeys, this`removedKeys, this`modifiedKeys, this`modifiedNewKeys
      ensures Value() == d && modifiedNewKeys.Some? == old(modifiedNewKeys.Some?)
    {
      addedKeys, removedKeys, modifiedKeys := d.added, d.removed, d.modifiedOld;
      if modifiedNewKeys.Some? { modifiedNewKeys := Some(d.modifiedNew); }
    }

    /** elektraDiffRemoveSameOrBelow */
    method RemoveSameOrBelow(cutpoint: KeyName)
      requires WellFormed(Value())
      modifies this
      ensures parentKey == old(parentKey) && modifiedNewKeys.Some? == old(modifiedNewKeys.Some?)
      ensures Value() == RestOf(old(Value()), cutpoint) && WellFormed(Value())
      ensures PartsCut(old(Value()), Value(), TakenFrom(old(Value()), cutpoint), cutpoint)
    {
      hide RestOf, TakenFrom, WellFormed, PartsCut;
      CutParts(Value(), cutpoint);
      SetValue(RestOf(Value(), cutpoint));
    }

    /** elektraDiffRemoveOther */
    method RemoveOther(parent: KeyName)
      requires WellFormed(Value())
      modifies this
      ensures parentKey == Some(parent) && modifiedNewKeys.Some? == old(modifiedNewKeys.Some?)
      ensures Value() == TakenFrom(old(Value()), parent) && WellFormed(Value())
      ensures PartsCut(old(Value()), RestOf(old(Value()), parent), Value(), parent)
    {
      hide RestOf, TakenFrom, WellFormed, PartsCut;
      CutParts(Value(), parent);
      parentKey := Some(parent);
      SetValue(TakenFrom(Value(), parent));
    }

    /** elektraDiffCut: this diff keeps the rest; both parts are well-formed and disjoint. */
    method CutOff(cutpoint: KeyName) returns (part: ElektraDiff)
      requires WellFormed(Value())
      modifies this
      ensures fresh(part) && part.parentKey == Some(cutpoint) && parentKey == old(parentKey)
      ensures Value() == RestOf(old(Value()), cutpoint) && part.Value() == TakenFrom(old(Value()), cutpoint)
      ensures IsSplit(old(Value()), Value(), part.Value()) && PartsCut(old(Value()), Value(), part.Value(), cutpoint)
    {
      hide RestOf, TakenFrom, IsSplit, WellFormed, PartsCut;
      CutParts(Value(), cutpoint);
      part := new ElektraDiff.OfValue(TakenFrom(Value(), cutpoint), modifiedNewKeys.Some?, Some(cutpoint));
      SetValue(RestOf(Value(), cutpoint));
    }

    /** elektraDiffRemoveKey: every KeySet is searched on its own. */
    method RemoveKey(toRemove: KeyName)
      requires WellFormed(Value()) && (toRemove.ns == Cascading ==> NoDefaults(Value(), toRemove))
      modifies this
      ensures parentKey == old(parentKey) && WellFormed(Value())
      ensures forall n :: At(Value(), n) == if HitsChange(old(Value()), toRemove, n) then Unchanged else old(At(Value(), n))
      ensures toRemove.ns != Cascading ==> forall n :: At(Value(), n) == if n == toRemove then Unchanged else old(At(Value(), n))
    {
      PopWellFormed(Value(), toRemove);
      PopNothing(toRemove);
      SetValue(PopAll(Value(), toRemove));
    }

    /** elektraDiffIsEmpty */
    method IsEmpty() returns (empty: bool)
      requires WellFormed(Value())
      ensures empty <==> forall n :: At(Value(), n).Unchanged?
    {
      EmptyMeansUnchanged(Value());
      empty := |addedKeys| + |removedKeys| + |modifiedKeys| == 0;
    }

    // ----- undo

    /** elektraDiffUndo: subtract the added keys, then put back the modified and the removed ones. */
    method Undo(ks: KeySet) returns (r: KeySet)
      requires WellFormed(Value())
      ensures IsUndone(r, Value(), ks)
    {
      var left := Subtract(ks, addedKeys);
      r := KeySets.Append(KeySets.Append(left, modifiedKeys), removedKeys);
      forall n ensures Get(r, n) == UndoAt(At(Value(), n), Get(ks, n)) {
        assert WellFormedAt(Value(), n);
        assert Get(left, n) == if Get(addedKeys, n).Some? then None else Get(ks, n);
      }
    }
  }

  lemma PopNothing(k: KeyName)
    ensures Pop([], k) == []
  {
    hide Pop;
    forall n ensures Get(Pop([], k), n).None? { PopGet([], k, n); }
    EmptyIff(Pop([], k));
  }

  lemma NoneWarned(t: Diff, s: Diff, parent: Option<KeyName>)
    ensures Warned([], t, s, [], parent)
  {
    forall n ensures Get([], n).None? {}
  }

  lemma AddedChange(s: Diff, i: nat)
    requires WellFormed(s) && i < |s.added|
    ensures At(s, s.added[i].name) == Added(s.added[i]) && ValidKey(s.added[i])
  {
    GetAt(s.added, i);
    assert WellFormedAt(s, s.added[i].name);
  }

  lemma ModifiedChange(s: Diff, i: nat)
    requires WellFormed(s) && i < |s.modifiedNew|
    ensures i < |s.modifiedOld| && s.modifiedOld[i].name == s.modifiedNew[i].name
    ensures At(s, s.modifiedNew[i].name) == Modified(s.modifiedOld[i], s.modifiedNew[i])
    ensures Proper(Modified(s.modifiedOld[i], s.modifiedNew[i]))
  {
    ModifiedAligned(s);
    GetAt(s.modifiedNew, i);
    GetAt(s.modifiedOld, i);
    assert WellFormedAt(s, s.modifiedNew[i].name);
  }

  lemma RemovedChange(s: Diff, i: nat)
    requires WellFormed(s) && i < |s.removed|
    ensures At(s, s.removed[i].name) == Removed(s.removed[i]) && ValidKey(s.removed[i])
  {
    GetAt(s.removed, i);
    assert WellFormedAt(s, s.removed[i].name);
  }

  lemma WarnStep(warnings: seq<KeyName>, before: seq<KeyName>, warned: bool, r: Diff, t: Diff, s: Diff, keys: KeySet, i: nat, parent: Option<KeyName>)
    requires i < |keys|
    requires Warned(before, t, s, keys[..i], parent)
    requires IsFolded(r, t, s, keys[..i], parent)
    requires warned == (InScope(parent, keys[i].name) && Conflict(At(r, keys[i].name), At(s, keys[i].name)))
    requires warnings == if warned then before + [keys[i].name] else before
    ensures Warned(warnings, t, s, keys[..i + 1], parent)
  {
    var done, next: KeySet := keys[..i], keys[..i + 1];
    GetPrefix(keys, i, keys[i].name);
    assert FoldedAt(r, t, s, done, parent, keys[i].name);
    forall n ensures n in warnings <==> InScope(parent, n) && Get(next, n).Some? && Conflict(At(t, n), At(s, n)) {
      GetPrefix(keys, i, n);
    }
  }

  lemma WarningsTogether(t: Diff, r1: Diff, r2: Diff, s: Diff, parent: Option<KeyName>,
                         w1: seq<KeyName>, w2: seq<KeyName>, w3: seq<KeyName>)
    requires WellFormed(s)
    requires IsFolded(r1, t, s, s.added, parent) && IsFolded(r2, r1, s, s.modifiedNew, parent)
    requires Warned(w1, t, s, s.added, parent) && Warned(w2, r1, s, s.modifiedNew, parent) && Warned(w3, r2, s, s.removed, parent)
    ensures forall n :: n in w1 + w2 + w3 <==> InScope(parent, n) && Conflict(At(t, n), At(s, n))
  {
    forall n ensures n in w1 + w2 + w3 <==> InScope(parent, n) && Conflict(At(t, n), At(s, n)) {
      assert WellFormedAt(s, n);
      assert FoldedAt(r1, t, s, s.added, parent, n) && FoldedAt(r2, r1, s, s.modifiedNew, parent, n);
    }
  }

  /** elektraDiffCalculate */
  method Calculate(newKeys: KeySet, oldKeys: KeySet, parent: Option<KeyName>) returns (d: ElektraDiff)
    requires ValidKeys(newKeys) && ValidKeys(oldKeys)
    ensures fresh(d) && d.parentKey == parent && d.modifiedNewKeys.Some?
    ensures IsDifference(d.Value(), newKeys, oldKeys, parent) && WellFormed(d.Value())
  {
    var v, _ := FindDifferences(newKeys, oldKeys, parent);
    DifferenceWellFormed(v, newKeys, oldKeys, parent);
    d := new ElektraDiff(v.added, v.removed, v.modifiedOld, Some(v.modifiedNew), parent);
  }

  /** Two calculated steps, the second appended to the first, against the diff calculated in one go. */
  method ComposeSteps(a: KeySet, b: KeySet, c: KeySet, parent: Option<KeyName>)
    returns (composed: ElektraDiff, direct: ElektraDiff, warnings: seq<KeyName>)
    requires ValidKeys(a) && ValidKeys(b) && ValidKeys(c)
    ensures warnings == []
    ensures SameDiff(composed.Value(), direct.Value()) <==> NoMetaDrift(a, b, c, parent)
  {
    hide IsDifference, IsAppended, WellFormed, SameDiff, NoMetaDrift, ValidKeys;
    composed := Calculate(b, a, parent);
    var step := Calculate(c, b, parent);
    direct := Calculate(c, a, parent);
    ghost var first := composed.Value();
    var result := composed.Append(step, parent);
    warnings := result.warnings;
    DiffsCompose(a, b, c, parent, first, step.Value(), composed.Value(), direct.Value());
    HasMember(warnings);
  }

  /** Two diffs that should be the same and are not: the steps from a meta key over nothing to the same key with
      metadata of its own, and the diff between the ends. */
  method DriftedDiffs() returns (composed: ElektraDiff, direct: ElektraDiff)
    ensures !SameDiff(composed.Value(), direct.Value())
  {
    var a: KeySet, b: KeySet, c: KeySet := [Bare], [], [Marked];
    MetaDriftExample(a, b, c);
    var warnings;
    composed, direct, warnings := ComposeSteps(a, b, c, None);
  }

  /** Over any run of versions, the step diffs appended one after the other never conflict, and undoing
      the result on the last version gives back the first one at and below the parent. */
  method FoldAndUndo(versions: seq<KeySet>, parent: Option<KeyName>) returns (r: KeySet, quiet: bool)
    requires versions != [] && forall v | v in versions :: ValidKeys(v)
    ensures Restored(r, versions[0], versions[|versions| - 1], parent)
    ensures quiet
  {
    var diff := new ElektraDiff([], [], [], Some([]), parent);
    StartFits(versions[0], parent);
    quiet := true;
    for i := 1 to |versions|
      invariant fresh(diff) && diff.modifiedNewKeys.Some?
      invariant WellFormed(diff.Value())
      invariant FitsRun(diff.Value(), versions[0], versions[i - 1], parent)
      invariant quiet
    {
      var step := Calculate(versions[i], versions[i - 1], parent);
      ghost var before := diff.Value();
      var result := diff.Append(step, parent);
      RunStep(before, step.Value(), diff.Value(), versions[0], versions[i - 1], versions[i], parent);
      HasMember(result.warnings);
      quiet := quiet && result.warnings == [];
    }
    var last := versions[|versions| - 1];
    r := diff.Undo(last);
    UndoRestores(diff.Value(), versions[0], last, r, parent);
  }

  lemma HasMember(s: seq<KeyName>)
    ensures s != [] ==> exists n :: n in s
  {
    if s != [] { assert s[0] in s; }
  }

  lemma StartFits(v: KeySet, parent: Option<KeyName>)
    ensures WellFormed(Diff([], [], [], []))
    ensures FitsRun(Diff([], [], [], []), v, v, parent)
  {
    var d := Diff([], [], [], []);
    forall n ensures WellFormedAt(d, n) && Fits(parent, n, At(d, n), Get(v, n), Get(v, n)) {
      ChangeFits(parent, n, Get(v, n), Get(v, n));
    }
  }
}
