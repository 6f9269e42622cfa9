/** What changed at one name between two KeySets, and how changes compose and undo. */
module Changes {
  import opened Wrappers
  import opened KeyNames
  import opened KeySets

  // ----- when two keys count as the same

  /** The name of the metadata key that marks binary data ("binary"). */
  const BINARY: KeyName := RawName(Meta, [[98, 105, 110, 97, 114, 121]])

  datatype Content = NoData | Text(text: seq<Byte>) | Binary(bytes: seq<Byte>)

  predicate IsString(k: Key) {
    forall i | 0 <= i < |k.meta| :: k.meta[i].name != BINARY
  }

  /** A C string ends at its first zero byte. */
  function UpToNul(s: seq<Byte>): seq<Byte> {
    if s == [] || s[0] == 0 then [] else [s[0]] + UpToNul(s[1..])
  }

  /** What is read is what precedes the first zero byte, or everything when there is none. */
  lemma {:induction false} UpToNulFirst(s: seq<Byte>)
    ensures UpToNul(s) <= s && 0 !in UpToNul(s)
    ensures |UpToNul(s)| < |s| ==> s[|UpToNul(s)|] == 0
  {
    if s != [] && s[0] != 0 {
      UpToNulFirst(s[1..]);
      assert s == [s[0]] + s[1..];
    }
  }

  /** So the bytes before a zero byte are what is read, whatever follows it. */
  lemma UpToNulIs(x: seq<Byte>, rest: seq<Byte>)
    requires 0 !in x && (rest == [] || rest[0] == 0)
    ensures UpToNul(x + rest) == x
  {
    var s, u := x + rest, UpToNul(x + rest);
    UpToNulFirst(s);
    assert forall i | 0 <= i < |x| :: s[i] == x[i] && x[i] in x;
    assert forall i | 0 <= i < |u| :: s[i] == u[i] && u[i] in u;
    assert |rest| > 0 ==> s[|x|] == 0;
  }

  function ContentOf(k: Key): Content {
    if k.data.None? then NoData
    else if IsString(k) then Text(UpToNul(k.data.value))
    else Binary(k.data.value)
  }

  /** keyValueDifferent, branch by branch. `shared` says that both keys point to one data object, as
      duplicates do until one of them is written to. */
  predicate KeyValueDifferent(newKey: Key, oldKey: Key, shared: bool) {
    if shared || (newKey.data.None? && oldKey.data.None?) then false
    else if newKey.data.None? || oldKey.data.None? then true
    else if IsString(newKey) != IsString(oldKey) then true
    else if IsString(newKey) then UpToNul(newKey.data.value) != UpToNul(oldKey.data.value)
    else |newKey.data.value| != |oldKey.data.value| || newKey.data.value != oldKey.data.value
  }

  /** The value comparison decides whether the contents differ, except exactly for shared data that only one
      of the keys marks as binary: there the types are not compared. */
  lemma ValueDifferentIff(a: Key, b: Key, shared: bool)
    requires shared ==> a.data == b.data
    ensures (KeyValueDifferent(a, b, shared) <==> ContentOf(a) != ContentOf(b))
            <==> !(shared && a.data.Some? && IsString(a) != IsString(b))
  {
  }

  /** Where metadata is compared too, sharing makes no difference: the mark is metadata. */
  lemma SharingDoesNotMatter(a: Key, b: Key, shared: bool)
    requires shared ==> a.data == b.data
    ensures KeyValueDifferent(a, b, shared) || !SameMeta(a, b) <==> !SameKey(a, b)
  {
    ValueDifferentIff(a, b, shared);
    if SameMeta(a, b) {
      assert IsString(a) == IsString(b) by {
        if !IsString(a) {
          var i :| 0 <= i < |a.meta| && a.meta[i].name == BINARY;
          assert b.meta[i].name == BINARY;
        }
        if !IsString(b) {
          var i :| 0 <= i < |b.meta| && b.meta[i].name == BINARY;
          assert a.meta[i].name == BINARY;
        }
      }
    }
  }

  predicate SameMeta(a: Key, b: Key) {
    |a.meta| == |b.meta| &&
    forall i | 0 <= i < |a.meta| ::
      a.meta[i].name == b.meta[i].name && ContentOf(a.meta[i]) == ContentOf(b.meta[i])
  }

  predicate SameKey(a: Key, b: Key) {
    ContentOf(a) == ContentOf(b) && SameMeta(a, b)
  }

  /** Sameness as the KeySet comparison sees it: metadata of meta keys is not looked at. */
  predicate SameAt(a: Key, b: Key) {
    ContentOf(a) == ContentOf(b) && (a.name.ns != Meta ==> SameMeta(a, b))
  }

  /** Metadata is a KeySet in the meta namespace. */
  predicate ValidKey(k: Key) {
    Sorted(k.meta) && forall i | 0 <= i < |k.meta| :: k.meta[i].name.ns == Meta
  }

  predicate ValidKeys(ks: KeySet) {
    forall k | k in ks :: ValidKey(k)
  }

  // ----- one change

  datatype Change = Unchanged | Added(key: Key) | Removed(key: Key) | Modified(oldKey: Key, newKey: Key)

  predicate InScope(parent: Option<KeyName>, n: KeyName) {
    parent.None? || BelowOrSame(parent.value, n)
  }

  /** The change at `n` from `oldKey` to `newKey`, as far as a diff with this parent records it. */
  function ChangeOf(parent: Option<KeyName>, n: KeyName, newKey: Option<Key>, oldKey: Option<Key>): Change {
    if n.ns == Cascading || !InScope(parent, n) then Unchanged
    else
      match (newKey, oldKey)
      case (None, None) => Unchanged
      case (Some(k), None) => Added(k)
      case (None, Some(k)) => Removed(k)
      case (Some(k), Some(o)) => if SameAt(o, k) then Unchanged else Modified(o, k)
  }

  // ----- what the comparison of values decides

  /** Without metadata a value counts up to its first zero byte: it is modified exactly when these bytes differ. */
  lemma TextModified(parent: Option<KeyName>, n: KeyName, x: seq<Byte>, y: seq<Byte>, u: seq<Byte>, v: seq<Byte>)
    requires n.ns != Cascading && InScope(parent, n) && 0 !in x && 0 !in y
    ensures var o, k := Key(n, Some(x + [0] + u), []), Key(n, Some(y + [0] + v), []);
            ChangeOf(parent, n, Some(k), Some(o)) == if x == y then Unchanged else Modified(o, k)
  {
    hide UpToNul;
    assert x + [0] + u == x + ([0] + u) && y + [0] + v == y + ([0] + v);
    UpToNulIs(x, [0] + u);
    UpToNulIs(y, [0] + v);
  }

  /** With the metadata key named by the bytes of "binary" a value counts as a whole. */
  lemma BinaryModified(parent: Option<KeyName>, n: KeyName, mark: Key, x: seq<Byte>, y: seq<Byte>)
    requires n.ns != Cascading && InScope(parent, n) && mark.name == RawName(Meta, [[98, 105, 110, 97, 114, 121]])
    ensures var o, k := Key(n, Some(x), [mark]), Key(n, Some(y), [mark]);
            ChangeOf(parent, n, Some(k), Some(o)) == if x == y then Unchanged else Modified(o, k)
  {
    var o, k := Key(n, Some(x), [mark]), Key(n, Some(y), [mark]);
    assert o.meta[0].name == BINARY && k.meta[0].name == BINARY;
  }

  /** A key that has no data at all differs from one that has, even from one with an empty text. */
  lemma MissingDataModified(parent: Option<KeyName>, n: KeyName, x: seq<Byte>)
    requires n.ns != Cascading && InScope(parent, n)
    ensures var o, k := Key(n, None, []), Key(n, Some(x), []);
            ChangeOf(parent, n, Some(k), Some(o)) == Modified(o, k) && ChangeOf(parent, n, Some(o), Some(k)) == Modified(k, o) &&
            ChangeOf(parent, n, Some(o), Some(o)) == Unchanged
  {
  }

  /** Outside the meta namespace a metadata key counts by its name and by its text; in that namespace it does not count. */
  lemma MetaModified(parent: Option<KeyName>, n: KeyName, data: Option<seq<Byte>>, a: KeyName, b: KeyName, x: seq<Byte>, y: seq<Byte>)
    requires n.ns != Cascading && InScope(parent, n) && 0 !in x && 0 !in y
    requires a.ns == Meta && b.ns == Meta && a != RawName(Meta, [[98, 105, 110, 97, 114, 121]]) && b != RawName(Meta, [[98, 105, 110, 97, 114, 121]])
    ensures var o, k := Key(n, data, [Key(a, Some(x + [0]), [])]), Key(n, data, [Key(b, Some(y + [0]), [])]);
            ChangeOf(parent, n, Some(k), Some(o)) == if n.ns == Meta || (a == b && x == y) then Unchanged else Modified(o, k)
  {
    hide UpToNul;
    UpToNulIs(x, [0]);
    UpToNulIs(y, [0]);
    var c, d := Key(a, Some(x + [0]), []), Key(b, Some(y + [0]), []);
    var o, k := Key(n, data, [c]), Key(n, data, [d]);
    assert o.meta[0] == c && k.meta[0] == d;
    assert ContentOf(c) == Text(x) && ContentOf(d) == Text(y);
    assert IsString(o) && IsString(k) && ContentOf(o) == ContentOf(k);
  }

  /** The change that `t` followed by `s` amounts to; on conflict `t` stands. */
  function Compose(t: Change, s: Change): Change {
    match s
    case Unchanged => t
    case Added(k) => (
      match t
      case Unchanged => Added(k)
      case Removed(o) => if SameKey(o, k) then Unchanged else Modified(o, k)
      case _ => t)
    case Modified(o, k) => (
      match t
      case Unchanged => Modified(o, k)
      case Added(_) => Added(k)
      case Modified(first, _) => if SameKey(first, k) then Unchanged else Modified(first, k)
      case Removed(_) => t)
    case Removed(k) => (
      match t
      case Unchanged => Removed(k)
      case Added(_) => Unchanged
      case Modified(first, _) => Removed(first)
      case Removed(_) => t)
  }

  /** The second change cannot follow the first. */
  predicate Conflict(t: Change, s: Change) {
    match s
    case Unchanged => false
    case Added(_) => t.Added? || t.Modified?
    case Modified(_, _) => t.Removed?
    case Removed(_) => t.Removed?
  }

  /** Whether the name is there after the change, and whether it has to be there before it. */
  predicate Leaves(c: Change, there: bool) {
    (c.Added? || c.Modified? ==> there) && (c.Removed? ==> !there)
  }

  predicate Needs(c: Change, there: bool) {
    (c.Modified? || c.Removed? ==> there) && (c.Added? ==> !there)
  }

  /** Two changes conflict exactly when no state can lie between them. */
  lemma ConflictMeans(t: Change, s: Change)
    ensures Conflict(t, s) <==> forall there: bool :: Leaves(t, there) ==> !Needs(s, there)
  {
    if t.Removed? {
      assert Leaves(t, false);
    } else {
      assert Leaves(t, true) && (t.Unchanged? ==> Leaves(t, false));
    }
  }

  function UndoAt(c: Change, now: Option<Key>): Option<Key> {
    match c
    case Unchanged => now
    case Added(_) => None
    case Removed(k) => Some(k)
    case Modified(o, _) => Some(o)
  }

  predicate Proper(c: Change) {
    match c
    case Unchanged => true
    case Added(k) => ValidKey(k)
    case Removed(k) => ValidKey(k)
    case Modified(o, k) => ValidKey(o) && ValidKey(k) && !SameKey(o, k)
  }

  predicate SameOption(a: Option<Key>, b: Option<Key>) {
    a.Some? == b.Some? && (a.Some? ==> SameAt(a.value, b.value))
  }

  predicate SameChange(x: Change, y: Change) {
    match (x, y)
    case (Unchanged, Unchanged) => true
    case (Added(a), Added(b)) => SameAt(a, b)
    case (Removed(a), Removed(b)) => SameAt(a, b)
    case (Modified(a, b), Modified(c, d)) => SameAt(a, c) && SameAt(b, d)
    case _ => false
  }

  // ----- laws at one name

  predicate NamedOpt(n: KeyName, k: Option<Key>) {
    k.Some? ==> k.value.name == n
  }

  /** The only way composition can miss: a key of the meta namespace comes back with its content but
      with other metadata, through a state that lacks it or has another content. */
  predicate MetaDrift(parent: Option<KeyName>, n: KeyName, a: Option<Key>, b: Option<Key>, c: Option<Key>) {
    n.ns == Meta && InScope(parent, n) && a.Some? && c.Some? &&
    ContentOf(a.value) == ContentOf(c.value) && !SameMeta(a.value, c.value) &&
    (b.None? || ContentOf(b.value) != ContentOf(a.value))
  }

  /** Two steps compose to the change between their ends, without conflict, exactly when no
      metadata of a meta key drifts. */
  lemma ComposeAt(parent: Option<KeyName>, n: KeyName, a: Option<Key>, b: Option<Key>, c: Option<Key>)
    requires NamedOpt(n, a) && NamedOpt(n, b) && NamedOpt(n, c)
    ensures !Conflict(ChangeOf(parent, n, b, a), ChangeOf(parent, n, c, b))
    ensures SameChange(Compose(ChangeOf(parent, n, b, a), ChangeOf(parent, n, c, b)), ChangeOf(parent, n, c, a))
            <==> !MetaDrift(parent, n, a, b, c)
  {
  }

  /** A recorded change fits a pair of states: undoing it on the later one gives the earlier one. */
  predicate Fits(parent: Option<KeyName>, n: KeyName, c: Change, first: Option<Key>, now: Option<Key>) {
    (c.Added? || c.Modified? ==> now.Some?) &&
    (c.Removed? ==> now.None?) &&
    (if n.ns == Cascading || !InScope(parent, n) then c.Unchanged?
     else SameOption(UndoAt(c, now), first))
  }

  lemma ChangeFits(parent: Option<KeyName>, n: KeyName, newKey: Option<Key>, oldKey: Option<Key>)
    requires NamedOpt(n, newKey) && NamedOpt(n, oldKey)
    ensures Fits(parent, n, ChangeOf(parent, n, newKey, oldKey), oldKey, newKey)
  {
  }

  /** Appending one more step keeps the fit to the first state, whatever the namespace. */
  lemma ComposeFits(parent: Option<KeyName>, n: KeyName, c: Change, first: Option<Key>, b: Option<Key>, d: Option<Key>)
    requires NamedOpt(n, first) && NamedOpt(n, b) && NamedOpt(n, d)
    requires c.Removed? ==> c.key.name == n
    requires c.Modified? ==> c.oldKey.name == n
    requires Fits(parent, n, c, first, b)
    ensures Fits(parent, n, Compose(c, ChangeOf(parent, n, d, b)), first, d)
    ensures !Conflict(c, ChangeOf(parent, n, d, b))
  {
  }

  /** A proper pair of changes composes to a proper change, even a conflicting pair. */
  lemma ComposeProper(t: Change, s: Change)
    requires Proper(t) && Proper(s)
    ensures Proper(Compose(t, s))
  {
  }
}
