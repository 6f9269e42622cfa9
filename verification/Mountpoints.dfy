/** Which mountpoint owns a key: the deepest one at or above it. */
module Mountpoints {
  import opened KeyNames

  /** A mount table: strictly sorted names, none of them cascading. */
  predicate MountTable(names: seq<KeyName>) {
    (forall i, j | 0 <= i < j < |names| :: Lt(names[i], names[j])) &&
    forall i | 0 <= i < |names| :: names[i].ns != Cascading
  }

  predicate NoOwner(names: seq<KeyName>, k: KeyName) {
    forall j | 0 <= j < |names| :: !Below(names[j], k)
  }

  /** `o` is at or above `k`, and every other mountpoint at or above `k` is at or above `o`. */
  predicate IsOwner(names: seq<KeyName>, k: KeyName, o: int) {
    0 <= o < |names| && Below(names[o], k) &&
    forall j | 0 <= j < |names| && Below(names[j], k) :: Below(names[j], names[o])
  }

  lemma OwnerUnique(names: seq<KeyName>, k: KeyName, o: int, p: int)
    requires MountTable(names) && IsOwner(names, k, o) && IsOwner(names, k, p)
    ensures o == p
  {
    assert Below(names[o], names[p]) && Below(names[p], names[o]);
    assert names[o] == names[p];
    LtIrreflexive(names[o]);
  }

  function IndexFrom(names: seq<KeyName>, n: RawName, from: nat): (i: int)
    requires from <= |names|
    ensures -1 <= i < |names|
    ensures i >= 0 ==> names[i] == n
    ensures i < 0 ==> forall j | from <= j < |names| :: names[j] != n
    decreases |names| - from
  {
    if from == |names| then -1
    else if names[from] == n then from
    else IndexFrom(names, n, from + 1)
  }

  function IndexOf(names: seq<KeyName>, n: RawName): (i: int)
    ensures -1 <= i < |names|
    ensures i >= 0 ==> names[i] == n
  {
    IndexFrom(names, n, 0)
  }

  /** Look up the parts, then shorten them from the end; -1 when not even the root is mounted. */
  function Walk(names: seq<KeyName>, ns: Namespace, parts: seq<Part>): int {
    var i := IndexOf(names, RawName(ns, parts));
    if i >= 0 then i
    else if parts == [] then -1
    else Walk(names, ns, parts[..|parts| - 1])
  }

  function OwnerOf(names: seq<KeyName>, k: KeyName): int {
    Walk(names, k.ns, k.parts)
  }

  lemma {:induction false} WalkFindsDeepest(names: seq<KeyName>, k: KeyName, parts: seq<Part>)
    requires parts <= k.parts
    requires forall j | 0 <= j < |names| && Below(names[j], k) :: names[j].parts <= parts
    ensures var o := Walk(names, k.ns, parts);
            -1 <= o < |names| && (if o >= 0 then IsOwner(names, k, o) else NoOwner(names, k))
    decreases |parts|
  {
    var n := RawName(k.ns, parts);
    var i := IndexOf(names, n);
    if i < 0 && parts != [] {
      var shorter := parts[..|parts| - 1];
      forall j | 0 <= j < |names| && Below(names[j], k) ensures names[j].parts <= shorter {
        assert names[j] in names;
        assert names[j].parts != parts;
      }
      WalkFindsDeepest(names, k, shorter);
    } else if i < 0 {
      forall j | 0 <= j < |names| ensures !Below(names[j], k) {
        assert names[j] in names;
      }
    }
  }

  /** Walking up from a name finds its owner, or nothing when there is none. */
  lemma OwnerOfCorrect(names: seq<KeyName>, k: KeyName)
    ensures var o := OwnerOf(names, k);
            -1 <= o < |names| && (if o >= 0 then IsOwner(names, k, o) else NoOwner(names, k))
  {
    WalkFindsDeepest(names, k, k.parts);
  }

  // ----- where backendsFindParent and backendsDivide send a key

  function DefaultIndex(names: seq<KeyName>): int {
    IndexOf(names, DefaultRoot)
  }

  /** The namespaces in which a cascading name is looked up, in this order. */
  const CASCADE: seq<Namespace> := [Proc, Dir, User, System, Default]

  function LookupIn(names: seq<KeyName>, parts: seq<Part>, spaces: seq<Namespace>): (i: int)
    ensures -1 <= i < |names|
  {
    if spaces == [] then -1
    else
      var i := IndexOf(names, RawName(spaces[0], parts));
      if i >= 0 then i else LookupIn(names, parts, spaces[1..])
  }

  /** ksLookup of a mountpoint. */
  function Lookup(names: seq<KeyName>, n: RawName): (i: int)
    ensures -1 <= i < |names|
  {
    if n.ns == Cascading then LookupIn(names, n.parts, CASCADE) else IndexOf(names, n)
  }

  /** Look up the parts, then shorten them from the end. */
  function SearchUp(names: seq<KeyName>, ns: Namespace, parts: seq<Part>): (i: int)
    ensures -1 <= i < |names|
  {
    var i := Lookup(names, RawName(ns, parts));
    if i >= 0 then i
    else if parts == [] then -1
    else SearchUp(names, ns, parts[..|parts| - 1])
  }

  /** What the search finds, else the default mountpoint, else -1. */
  function Route(names: seq<KeyName>, k: KeyName): int {
    var o := SearchUp(names, k.ns, k.parts);
    if o >= 0 then o else DefaultIndex(names)
  }

  lemma {:induction false} SearchIsWalk(names: seq<KeyName>, ns: Namespace, parts: seq<Part>)
    requires ns != Cascading
    ensures SearchUp(names, ns, parts) == Walk(names, ns, parts)
  {
    if parts != [] { SearchIsWalk(names, ns, parts[..|parts| - 1]); }
  }

  /** A key in a namespace is routed to its owner, or to default:/. */
  lemma RouteIsOwner(names: seq<KeyName>, k: KeyName)
    requires k.ns != Cascading
    ensures Route(names, k) == if OwnerOf(names, k) >= 0 then OwnerOf(names, k) else DefaultIndex(names)
  {
    SearchIsWalk(names, k.ns, k.parts);
  }

  /** `i` is before `j` among the namespaces, or `j` is not among them. */
  predicate InOrder(spaces: seq<Namespace>, a: Namespace, b: Namespace) {
    exists i | 0 <= i < |spaces| :: spaces[i] == a && b !in spaces[..i]
  }

  lemma {:induction false} LookupInFirst(names: seq<KeyName>, parts: seq<Part>, spaces: seq<Namespace>)
    ensures var r := LookupIn(names, parts, spaces);
            if r < 0 then forall j | 0 <= j < |names| && names[j].ns in spaces :: names[j].parts != parts
            else names[r].parts == parts && names[r].ns in spaces &&
                 forall j | 0 <= j < |names| && names[j].parts == parts && names[j].ns in spaces :: InOrder(spaces, names[r].ns, names[j].ns)
  {
    if spaces != [] {
      var i := IndexOf(names, RawName(spaces[0], parts));
      var rest := spaces[1..];
      LookupInFirst(names, parts, rest);
      if i >= 0 {
        forall j | 0 <= j < |names| && names[j].parts == parts && names[j].ns in spaces ensures InOrder(spaces, names[i].ns, names[j].ns) {
          assert spaces[0] == names[i].ns && names[j].ns !in spaces[..0];
        }
      } else {
        var r := LookupIn(names, parts, rest);
        forall j | 0 <= j < |names| && names[j].parts == parts && names[j].ns in spaces
          ensures names[j].ns in rest && names[j].ns != spaces[0]
        {
          assert names[j] != RawName(spaces[0], parts);
        }
        if r >= 0 {
          forall j | 0 <= j < |names| && names[j].parts == parts && names[j].ns in spaces ensures InOrder(spaces, names[r].ns, names[j].ns) {
            var m :| 0 <= m < |rest| && rest[m] == names[r].ns && names[j].ns !in rest[..m];
            assert spaces[m + 1] == names[r].ns && spaces[..m + 1] == [spaces[0]] + rest[..m];
          }
        }
      }
    }
  }

  /** Mountpoints above a cascading name, in a namespace that is looked up. */
  predicate Matches(n: KeyName, parts: seq<Part>) {
    (n.ns == Proc || n.ns == Dir || n.ns == User || n.ns == System || n.ns == Default) && n.parts <= parts
  }

  /** proc:/ comes first, then dir:/, user:/, system:/ and default:/. */
  predicate NotAfter(a: Namespace, b: Namespace) {
    a == b || a == Proc || b == Default || (a == Dir && b != Proc) || (a == User && b == System)
  }

  lemma CascadeOrder(a: Namespace, b: Namespace)
    ensures a in CASCADE <==> a == Proc || a == Dir || a == User || a == System || a == Default
    ensures a in CASCADE && b in CASCADE ==> (InOrder(CASCADE, a, b) ==> NotAfter(a, b))
  {
    assert CASCADE[0] == Proc && CASCADE[1] == Dir && CASCADE[2] == User && CASCADE[3] == System && CASCADE[4] == Default;
    assert CASCADE[..0] == [] && CASCADE[..1] == [Proc] && CASCADE[..2] == [Proc, Dir] && CASCADE[..3] == [Proc, Dir, User] &&
           CASCADE[..4] == [Proc, Dir, User, System];
  }

  lemma {:induction false} CascadingSearch(names: seq<KeyName>, whole: seq<Part>, parts: seq<Part>)
    requires parts <= whole && forall j | 0 <= j < |names| && Matches(names[j], whole) :: names[j].parts <= parts
    ensures var r := SearchUp(names, Cascading, parts);
            if r < 0 then forall j | 0 <= j < |names| :: !Matches(names[j], whole)
            else Matches(names[r], whole) &&
                 forall j | 0 <= j < |names| && Matches(names[j], whole) ::
                   names[j].parts <= names[r].parts && (names[j].parts == names[r].parts ==> NotAfter(names[r].ns, names[j].ns))
    decreases |parts|
  {
    hide InOrder, NotAfter;
    LookupInFirst(names, parts, CASCADE);
    forall a, b { CascadeOrder(a, b); }
    if Lookup(names, RawName(Cascading, parts)) < 0 && parts != [] {
      var shorter := parts[..|parts| - 1];
      forall j | 0 <= j < |names| && Matches(names[j], whole) ensures names[j].parts <= shorter {
        assert names[j].parts != parts;
      }
      CascadingSearch(names, whole, shorter);
    }
  }

  /** A cascading key is routed to the deepest mountpoint above it in any of the looked-up namespaces, and of these to
      the first in their order. */
  lemma CascadingRoute(names: seq<KeyName>, k: KeyName)
    requires k.ns == Cascading
    ensures var r := Route(names, k);
            if r < 0 then forall j | 0 <= j < |names| :: !Matches(names[j], k.parts)
            else r < |names| && Matches(names[r], k.parts) &&
                 forall j | 0 <= j < |names| && Matches(names[j], k.parts) ::
                   names[j].parts <= names[r].parts && (names[j].parts == names[r].parts ==> NotAfter(names[r].ns, names[j].ns))
  {
    hide NotAfter;
    CascadingSearch(names, k.parts, k.parts);
    var d := DefaultIndex(names);
    assert d >= 0 ==> Matches(names[d], k.parts);
  }

  /** A cascading key that the first mountpoint takes when default:/ is not mounted. */
  predicate Borrowed(names: seq<KeyName>, k: KeyName) {
    k.ns == Cascading && names != [] && BelowOrSame(names[0], k)
  }

  /** The backend that the division gives a key to; -1 where it stops. Keys in the default namespace
      go to default:/, and so do keys that sort before the first mountpoint. */
  function Target(names: seq<KeyName>, k: KeyName): int {
    var d, o := DefaultIndex(names), OwnerOf(names, k);
    if d >= 0 && k.ns == Default then d
    else if o >= 0 then o
    else if d >= 0 && Lt(k, names[0]) then d
    else if d < 0 && Borrowed(names, k) then 0
    else -1
  }

  /** Division and lookup agree wherever the division succeeds, except for a mountpoint that is
      mounted inside default:/. (For cascading keys see CascadingTarget and CascadingRoute.) */
  lemma TargetIsRoute(names: seq<KeyName>, k: KeyName)
    requires MountTable(names) && Target(names, k) >= 0
    ensures k.ns != Cascading ==>
            (Target(names, k) == Route(names, k)
             <==> !(DefaultIndex(names) >= 0 && k.ns == Default && OwnerOf(names, k) != DefaultIndex(names)))
  {
    hide Lt;
    if k.ns != Cascading { RouteIsOwner(names, k); }
    OwnerOfCorrect(names, k);
    var d := DefaultIndex(names);
    if d >= 0 && k.ns == Default {
      assert Below(names[d], k);
    }
  }

  lemma CascadingFirst(k: KeyName, n: KeyName)
    requires k.ns == Cascading && n.ns != Cascading
    ensures Lt(k, n) && !Le(n, k)
  {
    LtTotal(k, n);
    if Lt(n, k) { LtNamespace(n, k); }
  }

  /** Cascading keys go to default:/, or without it to the first mountpoint if they are below its parts. */
  lemma CascadingTarget(names: seq<KeyName>, k: KeyName)
    requires MountTable(names) && k.ns == Cascading
    ensures Target(names, k) ==
            if DefaultIndex(names) >= 0 then DefaultIndex(names) else if Borrowed(names, k) then 0 else -1
    ensures NoOwner(names, k)
  {
    hide Lt;
    OwnerOfCorrect(names, k);
    if names != [] { CascadingFirst(k, names[0]); }
  }

  /** The disagreement exists: default:/ and default:/a are mounted, and the key is default:/a/b. */
  lemma TargetIsNotRouteExample()
    ensures exists names: seq<KeyName>, k: KeyName ::
      MountTable(names) && Target(names, k) >= 0 && Target(names, k) != Route(names, k)
  {
    var inner: KeyName, k: KeyName := RawName(Default, [[97]]), RawName(Default, [[97], [98]]);
    var names := [DefaultRoot, inner];
    LtIsPartOrder(DefaultRoot, inner);
    RouteIsOwner(names, k);
    OwnerOfCorrect(names, k);
    OwnerUnique(names, k, 1, OwnerOf(names, k));
    assert MountTable(names) && Target(names, k) == 0 && Route(names, k) == 1;
  }

  /** No owner; with default:/ mounted, not before the first mountpoint; without it, not a cascading key that the
      first mountpoint takes. */
  lemma TargetMissing(names: seq<KeyName>, k: KeyName)
    requires MountTable(names)
    ensures Target(names, k) < 0
            <==> NoOwner(names, k) && (if DefaultIndex(names) >= 0 then !Lt(k, names[0]) else !Borrowed(names, k))
  {
    hide Lt;
    OwnerOfCorrect(names, k);
    var d := DefaultIndex(names);
    if d >= 0 && k.ns == Default {
      assert Below(names[d], k);
    }
  }

  // ----- the stack of opened mountpoints

  /** Mountpoints `f+1..j` are opened and already left: none of them is at or above `k`. */
  predicate LeftBehind(names: seq<KeyName>, f: int, j: int, k: KeyName) {
    forall i | f < i <= j && 0 <= i < |names| :: Le(names[i], k) && !Below(names[i], k)
  }

  predicate NextAfter(names: seq<KeyName>, j: int, k: KeyName) {
    -1 <= j && j + 1 < |names| ==> Lt(k, names[j + 1])
  }

  lemma BelowIsOpened(names: seq<KeyName>, j: int, k: KeyName, i: int)
    requires MountTable(names) && -1 <= j < |names| && NextAfter(names, j, k)
    requires 0 <= i < |names| && Below(names[i], k)
    ensures i <= j
  {
    BelowSortsAfter(names[i], k);
    if j < i {
      assert Le(names[j + 1], names[i]);
      if names[j + 1] != names[i] { LtTransitive(k, names[j + 1], names[i]); }
      LtTotal(k, names[i]);
    }
  }

  /** Two names above one key are comparable, and the later one is the deeper one. */
  lemma AboveOneKey(a: KeyName, b: KeyName, k: KeyName)
    requires Below(a, k) && Below(b, k) && Le(a, b)
    ensures Below(a, b)
  {
    hide Lt;
    if !Below(a, b) {
      assert Below(b, a);
      BelowSortsAfter(b, a);
      LtTotal(a, b);
    }
  }

  /** A key below the innermost open mountpoint belongs to it. */
  lemma {:induction false} FrameOwns(names: seq<KeyName>, f: int, j: int, k: KeyName)
    requires MountTable(names) && 0 <= f <= j < |names|
    requires Below(names[f], k) && LeftBehind(names, f, j, k) && NextAfter(names, j, k)
    ensures IsOwner(names, k, f)
    ensures OwnerOf(names, k) == f
  {
    hide Lt, OwnerOf;
    forall i | 0 <= i < |names| && Below(names[i], k) ensures Below(names[i], names[f]) {
      BelowIsOpened(names, j, k, i);
      assert i <= f;
      AboveOneKey(names[i], names[f], k);
    }
    OwnerOfCorrect(names, k);
    OwnerUnique(names, k, f, OwnerOf(names, k));
  }

  /** A key below no open mountpoint has no owner. */
  lemma NobodyOwns(names: seq<KeyName>, j: int, k: KeyName)
    requires MountTable(names) && -1 <= j < |names|
    requires forall i | 0 <= i <= j :: !Below(names[i], k)
    requires NextAfter(names, j, k)
    ensures NoOwner(names, k) && OwnerOf(names, k) == -1
  {
    forall i | 0 <= i < |names| ensures !Below(names[i], k) {
      if Below(names[i], k) { BelowIsOpened(names, j, k, i); }
    }
    OwnerOfCorrect(names, k);
  }

  /** A mountpoint left behind by one key is behind all later ones. */
  lemma StaysBehind(names: seq<KeyName>, f: int, j: int, k: KeyName, next: KeyName)
    requires LeftBehind(names, f, j, k) && Lt(k, next)
    ensures LeftBehind(names, f, j, next)
  {
    forall i | f < i <= j && 0 <= i < |names| ensures Le(names[i], next) && !Below(names[i], next) {
      if names[i] != k { LtTransitive(names[i], k, next); }
      if Below(names[i], next) { Contiguous(names[i], k, next); }
    }
  }

  // ----- selection for a parent key

  /** At or below the parent; a cascading parent stands for every namespace. */
  predicate UnderParent(parent: KeyName, k: KeyName) {
    (parent.ns == Cascading || parent.ns == k.ns) && parent.parts <= k.parts
  }

  /** The parent moved into a namespace. */
  function InNamespace(parent: KeyName, ns: Namespace): KeyName {
    RawName(ns, parent.parts)
  }

  lemma OwnerAboveOrBelowParent(names: seq<KeyName>, parent: KeyName, k: KeyName)
    requires MountTable(names) && UnderParent(parent, k) && OwnerOf(names, k) >= 0
    ensures var o := OwnerOf(names, k);
            var p := InNamespace(parent, k.ns);
            o < |names| && (Below(p, names[o]) || OwnerOf(names, p) == o)
  {
    var o := OwnerOf(names, k);
    var p := InNamespace(parent, k.ns);
    OwnerOfCorrect(names, k);
    OwnerOfCorrect(names, p);
    if !Below(p, names[o]) {
      assert Below(names[o], p);
      forall j | 0 <= j < |names| && Below(names[j], p) ensures Below(names[j], names[o]) {
        assert Below(names[j], k);
      }
      OwnerUnique(names, p, o, OwnerOf(names, p));
    }
  }

  /** Dropping mountpoints that do not own a key does not change its owner. */
  lemma OwnerInSubtable(names: seq<KeyName>, part: seq<KeyName>, k: KeyName, o: int, p: int)
    requires MountTable(names) && MountTable(part)
    requires IsOwner(names, k, o) && 0 <= p < |part| && part[p] == names[o]
    requires forall n | n in part :: n in names
    ensures IsOwner(part, k, p) && OwnerOf(part, k) == p
  {
    forall j | 0 <= j < |part| && Below(part[j], k) ensures Below(part[j], part[p]) {
      assert part[j] in names;
      var i :| 0 <= i < |names| && names[i] == part[j];
      assert Below(names[i], names[o]);
    }
    OwnerOfCorrect(part, k);
    OwnerUnique(part, k, p, OwnerOf(part, k));
  }
}
