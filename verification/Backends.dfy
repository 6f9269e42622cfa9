/** Dividing a KeySet over nested mountpoints in one pass, merging it again, and choosing the
    mountpoints for a parent key. */
module Backends {
  import opened Wrappers
  import opened KeyNames
  import opened KeySets
  import opened Mountpoints

  /** A mounted backend: the backend key and its BackendData. */
  class Backend {
    const name: KeyName
    var keys: KeySet
    var getSize: nat
    var initialized: bool
    var readOnly: bool
    /** What the resolver phase returned: the storage unit, kept as metadata of the backend key. */
    var storage: Option<string>
    const hasInit: bool
    const hasSet: bool
    const hasCommit: bool
    const hasError: bool

    constructor (name: KeyName, hasInit: bool, hasSet: bool, hasCommit: bool, hasError: bool)
      ensures this.name == name && keys == [] && getSize == 0 && !initialized && !readOnly && storage.None?
      ensures this.hasInit == hasInit && this.hasSet == hasSet && this.hasCommit == hasCommit && this.hasError == hasError
    {
      this.name, keys, getSize, initialized, readOnly, storage := name, [], 0, false, false, None;
      this.hasInit, this.hasSet, this.hasCommit, this.hasError := hasInit, hasSet, hasCommit, hasError;
    }
  }

  function Names(bs: seq<Backend>): (names: seq<KeyName>)
    ensures |names| == |bs| && forall i | 0 <= i < |bs| :: names[i] == bs[i].name
  {
    seq(|bs|, i requires 0 <= i < |bs| => bs[i].name)
  }

  predicate Mounted(bs: seq<Backend>) {
    MountTable(Names(bs))
  }

  lemma MountedDistinct(bs: seq<Backend>, i: nat, j: nat)
    requires Mounted(bs) && i < |bs| && j < |bs| && bs[i] == bs[j]
    ensures i == j
  {
    assert Names(bs)[i] == Names(bs)[j];
    LtIrreflexive(bs[i].name);
  }

  // ----- backendsFindParent

  /** Shorten the name from its end until a mountpoint has it; then the root; then default:/. */
  method FindParent(names: seq<KeyName>, key: KeyName) returns (parent: int)
    ensures parent == Route(names, key)
    ensures -1 <= parent < |names|
  {
    var parts := key.parts;
    while parts != []
      invariant SearchUp(names, key.ns, parts) == SearchUp(names, key.ns, key.parts)
      decreases |parts|
    {
      parent := Lookup(names, RawName(key.ns, parts));
      if parent >= 0 {
        return;
      }
      parts := parts[..|parts| - 1];
    }
    parent := Lookup(names, RawName(key.ns, parts));
    if parent < 0 {
      parent := IndexOf(names, DefaultRoot);
    }
  }

  // ----- backendsDivide

  /** The keys of `ks[..hi]` that the division gives to backend `b`, in order. */
  function Portion(names: seq<KeyName>, ks: KeySet, hi: nat, b: int): seq<Key>
    requires hi <= |ks|
  {
    if hi == 0 then []
    else
      var r := Portion(names, ks, hi - 1, b);
      if Target(names, ks[hi - 1].name) == b then r + [ks[hi - 1]] else r
  }

  lemma {:induction false} PortionMembers(names: seq<KeyName>, ks: KeySet, hi: nat, b: int, k: Key)
    requires hi <= |ks|
    ensures k in Portion(names, ks, hi, b) <==> k in ks[..hi] && Target(names, k.name) == b
  {
    hide Lt, Target;
    if hi > 0 {
      PortionMembers(names, ks, hi - 1, b, k);
      assert ks[..hi] == ks[..hi - 1] + [ks[hi - 1]];
    }
  }

  lemma PortionBefore(names: seq<KeyName>, ks: KeySet, hi: nat, b: int, k: Key)
    requires hi < |ks| && k in Portion(names, ks, hi, b)
    ensures Lt(k.name, ks[hi].name)
  {
    PortionMembers(names, ks, hi, b, k);
    var i :| 0 <= i < hi && ks[..hi][i] == k;
  }

  lemma {:induction false} PortionSorted(names: seq<KeyName>, ks: KeySet, hi: nat, b: int)
    requires hi <= |ks|
    ensures Sorted(Portion(names, ks, hi, b))
  {
    if hi > 0 {
      PortionSorted(names, ks, hi - 1, b);
      var r := Portion(names, ks, hi - 1, b);
      forall i | 0 <= i < |r| ensures Lt(r[i].name, ks[hi - 1].name) {
        PortionBefore(names, ks, hi - 1, b, r[i]);
      }
    }
  }

  /** Every backend holds exactly its portion of the first `cur` keys. */
  ghost predicate Divided(bs: seq<Backend>, ks: KeySet, cur: nat)
    requires cur <= |ks|
    reads bs
  {
    forall b | 0 <= b < |bs| :: bs[b].keys == Portion(Names(bs), ks, cur, b)
  }

  predicate AllPlaced(names: seq<KeyName>, ks: KeySet, cur: nat)
    requires cur <= |ks|
  {
    forall i | 0 <= i < cur :: Target(names, ks[i].name) >= 0
  }

  /** The first `cur` keys are divided, each to the backend it belongs to. */
  ghost predicate DividedUpTo(bs: seq<Backend>, ks: KeySet, cur: nat)
    requires cur <= |ks|
    reads bs
  {
    Divided(bs, ks, cur) && AllPlaced(Names(bs), ks, cur)
  }

  lemma AppendLast(ks: KeySet, k: Key)
    requires forall x | x in ks :: Lt(x.name, k.name)
    ensures AppendKey(ks, k) == ks + [k]
  {
    var p := Pos(ks, k.name);
    PosSplits(ks, k.name);
    assert forall i | 0 <= i < |ks| :: ks[i] in ks && Lt(ks[i].name, k.name);
  }

  /** Store the key at the cursor with the backend it belongs to. */
  method Place(bs: seq<Backend>, ks: KeySet, cur: nat, b: nat)
    requires Mounted(bs) && cur < |ks| && b < |bs|
    requires DividedUpTo(bs, ks, cur)
    requires Target(Names(bs), ks[cur].name) == b
    modifies bs`keys
    ensures DividedUpTo(bs, ks, cur + 1)
  {
    var k := ks[cur];
    assert forall x: Key | x in bs[b].keys :: Lt(x.name, k.name) by {
      forall x: Key | x in bs[b].keys ensures Lt(x.name, k.name) { PortionBefore(Names(bs), ks, cur, b, x); }
    }
    AppendLast(bs[b].keys, k);
    bs[b].keys := AppendKey(bs[b].keys, k);
    forall c | 0 <= c < |bs| ensures bs[c].keys == Portion(Names(bs), ks, cur + 1, c) {
      if bs[c] == bs[b] { MountedDistinct(bs, c, b); }
    }
  }

  method PlaceInFrame(bs: seq<Backend>, ks: KeySet, cur: nat, b: nat, ghost f: int, ghost j: int)
    requires Mounted(bs) && cur < |ks| && b < |bs|
    requires DividedUpTo(bs, ks, cur)
    requires Target(Names(bs), ks[cur].name) == b
    requires LeftBehind(Names(bs), f, j, ks[cur].name)
    modifies bs`keys
    ensures DividedUpTo(bs, ks, cur + 1)
    ensures cur + 1 < |ks| ==> LeftBehind(Names(bs), f, j, ks[cur + 1].name)
  {
    Place(bs, ks, cur, b);
    if cur + 1 < |ks| { StaysBehind(Names(bs), f, j, ks[cur].name, ks[cur + 1].name); }
  }

  /** A key that its frame accepts is sent to the frame's backend. */
  lemma FrameTarget(names: seq<KeyName>, f: int, j: int, k: KeyName)
    requires MountTable(names) && -1 <= f <= j < |names| && k.ns != Cascading
    requires NextAfter(names, j, k) && LeftBehind(names, f, j, k)
    requires !(DefaultIndex(names) >= 0 && k.ns == Default)
    requires j < 0 || (f >= 0 && BelowOrSame(names[f], k))
    requires f < 0 ==> DefaultIndex(names) >= 0
    ensures Target(names, k) == if f < 0 then DefaultIndex(names) else f
  {
    if f < 0 {
      NobodyOwns(names, j, k);
    } else {
      FrameOwns(names, f, j, k);
    }
  }

  /** What stops a frame: the key at the cursor is not below its mountpoint nor below any opened since. */
  predicate Stopped(names: seq<KeyName>, f: int, j: int, k: KeyName) {
    (k.ns == Cascading ==> DefaultIndex(names) < 0 && !Borrowed(names, k)) &&
    !(DefaultIndex(names) >= 0 && k.ns == Default) && NextAfter(names, j, k) &&
    (f >= 0 && f < |names| ==> !Below(names[f], k)) && LeftBehind(names, f, j, k) &&
    (f < 0 ==> j >= 0)
  }

  /** The mountpoint of a frame: during bootstrap there is no default:/ and the first frame is the first mountpoint. */
  function FrameOf(names: seq<KeyName>, curBackend: int): int {
    if curBackend < 0 && DefaultIndex(names) < 0 then 0 else curBackend
  }

  /** backendsDivideInternal. `curBackend` is shared by all frames; a frame with `curBackend` -1 stands
      for default:/ and has no mountpoint of its own. */
  method DivideInternal(bs: seq<Backend>, curBackend: int, ks: KeySet, cur: nat) returns (last: int, end: nat)
    requires Mounted(bs)
    requires -1 <= curBackend && (bs == [] || curBackend < |bs|) && (bs == [] ==> curBackend <= 0)
    requires cur <= |ks|
    requires curBackend >= 0 ==> cur < |ks| && curBackend < |bs| && Le(bs[curBackend].name, ks[cur].name)
    requires DividedUpTo(bs, ks, cur)
    modifies bs`keys
    ensures cur <= end <= |ks|
    ensures DividedUpTo(bs, ks, end)
    ensures InFrame(Names(bs), FrameOf(Names(bs), curBackend), last)
    ensures end < |ks| ==> Stopped(Names(bs), FrameOf(Names(bs), curBackend), last, ks[end].name)
    decreases |bs| - curBackend + |ks| - cur, 2
  {
    var first := curBackend;
    if IndexOf(Names(bs), DefaultRoot) < 0 && first < 0 {
      first := 0;
    }
    last, end := RunFrame(bs, first, ks, cur);
  }

  /** The loop of one frame. */
  method RunFrame(bs: seq<Backend>, f: int, ks: KeySet, cur: nat) returns (last: int, end: nat)
    requires Mounted(bs) && InFrame(Names(bs), f, f) && (cur < |ks| ==> Entered(Names(bs), f, ks[cur].name))
    requires cur <= |ks| && DividedUpTo(bs, ks, cur)
    modifies bs`keys
    ensures cur <= end <= |ks| && DividedUpTo(bs, ks, end) && InFrame(Names(bs), f, last)
    ensures end < |ks| ==> Stopped(Names(bs), f, last, ks[end].name)
    decreases |bs| - f + |ks| - cur, 1
  {
    hide DividedUpTo, LeftBehind, Stopped, MountTable, Lt, Entered;
    last, end := f, cur;
    if cur < |ks| { NothingOpened(Names(bs), f, ks[cur].name); }
    while end < |ks|
      invariant cur <= end <= |ks|
      invariant InFrame(Names(bs), f, last)
      invariant DividedUpTo(bs, ks, end)
      invariant end < |ks| ==> LeftBehind(Names(bs), f, last, ks[end].name)
      decreases |bs| - last + |ks| - end
    {
      StillEntered(Names(bs), f, ks, cur, end);
      DecideCorrect(Names(bs), f, last, ks[end].name);
      match Decide(Names(bs), f, last, ks[end].name)
      case Keep(b) =>
        PlaceInFrame(bs, ks, end, b, f, last);
        end := end + 1;
      case Open =>
        last, end := OpenNext(bs, f, last, ks, end);
      case Leave =>
        break;
    }
  }

  lemma NothingOpened(names: seq<KeyName>, f: int, k: KeyName)
    ensures LeftBehind(names, f, f, k)
  {
  }

  predicate InFrame(names: seq<KeyName>, f: int, j: int) {
    -1 <= f <= j && (names == [] || j < |names|) && (names == [] ==> j == 0) &&
    (f < 0 ==> DefaultIndex(names) >= 0)
  }

  datatype Action = Keep(backend: nat) | Open | Leave

  /** The branches of one round in frame `f`: keep the key, open the next mountpoint, or leave the frame.
      After the last mountpoint default:/ stands in for the next one, if it is mounted. */
  function Decide(names: seq<KeyName>, f: int, j: int, k: KeyName): Action
    requires InFrame(names, f, j)
  {
    var default := IndexOf(names, DefaultRoot);
    if default >= 0 && BelowOrSame(DefaultRoot, k) then Keep(default)
    else if (if j >= |names| - 1 then default >= 0 && !Lt(k, DefaultRoot) else !Lt(k, names[j + 1])) then Open
    else if j < 0 || (f >= 0 && f < |names| && BelowOrSame(names[f], k)) then Keep(if f < 0 then default else f)
    else Leave
  }

  /** The default namespace is the last one. */
  lemma NothingAfterDefault(k: KeyName)
    ensures k.ns != Default ==> Lt(k, DefaultRoot)
  {
    LtTotal(k, DefaultRoot);
    if Lt(DefaultRoot, k) { LtNamespace(DefaultRoot, k); }
  }

  /** The branch that is taken is right; in particular there is always a mountpoint left to open. */
  lemma DecideCorrect(names: seq<KeyName>, f: int, j: int, k: KeyName)
    requires MountTable(names) && InFrame(names, f, j) && LeftBehind(names, f, j, k) && Entered(names, f, k)
    ensures match Decide(names, f, j, k)
            case Keep(b) => Target(names, k) == b < |names|
            case Open => j < |names| - 1 && !Lt(k, names[j + 1])
            case Leave => Stopped(names, f, j, k)
  {
    hide Lt;
    if j >= |names| - 1 { NothingAfterDefault(k); }
    if k.ns == Cascading {
      CascadingFrame(names, f, j, k);
      CascadingTarget(names, k);
      if j + 1 < |names| { CascadingFirst(k, names[j + 1]); }
    } else if Decide(names, f, j, k).Keep? && !(DefaultIndex(names) >= 0 && BelowOrSame(DefaultRoot, k)) {
      FrameTarget(names, f, j, k);
    }
  }

  /** The key is not before the mountpoint of its frame, unless that is the first frame. */
  predicate Entered(names: seq<KeyName>, f: int, k: KeyName) {
    f < 0 || f == FrameOf(names, -1) || (f < |names| && Le(names[f], k))
  }

  lemma StillEntered(names: seq<KeyName>, f: int, ks: KeySet, i: nat, j: nat)
    requires i <= j < |ks| && Entered(names, f, ks[i].name)
    ensures Entered(names, f, ks[j].name)
  {
    hide Lt;
    if i < j && 0 <= f < |names| && Lt(names[f], ks[i].name) { LtTransitive(names[f], ks[i].name, ks[j].name); }
  }

  /** Cascading keys come first: no mountpoint is open when they are divided. */
  lemma CascadingFrame(names: seq<KeyName>, f: int, j: int, k: KeyName)
    requires MountTable(names) && InFrame(names, f, j) && LeftBehind(names, f, j, k) && Entered(names, f, k) && k.ns == Cascading
    ensures f == FrameOf(names, -1) && (names != [] ==> j == f)
  {
    hide Lt;
    if f < |names| && f >= 0 { CascadingFirst(k, names[f]); }
    if names != [] && f < j { CascadingFirst(k, names[j]); }
  }

  /** Open the next mountpoint, and go on in frame `f` when it is done. */
  method OpenNext(bs: seq<Backend>, ghost f: int, curBackend: int, ks: KeySet, cur: nat) returns (last: int, end: nat)
    requires Mounted(bs)
    requires -1 <= f <= curBackend < |bs| - 1 && cur < |ks|
    requires !Lt(ks[cur].name, bs[curBackend + 1].name)
    requires LeftBehind(Names(bs), f, curBackend, ks[cur].name)
    requires DividedUpTo(bs, ks, cur)
    modifies bs`keys
    ensures cur <= end <= |ks| && curBackend < last < |bs|
    ensures DividedUpTo(bs, ks, end)
    ensures end < |ks| ==> LeftBehind(Names(bs), f, last, ks[end].name)
    decreases |bs| - curBackend + |ks| - cur, 0
  {
    LtTotal(ks[cur].name, bs[curBackend + 1].name);
    assert Le(Names(bs)[curBackend + 1], ks[cur].name);
    last, end := DivideInternal(bs, curBackend + 1, ks, cur);
    if end < |ks| {
      Resume(Names(bs), f, curBackend, last, ks, cur, end);
    }
  }

  /** Back in the outer frame, the inner mountpoint and all opened inside it are behind. */
  lemma Resume(names: seq<KeyName>, f: int, was: int, j: int, ks: KeySet, from: nat, end: nat)
    requires -1 <= f <= was < j < |names| && from <= end < |ks|
    requires LeftBehind(names, f, was, ks[from].name)
    requires Le(names[was + 1], ks[from].name)
    requires Stopped(names, FrameOf(names, was + 1), j, ks[end].name)
    ensures LeftBehind(names, f, j, ks[end].name)
  {
    hide Lt;
    if from < end {
      StaysBehind(names, f, was, ks[from].name, ks[end].name);
      if names[was + 1] != ks[from].name { LtTransitive(names[was + 1], ks[from].name, ks[end].name); }
    }
  }

  /** The key at which the outermost frame stops has no backend. */
  lemma OuterStop(names: seq<KeyName>, j: int, k: KeyName)
    requires MountTable(names) && InFrame(names, FrameOf(names, -1), j)
    requires Stopped(names, FrameOf(names, -1), j, k)
    ensures Target(names, k) == -1
  {
    if names == [] {
      OwnerOfCorrect(names, k);
    } else {
      NobodyOwns(names, j, k);
      if DefaultIndex(names) >= 0 { LtTotal(k, names[0]); }
    }
  }

  /** backendsDivide: true exactly when every key has a backend, and then each backend holds its keys;
      otherwise the keys before the first one without a backend are divided. */
  method Divide(bs: seq<Backend>, ks: KeySet) returns (ok: bool)
    requires Mounted(bs)
    modifies bs`keys
    ensures ok <==> AllPlaced(Names(bs), ks, |ks|)
    ensures ok ==> Divided(bs, ks, |ks|)
    ensures !ok ==> exists i | 0 <= i < |ks| :: Target(Names(bs), ks[i].name) < 0 && DividedUpTo(bs, ks, i)
  {
    for i := 0 to |bs|
      invariant forall b | 0 <= b < i :: bs[b].keys == []
    {
      bs[i].keys := [];
    }
    var last, end := DivideInternal(bs, -1, ks, 0);
    if end < |ks| { OuterStop(Names(bs), last, ks[end].name); }
    ok := end == |ks|;
  }

  // ----- backendsMerge

  /** Append the keys of the first `i` backends, leaving out the default namespace. */
  function Merged(names: seq<KeyName>, sets: seq<KeySet>, ks: KeySet, i: nat): KeySet
    requires i <= |names| == |sets|
  {
    if i == 0 then ks
    else
      var m := Merged(names, sets, ks, i - 1);
      if names[i - 1].ns != Default then Append(m, sets[i - 1]) else m
  }

  function KeysOf(bs: seq<Backend>): (sets: seq<KeySet>)
    reads bs
    ensures |sets| == |bs| && forall i | 0 <= i < |bs| :: sets[i] == bs[i].keys
  {
    seq(|bs|, i requires 0 <= i < |bs| reads bs => bs[i].keys)
  }

  method Merge(bs: seq<Backend>, ks: KeySet) returns (r: KeySet)
    requires Mounted(bs)
    modifies bs`getSize
    ensures r == Merged(Names(bs), KeysOf(bs), ks, |bs|)
    ensures forall b | 0 <= b < |bs| ::
      bs[b].getSize == if bs[b].name.ns != Default then |bs[b].keys| else old(bs[b].getSize)
  {
    hide Lt;
    r := ks;
    ghost var sets := KeysOf(bs);
    for i := 0 to |bs|
      invariant r == Merged(Names(bs), sets, ks, i)
      invariant forall b | 0 <= b < |bs| ::
        bs[b].getSize == if b < i && bs[b].name.ns != Default then |bs[b].keys| else old(bs[b].getSize)
    {
      if bs[i].name.ns != Default {
        forall b | 0 <= b < |bs| && bs[b] == bs[i] ensures b == i { MountedDistinct(bs, b, i); }
        bs[i].getSize := |bs[i].keys|;
        r := Append(r, bs[i].keys);
      }
    }
    assert KeysOf(bs) == sets;
  }

  /** Keys whose backend is not in the default namespace. */
  predicate Persistent(names: seq<KeyName>, n: KeyName) {
    var t := Target(names, n);
    0 <= t < |names| && names[t].ns != Default
  }

  lemma PortionGet(names: seq<KeyName>, ks: KeySet, b: int, set_: KeySet, n: KeyName)
    requires set_ == Portion(names, ks, |ks|, b)
    ensures Get(set_, n) == if Target(names, n) == b then Get(ks, n) else None
  {
    assert ks[..|ks|] == ks;
    GetIn(set_, n);
    GetIn(ks, n);
    if Get(set_, n).Some? {
      PortionMembers(names, ks, |ks|, b, Get(set_, n).value);
      GetMember(ks, Get(set_, n).value);
    } else if Get(ks, n).Some? {
      PortionMembers(names, ks, |ks|, b, Get(ks, n).value);
    }
  }

  lemma {:induction false} MergedGet(names: seq<KeyName>, sets: seq<KeySet>, ks: KeySet, i: nat, n: KeyName)
    requires i <= |names| == |sets|
    requires forall b | 0 <= b < |names| :: sets[b] == Portion(names, ks, |ks|, b)
    ensures Get(Merged(names, sets, [], i), n) == if Persistent(names, n) && Target(names, n) < i then Get(ks, n) else None
  {
    hide Lt, Target, Portion;
    if i > 0 {
      MergedGet(names, sets, ks, i - 1, n);
      PortionGet(names, ks, i - 1, sets[i - 1], n);
    }
  }

  /** Merging what was divided rebuilds the divided KeySet without the keys of default:/. */
  lemma MergeRebuilds(names: seq<KeyName>, sets: seq<KeySet>, ks: KeySet)
    requires |names| == |sets|
    requires forall b | 0 <= b < |names| :: sets[b] == Portion(names, ks, |ks|, b)
    ensures Merged(names, sets, [], |names|) == Filter(ks, (n: KeyName) => Persistent(names, n))
  {
    var r, f := Merged(names, sets, [], |names|), Filter(ks, (n: KeyName) => Persistent(names, n));
    forall n ensures Get(r, n) == Get(f, n) {
      MergedGet(names, sets, ks, |names|, n);
      FilterGet(ks, (n: KeyName) => Persistent(names, n), n);
    }
    Extensional(r, f);
  }

  /** Every key of every set is where the division would put it. */
  predicate InPlace(names: seq<KeyName>, sets: seq<KeySet>) {
    |names| == |sets| && forall b, k | 0 <= b < |sets| && k in sets[b] :: Target(names, k.name) == b
  }

  lemma {:induction false} MergedOf(names: seq<KeyName>, sets: seq<KeySet>, i: nat, n: KeyName)
    requires i <= |names| && InPlace(names, sets)
    ensures Get(Merged(names, sets, [], i), n) ==
            if Persistent(names, n) && Target(names, n) < i then Get(sets[Target(names, n)], n) else None
  {
    hide Target, Lt, InPlace;
    if i > 0 {
      MergedOf(names, sets, i - 1, n);
      OnlyInPlace(names, sets, i - 1, n);
    }
  }

  lemma OnlyInPlace(names: seq<KeyName>, sets: seq<KeySet>, b: nat, n: KeyName)
    requires InPlace(names, sets) && b < |names|
    ensures Get(sets[b], n).Some? ==> Target(names, n) == b
  {
    hide Target;
    GetIn(sets[b], n);
  }

  /** Dividing what was merged gives every backend outside the default namespace its keys back, as long
      as they were in place. */
  lemma DivideRebuilds(names: seq<KeyName>, sets: seq<KeySet>, b: nat)
    requires InPlace(names, sets) && b < |names|
    ensures var m := Merged(names, sets, [], |names|);
            AllPlaced(names, m, |m|) && Portion(names, m, |m|, b) == if names[b].ns != Default then sets[b] else []
  {
    hide Merged, Portion, Target;
    var m := Merged(names, sets, [], |names|);
    forall i | 0 <= i < |m| ensures Target(names, m[i].name) >= 0 {
      GetAt(m, i);
      MergedOf(names, sets, |names|, m[i].name);
    }
    PortionSorted(names, m, |m|, b);
    var p: KeySet, q: KeySet := Portion(names, m, |m|, b), if names[b].ns != Default then sets[b] else [];
    forall n ensures Get(p, n) == Get(q, n) {
      PortionGet(names, m, b, p, n);
      MergedOf(names, sets, |names|, n);
      OnlyInPlace(names, sets, b, n);
    }
    Extensional(p, q);
  }

  // ----- backendsForParentKey

  /** The namespaces in which a cascading parent is looked up. */
  function ParentSpaces(parent: KeyName): seq<Namespace> {
    if parent.ns == Cascading then [Spec, Proc, Dir, User, System, Default] else [parent.ns]
  }

  /** What gets selected: everything under the parent, the route of the parent in each namespace, and default:/. */
  predicate Chosen(names: seq<KeyName>, parent: KeyName, spaces: seq<Namespace>, n: KeyName) {
    n in names &&
    (UnderParent(parent, n) || n == DefaultRoot ||
     exists ns | ns in spaces :: RoutedTo(names, InNamespace(parent, ns), n))
  }

  predicate RoutedTo(names: seq<KeyName>, k: KeyName, n: KeyName) {
    var r := Route(names, k);
    0 <= r < |names| && names[r] == n
  }

  /** The backends of a table whose names are in a set, in table order. */
  function Restrict(bs: seq<Backend>, chosen: set<KeyName>): seq<Backend> {
    if bs == [] then []
    else
      var r := Restrict(bs[..|bs| - 1], chosen);
      if bs[|bs| - 1].name in chosen then r + [bs[|bs| - 1]] else r
  }

  lemma {:induction false} RestrictMember(bs: seq<Backend>, chosen: set<KeyName>, b: Backend)
    ensures b in Restrict(bs, chosen) <==> b in bs && b.name in chosen
  {
    if bs != [] {
      RestrictMember(bs[..|bs| - 1], chosen, b);
      assert bs == bs[..|bs| - 1] + [bs[|bs| - 1]];
    }
  }

  lemma {:induction false} RestrictMounted(bs: seq<Backend>, chosen: set<KeyName>)
    requires Mounted(bs)
    ensures Mounted(Restrict(bs, chosen))
  {
    if bs != [] {
      var last := |bs| - 1;
      var r := Restrict(bs[..last], chosen);
      assert Mounted(bs[..last]) by {
        forall i, j | 0 <= i < j < last ensures Lt(Names(bs[..last])[i], Names(bs[..last])[j]) {
          assert Lt(Names(bs)[i], Names(bs)[j]);
        }
      }
      RestrictMounted(bs[..last], chosen);
      forall i | 0 <= i < |r| ensures Lt(r[i].name, bs[last].name) {
        RestrictMember(bs[..last], chosen, r[i]);
        var j :| 0 <= j < last && bs[j] == r[i];
        assert Lt(Names(bs)[j], Names(bs)[last]);
      }
      assert Names(bs)[last] == bs[last].name;
    }
  }

  predicate IsSelection(bs: seq<Backend>, parent: KeyName, selected: seq<Backend>) {
    (forall b | b in selected :: b in bs) &&
    forall b | b in bs :: b in selected <==> Chosen(Names(bs), parent, ParentSpaces(parent), b.name)
  }

  /** The names below the parent, then the route of the parent in each of its namespaces, then default:/. */
  method SelectNames(names: seq<KeyName>, parent: KeyName) returns (chosen: set<KeyName>)
    ensures forall n | n in names :: n in chosen <==> Chosen(names, parent, ParentSpaces(parent), n)
  {
    chosen := set n | n in names && UnderParent(parent, n);
    var spaces := ParentSpaces(parent);
    for i := 0 to |spaces|
      invariant forall n | n in names :: n in chosen <==>
        UnderParent(parent, n) || exists ns | ns in spaces[..i] :: RoutedTo(names, InNamespace(parent, ns), n)
    {
      var found := FindParent(names, InNamespace(parent, spaces[i]));
      assert spaces[..i + 1] == spaces[..i] + [spaces[i]];
      ghost var before := chosen;
      if found >= 0 {
        chosen := chosen + {names[found]};
      }
      forall n | n in names ensures n in chosen <==> n in before || RoutedTo(names, InNamespace(parent, spaces[i]), n) {}
    }
    assert spaces[..|spaces|] == spaces;
    if IndexOf(names, DefaultRoot) >= 0 {
      chosen := chosen + {DefaultRoot};
    }
    assert DefaultRoot in names ==> IndexOf(names, DefaultRoot) >= 0;
  }

  /** The selection for a parent key. */
  method ForParentKey(bs: seq<Backend>, parent: KeyName) returns (selected: seq<Backend>)
    requires Mounted(bs)
    ensures Mounted(selected)
    ensures IsSelection(bs, parent, selected) && NamesSelected(Names(bs), parent, Names(selected))
  {
    var chosen := SelectNames(Names(bs), parent);
    selected := Restrict(bs, chosen);
    RestrictMounted(bs, chosen);
    forall b | b in selected ensures b in bs { RestrictMember(bs, chosen, b); }
    forall b | b in bs ensures b in selected <==> Chosen(Names(bs), parent, ParentSpaces(parent), b.name) {
      RestrictMember(bs, chosen, b);
      var i :| 0 <= i < |bs| && bs[i] == b;
      assert Names(bs)[i] in Names(bs);
    }
  }

  /** The names of a selection. */
  predicate NamesSelected(names: seq<KeyName>, parent: KeyName, part: seq<KeyName>) {
    (forall n | n in part :: n in names) &&
    forall n | n in names :: n in part <==> Chosen(names, parent, ParentSpaces(parent), n)
  }

  /** The parent is looked up in its own namespace; a cascading one in every namespace but that of metadata. */
  lemma LookedUpIn(parent: KeyName, ns: Namespace)
    ensures ns in ParentSpaces(parent) <==>
      if parent.ns == Cascading then ns == Spec || ns == Proc || ns == Dir || ns == User || ns == System || ns == Default else ns == parent.ns
  {
  }

  lemma RoutedOwner(names: seq<KeyName>, q: KeyName, n: KeyName)
    requires MountTable(names) && q.ns != Cascading
    ensures RoutedTo(names, q, n) && n != RawName(Default, []) ==> exists i | 0 <= i < |names| :: names[i] == n && IsOwner(names, q, i)
    ensures forall i | 0 <= i < |names| && IsOwner(names, q, i) :: RoutedTo(names, q, names[i])
  {
    hide MountTable;
    RouteIsOwner(names, q);
    OwnerOfCorrect(names, q);
    forall i | 0 <= i < |names| && IsOwner(names, q, i) ensures OwnerOf(names, q) == i { OwnerUnique(names, q, i, OwnerOf(names, q)); }
  }

  /** What is selected: the mountpoints at or below the parent, default:/, and the owner of the parent - for a cascading
      parent its owner in spec:/, proc:/, dir:/, user:/, system:/ and default:/. */
  lemma SelectionExact(names: seq<KeyName>, parent: KeyName, part: seq<KeyName>, n: KeyName)
    requires MountTable(names) && NamesSelected(names, parent, part)
    ensures n in part <==>
      (n in names &&
       ((parent.parts <= n.parts && (parent.ns == Cascading || parent.ns == n.ns)) || n == RawName(Default, []) ||
        exists i, ns: Namespace | 0 <= i < |names| && names[i] == n && IsOwner(names, RawName(ns, parent.parts), i) ::
          if parent.ns == Cascading then ns == Spec || ns == Proc || ns == Dir || ns == User || ns == System || ns == Default
          else ns == parent.ns))
  {
    hide MountTable, RoutedTo, IsOwner;
    forall ns ensures ns in ParentSpaces(parent) ==> ns != Cascading { LookedUpIn(parent, ns); }
    if n in part && !UnderParent(parent, n) && n != RawName(Default, []) {
      var ns :| ns in ParentSpaces(parent) && RoutedTo(names, InNamespace(parent, ns), n);
      RoutedOwner(names, RawName(ns, parent.parts), n);
      var i :| 0 <= i < |names| && names[i] == n && IsOwner(names, RawName(ns, parent.parts), i);
      LookedUpIn(parent, ns);
    }
    forall i, ns: Namespace | 0 <= i < |names| && names[i] == n && IsOwner(names, RawName(ns, parent.parts), i) && ns in ParentSpaces(parent)
      ensures RoutedTo(names, InNamespace(parent, ns), n)
    {
      RoutedOwner(names, RawName(ns, parent.parts), n);
    }
    forall ns: Namespace { LookedUpIn(parent, ns); }
  }

  /** Selection is closed under ownership: the owner of every key under the parent is selected and is
      still its owner there; a key without owner has none there either. */
  lemma SelectionKeepsOwners(names: seq<KeyName>, parent: KeyName, part: seq<KeyName>, k: KeyName)
    requires MountTable(names) && MountTable(part)
    requires NamesSelected(names, parent, part)
    requires UnderParent(parent, k) && k.ns != Cascading && (k.ns != Meta || parent.ns == Meta)
    ensures var o, p := OwnerOf(names, k), OwnerOf(part, k);
            if o >= 0 then o < |names| && 0 <= p < |part| && part[p] == names[o] else p < 0
  {
    var o := OwnerOf(names, k);
    LookedUpIn(parent, k.ns);
    OwnerOfCorrect(names, k);
    OwnerOfCorrect(part, k);
    if o >= 0 {
      OwnerAboveOrBelowParent(names, parent, k);
      var q := InNamespace(parent, k.ns);
      OwnerOfCorrect(names, q);
      RouteIsOwner(names, q);
      assert UnderParent(parent, names[o]) || RoutedTo(names, q, names[o]);
      assert names[o] in names && names[o] in part;
      var p :| 0 <= p < |part| && part[p] == names[o];
      OwnerInSubtable(names, part, k, o, p);
    } else {
      forall j | 0 <= j < |part| ensures !Below(part[j], k) {
        assert part[j] in names;
        var i :| 0 <= i < |names| && names[i] == part[j];
        assert !Below(names[i], k);
      }
    }
  }
}
