/** kdbSet: collect and divide the keys, drop what needs no write, then the phased commit with rollback. */
module KdbSet {
  import opened Wrappers
  import opened KeyNames
  import opened KeySets
  import opened Cutting
  import opened Changes
  import opened Mountpoints
  import opened Backends
  import opened ErrorRecord
  import opened Reports
  import opened ParentKeys
  import opened Protocol
  import opened Answers
  import opened RunReports
  import opened Outcomes
  import opened Phases
  import opened Pruning

  /** The handle: mounted backends, what kdbGet returned, and which hooks are installed. The hooks of the
      record plugin are installed all or none. */
  class Kdb {
    var backends: seq<Backend>
    var allKeys: Option<PlainKeySet>
    const hasSpec: bool
    const hasRecord: bool
    const notifications: nat

    constructor (backends: seq<Backend>, allKeys: Option<PlainKeySet>, hasSpec: bool, hasRecord: bool, notifications: nat)
      ensures this.backends == backends && this.allKeys == allKeys
      ensures this.hasSpec == hasSpec && this.hasRecord == hasRecord && this.notifications == notifications
    {
      this.backends, this.allKeys := backends, allKeys;
      this.hasSpec, this.hasRecord, this.notifications := hasSpec, hasRecord, notifications;
    }
  }

  /** Between two steps of a run. */
  ghost predicate Ready(bs: seq<Backend>, parent: ParentKey)
    reads bs, parent, parent.record
  {
    Mounted(bs) && AllPlain(bs) && parent.Valid() && !parent.log.blocked && !parent.readOnlyName && !parent.readOnlyValue
  }

  // ----- progress along the forward stages

  /** A forward stage was taken, or failed; the trace so far is what the answers since `from` made it, and the
      record of the parent key is what that trace makes of `first`. */
  ghost predicate Underway(ok: bool, t: seq<Event>, k: nat, setup: Setup, plugins: Plugins, from: nat, first: Log<Report>, parent: ParentKey, facts: Facts)
    reads plugins, parent
  {
    (if ok then Reached(t, k, setup) else Failed(t, setup)) && FactsHold(t, facts) &&
    Progress(t, setup, plugins.answers, from, plugins.next, first, parent.Heard(), parent.show)
  }

  lemma StageTaken(done: seq<Event>, k: nat, u: seq<Event>, ok: bool, setup: Setup, plugins: Plugins, from: nat, mid: nat,
                   first: Log<Report>, before: Log<Report>, parent: ParentKey, facts: Facts)
    requires k < |FORWARD| && Reached(done, k, setup)
    requires Progress(done, setup, plugins.answers, from, mid, first, before, parent.show)
    requires StageTrace(FORWARD[k], u, setup) && ok == StageOk(FORWARD[k], u, setup)
    requires Tied(u, plugins.answers, mid, plugins.next)
    requires parent.Heard() == Replay(before, StageActs(FORWARD[k], u, plugins.answers, mid, parent.show))
    requires FactsHold(done, facts) && RedivisionIs(u, facts.placed)
    requires FORWARD[k] == Run(Resolver) ==> AreGiven(u, facts.opening)
    requires FORWARD[k] == Run(Storage) ==> AreGiven(u, facts.storing)
    ensures Underway(ok, done + u, k + 1, setup, plugins, from, first, parent, facts)
  {
    hide Reached, Failed, StageTrace, StageOk, StageActs, Replay, Progress, Plainly, FactsHold, AreGiven, RedivisionIs;
    Advance(done, k, u, setup);
    FactsStep(done, k, u, setup, facts);
    ProgressStep(done, k, u, setup, plugins.answers, from, mid, plugins.next, first, before, parent.Heard(), parent.show);
  }

  // ----- the stages

  /** A phase as a forward stage. */
  lemma PhaseTaken(done: seq<Event>, k: nat, u: seq<Event>, ok: bool, bs: seq<Backend>, phase: Phase, setup: Setup, plugins: Plugins,
                   from: nat, mid: nat, first: Log<Report>, before: Log<Report>, parent: ParentKey, facts: Facts)
    requires setup.members == Members(bs) && k < |FORWARD| && FORWARD[k] == Run(phase) && Reached(done, k, setup)
    requires Progress(done, setup, plugins.answers, from, mid, first, before, parent.show) && FactsHold(done, facts)
    requires PhaseRan(u, bs, phase, FunctionOf(phase), false, plugins, mid, before, parent.Heard(), parent.show) && ok == AllSucceeded(u)
    requires (phase == Resolver ==> AreGiven(u, facts.opening)) && (phase == Storage ==> AreGiven(u, facts.storing))
    ensures Underway(ok, done + u, k + 1, setup, plugins, from, first, parent, facts)
  {
    hide Reached, Failed, Progress, FactsHold, Attempted, AllSucceeded, IsPhaseRun, Replay, PhaseActs, Plainly, Tied, AreGiven, RedivisionIs;
    AttemptedIsRun(u, bs, phase);
    PhaseHasNoDivision(u, phase, setup.members, facts.placed);
    PhaseStage(u, phase, setup, plugins.answers, mid, parent.show);
    StageTaken(done, k, u, ok, setup, plugins, from, mid, first, before, parent, facts);
  }

  lemma PhaseLength(t: seq<Event>, bs: seq<Backend>, phase: Phase, fn: SetFunction, blocked: bool, plugins: Plugins, from: nat,
                    first: Log<Report>, now: Log<Report>, show: KeyName -> string)
    requires PhaseRan(t, bs, phase, fn, blocked, plugins, from, first, now, show)
    ensures |t| == |bs|
  {
    hide Replay, PhaseActs, Tied;
  }

  method ForwardPhase(bs: seq<Backend>, parent: ParentKey, plugins: Plugins, phase: Phase, fn: SetFunction,
                      ghost setup: Setup, ghost done: seq<Event>, ghost k: nat, ghost from: nat, ghost first: Log<Report>, ghost facts: Facts)
    returns (ok: bool, ghost t: seq<Event>)
    requires Ready(bs, parent) && setup.members == Members(bs) && k < |FORWARD|
    requires FORWARD[k] == Run(phase) && fn == FunctionOf(phase) && phase != Resolver
    requires phase == Storage ==> KeysOf(bs) == facts.storing
    requires Underway(true, done, k, setup, plugins, from, first, parent, facts)
    modifies bs`keys, plugins`next, parent`name, parent`readOnlyName, parent`readOnlyValue, parent`log, parent.record
    ensures Ready(bs, parent) && parent.log.imposed == old(parent.log).imposed
    ensures Underway(ok, t, k + 1, setup, plugins, from, first, parent, facts)
    ensures ok ==> KeysAnswered(bs, |bs|, plugins, old(plugins.next))
    ensures |t| == |done| + |bs|
  {
    hide Reached, Failed, AllPlain, ParentKey.Valid, ParentKey.Heard, Progress, KeysAnswered, MountTable, ParentKey.Error, FactsHold, AreGiven, PhaseRan,
         AllSucceeded;
    ghost var mid, before := plugins.next, parent.Heard();
    ghost var u;
    ok, u := RunSetPhase(bs, parent, plugins, phase, false, fn);
    PhaseLength(u, bs, phase, fn, false, plugins, mid, before, parent.Heard(), parent.show);
    PhaseTaken(done, k, u, ok, bs, phase, setup, plugins, from, mid, first, before, parent, facts);
    t := done + u;
  }

  lemma PhaseStage(u: seq<Event>, phase: Phase, setup: Setup, answers: Script, from: nat, show: KeyName -> string)
    requires IsPhaseRun(u, phase, setup.members)
    ensures StageTrace(Run(phase), u, setup) && (StageOk(Run(phase), u, setup) <==> AllSucceeded(u))
    ensures StageActs(Run(phase), u, answers, from, show) == PhaseActs(u, phase, false, answers, from, show)
  {
  }

  method Resolve(bs: seq<Backend>, parent: ParentKey, plugins: Plugins, ghost setup: Setup, ghost facts: Facts)
    returns (ok: bool, ghost t: seq<Event>)
    requires Ready(bs, parent) && setup.members == Members(bs) && KeysOf(bs) == facts.opening
    modifies bs`keys, bs`storage, plugins`next, parent`name, parent`readOnlyName, parent`readOnlyValue, parent`log, parent.record
    ensures Ready(bs, parent) && parent.log.imposed == old(parent.log).imposed
    ensures Underway(ok, t, 1, setup, plugins, old(plugins.next), old(parent.Heard()), parent, facts)
    ensures ok ==> StorageAnswered(bs, |bs|, plugins, old(plugins.next))
    ensures |t| == |bs|
  {
    hide Reached, AllPlain, ParentKey.Valid, ParentKey.Heard, Progress, StorageAnswered, MountTable, ParentKey.Error, FactsHold, AreGiven, PhaseRan,
         AllSucceeded, Underway;
    ghost var from, first := plugins.next, parent.Heard();
    Begun(setup);
    ProgressStart(setup, plugins.answers, from, first, parent.show);
    FactsStart(facts);
    ok, t := ResolveBackendsForSet(bs, parent, plugins);
    PhaseLength(t, bs, Resolver, SetFn, false, plugins, from, first, parent.Heard(), parent.show);
    PhaseTaken([], 0, t, ok, bs, Resolver, setup, plugins, from, from, first, first, parent, facts);
    assert [] + t == t;
  }

  /** Merge the data of all backends. */
  method MergeBackends(bs: seq<Backend>, parent: ParentKey) returns (setKs: PlainKeySet)
    requires Ready(bs, parent)
    modifies bs`getSize
    ensures Ready(bs, parent) && setKs == Merged(Names(bs), KeysOf(bs), [], |bs|)
    ensures forall b | b in bs :: b.getSize == if b.name.ns != Default then |b.keys| else old(b.getSize)
  {
    hide ParentKey.Valid, Plain, Merged;
    var merged := Merge(bs, []);
    AllSetsPlain(bs);
    MergedPlain(Names(bs), KeysOf(bs), |bs|);
    setKs := merged;
  }

  lemma AllSetsPlain(bs: seq<Backend>)
    requires AllPlain(bs)
    ensures forall i | 0 <= i < |bs| :: Plain(KeysOf(bs)[i])
  {
  }

  lemma AppendPlain(a: KeySet, b: KeySet)
    requires Plain(a) && Plain(b)
    ensures Plain(Append(a, b))
  {
    var r := Append(a, b);
    forall k | k in r ensures ValidKey(k) {
      GetMember(r, k);
      GetIn(a, k.name);
      GetIn(b, k.name);
      PlainMember(a, k);
      PlainMember(b, k);
    }
  }

  lemma PlainMember(a: KeySet, k: Key)
    requires Plain(a)
    ensures k in a ==> ValidKey(k)
  {
  }

  /** Part of a plain KeySet is plain. */
  lemma SubsetPlain(r: KeySet, ks: KeySet)
    requires Plain(ks) && forall k | k in r :: k in ks
    ensures Plain(r)
  {
  }

  lemma {:induction false} MergedPlain(names: seq<KeyName>, sets: seq<KeySet>, i: nat)
    requires i <= |names| == |sets| && forall j | 0 <= j < |sets| :: Plain(sets[j])
    ensures Plain(Merged(names, sets, [], i))
  {
    hide Plain;
    if i > 0 {
      MergedPlain(names, sets, i - 1);
      AppendPlain(Merged(names, sets, [], i - 1), sets[i - 1]);
    } else {
      NothingPlain();
    }
  }

  lemma NothingPlain()
    ensures Plain([])
  {
  }

  /** What the spec hook leaves of the merged keys. It works on them in place, together with those below spec:/, so
      it can change keys but not which ones are there. */
  function Stripped(hasSpec: bool, merged: PlainKeySet, a: Answer): PlainKeySet {
    if hasSpec && SameNames(a.keys, merged) then a.keys else merged
  }

  /** The spec plugin removes the metadata it copied. */
  method RemoveSpecMeta(hasSpec: bool, setKs: PlainKeySet, parent: ParentKey, plugins: Plugins,
                        ghost setup: Setup, ghost done: seq<Event>, ghost from: nat, ghost first: Log<Report>, ghost facts: Facts)
    returns (ok: bool, setKs': PlainKeySet, ghost t: seq<Event>)
    requires parent.Valid() && setup.spec == hasSpec && Underway(true, done, 2, setup, plugins, from, first, parent, facts)
    modifies plugins`next, parent`log, parent.record`meta
    ensures parent.Valid() && Extends(old(parent.log), parent.log)
    ensures setKs' == Stripped(hasSpec, setKs, plugins.answers(old(plugins.next)))
    ensures Underway(ok, t, 3, setup, plugins, from, first, parent, facts)
    ensures |t| == (|done| + if hasSpec then 1 else 0) && (!hasSpec ==> ok)
  {
    hide Reached, Failed, ParentKey.Valid, Plain, Extends, Replay, Says, Progress, Plainly, Tied, SameNames, ParentKey.Heard;
    ghost var mid, before := plugins.next, parent.Heard();
    ghost var u: seq<Event> := [];
    ok, setKs' := true, setKs;
    ExtendsSelf(parent.log);
    if hasSpec {
      var a := plugins.Ask();
      parent.Receive(a.notes);
      ok := a.code != ERROR;
      if SameNames(a.keys, setKs) {
        setKs' := a.keys;
      }
      u := [SpecRemoved(a.code)];
      OneEvent(SpecRemoved(a.code), plugins.answers, mid, parent.show);
    }
    NoEvent(plugins.answers, mid, before, parent.show);
    assert RedivisionIs(u, facts.placed);
    StageTaken(done, 2, u, ok, setup, plugins, from, mid, first, before, parent, facts);
    t := done + u;
  }

  /** A single event that is answered. */
  lemma OneEvent(e: Event, answers: Script, from: nat, show: KeyName -> string)
    requires AnsweredBy(e, answers(from))
    ensures Tied([e], answers, from, if Asks(e) then from + 1 else from)
    ensures EventsActs([e], answers, from, show) == EventActs(e, answers(from), show)
  {
    TiedOne(e, answers, from);
    EventsActsOne(e, answers, from, show);
  }

  lemma NoEvent(answers: Script, from: nat, l: Log<Report>, show: KeyName -> string)
    ensures Tied([], answers, from, from) && EventsActs([], answers, from, show) == [] && Replay(l, []) == l
  {
    TiedNothing(answers, from);
  }

  /** Split what was merged for the remaining phases. */
  method RedivideKeys(bs: seq<Backend>, setKs: PlainKeySet, parent: ParentKey, plugins: Plugins,
                      ghost setup: Setup, ghost done: seq<Event>, ghost from: nat, ghost first: Log<Report>, ghost facts: Facts)
    returns (ok: bool, ghost t: seq<Event>)
    requires Ready(bs, parent) && Underway(true, done, 3, setup, plugins, from, first, parent, facts)
    requires facts.placed <==> AllPlaced(Names(bs), setKs, |setKs|)
    modifies bs`keys, parent`log, parent.record`meta
    ensures Ready(bs, parent) && Extends(old(parent.log), parent.log)
    ensures ok <==> AllPlaced(Names(bs), setKs, |setKs|)
    ensures ok ==> Divided(bs, setKs, |setKs|)
    ensures !ok ==> !parent.Error().Clear?
    ensures Underway(ok, t, 4, setup, plugins, from, first, parent, facts) && |t| == |done| + 1
  {
    hide Reached, Failed, ParentKey.Valid, NotDivided, AllPlaced, Divided, Replay, Progress, Plainly, Tied, AllPlain, MountTable;
    ghost var mid, before := plugins.next, parent.Heard();
    ok := DividePlain(bs, setKs);
    ghost var u := [Redivided(ok)];
    if !ok {
      parent.SetError(NotDivided());
      ReplayOne(before, Say(AsError(NotDivided())));
    }
    OneEvent(Redivided(ok), plugins.answers, mid, parent.show);
    NoEvent(plugins.answers, mid, before, parent.show);
    StageTaken(done, 3, u, ok, setup, plugins, from, mid, first, before, parent, facts);
    t := done + u;
  }

  /** Dividing plain keys leaves plain keys, even where it stops. */
  method DividePlain(bs: seq<Backend>, ks: PlainKeySet) returns (ok: bool)
    requires Mounted(bs)
    modifies bs`keys
    ensures AllPlain(bs)
    ensures ok <==> AllPlaced(Names(bs), ks, |ks|)
    ensures ok ==> Divided(bs, ks, |ks|)
  {
    hide Plain;
    ok := Divide(bs, ks);
    ghost var cur: nat := |ks|;
    if !ok {
      ghost var i :| 0 <= i < |ks| && Target(Names(bs), ks[i].name) < 0 && DividedUpTo(bs, ks, i);
      cur := i;
    }
    assert Divided(bs, ks, cur);
    forall b | b in bs ensures Plain(b.keys) {
      var i :| 0 <= i < |bs| && bs[i] == b;
      PortionPlain(Names(bs), ks, cur, i, b.keys);
    }
  }

  lemma PortionPlain(names: seq<KeyName>, ks: KeySet, hi: nat, b: int, r: KeySet)
    requires Plain(ks) && hi <= |ks| && r == Portion(names, ks, hi, b)
    ensures Plain(r)
  {
    hide Plain;
    forall k | k in r ensures k in ks {
      PortionMembers(names, ks, hi, b, k);
    }
    SubsetPlain(r, ks);
  }

  /** Take the record lock with the original parent key; when that fails its record is copied over. */
  method LockRecord(hasRecord: bool, parent: ParentKey, initial: ParentKey, plugins: Plugins,
                    ghost setup: Setup, ghost done: seq<Event>, ghost from: nat, ghost first: Log<Report>, ghost facts: Facts)
    returns (ok: bool, ghost t: seq<Event>)
    requires parent != initial && parent.record != initial.record
    requires parent.Valid() && initial.Valid() && !parent.log.blocked && initial.log == Fresh()
    requires setup.record == hasRecord && Underway(true, done, 4, setup, plugins, from, first, parent, facts)
    modifies plugins`next, parent`log, parent.record`meta, initial`log, initial.record`meta
    ensures parent.Valid() && initial.Valid() && !parent.log.blocked && !initial.log.blocked
    ensures parent.log.imposed ==
      if !ok && initial.Error().Stored? then Some(initial.Error().entry) else old(parent.log).imposed
    ensures ok ==> parent.log == old(parent.log)
    ensures Underway(ok, t, 5, setup, plugins, from, first, parent, facts) && |t| >= |done|
  {
    hide Reached, Failed, ParentKey.Valid, SlotOrder, Replay, Progress, Tied, Heed, FactsHold;
    ok := true;
    ghost var mid, before := plugins.next, parent.Heard();
    ghost var u: seq<Event> := [];
    if hasRecord {
      var a := plugins.Ask();
      initial.Receive(a.notes);
      ok := a.code != ERROR;
      u := [Locked(a.code)];
      OneEvent(Locked(a.code), plugins.answers, mid, parent.show);
      if !ok {
        LockHeard(initial, a.notes);
        ghost var log := parent.log;
        parent.CopyFrom(initial);
        CopiedIsImposed(log, initial.log, parent.log, a.notes);
        ReplayOne(before, Impose(a.notes));
      }
    }
    NoEvent(plugins.answers, mid, before, parent.show);
    assert RedivisionIs(u, facts.placed);
    StageTaken(done, 4, u, ok, setup, plugins, from, mid, first, before, parent, facts);
    t := done + u;
  }

  lemma LockHeard(initial: ParentKey, notes: seq<Note>)
    requires initial.Heard() == Replay(Plainly(Fresh()), Says(notes))
    ensures Plainly(initial.log) == Heed(Fresh(), notes, Same())
  {
    hide Replay, Heed, Says;
    ReplaySays(Fresh(), notes);
    assert ReportsOf([]) == [];
  }

  // ----- forward, completion and rollback

  /** The keys that `n` plugins left, from position `from` of the stream on. */
  function LeftKeys(answers: Script, from: nat, n: nat): (sets: seq<KeySet>)
    ensures |sets| == n && forall i | 0 <= i < n :: sets[i] == answers(from + i).keys
  {
    if n == 0 then [] else LeftKeys(answers, from, n - 1) + [answers(from + n - 1).keys]
  }

  lemma LeftKeysPlain(names: seq<KeyName>, answers: Script, from: nat)
    ensures Plain(Merged(names, LeftKeys(answers, from, |names|), [], |names|))
  {
    hide Plain;
    var sets := LeftKeys(answers, from, |names|);
    forall i | 0 <= i < |sets| ensures Plain(sets[i]) {}
    MergedPlain(names, sets, |names|);
  }

  function MergedAnswers(names: seq<KeyName>, answers: Script, from: nat): PlainKeySet {
    LeftKeysPlain(names, answers, from);
    Merged(names, LeftKeys(answers, from, |names|), [], |names|)
  }

  /** The keys that are divided again: what the plugins left in the pre-storage phase, merged, and stripped by the spec
      hook. The resolver phase starts at `from`, so the pre-storage phase starts `n` answers later. */
  function Regathered(names: seq<KeyName>, hasSpec: bool, answers: Script, from: nat): PlainKeySet {
    var n := |names|;
    Stripped(hasSpec, MergedAnswers(names, answers, from + n), answers(from + 2 * n))
  }

  function Shares(names: seq<KeyName>, ks: KeySet): (sets: seq<KeySet>)
    ensures |sets| == |names| && forall i | 0 <= i < |names| :: sets[i] == Share(names, ks, i)
  {
    seq(|names|, i requires 0 <= i < |names| => Share(names, ks, i))
  }

  /** The facts of a run whose resolver phase starts at `from`. */
  function FactsOf(opening: seq<KeySet>, names: seq<KeyName>, hasSpec: bool, answers: Script, from: nat): Facts {
    var again := Regathered(names, hasSpec, answers, from);
    Facts(opening, Shares(names, again), AllPlaced(names, again, |again|))
  }

  /** The resolver and pre-storage phases: afterwards each backend holds what its plugin left in the second one. */
  method ResolveAndPrepare(bs: seq<Backend>, parent: ParentKey, plugins: Plugins, ghost setup: Setup, ghost facts: Facts)
    returns (ok: bool, ghost t: seq<Event>)
    requires Ready(bs, parent) && setup.members == Members(bs) && KeysOf(bs) == facts.opening
    modifies bs`keys, bs`storage, plugins`next, parent`name, parent`readOnlyName, parent`readOnlyValue, parent`log, parent.record
    ensures Ready(bs, parent) && parent.log.imposed == old(parent.log).imposed
    ensures Underway(ok, t, 2, setup, plugins, old(plugins.next), old(parent.Heard()), parent, facts)
    ensures ok ==> KeysAnswered(bs, |bs|, plugins, old(plugins.next) + |bs|)
    ensures |t| <= 2 * |bs| && (ok ==> |t| == 2 * |bs|)
  {
    hide Underway, ParentKey.Valid, AllPlain, KeysAnswered, MountTable, Plainly;
    ghost var from, first := plugins.next, parent.Heard();
    ok, t := Resolve(bs, parent, plugins, setup, facts);
    if !ok { FailedAnywhere(t, 1, 2, setup, plugins, from, first, parent, facts); return; }
    ok, t := ForwardPhase(bs, parent, plugins, PreStorage, SetFn, setup, t, 1, from, first, facts);
  }

  /** The number of keys that decides in the next run whether keys went missing: once the backends were merged it is
      what the plugin left in the pre-storage phase; default:/ keeps its number. */
  function NewSize(merged: bool, n: KeyName, left: nat, was: nat): nat {
    if merged && n.ns != Default then left else was
  }

  function SizesOf(bs: seq<Backend>): (sizes: seq<nat>)
    reads bs`getSize
    ensures |sizes| == |bs| && forall i | 0 <= i < |bs| :: sizes[i] == bs[i].getSize
  {
    if bs == [] then [] else SizesOf(bs[..|bs| - 1]) + [bs[|bs| - 1].getSize]
  }

  ghost predicate SizesFollow(bs: seq<Backend>, merged: bool, answers: Script, from: nat, was: seq<nat>)
    reads bs`getSize
  {
    |was| == |bs| &&
    forall i | 0 <= i < |bs| :: bs[i].getSize == NewSize(merged, bs[i].name, |answers(from + |bs| + i).keys|, was[i])
  }

  /** Merge what the plugins left in the pre-storage phase. */
  method MergeAnswered(bs: seq<Backend>, parent: ParentKey, plugins: Plugins, ghost from: nat, ghost was: seq<nat>) returns (setKs: PlainKeySet)
    requires Ready(bs, parent) && KeysAnswered(bs, |bs|, plugins, from + |bs|) && SizesFollow(bs, false, plugins.answers, from, was)
    modifies bs`getSize
    ensures Ready(bs, parent) && plugins.next == from + 2 * |bs|
    ensures setKs == MergedAnswers(Names(bs), plugins.answers, from + |bs|)
    ensures SizesFollow(bs, true, plugins.answers, from, was)
  {
    hide ParentKey.Valid, AllPlain, Plain, MountTable, Merged;
    setKs := MergeBackends(bs, parent);
    assert KeysOf(bs) == LeftKeys(plugins.answers, from + |bs|, |bs|);
    forall i | 0 <= i < |bs| ensures bs[i].getSize == NewSize(true, bs[i].name, |plugins.answers(from + |bs| + i).keys|, was[i]) {
      assert bs[i] in bs;
    }
  }

  /** Merge, strip and divide again: each backend goes on with its share. */
  method Regroup(db: Kdb, bs: seq<Backend>, parent: ParentKey, plugins: Plugins,
                 ghost setup: Setup, ghost done: seq<Event>, ghost from: nat, ghost first: Log<Report>, ghost facts: Facts,
                 ghost was: seq<nat>)
    returns (ok: bool, ghost t: seq<Event>)
    requires Ready(bs, parent) && setup == Setup(Members(bs), db.hasSpec, db.hasRecord)
    requires Underway(true, done, 2, setup, plugins, from, first, parent, facts) && KeysAnswered(bs, |bs|, plugins, from + |bs|)
    requires facts == FactsOf(facts.opening, Names(bs), db.hasSpec, plugins.answers, from)
    requires SizesFollow(bs, false, plugins.answers, from, was)
    modifies bs`keys, bs`getSize, plugins`next, parent`log, parent.record`meta
    ensures Ready(bs, parent) && parent.log.imposed == old(parent.log).imposed
    ensures Underway(ok, t, 4, setup, plugins, from, first, parent, facts)
    ensures ok ==> KeysOf(bs) == facts.storing
    ensures |t| > |done| && SizesFollow(bs, true, plugins.answers, from, was)
  {
    hide Reached, Failed, Progress, ParentKey.Valid, ParentKey.Heard, AllPlain, Plain, AllPlaced, Divided, MountTable, MergedAnswers, Stripped,
         ParentKey.Error, FactsHold, KeysAnswered, SizesFollow, Shares;
    var merged := MergeAnswered(bs, parent, plugins, from, was);
    var stripped;
    ok, stripped, t := RemoveSpecMeta(db.hasSpec, merged, parent, plugins, setup, done, from, first, facts);
    assert stripped == Regathered(Names(bs), db.hasSpec, plugins.answers, from);
    if !ok { return; }
    ok, t := RedivideKeys(bs, stripped, parent, plugins, setup, t, from, first, facts);
    if ok { DividedIsShares(bs, stripped); }
  }

  lemma DividedIsShares(bs: seq<Backend>, ks: KeySet)
    requires Divided(bs, ks, |ks|)
    ensures KeysOf(bs) == Shares(Names(bs), ks)
  {
    hide Portion;
    forall i | 0 <= i < |bs| ensures KeysOf(bs)[i] == Shares(Names(bs), ks)[i] {}
  }

  /** From the resolver phase to the second division: each backend goes on with its share of what all of them left. */
  method Gather(db: Kdb, bs: seq<Backend>, parent: ParentKey, plugins: Plugins, ghost setup: Setup, ghost facts: Facts, ghost was: seq<nat>)
    returns (ok: bool, ghost t: seq<Event>)
    requires Ready(bs, parent) && setup == Setup(Members(bs), db.hasSpec, db.hasRecord)
    requires facts == FactsOf(KeysOf(bs), Names(bs), db.hasSpec, plugins.answers, plugins.next)
    requires SizesFollow(bs, false, plugins.answers, plugins.next, was)
    modifies bs`keys, bs`storage, bs`getSize, plugins`next, parent`name, parent`readOnlyName, parent`readOnlyValue, parent`log, parent.record
    ensures Ready(bs, parent) && parent.log.imposed == old(parent.log).imposed
    ensures Underway(ok, t, 4, setup, plugins, old(plugins.next), old(parent.Heard()), parent, facts)
    ensures ok ==> KeysOf(bs) == facts.storing && |t| > 2 * |bs|
    ensures SizesFollow(bs, |t| > 2 * |bs|, plugins.answers, old(plugins.next), was)
  {
    hide Underway, ParentKey.Valid, AllPlain, KeysAnswered, MountTable, Plainly, Regathered, Shares, SizesFollow;
    ghost var from, first := plugins.next, parent.Heard();
    ok, t := ResolveAndPrepare(bs, parent, plugins, setup, facts);
    if !ok { FailedAnywhere(t, 2, 4, setup, plugins, from, first, parent, facts); return; }
    ok, t := Regroup(db, bs, parent, plugins, setup, t, from, first, facts, was);
  }

  /** From the resolver phase to the record lock. */
  method Prepare(db: Kdb, bs: seq<Backend>, parent: ParentKey, initial: ParentKey, plugins: Plugins, ghost setup: Setup, ghost facts: Facts,
                 ghost was: seq<nat>)
    returns (ok: bool, ghost t: seq<Event>)
    requires Ready(bs, parent) && initial.Valid() && initial.log == Fresh()
    requires parent != initial && parent.record != initial.record && parent.log.imposed.None?
    requires setup == Setup(Members(bs), db.hasSpec, db.hasRecord)
    requires facts == FactsOf(KeysOf(bs), Names(bs), db.hasSpec, plugins.answers, plugins.next)
    requires SizesFollow(bs, false, plugins.answers, plugins.next, was)
    modifies bs`keys, bs`storage, bs`getSize, plugins`next, parent`name, parent`readOnlyName, parent`readOnlyValue, parent`log, parent.record
    modifies initial`log, initial.record`meta
    ensures Ready(bs, parent) && initial.Valid() && !initial.log.blocked
    ensures Underway(ok, t, 5, setup, plugins, old(plugins.next), old(parent.Heard()), parent, facts)
    ensures parent.log.imposed.Some? ==> !ok && parent.Error() == initial.Error()
    ensures ok ==> KeysOf(bs) == facts.storing && |t| > 2 * |bs|
    ensures SizesFollow(bs, |t| > 2 * |bs|, plugins.answers, old(plugins.next), was)
  {
    hide Reached, Failed, ParentKey.Valid, AllPlain, MountTable, Progress, Plainly, FactsHold, Regathered, Shares, SizesFollow;
    ghost var from, first := plugins.next, parent.Heard();
    ok, t := Gather(db, bs, parent, plugins, setup, facts, was);
    if ok {
      ok, t := LockRecord(db.hasRecord, parent, initial, plugins, setup, t, from, first, facts);
    }
  }

  /** The storage and post-storage phases. */
  method Store(bs: seq<Backend>, parent: ParentKey, plugins: Plugins,
               ghost setup: Setup, ghost done: seq<Event>, ghost from: nat, ghost first: Log<Report>, ghost facts: Facts)
    returns (ok: bool, ghost t: seq<Event>)
    requires Ready(bs, parent) && setup.members == Members(bs) && Underway(true, done, 5, setup, plugins, from, first, parent, facts)
    requires KeysOf(bs) == facts.storing
    modifies bs`keys, plugins`next, parent`name, parent`readOnlyName, parent`readOnlyValue, parent`log, parent.record
    ensures Ready(bs, parent) && parent.log.imposed == old(parent.log).imposed
    ensures Underway(ok, t, 7, setup, plugins, from, first, parent, facts) && |t| >= |done|
  {
    hide Underway, ParentKey.Valid, AllPlain, KeysAnswered, MountTable, Plainly;
    ok, t := ForwardPhase(bs, parent, plugins, Storage, SetFn, setup, done, 5, from, first, facts);
    if ok {
      ok, t := ForwardPhase(bs, parent, plugins, PostStorage, SetFn, setup, t, 6, from, first, facts);
    } else {
      FailedAnywhere(t, 6, 7, setup, plugins, from, first, parent, facts);
    }
  }

  /** The pre-commit and commit phases. */
  method CommitAll(bs: seq<Backend>, parent: ParentKey, plugins: Plugins,
                   ghost setup: Setup, ghost done: seq<Event>, ghost from: nat, ghost first: Log<Report>, ghost facts: Facts)
    returns (ok: bool, ghost t: seq<Event>)
    requires Ready(bs, parent) && setup.members == Members(bs) && Underway(true, done, 7, setup, plugins, from, first, parent, facts)
    modifies bs`keys, plugins`next, parent`name, parent`readOnlyName, parent`readOnlyValue, parent`log, parent.record
    ensures Ready(bs, parent) && parent.log.imposed == old(parent.log).imposed
    ensures Underway(ok, t, 9, setup, plugins, from, first, parent, facts) && |t| >= |done|
  {
    hide Underway, ParentKey.Valid, AllPlain, KeysAnswered, MountTable, Plainly;
    ok, t := ForwardPhase(bs, parent, plugins, PreCommit, CommitFn, setup, done, 7, from, first, facts);
    if ok {
      ok, t := ForwardPhase(bs, parent, plugins, Commit, CommitFn, setup, t, 8, from, first, facts);
    } else {
      FailedAnywhere(t, 8, 9, setup, plugins, from, first, parent, facts);
    }
  }

  /** From the storage phase to the commit phase. */
  method StoreAndCommit(bs: seq<Backend>, parent: ParentKey, plugins: Plugins,
                        ghost setup: Setup, ghost done: seq<Event>, ghost from: nat, ghost first: Log<Report>, ghost facts: Facts)
    returns (ok: bool, ghost t: seq<Event>)
    requires Ready(bs, parent) && setup.members == Members(bs) && Underway(true, done, 5, setup, plugins, from, first, parent, facts)
    requires KeysOf(bs) == facts.storing
    modifies bs`keys, plugins`next, parent`name, parent`readOnlyName, parent`readOnlyValue, parent`log, parent.record
    ensures Ready(bs, parent) && parent.log.imposed == old(parent.log).imposed
    ensures Underway(ok, t, 9, setup, plugins, from, first, parent, facts) && |t| >= |done|
  {
    hide Underway, Ready, Plainly;
    ok, t := Store(bs, parent, plugins, setup, done, from, first, facts);
    if ok {
      ok, t := CommitAll(bs, parent, plugins, setup, t, from, first, facts);
    } else {
      FailedAnywhere(t, 7, 9, setup, plugins, from, first, parent, facts);
    }
  }

  /** Where a run failed does not matter for what comes after. */
  lemma FailedAnywhere(t: seq<Event>, k: nat, j: nat, setup: Setup, plugins: Plugins, from: nat, first: Log<Report>, parent: ParentKey, facts: Facts)
    requires Underway(false, t, k, setup, plugins, from, first, parent, facts)
    ensures Underway(false, t, j, setup, plugins, from, first, parent, facts)
  {
  }

  /** Steps 7 to 12b. */
  method Forward(db: Kdb, bs: seq<Backend>, parent: ParentKey, initial: ParentKey, plugins: Plugins, ghost setup: Setup, ghost facts: Facts,
                 ghost was: seq<nat>)
    returns (ok: bool, ghost t: seq<Event>)
    requires Ready(bs, parent) && initial.Valid() && initial.log == Fresh()
    requires parent != initial && parent.record != initial.record && parent.log.imposed.None?
    requires setup == Setup(Members(bs), db.hasSpec, db.hasRecord)
    requires facts == FactsOf(KeysOf(bs), Names(bs), db.hasSpec, plugins.answers, plugins.next)
    requires SizesFollow(bs, false, plugins.answers, plugins.next, was)
    modifies bs`keys, bs`storage, bs`getSize, plugins`next, parent`name, parent`readOnlyName, parent`readOnlyValue, parent`log, parent.record
    modifies initial`log, initial.record`meta
    ensures Ready(bs, parent) && initial.Valid() && !initial.log.blocked
    ensures Follows(t, FORWARD, setup, ok)
    ensures FactsHold(t, facts)
    ensures SizesFollow(bs, |t| > 2 * |bs|, plugins.answers, old(plugins.next), was)
    ensures Progress(t, setup, plugins.answers, old(plugins.next), plugins.next, old(parent.Heard()), parent.Heard(), parent.show)
    ensures parent.log.imposed.Some? ==> !ok && parent.Error() == initial.Error()
  {
    hide Reached, ParentKey.Valid, AllPlain, Follows, Progress, Plainly, MountTable, FactsHold, FactsOf, SizesFollow;
    ghost var from, first := plugins.next, parent.Heard();
    ok, t := Prepare(db, bs, parent, initial, plugins, setup, facts, was);
    if ok {
      ok, t := StoreAndCommit(bs, parent, plugins, setup, t, from, first, facts);
      if ok { Finished(t, setup); }
    }
  }

  /** A blocked phase: its result is ignored, and the error that stands is kept. */
  method BlockedPhase(bs: seq<Backend>, parent: ParentKey, plugins: Plugins, phase: Phase, fn: SetFunction)
    returns (ghost t: seq<Event>)
    requires Ready(bs, parent) && fn == FunctionOf(phase) && phase != Resolver
    modifies bs`keys, plugins`next, parent`name, parent`readOnlyName, parent`readOnlyValue, parent`log, parent.record
    ensures Ready(bs, parent) && parent.log.imposed == old(parent.log).imposed && parent.Error() == old(parent.Error())
    ensures IsPhaseRun(t, phase, Members(bs)) && Tied(t, plugins.answers, old(plugins.next), plugins.next)
    ensures parent.Heard() == Replay(old(parent.Heard()), PhaseActs(t, phase, true, plugins.answers, old(plugins.next), parent.show))
  {
    hide ParentKey.Valid, AllPlain, Attempted, IsPhaseRun, Replay, PhaseActs, Tied, Plainly, KeysAnswered, MountTable;
    var _, u := RunSetPhase(bs, parent, plugins, phase, true, fn);
    t := u;
    AttemptedIsRun(t, bs, phase);
  }

  /** Steps E1 to E3: all three phases, whatever they return. */
  method RollBack(bs: seq<Backend>, parent: ParentKey, plugins: Plugins, ghost setup: Setup) returns (ghost t: seq<Event>)
    requires Ready(bs, parent) && setup.members == Members(bs)
    modifies bs`keys, plugins`next, parent`name, parent`readOnlyName, parent`readOnlyValue, parent`log, parent.record
    ensures Ready(bs, parent) && parent.log.imposed == old(parent.log).imposed && parent.Error() == old(parent.Error())
    ensures IsRollback(t, setup) && Tied(t, plugins.answers, old(plugins.next), plugins.next) && 3 * |setup.members| == |t|
    ensures parent.Heard() == Replay(old(parent.Heard()), RollbackActs(t, setup.members, plugins.answers, old(plugins.next), parent.show))
  {
    hide ParentKey.Valid, AllPlain, IsPhaseRun, Replay, PhaseActs, Tied, Plainly, MountTable, RollbackActs, IsRollback;
    ghost var from, l := plugins.next, parent.Heard();
    ghost var a := BlockedPhase(bs, parent, plugins, PreRollback, ErrorFn);
    ghost var second := plugins.next;
    ghost var b := BlockedPhase(bs, parent, plugins, Rollback, ErrorFn);
    ghost var third := plugins.next;
    ghost var c := BlockedPhase(bs, parent, plugins, PostRollback, ErrorFn);
    t := a + b + c;
    RollbackParts(a, b, c, setup, plugins.answers, from, second, third, plugins.next, parent.show, l);
  }

  lemma RollbackParts(a: seq<Event>, b: seq<Event>, c: seq<Event>, setup: Setup, answers: Script,
                      from: nat, second: nat, third: nat, to: nat, show: KeyName -> string, l: Log<Report>)
    requires IsPhaseRun(a, PreRollback, setup.members) && IsPhaseRun(b, Rollback, setup.members)
    requires IsPhaseRun(c, PostRollback, setup.members)
    requires Tied(a, answers, from, second) && Tied(b, answers, second, third) && Tied(c, answers, third, to)
    ensures var t := a + b + c;
            IsRollback(t, setup) && Tied(t, answers, from, to) && |t| == 3 * |setup.members| &&
            Replay(l, RollbackActs(t, setup.members, answers, from, show)) ==
            Replay(Replay(Replay(l, PhaseActs(a, PreRollback, true, answers, from, show)),
                          PhaseActs(b, Rollback, true, answers, second, show)),
                   PhaseActs(c, PostRollback, true, answers, third, show))
  {
    hide PhaseActs, Replay, IsPhaseRun, Answered, Consumed;
    RunLength(a, PreRollback, setup.members);
    RunLength(b, Rollback, setup.members);
    RunLength(c, PostRollback, setup.members);
    var t, n := a + b + c, |setup.members|;
    assert t[..n] == a && t[n..2 * n] == b && t[2 * n..] == c && t[2 * n..3 * n] == c;
    TiedConcat(a, b, answers, from, second, third);
    TiedConcat(a + b, c, answers, from, third, to);
    var x, y := PhaseActs(a, PreRollback, true, answers, from, show), PhaseActs(b, Rollback, true, answers, second, show);
    ReplayConcat(l, x, y);
    ReplayConcat(l, x + y, PhaseActs(c, PostRollback, true, answers, third, show));
  }

  lemma RunLength(t: seq<Event>, phase: Phase, members: seq<Member>)
    requires IsPhaseRun(t, phase, members)
    ensures |t| == |members|
  {
  }

  /** The calls of hooks so far, each of them an answer. */
  ghost predicate HooksCalled(u: seq<Event>, plugins: Plugins, from: nat, first: Log<Report>, parent: ParentKey)
    reads plugins, parent
  {
    Tied(u, plugins.answers, from, plugins.next) &&
    parent.Heard() == Replay(first, EventsActs(u, plugins.answers, from, parent.show))
  }

  /** A hook whose result is ignored. */
  method CallHook(parent: ParentKey, plugins: Plugins, ghost e: Event, ghost u: seq<Event>, ghost from: nat, ghost first: Log<Report>)
    requires parent.Valid() && !parent.log.blocked && HooksCalled(u, plugins, from, first, parent) && (e.Notified? || e.Recorded?)
    modifies plugins`next, parent`log, parent.record`meta
    ensures parent.Valid() && !parent.log.blocked && Extends(old(parent.log), parent.log)
    ensures HooksCalled(u + [e], plugins, from, first, parent)
  {
    hide ParentKey.Valid, Replay, Says, EventsActs, Answered, Consumed, Plainly;
    ghost var mid := plugins.next;
    var a := plugins.Ask();
    parent.Receive(a.notes);
    OneEvent(e, plugins.answers, mid, parent.show);
    TiedConcat(u, [e], plugins.answers, from, mid, plugins.next);
    EventsActsConcat(u, [e], plugins.answers, from, parent.show);
    ReplayConcat(first, EventsActs(u, plugins.answers, from, parent.show), Says(a.notes));
  }

  /** The notification hooks and the record hook. */
  method CallHooks(db: Kdb, parent: ParentKey, plugins: Plugins) returns (ghost u: seq<Event>)
    requires parent.Valid() && !parent.log.blocked
    modifies plugins`next, parent`log, parent.record`meta
    ensures parent.Valid() && !parent.log.blocked && Extends(old(parent.log), parent.log)
    ensures HooksCalled(u, plugins, old(plugins.next), old(parent.Heard()), parent)
    ensures |u| == db.notifications + (if db.hasRecord then 1 else 0)
    ensures forall i | 0 <= i < |u| :: if i < db.notifications then u[i].Notified? else u[i].Recorded?
  {
    hide ParentKey.Valid, HooksCalled, Extends, Plainly, ParentKey.Heard;
    ghost var from, first := plugins.next, parent.Heard();
    u := [];
    HooksStart(plugins, parent);
    ExtendsSelf(parent.log);
    for i := 0 to db.notifications
      invariant parent.Valid() && !parent.log.blocked && Extends(old(parent.log), parent.log)
      invariant HooksCalled(u, plugins, from, first, parent)
      invariant |u| == i && forall j | 0 <= j < |u| :: u[j].Notified?
    {
      ghost var before := parent.log;
      CallHook(parent, plugins, Notified, u, from, first);
      ExtendsFurther(old(parent.log), before, parent.log);
      u := u + [Notified];
    }
    if db.hasRecord {
      ghost var before := parent.log;
      CallHook(parent, plugins, Recorded, u, from, first);
      ExtendsFurther(old(parent.log), before, parent.log);
      u := u + [Recorded];
    }
  }

  lemma HooksStart(plugins: Plugins, parent: ParentKey)
    ensures HooksCalled([], plugins, plugins.next, parent.Heard(), parent)
  {
    NoEvent(plugins.answers, plugins.next, parent.Heard(), parent.show);
  }

  /** Step 12c, the notification hooks and the record hook. */
  method Complete(db: Kdb, bs: seq<Backend>, parent: ParentKey, plugins: Plugins, ghost setup: Setup) returns (ghost t: seq<Event>)
    requires Ready(bs, parent) && setup == Setup(Members(bs), db.hasSpec, db.hasRecord)
    modifies bs`keys, plugins`next, parent`name, parent`readOnlyName, parent`readOnlyValue, parent`log, parent.record
    ensures Ready(bs, parent) && parent.log.imposed == old(parent.log).imposed
    ensures IsCompletion(t, setup, db.notifications) && Tied(t, plugins.answers, old(plugins.next), plugins.next)
    ensures |setup.members| <= |t|
    ensures parent.Heard() == Replay(old(parent.Heard()), CompletionActs(t, setup.members, plugins.answers, old(plugins.next), parent.show))
  {
    hide ParentKey.Valid, AllPlain, IsPhaseRun, Replay, PhaseActs, Tied, Plainly, MountTable, CompletionActs, IsCompletion, EventsActs,
         ParentKey.Error;
    ghost var from, l := plugins.next, parent.Heard();
    ghost var a := BlockedPhase(bs, parent, plugins, PostCommit, CommitFn);
    ghost var mid, m := plugins.next, parent.Heard();
    ghost var u := CallHooks(db, parent, plugins);
    t := a + u;
    CompletionParts(a, u, setup, db.notifications, plugins.answers, from, mid, plugins.next, parent.show, l);
  }

  lemma CompletionParts(a: seq<Event>, u: seq<Event>, setup: Setup, notifications: nat, answers: Script, from: nat, mid: nat, to: nat,
                        show: KeyName -> string, l: Log<Report>)
    requires IsPhaseRun(a, PostCommit, setup.members) && Tied(a, answers, from, mid) && Tied(u, answers, mid, to)
    requires |u| == notifications + (if setup.record then 1 else 0)
    requires forall i | 0 <= i < |u| :: if i < notifications then u[i].Notified? else u[i].Recorded?
    ensures var t := a + u;
            IsCompletion(t, setup, notifications) && Tied(t, answers, from, to) && |setup.members| <= |t| &&
            Replay(l, CompletionActs(t, setup.members, answers, from, show)) ==
            Replay(Replay(l, PhaseActs(a, PostCommit, true, answers, from, show)), EventsActs(u, answers, mid, show))
  {
    hide PhaseActs, Replay, IsPhaseRun, Answered, Consumed, EventsActs;
    RunLength(a, PostCommit, setup.members);
    var t, n := a + u, |setup.members|;
    assert t[..n] == a && t[n..] == u;
    forall i | n <= i < |t| ensures t[i] == u[i - n] {}
    TiedConcat(a, u, answers, from, mid, to);
    ReplayConcat(l, PhaseActs(a, PostCommit, true, answers, from, show), EventsActs(u, answers, mid, show));
  }

  /** The unlock hook works on the original parent key, and its reports are lost. */
  method Unlock(hasRecord: bool, initial: ParentKey, plugins: Plugins, ghost setup: Setup) returns (ghost t: seq<Event>)
    requires initial.Valid() && setup.record == hasRecord
    modifies plugins`next, initial`log, initial.record`meta
    ensures t == UnlockEvents(setup) && Tied(t, plugins.answers, old(plugins.next), plugins.next)
  {
    hide ParentKey.Valid, Replay, Says, Heed, Plainly;
    t := [];
    if hasRecord {
      var a := plugins.Ask();
      initial.Receive(a.notes);
      t := [Unlocked];
      TiedOne(Unlocked, plugins.answers, old(plugins.next));
    }
  }

  // ----- before the first phase

  /** The names of the backends that are not initialized. */
  ghost function IdleNames(bs: seq<Backend>): set<KeyName>
    reads bs`initialized
  {
    set b | b in bs && !b.initialized :: b.name
  }

  /** The backends among them that are not initialized, in order. */
  ghost function Idle(bs: seq<Backend>): seq<Backend>
    reads bs`initialized
  {
    Restrict(bs, IdleNames(bs))
  }

  lemma IdleMember(bs: seq<Backend>, b: Backend)
    requires Mounted(bs)
    ensures b in Idle(bs) <==> b in bs && !b.initialized
  {
    hide MountTable;
    RestrictMember(bs, IdleNames(bs), b);
    if b in bs && b.name in IdleNames(bs) {
      var c :| c in bs && !c.initialized && c.name == b.name;
      var i :| 0 <= i < |bs| && bs[i] == b;
      SameBackend(bs, i, c);
    }
  }

  lemma IdleStep(bs: seq<Backend>, i: nat, show: KeyName -> string, l: Log<Report>)
    requires Mounted(bs) && i < |bs|
    ensures var report := (n: KeyName) => NotInitialized(show(n));
            var x, y := Restrict(bs[..i], IdleNames(bs)), Restrict(bs[..i + 1], IdleNames(bs));
            Replay(l, WarningsAbout(Names(y), report)) ==
            Replay(Replay(l, WarningsAbout(Names(x), report)), WarnsOf(NotInitialized(show(bs[i].name)), !bs[i].initialized))
  {
    hide MountTable, Replay, NotInitialized;
    var report := (n: KeyName) => NotInitialized(show(n));
    var x, y := Restrict(bs[..i], IdleNames(bs)), Restrict(bs[..i + 1], IdleNames(bs));
    assert bs[..i + 1][..i] == bs[..i];
    IdleMember(bs, bs[i]);
    RestrictMember(bs, IdleNames(bs), bs[i]);
    assert bs[i].name in IdleNames(bs) <==> !bs[i].initialized;
    ReplayNone(Replay(l, WarningsAbout(Names(x), report)));
    if !bs[i].initialized {
      assert y == x + [bs[i]];
      assert Names(y)[..|Names(y)| - 1] == Names(x) && Names(y)[|Names(y)| - 1] == bs[i].name;
      ReplayConcat(l, WarningsAbout(Names(x), report), [Say(AsWarning(report(bs[i].name)))]);
    } else {
      assert y == x;
    }
  }

  /** Step 2: every selected backend must have been initialized. */
  method CheckInitialized(bs: seq<Backend>, parent: ParentKey) returns (ok: bool)
    requires Mounted(bs) && parent.Valid()
    modifies parent`log, parent.record`meta
    ensures parent.Valid() && Extends(old(parent.log), parent.log)
    ensures ok <==> Idle(bs) == []
    ensures !ok ==> !parent.Error().Clear?
    ensures parent.Heard() == Replay(old(parent.Heard()), IdleActs(Names(Idle(bs)), parent.show))
  {
    hide ParentKey.Valid, Extends, NotInitialized, SomeNotInitialized, Replay, Plainly, MountTable, Restrict, WarningsAbout;
    ghost var first, report := parent.Heard(), (n: KeyName) => NotInitialized(parent.show(n));
    ok := true;
    ExtendsSelf(parent.log);
    IdleStart(bs, report, first);
    for i := 0 to |bs|
      invariant parent.Valid() && Extends(old(parent.log), parent.log)
      invariant ok <==> Restrict(bs[..i], IdleNames(bs)) == []
      invariant parent.Heard() == Replay(first, WarningsAbout(Names(Restrict(bs[..i], IdleNames(bs))), report))
    {
      IdleStep(bs, i, parent.show, first);
      IdleGrows(bs, i);
      WarnIf(!bs[i].initialized, parent, NotInitialized(parent.show(bs[i].name)), old(parent.log));
      if !bs[i].initialized {
        ok := false;
      }
    }
    assert bs[..|bs|] == bs;
    ghost var before, heard := parent.log, parent.Heard();
    if !ok {
      parent.SetError(SomeNotInitialized());
      ExtendsFurther(old(parent.log), before, parent.log);
      ReplayOne(heard, Say(AsError(SomeNotInitialized())));
    }
    ReplayNone(heard);
    ReplayConcat(first, WarningsAbout(Names(Idle(bs)), report), ErrsOf(SomeNotInitialized(), Names(Idle(bs)) != []));
  }

  lemma IdleStart(bs: seq<Backend>, report: KeyName -> Report, l: Log<Report>)
    ensures Restrict(bs[..0], IdleNames(bs)) == [] && Replay(l, WarningsAbout(Names(Restrict(bs[..0], IdleNames(bs))), report)) == l
  {
  }

  lemma IdleGrows(bs: seq<Backend>, i: nat)
    requires Mounted(bs) && i < |bs|
    ensures Restrict(bs[..i + 1], IdleNames(bs)) == [] <==> Restrict(bs[..i], IdleNames(bs)) == [] && bs[i].initialized
  {
    hide MountTable;
    assert bs[..i + 1][..i] == bs[..i];
    IdleMember(bs, bs[i]);
    RestrictMember(bs, IdleNames(bs), bs[i]);
  }

  predicate Covered(names: seq<KeyName>, n: KeyName) {
    exists m | m in names :: Below(m, n)
  }

  /** `r` is the part of `ks` at or below the mountpoints. */
  ghost predicate IsCollected(r: KeySet, names: seq<KeyName>, ks: KeySet) {
    forall n :: Get(r, n) == if Covered(names, n) then Get(ks, n) else None
  }

  lemma CollectStep(r: KeySet, part: KeySet, r': KeySet, names: seq<KeyName>, m: KeyName, ks: KeySet)
    requires IsCollected(r, names, ks)
    requires part == Filter(ks, (n: KeyName) => Below(m, n)) && r' == Append(r, part)
    ensures IsCollected(r', names + [m], ks)
  {
    forall n ensures Get(r', n) == if Covered(names + [m], n) then Get(ks, n) else None {
      FilterGet(ks, (n: KeyName) => Below(m, n), n);
      assert Covered(names + [m], n) <==> Covered(names, n) || Below(m, n) by {
        if Below(m, n) { assert m in names + [m]; }
        if Covered(names, n) {
          var x :| x in names && Below(x, n);
          assert x in names + [m];
        }
      }
    }
  }

  /** Step 4: copy what lies below the selected mountpoints. */
  method Collect(bs: seq<Backend>, ks: PlainKeySet) returns (setKs: PlainKeySet)
    ensures IsCollected(setKs, Names(bs), ks)
  {
    hide Plain, IsCollected;
    var names := Names(bs);
    CollectStart(ks);
    NothingPlain();
    setKs := [];
    for i := 0 to |bs|
      invariant IsCollected(setKs, names[..i], ks)
    {
      var m := bs[i].name;
      var below := Filter(ks, (n: KeyName) => Below(m, n));
      SubsetPlain(below, ks);
      AppendPlain(setKs, below);
      CollectStep(setKs, below, Append(setKs, below), names[..i], m, ks);
      assert names[..i] + [m] == names[..i + 1];
      setKs := Append(setKs, below);
    }
    assert names[..|bs|] == names;
  }

  lemma CollectStart(ks: KeySet)
    ensures forall names: seq<KeyName> :: IsCollected([], names[..0], ks)
  {
  }

  /** What was collected has an owner, so step 5 always succeeds. */
  lemma CollectedIsPlaced(names: seq<KeyName>, setKs: KeySet, ks: KeySet)
    requires MountTable(names) && IsCollected(setKs, names, ks)
    ensures AllPlaced(names, setKs, |setKs|)
  {
    forall i | 0 <= i < |setKs| ensures Target(names, setKs[i].name) >= 0 {
      GetAt(setKs, i);
      var m :| m in names && Below(m, setKs[i].name);
      var j :| 0 <= j < |names| && names[j] == m;
      TargetMissing(names, setKs[i].name);
    }
  }

  /** The keys the division gives to backend `b`. */
  function Share(names: seq<KeyName>, ks: KeySet, b: nat): KeySet {
    PortionSorted(names, ks, |ks|, b);
    Portion(names, ks, |ks|, b)
  }

  /** The share of a backend in the input changed since kdbGet. */
  ghost predicate ShareChanged(sel: seq<Backend>, i: nat, input: KeySet, allKeys: Option<KeySet>)
    requires i < |sel|
    reads sel`getSize
  {
    Changed(Names(sel), sel[i].name, Share(Names(sel), input, i), sel[i].getSize, allKeys)
  }

  /** Exactly the backends with changes are picked: the writable or the read-only ones. */
  ghost predicate IsPick(sel: seq<Backend>, picked: seq<Backend>, input: KeySet, allKeys: Option<KeySet>, readOnly: bool)
    reads sel`readOnly, sel`getSize
  {
    Mounted(picked) && (forall b | b in picked :: b in sel) &&
    forall i | 0 <= i < |sel| :: sel[i] in picked <==> sel[i].readOnly == readOnly && ShareChanged(sel, i, input, allKeys)
  }

  /** Steps 5 and 6: divide, then drop what needs no write. */
  method DivideAndPrune(sel: seq<Backend>, setKs: PlainKeySet, allKeys: Option<PlainKeySet>, parent: ParentKey, ghost ks: KeySet)
    returns (left: seq<Backend>, ghost refused: seq<Backend>)
    requires Mounted(sel) && parent.Valid() && IsCollected(setKs, Names(sel), ks)
    modifies sel`keys, parent`log, parent.record`meta
    ensures parent.Valid() && Extends(old(parent.log), parent.log) && AllPlain(left)
    ensures IsPick(sel, left, setKs, allKeys, false) && IsPick(sel, refused, setKs, allKeys, true)
    ensures KeysOf(sel) == Shares(Names(sel), setKs)
    ensures parent.Heard() == Replay(old(parent.Heard()), RefusalActs(Names(refused), parent.show))
  {
    hide ParentKey.Valid, Plain, IsCollected, NeedsWrite, Picked, Divided, AllPlaced, MountTable, Extends, IsPick, Replay, RefusalActs, Plainly;
    CollectedIsPlaced(Names(sel), setKs, ks);
    var ok := DividePlain(sel, setKs);
    assert ok;
    DividedIsShares(sel, setKs);
    PlainIsValid(sel, allKeys);
    left := Prune(sel, allKeys, parent);
    refused := Picked(sel, allKeys, |sel|, true);
    PickIsPick(sel, setKs, allKeys, false);
    PickIsPick(sel, setKs, allKeys, true);
    PickedSelected(sel, left, setKs, allKeys, false);
  }

  lemma PickIsPick(sel: seq<Backend>, input: KeySet, allKeys: Option<KeySet>, readOnly: bool)
    requires Mounted(sel) && Divided(sel, input, |input|)
    ensures IsPick(sel, Picked(sel, allKeys, |sel|, readOnly), input, allKeys, readOnly)
  {
    hide Changed, Picked, MountTable;
    var picked := Picked(sel, allKeys, |sel|, readOnly);
    PickedMounted(sel, allKeys, |sel|, readOnly);
    assert sel[..|sel|] == sel;
    forall b | b in picked ensures b in sel { PickedMember(sel, allKeys, |sel|, readOnly, b); }
    forall i | 0 <= i < |sel|
      ensures sel[i] in picked <==> sel[i].readOnly == readOnly && ShareChanged(sel, i, input, allKeys)
    {
      PickedMember(sel, allKeys, |sel|, readOnly, sel[i]);
      assert sel[i].keys == Share(Names(sel), input, i);
    }
  }

  lemma PickedSelected(sel: seq<Backend>, picked: seq<Backend>, input: KeySet, allKeys: Option<KeySet>, readOnly: bool)
    requires IsPick(sel, picked, input, allKeys, readOnly)
    ensures Mounted(picked) && IsPart(picked, sel)
  {
  }

  lemma PlainIsValid(bs: seq<Backend>, allKeys: Option<PlainKeySet>)
    requires AllPlain(bs)
    ensures (forall b | b in bs :: ValidKeys(b.keys)) && (allKeys.Some? ==> ValidKeys(allKeys.value))
  {
  }

  /** The facts about a mounted backend that a run starts from. */
  datatype Mount = Mount(name: KeyName, member: Member, getSize: nat, readOnly: bool, initialized: bool)

  /** The facts are those of the backends. */
  ghost predicate Lists(table: seq<Mount>, bs: seq<Backend>)
    reads bs`getSize, bs`readOnly, bs`initialized
  {
    |table| == |bs| && forall i | 0 <= i < |bs| ::
      table[i] == Mount(bs[i].name, MemberOf(bs[i]), bs[i].getSize, bs[i].readOnly, bs[i].initialized)
  }

  function Mounts(bs: seq<Backend>): (table: seq<Mount>)
    reads bs`getSize, bs`readOnly, bs`initialized
    ensures Lists(table, bs)
  {
    if bs == [] then []
    else
      var last := bs[|bs| - 1];
      Mounts(bs[..|bs| - 1]) + [Mount(last.name, MemberOf(last), last.getSize, last.readOnly, last.initialized)]
  }

  /** What a run decides before its first phase: which mountpoints it looks at, which of them are not initialized,
      which it writes, which it would write if they were not read-only, and the keys it divides over them. */
  datatype Plan = Plan(selected: seq<KeyName>, idle: seq<KeyName>, writing: seq<KeyName>, refused: seq<KeyName>, input: KeySet)

  /** The share of a written mountpoint in the input. */
  function ShareOf(plan: Plan, n: KeyName): KeySet {
    var i := IndexOf(plan.selected, n);
    if i >= 0 then Share(plan.selected, plan.input, i) else []
  }

  /** The keys with which the resolver phase starts. */
  function Openings(plan: Plan): (sets: seq<KeySet>)
    ensures |sets| == |plan.writing| && forall i | 0 <= i < |sets| :: sets[i] == ShareOf(plan, plan.writing[i])
  {
    seq(|plan.writing|, i requires 0 <= i < |plan.writing| => ShareOf(plan, plan.writing[i]))
  }

  lemma OpeningsHeld(plan: Plan, sel: seq<Backend>, left: seq<Backend>)
    requires Mounted(sel) && plan.selected == Names(sel) && plan.writing == Names(left) && IsPart(left, sel)
    requires KeysOf(sel) == Shares(Names(sel), plan.input)
    ensures KeysOf(left) == Openings(plan)
  {
    hide Share, Lt;
    forall i | 0 <= i < |left| ensures KeysOf(left)[i] == Openings(plan)[i] {
      assert left[i] in sel;
      var j :| 0 <= j < |sel| && sel[j] == left[i];
      assert plan.selected[j] == left[i].name;
      var k := IndexOf(plan.selected, left[i].name);
      assert k >= 0 by { assert plan.selected[j] in plan.selected; }
      SameBackend(sel, k, sel[j]);
      MountedDistinct(sel, j, k);
      assert KeysOf(sel)[j] == Shares(Names(sel), plan.input)[j];
    }
  }

  /** The members of a run are the written mountpoints with their functions. */
  predicate Enlisted(members: seq<Member>, writing: seq<KeyName>, table: seq<Mount>) {
    |members| == |writing| &&
    forall i | 0 <= i < |writing| ::
      members[i].name == writing[i] && forall j | 0 <= j < |table| && table[j].name == writing[i] :: table[j].member == members[i]
  }

  lemma EnlistedMade(bs: seq<Backend>, left: seq<Backend>, table: seq<Mount>)
    requires Lists(table, bs) && Mounted(bs) && IsPart(left, bs)
    ensures Enlisted(Members(left), Names(left), table)
  {
    hide MountTable;
    forall i, j | 0 <= i < |left| && 0 <= j < |table| && table[j].name == left[i].name ensures table[j].member == MemberOf(left[i]) {
      assert left[i] in left;
      SameBackend(bs, j, left[i]);
    }
  }

  /** The selection for the parent, and what of it is not initialized. */
  ghost predicate IsScope(plan: Plan, names: seq<KeyName>, table: seq<Mount>, parent: KeyName) {
    MountTable(plan.selected) && NamesSelected(names, parent, plan.selected) &&
    MountTable(plan.idle) && (forall n | n in plan.idle :: n in plan.selected) &&
    forall j | 0 <= j < |table| && table[j].name in plan.selected :: table[j].name in plan.idle <==> !table[j].initialized
  }

  /** A mountpoint is written exactly when its share of the input changed and it is writable. */
  ghost predicate Decided(plan: Plan, m: Mount, i: nat, allKeys: Option<KeySet>)
    requires i < |plan.selected|
  {
    var changed := Changed(plan.selected, m.name, Share(plan.selected, plan.input, i), m.getSize, allKeys);
    (m.name in plan.writing <==> !m.readOnly && changed) && (m.name in plan.refused <==> m.readOnly && changed)
  }

  /** The caller's keys below the selection, and the decision on each mountpoint. */
  ghost predicate IsPlan(plan: Plan, table: seq<Mount>, ks: KeySet, allKeys: Option<KeySet>) {
    MountTable(plan.writing) && (forall n | n in plan.writing :: n in plan.selected) &&
    MountTable(plan.refused) && (forall n | n in plan.refused :: n in plan.selected) &&
    IsCollected(plan.input, plan.selected, ks) &&
    forall j, i | 0 <= j < |table| && 0 <= i < |plan.selected| && table[j].name == plan.selected[i] ::
      Decided(plan, table[j], i, allKeys)
  }

  lemma ScopeMade(bs: seq<Backend>, sel: seq<Backend>, parent: KeyName, table: seq<Mount>, plan: Plan)
    requires Lists(table, bs) && Mounted(bs) && Mounted(sel) && IsSelection(bs, parent, sel)
    requires plan.selected == Names(sel) && plan.idle == Names(Idle(sel))
    ensures IsScope(plan, Names(bs), table, parent)
  {
    hide MountTable, Chosen, Restrict;
    NamesIn(sel, bs);
    RestrictMounted(sel, IdleNames(sel));
    forall b | b in Idle(sel) ensures b in sel { IdleMember(sel, b); }
    NamesIn(Idle(sel), sel);
    forall n | n in Names(bs) ensures n in plan.selected <==> Chosen(Names(bs), parent, ParentSpaces(parent), n) {
      var i :| 0 <= i < |bs| && Names(bs)[i] == n;
      assert bs[i] in bs;
      NameMeansMember(sel, bs, i);
    }
    forall j | 0 <= j < |table| && table[j].name in plan.selected ensures table[j].name in plan.idle <==> !table[j].initialized {
      NameMeansMember(sel, bs, j);
      NameMeansMember(Idle(sel), bs, j);
      IdleMember(sel, bs[j]);
    }
  }

  /** The plan that the list operations arrive at. */
  lemma PlanMade(bs: seq<Backend>, sel: seq<Backend>, left: seq<Backend>, refused: seq<Backend>, table: seq<Mount>, plan: Plan,
                 ks: KeySet, allKeys: Option<KeySet>)
    requires Lists(table, bs) && Mounted(bs) && Mounted(sel) && IsPart(sel, bs)
    requires plan.selected == Names(sel) && plan.writing == Names(left) && plan.refused == Names(refused)
    requires IsCollected(plan.input, Names(sel), ks)
    requires IsPick(sel, left, plan.input, allKeys, false) && IsPick(sel, refused, plan.input, allKeys, true)
    ensures IsPlan(plan, table, ks, allKeys)
  {
    hide IsCollected, Decided, IsPick, MountTable;
    PickedSelected(sel, left, plan.input, allKeys, false);
    PickedSelected(sel, refused, plan.input, allKeys, true);
    NamesIn(left, sel);
    NamesIn(refused, sel);
    forall j, i | 0 <= j < |table| && 0 <= i < |plan.selected| && table[j].name == plan.selected[i]
      ensures Decided(plan, table[j], i, allKeys)
    {
      DecisionMade(bs, sel, left, refused, plan, allKeys, j, i, table);
    }
  }

  lemma DecisionMade(bs: seq<Backend>, sel: seq<Backend>, left: seq<Backend>, refused: seq<Backend>, plan: Plan,
                     allKeys: Option<KeySet>, j: nat, i: nat, table: seq<Mount>)
    requires Lists(table, bs) && Mounted(bs) && Mounted(sel) && IsPart(sel, bs)
    requires plan.selected == Names(sel) && plan.writing == Names(left) && plan.refused == Names(refused)
    requires IsPick(sel, left, plan.input, allKeys, false) && IsPick(sel, refused, plan.input, allKeys, true)
    requires j < |bs| && i < |sel| && bs[j].name == sel[i].name
    ensures Decided(plan, table[j], i, allKeys)
  {
    hide Changed, MountTable;
    assert sel[i] in sel;
    SameBackend(bs, j, sel[i]);
    NameMeansMember(left, sel, i);
    NameMeansMember(refused, sel, i);
    assert ShareChanged(sel, i, plan.input, allKeys) <==>
      Changed(plan.selected, table[j].name, Share(plan.selected, plan.input, i), table[j].getSize, allKeys);
  }

  lemma NamesIn(part: seq<Backend>, bs: seq<Backend>)
    requires forall b | b in part :: b in bs
    ensures forall n | n in Names(part) :: n in Names(bs)
  {
    forall n | n in Names(part) ensures n in Names(bs) {
      var i :| 0 <= i < |part| && Names(part)[i] == n;
      assert part[i] in bs;
      var j :| 0 <= j < |bs| && bs[j] == part[i];
      assert Names(bs)[j] == n;
    }
  }

  lemma SameBackend(bs: seq<Backend>, j: nat, b: Backend)
    requires Mounted(bs) && j < |bs| && b in bs && b.name == bs[j].name
    ensures b == bs[j]
  {
    var i :| 0 <= i < |bs| && bs[i] == b;
    assert Names(bs)[i] == Names(bs)[j];
    LtIrreflexive(b.name);
  }

  /** Names stand for backends. */
  lemma NameMeansMember(part: seq<Backend>, bs: seq<Backend>, j: nat)
    requires Mounted(bs) && j < |bs| && forall b | b in part :: b in bs
    ensures bs[j].name in Names(part) <==> bs[j] in part
  {
    if bs[j].name in Names(part) {
      var i :| 0 <= i < |part| && Names(part)[i] == bs[j].name;
      assert part[i] in part;
      SameBackend(bs, j, part[i]);
    }
    if bs[j] in part {
      var i :| 0 <= i < |part| && part[i] == bs[j];
      assert Names(part)[i] == bs[j].name;
    }
  }

  datatype Start = Abort | Nothing | Go

  /** Step 3: the spec plugin copies metadata into the caller's keys. */
  method CopySpec(hasSpec: bool, ks: PlainKeySet, parent: ParentKey, plugins: Plugins)
    returns (ok: bool, after: PlainKeySet, ghost before: seq<Event>)
    requires parent.Valid()
    modifies plugins`next, parent`log, parent.record`meta
    ensures parent.Valid() && Extends(old(parent.log), parent.log)
    ensures before == if hasSpec then [SpecCopied(plugins.answers(old(plugins.next)).code)] else []
    ensures after == if hasSpec then plugins.answers(old(plugins.next)).keys else ks
    ensures ok <==> !(hasSpec && plugins.answers(old(plugins.next)).code == ERROR)
    ensures Tied(before, plugins.answers, old(plugins.next), plugins.next)
    ensures parent.Heard() == Replay(old(parent.Heard()), EventsActs(before, plugins.answers, old(plugins.next), parent.show))
  {
    hide ParentKey.Valid, Extends, Replay, Says, Plainly, Plain;
    ok, after, before := true, ks, [];
    ExtendsSelf(parent.log);
    NoEvent(plugins.answers, plugins.next, parent.Heard(), parent.show);
    if hasSpec {
      var a := plugins.Ask();
      parent.Receive(a.notes);
      ok, after, before := a.code != ERROR, a.keys, [SpecCopied(a.code)];
      OneEvent(SpecCopied(a.code), plugins.answers, old(plugins.next), parent.show);
    }
  }

  /** What is known when the phases begin, or when the run ends before that. */
  ghost predicate Prepared(start: Start, before: seq<Event>, hasSpec: bool, plan: Plan, plugins: Plugins, from: nat, parent: ParentKey)
    reads plugins, parent
  {
    (start.Abort? <==> plan.idle != [] || SpecCopied(ERROR) in before) &&
    (if start.Abort? then Aborted(before, hasSpec) else Opened(before, hasSpec)) &&
    (plan.idle != [] ==> before == []) && (plan.idle == [] ==> |before| == if hasSpec then 1 else 0) &&
    (start.Abort? ==> plan.writing == [] && plan.refused == []) && (!start.Abort? ==> (start.Nothing? <==> plan.writing == [])) &&
    Tied(before, plugins.answers, from, plugins.next) &&
    parent.Heard() == Replay(Fresh(), OpeningActs(Shape(before, [], []), plan.idle, plan.refused, plugins.answers, from, parent.show))
  }

  /** All of `part` is mounted. */
  predicate IsPart(part: seq<Backend>, bs: seq<Backend>) {
    (forall b | b in part :: b in bs) && forall i | 0 <= i < |part| :: part[i] in bs
  }

  /** Steps 1 to 3: select the backends, check them, and run the spec hook. */
  method Open(db: Kdb, ks: PlainKeySet, parent: ParentKey, plugins: Plugins, ghost table: seq<Mount>)
    returns (ok: bool, after: PlainKeySet, sel: seq<Backend>, ghost before: seq<Event>, ghost plan: Plan)
    requires Mounted(db.backends) && parent.Valid() && Lists(table, db.backends) && parent.log == Fresh()
    modifies plugins`next, parent`log, parent.record`meta
    ensures parent.Valid() && Extends(Fresh(), parent.log)
    ensures Mounted(sel) && IsPart(sel, db.backends)
    ensures plan.selected == Names(sel) && plan.writing == [] && plan.refused == [] && IsScope(plan, Names(db.backends), table, parent.name)
    ensures Prepared(if ok then Nothing else Abort, before, db.hasSpec, plan, plugins, old(plugins.next), parent)
    ensures after == if before != [] then plugins.answers(old(plugins.next)).keys else ks
  {
    hide ParentKey.Valid, Extends, Plain, IsScope, Chosen, MountTable, Replay, Plainly, EventsActs, IdleActs, RefusalActs, Tied, Restrict;
    before, after := [], ks;
    ghost var from := plugins.next;
    sel := ForParentKey(db.backends, parent.name);
    ghost var idle := Names(Idle(sel));
    plan := Plan(Names(sel), idle, [], [], []);
    ScopeMade(db.backends, sel, parent.name, table, plan);
    FreshHeard(parent);
    ok := CheckInitialized(sel, parent);
    ghost var l1, log1 := parent.Heard(), parent.log;
    NoEvent(plugins.answers, from, l1, parent.show);
    if ok {
      ok, after, before := CopySpec(db.hasSpec, ks, parent, plugins);
      ExtendsFurther(Fresh(), log1, parent.log);
    }
    NoRefusals(parent.Heard(), parent.show);
    OpeningReplayed(before, idle, [], plugins.answers, from, parent.show, l1, parent.Heard(), parent.Heard());
  }

  lemma PartOfPart(a: seq<Backend>, b: seq<Backend>, c: seq<Backend>)
    requires IsPart(a, b) && IsPart(b, c)
    ensures IsPart(a, c)
  {
  }

  /** Steps 4 to 6: collect the keys, divide them, and drop what needs no write. */
  method Choose(db: Kdb, sel: seq<Backend>, after: PlainKeySet, parent: ParentKey, ghost table: seq<Mount>, ghost scope: Plan)
    returns (left: seq<Backend>, ghost plan: Plan)
    requires Mounted(db.backends) && parent.Valid() && Lists(table, db.backends) && Mounted(sel) && scope.selected == Names(sel)
    requires IsPart(sel, db.backends)
    modifies sel`keys, parent`log, parent.record`meta
    ensures parent.Valid() && Extends(old(parent.log), parent.log)
    ensures plan.selected == scope.selected && plan.idle == scope.idle && plan.writing == Names(left)
    ensures AllPlain(left) && Mounted(left) && KeysOf(left) == Openings(plan) && IsPart(left, db.backends)
    ensures Enlisted(Members(left), plan.writing, table) && IsPlan(plan, table, after, db.allKeys)
    ensures parent.Heard() == Replay(old(parent.Heard()), RefusalActs(plan.refused, parent.show))
  {
    hide ParentKey.Valid, ParentKey.Heard, Extends, IsCollected, Plain, IsPlan, MountTable, Replay, IsPick, RefusalActs, Enlisted, Openings, Shares,
         IsPart, Lists;
    var setKs := Collect(sel, after);
    ghost var refused;
    left, refused := DivideAndPrune(sel, setKs, db.allKeys, parent, after);
    PickedSelected(sel, left, setKs, db.allKeys, false);
    PartOfPart(left, sel, db.backends);
    plan := scope.(writing := Names(left), refused := Names(refused), input := setKs);
    PlanMade(db.backends, sel, left, refused, table, plan, after, db.allKeys);
    OpeningsHeld(plan, sel, left);
    EnlistedMade(db.backends, left, table);
  }

  /** Steps 1 to 6. */
  method Begin(db: Kdb, ks: PlainKeySet, parent: ParentKey, plugins: Plugins, ghost table: seq<Mount>)
    returns (start: Start, after: PlainKeySet, left: seq<Backend>, ghost before: seq<Event>, ghost plan: Plan)
    requires Mounted(db.backends) && parent.Valid() && Lists(table, db.backends) && parent.log == Fresh()
    modifies db.backends`keys, plugins`next, parent`log, parent.record`meta
    ensures parent.Valid() && !parent.log.blocked && parent.log.imposed.None?
    ensures IsScope(plan, Names(db.backends), table, parent.name)
    ensures Prepared(start, before, db.hasSpec, plan, plugins, old(plugins.next), parent)
    ensures after == if before != [] then plugins.answers(old(plugins.next)).keys else ks
    ensures !start.Abort? ==> AllPlain(left) && Mounted(left) && plan.writing == Names(left) && KeysOf(left) == Openings(plan)
    ensures start.Abort? ==> left == []
    ensures Enlisted(Members(left), plan.writing, table)
    ensures !start.Abort? ==> IsPlan(plan, table, after, db.allKeys)
    ensures forall i | 0 <= i < |left| :: left[i] in db.backends
  {
    hide ParentKey.Valid, Extends, Plain, IsPlan, IsScope, MountTable, Replay, Plainly, OpeningActs, RefusalActs, Tied, Restrict, Openings;
    ghost var from := plugins.next;
    left := [];
    var ok, sel;
    ok, after, sel, before, plan := Open(db, ks, parent, plugins, table);
    ExtendsFrame(Fresh(), parent.log);
    if !ok {
      start := Abort;
      return;
    }
    ghost var l, log, scope := parent.Heard(), parent.log, plan;
    left, plan := Choose(db, sel, after, parent, table, scope);
    ExtendsFurther(Fresh(), log, parent.log);
    ExtendsFrame(Fresh(), parent.log);
    ScopeSame(scope, plan, Names(db.backends), table, parent.name);
    RefusalsAdded(before, plan.idle, plan.refused, plugins.answers, from, parent.show, l);
    start := if left == [] then Nothing else Go;
  }

  /** The scope does not depend on what is decided later. */
  lemma ScopeSame(scope: Plan, plan: Plan, names: seq<KeyName>, table: seq<Mount>, parent: KeyName)
    requires IsScope(scope, names, table, parent) && plan.selected == scope.selected && plan.idle == scope.idle
    ensures IsScope(plan, names, table, parent)
  {
    hide MountTable, NamesSelected;
  }

  lemma RefusalsAdded(before: seq<Event>, idle: seq<KeyName>, refused: seq<KeyName>, answers: Script, from: nat, show: KeyName -> string,
                      l: Log<Report>)
    requires l == Replay(Fresh(), OpeningActs(Shape(before, [], []), idle, [], answers, from, show))
    ensures Replay(l, RefusalActs(refused, show)) == Replay(Fresh(), OpeningActs(Shape(before, [], []), idle, refused, answers, from, show))
  {
    hide Replay, IdleActs, EventsActs, WarningsAbout;
    var x := IdleActs(idle, show) + EventsActs(before, answers, from, show);
    AboutNothing((n: KeyName) => ReadOnlyChanged(show(n)));
    assert x + [] == x;
    ReplayConcat(Fresh(), x, RefusalActs(refused, show));
  }

  lemma AboutNothing(report: KeyName -> Report)
    ensures WarningsAbout([], report) == []
  {
  }

  lemma FreshHeard(parent: ParentKey)
    requires parent.log == Fresh()
    ensures parent.Heard() == Fresh()
  {
    assert ReportsOf([]) == [];
  }

  lemma OpeningReplayed(before: seq<Event>, idle: seq<KeyName>, refused: seq<KeyName>, answers: Script, from: nat, show: KeyName -> string,
                        l1: Log<Report>, l2: Log<Report>, l3: Log<Report>)
    requires l1 == Replay(Fresh(), IdleActs(idle, show)) && l2 == Replay(l1, EventsActs(before, answers, from, show))
    requires l3 == Replay(l2, RefusalActs(refused, show))
    ensures l3 == Replay(Fresh(), OpeningActs(Shape(before, [], []), idle, refused, answers, from, show))
  {
    hide Replay, IdleActs, EventsActs;
    ReplayConcat(Fresh(), IdleActs(idle, show), EventsActs(before, answers, from, show));
    ReplayConcat(Fresh(), IdleActs(idle, show) + EventsActs(before, answers, from, show), RefusalActs(refused, show));
  }

  lemma NoRefusals(l: Log<Report>, show: KeyName -> string)
    ensures Replay(l, RefusalActs([], show)) == l
  {
  }

  lemma ExtendsFrame(a: Log<Entry>, b: Log<Entry>)
    requires Extends(a, b)
    ensures a.blocked == b.blocked && a.imposed == b.imposed
  {
  }

  // ----- the whole call

  /** allKeys after a successful run: what was below the parent is replaced by the keys of the caller. */
  function Tracked(allKeys: PlainKeySet, parent: KeyName, ks: PlainKeySet): PlainKeySet {
    RestPlain(allKeys, parent);
    AppendPlain(Cut(allKeys, parent).rest, ks);
    Append(Cut(allKeys, parent).rest, ks)
  }

  lemma RestPlain(ks: KeySet, cut: KeyName)
    requires Plain(ks)
    ensures Plain(Cut(ks, cut).rest)
  {
    hide Plain;
    var r := Cut(ks, cut).rest;
    forall k | k in r ensures k in ks {
      GetMember(r, k);
      assert Splits(ks, Cut(ks, cut), k.name);
      GetIn(ks, k.name);
    }
    SubsetPlain(r, ks);
  }

  /** Afterwards allKeys agrees with the caller's keys on every name the caller has and every name that the cut
      took; elsewhere it is as before. What the cut takes is what is under the parent, except in the default
      namespace when the parent is cascading. */
  lemma {:induction false} TrackedAgrees(allKeys: PlainKeySet, parent: KeyName, ks: PlainKeySet, n: KeyName)
    ensures Get(Tracked(allKeys, parent, ks), n) ==
            if Get(ks, n).Some? || (Get(allKeys, n).Some? && Takes(allKeys, parent, n)) then Get(ks, n) else Get(allKeys, n)
    ensures parent.ns != Cascading || (n.ns != Default && n.ns != Cascading) ==>
            Get(Tracked(allKeys, parent, ks), n) ==
            if UnderParent(parent, n) || Get(ks, n).Some? then Get(ks, n) else Get(allKeys, n)
  {
    hide Plain, Lt, Cut;
    assert Splits(allKeys, Cut(allKeys, parent), n);
    if Get(allKeys, n).Some? { CutTakes(allKeys, parent, n); }
  }

  /** The record after the phases, and the answers that were used up. */
  ghost predicate Executed(r: int, forward: seq<Event>, after: seq<Event>, setup: Setup, plugins: Plugins, from: nat,
                           first: Log<Report>, parent: ParentKey)
    reads plugins, parent
  {
    Tied(forward + after, plugins.answers, from, plugins.next) &&
    parent.Heard() == Replay(first, ForwardActs(forward, FORWARD, setup, plugins.answers, from, parent.show) +
                                    EndingActs(after, r, setup.members, plugins.answers, from + Consumed(forward), parent.show))
  }

  lemma ExecutedParts(r: int, forward: seq<Event>, tail: seq<Event>, u: seq<Event>, setup: Setup, answers: Script,
                      from: nat, mid: nat, last: nat, to: nat, first: Log<Report>, l: Log<Report>, show: KeyName -> string)
    requires u == UnlockEvents(setup)
    requires Progress(forward, setup, answers, from, mid, first, l, show) && Tied(tail, answers, mid, last) && Tied(u, answers, last, to)
    requires if r == 1 then |setup.members| <= |tail| else r == -1 && 3 * |setup.members| == |tail|
    ensures Tied(forward + (tail + u), answers, from, to)
    ensures Replay(first, ForwardActs(forward, FORWARD, setup, answers, from, show) +
                          EndingActs(tail + u, r, setup.members, answers, from + Consumed(forward), show)) ==
            Replay(l, if r == 1 then CompletionActs(tail, setup.members, answers, mid, show)
                      else RollbackActs(tail, setup.members, answers, mid, show))
  {
    hide ForwardActs, Replay, Consumed, Answered, EndingActs, CompletionActs, RollbackActs;
    TiedConcat(tail, u, answers, mid, last, to);
    TiedConcat(forward, tail + u, answers, from, mid, to);
    EndingWithUnlock(r, tail, u, setup, answers, mid, show);
    ReplayConcat(first, ForwardActs(forward, FORWARD, setup, answers, from, show), EndingActs(tail + u, r, setup.members, answers, mid, show));
  }

  lemma EndingWithUnlock(r: int, tail: seq<Event>, u: seq<Event>, setup: Setup, answers: Script, mid: nat, show: KeyName -> string)
    requires u == UnlockEvents(setup)
    requires if r == 1 then |setup.members| <= |tail| else r == -1 && 3 * |setup.members| == |tail|
    ensures EndingActs(tail + u, r, setup.members, answers, mid, show) ==
            if r == 1 then CompletionActs(tail, setup.members, answers, mid, show) else RollbackActs(tail, setup.members, answers, mid, show)
  {
    hide Consumed, PhaseActs, EventsActs;
    var n := |setup.members|;
    assert (tail + u)[..n] == tail[..n];
    if r == 1 {
      assert (tail + u)[n..] == tail[n..] + u;
      UnlockSaysNothing(tail[n..], setup, answers, mid + Consumed(tail[..n]), show);
    } else {
      assert (tail + u)[n..2 * n] == tail[n..2 * n] && (tail + u)[2 * n..3 * n] == tail[2 * n..3 * n];
    }
  }

  lemma UnlockSaysNothing(t: seq<Event>, setup: Setup, answers: Script, from: nat, show: KeyName -> string)
    ensures EventsActs(t + UnlockEvents(setup), answers, from, show) == EventsActs(t, answers, from, show)
  {
    hide EventsActs, Consumed;
    EventsActsConcat(t, UnlockEvents(setup), answers, from, show);
    if setup.record {
      EventsActsOne(Unlocked, answers, from + Consumed(t), show);
    } else {
      NoEvent(answers, from + Consumed(t), Fresh(), show);
    }
  }

  /** Step 12c and the hooks after it, or the rollback; then the lock is released. */
  method Finish(ok: bool, db: Kdb, left: seq<Backend>, parent: ParentKey, initial: ParentKey, plugins: Plugins, ghost setup: Setup)
    returns (ghost tail: seq<Event>, ghost u: seq<Event>, ghost last: nat)
    requires Ready(left, parent) && initial.Valid() && parent != initial && parent.record != initial.record
    requires setup == Setup(Members(left), db.hasSpec, db.hasRecord)
    modifies left`keys, plugins`next, parent`name, parent`readOnlyName, parent`readOnlyValue, parent`log, parent.record
    modifies initial`log, initial.record`meta
    ensures Ready(left, parent) && parent.log.imposed == old(parent.log).imposed && u == UnlockEvents(setup)
    ensures if ok then IsCompletion(tail, setup, db.notifications) && |setup.members| <= |tail|
            else IsRollback(tail, setup) && 3 * |setup.members| == |tail|
    ensures Tied(tail, plugins.answers, old(plugins.next), last) && Tied(u, plugins.answers, last, plugins.next)
    ensures parent.Heard() == Replay(old(parent.Heard()),
                                     if ok then CompletionActs(tail, setup.members, plugins.answers, old(plugins.next), parent.show)
                                     else RollbackActs(tail, setup.members, plugins.answers, old(plugins.next), parent.show))
  {
    hide ParentKey.Valid, AllPlain, IsRollback, IsCompletion, MountTable, Tied, Plainly, Replay, CompletionActs, RollbackActs, ParentKey.Error;
    if ok {
      tail := Complete(db, left, parent, plugins, setup);
    } else {
      tail := RollBack(left, parent, plugins, setup);
    }
    last := plugins.next;
    u := Unlock(db.hasRecord, initial, plugins, setup);
  }

  /** Steps 7 to 12, or the rollback. */
  method Execute(db: Kdb, left: seq<Backend>, ks: PlainKeySet, parent: ParentKey, initial: ParentKey, plugins: Plugins,
                 ghost before: seq<Event>, ghost setup: Setup, ghost facts: Facts, ghost was: seq<nat>)
    returns (r: int, ghost run: Shape)
    requires Ready(left, parent) && initial.Valid() && initial.log == Fresh()
    requires parent != initial && parent.record != initial.record && parent.log.imposed.None?
    requires setup == Setup(Members(left), db.hasSpec, db.hasRecord) && Opened(before, setup.spec)
    requires facts == FactsOf(KeysOf(left), Names(left), db.hasSpec, plugins.answers, plugins.next)
    requires SizesFollow(left, false, plugins.answers, plugins.next, was)
    modifies db`allKeys, left`keys, left`storage, left`getSize, plugins`next
    modifies parent`name, parent`readOnlyName, parent`readOnlyValue, parent`log, parent.record
    modifies initial`log, initial.record`meta
    ensures parent.Valid() && !parent.log.blocked && !parent.readOnlyName && !parent.readOnlyValue
    ensures parent.name == initial.name && parent.record.value == initial.record.value
    ensures (r == 1 || r == -1) && run.before == before
    ensures IsRun(run, setup, db.notifications, r) && Follows(run.forward, FORWARD, setup, r == 1)
    ensures Executed(r, run.forward, run.after, setup, plugins, old(plugins.next), old(parent.Heard()), parent)
    ensures FactsHold(run.forward, facts)
    ensures SizesFollow(left, |run.forward| > 2 * |left|, plugins.answers, old(plugins.next), was)
    ensures db.allKeys == if r == 1 && old(db.allKeys).Some?
      then Some(Tracked(old(db.allKeys).value, initial.name, ks)) else old(db.allKeys)
  {
    hide ParentKey.Valid, AllPlain, Follows, IsRun, IsRollback, IsCompletion, Tracked, Plain, Lt, MountTable, Progress, Tied, Plainly, Replay,
         ForwardActs, EndingActs, CompletionActs, RollbackActs, Opened, ParentKey.Error, FactsHold, FactsOf, SizesFollow;
    ghost var from, first := plugins.next, parent.Heard();
    var ok, forward := Forward(db, left, parent, initial, plugins, setup, facts, was);
    ghost var mid, l := plugins.next, parent.Heard();
    r := if ok then 1 else -1;
    ghost var tail, u, last := Finish(ok, db, left, parent, initial, plugins, setup);
    if ok {
      CompletedRun(before, forward, tail, setup, db.notifications);
    } else {
      RolledBackRun(before, forward, tail, setup, db.notifications);
    }
    ExecutedParts(r, forward, tail, u, setup, plugins.answers, from, mid, last, plugins.next, first, l, parent.show);
    parent.Rename(initial.name, initial.record.value);
    if ok && db.allKeys.Some? {
      db.allKeys := Some(Tracked(db.allKeys.value, parent.name, ks));
    }
    run := Shape(before, forward, tail + u);
  }

  /** What a run with this plan takes from its keys, when its phases start at position `from` of the stream: the
      keys for the resolver phase and for the storage phase, and whether the second division succeeds. */
  function PlanFacts(plan: Plan, hasSpec: bool, answers: Script, from: nat): Facts {
    FactsOf(Openings(plan), plan.writing, hasSpec, answers, from)
  }

  /** How a run ends that uses the answers from `from` to `to`. The trace is a run of the protocol over the backends
      that are written; its calls are made exactly where the plugin has the function, with exactly these answers; the
      resolver and the storage phase get exactly the keys of the plan, and the second division succeeds exactly when
      all keys have a place. The run ends before the first phase exactly when a selected backend is not initialized or
      the spec hook fails; otherwise it returns 0 exactly when nothing is to be written. */
  predicate Ended(run: Shape, setup: Setup, plan: Plan, notifications: nat, r: int, answers: Script, from: nat, to: nat) {
    var aborted := plan.idle != [] || SpecCopied(ERROR) in run.before;
    -1 <= r <= 1 && IsRun(run, setup, notifications, r) && |setup.members| == |plan.writing| &&
    Tied(Trace(run), answers, from, to) &&
    FactsHold(run.forward, PlanFacts(plan, setup.spec, answers, from + Consumed(run.before))) &&
    (aborted ==> plan.writing == [] && plan.refused == []) && (r == -1 && run.forward == [] <==> aborted) &&
    |run.before| == (if plan.idle == [] && setup.spec then 1 else 0) &&
    (r == 0 <==> !aborted && plan.writing == [])
  }

  /** A run with acceptable arguments: it ends like that, the error record is what the run makes it, and what kdbGet
      left is updated exactly on success. */
  ghost predicate Settled(db: Kdb, parent: ParentKey, r: int, after: PlainKeySet, run: Shape, setup: Setup, plan: Plan,
                          was: Option<PlainKeySet>, plugins: Plugins, from: nat)
    reads db, parent, plugins
  {
    Ended(run, setup, plan, db.notifications, r, plugins.answers, from, plugins.next) &&
    setup.spec == db.hasSpec && setup.record == db.hasRecord && !parent.log.blocked &&
    parent.Heard() ==
      Replay(Fresh(), RunActs(run, setup, r, plan.idle, plan.refused, plugins.answers, from, parent.show)) &&
    db.allKeys == if r == 1 && was.Some? then Some(Tracked(was.value, parent.name, after)) else was
  }

  /** The opening and the phases put together. */
  lemma WentThrough(db: Kdb, parent: ParentKey, r: int, after: PlainKeySet, run: Shape, setup: Setup, plan: Plan, was: Option<PlainKeySet>,
                    plugins: Plugins, from: nat, mid: nat, first: Log<Report>)
    requires (r == 1 || r == -1) && IsRun(run, setup, db.notifications, r) && Follows(run.forward, FORWARD, setup, r == 1)
    requires setup.spec == db.hasSpec && setup.record == db.hasRecord && |setup.members| == |plan.writing|
    requires plan.writing != [] && plan.idle == []
    requires FactsHold(run.forward, PlanFacts(plan, setup.spec, plugins.answers, mid))
    requires Opened(run.before, setup.spec) && Tied(run.before, plugins.answers, from, mid)
    requires first == Replay(Fresh(), OpeningActs(Shape(run.before, [], []), plan.idle, plan.refused, plugins.answers, from, parent.show))
    requires Executed(r, run.forward, run.after, setup, plugins, mid, first, parent) && !parent.log.blocked
    requires db.allKeys == if r == 1 && was.Some? then Some(Tracked(was.value, parent.name, after)) else was
    ensures Settled(db, parent, r, after, run, setup, plan, was, plugins, from)
  {
    hide Follows, IsRun, Replay, Tracked, Plain, Answered, Consumed, ForwardActs, EndingActs, Plainly, EventsActs, IdleActs, RefusalActs,
         FactsHold, PlanFacts;
    ForwardHasEvents(run.forward, setup, r == 1);
    TiedConcat(run.before, run.forward + run.after, plugins.answers, from, mid, plugins.next);
    assert Trace(run) == run.before + (run.forward + run.after);
    var opening := OpeningActs(run, plan.idle, plan.refused, plugins.answers, from, parent.show);
    var rest := ForwardActs(run.forward, FORWARD, setup, plugins.answers, mid, parent.show) +
                EndingActs(run.after, r, setup.members, plugins.answers, mid + Consumed(run.forward), parent.show);
    ReplayConcat(Fresh(), opening, rest);
    assert RunActs(run, setup, r, plan.idle, plan.refused, plugins.answers, from, parent.show) == opening + rest;
  }

  /** Ending before the first phase: with the unlock hook after a failure, at once when there is nothing to do. */
  method EndEarly(start: Start, db: Kdb, parent: ParentKey, initial: ParentKey, plugins: Plugins,
                  ghost before: seq<Event>, ghost setup: Setup, ghost plan: Plan, ghost from: nat, ghost after: PlainKeySet)
    returns (r: int, ghost run: Shape)
    requires !start.Go? && parent.Valid() && !parent.log.blocked && initial.Valid()
    requires parent != initial && parent.record != initial.record
    requires setup.spec == db.hasSpec && setup.record == db.hasRecord && |setup.members| == |plan.writing|
    requires Prepared(start, before, setup.spec, plan, plugins, from, parent)
    modifies plugins`next, parent`name, parent.record`name, parent.record`value, initial`log, initial.record`meta
    ensures parent.Valid() && parent.name == initial.name && parent.record.value == initial.record.value
    ensures r == (if start.Abort? then -1 else 0) && run.before == before && run.forward == []
    ensures Settled(db, parent, r, after, run, setup, plan, db.allKeys, plugins, from)
  {
    hide ParentKey.Valid, Follows, IsRun, Replay, Tracked, Plain, Answered, Consumed, Plainly, EventsActs, IdleActs, RefusalActs, IsCompletion,
         IsRollback, FactsHold, PlanFacts;
    FactsStart(PlanFacts(plan, setup.spec, plugins.answers, from + Consumed(before)));
    EarlyRun(before, setup, db.notifications);
    ghost var u: seq<Event> := [];
    TiedNothing(plugins.answers, plugins.next);
    ghost var mid := plugins.next;
    if start.Abort? {
      u := Unlock(db.hasRecord, initial, plugins, setup);
    }
    parent.Rename(initial.name, initial.record.value);
    r, run := if start.Abort? then -1 else 0, Shape(before, [], u);
    TiedConcat(before, u, plugins.answers, from, mid, plugins.next);
    assert Trace(run) == before + u;
    assert OpeningActs(run, plan.idle, plan.refused, plugins.answers, from, parent.show) + [] ==
           OpeningActs(Shape(before, [], []), plan.idle, plan.refused, plugins.answers, from, parent.show);
  }

  /** The number of keys on record for a mountpoint after a run. */
  function SizeAfter(m: Mount, plan: Plan, run: Shape, answers: Script, from: nat): nat {
    var i, n := IndexOf(plan.writing, m.name), |plan.writing|;
    if i < 0 then m.getSize
    else NewSize(|run.forward| > 2 * n, m.name, |answers(from + Consumed(run.before) + n + i).keys|, m.getSize)
  }

  /** The mount table after a run: only the numbers of keys change. */
  predicate TableAfter(now: seq<Mount>, table: seq<Mount>, plan: Plan, run: Shape, answers: Script, from: nat) {
    |now| == |table| && forall j | 0 <= j < |table| :: now[j] == table[j].(getSize := SizeAfter(table[j], plan, run, answers, from))
  }

  /** Everything about a run with acceptable arguments over the mount table `table`, named `names`: how it ends, what it
      looked at and decided, what the table says afterwards, and the keys that the caller has then. */
  ghost predicate Concluded(db: Kdb, parent: ParentKey, r: int, ks: PlainKeySet, after: PlainKeySet, run: Shape, setup: Setup, plan: Plan,
                            names: seq<KeyName>, table: seq<Mount>, was: Option<PlainKeySet>, plugins: Plugins, from: nat)
    reads db, parent, plugins
  {
    Settled(db, parent, r, after, run, setup, plan, was, plugins, from) &&
    IsScope(plan, names, table, parent.name) && Enlisted(setup.members, plan.writing, table) &&
    (r != -1 || run.forward != [] ==> IsPlan(plan, table, after, was)) &&
    after == if run.before != [] then plugins.answers(from).keys else ks
  }

  /** The phases of a run that has something to write. */
  method GoThrough(db: Kdb, left: seq<Backend>, after: PlainKeySet, parent: ParentKey, initial: ParentKey, plugins: Plugins,
                   ghost before: seq<Event>, ghost setup: Setup, ghost plan: Plan, ghost from: nat)
    returns (r: int, ghost run: Shape)
    requires Ready(left, parent) && initial.Valid() && initial.log == Fresh() && parent.name == initial.name
    requires parent != initial && parent.record != initial.record && parent.log.imposed.None?
    requires setup == Setup(Members(left), db.hasSpec, db.hasRecord) && Prepared(Go, before, db.hasSpec, plan, plugins, from, parent)
    requires plan.writing == Names(left) && KeysOf(left) == Openings(plan)
    modifies db`allKeys, left`keys, left`storage, left`getSize, plugins`next
    modifies parent`name, parent`readOnlyName, parent`readOnlyValue, parent`log, parent.record
    modifies initial`log, initial.record`meta
    ensures parent.Valid() && !parent.readOnlyName && !parent.readOnlyValue
    ensures parent.name == initial.name && parent.record.value == initial.record.value
    ensures Settled(db, parent, r, after, run, setup, plan, old(db.allKeys), plugins, from)
    ensures run.before == before && run.forward != []
    ensures SizesFollow(left, |run.forward| > 2 * |left|, plugins.answers, from + Consumed(before), old(SizesOf(left)))
  {
    hide ParentKey.Valid, ParentKey.Heard, AllPlain, Plain, MountTable, Settled, Tracked, Executed, Replay, OpeningActs, IsRun, Follows, FactsHold,
         FactsOf, Openings, SizesFollow, Opened, Answered, Consumed;
    ghost var mid, first, was := plugins.next, parent.Heard(), SizesOf(left);
    ghost var facts := PlanFacts(plan, db.hasSpec, plugins.answers, mid);
    SizesStart(left, plugins.answers, mid);
    r, run := Execute(db, left, after, parent, initial, plugins, before, setup, facts, was);
    WentThrough(db, parent, r, after, run, setup, plan, old(db.allKeys), plugins, from, mid, first);
    ForwardHasEvents(run.forward, setup, r == 1);
  }

  lemma SizesStart(bs: seq<Backend>, answers: Script, from: nat)
    ensures SizesFollow(bs, false, answers, from, SizesOf(bs))
  {
  }

  /** kdbSet with arguments that are present and acceptable. */
  method SetChecked(db: Kdb, ks: PlainKeySet, parent: ParentKey, plugins: Plugins)
    returns (r: int, after: PlainKeySet, ghost run: Shape, ghost setup: Setup, ghost plan: Plan)
    requires Mounted(db.backends) && parent.Valid() && parent.log == Fresh()
    requires !parent.readOnlyName && !parent.readOnlyValue
    modifies db`allKeys, db.backends`keys, db.backends`storage, db.backends`getSize, plugins`next
    modifies parent`name, parent`readOnlyName, parent`readOnlyValue, parent`log, parent.record
    ensures parent.Valid() && !parent.readOnlyName && !parent.readOnlyValue
    ensures parent.name == old(parent.name) && parent.record.value == old(parent.record.value)
    ensures Concluded(db, parent, r, ks, after, run, setup, plan, Names(db.backends), old(Mounts(db.backends)), old(db.allKeys),
                      plugins, old(plugins.next))
    ensures TableAfter(Mounts(db.backends), old(Mounts(db.backends)), plan, run, plugins.answers, old(plugins.next))
  {
    hide ParentKey.Valid, ParentKey.Heard, AllPlain, Plain, IsScope, IsPlan, MountTable, Settled, Replay, Tied, OpeningActs, Enlisted, Openings, Mounts,
         SizesFollow, TableAfter, Prepared, Lists;
    ghost var table, from := Mounts(db.backends), plugins.next;
    var initial := new ParentKey(parent.name, parent.record.value, parent.show);
    var start, left;
    ghost var before;
    start, after, left, before, plan := Begin(db, ks, parent, plugins, table);
    setup := Setup(Members(left), db.hasSpec, db.hasRecord);
    PreparedPlan(start, before, db.hasSpec, plan, plugins, from, parent);
    if start.Go? {
      r, run := GoOn(db, left, after, parent, initial, plugins, before, setup, plan, from, table);
    } else {
      r, run := EndEarly(start, db, parent, initial, plugins, before, setup, plan, from, after);
      SizesSame(db.backends, table, plan, run, plugins.answers, from);
    }
  }

  lemma PreparedPlan(start: Start, before: seq<Event>, hasSpec: bool, plan: Plan, plugins: Plugins, from: nat, parent: ParentKey)
    requires Prepared(start, before, hasSpec, plan, plugins, from, parent)
    ensures !start.Go? ==> plan.writing == []
  {
  }

  lemma SizesSame(bs: seq<Backend>, table: seq<Mount>, plan: Plan, run: Shape, answers: Script, from: nat)
    requires Lists(table, bs) && plan.writing == []
    ensures TableAfter(Mounts(bs), table, plan, run, answers, from)
  {
  }

  /** The table agrees with the backends, save the numbers of keys of some of them. */
  ghost predicate Agrees(table: seq<Mount>, bs: seq<Backend>, left: seq<Backend>)
    reads bs`getSize, bs`readOnly, bs`initialized
  {
    |table| == |bs| && forall j | 0 <= j < |bs| ::
      table[j] == Mount(bs[j].name, MemberOf(bs[j]), if bs[j] in left then table[j].getSize else bs[j].getSize, bs[j].readOnly, bs[j].initialized)
  }

  /** The old numbers of the written backends are those of the table. */
  predicate OldSizes(table: seq<Mount>, bs: seq<Backend>, left: seq<Backend>, was: seq<nat>) {
    |table| == |bs| && |was| == |left| &&
    forall j, i | 0 <= j < |bs| && 0 <= i < |left| && left[i] == bs[j] :: was[i] == table[j].getSize
  }

  /** The phases, and the numbers of keys after them. */
  method GoOn(db: Kdb, left: seq<Backend>, after: PlainKeySet, parent: ParentKey, initial: ParentKey, plugins: Plugins,
              ghost before: seq<Event>, ghost setup: Setup, ghost plan: Plan, ghost from: nat, ghost table: seq<Mount>)
    returns (r: int, ghost run: Shape)
    requires Ready(left, parent) && initial.Valid() && initial.log == Fresh() && parent.name == initial.name
    requires parent != initial && parent.record != initial.record && parent.log.imposed.None?
    requires setup == Setup(Members(left), db.hasSpec, db.hasRecord) && Prepared(Go, before, db.hasSpec, plan, plugins, from, parent)
    requires plan.writing == Names(left) && KeysOf(left) == Openings(plan)
    requires Mounted(db.backends) && Lists(table, db.backends) && forall i | 0 <= i < |left| :: left[i] in db.backends
    modifies db`allKeys, left`keys, left`storage, left`getSize, plugins`next
    modifies parent`name, parent`readOnlyName, parent`readOnlyValue, parent`log, parent.record
    modifies initial`log, initial.record`meta
    ensures parent.Valid() && !parent.readOnlyName && !parent.readOnlyValue
    ensures parent.name == initial.name && parent.record.value == initial.record.value
    ensures Settled(db, parent, r, after, run, setup, plan, old(db.allKeys), plugins, from)
    ensures run.before == before && run.forward != []
    ensures TableAfter(Mounts(db.backends), table, plan, run, plugins.answers, from)
  {
    hide Ready, ParentKey.Valid, ParentKey.Heard, MountTable, Settled, Prepared, Openings, SizesFollow, TableAfter, Mounts, MemberOf, NewSize,
         Names, SizeAfter;
    ghost var was := SizesOf(left);
    assert OldSizes(table, db.backends, left, was);
    r, run := GoThrough(db, left, after, parent, initial, plugins, before, setup, plan, from);
    assert Agrees(table, db.backends, left);
    ReadyMounted(left, parent);
    SizesInTable(db.backends, left, table, plan, run, plugins.answers, from, was);
  }

  lemma ReadyMounted(bs: seq<Backend>, parent: ParentKey)
    ensures Ready(bs, parent) ==> Mounted(bs)
  {
  }

  /** The written backends have their new numbers, all others the old ones. */
  lemma SizesInTable(bs: seq<Backend>, left: seq<Backend>, table: seq<Mount>, plan: Plan, run: Shape, answers: Script, from: nat, was: seq<nat>)
    requires Mounted(bs) && plan.writing == Names(left) && forall i | 0 <= i < |left| :: left[i] in bs
    requires Agrees(table, bs, left) && OldSizes(table, bs, left, was)
    requires SizesFollow(left, |run.forward| > 2 * |left|, answers, from + Consumed(run.before), was)
    ensures TableAfter(Mounts(bs), table, plan, run, answers, from)
  {
    hide MountTable, Consumed, SizeAfter, SizesFollow, Agrees, OldSizes;
    AgreesLength(table, bs, left);
    forall j | 0 <= j < |table| ensures Mounts(bs)[j] == table[j].(getSize := SizeAfter(table[j], plan, run, answers, from)) {
      SizeInTable(bs, left, table, plan, run, answers, from, was, j);
    }
  }

  lemma AgreesLength(table: seq<Mount>, bs: seq<Backend>, left: seq<Backend>)
    requires Agrees(table, bs, left)
    ensures |table| == |bs|
  {
  }

  lemma SizeInTable(bs: seq<Backend>, left: seq<Backend>, table: seq<Mount>, plan: Plan, run: Shape, answers: Script, from: nat, was: seq<nat>,
                    j: nat)
    requires Mounted(bs) && plan.writing == Names(left) && (forall i | 0 <= i < |left| :: left[i] in bs) && j < |bs|
    requires Agrees(table, bs, left) && OldSizes(table, bs, left, was)
    requires SizesFollow(left, |run.forward| > 2 * |left|, answers, from + Consumed(run.before), was)
    ensures j < |table| && Mounts(bs)[j] == table[j].(getSize := SizeAfter(table[j], plan, run, answers, from))
  {
    hide Mounted, Consumed, SizesFollow, Agrees, OldSizes, IndexOf, NewSize, Lists, Mounts, Names;
    MountAgrees(table, bs, left, j);
    WrittenIndex(bs, left, j);
    var i := IndexOf(plan.writing, bs[j].name);
    if i >= 0 { SizeFollows(left, |run.forward| > 2 * |left|, answers, from + Consumed(run.before), was, i, bs, table, j); }
  }

  lemma MountAgrees(table: seq<Mount>, bs: seq<Backend>, left: seq<Backend>, j: nat)
    requires Agrees(table, bs, left) && j < |bs|
    ensures j < |table| && |Mounts(bs)| == |bs| && table[j].name == bs[j].name && Mounts(bs)[j] == table[j].(getSize := bs[j].getSize)
    ensures bs[j] !in left ==> bs[j].getSize == table[j].getSize
  {
  }

  lemma SizeFollows(left: seq<Backend>, merged: bool, answers: Script, from: nat, was: seq<nat>, i: nat, bs: seq<Backend>, table: seq<Mount>, j: nat)
    requires SizesFollow(left, merged, answers, from, was) && OldSizes(table, bs, left, was)
    requires i < |left| && j < |bs| && left[i] == bs[j]
    ensures j < |table| && bs[j].getSize == NewSize(merged, bs[j].name, |answers(from + |left| + i).keys|, table[j].getSize)
  {
    hide NewSize;
  }

  /** A backend is written exactly when its mountpoint is. */
  lemma WrittenIndex(bs: seq<Backend>, left: seq<Backend>, j: nat)
    requires Mounted(bs) && (forall i | 0 <= i < |left| :: left[i] in bs) && j < |bs|
    ensures |Names(left)| == |left|
    ensures var i := IndexOf(Names(left), bs[j].name);
            if i >= 0 then left[i] == bs[j] else bs[j] !in left
  {
    hide Mounted;
    var i := IndexOf(Names(left), bs[j].name);
    if i >= 0 { SameBackend(bs, j, left[i]); }
  }

  /** Arguments that kdbSet turns down with an error on the parent key. */
  predicate Unacceptable(db: Kdb?, ks: Option<PlainKeySet>, parent: ParentKey)
    reads parent
  {
    parent.readOnlyName || parent.readOnlyValue || parent.name.ns == Meta || db == null || ks.None?
  }

  /** Step 0: clear the record, then check the arguments. */
  method CheckArguments(db: Kdb?, ks: Option<PlainKeySet>, parent: ParentKey) returns (ok: bool)
    requires !parent.readOnlyMeta && parent.record.name == parent.show(parent.name)
    modifies parent`log, parent.record`meta
    ensures parent.Valid() && ok == !Unacceptable(db, ks, parent)
    ensures ok <==> !parent.readOnlyName && !parent.readOnlyValue && parent.name.ns != Meta && db != null && ks.Some?
    ensures parent.log.warnings == [] && parent.log.imposed.None? && !parent.log.blocked
    ensures parent.log.reported == [] <==> ok
    ensures !ok ==> parent.Error().Stored? && parent.Error().entry.number == "C01320"
    ensures ok || parent.Error().entry.reason == (
      if parent.readOnlyName then "parentKey with read-only name passed"
      else if parent.readOnlyValue then "parentKey with read-only value passed"
      else if parent.name.ns == Meta then "parentKey with meta:/ name passed"
      else if db == null then "NULL pointer passed for handle"
      else "NULL pointer passed for KeySet")
  {
    hide ParentKey.Valid, Plainly;
    parent.ClearRecord();
    ok := false;
    if parent.readOnlyName {
      parent.SetError(Interface("2366", "parentKey with read-only name passed"));
    } else if parent.readOnlyValue {
      parent.SetError(Interface("2373", "parentKey with read-only value passed"));
    } else if parent.name.ns == Meta {
      parent.SetError(Interface("2380", "parentKey with meta:/ name passed"));
    } else if db == null {
      parent.SetError(Interface("2386", "NULL pointer passed for handle"));
    } else if ks.None? {
      parent.SetError(Interface("2392", "NULL pointer passed for KeySet"));
    } else {
      ok := true;
    }
  }

  /** kdbSet. Only a parent key that is missing or has read-only metadata makes it fail without a trace;
      other unacceptable arguments leave an error and call nothing. Otherwise the run is `Concluded`. The backends stay
      mounted as they are, and of the facts about them only the numbers of keys change. */
  method Set(db: Kdb?, ks: Option<PlainKeySet>, parent: ParentKey?, plugins: Plugins)
    returns (r: int, after: Option<PlainKeySet>, ghost run: Shape, ghost setup: Setup, ghost plan: Plan)
    requires db != null ==> Mounted(db.backends)
    requires parent != null ==> parent.record.name == parent.show(parent.name)
    modifies db, if db == null then [] else db.backends, plugins
    modifies parent, if parent == null then {} else {parent.record}
    ensures after.Some? == ks.Some?
    ensures db != null ==> db.backends == old(db.backends)
    ensures parent != null ==> parent.readOnlyName == old(parent.readOnlyName) && parent.readOnlyMeta == old(parent.readOnlyMeta)
    ensures parent != null ==> parent.readOnlyValue == old(parent.readOnlyValue)
    ensures parent != null ==> (old(Unacceptable(db, ks, parent)) <==>
      old(parent.readOnlyName) || old(parent.readOnlyValue) || old(parent.name.ns) == Meta || db == null || ks.None?)
    ensures parent == null || old(parent.readOnlyMeta) || old(Unacceptable(db, ks, parent)) ==>
      r == -1 && Trace(run) == [] && plugins.next == old(plugins.next) &&
      (db != null ==> db.allKeys == old(db.allKeys) && Mounts(db.backends) == old(Mounts(db.backends)))
    ensures parent != null && old(parent.readOnlyMeta) ==> parent.record.meta == old(parent.record.meta)
    ensures parent != null ==> parent.name == old(parent.name) && parent.record.value == old(parent.record.value)
    ensures parent != null && !old(parent.readOnlyMeta) ==> parent.Valid()
    ensures parent != null && !old(parent.readOnlyMeta) && old(Unacceptable(db, ks, parent)) ==>
      parent.Error().Stored? && parent.log.warnings == []
    ensures parent != null && !old(parent.readOnlyMeta) && !old(Unacceptable(db, ks, parent)) ==>
      Concluded(db, parent, r, ks.value, after.value, run, setup, plan, old(Names(db.backends)), old(Mounts(db.backends)), old(db.allKeys),
                plugins, old(plugins.next)) &&
      TableAfter(Mounts(db.backends), old(Mounts(db.backends)), plan, run, plugins.answers, old(plugins.next))
  {
    hide ParentKey.Valid, Plain, MountTable, Concluded, Plainly, TableAfter, Mounts, Lists;
    r, after, run, setup, plan := -1, ks, Shape([], [], []), Setup([], false, false), Plan([], [], [], [], []);
    if parent == null || parent.readOnlyMeta {
      return;
    }
    var ok := CheckArguments(db, ks, parent);
    if ok {
      var keys;
      r, keys, run, setup, plan := SetChecked(db, ks.value, parent, plugins);
      after := Some(keys);
    }
  }

  /** What a settled run says about its error: on failure the first error stands to the end, unless a failed lock
      reported one of its own; and there is none exactly when a hook failed while nobody reported an error. */
  lemma SettledError(db: Kdb, parent: ParentKey, r: int, after: PlainKeySet, run: Shape, setup: Setup, plan: Plan,
                     was: Option<PlainKeySet>, plugins: Plugins, from: nat)
    requires Settled(db, parent, r, after, run, setup, plan, was, plugins, from) && r == -1
    ensures var said := SaidActs(run, setup, plan.idle, plan.refused, plugins.answers, from, parent.show);
            var lock := LockError(run.forward, plugins.answers, from + Consumed(run.before));
            Standing(parent.Heard()) == if lock.Stored? then lock else FirstOf(ErrorsIn(said))
    ensures parent.Error().Clear? <==>
            plan.idle == [] && HookFailed(run.before + run.forward) && Quiet(run.before + run.forward, plugins.answers, from)
  {
    hide IsRun, Replay, RunActs, SaidActs, LockError, Quiet, HookFailed, Tied, Tracked, Plain, Plainly;
    FirstErrorSurvives(run, setup, db.notifications, r, plan.idle, plan.refused, plugins.answers, from, parent.show);
    SilentFailure(run, setup, db.notifications, plan.idle, plan.refused, plugins.answers, from, parent.show);
    StandingPlainly(parent.log);
  }

  /** A run succeeds exactly when all selected backends are initialized, the spec hook does not fail, something is to be
      written, and then: in every phase up to the commit every written backend has the function and answers with
      success or no update, no hook fails, and the keys left by the pre-storage phase can be divided again. */
  lemma SettledSuccess(db: Kdb, parent: ParentKey, r: int, after: PlainKeySet, run: Shape, setup: Setup, plan: Plan,
                       was: Option<PlainKeySet>, plugins: Plugins, from: nat)
    requires Settled(db, parent, r, after, run, setup, plan, was, plugins, from)
    ensures var mid := from + Consumed(run.before);
            r == 1 <==> plan.idle == [] && SpecCopied(ERROR) !in run.before && plan.writing != [] &&
                        StagesGood(FORWARD, setup, plugins.answers, mid, PlanFacts(plan, setup.spec, plugins.answers, mid).placed)
  {
    hide Replay, RunActs, Tied, Tracked, Plain, Plainly, StagesGood, PlanFacts, Follows, IsCompletion, IsRollback, Consumed;
    if run.forward == [] {
      if r == 1 { ForwardHasEvents(run.forward, setup, true); }
    } else {
      var placed := PlanFacts(plan, setup.spec, plugins.answers, from + Consumed(run.before)).placed;
      SuccessIff(run, setup, db.notifications, r, plugins.answers, from, plugins.next, placed);
    }
  }

  // ----- nothing is lost

  /** The full mount table and the facts about it belong together. */
  predicate Describes(table: seq<Mount>, names: seq<KeyName>) {
    |table| == |names| && forall j | 0 <= j < |table| :: table[j].name == names[j]
  }

  /** The key lies in a mountpoint inside a mounted default:/, which does not get its keys. */
  predicate Inner(names: seq<KeyName>, n: KeyName, o: nat)
    requires o < |names|
  {
    n.ns == Default && DefaultRoot in names && names[o] != DefaultRoot
  }

  /** What the owner of a key under the parent sees of it: the caller's key, but nothing inside a mounted default:/. */
  lemma {:induction false} OwnerSees(plan: Plan, names: seq<KeyName>, table: seq<Mount>, parent: KeyName, ks: KeySet, allKeys: Option<KeySet>,
                                     n: KeyName, o: nat) returns (p: nat)
    requires MountTable(names) && IsScope(plan, names, table, parent) && IsPlan(plan, table, ks, allKeys)
    requires UnderParent(parent, n) && n.ns != Cascading && (n.ns != Meta || parent.ns == Meta) && o < |names| && IsOwner(names, n, o)
    ensures p < |plan.selected| && plan.selected[p] == names[o] && Exposed(plan.selected, names[o], n)
    ensures Get(Share(plan.selected, plan.input, p), n) == if Inner(names, n, o) then None else Get(ks, n)
  {
    hide MountTable, Lt, OwnerOf;
    p := OwnerIn(plan.selected, names, parent, n, o);
    ExposedIsOwned(plan.selected, p, n);
    var share := Share(plan.selected, plan.input, p);
    PortionGet(plan.selected, plan.input, p, share, n);
    DefaultSelected(names, parent, plan.selected);
    TargetOfOwned(plan.selected, n, p);
    assert Covered(plan.selected, n) by { assert plan.selected[p] in plan.selected; }
  }

  /** The owner of a key under the parent, in the selection. */
  lemma OwnerIn(selected: seq<KeyName>, names: seq<KeyName>, parent: KeyName, n: KeyName, o: nat) returns (p: nat)
    requires MountTable(names) && MountTable(selected) && NamesSelected(names, parent, selected)
    requires UnderParent(parent, n) && n.ns != Cascading && (n.ns != Meta || parent.ns == Meta) && o < |names| && IsOwner(names, n, o)
    ensures p < |selected| && selected[p] == names[o] && IsOwner(selected, n, p) && OwnerOf(selected, n) == p
  {
    hide MountTable, Lt, OwnerOf;
    OwnerOfCorrect(names, n);
    OwnerUnique(names, n, o, OwnerOf(names, n));
    SelectionKeepsOwners(names, parent, selected, n);
    p := OwnerOf(selected, n);
    OwnerOfCorrect(selected, n);
  }

  lemma DefaultSelected(names: seq<KeyName>, parent: KeyName, selected: seq<KeyName>)
    requires NamesSelected(names, parent, selected)
    ensures DefaultRoot in names <==> DefaultRoot in selected
  {
  }

  lemma TargetOfOwned(names: seq<KeyName>, n: KeyName, p: nat)
    requires MountTable(names) && p < |names| && OwnerOf(names, n) == p
    ensures Target(names, n) == p <==> !Inner(names, n, p)
  {
    hide Lt;
    var d := DefaultIndex(names);
    if d >= 0 { LtIrreflexive(names[d]); }
    if DefaultRoot in names { assert d >= 0; }
  }

  /** Every key under the parent that differs from what kdbGet left has its backend written, unless that backend is
      read-only. New keys of a mountpoint inside a mounted default:/ are not seen. */
  lemma {:induction false} NothingLost(plan: Plan, names: seq<KeyName>, table: seq<Mount>, parent: KeyName, ks: KeySet, all: KeySet,
                                       n: KeyName, o: nat)
    requires MountTable(names) && Describes(table, names)
    requires IsScope(plan, names, table, parent) && IsPlan(plan, table, ks, Some(all))
    requires UnderParent(parent, n) && n.ns != Cascading && (n.ns != Meta || parent.ns == Meta) && o < |names| && IsOwner(names, n, o)
    requires !SameOption(Get(all, n), Get(ks, n)) && (Inner(names, n, o) ==> Get(all, n).Some?)
    ensures names[o] in plan.writing || table[o].readOnly
  {
    hide MountTable, Chosen, Lt;
    var p := OwnerSees(plan, names, table, parent, ks, Some(all), n, o);
    var share := Share(plan.selected, plan.input, p);
    assert Differs(plan.selected, plan.selected[p], share, Some(all));
    assert Decided(plan, table[o], p, Some(all));
  }

  /** A selected mountpoint is written exactly when it is writable and either what it owns differs from what kdbGet left or
      the number of keys is not the one on record. */
  lemma WrittenIff(plan: Plan, names: seq<KeyName>, table: seq<Mount>, parent: KeyName, ks: KeySet, all: KeySet, j: nat, p: nat)
    requires IsScope(plan, names, table, parent) && IsPlan(plan, table, ks, Some(all))
    requires j < |table| && p < |plan.selected| && table[j].name == plan.selected[p]
    ensures var share := Share(plan.selected, plan.input, p);
            var differs := exists n :: IsOwner(plan.selected, n, p) && !SameOption(Get(all, n), Get(share, n));
            (table[j].name in plan.writing <==> !table[j].readOnly && (differs || table[j].getSize != |share|)) &&
            (table[j].name in plan.refused <==> table[j].readOnly && (differs || table[j].getSize != |share|))
  {
    hide MountTable, NamesSelected, IsCollected, Share, SameOption;
    var share := Share(plan.selected, plan.input, p);
    assert Decided(plan, table[j], p, Some(all));
    forall n ensures Exposed(plan.selected, plan.selected[p], n) <==> IsOwner(plan.selected, n, p) { ExposedIsOwned(plan.selected, p, n); }
  }

  /** Without a record of kdbGet only the number of keys counts. */
  lemma WrittenWithoutRecord(plan: Plan, names: seq<KeyName>, table: seq<Mount>, parent: KeyName, ks: KeySet, j: nat, p: nat)
    requires IsScope(plan, names, table, parent) && IsPlan(plan, table, ks, None)
    requires j < |table| && p < |plan.selected| && table[j].name == plan.selected[p]
    ensures table[j].name in plan.writing <==> !table[j].readOnly && table[j].getSize != |Share(plan.selected, plan.input, p)|
  {
    hide MountTable, NamesSelected, IsCollected, Share;
    assert Decided(plan, table[j], p, None);
  }

  lemma HasMember(ks: KeySet)
    ensures ks != [] ==> exists k :: k in ks
  {
    if ks != [] { assert ks[0] in ks; }
  }

  /** A new key inside a mounted default:/ is lost: its mountpoint counts as unchanged. */
  lemma LostDefaultExample()
    ensures exists names: seq<KeyName>, input: KeySet, n: KeyName ::
      MountTable(names) && |names| == 2 && IsOwner(names, n, 1) && Inner(names, n, 1) && Get(input, n).Some? &&
      !Changed(names, names[1], Share(names, input, 1), 0, Some([]))
  {
    hide Lt, Portion;
    var inner: KeyName, n: KeyName := RawName(Default, [[97]]), RawName(Default, [[97], [98]]);
    var names := [DefaultRoot, inner];
    assert Lt(DefaultRoot, inner) by { LtIsPartOrder(DefaultRoot, inner); }
    var input: KeySet := [Key(n, None, [])];
    GetAt(input, 0);
    var share := Share(names, input, 1);
    OwnerOfCorrect(names, n);
    OwnerUnique(names, n, 1, OwnerOf(names, n));
    TargetOfOwned(names, n, 1);
    forall k ensures k !in share { PortionMembers(names, input, |input|, 1, k); }
    HasMember(share);
    assert forall m :: Get(share, m).None? && Get([], m).None?;
    assert !Changed(names, names[1], share, 0, Some([]));
  }
}
