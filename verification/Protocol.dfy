/** The phases of kdbSet as a protocol over traces of backend calls. */
module Protocol {
  import opened KeyNames
  import opened KeySets

  datatype Phase =
    | Resolver | PreStorage | Storage | PostStorage | PreCommit | Commit | PostCommit
    | PreRollback | Rollback | PostRollback

  /** The functions of a backend plugin: kdbSet, kdbCommit and kdbError. */
  datatype SetFunction = SetFn | CommitFn | ErrorFn

  /** Which function serves which phase. */
  function FunctionOf(p: Phase): SetFunction {
    match p
    case Resolver | PreStorage | Storage | PostStorage => SetFn
    case PreCommit | Commit | PostCommit => CommitFn
    case PreRollback | Rollback | PostRollback => ErrorFn
  }

  /** A backend without the needed function is not called; that is a failure of its own. */
  datatype Outcome = NoFunction | Returned(code: int)

  datatype Event =
    | Call(phase: Phase, fn: SetFunction, backend: KeyName, given: KeySet, outcome: Outcome)
    | SpecCopied(code: int)
    | SpecRemoved(code: int)
    | Redivided(ok: bool)
    | Locked(code: int)
    | Unlocked
    | Notified
    | Recorded

  /** ELEKTRA_PLUGIN_STATUS_SUCCESS and ELEKTRA_PLUGIN_STATUS_NO_UPDATE; any other code counts as failed. */
  predicate Succeeded(o: Outcome) {
    o == Returned(1) || o == Returned(0)
  }

  const ERROR := -1

  /** The steps from the resolver phase to the commit phase; each of them can lead to the rollback. */
  datatype Stage = Run(phase: Phase) | RemoveSpec | Redivide | TakeLock

  const FORWARD: seq<Stage> := [
    Run(Resolver), Run(PreStorage), RemoveSpec, Redivide, TakeLock,
    Run(Storage), Run(PostStorage), Run(PreCommit), Run(Commit)]

  /** A backend that takes part, and the functions that its plugin has. */
  datatype Member = Member(name: KeyName, hasSet: bool, hasCommit: bool, hasError: bool)

  predicate Offers(m: Member, fn: SetFunction) {
    match fn
    case SetFn => m.hasSet
    case CommitFn => m.hasCommit
    case ErrorFn => m.hasError
  }

  /** The backends that take part and the hooks that are installed. */
  datatype Setup = Setup(members: seq<Member>, spec: bool, record: bool)

  /** An attempt to call a backend in a phase: it is called exactly when its plugin has the function. */
  predicate IsAttempt(e: Event, phase: Phase, m: Member) {
    e.Call? && e.phase == phase && e.fn == FunctionOf(phase) && e.backend == m.name &&
    (e.outcome.NoFunction? <==> !Offers(m, FunctionOf(phase)))
  }

  /** One attempt per backend, in order. */
  predicate IsPhaseRun(t: seq<Event>, phase: Phase, members: seq<Member>) {
    |t| == |members| && forall i | 0 <= i < |t| :: IsAttempt(t[i], phase, members[i])
  }

  predicate AllSucceeded(t: seq<Event>) {
    forall i | 0 <= i < |t| :: t[i].Call? ==> Succeeded(t[i].outcome)
  }

  function StageLength(s: Stage, setup: Setup): nat {
    match s
    case Run(_) => |setup.members|
    case RemoveSpec => if setup.spec then 1 else 0
    case Redivide => 1
    case TakeLock => if setup.record then 1 else 0
  }

  predicate StageTrace(s: Stage, t: seq<Event>, setup: Setup) {
    |t| == StageLength(s, setup) &&
    match s
    case Run(phase) => IsPhaseRun(t, phase, setup.members)
    case RemoveSpec => forall i | 0 <= i < |t| :: t[i].SpecRemoved?
    case Redivide => t[0].Redivided?
    case TakeLock => forall i | 0 <= i < |t| :: t[i].Locked?
  }

  predicate StageOk(s: Stage, t: seq<Event>, setup: Setup)
    requires StageTrace(s, t, setup)
  {
    match s
    case Run(_) => AllSucceeded(t)
    case RemoveSpec => forall i | 0 <= i < |t| :: t[i].code != ERROR
    case Redivide => t[0].ok
    case TakeLock => forall i | 0 <= i < |t| :: t[i].code != ERROR
  }

  /** The stages are taken in order; the first one that fails is the last one. */
  predicate Follows(t: seq<Event>, stages: seq<Stage>, setup: Setup, ok: bool)
    decreases |stages|
  {
    if stages == [] then ok && t == []
    else
      var k := StageLength(stages[0], setup);
      k <= |t| && StageTrace(stages[0], t[..k], setup) &&
      if StageOk(stages[0], t[..k], setup) then Follows(t[k..], stages[1..], setup, ok) else !ok && k == |t|
  }

  lemma FollowsLast(u: seq<Event>, s: Stage, rest: seq<Stage>, setup: Setup)
    requires StageTrace(s, u, setup)
    ensures StageOk(s, u, setup) ==> Follows(u, [s], setup, true)
    ensures !StageOk(s, u, setup) ==> Follows(u, [s] + rest, setup, false)
  {
    hide IsPhaseRun, AllSucceeded, StageOk;
    assert u[..|u|] == u && u[|u|..] == [];
    assert [s][1..] == [] && ([s] + rest)[0] == s;
  }

  lemma FollowsOn(t: seq<Event>, stages: seq<Stage>, setup: Setup)
    requires stages != [] && Follows(t, stages, setup, true)
    ensures var k := StageLength(stages[0], setup); k <= |t| && Follows(t[k..], stages[1..], setup, true)
  {
    hide StageTrace, StageOk, StageLength;
  }

  lemma FollowsCases(t: seq<Event>, stages: seq<Stage>, setup: Setup, ok: bool)
    requires stages != [] && Follows(t, stages, setup, ok)
    ensures var k := StageLength(stages[0], setup);
            k <= |t| && StageTrace(stages[0], t[..k], setup) &&
            (StageOk(stages[0], t[..k], setup) ==> Follows(t[k..], stages[1..], setup, ok)) &&
            (!StageOk(stages[0], t[..k], setup) ==> !ok && t[k..] == [] && t[..k] == t)
  {
    hide StageTrace, StageOk, StageLength;
  }

  lemma FollowsEnd(t: seq<Event>, setup: Setup, ok: bool)
    requires Follows(t, [], setup, ok)
    ensures t == [] && ok
  {
  }

  lemma FollowsFirst(t: seq<Event>, stages: seq<Stage>, setup: Setup, ok: bool)
    requires stages != [] && StageLength(stages[0], setup) <= |t|
    requires var k := StageLength(stages[0], setup);
             StageTrace(stages[0], t[..k], setup) && StageOk(stages[0], t[..k], setup) && Follows(t[k..], stages[1..], setup, ok)
    ensures Follows(t, stages, setup, ok)
  {
    hide StageTrace, StageOk, StageLength;
  }

  /** After a successful prefix, one more stage either extends it or ends the run. */
  lemma {:induction false} FollowsExtend(t: seq<Event>, done: seq<Stage>, u: seq<Event>, s: Stage, rest: seq<Stage>, setup: Setup)
    requires Follows(t, done, setup, true) && StageTrace(s, u, setup)
    ensures StageOk(s, u, setup) ==> Follows(t + u, done + [s], setup, true)
    ensures !StageOk(s, u, setup) ==> Follows(t + u, done + [s] + rest, setup, false)
    decreases |done|
  {
    hide StageTrace, StageLength, StageOk, Follows;
    if done == [] {
      FollowsEnd(t, setup, true);
      assert t + u == u && done + [s] == [s];
      FollowsLast(u, s, rest, setup);
    } else {
      FollowsCases(t, done, setup, true);
      var k := StageLength(done[0], setup);
      FollowsExtend(t[k..], done[1..], u, s, rest, setup);
      assert (t + u)[..k] == t[..k] && (t + u)[k..] == t[k..] + u;
      assert (done + [s])[1..] == done[1..] + [s] && (done + [s])[0] == done[0];
      assert (done + [s] + rest)[1..] == done[1..] + [s] + rest && (done + [s] + rest)[0] == done[0];
      if StageOk(s, u, setup) {
        FollowsFirst(t + u, done + [s], setup, true);
      } else {
        FollowsFirst(t + u, done + [s] + rest, setup, false);
      }
    }
  }

  /** The first `k` stages were taken and succeeded. */
  predicate Reached(t: seq<Event>, k: nat, setup: Setup) {
    k <= |FORWARD| && Follows(t, FORWARD[..k], setup, true)
  }

  predicate Failed(t: seq<Event>, setup: Setup) {
    Follows(t, FORWARD, setup, false)
  }

  lemma Advance(t: seq<Event>, k: nat, u: seq<Event>, setup: Setup)
    requires k < |FORWARD| && Reached(t, k, setup) && StageTrace(FORWARD[k], u, setup)
    ensures StageOk(FORWARD[k], u, setup) ==> Reached(t + u, k + 1, setup)
    ensures !StageOk(FORWARD[k], u, setup) ==> Failed(t + u, setup)
  {
    hide Follows, StageTrace, StageOk;
    FollowsExtend(t, FORWARD[..k], u, FORWARD[k], FORWARD[k + 1..], setup);
    assert FORWARD[..k] + [FORWARD[k]] == FORWARD[..k + 1];
    assert FORWARD[..k + 1] + FORWARD[k + 1..] == FORWARD;
  }

  lemma Begun(setup: Setup)
    ensures Reached([], 0, setup)
  {
  }

  lemma Finished(t: seq<Event>, setup: Setup)
    requires Reached(t, |FORWARD|, setup)
    ensures Follows(t, FORWARD, setup, true)
  {
    hide Follows;
    assert FORWARD[..|FORWARD|] == FORWARD;
  }

  // ----- what a trace says about each phase

  /** The events that pass a test, in order. */
  function Select(t: seq<Event>, f: Event -> bool): seq<Event> {
    if t == [] then []
    else if f(t[0]) then [t[0]] + Select(t[1..], f)
    else Select(t[1..], f)
  }

  lemma {:induction false} SelectConcat(t: seq<Event>, u: seq<Event>, f: Event -> bool)
    ensures Select(t + u, f) == Select(t, f) + Select(u, f)
  {
    if t == [] {
      assert t + u == u;
    } else {
      assert (t + u)[1..] == t[1..] + u;
      SelectConcat(t[1..], u, f);
    }
  }

  lemma {:induction false} SelectAll(t: seq<Event>, f: Event -> bool)
    requires forall i | 0 <= i < |t| :: f(t[i])
    ensures Select(t, f) == t
  {
    if t != [] {
      SelectAll(t[1..], f);
      assert t == [t[0]] + t[1..];
    }
  }

  lemma {:induction false} SelectNone(t: seq<Event>, f: Event -> bool)
    requires forall i | 0 <= i < |t| :: !f(t[i])
    ensures Select(t, f) == []
  {
    if t != [] { SelectNone(t[1..], f); }
  }

  function OfPhase(phase: Phase): Event -> bool {
    (e: Event) => e.Call? && e.phase == phase
  }

  function CallsOf(t: seq<Event>, phase: Phase): seq<Event> {
    Select(t, OfPhase(phase))
  }

  lemma CallsOfConcat(t: seq<Event>, u: seq<Event>, phase: Phase)
    ensures CallsOf(t + u, phase) == CallsOf(t, phase) + CallsOf(u, phase)
  {
    SelectConcat(t, u, OfPhase(phase));
  }

  lemma StageCalls(s: Stage, t: seq<Event>, setup: Setup, phase: Phase)
    requires StageTrace(s, t, setup)
    ensures CallsOf(t, phase) == if s == Run(phase) then t else []
  {
    if s == Run(phase) {
      SelectAll(t, OfPhase(phase));
    } else {
      SelectNone(t, OfPhase(phase));
    }
  }

  /** No calls of a phase that is not among the stages. */
  lemma {:induction false} NoOtherCalls(t: seq<Event>, stages: seq<Stage>, setup: Setup, ok: bool, phase: Phase)
    requires Follows(t, stages, setup, ok) && Run(phase) !in stages
    ensures CallsOf(t, phase) == []
    decreases |stages|
  {
    if stages != [] {
      var k := StageLength(stages[0], setup);
      StageCalls(stages[0], t[..k], setup, phase);
      assert t == t[..k] + t[k..];
      CallsOfConcat(t[..k], t[k..], phase);
      if StageOk(stages[0], t[..k], setup) {
        NoOtherCalls(t[k..], stages[1..], setup, ok, phase);
      } else {
        assert t[k..] == [];
      }
    }
  }

  predicate PhasesDistinct(stages: seq<Stage>) {
    forall i, j | 0 <= i < j < |stages| :: stages[i] != stages[j]
  }

  /** A phase is either not reached or attempted exactly once per backend, in order. */
  lemma {:induction false} PhaseOnce(t: seq<Event>, stages: seq<Stage>, setup: Setup, ok: bool, phase: Phase)
    requires Follows(t, stages, setup, ok) && PhasesDistinct(stages)
    ensures CallsOf(t, phase) == [] || IsPhaseRun(CallsOf(t, phase), phase, setup.members)
    ensures ok && Run(phase) in stages ==>
      IsPhaseRun(CallsOf(t, phase), phase, setup.members) && AllSucceeded(CallsOf(t, phase))
    decreases |stages|
  {
    hide IsPhaseRun, AllSucceeded;
    if stages != [] {
      var k := StageLength(stages[0], setup);
      var u, rest := t[..k], t[k..];
      StageCalls(stages[0], u, setup, phase);
      assert t == u + rest;
      CallsOfConcat(u, rest, phase);
      if stages[0] == Run(phase) {
        assert Run(phase) !in stages[1..];
        if StageOk(stages[0], u, setup) {
          NoOtherCalls(rest, stages[1..], setup, ok, phase);
        } else {
          assert rest == [];
        }
        assert CallsOf(t, phase) == u;
      } else {
        if StageOk(stages[0], u, setup) {
          PhaseOnce(rest, stages[1..], setup, ok, phase);
        } else {
          assert rest == [];
        }
        assert CallsOf(t, phase) == CallsOf(rest, phase);
      }
    }
  }

  /** A phase is reached only after every earlier stage succeeded for every backend. */
  lemma {:induction false} EarlierSucceeded(t: seq<Event>, stages: seq<Stage>, setup: Setup, ok: bool, a: nat, b: nat)
    requires Follows(t, stages, setup, ok) && PhasesDistinct(stages)
    requires a < b < |stages| && stages[a].Run? && stages[b].Run?
    requires CallsOf(t, stages[b].phase) != []
    ensures IsPhaseRun(CallsOf(t, stages[a].phase), stages[a].phase, setup.members)
    ensures AllSucceeded(CallsOf(t, stages[a].phase))
    decreases |stages|
  {
    hide IsPhaseRun, AllSucceeded;
    var k := StageLength(stages[0], setup);
    var u, rest := t[..k], t[k..];
    assert t == u + rest;
    var pa, pb := stages[a].phase, stages[b].phase;
    StageCalls(stages[0], u, setup, pa);
    StageCalls(stages[0], u, setup, pb);
    CallsOfConcat(u, rest, pa);
    CallsOfConcat(u, rest, pb);
    assert !StageOk(stages[0], u, setup) ==> rest == [];
    assert rest == [] ==> CallsOf(rest, pb) == [];
    if a == 0 {
      assert Run(pa) !in stages[1..];
      NoOtherCalls(rest, stages[1..], setup, ok, pa);
      assert CallsOf(t, pa) == u;
    } else {
      assert CallsOf(t, pa) == CallsOf(rest, pa) && CallsOf(t, pb) == CallsOf(rest, pb);
      EarlierSucceeded(rest, stages[1..], setup, ok, a - 1, b - 1);
    }
  }

  // ----- whole runs

  /** A run of kdbSet: before the first phase, from resolver to commit, and after it. */
  datatype Shape = Shape(before: seq<Event>, forward: seq<Event>, after: seq<Event>)

  function Trace(s: Shape): seq<Event> {
    s.before + s.forward + s.after
  }

  /** The unlock hook runs at the end of every run that got past its arguments. */
  function UnlockEvents(setup: Setup): seq<Event> {
    if setup.record then [Unlocked] else []
  }

  predicate IsRollback(t: seq<Event>, setup: Setup) {
    var n := |setup.members|;
    |t| == 3 * n && IsPhaseRun(t[..n], PreRollback, setup.members) &&
    IsPhaseRun(t[n..2 * n], Rollback, setup.members) && IsPhaseRun(t[2 * n..], PostRollback, setup.members)
  }

  /** Post-commit, the notification hooks, and the record hook. */
  predicate IsCompletion(t: seq<Event>, setup: Setup, notifications: nat) {
    var n := |setup.members|;
    |t| == n + notifications + (if setup.record then 1 else 0) &&
    IsPhaseRun(t[..n], PostCommit, setup.members) &&
    (forall i | n <= i < n + notifications :: t[i].Notified?) &&
    forall i | n + notifications <= i < |t| :: t[i].Recorded?
  }

  /** The spec hook copied its metadata, where it is installed. */
  predicate Opened(t: seq<Event>, spec: bool) {
    |t| == (if spec then 1 else 0) && forall i | 0 <= i < |t| :: t[i].SpecCopied? && t[i].code != ERROR
  }

  /** A backend was not initialized, or the spec hook failed. */
  predicate Aborted(t: seq<Event>, spec: bool) {
    t == [] || (spec && t == [SpecCopied(ERROR)])
  }

  /** The possible runs and what they return. */
  predicate IsRun(s: Shape, setup: Setup, notifications: nat, r: int) {
    match r
    case 0 => Opened(s.before, setup.spec) && s.forward == [] && s.after == []
    case 1 =>
      Opened(s.before, setup.spec) && |s.after| >= |UnlockEvents(setup)| &&
      Follows(s.forward, FORWARD, setup, true) &&
      IsCompletion(s.after[..|s.after| - |UnlockEvents(setup)|], setup, notifications) &&
      s.after[|s.after| - |UnlockEvents(setup)|..] == UnlockEvents(setup)
    case _ =>
      r == -1 &&
      ((Aborted(s.before, setup.spec) && s.forward == [] && s.after == UnlockEvents(setup)) ||
       (Opened(s.before, setup.spec) && |s.after| >= |UnlockEvents(setup)| &&
        Follows(s.forward, FORWARD, setup, false) &&
        IsRollback(s.after[..|s.after| - |UnlockEvents(setup)|], setup) &&
        s.after[|s.after| - |UnlockEvents(setup)|..] == UnlockEvents(setup)))
  }

  lemma CompletedRun(before: seq<Event>, forward: seq<Event>, tail: seq<Event>, setup: Setup, notifications: nat)
    requires Opened(before, setup.spec)
    requires Follows(forward, FORWARD, setup, true) && IsCompletion(tail, setup, notifications)
    ensures IsRun(Shape(before, forward, tail + UnlockEvents(setup)), setup, notifications, 1)
  {
    hide Follows, IsCompletion;
    EndsWithUnlock(tail, setup);
  }

  lemma RolledBackRun(before: seq<Event>, forward: seq<Event>, tail: seq<Event>, setup: Setup, notifications: nat)
    requires Opened(before, setup.spec)
    requires Follows(forward, FORWARD, setup, false) && IsRollback(tail, setup)
    ensures IsRun(Shape(before, forward, tail + UnlockEvents(setup)), setup, notifications, -1)
  {
    hide Follows, IsRollback;
    EndsWithUnlock(tail, setup);
  }

  /** A run that ends before the first phase. */
  lemma EarlyRun(before: seq<Event>, setup: Setup, notifications: nat)
    ensures Aborted(before, setup.spec) ==> IsRun(Shape(before, [], UnlockEvents(setup)), setup, notifications, -1)
    ensures Opened(before, setup.spec) ==> IsRun(Shape(before, [], []), setup, notifications, 0)
  {
    hide Follows, IsCompletion, IsRollback;
  }

  lemma EndsWithUnlock(tail: seq<Event>, setup: Setup)
    ensures var t, u := tail + UnlockEvents(setup), UnlockEvents(setup);
            |t| >= |u| && t[..|t| - |u|] == tail && t[|t| - |u|..] == u
  {
  }

  // ----- theorems about whole runs

  lemma ForwardDistinct()
    ensures PhasesDistinct(FORWARD) && |FORWARD| == 9
    ensures FORWARD[0] == Run(Resolver) && FORWARD[1] == Run(PreStorage) && FORWARD[5] == Run(Storage)
    ensures FORWARD[6] == Run(PostStorage) && FORWARD[7] == Run(PreCommit) && FORWARD[8] == Run(Commit)
  {
  }

  predicate IsForwardPhase(p: Phase) {
    p == Resolver || p == PreStorage || p == Storage || p == PostStorage || p == PreCommit || p == Commit
  }

  predicate IsAfterPhase(p: Phase) {
    p == PostCommit || p == PreRollback || p == Rollback || p == PostRollback
  }

  /** Events outside the forward part are never calls of a forward phase. */
  lemma AfterHasNoForwardCalls(s: Shape, setup: Setup, notifications: nat, r: int, i: nat)
    requires IsRun(s, setup, notifications, r) && i < |s.after|
    ensures s.after[i].Call? ==> IsAfterPhase(s.after[i].phase)
    ensures !s.after[i].Locked?
    ensures s.after[i].Unlocked? <==> (setup.record && i == |s.after| - 1)
  {
    hide Follows;
    var m := |s.after| - |UnlockEvents(setup)|;
    if r == 1 || (r == -1 && !(s.forward == [] && s.after == UnlockEvents(setup))) {
      if i < m { assert s.after[..m][i] == s.after[i]; } else { assert s.after[m..][i - m] == s.after[i]; }
      if r == -1 && i < m { RollbackEvent(s.after[..m], setup, i); }
      if r == 1 && i < m { CompletionEvent(s.after[..m], setup, notifications, i); }
    }
  }

  lemma RollbackEvent(t: seq<Event>, setup: Setup, i: nat)
    requires IsRollback(t, setup) && i < |t|
    ensures t[i].Call? && IsAfterPhase(t[i].phase)
  {
    var n := |setup.members|;
    if i < n {
      assert t[..n][i] == t[i];
    } else if i < 2 * n {
      assert t[n..2 * n][i - n] == t[i];
    } else {
      assert t[2 * n..][i - 2 * n] == t[i];
    }
  }

  lemma CompletionEvent(t: seq<Event>, setup: Setup, notifications: nat, i: nat)
    requires IsCompletion(t, setup, notifications) && i < |t|
    ensures t[i].Call? ==> t[i].phase == PostCommit
    ensures !t[i].Locked? && !t[i].Unlocked?
  {
    var n := |setup.members|;
    if i < n { assert t[..n][i] == t[i]; }
  }

  /** Calls of a forward phase all lie in the forward part. */
  lemma ForwardCalls(s: Shape, setup: Setup, notifications: nat, r: int, p: Phase)
    requires IsRun(s, setup, notifications, r) && IsForwardPhase(p)
    ensures CallsOf(Trace(s), p) == CallsOf(s.forward, p)
  {
    hide Follows, IsCompletion, IsRollback;
    forall i | 0 <= i < |s.after| ensures !OfPhase(p)(s.after[i]) {
      AfterHasNoForwardCalls(s, setup, notifications, r, i);
    }
    SelectNone(s.before, OfPhase(p));
    SelectNone(s.after, OfPhase(p));
    CallsOfConcat(s.before, s.forward, p);
    CallsOfConcat(s.before + s.forward, s.after, p);
  }

  lemma ForwardPart(s: Shape, setup: Setup, notifications: nat, r: int)
    requires IsRun(s, setup, notifications, r) && s.forward != []
    ensures Follows(s.forward, FORWARD, setup, r == 1)
  {
    hide Follows, IsCompletion, IsRollback;
  }

  /** Together with the second division, which is always on record, the forward stages leave events. */
  lemma {:induction false} ForwardLeavesEvents(stages: seq<Stage>, setup: Setup, ok: bool)
    requires Redivide in stages
    ensures !Follows([], stages, setup, ok)
    decreases |stages|
  {
    hide IsPhaseRun;
    if stages[0] != Redivide {
      var none: seq<Event> := [];
      assert none[0..] == none && none[..0] == none;
      assert Redivide in stages[1..] by {
        var i :| 0 <= i < |stages| && stages[i] == Redivide;
        assert stages[1..][i - 1] == Redivide;
      }
      ForwardLeavesEvents(stages[1..], setup, ok);
    }
  }

  lemma ForwardHasEvents(t: seq<Event>, setup: Setup, ok: bool)
    requires Follows(t, FORWARD, setup, ok)
    ensures t != []
  {
    hide Follows;
    assert FORWARD[3] == Redivide;
    ForwardLeavesEvents(FORWARD, setup, ok);
  }

  function ForwardIndex(p: Phase): nat
    requires IsForwardPhase(p)
  {
    match p
    case Resolver => 0
    case PreStorage => 1
    case Storage => 5
    case PostStorage => 6
    case PreCommit => 7
    case Commit => 8
  }

  /** No commit before everybody is ready: if a backend is called in a phase, every backend was called
      exactly once and successfully in each earlier phase. */
  lemma LaterPhaseNeedsEarlier(s: Shape, setup: Setup, notifications: nat, r: int, p: Phase, q: Phase)
    requires IsRun(s, setup, notifications, r) && IsForwardPhase(p) && IsForwardPhase(q)
    requires ForwardIndex(p) < ForwardIndex(q) && CallsOf(Trace(s), q) != []
    ensures IsPhaseRun(CallsOf(Trace(s), p), p, setup.members) && AllSucceeded(CallsOf(Trace(s), p))
  {
    hide Follows, IsCompletion, IsRollback, IsPhaseRun, AllSucceeded, Trace;
    ForwardCalls(s, setup, notifications, r, p);
    ForwardCalls(s, setup, notifications, r, q);
    ForwardPart(s, setup, notifications, r);
    ForwardDistinct();
    EarlierSucceeded(s.forward, FORWARD, setup, r == 1, ForwardIndex(p), ForwardIndex(q));
  }

  /** Every phase is attempted at most once per backend, in mount order. */
  lemma EachPhaseOnce(s: Shape, setup: Setup, notifications: nat, r: int, p: Phase)
    requires IsRun(s, setup, notifications, r) && IsForwardPhase(p)
    ensures CallsOf(Trace(s), p) == [] || IsPhaseRun(CallsOf(Trace(s), p), p, setup.members)
    ensures r == 1 ==> IsPhaseRun(CallsOf(Trace(s), p), p, setup.members) && AllSucceeded(CallsOf(Trace(s), p))
  {
    hide Follows, IsCompletion, IsRollback, IsPhaseRun, AllSucceeded, Trace;
    ForwardCalls(s, setup, notifications, r, p);
    ForwardDistinct();
    if s.forward != [] || r == 1 {
      OnceInForward(s, setup, notifications, r, p);
    }
  }

  lemma OnceInForward(s: Shape, setup: Setup, notifications: nat, r: int, p: Phase)
    requires IsRun(s, setup, notifications, r) && IsForwardPhase(p) && (s.forward != [] || r == 1)
    ensures CallsOf(s.forward, p) == [] || IsPhaseRun(CallsOf(s.forward, p), p, setup.members)
    ensures r == 1 ==> IsPhaseRun(CallsOf(s.forward, p), p, setup.members) && AllSucceeded(CallsOf(s.forward, p))
  {
    hide Follows, IsCompletion, IsRollback, IsPhaseRun, AllSucceeded;
    assert Follows(s.forward, FORWARD, setup, r == 1);
    ForwardDistinct();
    assert FORWARD[ForwardIndex(p)] == Run(p);
    PhaseOnce(s.forward, FORWARD, setup, r == 1, p);
  }

  // ----- the record lock

  function IsLock(): Event -> bool {
    (e: Event) => e.Locked?
  }

  lemma {:induction false} LocksInForward(t: seq<Event>, stages: seq<Stage>, setup: Setup, ok: bool)
    requires Follows(t, stages, setup, ok) && PhasesDistinct(stages)
    ensures |Select(t, IsLock())| <= if TakeLock in stages then 1 else 0
    ensures Select(t, IsLock()) != [] ==> setup.record
    decreases |stages|
  {
    hide IsPhaseRun, AllSucceeded;
    if stages != [] {
      var k := StageLength(stages[0], setup);
      var u, rest := t[..k], t[k..];
      assert t == u + rest;
      SelectConcat(u, rest, IsLock());
      LocksInStage(stages[0], u, setup);
      if stages[0] == TakeLock { assert TakeLock !in stages[1..]; }
      if StageOk(stages[0], u, setup) {
        LocksInForward(rest, stages[1..], setup, ok);
      } else {
        assert rest == [];
      }
    }
  }

  lemma LocksInStage(s: Stage, u: seq<Event>, setup: Setup)
    requires StageTrace(s, u, setup)
    ensures Select(u, IsLock()) == if s == TakeLock then u else []
    ensures forall i | 0 <= i < |u| :: !u[i].Unlocked?
  {
    if s == TakeLock {
      SelectAll(u, IsLock());
    } else {
      SelectNone(u, IsLock());
    }
  }

  lemma {:induction false} NoUnlockInForward(t: seq<Event>, stages: seq<Stage>, setup: Setup, ok: bool)
    requires Follows(t, stages, setup, ok)
    ensures forall i | 0 <= i < |t| :: !t[i].Unlocked?
    decreases |stages|
  {
    hide IsPhaseRun, AllSucceeded;
    if stages != [] {
      var k := StageLength(stages[0], setup);
      var u, rest := t[..k], t[k..];
      LocksInStage(stages[0], u, setup);
      if StageOk(stages[0], u, setup) { NoUnlockInForward(rest, stages[1..], setup, ok); }
      forall i | 0 <= i < |t| ensures !t[i].Unlocked? {
        if i < k { assert t[i] == u[i]; } else { assert t[i] == rest[i - k]; }
      }
    }
  }

  /** The lock is taken at most once; a run that took it - or tried to - ends with its only unlock. */
  lemma LockIsReleased(s: Shape, setup: Setup, notifications: nat, r: int)
    requires IsRun(s, setup, notifications, r)
    ensures |Select(Trace(s), IsLock())| <= 1
    ensures Select(Trace(s), IsLock()) != [] ==>
      Trace(s) != [] && Trace(s)[|Trace(s)| - 1].Unlocked? &&
      forall i | 0 <= i < |Trace(s)| - 1 :: !Trace(s)[i].Unlocked?
  {
    hide Follows, IsCompletion, IsRollback, Select;
    forall i | 0 <= i < |s.after|
      ensures !IsLock()(s.after[i]) && (s.after[i].Unlocked? <==> (setup.record && i == |s.after| - 1))
    {
      AfterHasNoForwardCalls(s, setup, notifications, r, i);
    }
    SelectNone(s.before, IsLock());
    SelectNone(s.after, IsLock());
    SelectConcat(s.before, s.forward, IsLock());
    SelectConcat(s.before + s.forward, s.after, IsLock());
    if s.forward != [] {
      ForwardPart(s, setup, notifications, r);
      ForwardDistinct();
      LocksInForward(s.forward, FORWARD, setup, r == 1);
      NoUnlockInForward(s.forward, FORWARD, setup, r == 1);
      var t := Trace(s);
      forall i | 0 <= i < |s.before + s.forward| ensures !t[i].Unlocked? {
        if i < |s.before| { assert t[i] == s.before[i]; } else { assert t[i] == s.forward[i - |s.before|]; }
      }
      forall i | |s.before + s.forward| <= i < |t| ensures t[i] == s.after[i - |s.before + s.forward|] {}
    } else {
      SelectNone(s.forward, IsLock());
    }
  }

  // ----- hooks that fail

  /** A hook of the spec or record plugin that failed. */
  predicate HookError(e: Event) {
    e == SpecCopied(ERROR) || e == SpecRemoved(ERROR) || e == Locked(ERROR)
  }

  predicate HookFailed(t: seq<Event>) {
    exists i | 0 <= i < |t| :: HookError(t[i])
  }

  lemma HookFailedConcat(t: seq<Event>, u: seq<Event>)
    ensures HookFailed(t + u) <==> HookFailed(t) || HookFailed(u)
  {
    var s := t + u;
    forall i | 0 <= i < |t| ensures s[i] == t[i] {}
    forall i | 0 <= i < |u| ensures s[|t| + i] == u[i] {}
    if HookFailed(s) {
      var i :| 0 <= i < |s| && HookError(s[i]);
      assert i < |t| ==> HookError(t[i]);
      assert i >= |t| ==> HookError(u[i - |t|]);
    }
  }

  // ----- what a failed run may have written

  /** No backend was asked to commit with success. */
  predicate NothingCommitted(t: seq<Event>) {
    forall i | 0 <= i < |t| :: t[i].Call? && t[i].phase == Commit ==> !Succeeded(t[i].outcome)
  }

  lemma {:induction false} SelectKeeps(t: seq<Event>, f: Event -> bool, i: nat)
    requires i < |t| && f(t[i])
    ensures t[i] in Select(t, f)
  {
    if i > 0 { SelectKeeps(t[1..], f, i - 1); }
  }

  /** A run that failed in its last stage did not succeed there. */
  lemma {:induction false} LastStageFailed(t: seq<Event>, stages: seq<Stage>, setup: Setup, p: Phase)
    requires Follows(t, stages, setup, false) && PhasesDistinct(stages)
    requires stages != [] && stages[|stages| - 1] == Run(p) && CallsOf(t, p) != []
    ensures !AllSucceeded(CallsOf(t, p))
    decreases |stages|
  {
    hide IsPhaseRun, AllSucceeded;
    var k := StageLength(stages[0], setup);
    var u, rest := t[..k], t[k..];
    assert t == u + rest;
    StageCalls(stages[0], u, setup, p);
    CallsOfConcat(u, rest, p);
    assert !StageOk(stages[0], u, setup) ==> rest == [];
    assert rest == [] ==> CallsOf(rest, p) == [];
    if |stages| > 1 {
      assert stages[0] != stages[|stages| - 1];
      assert CallsOf(t, p) == CallsOf(rest, p);
      LastStageFailed(rest, stages[1..], setup, p);
    } else {
      assert CallsOf(t, p) == u && stages[1..] == [];
    }
  }

  /** Every backend can get as far as the commit. */
  predicate CanCommit(setup: Setup) {
    forall i | 0 <= i < |setup.members| :: setup.members[i].hasSet && setup.members[i].hasCommit
  }

  /** Where a phase succeeded for every backend, every backend has its function. */
  lemma SucceededOffers(t: seq<Event>, phase: Phase, setup: Setup, i: nat)
    requires IsPhaseRun(t, phase, setup.members) && AllSucceeded(t) && i < |setup.members|
    ensures Offers(setup.members[i], FunctionOf(phase))
  {
    assert IsAttempt(t[i], phase, setup.members[i]);
  }

  /** A run that reaches the commit phase has only backends that can commit. */
  lemma CommitReached(s: Shape, setup: Setup, notifications: nat, r: int)
    requires IsRun(s, setup, notifications, r) && CallsOf(Trace(s), Commit) != []
    ensures CanCommit(setup)
  {
    hide Follows, IsCompletion, IsRollback, Trace, IsRun, IsPhaseRun, AllSucceeded;
    LaterPhaseNeedsEarlier(s, setup, notifications, r, Resolver, Commit);
    LaterPhaseNeedsEarlier(s, setup, notifications, r, PreCommit, Commit);
    forall i | 0 <= i < |setup.members| ensures setup.members[i].hasSet && setup.members[i].hasCommit {
      SucceededOffers(CallsOf(Trace(s), Resolver), Resolver, setup, i);
      SucceededOffers(CallsOf(Trace(s), PreCommit), PreCommit, setup, i);
    }
  }

  /** With at most one backend, or with one that cannot commit, a failed run has committed nothing. */
  lemma FewBackendsCommitNothing(s: Shape, setup: Setup, notifications: nat)
    requires IsRun(s, setup, notifications, -1) && (|setup.members| <= 1 || !CanCommit(setup))
    ensures NothingCommitted(Trace(s))
  {
    hide Follows, IsCompletion, IsRollback, Trace, IsRun, CanCommit;
    var calls := CallsOf(Trace(s), Commit);
    forall i | 0 <= i < |Trace(s)| && Trace(s)[i].Call? && Trace(s)[i].phase == Commit
      ensures !Succeeded(Trace(s)[i].outcome)
    {
      SelectKeeps(Trace(s), OfPhase(Commit), i);
      assert Trace(s)[i] in calls;
      CommitReached(s, setup, notifications, -1);
      EachPhaseOnce(s, setup, notifications, -1, Commit);
      ForwardCalls(s, setup, notifications, -1, Commit);
      ForwardPart(s, setup, notifications, -1);
      ForwardDistinct();
      LastStageFailed(s.forward, FORWARD, setup, Commit);
      assert |calls| == 1 && calls[0] == Trace(s)[i];
    }
  }

  /** One outcome for the first call of a phase and one for all others. */
  function Calls(phase: Phase, members: seq<Member>, first: int, others: int): (t: seq<Event>)
    ensures IsPhaseRun(t, phase, members)
  {
    seq(|members|, i requires 0 <= i < |members| =>
      Call(phase, FunctionOf(phase), members[i].name, [],
           if Offers(members[i], FunctionOf(phase)) then Returned(if i == 0 then first else others) else NoFunction))
  }

  function GoodStage(s: Stage, setup: Setup): seq<Event> {
    match s
    case Run(phase) => Calls(phase, setup.members, 1, 1)
    case RemoveSpec => if setup.spec then [SpecRemoved(1)] else []
    case Redivide => [Redivided(true)]
    case TakeLock => if setup.record then [Locked(1)] else []
  }

  lemma GoodStageOk(s: Stage, setup: Setup)
    requires CanCommit(setup) && (s.Run? ==> FunctionOf(s.phase) != ErrorFn)
    ensures StageTrace(s, GoodStage(s, setup), setup) && StageOk(s, GoodStage(s, setup), setup)
  {
  }

  function GoodStages(k: nat, setup: Setup): seq<Event>
    requires k <= |FORWARD|
  {
    if k == 0 then [] else GoodStages(k - 1, setup) + GoodStage(FORWARD[k - 1], setup)
  }

  lemma {:induction false} GoodStagesReached(k: nat, setup: Setup)
    requires k <= |FORWARD| && CanCommit(setup)
    ensures Reached(GoodStages(k, setup), k, setup)
  {
    hide StageTrace, StageOk, GoodStage, Reached, CanCommit;
    if k == 0 {
      Begun(setup);
    } else {
      GoodStagesReached(k - 1, setup);
      GoodStageOk(FORWARD[k - 1], setup);
      Advance(GoodStages(k - 1, setup), k - 1, GoodStage(FORWARD[k - 1], setup), setup);
    }
  }

  /** Everything goes well until, in the commit phase, only the first backend commits. */
  function HalfCommitted(setup: Setup): Shape {
    Shape(if setup.spec then [SpecCopied(1)] else [],
          GoodStages(8, setup) + Calls(Commit, setup.members, 1, ERROR),
          Calls(PreRollback, setup.members, 1, 1) + Calls(Rollback, setup.members, 1, 1) +
          Calls(PostRollback, setup.members, 1, 1) + UnlockEvents(setup))
  }

  lemma HalfCommittedForward(setup: Setup)
    requires |setup.members| >= 2 && CanCommit(setup)
    ensures Follows(HalfCommitted(setup).forward, FORWARD, setup, false)
  {
    hide Follows, GoodStages;
    GoodStagesReached(8, setup);
    ForwardDistinct();
    var u := Calls(Commit, setup.members, 1, ERROR);
    assert u[1].outcome == Returned(ERROR);
    assert !AllSucceeded(u);
    Advance(GoodStages(8, setup), 8, u, setup);
  }

  /** Such a run exists over any two backends or more that can commit: it fails although a backend has committed. */
  lemma HalfCommittedRun(setup: Setup, notifications: nat)
    requires |setup.members| >= 2 && CanCommit(setup)
    ensures IsRun(HalfCommitted(setup), setup, notifications, -1)
    ensures !NothingCommitted(Trace(HalfCommitted(setup)))
  {
    hide Follows, GoodStages, IsPhaseRun;
    var s, n := HalfCommitted(setup), |setup.members|;
    HalfCommittedForward(setup);
    var a, b, c := Calls(PreRollback, setup.members, 1, 1), Calls(Rollback, setup.members, 1, 1), Calls(PostRollback, setup.members, 1, 1);
    assert (a + b + c)[..n] == a && (a + b + c)[n..2 * n] == b && (a + b + c)[2 * n..] == c;
    RolledBackRun(s.before, s.forward, a + b + c, setup, notifications);
    var i, u := |s.before| + |GoodStages(8, setup)|, Calls(Commit, setup.members, 1, ERROR);
    assert Trace(s)[i] == s.forward[|GoodStages(8, setup)|] == u[0];
    assert u[0].outcome == Returned(1);
  }

  /** "On failure no configuration file is modified" holds of all failing runs exactly when at most one
      backend is written, or one of them cannot commit at all. */
  lemma FailureCommitsNothingIff(setup: Setup)
    ensures (forall s, notifications :: IsRun(s, setup, notifications, -1) ==> NothingCommitted(Trace(s)))
            <==> |setup.members| <= 1 || !CanCommit(setup)
  {
    hide IsRun, NothingCommitted, Trace, HalfCommitted, CanCommit;
    if |setup.members| <= 1 || !CanCommit(setup) {
      forall s, notifications | IsRun(s, setup, notifications, -1) ensures NothingCommitted(Trace(s)) {
        FewBackendsCommitNothing(s, setup, notifications);
      }
    } else {
      HalfCommittedRun(setup, 0);
    }
  }
}
