/** Which plugin function is called when, and in which order a run goes: rules that hold of every event of every run. */
module CallRules {
  import opened Protocol

  // ----- functions

  lemma AttemptRule(e: Event, m: Member)
    requires e.Call? && IsAttempt(e, e.phase, m)
    ensures e.fn == SetFn <==> e.phase == Resolver || e.phase == PreStorage || e.phase == Storage || e.phase == PostStorage
    ensures e.fn == CommitFn <==> e.phase == PreCommit || e.phase == Commit || e.phase == PostCommit
    ensures e.fn == ErrorFn <==> e.phase == PreRollback || e.phase == Rollback || e.phase == PostRollback
    ensures m.name == e.backend &&
            (e.outcome == NoFunction <==> !(if e.fn == SetFn then m.hasSet else if e.fn == CommitFn then m.hasCommit else m.hasError))
  {
  }

  lemma PhaseAttempt(t: seq<Event>, p: Phase, setup: Setup, i: nat) returns (m: Member)
    requires IsPhaseRun(t, p, setup.members) && i < |t|
    ensures m in setup.members && t[i].Call? && t[i].phase == p && IsAttempt(t[i], p, m)
  {
    m := setup.members[i];
  }

  lemma {:induction false} ForwardAttempt(t: seq<Event>, stages: seq<Stage>, setup: Setup, ok: bool, i: nat) returns (m: Member)
    requires Follows(t, stages, setup, ok) && i < |t| && t[i].Call?
    ensures m in setup.members && IsAttempt(t[i], t[i].phase, m) && Run(t[i].phase) in stages
    decreases |stages|
  {
    hide IsAttempt;
    var k := StageLength(stages[0], setup);
    if i < k {
      assert t[i] == t[..k][i];
      m := PhaseAttempt(t[..k], stages[0].phase, setup, i);
    } else {
      assert t[i] == t[k..][i - k];
      m := ForwardAttempt(t[k..], stages[1..], setup, ok, i - k);
    }
  }

  lemma RollbackAttempt(t: seq<Event>, setup: Setup, i: nat) returns (m: Member)
    requires IsRollback(t, setup) && i < |t|
    ensures t[i].Call? && m in setup.members && IsAttempt(t[i], t[i].phase, m)
    ensures t[i].phase == PreRollback || t[i].phase == Rollback || t[i].phase == PostRollback
  {
    hide IsAttempt;
    var n := |setup.members|;
    if i < n {
      m := PhaseAttempt(t[..n], PreRollback, setup, i);
    } else if i < 2 * n {
      m := PhaseAttempt(t[n..2 * n], Rollback, setup, i - n);
    } else {
      m := PhaseAttempt(t[2 * n..], PostRollback, setup, i - 2 * n);
    }
  }

  lemma CompletionAttempt(t: seq<Event>, setup: Setup, notifications: nat, i: nat) returns (m: Member)
    requires IsCompletion(t, setup, notifications) && i < |t| && t[i].Call?
    ensures m in setup.members && t[i].phase == PostCommit && IsAttempt(t[i], PostCommit, m)
  {
    hide IsAttempt;
    m := PhaseAttempt(t[..|setup.members|], PostCommit, setup, i);
  }

  lemma ForwardHasCalls(s: Shape, setup: Setup, notifications: nat, r: int)
    requires IsRun(s, setup, notifications, r) && s.forward == []
    ensures s.after == [] || (r == -1 && s.after == UnlockEvents(setup))
  {
    hide Follows, IsRollback, IsCompletion;
    if Follows([], FORWARD, setup, r == 1) {
      ForwardHasEvents([], setup, r == 1);
      assert false;
    }
  }

  lemma AfterAttempt(s: Shape, setup: Setup, notifications: nat, r: int, i: nat) returns (m: Member)
    requires IsRun(s, setup, notifications, r) && i < |s.after| && s.after[i].Call?
    ensures m in setup.members && IsAttempt(s.after[i], s.after[i].phase, m) && s.forward != []
    ensures if r == 1 then s.after[i].phase == PostCommit
            else r == -1 && (s.after[i].phase == PreRollback || s.after[i].phase == Rollback || s.after[i].phase == PostRollback)
  {
    hide Follows, IsRollback, IsCompletion, IsAttempt;
    var k := |s.after| - |UnlockEvents(setup)|;
    if s.forward == [] { ForwardHasCalls(s, setup, notifications, r); }
    assert s.after == s.after[..k] + UnlockEvents(setup);
    if r == 1 {
      m := CompletionAttempt(s.after[..k], setup, notifications, i);
    } else {
      m := RollbackAttempt(s.after[..k], setup, i);
    }
  }

  /** Every call of a run tries one of its backends. It uses kdbSet up to the post-storage phase, kdbCommit from the
      pre-commit to the post-commit phase, and kdbError in the three phases of the rollback; it is left out exactly where
      the plugin lacks that function. After a failure nothing but kdbError is called, after success nothing but the
      post-commit phase. */
  lemma FunctionsCalled(s: Shape, setup: Setup, notifications: nat, r: int, e: Event)
    requires IsRun(s, setup, notifications, r) && e in Trace(s) && e.Call?
    ensures e.fn == SetFn <==> e.phase == Resolver || e.phase == PreStorage || e.phase == Storage || e.phase == PostStorage
    ensures e.fn == CommitFn <==> e.phase == PreCommit || e.phase == Commit || e.phase == PostCommit
    ensures e.fn == ErrorFn <==> e.phase == PreRollback || e.phase == Rollback || e.phase == PostRollback
    ensures exists m | m in setup.members && m.name == e.backend ::
      e.outcome == NoFunction <==> !(if e.fn == SetFn then m.hasSet else if e.fn == CommitFn then m.hasCommit else m.hasError)
    ensures e in s.forward ==> (e.fn == SetFn || e.phase == PreCommit || e.phase == Commit)
    ensures e in s.after ==> if r == 1 then e.phase == PostCommit else r == -1 && e.fn == ErrorFn
  {
    hide Follows, IsRollback, IsCompletion, IsAttempt, IsRun;
    BeforeHasNoCalls(s, setup, notifications, r);
    if e in s.forward {
      var i :| 0 <= i < |s.forward| && s.forward[i] == e;
      ForwardPart(s, setup, notifications, r);
      var m := ForwardAttempt(s.forward, FORWARD, setup, r == 1, i);
      AttemptRule(e, m);
      ForwardFunctions(e.phase);
    }
    if e in s.after {
      var i :| 0 <= i < |s.after| && s.after[i] == e;
      var m := AfterAttempt(s, setup, notifications, r, i);
      AttemptRule(e, m);
    }
  }

  lemma BeforeHasNoCalls(s: Shape, setup: Setup, notifications: nat, r: int)
    requires IsRun(s, setup, notifications, r)
    ensures forall e | e in s.before :: !e.Call?
  {
    hide Follows, IsRollback, IsCompletion;
  }

  lemma ForwardFunctions(p: Phase)
    ensures Run(p) in FORWARD <==> p == Resolver || p == PreStorage || p == Storage || p == PostStorage || p == PreCommit || p == Commit
  {
  }

  // ----- order

  /** When an event has its turn. */
  function Turn(e: Event): nat {
    match e
    case SpecCopied(_) => 0
    case Call(Resolver, _, _, _, _) => 1
    case Call(PreStorage, _, _, _, _) => 2
    case SpecRemoved(_) => 3
    case Redivided(_) => 4
    case Locked(_) => 5
    case Call(Storage, _, _, _, _) => 6
    case Call(PostStorage, _, _, _, _) => 7
    case Call(PreCommit, _, _, _, _) => 8
    case Call(Commit, _, _, _, _) => 9
    case Call(PostCommit, _, _, _, _) => 10
    case Notified => 11
    case Recorded => 12
    case Call(PreRollback, _, _, _, _) => 13
    case Call(Rollback, _, _, _, _) => 14
    case Call(PostRollback, _, _, _, _) => 15
    case Unlocked => 16
  }

  predicate InTurn(t: seq<Event>) {
    forall i, j | 0 <= i < j < |t| :: Turn(t[i]) <= Turn(t[j])
  }

  predicate Between(lo: nat, t: seq<Event>, hi: nat) {
    forall i | 0 <= i < |t| :: lo <= Turn(t[i]) <= hi
  }

  lemma Joined(t: seq<Event>, u: seq<Event>, lo: nat, last: nat, first: nat, hi: nat)
    requires InTurn(t) && InTurn(u) && Between(lo, t, last) && Between(first, u, hi) && lo <= last <= first <= hi
    ensures InTurn(t + u) && Between(lo, t + u, hi)
  {
    hide Turn;
  }

  function StageTurn(s: Stage): nat {
    match s
    case Run(Resolver) => 1
    case Run(PreStorage) => 2
    case RemoveSpec => 3
    case Redivide => 4
    case TakeLock => 5
    case Run(Storage) => 6
    case Run(PostStorage) => 7
    case Run(PreCommit) => 8
    case Run(Commit) => 9
    case Run(PostCommit) => 10
    case Run(PreRollback) => 13
    case Run(Rollback) => 14
    case Run(PostRollback) => 15
  }

  lemma PhaseTurn(t: seq<Event>, p: Phase, members: seq<Member>)
    requires IsPhaseRun(t, p, members)
    ensures Between(StageTurn(Run(p)), t, StageTurn(Run(p))) && InTurn(t)
  {
    forall i | 0 <= i < |t| ensures Turn(t[i]) == StageTurn(Run(p)) { assert IsAttempt(t[i], p, members[i]); }
  }

  lemma TraceTurn(s: Stage, t: seq<Event>, setup: Setup)
    requires StageTrace(s, t, setup)
    ensures Between(StageTurn(s), t, StageTurn(s)) && InTurn(t)
  {
    if s.Run? { PhaseTurn(t, s.phase, setup.members); }
  }

  lemma {:induction false} ForwardInTurn(t: seq<Event>, stages: seq<Stage>, setup: Setup, ok: bool, lo: nat)
    requires Follows(t, stages, setup, ok) && lo <= 9
    requires forall i | 0 <= i < |stages| :: lo <= StageTurn(stages[i]) <= 9
    requires forall i, j | 0 <= i < j < |stages| :: StageTurn(stages[i]) <= StageTurn(stages[j])
    ensures InTurn(t) && Between(lo, t, 9)
    decreases |stages|
  {
    hide StageTrace, StageOk, StageLength, StageTurn, InTurn, Between, Follows;
    if stages == [] {
      FollowsEnd(t, setup, ok);
      NothingInTurn(lo);
    } else {
      FollowsCases(t, stages, setup, ok);
      var k, mid := StageLength(stages[0], setup), StageTurn(stages[0]);
      TraceTurn(stages[0], t[..k], setup);
      if StageOk(stages[0], t[..k], setup) { ForwardInTurn(t[k..], stages[1..], setup, ok, mid); } else { NothingInTurn(mid); }
      Joined(t[..k], t[k..], mid, mid, mid, 9);
      assert t == t[..k] + t[k..];
      Wider(lo, mid, t);
    }
  }

  lemma NothingInTurn(lo: nat)
    ensures InTurn([]) && Between(lo, [], 9)
  {
  }

  lemma Wider(lo: nat, mid: nat, t: seq<Event>)
    requires lo <= mid && Between(mid, t, 9)
    ensures Between(lo, t, 9)
  {
  }

  lemma RollbackInTurn(t: seq<Event>, setup: Setup)
    requires IsRollback(t, setup)
    ensures InTurn(t) && Between(13, t, 15)
  {
    hide IsPhaseRun, InTurn, Between;
    var n := |setup.members|;
    PhaseTurn(t[..n], PreRollback, setup.members);
    PhaseTurn(t[n..2 * n], Rollback, setup.members);
    PhaseTurn(t[2 * n..], PostRollback, setup.members);
    Joined(t[..n], t[n..2 * n], 13, 13, 14, 14);
    Joined(t[..n] + t[n..2 * n], t[2 * n..], 13, 14, 15, 15);
    assert t == t[..n] + t[n..2 * n] + t[2 * n..];
  }

  lemma CompletionInTurn(t: seq<Event>, setup: Setup, notifications: nat)
    requires IsCompletion(t, setup, notifications)
    ensures InTurn(t) && Between(10, t, 15)
  {
    hide IsPhaseRun;
    var n := |setup.members|;
    PhaseTurn(t[..n], PostCommit, setup.members);
    forall i | 0 <= i < |t| ensures Turn(t[i]) == if i < n then 10 else if i < n + notifications then 11 else 12 {
      if i < n { assert t[i] == t[..n][i]; }
    }
  }

  lemma AfterInTurn(s: Shape, setup: Setup, notifications: nat, r: int)
    requires IsRun(s, setup, notifications, r)
    ensures InTurn(s.after) && Between(10, s.after, 16)
  {
    hide Follows, IsRollback, IsCompletion;
    var k := |s.after| - |UnlockEvents(setup)|;
    if s.forward == [] {
      ForwardHasCalls(s, setup, notifications, r);
    } else {
      if r == 1 { CompletionInTurn(s.after[..k], setup, notifications); } else { RollbackInTurn(s.after[..k], setup); }
      Joined(s.after[..k], UnlockEvents(setup), 10, 15, 16, 16);
      assert s.after == s.after[..k] + UnlockEvents(setup);
    }
  }

  /** A run keeps to the order of the steps: spec metadata, resolver, pre-storage, spec removal, second division, lock,
      storage, post-storage, pre-commit, commit; then post-commit, notifications and record, or pre-rollback, rollback and
      post-rollback; and the unlock. */
  lemma RunInTurn(s: Shape, setup: Setup, notifications: nat, r: int, i: nat, j: nat)
    requires IsRun(s, setup, notifications, r) && i < j < |Trace(s)|
    ensures Turn(Trace(s)[i]) <= Turn(Trace(s)[j])
  {
    hide Follows, IsRollback, IsCompletion, Turn;
    BeforeInTurn(s, setup, notifications, r);
    AfterInTurn(s, setup, notifications, r);
    if s.forward == [] {
      NothingInTurn(1);
    } else {
      ForwardPart(s, setup, notifications, r);
      StagesInTurn();
      ForwardInTurn(s.forward, FORWARD, setup, r == 1, 1);
    }
    Joined(s.before, s.forward, 0, 0, 1, 9);
    Joined(s.before + s.forward, s.after, 0, 9, 10, 16);
  }

  lemma StagesInTurn()
    ensures forall i | 0 <= i < |FORWARD| :: 1 <= StageTurn(FORWARD[i]) <= 9
    ensures forall i, j | 0 <= i < j < |FORWARD| :: StageTurn(FORWARD[i]) <= StageTurn(FORWARD[j])
  {
  }

  lemma BeforeInTurn(s: Shape, setup: Setup, notifications: nat, r: int)
    requires IsRun(s, setup, notifications, r)
    ensures InTurn(s.before) && Between(0, s.before, 0)
  {
    hide Follows, IsRollback, IsCompletion;
  }
}
