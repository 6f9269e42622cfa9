/** What the error record says after a run of kdbSet, as a function of its trace and of what plugins and hooks
    answered. */
module RunReports {
  import opened KeyNames
  import opened ErrorRecord
  import opened Reports
  import opened Protocol
  import opened Answers

  // ----- one more stage

  lemma {:induction false} NothingLeft(stages: seq<Stage>, setup: Setup, answers: Script, from: nat, show: KeyName -> string)
    ensures ForwardActs([], stages, setup, answers, from, show) == []
    decreases |stages|
  {
    hide PhaseFailed;
    if stages != [] && StageLength(stages[0], setup) == 0 {
      var none: seq<Event> := [];
      assert none[..0] == none && none[0..] == none;
      assert EventsActs(none, answers, from, show) == [] && AllSucceeded(none);
      assert StageActs(stages[0], none, answers, from, show) == [];
      NothingLeft(stages[1..], setup, answers, from, show);
    }
  }

  lemma ActsOn(t: seq<Event>, stages: seq<Stage>, setup: Setup, answers: Script, from: nat, show: KeyName -> string)
    requires stages != [] && StageLength(stages[0], setup) <= |t|
    ensures var k := StageLength(stages[0], setup);
            ForwardActs(t, stages, setup, answers, from, show) ==
            StageActs(stages[0], t[..k], answers, from, show) +
            ForwardActs(t[k..], stages[1..], setup, answers, from + Consumed(t[..k]), show)
  {
    hide StageActs, Consumed;
  }

  lemma {:induction false} ForwardActsExtend(t: seq<Event>, done: seq<Stage>, u: seq<Event>, s: Stage, rest: seq<Stage>, setup: Setup,
                                             answers: Script, from: nat, show: KeyName -> string)
    requires Follows(t, done, setup, true) && StageTrace(s, u, setup)
    ensures ForwardActs(t + u, done + [s] + rest, setup, answers, from, show) ==
            ForwardActs(t, done + [s] + rest, setup, answers, from, show) + StageActs(s, u, answers, from + Consumed(t), show)
    decreases |done|
  {
    hide StageTrace, StageOk, StageActs, StageLength, Follows, ForwardActs, Consumed;
    var all := done + [s] + rest;
    if done == [] {
      FollowsEnd(t, setup, true);
      ConsumedNothing();
      assert t + u == u && all == [s] + rest && all[0] == s && all[1..] == rest;
      FirstStage(u, s, rest, setup, answers, from, show);
    } else {
      var k := StageLength(done[0], setup);
      FollowsOn(t, done, setup);
      ActsOn(t, all, setup, answers, from, show);
      ActsOn(t + u, all, setup, answers, from, show);
      assert all[0] == done[0] && all[1..] == done[1..] + [s] + rest;
      assert (t + u)[..k] == t[..k] && (t + u)[k..] == t[k..] + u;
      ForwardActsExtend(t[k..], done[1..], u, s, rest, setup, answers, from + Consumed(t[..k]), show);
      assert t == t[..k] + t[k..];
      ConsumedConcat(t[..k], t[k..]);
    }
  }

  lemma FirstStage(u: seq<Event>, s: Stage, rest: seq<Stage>, setup: Setup, answers: Script, from: nat, show: KeyName -> string)
    requires StageTrace(s, u, setup)
    ensures ForwardActs(u, [s] + rest, setup, answers, from, show) == StageActs(s, u, answers, from, show)
    ensures ForwardActs([], [s] + rest, setup, answers, from, show) == []
  {
    hide StageActs;
    var all := [s] + rest;
    assert all[0] == s && all[1..] == rest && u[..|u|] == u && u[|u|..] == [];
    NothingLeft(rest, setup, answers, from + Consumed(u), show);
    NothingLeft(all, setup, answers, from, show);
  }

  /** How far a run has come: its trace is tied to the answers, and the record is what that trace makes it. */
  predicate Progress(t: seq<Event>, setup: Setup, answers: Script, from: nat, to: nat, first: Log<Report>, now: Log<Report>,
                     show: KeyName -> string)
  {
    Tied(t, answers, from, to) && now == Replay(first, ForwardActs(t, FORWARD, setup, answers, from, show))
  }

  lemma ProgressStart(setup: Setup, answers: Script, from: nat, first: Log<Report>, show: KeyName -> string)
    ensures Progress([], setup, answers, from, from, first, first, show)
  {
    TiedNothing(answers, from);
    NothingLeft(FORWARD, setup, answers, from, show);
  }

  /** One more stage. */
  lemma ProgressStep(t: seq<Event>, k: nat, u: seq<Event>, setup: Setup, answers: Script, from: nat, mid: nat, to: nat,
                     first: Log<Report>, before: Log<Report>, now: Log<Report>, show: KeyName -> string)
    requires k < |FORWARD| && Reached(t, k, setup) && StageTrace(FORWARD[k], u, setup)
    requires Progress(t, setup, answers, from, mid, first, before, show) && Tied(u, answers, mid, to)
    requires now == Replay(before, StageActs(FORWARD[k], u, answers, mid, show))
    ensures Progress(t + u, setup, answers, from, to, first, now, show)
  {
    hide Follows, StageTrace, StageActs, ForwardActs, Replay;
    assert FORWARD[..k] + [FORWARD[k]] + FORWARD[k + 1..] == FORWARD;
    ForwardActsExtend(t, FORWARD[..k], u, FORWARD[k], FORWARD[k + 1..], setup, answers, from, show);
    ReplayConcat(first, ForwardActs(t, FORWARD, setup, answers, from, show), StageActs(FORWARD[k], u, answers, mid, show));
    TiedConcat(t, u, answers, from, mid, to);
  }

  // ----- whole runs

  /** Selected backends that are not initialized. */
  function IdleActs(idle: seq<KeyName>, show: KeyName -> string): seq<Act> {
    WarningsAbout(idle, (n: KeyName) => NotInitialized(show(n))) + ErrsOf(SomeNotInitialized(), idle != [])
  }

  function WarningsAbout(names: seq<KeyName>, report: KeyName -> Report): seq<Act> {
    if names == [] then []
    else WarningsAbout(names[..|names| - 1], report) + [Say(AsWarning(report(names[|names| - 1])))]
  }

  /** Read-only backends whose changes are not stored. */
  function RefusalActs(refused: seq<KeyName>, show: KeyName -> string): seq<Act> {
    WarningsAbout(refused, (n: KeyName) => ReadOnlyChanged(show(n)))
  }

  /** The blocked post-commit phase, and the hooks after it. */
  function CompletionActs(t: seq<Event>, members: seq<Member>, answers: Script, from: nat, show: KeyName -> string): seq<Act>
    requires |members| <= |t|
  {
    var n := |members|;
    PhaseActs(t[..n], PostCommit, true, answers, from, show) + EventsActs(t[n..], answers, from + Consumed(t[..n]), show)
  }

  function RollbackActs(t: seq<Event>, members: seq<Member>, answers: Script, from: nat, show: KeyName -> string): seq<Act>
    requires 3 * |members| <= |t|
  {
    var n := |members|;
    var second, third := from + Consumed(t[..n]), from + Consumed(t[..n]) + Consumed(t[n..2 * n]);
    PhaseActs(t[..n], PreRollback, true, answers, from, show) +
    PhaseActs(t[n..2 * n], Rollback, true, answers, second, show) +
    PhaseActs(t[2 * n..3 * n], PostRollback, true, answers, third, show)
  }

  /** Before the first phase. */
  function OpeningActs(run: Shape, idle: seq<KeyName>, refused: seq<KeyName>, answers: Script, from: nat, show: KeyName -> string): seq<Act> {
    IdleActs(idle, show) + EventsActs(run.before, answers, from, show) + RefusalActs(refused, show)
  }

  function EndingActs(t: seq<Event>, r: int, members: seq<Member>, answers: Script, from: nat, show: KeyName -> string): seq<Act> {
    if r == 1 && |members| <= |t| then CompletionActs(t, members, answers, from, show)
    else if r == -1 && 3 * |members| <= |t| then RollbackActs(t, members, answers, from, show)
    else []
  }

  /** All that a run does to the record of the parent key, in order. */
  function RunActs(run: Shape, setup: Setup, r: int, idle: seq<KeyName>, refused: seq<KeyName>,
                   answers: Script, from: nat, show: KeyName -> string): seq<Act>
  {
    var mid := from + Consumed(run.before);
    OpeningActs(run, idle, refused, answers, from, show) +
    if run.forward == [] then []
    else ForwardActs(run.forward, FORWARD, setup, answers, mid, show) +
         EndingActs(run.after, r, setup.members, answers, mid + Consumed(run.forward), show)
  }

  // ----- the first error of a run

  /** No lock among the events. */
  predicate NoLock(t: seq<Event>) {
    forall i | 0 <= i < |t| :: !t[i].Locked?
  }

  lemma EventSays(e: Event, a: Answer, show: KeyName -> string)
    requires !(e.Locked? && e.code == ERROR)
    ensures OnlySays(EventActs(e, a, show))
  {
    hide WithoutFunction, CallFailed, NoUpdate, NotDivided;
  }

  lemma {:induction false} EventsSay(t: seq<Event>, answers: Script, from: nat, show: KeyName -> string)
    requires forall i | 0 <= i < |t| :: !(t[i].Locked? && t[i].code == ERROR)
    ensures OnlySays(EventsActs(t, answers, from, show))
  {
    hide EventActs;
    if t != [] {
      EventsSay(t[..|t| - 1], answers, from, show);
      EventSays(t[|t| - 1], answers(from + Consumed(t[..|t| - 1])), show);
    }
  }

  lemma {:induction false} AboutSays(names: seq<KeyName>, report: KeyName -> Report)
    ensures OnlySays(WarningsAbout(names, report)) && ErrorsIn(WarningsAbout(names, report)) == []
  {
    if names != [] {
      var r := WarningsAbout(names[..|names| - 1], report);
      AboutSays(names[..|names| - 1], report);
      assert (r + [Say(AsWarning(report(names[|names| - 1])))])[..|r|] == r;
    }
  }

  /** The lock failed; it is the last thing the forward stages did. */
  predicate LockFailed(t: seq<Event>) {
    t != [] && t[|t| - 1] == Locked(ERROR)
  }

  /** Everything the forward stages do is say, except that a failed lock copies its record at the end. */
  predicate ForwardShaped(acts: seq<Act>, t: seq<Event>, answers: Script, from: nat) {
    if LockFailed(t)
    then acts != [] && acts[|acts| - 1] == Impose(answers(from + Consumed(t) - 1).notes) && OnlySays(acts[..|acts| - 1])
    else OnlySays(acts)
  }

  lemma StageShaped(s: Stage, t: seq<Event>, setup: Setup, answers: Script, from: nat, show: KeyName -> string)
    requires StageTrace(s, t, setup)
    ensures StageOk(s, t, setup) ==> !LockFailed(t)
    ensures from + Consumed(t) - 1 >= 0 || !LockFailed(t)
    ensures LockFailed(t) ==> Consumed(t) == 1 && t == [Locked(ERROR)]
    ensures ForwardShaped(StageActs(s, t, answers, from, show), t, answers, from)
  {
    hide EventActs, IsPhaseRun;
    if LockFailed(t) {
      StageIsNoPhase(s, t, setup);
      assert t == [Locked(ERROR)];
      EventsActsOne(Locked(ERROR), answers, from, show);
      LockActs(answers(from), show);
      ConsumedOne(Locked(ERROR));
    } else {
      StageHasNoFailedLock(s, t, setup);
      EventsSay(t, answers, from, show);
    }
  }

  lemma StageIsNoPhase(s: Stage, t: seq<Event>, setup: Setup)
    requires StageTrace(s, t, setup) && LockFailed(t)
    ensures s == TakeLock && t == [Locked(ERROR)] && !StageOk(s, t, setup)
  {
  }

  lemma StageHasNoFailedLock(s: Stage, t: seq<Event>, setup: Setup)
    requires StageTrace(s, t, setup) && !LockFailed(t)
    ensures forall i | 0 <= i < |t| :: !(t[i].Locked? && t[i].code == ERROR)
  {
  }

  lemma LockActs(a: Answer, show: KeyName -> string)
    ensures EventActs(Locked(ERROR), a, show) == [Impose(a.notes)]
  {
  }

  lemma ConsumedOne(e: Event)
    ensures Consumed([e]) == if Asks(e) then 1 else 0
  {
    var t := [e];
    assert t[..|t| - 1] == [] && Consumed([]) == 0;
  }

  lemma {:induction false} ForwardActsShaped(t: seq<Event>, stages: seq<Stage>, setup: Setup, ok: bool, answers: Script, from: nat,
                                             show: KeyName -> string)
    requires Follows(t, stages, setup, ok)
    ensures LockFailed(t) ==> Consumed(t) > 0
    ensures ForwardShaped(ForwardActs(t, stages, setup, answers, from, show), t, answers, from)
    decreases |stages|
  {
    hide StageTrace, StageOk, StageActs, StageLength, Follows, Consumed, ForwardActs;
    if stages == [] {
      FollowsEnd(t, setup, ok);
      NothingLeft(stages, setup, answers, from, show);
    } else {
      FollowsCases(t, stages, setup, ok);
      var k := StageLength(stages[0], setup);
      var u, rest := t[..k], t[k..];
      assert t == u + rest;
      ConsumedConcat(u, rest);
      StageShaped(stages[0], u, setup, answers, from, show);
      ActsOn(t, stages, setup, answers, from, show);
      if StageOk(stages[0], u, setup) && rest != [] {
        ForwardActsShaped(rest, stages[1..], setup, ok, answers, from + Consumed(u), show);
        assert LockFailed(t) <==> LockFailed(rest);
        var x, y := StageActs(stages[0], u, answers, from, show), ForwardActs(rest, stages[1..], setup, answers, from + Consumed(u), show);
        if LockFailed(t) { assert (x + y)[..|x + y| - 1] == x + y[..|y| - 1]; }
      } else {
        NothingLeft(stages[1..], setup, answers, from + Consumed(u), show);
        if StageOk(stages[0], u, setup) { assert t == u; }
      }
    }
  }

  function FirstOf(rs: seq<Report>): ErrorState<Report> {
    if rs == [] then Clear else Stored(rs[0])
  }

  /** What the record of the original parent key says of the lock's notes. */
  function LockError(t: seq<Event>, answers: Script, from: nat): ErrorState<Report> {
    if LockFailed(t) && from + Consumed(t) > 0 then Standing(Heed(Fresh(), answers(from + Consumed(t) - 1).notes, Same())) else Clear
  }

  /** The error that stands after the forward stages: the one of a failed lock, else the first one. */
  lemma ForwardError(l: Log<Report>, t: seq<Event>, setup: Setup, ok: bool, answers: Script, from: nat, show: KeyName -> string)
    requires Follows(t, FORWARD, setup, ok) && !l.blocked && l.imposed.None?
    ensures var acts := ForwardActs(t, FORWARD, setup, answers, from, show);
            var n := Replay(l, acts);
            !n.blocked && n.reported == l.reported + ErrorsIn(acts) &&
            Standing(n) == if LockError(t, answers, from).Stored? then LockError(t, answers, from) else FirstOf(n.reported)
  {
    hide Follows, ForwardActs, Consumed;
    ForwardActsShaped(t, FORWARD, setup, ok, answers, from, show);
    var acts := ForwardActs(t, FORWARD, setup, answers, from, show);
    if LockFailed(t) {
      var x, lock := acts[..|acts| - 1], answers(from + Consumed(t) - 1).notes;
      assert acts == x + [Impose(lock)];
      ReplayConcat(l, x, [Impose(lock)]);
      ReplayOne(Replay(l, x), Impose(lock));
      ErrorsReported(l, x);
      ErrorsInConcat(x, [Impose(lock)]);
      ImposeIsNoError(lock);
      NoDummy(lock);
    } else {
      ErrorsReported(l, acts);
    }
  }

  lemma ImposeIsNoError(notes: seq<Note>)
    ensures ErrorsIn([Impose(notes)]) == []
  {
    var x := [Impose(notes)];
    assert x[..|x| - 1] == [] && ErrorsIn([]) == [];
  }

  lemma NoDummy(notes: seq<Note>)
    ensures !Standing(Heed(Fresh(), notes, Same())).Dummy?
  {
    HeedExtends(Fresh(), notes, Same());
  }

  /** A blocked phase keeps the error that stands. */
  lemma PhaseKeepsError(l: Log<Report>, t: seq<Event>, phase: Phase, members: seq<Member>, answers: Script, from: nat, show: KeyName -> string)
    requires IsPhaseRun(t, phase, members) && !l.blocked
    ensures var n := Replay(l, PhaseActs(t, phase, true, answers, from, show));
            !n.blocked && n.imposed == l.imposed && Standing(n) == Standing(l) && (Standing(l).Clear? ==> n.reported == l.reported)
  {
    hide EventsActs, AllSucceeded, PhaseFailed, ErrorsIgnored, Replay;
    var said := EventsActs(t, answers, from, show) + ErrsOf(PhaseFailed(phase), !AllSucceeded(t));
    var ignored := WarnsOf(ErrorsIgnored(phase), !AllSucceeded(t));
    EventsSay(t, answers, from, show);
    BlockedKeepsError(l, said);
    var m := Replay(l, [Block] + said + [Unblock]);
    ReplayConcat(l, [Block] + said + [Unblock], ignored);
    ReplayNone(m);
    ReplayOne(m, Say(AsWarning(ErrorsIgnored(phase))));
  }

  lemma RollbackKeepsError(l: Log<Report>, t: seq<Event>, setup: Setup, answers: Script, from: nat, show: KeyName -> string)
    requires 3 * |setup.members| <= |t| && IsRollback(t[..3 * |setup.members|], setup) && !l.blocked
    ensures Standing(Replay(l, RollbackActs(t, setup.members, answers, from, show))) == Standing(l)
  {
    hide PhaseActs, Replay, IsPhaseRun, Consumed;
    var n, u := |setup.members|, t[..3 * |setup.members|];
    assert u[..n] == t[..n] && u[n..2 * n] == t[n..2 * n] && u[2 * n..] == t[2 * n..3 * n];
    var second, third := from + Consumed(t[..n]), from + Consumed(t[..n]) + Consumed(t[n..2 * n]);
    var a := PhaseActs(t[..n], PreRollback, true, answers, from, show);
    var b := PhaseActs(t[n..2 * n], Rollback, true, answers, second, show);
    var c := PhaseActs(t[2 * n..3 * n], PostRollback, true, answers, third, show);
    PhaseKeepsError(l, t[..n], PreRollback, setup.members, answers, from, show);
    PhaseKeepsError(Replay(l, a), t[n..2 * n], Rollback, setup.members, answers, second, show);
    PhaseKeepsError(Replay(Replay(l, a), b), t[2 * n..3 * n], PostRollback, setup.members, answers, third, show);
    ReplayConcat(l, a, b);
    ReplayConcat(l, a + b, c);
  }

  lemma OpeningSays(run: Shape, idle: seq<KeyName>, refused: seq<KeyName>, answers: Script, from: nat, show: KeyName -> string)
    requires forall i | 0 <= i < |run.before| :: run.before[i].SpecCopied?
    ensures OnlySays(OpeningActs(run, idle, refused, answers, from, show))
  {
    hide EventsActs, WarningsAbout;
    EventsSay(run.before, answers, from, show);
    AboutSays(idle, (n: KeyName) => NotInitialized(show(n)));
    AboutSays(refused, (n: KeyName) => ReadOnlyChanged(show(n)));
  }

  /** All that is said before and in the forward stages. */
  function SaidActs(run: Shape, setup: Setup, idle: seq<KeyName>, refused: seq<KeyName>, answers: Script, from: nat,
                    show: KeyName -> string): seq<Act>
  {
    OpeningActs(run, idle, refused, answers, from, show) +
    if run.forward == [] then []
    else ForwardActs(run.forward, FORWARD, setup, answers, from + Consumed(run.before), show)
  }

  /** After the opening and the forward stages of a run. */
  lemma SaidError(run: Shape, setup: Setup, notifications: nat, r: int, idle: seq<KeyName>, refused: seq<KeyName>,
                  answers: Script, from: nat, show: KeyName -> string)
    requires IsRun(run, setup, notifications, r)
    ensures var said := SaidActs(run, setup, idle, refused, answers, from, show);
            var lock := LockError(run.forward, answers, from + Consumed(run.before));
            var l := Replay(Fresh(), said);
            !l.blocked && l.reported == ErrorsIn(said) &&
            Standing(l) == if lock.Stored? then lock else FirstOf(ErrorsIn(said))
  {
    hide Follows, IsCompletion, IsRollback, ForwardActs, OpeningActs, Replay, Consumed, LockError, ErrorsIn;
    var opening, mid := OpeningActs(run, idle, refused, answers, from, show), from + Consumed(run.before);
    OpeningSays(run, idle, refused, answers, from, show);
    ErrorsReported(Fresh(), opening);
    if run.forward == [] {
      NoLockNoError(run.forward, answers, mid);
      assert opening + [] == opening;
    } else {
      ForwardPart(run, setup, notifications, r);
      var forward := ForwardActs(run.forward, FORWARD, setup, answers, mid, show);
      ForwardError(Replay(Fresh(), opening), run.forward, setup, r == 1, answers, mid, show);
      ReplayConcat(Fresh(), opening, forward);
      ErrorsInConcat(opening, forward);
    }
  }

  /** In a run that does not succeed the first error survives to the end, and nothing but a failed lock with
      an error of its own replaces it. */
  lemma FirstErrorSurvives(run: Shape, setup: Setup, notifications: nat, r: int, idle: seq<KeyName>, refused: seq<KeyName>,
                           answers: Script, from: nat, show: KeyName -> string)
    requires IsRun(run, setup, notifications, r) && r != 1
    ensures var said := SaidActs(run, setup, idle, refused, answers, from, show);
            var lock := LockError(run.forward, answers, from + Consumed(run.before));
            Standing(Replay(Fresh(), RunActs(run, setup, r, idle, refused, answers, from, show))) ==
            if lock.Stored? then lock else FirstOf(ErrorsIn(said))
  {
    hide Follows, IsCompletion, IsRollback, ForwardActs, OpeningActs, Replay, Consumed, RollbackActs, ErrorsIn, LockError;
    SaidError(run, setup, notifications, r, idle, refused, answers, from, show);
    var said := SaidActs(run, setup, idle, refused, answers, from, show);
    var acts := RunActs(run, setup, r, idle, refused, answers, from, show);
    if run.forward == [] {
      assert acts == said;
    } else {
      RollbackSlices(run, setup, notifications, r);
      var last := from + Consumed(run.before) + Consumed(run.forward);
      var rolled := RollbackActs(run.after, setup.members, answers, last, show);
      assert acts == said + rolled;
      ReplayConcat(Fresh(), said, rolled);
      RollbackKeepsError(Replay(Fresh(), said), run.after, setup, answers, last, show);
    }
  }

  lemma RollbackSlices(run: Shape, setup: Setup, notifications: nat, r: int)
    requires IsRun(run, setup, notifications, r) && r != 1 && run.forward != []
    ensures r == -1 && 3 * |setup.members| <= |run.after| && IsRollback(run.after[..3 * |setup.members|], setup)
  {
    hide Follows, IsPhaseRun;
  }

  /** In a run that succeeds the first error survives as well; a failing post-commit phase adds none, only the
      hooks after it can. */
  lemma FirstErrorOfSuccess(run: Shape, setup: Setup, notifications: nat, idle: seq<KeyName>, refused: seq<KeyName>,
                            answers: Script, from: nat, show: KeyName -> string)
    requires IsRun(run, setup, notifications, 1) && run.forward != []
    ensures |setup.members| <= |run.after|
    ensures var said := SaidActs(run, setup, idle, refused, answers, from, show);
            var n, last := |setup.members|, from + Consumed(run.before) + Consumed(run.forward);
            var hooks := EventsActs(run.after[n..], answers, last + Consumed(run.after[..n]), show);
            Standing(Replay(Fresh(), RunActs(run, setup, 1, idle, refused, answers, from, show))) ==
            FirstOf(ErrorsIn(said) + ErrorsIn(hooks))
  {
    hide Follows, IsPhaseRun, ForwardActs, OpeningActs, Replay, Consumed, ErrorsIn, EventsActs, PhaseActs;
    SaidError(run, setup, notifications, 1, idle, refused, answers, from, show);
    NoLockOnSuccess(run.forward, FORWARD, setup);
    CompletionSlices(run, setup, notifications);
    var said := SaidActs(run, setup, idle, refused, answers, from, show);
    var n, last := |setup.members|, from + Consumed(run.before) + Consumed(run.forward);
    var phase := PhaseActs(run.after[..n], PostCommit, true, answers, last, show);
    var hooks := EventsActs(run.after[n..], answers, last + Consumed(run.after[..n]), show);
    assert RunActs(run, setup, 1, idle, refused, answers, from, show) == said + phase + hooks;
    ReplayConcat(Fresh(), said, phase);
    ReplayConcat(Fresh(), said + phase, hooks);
    var l := Replay(Fresh(), said);
    SaidKeepsNothingImposed(run, setup, notifications, idle, refused, answers, from, show);
    PhaseKeepsError(l, run.after[..n], PostCommit, setup.members, answers, last, show);
    EventsSay(run.after[n..], answers, last + Consumed(run.after[..n]), show);
    ErrorsReported(Replay(l, phase), hooks);
    PhaseKeepsFirst(l, Replay(l, phase));
  }

  lemma PhaseKeepsFirst(l: Log<Report>, m: Log<Report>)
    requires !l.blocked && l.imposed.None? && !m.blocked && m.imposed.None? && Standing(m) == Standing(l)
    requires Standing(l).Clear? ==> m.reported == l.reported
    ensures forall x: seq<Report> :: FirstOf(m.reported + x) == FirstOf(l.reported + x)
  {
    forall x: seq<Report> ensures FirstOf(m.reported + x) == FirstOf(l.reported + x) {
      if l.reported != [] { assert (m.reported + x)[0] == m.reported[0] && (l.reported + x)[0] == l.reported[0]; }
    }
  }

  lemma {:induction false} NoLockOnSuccess(t: seq<Event>, stages: seq<Stage>, setup: Setup)
    requires Follows(t, stages, setup, true)
    ensures !LockFailed(t)
    decreases |stages|
  {
    hide StageTrace, StageOk, StageLength, Follows;
    if stages == [] {
      FollowsEnd(t, setup, true);
    } else {
      FollowsCases(t, stages, setup, true);
      var k := StageLength(stages[0], setup);
      StageLockOk(stages[0], t[..k], setup);
      NoLockOnSuccess(t[k..], stages[1..], setup);
      if t[k..] == [] { assert t == t[..k]; } else { assert t[k..][|t[k..]| - 1] == t[|t| - 1]; }
    }
  }

  lemma StageLockOk(s: Stage, t: seq<Event>, setup: Setup)
    requires StageTrace(s, t, setup) && StageOk(s, t, setup)
    ensures !LockFailed(t)
  {
    if LockFailed(t) { StageIsNoPhase(s, t, setup); }
  }

  lemma CompletionSlices(run: Shape, setup: Setup, notifications: nat)
    requires IsRun(run, setup, notifications, 1)
    ensures var n := |setup.members|;
            n <= |run.after| && IsPhaseRun(run.after[..n], PostCommit, setup.members) && NoLock(run.after[n..])
  {
    hide Follows, IsPhaseRun;
    var n, m := |setup.members|, |run.after| - |UnlockEvents(setup)|;
    assert run.after[..m][..n] == run.after[..n];
    forall i | 0 <= i < |run.after[n..]| ensures !run.after[n..][i].Locked? {
      AfterHasNoForwardCalls(run, setup, notifications, 1, n + i);
    }
  }

  lemma SaidKeepsNothingImposed(run: Shape, setup: Setup, notifications: nat, idle: seq<KeyName>, refused: seq<KeyName>,
                                answers: Script, from: nat, show: KeyName -> string)
    requires IsRun(run, setup, notifications, 1) && run.forward != []
    ensures Replay(Fresh(), SaidActs(run, setup, idle, refused, answers, from, show)).imposed.None?
  {
    hide Follows, IsCompletion, ForwardActs, OpeningActs, Replay, Consumed;
    var opening, mid := OpeningActs(run, idle, refused, answers, from, show), from + Consumed(run.before);
    OpeningSays(run, idle, refused, answers, from, show);
    ForwardPart(run, setup, notifications, 1);
    NoLockOnSuccess(run.forward, FORWARD, setup);
    ForwardActsShaped(run.forward, FORWARD, setup, true, answers, mid, show);
    ErrorsReported(Fresh(), SaidActs(run, setup, idle, refused, answers, from, show));
  }

  // ----- failing without an error

  predicate ErrorFree(notes: seq<Note>) {
    forall i | 0 <= i < |notes| :: notes[i].AsWarning?
  }

  /** Events whose notes reach the parent key: all calls, but of a lock only a failed one and never the unlock. */
  predicate Audible(e: Event) {
    Asks(e) && !e.Unlocked? && (e.Locked? ==> e.code == ERROR)
  }

  /** No plugin or hook reports an error to the parent key. */
  predicate Quiet(t: seq<Event>, answers: Script, from: nat) {
    t == [] ||
    (Quiet(t[..|t| - 1], answers, from) &&
     (Audible(t[|t| - 1]) ==> ErrorFree(answers(from + Consumed(t[..|t| - 1])).notes)))
  }

  lemma {:induction false} QuietConcat(t: seq<Event>, u: seq<Event>, answers: Script, from: nat)
    ensures Quiet(t + u, answers, from) <==> Quiet(t, answers, from) && Quiet(u, answers, from + Consumed(t))
  {
    hide Audible, ErrorFree;
    if u == [] {
      assert t + u == t;
    } else {
      QuietConcat(t, u[..|u| - 1], answers, from);
      assert (t + u)[..|t + u| - 1] == t + u[..|u| - 1];
      ConsumedConcat(t, u[..|u| - 1]);
    }
  }

  lemma QuietOne(e: Event, answers: Script, from: nat)
    ensures Quiet([e], answers, from) <==> (Audible(e) ==> ErrorFree(answers(from).notes))
  {
    hide Audible, ErrorFree;
    var t := [e];
    assert t[..|t| - 1] == [] && Consumed([]) == 0 && Quiet([], answers, from);
  }

  lemma {:induction false} SaysErrors(notes: seq<Note>)
    ensures ErrorsIn(Says(notes)) == [] <==> ErrorFree(notes)
  {
    if notes != [] {
      var last := |notes| - 1;
      SaysErrors(notes[..last]);
      assert Says(notes)[..last] == Says(notes[..last]);
      assert ErrorFree(notes) <==> ErrorFree(notes[..last]) && notes[last].AsWarning?;
    }
  }

  lemma {:induction false} HeedErrors(notes: seq<Note>)
    ensures Standing(Heed(Fresh(), notes, Same())).Stored? <==> !ErrorFree(notes)
  {
    ReplaySays(Fresh(), notes);
    ErrorsReported(Fresh(), Says(notes));
    SaysErrors(notes);
  }

  lemma ActErrors(a: Act)
    ensures ErrorsIn([a]) == if a.Say? && a.note.AsError? then [a.note.report] else []
  {
    var x := [a];
    assert x[..|x| - 1] == [] && ErrorsIn([]) == [];
  }

  lemma CallErrors(e: Event, a: Answer, show: KeyName -> string)
    requires e.Call?
    ensures ErrorsIn(EventActs(e, a, show)) == [] <==> (e.outcome.Returned? ==> ErrorFree(a.notes))
  {
    hide WithoutFunction, CallFailed, NoUpdate, NotDivided, ErrorFree, ErrorsIn, Says;
    SaysErrors(a.notes);
    NoActNoErrors();
    if e.outcome.Returned? {
      var b, p, c := e.backend, e.phase, e.outcome.code;
      var x, y := WarnsOf(NoUpdate(show(b)), p == Resolver && c == 0), WarnsOf(CallFailed(show(b), p), c != 0 && c != 1);
      ErrorsInConcat(Says(a.notes) + x, y);
      ErrorsInConcat(Says(a.notes), x);
      ActErrors(Say(AsWarning(NoUpdate(show(b)))));
      ActErrors(Say(AsWarning(CallFailed(show(b), p))));
    } else {
      ActErrors(Say(AsWarning(WithoutFunction(show(e.backend)))));
    }
  }

  lemma EventErrors(e: Event, a: Answer, show: KeyName -> string)
    ensures ErrorsIn(EventActs(e, a, show)) == [] <==> (Audible(e) && !e.Locked? ==> ErrorFree(a.notes)) && e != Redivided(false)
  {
    hide WithoutFunction, CallFailed, NoUpdate, NotDivided, ErrorFree, ErrorsIn, Says;
    SaysErrors(a.notes);
    NoActNoErrors();
    if e.Call? { CallErrors(e, a, show); }
    if e.Redivided? { ActErrors(Say(AsError(NotDivided()))); }
    if e.Locked? { ActErrors(Impose(a.notes)); }
  }

  /** The events say no error: nobody reports one, and the second division does not fail. */
  lemma {:induction false} EventsErrors(t: seq<Event>, answers: Script, from: nat, show: KeyName -> string)
    requires NoLock(t)
    ensures ErrorsIn(EventsActs(t, answers, from, show)) == [] <==> Quiet(t, answers, from) && Redivided(false) !in t
  {
    hide EventActs, Audible, ErrorFree, ErrorsIn, Consumed;
    if t == [] {
      NoActNoErrors();
    } else {
      var last := |t| - 1;
      var init, e := t[..last], t[last];
      var a := answers(from + Consumed(init));
      EventsErrors(init, answers, from, show);
      EventErrors(e, a, show);
      ErrorsInConcat(EventsActs(init, answers, from, show), EventActs(e, a, show));
      assert Redivided(false) in t <==> Redivided(false) in init || e == Redivided(false) by { assert t == init + [e]; }
    }
  }

  /** A stage says no error exactly when its plugins and hooks report none and it did not fail, unless it is a
      hook that failed. A failed lock reports elsewhere. */
  lemma StageErrors(s: Stage, t: seq<Event>, setup: Setup, answers: Script, from: nat, show: KeyName -> string)
    requires StageTrace(s, t, setup)
    ensures ErrorsIn(StageActs(s, t, answers, from, show)) == [] && !LockFailed(t) <==>
            Quiet(t, answers, from) && (StageOk(s, t, setup) || HookFailed(t)) && !LockFailed(t)
    ensures HookFailed(t) ==> !StageOk(s, t, setup)
  {
    hide EventsActs, Quiet, PhaseFailed;
    if s == TakeLock {
      LockStageErrors(t, setup, answers, from, show);
    } else {
      StageNoLock(s, t, setup);
      EventsErrors(t, answers, from, show);
      if s.Run? {
        ErrorsInConcat(EventsActs(t, answers, from, show), ErrsOf(PhaseFailed(s.phase), !AllSucceeded(t)));
        ActErrors(Say(AsError(PhaseFailed(s.phase))));
      }
    }
  }

  lemma StageNoLock(s: Stage, t: seq<Event>, setup: Setup)
    requires StageTrace(s, t, setup) && s != TakeLock
    ensures NoLock(t) && (s.Run? ==> Redivided(false) !in t && !HookFailed(t))
    ensures s == RemoveSpec ==> Redivided(false) !in t && (HookFailed(t) <==> !StageOk(s, t, setup))
    ensures s == Redivide ==> (Redivided(false) in t <==> !StageOk(s, t, setup)) && !HookFailed(t)
  {
    if s == RemoveSpec && !StageOk(s, t, setup) {
      var i :| 0 <= i < |t| && t[i].code == ERROR;
      assert HookError(t[i]);
    }
    if s == Redivide { assert t == [t[0]]; }
  }

  lemma LockStageErrors(t: seq<Event>, setup: Setup, answers: Script, from: nat, show: KeyName -> string)
    requires StageTrace(TakeLock, t, setup)
    ensures ErrorsIn(EventsActs(t, answers, from, show)) == []
    ensures StageOk(TakeLock, t, setup) <==> !LockFailed(t)
    ensures StageOk(TakeLock, t, setup) ==> Quiet(t, answers, from) && !HookFailed(t)
  {
    if t != [] {
      assert t == [t[0]];
      EventsActsOne(t[0], answers, from, show);
      EventErrors(t[0], answers(from), show);
      QuietOne(t[0], answers, from);
    }
  }

  /** The forward stages leave a clean record exactly when nobody reports an error and, if they fail, a hook failed. */
  lemma {:induction false} ForwardSilent(t: seq<Event>, stages: seq<Stage>, setup: Setup, ok: bool, answers: Script, from: nat,
                                         show: KeyName -> string)
    requires Follows(t, stages, setup, ok)
    ensures ErrorsIn(ForwardActs(t, stages, setup, answers, from, show)) == [] && !LockError(t, answers, from).Stored? <==>
            Quiet(t, answers, from) && (ok || HookFailed(t))
    ensures ok ==> !HookFailed(t)
    decreases |stages|
  {
    hide StageTrace, StageOk, StageActs, StageLength, Follows, Consumed, ForwardActs, Quiet, HookFailed, LockError, ErrorsIn;
    if stages == [] {
      FollowsEnd(t, setup, ok);
      SilentNothing(answers, from);
      NothingLeft(stages, setup, answers, from, show);
    } else {
      FollowsCases(t, stages, setup, ok);
      var k := StageLength(stages[0], setup);
      var u, rest := t[..k], t[k..];
      assert t == u + rest;
      QuietConcat(u, rest, answers, from);
      HookFailedConcat(u, rest);
      ActsOn(t, stages, setup, answers, from, show);
      ErrorsInConcat(StageActs(stages[0], u, answers, from, show), ForwardActs(rest, stages[1..], setup, answers, from + Consumed(u), show));
      StageErrors(stages[0], u, setup, answers, from, show);
      if StageOk(stages[0], u, setup) {
        StageLockOk(stages[0], u, setup);
        ForwardSilent(rest, stages[1..], setup, ok, answers, from + Consumed(u), show);
        LockErrorLast(u, rest, answers, from);
      } else {
        NothingLeft(stages[1..], setup, answers, from + Consumed(u), show);
        SilentNothing(answers, from + Consumed(u));
        if LockFailed(u) { LockStageSilent(stages[0], u, setup, answers, from, show); } else { NoLockNoError(u, answers, from); }
      }
    }
  }

  lemma SilentNothing(answers: Script, from: nat)
    ensures Quiet([], answers, from) && !HookFailed([]) && !LockError([], answers, from).Stored? && ErrorsIn([]) == []
  {
  }

  lemma NoLockNoError(t: seq<Event>, answers: Script, from: nat)
    requires !LockFailed(t)
    ensures !LockError(t, answers, from).Stored?
  {
  }

  /** Only the end of the trace can be a failed lock. */
  lemma LockErrorLast(u: seq<Event>, rest: seq<Event>, answers: Script, from: nat)
    requires !LockFailed(u)
    ensures LockError(u + rest, answers, from) == LockError(rest, answers, from + Consumed(u))
  {
    hide Consumed;
    ConsumedConcat(u, rest);
    if rest == [] { assert u + rest == u; }
  }

  lemma LockStageSilent(s: Stage, t: seq<Event>, setup: Setup, answers: Script, from: nat, show: KeyName -> string)
    requires StageTrace(s, t, setup) && LockFailed(t)
    ensures ErrorsIn(StageActs(s, t, answers, from, show)) == [] && HookFailed(t)
    ensures LockError(t, answers, from).Stored? <==> !Quiet(t, answers, from)
  {
    StageIsNoPhase(s, t, setup);
    LockStageErrors(t, setup, answers, from, show);
    ConsumedOne(Locked(ERROR));
    QuietOne(Locked(ERROR), answers, from);
    HeedErrors(answers(from).notes);
    assert HookError(t[0]);
  }

  /** kdbSet fails without an error on the parent key exactly when a hook failed and nobody reported an error
      to the parent key by then. */
  lemma SilentFailure(run: Shape, setup: Setup, notifications: nat, idle: seq<KeyName>, refused: seq<KeyName>,
                      answers: Script, from: nat, show: KeyName -> string)
    requires IsRun(run, setup, notifications, -1) && (run.forward == [] && run.before == [] ==> idle != [])
    ensures Standing(Replay(Fresh(), RunActs(run, setup, -1, idle, refused, answers, from, show))).Clear? <==>
            idle == [] && HookFailed(run.before + run.forward) && Quiet(run.before + run.forward, answers, from)
  {
    hide Follows, IsCompletion, IsRollback, ForwardActs, Replay, Consumed, RunActs, Quiet, HookFailed, ErrorsIn, LockError, EventsActs,
         OpeningActs;
    FirstErrorSurvives(run, setup, notifications, -1, idle, refused, answers, from, show);
    OpeningErrors(run, setup, idle, refused, answers, from, show);
    var mid := from + Consumed(run.before);
    QuietConcat(run.before, run.forward, answers, from);
    HookFailedConcat(run.before, run.forward);
    if run.forward == [] {
      EmptyDoesNotFail(FORWARD, setup, false);
      SilentNothing(answers, mid);
      assert OpeningActs(run, idle, refused, answers, from, show) + [] == OpeningActs(run, idle, refused, answers, from, show);
    } else {
      ForwardPart(run, setup, notifications, -1);
      ForwardSilent(run.forward, FORWARD, setup, false, answers, mid, show);
      ErrorsInConcat(OpeningActs(run, idle, refused, answers, from, show), ForwardActs(run.forward, FORWARD, setup, answers, mid, show));
    }
  }

  /** Stages without events do not fail. */
  lemma {:induction false} EmptyDoesNotFail(stages: seq<Stage>, setup: Setup, ok: bool)
    ensures Follows([], stages, setup, ok) ==> ok
    decreases |stages|
  {
    hide IsPhaseRun;
    if stages != [] {
      var none: seq<Event> := [];
      assert none[0..] == none && none[..0] == none;
      EmptyDoesNotFail(stages[1..], setup, ok);
    }
  }

  lemma OpeningErrors(run: Shape, setup: Setup, idle: seq<KeyName>, refused: seq<KeyName>, answers: Script, from: nat,
                      show: KeyName -> string)
    requires Opened(run.before, setup.spec) || Aborted(run.before, setup.spec)
    ensures ErrorsIn(OpeningActs(run, idle, refused, answers, from, show)) == [] <==> idle == [] && Quiet(run.before, answers, from)
    ensures Opened(run.before, setup.spec) ==> !HookFailed(run.before)
    ensures Aborted(run.before, setup.spec) && run.before != [] ==> HookFailed(run.before)
  {
    hide EventsActs, WarningsAbout, ErrorsIn, Quiet, SomeNotInitialized;
    var x, y, z := IdleActs(idle, show), EventsActs(run.before, answers, from, show), RefusalActs(refused, show);
    EventsErrors(run.before, answers, from, show);
    AboutSays(idle, (n: KeyName) => NotInitialized(show(n)));
    AboutSays(refused, (n: KeyName) => ReadOnlyChanged(show(n)));
    ErrorsInConcat(x + y, z);
    ErrorsInConcat(x, y);
    ErrorsInConcat(WarningsAbout(idle, (n: KeyName) => NotInitialized(show(n))), ErrsOf(SomeNotInitialized(), idle != []));
    ActErrors(Say(AsError(SomeNotInitialized())));
    NoActNoErrors();
    if Aborted(run.before, setup.spec) && run.before != [] { assert HookError(run.before[0]); }
  }

  lemma NoActNoErrors()
    ensures ErrorsIn([]) == []
  {
  }

  /** It happens: the spec hook fails and says nothing. */
  lemma SilentFailureExample(members: seq<Member>, show: KeyName -> string)
    ensures var setup, run := Setup(members, true, false), Shape([SpecCopied(ERROR)], [], []);
            var answers := (i: nat) => Answer(ERROR, [], "", []);
            IsRun(run, setup, 0, -1) && Tied(Trace(run), answers, 0, 1) &&
            Standing(Replay(Fresh(), RunActs(run, setup, -1, [], [], answers, 0, show))).Clear?
  {
    hide Follows, Replay, RunActs, Quiet, IsCompletion, IsRollback, Tied;
    var e := SpecCopied(ERROR);
    var setup, run, t := Setup(members, true, false), Shape([e], [], []), [e];
    var answers: Script := (i: nat) => Answer(ERROR, [], "", []);
    assert t[0] == e && HookError(t[0]);
    assert Trace(run) == t && run.before + run.forward == t;
    TiedOne(e, answers, 0);
    QuietOne(e, answers, 0);
    assert IsRun(run, setup, 0, -1);
    SilentFailure(run, setup, 0, [], [], answers, 0, show);
  }

  // ----- a failed lock replaces the first error

  lemma TiedSnoc(t: seq<Event>, e: Event, answers: Script, from: nat, mid: nat)
    requires Tied(t, answers, from, mid) && AnsweredBy(e, answers(mid))
    ensures Tied(t + [e], answers, from, if Asks(e) then mid + 1 else mid)
  {
    hide Answered, Consumed;
    TiedOne(e, answers, mid);
    TiedConcat(t, [e], answers, from, mid, if Asks(e) then mid + 1 else mid);
  }

  /** A backend whose plugin has all functions. */
  function Full(n: KeyName): Member {
    Member(n, true, true, true)
  }

  function Done(p: Phase, n: KeyName): Event {
    Call(p, FunctionOf(p), n, [], Returned(1))
  }

  /** One backend, a record plugin, no spec plugin: the resolver phase reports an error and succeeds all the same,
      and then the lock fails. */
  function LockedOut(n: KeyName): Shape {
    Shape([], [Done(Resolver, n), Done(PreStorage, n), Redivided(true), Locked(ERROR)],
          [Done(PreRollback, n), Done(Rollback, n), Done(PostRollback, n), Unlocked])
  }

  function LockedOutAnswers(x: Report, y: Report): Script {
    (i: nat) => Answer(if i == 2 then ERROR else 1, [], "", if i == 0 then [AsError(x)] else if i == 2 then [AsError(y)] else [])
  }

  lemma LockedOutForward(n: KeyName, setup: Setup)
    requires setup == Setup([Full(n)], false, true)
    ensures Failed(LockedOut(n).forward, setup)
  {
    hide Follows, Reached, Failed;
    var a, b, c, d := [Done(Resolver, n)], [Done(PreStorage, n)], [Redivided(true)], [Locked(ERROR)];
    ForwardDistinct();
    assert FORWARD[2] == RemoveSpec && FORWARD[3] == Redivide && FORWARD[4] == TakeLock;
    Begun(setup);
    assert AllSucceeded(a) && AllSucceeded(b) && d[0].code == ERROR;
    assert !StageOk(TakeLock, d, setup);
    Advance([], 0, a, setup);
    assert [] + a == a;
    Advance(a, 1, b, setup);
    Advance(a + b, 2, [], setup);
    assert a + b + [] == a + b;
    Advance(a + b, 3, c, setup);
    Advance(a + b + c, 4, d, setup);
    assert a + b + c + d == LockedOut(n).forward;
  }

  lemma LockedOutRun(n: KeyName, setup: Setup)
    requires setup == Setup([Full(n)], false, true)
    ensures IsRun(LockedOut(n), setup, 0, -1)
  {
    hide Follows, IsRun;
    LockedOutForward(n, setup);
    var k := |setup.members|;
    var t := [Done(PreRollback, n), Done(Rollback, n), Done(PostRollback, n)];
    assert t[..k] == [Done(PreRollback, n)] && t[k..2 * k] == [Done(Rollback, n)] && t[2 * k..] == [Done(PostRollback, n)];
    assert IsRollback(t, setup) && Opened([], setup.spec);
    RolledBackRun([], LockedOut(n).forward, t, setup, 0);
    assert t + UnlockEvents(setup) == LockedOut(n).after;
  }

  lemma LockedOutTied(n: KeyName, x: Report, y: Report)
    ensures Tied(LockedOut(n).forward, LockedOutAnswers(x, y), 0, 3) && Tied(Trace(LockedOut(n)), LockedOutAnswers(x, y), 0, 7)
  {
    hide Tied;
    var answers, run := LockedOutAnswers(x, y), LockedOut(n);
    TiedNothing(answers, 0);
    var t0: seq<Event> := [];
    var t1 := t0 + [Done(Resolver, n)];
    TiedSnoc(t0, Done(Resolver, n), answers, 0, 0);
    var t2 := t1 + [Done(PreStorage, n)];
    TiedSnoc(t1, Done(PreStorage, n), answers, 0, 1);
    var t3 := t2 + [Redivided(true)];
    TiedSnoc(t2, Redivided(true), answers, 0, 2);
    var t4 := t3 + [Locked(ERROR)];
    TiedSnoc(t3, Locked(ERROR), answers, 0, 2);
    var t5 := t4 + [Done(PreRollback, n)];
    TiedSnoc(t4, Done(PreRollback, n), answers, 0, 3);
    var t6 := t5 + [Done(Rollback, n)];
    TiedSnoc(t5, Done(Rollback, n), answers, 0, 4);
    var t7 := t6 + [Done(PostRollback, n)];
    TiedSnoc(t6, Done(PostRollback, n), answers, 0, 5);
    var t8 := t7 + [Unlocked];
    TiedSnoc(t7, Unlocked, answers, 0, 6);
    assert t4 == run.forward && t8 == Trace(run);
  }

  lemma OneErrorStands(y: Report)
    ensures Standing(Heed(Fresh(), [AsError(y)], Same())) == Stored(y)
  {
    var notes := [AsError(y)];
    assert notes[..|notes| - 1] == [];
  }

  /** The first thing said in the example is the error of the resolver phase. */
  lemma LockedOutSaid(n: KeyName, setup: Setup, x: Report, y: Report, show: KeyName -> string)
    requires setup == Setup([Full(n)], false, true)
    ensures var e := ErrorsIn(SaidActs(LockedOut(n), setup, [], [], LockedOutAnswers(x, y), 0, show)); e != [] && e[0] == x
  {
    hide ForwardActs, ErrorsIn, StageActs, EventsActs, OpeningActs, Consumed;
    var run, answers := LockedOut(n), LockedOutAnswers(x, y);
    ForwardDistinct();
    var a := [Done(Resolver, n)];
    assert run.forward[..1] == a;
    ActsOn(run.forward, FORWARD, setup, answers, 0, show);
    var rest := ForwardActs(run.forward[1..], FORWARD[1..], setup, answers, 0 + Consumed(a), show);
    LockedOutOpening(n, answers, show);
    LockedOutFirst(n, x, y, show);
    ErrorsInConcat(OpeningActs(run, [], [], answers, 0, show), ForwardActs(run.forward, FORWARD, setup, answers, 0 + Consumed(run.before), show));
    ConsumedNothing();
    ErrorsInConcat(StageActs(Run(Resolver), a, answers, 0, show), rest);
  }

  lemma ConsumedNothing()
    ensures Consumed([]) == 0
  {
  }

  lemma LockedOutOpening(n: KeyName, answers: Script, show: KeyName -> string)
    ensures ErrorsIn(OpeningActs(LockedOut(n), [], [], answers, 0, show)) == []
  {
  }

  lemma LockedOutFirst(n: KeyName, x: Report, y: Report, show: KeyName -> string)
    ensures ErrorsIn(StageActs(Run(Resolver), [Done(Resolver, n)], LockedOutAnswers(x, y), 0, show)) == [x]
  {
    hide EventsActs, ErrorsIn, PhaseFailed, NoUpdate, CallFailed;
    var answers, e := LockedOutAnswers(x, y), Done(Resolver, n);
    EventsActsOne(e, answers, 0, show);
    var notes := [AsError(x)];
    assert EventActs(e, answers(0), show) == [Say(AsError(x))] by {
      assert Says(notes) == [Say(AsError(x))];
    }
    assert AllSucceeded([e]);
    assert StageActs(Run(Resolver), [e], answers, 0, show) == [Say(AsError(x))];
    ActErrors(Say(AsError(x)));
  }

  /** The first error of a run need not survive: the example reports `x` first and ends with `y`. */
  lemma FirstErrorReplacedExample(n: KeyName, x: Report, y: Report, show: KeyName -> string)
    ensures var setup, run, answers := Setup([Full(n)], false, true), LockedOut(n), LockedOutAnswers(x, y);
            IsRun(run, setup, 0, -1) && Tied(Trace(run), answers, 0, 7) &&
            FirstOf(ErrorsIn(SaidActs(run, setup, [], [], answers, 0, show))) == Stored(x) &&
            Standing(Replay(Fresh(), RunActs(run, setup, -1, [], [], answers, 0, show))) == Stored(y)
  {
    hide IsRun, Replay, RunActs, ErrorsIn, SaidActs, Heed, Trace;
    var setup, run, answers := Setup([Full(n)], false, true), LockedOut(n), LockedOutAnswers(x, y);
    LockedOutRun(n, setup);
    LockedOutTied(n, x, y);
    LockedOutSaid(n, setup, x, y, show);
    FirstErrorSurvives(run, setup, 0, -1, [], [], answers, 0, show);
    ConsumedNothing();
    assert LockFailed(run.forward) && Consumed(run.forward) == 3 && answers(2).notes == [AsError(y)];
    OneErrorStands(y);
  }

  // ----- a failing run that has committed

  /** Every code in the trace is `c`. */
  ghost predicate Uniform(t: seq<Event>, c: int) {
    forall i, a: Answer | 0 <= i < |t| && a.code == c :: AnsweredBy(t[i], a)
  }

  lemma {:induction false} UniformAnswered(t: seq<Event>, c: int, answers: Script, from: nat)
    requires Uniform(t, c) && forall i | from <= i < from + Consumed(t) :: answers(i).code == c
    ensures Tied(t, answers, from, from + Consumed(t))
  {
    if t != [] {
      UniformAnswered(t[..|t| - 1], c, answers, from);
      var p, last := from + Consumed(t[..|t| - 1]), t[|t| - 1];
      if Asks(last) {
        assert answers(p).code == c;
      }
      assert AnsweredBy(last, answers(p)) by {
        if !Asks(last) { assert AnsweredBy(last, answers(p)); }
      }
    }
  }

  lemma UniformConcat(t: seq<Event>, u: seq<Event>, c: int)
    requires Uniform(t, c) && Uniform(u, c)
    ensures Uniform(t + u, c)
  {
    hide AnsweredBy;
    forall i, a: Answer | 0 <= i < |t + u| && a.code == c ensures AnsweredBy((t + u)[i], a) {
      if i < |t| { assert AnsweredBy(t[i], a); } else { assert AnsweredBy(u[i - |t|], a); }
    }
  }

  lemma CallsUniform(phase: Phase, members: seq<Member>, c: int)
    ensures Uniform(Calls(phase, members, c, c), c)
  {
  }

  lemma {:induction false} GoodStagesUniform(k: nat, setup: Setup)
    requires k <= |FORWARD|
    ensures Uniform(GoodStages(k, setup), 1)
  {
    hide Calls;
    if k > 0 {
      var s := FORWARD[k - 1];
      GoodStagesUniform(k - 1, setup);
      if s.Run? { CallsUniform(s.phase, setup.members, 1); }
      UniformConcat(GoodStages(k - 1, setup), GoodStage(s, setup), 1);
    }
  }

  /** Everything up to the first commit, the other commits, and the rollback with the unlock. */
  function UntilCommit(setup: Setup): seq<Event>
    requires setup.members != []
  {
    HalfCommitted(setup).before + GoodStages(8, setup) + Calls(Commit, setup.members, 1, ERROR)[..1]
  }

  /** All answers say success, only those of the second and later backends in the commit phase do not. */
  function HalfCommittedAnswers(setup: Setup): Script
    requires setup.members != []
  {
    var p := Consumed(UntilCommit(setup));
    (i: nat) => Answer(if p <= i < p + |setup.members| - 1 then ERROR else 1, [], "", [])
  }

  lemma UntilCommitUniform(setup: Setup)
    requires setup.members != []
    ensures Uniform(UntilCommit(setup), 1)
  {
    hide GoodStages;
    GoodStagesUniform(8, setup);
    var b, c := HalfCommitted(setup).before, Calls(Commit, setup.members, 1, ERROR)[..1];
    assert Uniform(b, 1) && Uniform(c, 1);
    UniformConcat(b, GoodStages(8, setup), 1);
    UniformConcat(b + GoodStages(8, setup), c, 1);
  }

  lemma OtherCommits(setup: Setup)
    requires setup.members != [] && CanCommit(setup)
    ensures var u := Calls(Commit, setup.members, 1, ERROR)[1..]; Uniform(u, ERROR) && Consumed(u) == |setup.members| - 1
  {
    var u := Calls(Commit, setup.members, 1, ERROR)[1..];
    AllAsk(u);
  }

  lemma {:induction false} AllAsk(t: seq<Event>)
    requires forall i | 0 <= i < |t| :: Asks(t[i])
    ensures Consumed(t) == |t|
  {
    if t != [] { AllAsk(t[..|t| - 1]); }
  }

  lemma AfterUniform(setup: Setup)
    ensures Uniform(HalfCommitted(setup).after, 1)
  {
    hide Calls;
    var a, b, c := Calls(PreRollback, setup.members, 1, 1), Calls(Rollback, setup.members, 1, 1), Calls(PostRollback, setup.members, 1, 1);
    CallsUniform(PreRollback, setup.members, 1);
    CallsUniform(Rollback, setup.members, 1);
    CallsUniform(PostRollback, setup.members, 1);
    assert Uniform(UnlockEvents(setup), 1);
    UniformConcat(a, b, 1);
    UniformConcat(a + b, c, 1);
    UniformConcat(a + b + c, UnlockEvents(setup), 1);
  }

  lemma HalfCommittedTrace(setup: Setup)
    requires setup.members != []
    ensures Trace(HalfCommitted(setup)) ==
            UntilCommit(setup) + Calls(Commit, setup.members, 1, ERROR)[1..] + HalfCommitted(setup).after
  {
    hide GoodStages, Calls, Consumed;
    var commits := Calls(Commit, setup.members, 1, ERROR);
    assert commits == commits[..1] + commits[1..];
  }

  /** A trace in three pieces, of which only the middle one is not all success. */
  lemma ThreePieces(x: seq<Event>, y: seq<Event>, z: seq<Event>, answers: Script)
    requires Uniform(x, 1) && Uniform(y, ERROR) && Uniform(z, 1)
    requires forall i: nat :: answers(i).code == if Consumed(x) <= i < Consumed(x) + Consumed(y) then ERROR else 1
    ensures Tied(x + y + z, answers, 0, Consumed(x) + Consumed(y) + Consumed(z))
  {
    hide Uniform, Answered, Consumed;
    var p, q := Consumed(x), Consumed(x) + Consumed(y);
    UniformAnswered(x, 1, answers, 0);
    UniformAnswered(y, ERROR, answers, p);
    UniformAnswered(z, 1, answers, q);
    TiedConcat(x, y, answers, 0, p, q);
    TiedConcat(x + y, z, answers, 0, q, q + Consumed(z));
  }

  /** Over any two backends or more that can commit, these answers make a run that returns -1 although a backend
      has committed. */
  lemma HalfCommittedExample(setup: Setup, notifications: nat)
    requires |setup.members| >= 2 && CanCommit(setup)
    ensures var run, answers := HalfCommitted(setup), HalfCommittedAnswers(setup);
            IsRun(run, setup, notifications, -1) && Tied(Trace(run), answers, 0, Consumed(Trace(run))) &&
            !NothingCommitted(Trace(run))
  {
    hide IsRun, NothingCommitted, Uniform, Answered, Consumed, GoodStages, Calls, CanCommit, UntilCommit, HalfCommitted, Trace;
    HalfCommittedRun(setup, notifications);
    HalfCommittedTrace(setup);
    UntilCommitUniform(setup);
    OtherCommits(setup);
    AfterUniform(setup);
    ThreePieces(UntilCommit(setup), Calls(Commit, setup.members, 1, ERROR)[1..], HalfCommitted(setup).after, HalfCommittedAnswers(setup));
  }
}
