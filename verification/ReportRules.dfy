/** Whatever goes wrong in a run of kdbSet, and whatever plugins and hooks report, is on record in the end. */
module ReportRules {
  import opened Wrappers
  import opened KeyNames
  import opened ErrorRecord
  import opened Reports
  import opened ParentKeys
  import opened Protocol
  import opened Answers
  import opened RunReports
  import opened Outcomes
  import opened KdbSet

  predicate Within(xs: seq<Act>, ys: seq<Act>) {
    forall a | a in xs :: a in ys
  }

  /** The answer for an event of a trace. */
  function AnswerAt(t: seq<Event>, i: nat, answers: Script, from: nat): Answer
    requires i < |t|
  {
    answers(from + Consumed(t[..i]))
  }

  lemma {:induction false} EventWithin(t: seq<Event>, i: nat, answers: Script, from: nat, show: KeyName -> string)
    requires i < |t|
    ensures Within(EventActs(t[i], AnswerAt(t, i, answers, from), show), EventsActs(t, answers, from, show))
  {
    hide EventActs, Consumed;
    var last := |t| - 1;
    if i < last {
      EventWithin(t[..last], i, answers, from, show);
      assert t[..last][..i] == t[..i];
    }
  }

  lemma PhaseWithin(t: seq<Event>, p: Phase, blocked: bool, i: nat, answers: Script, from: nat, show: KeyName -> string)
    requires i < |t|
    ensures Within(EventActs(t[i], AnswerAt(t, i, answers, from), show), PhaseActs(t, p, blocked, answers, from, show))
  {
    hide EventActs, EventsActs, AnswerAt;
    EventWithin(t, i, answers, from, show);
  }

  lemma AnswerInside(t: seq<Event>, k: nat, i: nat, answers: Script, from: nat)
    requires k <= |t| && i < |t|
    ensures if i < k then t[i] == t[..k][i] && AnswerAt(t, i, answers, from) == AnswerAt(t[..k], i, answers, from)
            else t[i] == t[k..][i - k] && AnswerAt(t, i, answers, from) == AnswerAt(t[k..], i - k, answers, from + Consumed(t[..k]))
  {
    hide Consumed;
    if i < k {
      assert t[..k][..i] == t[..i];
    } else {
      assert t[..i] == t[..k] + t[k..][..i - k];
      ConsumedConcat(t[..k], t[k..][..i - k]);
    }
  }

  lemma {:induction false} ForwardWithin(t: seq<Event>, stages: seq<Stage>, setup: Setup, ok: bool, i: nat,
                                         answers: Script, from: nat, show: KeyName -> string)
    requires Follows(t, stages, setup, ok) && i < |t|
    ensures Within(EventActs(t[i], AnswerAt(t, i, answers, from), show), ForwardActs(t, stages, setup, answers, from, show))
    decreases |stages|
  {
    hide EventActs, EventsActs, AnswerAt, StageTrace, StageOk, StageLength, Consumed, PhaseActs;
    FollowsCases(t, stages, setup, ok);
    var k := StageLength(stages[0], setup);
    AnswerInside(t, k, i, answers, from);
    if i < k {
      if stages[0].Run? {
        PhaseWithin(t[..k], stages[0].phase, false, i, answers, from, show);
      } else {
        EventWithin(t[..k], i, answers, from, show);
      }
    } else {
      ForwardWithin(t[k..], stages[1..], setup, ok, i - k, answers, from + Consumed(t[..k]), show);
    }
  }

  lemma CompletionWithin(t: seq<Event>, members: seq<Member>, i: nat, answers: Script, from: nat, show: KeyName -> string)
    requires |members| <= |t| && i < |t|
    ensures Within(EventActs(t[i], AnswerAt(t, i, answers, from), show), CompletionActs(t, members, answers, from, show))
  {
    hide EventActs, EventsActs, AnswerAt, Consumed, PhaseActs;
    var n := |members|;
    AnswerInside(t, n, i, answers, from);
    if i < n {
      PhaseWithin(t[..n], PostCommit, true, i, answers, from, show);
    } else {
      EventWithin(t[n..], i - n, answers, from + Consumed(t[..n]), show);
    }
  }

  lemma RollbackWithin(t: seq<Event>, members: seq<Member>, i: nat, answers: Script, from: nat, show: KeyName -> string)
    requires 3 * |members| <= |t| && i < 3 * |members|
    ensures Within(EventActs(t[i], AnswerAt(t, i, answers, from), show), RollbackActs(t, members, answers, from, show))
  {
    hide EventActs, EventsActs, AnswerAt, Consumed, PhaseActs;
    var n := |members|;
    AnswerInside(t, n, i, answers, from);
    if i < n {
      PhaseWithin(t[..n], PreRollback, true, i, answers, from, show);
    } else {
      var second := from + Consumed(t[..n]);
      AnswerInside(t[n..], n, i - n, answers, second);
      assert t[n..][..n] == t[n..2 * n];
      if i < 2 * n {
        PhaseWithin(t[n..2 * n], Rollback, true, i - n, answers, second, show);
      } else {
        var third := second + Consumed(t[n..2 * n]);
        assert t[n..][n..] == t[2 * n..];
        AnswerInside(t[2 * n..], n, i - 2 * n, answers, third);
        assert t[2 * n..][..n] == t[2 * n..3 * n];
        PhaseWithin(t[2 * n..3 * n], PostRollback, true, i - 2 * n, answers, third, show);
      }
    }
  }

  lemma EndingWithin(s: Shape, setup: Setup, notifications: nat, r: int, i: nat, answers: Script, from: nat, show: KeyName -> string)
    requires IsRun(s, setup, notifications, r) && i < |s.after| && s.forward != []
    ensures Within(EventActs(s.after[i], AnswerAt(s.after, i, answers, from), show),
                   EndingActs(s.after, r, setup.members, answers, from, show))
  {
    hide EventActs, AnswerAt, CompletionActs, RollbackActs, Follows, IsPhaseRun;
    var n := |setup.members|;
    if r == 1 {
      CompletionWithin(s.after, setup.members, i, answers, from, show);
    } else if i < 3 * n {
      RollbackWithin(s.after, setup.members, i, answers, from, show);
    } else {
      assert s.after[i] == Unlocked;
      UnlockSilent(AnswerAt(s.after, i, answers, from), show);
    }
  }

  lemma UnlockSilent(a: Answer, show: KeyName -> string)
    ensures EventActs(Unlocked, a, show) == []
  {
  }

  lemma PartsWithin(s: Shape, setup: Setup, r: int, idle: seq<KeyName>, refused: seq<KeyName>, answers: Script, from: nat, show: KeyName -> string)
    ensures var acts, mid := RunActs(s, setup, r, idle, refused, answers, from, show), from + Consumed(s.before);
            Within(EventsActs(s.before, answers, from, show), acts) &&
            (s.forward != [] ==> Within(ForwardActs(s.forward, FORWARD, setup, answers, mid, show), acts) &&
                                 Within(EndingActs(s.after, r, setup.members, answers, mid + Consumed(s.forward), show), acts))
  {
    hide EventsActs, Consumed, EndingActs, ForwardActs, IdleActs, RefusalActs;
  }

  lemma Through(xs: seq<Act>, ys: seq<Act>, zs: seq<Act>)
    requires Within(xs, ys) && Within(ys, zs)
    ensures Within(xs, zs)
  {
  }

  /** What an event does to the record is among all that the run does to it. */
  lemma RunWithin(s: Shape, setup: Setup, notifications: nat, r: int, idle: seq<KeyName>, refused: seq<KeyName>, i: nat,
                  answers: Script, from: nat, show: KeyName -> string)
    requires IsRun(s, setup, notifications, r) && i < |Trace(s)|
    ensures Within(EventActs(Trace(s)[i], AnswerAt(Trace(s), i, answers, from), show),
                   RunActs(s, setup, r, idle, refused, answers, from, show))
  {
    hide EventActs, EventsActs, AnswerAt, Consumed, EndingActs, ForwardActs, IsRun, RunActs, Within;
    var t, b := Trace(s), |s.before|;
    var acts := RunActs(s, setup, r, idle, refused, answers, from, show);
    assert t[..b] == s.before && t[b..] == s.forward + s.after;
    AnswerInside(t, b, i, answers, from);
    PartsWithin(s, setup, r, idle, refused, answers, from, show);
    var x := EventActs(t[i], AnswerAt(t, i, answers, from), show);
    if i < b {
      EventWithin(s.before, i, answers, from, show);
      Through(x, EventsActs(s.before, answers, from, show), acts);
    } else {
      LaterWithin(s, setup, notifications, r, i - b, answers, from + Consumed(s.before), show, acts);
    }
  }

  lemma LaterWithin(s: Shape, setup: Setup, notifications: nat, r: int, i: nat, answers: Script, mid: nat, show: KeyName -> string,
                    acts: seq<Act>)
    requires IsRun(s, setup, notifications, r) && i < |s.forward + s.after|
    requires s.forward != [] ==> Within(ForwardActs(s.forward, FORWARD, setup, answers, mid, show), acts) &&
                                 Within(EndingActs(s.after, r, setup.members, answers, mid + Consumed(s.forward), show), acts)
    ensures Within(EventActs((s.forward + s.after)[i], AnswerAt(s.forward + s.after, i, answers, mid), show), acts)
  {
    hide EventActs, AnswerAt, Consumed, EndingActs, ForwardActs, IsRun, Within, Follows;
    var u, f := s.forward + s.after, |s.forward|;
    assert u[..f] == s.forward && u[f..] == s.after;
    AnswerInside(u, f, i, answers, mid);
    if f == 0 {
      EmptyForward(s, setup, notifications, r, i, AnswerAt(u, i, answers, mid), show);
      NothingWithin(acts);
    } else {
      ForwardPart(s, setup, notifications, r);
      if i < f {
        ForwardWithin(s.forward, FORWARD, setup, r == 1, i, answers, mid, show);
        Through(EventActs(s.forward[i], AnswerAt(s.forward, i, answers, mid), show),
                ForwardActs(s.forward, FORWARD, setup, answers, mid, show), acts);
      } else {
        var last := mid + Consumed(s.forward);
        EndingWithin(s, setup, notifications, r, i - f, answers, last, show);
        Through(EventActs(s.after[i - f], AnswerAt(s.after, i - f, answers, last), show),
                EndingActs(s.after, r, setup.members, answers, last, show), acts);
      }
    }
  }

  lemma NothingWithin(acts: seq<Act>)
    ensures Within([], acts)
  {
  }

  lemma EmptyForward(s: Shape, setup: Setup, notifications: nat, r: int, i: nat, a: Answer, show: KeyName -> string)
    requires IsRun(s, setup, notifications, r) && s.forward == [] && i < |s.after|
    ensures EventActs(s.after[i], a, show) == []
  {
    hide Follows, IsCompletion, IsRollback;
    if r == 1 || (r == -1 && s.after != UnlockEvents(setup)) {
      ForwardHasEvents([], setup, r == 1);
      assert false;
    }
  }

  lemma EventHeard(db: Kdb, parent: ParentKey, r: int, after: PlainKeySet, run: Shape, setup: Setup, plan: Plan,
                   was: Option<PlainKeySet>, plugins: Plugins, from: nat, i: nat, note: Note)
    requires Settled(db, parent, r, after, run, setup, plan, was, plugins, from) && i < |Trace(run)|
    requires Say(note) in EventActs(Trace(run)[i], AnswerAt(Trace(run), i, plugins.answers, from), parent.show)
    ensures note.AsWarning? ==> note.report in parent.Heard().warnings
    ensures note.report in parent.Heard().warnings || note.report in parent.Heard().reported
  {
    hide EventActs, AnswerAt, RunActs, Trace, IsRun, Tied, FactsHold, PlanFacts, Replay;
    var acts := RunActs(run, setup, r, plan.idle, plan.refused, plugins.answers, from, parent.show);
    RunWithin(run, setup, db.notifications, r, plan.idle, plan.refused, i, plugins.answers, from, parent.show);
    assert Say(note) in acts;
    if note.AsWarning? { WarningHeard(Fresh(), acts, note.report); } else { ErrorHeard(Fresh(), acts, note.report); }
  }

  /** Every call that could not be made or failed is on record as a warning, with the mountpoint; so is a resolver without
      update, and a second division that failed is on record as an error or a warning. */
  lemma FailuresHeard(db: Kdb, parent: ParentKey, r: int, after: PlainKeySet, run: Shape, setup: Setup, plan: Plan,
                      was: Option<PlainKeySet>, plugins: Plugins, from: nat, i: nat)
    requires Settled(db, parent, r, after, run, setup, plan, was, plugins, from) && i < |Trace(run)|
    ensures var e, heard := Trace(run)[i], parent.Heard();
            (e.Call? && e.outcome.NoFunction? ==>
              Report("C01320", "Interface", "kdb.c", "2149", "kdb",
                     "The plugin of the mountpoint '" + parent.show(e.backend) + "' does not have the needed function.") in heard.warnings) &&
            (e.Call? && e.outcome.Returned? && e.outcome.code != 0 && e.outcome.code != 1 ==>
              Report("C01320", "Interface", "kdb.c", "2203", "kdb",
                     "Calling the plugin of '" + parent.show(e.backend) + "' has failed during the " + PhaseName(e.phase) + " phase.")
                in heard.warnings) &&
            (e == Redivided(false) ==>
              var x := Report("C01310", "Internal", "kdb.c", "2553", "kdb", "Couldn't divide keys into mountpoints after spec removal.");
              x in heard.warnings || x in heard.reported)
  {
    hide Settled, Trace, ParentKey.Heard;
    var e := Trace(run)[i];
    var a := AnswerAt(Trace(run), i, plugins.answers, from);
    FailureActs(e, a, parent.show);
    if e.Call? && e.outcome.NoFunction? {
      EventHeard(db, parent, r, after, run, setup, plan, was, plugins, from, i, AsWarning(WithoutFunction(parent.show(e.backend))));
    }
    if e.Call? && e.outcome.Returned? && e.outcome.code != 0 && e.outcome.code != 1 {
      EventHeard(db, parent, r, after, run, setup, plan, was, plugins, from, i, AsWarning(CallFailed(parent.show(e.backend), e.phase)));
    }
    if e == Redivided(false) {
      EventHeard(db, parent, r, after, run, setup, plan, was, plugins, from, i, AsError(NotDivided()));
    }
  }

  lemma FailureActs(e: Event, a: Answer, show: KeyName -> string)
    ensures e.Call? && e.outcome.NoFunction? ==> Say(AsWarning(WithoutFunction(show(e.backend)))) in EventActs(e, a, show)
    ensures e.Call? && e.outcome.Returned? && e.outcome.code != 0 && e.outcome.code != 1 ==>
      Say(AsWarning(CallFailed(show(e.backend), e.phase))) in EventActs(e, a, show)
    ensures e == Redivided(false) ==> Say(AsError(NotDivided())) in EventActs(e, a, show)
  {
  }

  /** Whatever a plugin reports in a call, or a hook other than those of the record plugin around the run, is on record:
      warnings as warnings, errors as errors or as warnings. */
  lemma NotesHeard(db: Kdb, parent: ParentKey, r: int, after: PlainKeySet, run: Shape, setup: Setup, plan: Plan,
                   was: Option<PlainKeySet>, plugins: Plugins, from: nat, i: nat, note: Note)
    requires Settled(db, parent, r, after, run, setup, plan, was, plugins, from) && i < |Trace(run)|
    requires var e := Trace(run)[i];
             (e.Call? && e.outcome.Returned?) || e.SpecCopied? || e.SpecRemoved? || e.Notified? || e.Recorded?
    requires note in AnswerAt(Trace(run), i, plugins.answers, from).notes
    ensures note.AsWarning? ==> note.report in parent.Heard().warnings
    ensures note.report in parent.Heard().warnings || note.report in parent.Heard().reported
  {
    hide Settled, Trace, ParentKey.Heard, AnswerAt;
    NoteActs(Trace(run)[i], AnswerAt(Trace(run), i, plugins.answers, from), parent.show, note);
    EventHeard(db, parent, r, after, run, setup, plan, was, plugins, from, i, note);
  }

  lemma NoteActs(e: Event, a: Answer, show: KeyName -> string, note: Note)
    requires note in a.notes && ((e.Call? && e.outcome.Returned?) || e.SpecCopied? || e.SpecRemoved? || e.Notified? || e.Recorded?)
    ensures Say(note) in EventActs(e, a, show)
  {
    assert Say(note) in Says(a.notes);
  }

  // ----- phases that fail

  lemma PhaseSaysFailed(t: seq<Event>, p: Phase, blocked: bool, i: nat, answers: Script, from: nat, show: KeyName -> string)
    requires i < |t| && t[i].Call? && !Succeeded(t[i].outcome)
    ensures Say(AsError(PhaseFailed(p))) in PhaseActs(t, p, blocked, answers, from, show)
  {
    hide EventsActs, Succeeded;
    assert !AllSucceeded(t);
  }

  lemma {:induction false} ForwardSaysFailed(t: seq<Event>, stages: seq<Stage>, setup: Setup, ok: bool, i: nat,
                                             answers: Script, from: nat, show: KeyName -> string)
    requires Follows(t, stages, setup, ok) && i < |t| && t[i].Call? && !Succeeded(t[i].outcome)
    ensures Say(AsError(PhaseFailed(t[i].phase))) in ForwardActs(t, stages, setup, answers, from, show)
    decreases |stages|
  {
    hide EventsActs, PhaseActs, StageOk, StageTrace, StageLength, Consumed, Succeeded, Follows;
    if stages == [] { FollowsEnd(t, setup, ok); }
    FollowsCases(t, stages, setup, ok);
    var k := StageLength(stages[0], setup);
    if i < k {
      assert t[..k][i] == t[i];
      CallStage(stages[0], t[..k], setup, i);
      PhaseSaysFailed(t[..k], t[i].phase, false, i, answers, from, show);
    } else {
      assert t[k..][i - k] == t[i];
      ForwardSaysFailed(t[k..], stages[1..], setup, ok, i - k, answers, from + Consumed(t[..k]), show);
    }
  }

  lemma CallStage(s: Stage, t: seq<Event>, setup: Setup, i: nat)
    requires StageTrace(s, t, setup) && i < |t| && t[i].Call?
    ensures s == Run(t[i].phase)
  {
    if s.Run? { assert IsAttempt(t[i], s.phase, setup.members[i]); }
  }

  lemma CallPhase(t: seq<Event>, p: Phase, members: seq<Member>, i: nat)
    requires IsPhaseRun(t, p, members) && i < |t|
    ensures t[i].Call? && t[i].phase == p
  {
    assert IsAttempt(t[i], p, members[i]);
  }

  lemma RollbackSaysFailed(t: seq<Event>, u: seq<Event>, setup: Setup, i: nat, answers: Script, from: nat, show: KeyName -> string)
    requires IsRollback(t, setup) && i < |t| && !Succeeded(t[i].outcome)
    ensures t[i].Call? && Say(AsError(PhaseFailed(t[i].phase))) in RollbackActs(t + u, setup.members, answers, from, show)
  {
    hide PhaseActs, Consumed, Succeeded, IsPhaseRun;
    var n := |setup.members|;
    var v := t + u;
    assert v[..n] == t[..n] && v[n..2 * n] == t[n..2 * n] && v[2 * n..3 * n] == t[2 * n..];
    var second, third := from + Consumed(t[..n]), from + Consumed(t[..n]) + Consumed(t[n..2 * n]);
    if i < n {
      CallPhase(t[..n], PreRollback, setup.members, i);
      PhaseSaysFailed(t[..n], PreRollback, true, i, answers, from, show);
    } else if i < 2 * n {
      CallPhase(t[n..2 * n], Rollback, setup.members, i - n);
      PhaseSaysFailed(t[n..2 * n], Rollback, true, i - n, answers, second, show);
    } else {
      CallPhase(t[2 * n..], PostRollback, setup.members, i - 2 * n);
      PhaseSaysFailed(t[2 * n..], PostRollback, true, i - 2 * n, answers, third, show);
    }
  }

  lemma CompletionSaysFailed(t: seq<Event>, u: seq<Event>, setup: Setup, notifications: nat, i: nat,
                             answers: Script, from: nat, show: KeyName -> string)
    requires IsCompletion(t, setup, notifications) && i < |t| && t[i].Call? && !Succeeded(t[i].outcome)
    ensures Say(AsError(PhaseFailed(t[i].phase))) in CompletionActs(t + u, setup.members, answers, from, show)
  {
    hide PhaseActs, EventsActs, Consumed, Succeeded, IsPhaseRun;
    var n := |setup.members|;
    assert (t + u)[..n] == t[..n];
    CallPhase(t[..n], PostCommit, setup.members, i);
    PhaseSaysFailed(t[..n], PostCommit, true, i, answers, from, show);
  }

  lemma AfterSaysFailed(s: Shape, setup: Setup, notifications: nat, r: int, i: nat, answers: Script, from: nat, show: KeyName -> string)
    requires IsRun(s, setup, notifications, r) && s.forward != [] && i < |s.after| && s.after[i].Call? && !Succeeded(s.after[i].outcome)
    ensures Say(AsError(PhaseFailed(s.after[i].phase))) in EndingActs(s.after, r, setup.members, answers, from, show)
  {
    hide CompletionActs, RollbackActs, Succeeded, Follows, IsPhaseRun;
    var u := UnlockEvents(setup);
    var k := |s.after| - |u|;
    var t := s.after[..k];
    assert s.after == t + u;
    if r == 1 {
      CompletionSaysFailed(t, u, setup, notifications, i, answers, from, show);
    } else {
      RollbackSaysFailed(t, u, setup, i, answers, from, show);
    }
  }

  /** A phase in which a call failed, or could not be made, is on record with an error of its own: as an error or, behind an
      earlier error or in a blocked phase, as a warning. */
  lemma PhaseFailuresHeard(db: Kdb, parent: ParentKey, r: int, after: PlainKeySet, run: Shape, setup: Setup, plan: Plan,
                           was: Option<PlainKeySet>, plugins: Plugins, from: nat, e: Event)
    requires Settled(db, parent, r, after, run, setup, plan, was, plugins, from)
    requires e in Trace(run) && e.Call? && e.outcome != Returned(1) && e.outcome != Returned(0)
    ensures var heard := parent.Heard();
            var x := Report("C01320", "Interface", "kdb.c", "2223", "kdb",
                            "The " + PhaseName(e.phase) + " phase of kdbSet() has failed. See warnings for details.");
            x in heard.warnings || x in heard.reported
  {
    hide RunActs, IsRun, Tied, FactsHold, PlanFacts, Replay, PhaseName;
    var acts := RunActs(run, setup, r, plan.idle, plan.refused, plugins.answers, from, parent.show);
    FailedSaid(run, setup, db.notifications, r, plan.idle, plan.refused, plugins.answers, from, parent.show, e);
    ErrorHeard(Fresh(), acts, PhaseFailed(e.phase));
  }

  lemma FailedSaid(s: Shape, setup: Setup, notifications: nat, r: int, idle: seq<KeyName>, refused: seq<KeyName>,
                   answers: Script, from: nat, show: KeyName -> string, e: Event)
    requires IsRun(s, setup, notifications, r) && e in Trace(s) && e.Call? && !Succeeded(e.outcome)
    ensures Say(AsError(PhaseFailed(e.phase))) in RunActs(s, setup, r, idle, refused, answers, from, show)
  {
    hide IsRun, Consumed, EndingActs, ForwardActs, EventsActs, Succeeded, RunActs, Follows;
    PartsWithin(s, setup, r, idle, refused, answers, from, show);
    CallsInside(s, setup, notifications, r, e);
    ForwardPart(s, setup, notifications, r);
    var mid := from + Consumed(s.before);
    if e in s.forward {
      var i :| 0 <= i < |s.forward| && s.forward[i] == e;
      ForwardSaysFailed(s.forward, FORWARD, setup, r == 1, i, answers, mid, show);
    } else {
      var i :| 0 <= i < |s.after| && s.after[i] == e;
      AfterSaysFailed(s, setup, notifications, r, i, answers, mid + Consumed(s.forward), show);
    }
  }

  /** Calls are made only in runs that get to their phases. */
  lemma CallsInside(s: Shape, setup: Setup, notifications: nat, r: int, e: Event)
    requires IsRun(s, setup, notifications, r) && e in Trace(s) && e.Call?
    ensures s.forward != [] && (e in s.forward || e in s.after)
  {
    hide Follows, IsCompletion, IsRollback;
    if s.forward == [] && Follows([], FORWARD, setup, r == 1) {
      ForwardHasEvents([], setup, r == 1);
      assert false;
    }
  }

  // ----- what is decided before the phases

  lemma {:induction false} WarnedAbout(names: seq<KeyName>, report: KeyName -> Report, n: KeyName)
    requires n in names
    ensures Say(AsWarning(report(n))) in WarningsAbout(names, report)
  {
    var last := |names| - 1;
    assert names == names[..last] + [names[last]];
    if n in names[..last] { WarnedAbout(names[..last], report, n); }
  }

  /** Every selected backend that is not initialized and every read-only backend whose keys changed is on record as a
      warning with its mountpoint; the former also make an error. */
  lemma DecisionsHeard(db: Kdb, parent: ParentKey, r: int, after: PlainKeySet, run: Shape, setup: Setup, plan: Plan,
                       was: Option<PlainKeySet>, plugins: Plugins, from: nat, n: KeyName)
    requires Settled(db, parent, r, after, run, setup, plan, was, plugins, from)
    ensures n in plan.refused ==>
      Report("C01320", "Interface", "kdb.c", "2491", "kdb",
             "The data under the read-only mountpoint '" + parent.show(n) + "' was changed; it will not be stored.") in parent.Heard().warnings
    ensures n in plan.idle ==>
      Report("C01320", "Interface", "kdb.c", "2414", "kdb", "The mountpoint '" + parent.show(n) + "' has not been initialized.")
        in parent.Heard().warnings
    ensures plan.idle != [] ==>
      var x := Report("C01320", "Interface", "kdb.c", "2428", "kdb", "One or more mountpoints have not been initialized.");
      x in parent.Heard().warnings || x in parent.Heard().reported
  {
    hide ForwardActs, EndingActs, EventsActs, IsRun, Tied, FactsHold, PlanFacts, Replay, ParentKey.Heard, WarningsAbout, Consumed;
    var acts := RunActs(run, setup, r, plan.idle, plan.refused, plugins.answers, from, parent.show);
    if n in plan.refused {
      WarnedAbout(plan.refused, (m: KeyName) => ReadOnlyChanged(parent.show(m)), n);
      WarningHeard(Fresh(), acts, ReadOnlyChanged(parent.show(n)));
    }
    if n in plan.idle {
      WarnedAbout(plan.idle, (m: KeyName) => NotInitialized(parent.show(m)), n);
      WarningHeard(Fresh(), acts, NotInitialized(parent.show(n)));
    }
    if plan.idle != [] { ErrorHeard(Fresh(), acts, SomeNotInitialized()); }
  }
}
