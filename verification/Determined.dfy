/** kdbSet is determined: the mount table, the keys of the caller, what kdbGet left and the answers of the plugins fix
    what it decides, calls, returns and records. */
module Determined {
  import opened Wrappers
  import opened KeyNames
  import opened KeySets
  import opened Mountpoints
  import opened Backends
  import opened Reports
  import opened ParentKeys
  import opened Protocol
  import opened Answers
  import opened RunReports
  import opened Outcomes
  import opened KdbSet

  // ----- events that differ at most in the keys that were given

  /** The event without the keys that the backend was given. */
  function Bare(e: Event): Event {
    if e.Call? then e.(given := []) else e
  }

  predicate SameCalls(t: seq<Event>, u: seq<Event>) {
    |t| == |u| && forall i | 0 <= i < |t| :: Bare(t[i]) == Bare(u[i])
  }

  /** What is known of an event before it is answered. */
  function Form(e: Event): Event {
    match e
    case Call(p, fn, b, _, o) => Call(p, fn, b, [], if o.NoFunction? then o else Returned(0))
    case SpecCopied(_) => SpecCopied(0)
    case SpecRemoved(_) => SpecRemoved(0)
    case Locked(_) => Locked(0)
    case _ => e
  }

  predicate SameForms(t: seq<Event>, u: seq<Event>) {
    |t| == |u| && forall i | 0 <= i < |t| :: Form(t[i]) == Form(u[i])
  }

  lemma AnsweredAlike(e: Event, f: Event, a: Answer)
    requires AnsweredBy(e, a) && AnsweredBy(f, a) && Form(e) == Form(f)
    ensures Bare(e) == Bare(f) && Asks(e) == Asks(f)
  {
  }

  lemma BareAsks(e: Event, f: Event)
    requires Bare(e) == Bare(f)
    ensures Asks(e) == Asks(f)
  {
  }

  lemma {:induction false} SameConsumed(t: seq<Event>, u: seq<Event>)
    requires SameCalls(t, u)
    ensures Consumed(t) == Consumed(u)
  {
    hide Bare, Asks;
    if t != [] {
      var last := |t| - 1;
      BareAsks(t[last], u[last]);
      SameConsumed(t[..last], u[..last]);
    }
  }

  /** The answers make events of the same form the same. */
  lemma {:induction false} FormsFixCalls(t: seq<Event>, u: seq<Event>, answers: Script, from: nat)
    requires SameForms(t, u) && Answered(t, answers, from) && Answered(u, answers, from)
    ensures SameCalls(t, u)
  {
    hide Bare, Form, AnsweredBy, Consumed, Asks;
    if t != [] {
      var last := |t| - 1;
      FormsFixCalls(t[..last], u[..last], answers, from);
      SameConsumed(t[..last], u[..last]);
      AnsweredAlike(t[last], u[last], answers(from + Consumed(t[..last])));
      forall i | 0 <= i < |t| ensures Bare(t[i]) == Bare(u[i]) {
        if i < last { assert t[i] == t[..last][i] && u[i] == u[..last][i]; }
      }
    }
  }

  lemma SameConcat(t: seq<Event>, u: seq<Event>, t': seq<Event>, u': seq<Event>)
    requires SameCalls(t, u) && SameCalls(t', u')
    ensures SameCalls(t + t', u + u')
  {
    hide Bare;
  }

  // ----- the forward stages

  lemma PhaseForms(t: seq<Event>, u: seq<Event>, p: Phase, members: seq<Member>)
    requires IsPhaseRun(t, p, members) && IsPhaseRun(u, p, members)
    ensures SameForms(t, u)
  {
    forall i | 0 <= i < |t| ensures Form(t[i]) == Form(u[i]) {
      assert IsAttempt(t[i], p, members[i]) && IsAttempt(u[i], p, members[i]);
    }
  }

  lemma StageForms(s: Stage, t: seq<Event>, u: seq<Event>, setup: Setup, placed: bool)
    requires StageTrace(s, t, setup) && StageTrace(s, u, setup) && RedivisionIs(t, placed) && RedivisionIs(u, placed)
    ensures SameForms(t, u)
  {
    if s.Run? { PhaseForms(t, u, s.phase, setup.members); }
  }

  lemma SameOk(s: Stage, t: seq<Event>, u: seq<Event>, setup: Setup)
    requires StageTrace(s, t, setup) && StageTrace(s, u, setup) && SameCalls(t, u)
    ensures StageOk(s, t, setup) ==> StageOk(s, u, setup)
  {
    if StageOk(s, t, setup) && s.Run? {
      forall i | 0 <= i < |u| && u[i].Call? ensures Succeeded(u[i].outcome) { assert Bare(t[i]) == Bare(u[i]); }
    }
  }

  /** Two passes through the stages with the same answers are the same. */
  lemma {:induction false} SameForward(t: seq<Event>, u: seq<Event>, stages: seq<Stage>, setup: Setup, ok: bool, ok': bool,
                                       answers: Script, from: nat, placed: bool)
    requires Follows(t, stages, setup, ok) && Follows(u, stages, setup, ok')
    requires Answered(t, answers, from) && Answered(u, answers, from) && RedivisionIs(t, placed) && RedivisionIs(u, placed)
    ensures ok == ok' && SameCalls(t, u)
    decreases |stages|
  {
    hide StageTrace, StageOk, StageLength, Follows, Consumed, Answered, RedivisionIs, SameCalls;
    if stages == [] {
      FollowsEnd(t, setup, ok);
      FollowsEnd(u, setup, ok');
      NothingSame();
    } else {
      FollowsCases(t, stages, setup, ok);
      FollowsCases(u, stages, setup, ok');
      var k := StageLength(stages[0], setup);
      SplitAnswered(t, k, answers, from, placed);
      SplitAnswered(u, k, answers, from, placed);
      StageForms(stages[0], t[..k], u[..k], setup, placed);
      FormsFixCalls(t[..k], u[..k], answers, from);
      SameOk(stages[0], t[..k], u[..k], setup);
      SameBack(t[..k], u[..k]);
      SameOk(stages[0], u[..k], t[..k], setup);
      SameConsumed(t[..k], u[..k]);
      if StageOk(stages[0], t[..k], setup) {
        SameForward(t[k..], u[k..], stages[1..], setup, ok, ok', answers, from + Consumed(t[..k]), placed);
        SameConcat(t[..k], u[..k], t[k..], u[k..]);
      }
    }
  }

  lemma NothingSame()
    ensures SameCalls([], [])
  {
  }

  lemma SameBack(t: seq<Event>, u: seq<Event>)
    requires SameCalls(t, u)
    ensures SameCalls(u, t)
  {
    hide Bare;
  }

  lemma SplitAnswered(t: seq<Event>, k: nat, answers: Script, from: nat, placed: bool)
    requires k <= |t| && Answered(t, answers, from) && RedivisionIs(t, placed)
    ensures t == t[..k] + t[k..] && Answered(t[..k], answers, from) && Answered(t[k..], answers, from + Consumed(t[..k]))
    ensures RedivisionIs(t[..k], placed) && RedivisionIs(t[k..], placed)
  {
    hide Answered, Consumed, RedivisionIs;
    assert t == t[..k] + t[k..];
    AnsweredConcat(t[..k], t[k..], answers, from);
    RedivisionConcat(t[..k], t[k..], placed);
  }

  // ----- after the stages

  lemma FormsConcat(t: seq<Event>, u: seq<Event>, t': seq<Event>, u': seq<Event>)
    requires SameForms(t, u) && SameForms(t', u')
    ensures SameForms(t + t', u + u')
  {
    hide Form;
  }

  lemma RollbackForms(t: seq<Event>, u: seq<Event>, setup: Setup)
    requires IsRollback(t, setup) && IsRollback(u, setup)
    ensures SameForms(t, u)
  {
    hide IsPhaseRun, SameForms;
    var n := |setup.members|;
    PhaseForms(t[..n], u[..n], PreRollback, setup.members);
    PhaseForms(t[n..2 * n], u[n..2 * n], Rollback, setup.members);
    PhaseForms(t[2 * n..], u[2 * n..], PostRollback, setup.members);
    FormsConcat(t[..n], u[..n], t[n..2 * n], u[n..2 * n]);
    FormsConcat(t[..n] + t[n..2 * n], u[..n] + u[n..2 * n], t[2 * n..], u[2 * n..]);
    assert t == t[..n] + t[n..2 * n] + t[2 * n..] && u == u[..n] + u[n..2 * n] + u[2 * n..];
  }

  lemma CompletionForms(t: seq<Event>, u: seq<Event>, setup: Setup, notifications: nat)
    requires IsCompletion(t, setup, notifications) && IsCompletion(u, setup, notifications)
    ensures SameForms(t, u)
  {
    hide IsPhaseRun;
    var n := |setup.members|;
    PhaseForms(t[..n], u[..n], PostCommit, setup.members);
    forall i | 0 <= i < |t| ensures Form(t[i]) == Form(u[i]) {
      if i < n { assert t[i] == t[..n][i] && u[i] == u[..n][i]; }
    }
  }

  lemma EndingForms(s: Shape, s': Shape, setup: Setup, notifications: nat, r: int)
    requires IsRun(s, setup, notifications, r) && IsRun(s', setup, notifications, r) && s.forward != [] && s'.forward != []
    ensures SameForms(s.after, s'.after)
  {
    hide Follows, IsCompletion, IsRollback, Opened, SameForms;
    var n := |UnlockEvents(setup)|;
    var t, u := s.after[..|s.after| - n], s'.after[..|s'.after| - n];
    if r == 1 { CompletionForms(t, u, setup, notifications); } else { RollbackForms(t, u, setup); }
    UnlockForms(setup);
    FormsConcat(t, u, UnlockEvents(setup), UnlockEvents(setup));
    assert s.after == t + UnlockEvents(setup) && s'.after == u + UnlockEvents(setup);
  }

  lemma UnlockForms(setup: Setup)
    ensures SameForms(UnlockEvents(setup), UnlockEvents(setup))
  {
  }

  // ----- whole traces

  /** The same calls and hooks in the same order, with the same answers. */
  predicate SameRun(s: Shape, s': Shape) {
    SameCalls(s.before, s'.before) && SameCalls(s.forward, s'.forward) && SameCalls(s.after, s'.after)
  }

  lemma TraceAnswered(s: Shape, answers: Script, from: nat)
    requires Answered(Trace(s), answers, from)
    ensures var mid := from + Consumed(s.before);
            Answered(s.before, answers, from) && Answered(s.forward, answers, mid) &&
            Answered(s.after, answers, mid + Consumed(s.forward))
    ensures Consumed(Trace(s)) == Consumed(s.before) + Consumed(s.forward) + Consumed(s.after)
  {
    hide Answered, Consumed;
    assert Trace(s) == s.before + (s.forward + s.after);
    AnsweredConcat(s.before, s.forward + s.after, answers, from);
    ConsumedConcat(s.before, s.forward + s.after);
    AnsweredConcat(s.forward, s.after, answers, from + Consumed(s.before));
    ConsumedConcat(s.forward, s.after);
  }

  /** Two runs that get to their phases, with the same answers. */
  lemma SamePhases(s: Shape, s': Shape, setup: Setup, notifications: nat, r: int, r': int, answers: Script, from: nat, placed: bool)
    requires IsRun(s, setup, notifications, r) && IsRun(s', setup, notifications, r') && s.forward != [] && s'.forward != []
    requires Answered(Trace(s), answers, from) && Answered(Trace(s'), answers, from) && SameCalls(s.before, s'.before)
    requires RedivisionIs(s.forward, placed) && RedivisionIs(s'.forward, placed)
    ensures r == r' && SameRun(s, s')
  {
    hide Follows, IsRun, Consumed, Answered, RedivisionIs, SameCalls, SameForms, Trace;
    TraceAnswered(s, answers, from);
    TraceAnswered(s', answers, from);
    SameConsumed(s.before, s'.before);
    ForwardPart(s, setup, notifications, r);
    ForwardPart(s', setup, notifications, r');
    SameForward(s.forward, s'.forward, FORWARD, setup, r == 1, r' == 1, answers, from + Consumed(s.before), placed);
    SameConsumed(s.forward, s'.forward);
    PhasesReturn(s, setup, notifications, r);
    PhasesReturn(s', setup, notifications, r');
    EndingForms(s, s', setup, notifications, r);
    FormsFixCalls(s.after, s'.after, answers, from + Consumed(s.before) + Consumed(s.forward));
  }

  lemma PhasesReturn(s: Shape, setup: Setup, notifications: nat, r: int)
    requires IsRun(s, setup, notifications, r) && s.forward != []
    ensures r == 1 || r == -1
  {
    hide Follows, IsCompletion, IsRollback;
  }

  // ----- what a run does to the record

  lemma {:induction false} SameEventsActs(t: seq<Event>, u: seq<Event>, answers: Script, from: nat, show: KeyName -> string)
    requires SameCalls(t, u)
    ensures EventsActs(t, answers, from, show) == EventsActs(u, answers, from, show)
  {
    hide EventActs, Consumed, Bare;
    if t != [] {
      var last := |t| - 1;
      SameEventsActs(t[..last], u[..last], answers, from, show);
      SameConsumed(t[..last], u[..last]);
      SameEventActs(t[last], u[last], answers(from + Consumed(t[..last])), show);
    }
  }

  lemma SameEventActs(e: Event, f: Event, a: Answer, show: KeyName -> string)
    requires Bare(e) == Bare(f)
    ensures EventActs(e, a, show) == EventActs(f, a, show)
  {
  }

  lemma SameSuccess(t: seq<Event>, u: seq<Event>)
    requires SameCalls(t, u)
    ensures AllSucceeded(t) ==> AllSucceeded(u)
  {
    if AllSucceeded(t) {
      forall i | 0 <= i < |u| && u[i].Call? ensures Succeeded(u[i].outcome) { assert Bare(t[i]) == Bare(u[i]); }
    }
  }

  lemma SamePhaseActs(t: seq<Event>, u: seq<Event>, p: Phase, blocked: bool, answers: Script, from: nat, show: KeyName -> string)
    requires SameCalls(t, u)
    ensures PhaseActs(t, p, blocked, answers, from, show) == PhaseActs(u, p, blocked, answers, from, show)
  {
    hide SameCalls, AllSucceeded, EventsActs;
    SameEventsActs(t, u, answers, from, show);
    SameSuccess(t, u);
    SameBack(t, u);
    SameSuccess(u, t);
  }

  lemma SameSlice(t: seq<Event>, u: seq<Event>, i: nat, j: nat)
    requires SameCalls(t, u) && i <= j <= |t|
    ensures |u| == |t| && SameCalls(t[i..j], u[i..j])
  {
    hide Bare;
  }

  lemma SameCut(t: seq<Event>, u: seq<Event>, k: nat)
    requires SameCalls(t, u) && k <= |t|
    ensures |u| == |t| && SameCalls(t[..k], u[..k]) && SameCalls(t[k..], u[k..])
  {
    hide Bare;
  }

  lemma {:induction false} SameForwardActs(t: seq<Event>, u: seq<Event>, stages: seq<Stage>, setup: Setup, answers: Script, from: nat,
                                           show: KeyName -> string)
    requires SameCalls(t, u)
    ensures ForwardActs(t, stages, setup, answers, from, show) == ForwardActs(u, stages, setup, answers, from, show)
    decreases |stages|
  {
    hide PhaseActs, EventsActs, Consumed, StageLength, Bare;
    if stages != [] && StageLength(stages[0], setup) <= |t| {
      var k := StageLength(stages[0], setup);
      SameCut(t, u, k);
      SameConsumed(t[..k], u[..k]);
      if stages[0].Run? {
        SamePhaseActs(t[..k], u[..k], stages[0].phase, false, answers, from, show);
      } else {
        SameEventsActs(t[..k], u[..k], answers, from, show);
      }
      SameForwardActs(t[k..], u[k..], stages[1..], setup, answers, from + Consumed(t[..k]), show);
    }
  }

  lemma SameCompletionActs(t: seq<Event>, u: seq<Event>, members: seq<Member>, answers: Script, from: nat, show: KeyName -> string)
    requires SameCalls(t, u) && |members| <= |t|
    ensures |u| == |t| && CompletionActs(t, members, answers, from, show) == CompletionActs(u, members, answers, from, show)
  {
    hide PhaseActs, EventsActs, Consumed, SameCalls;
    var n := |members|;
    SameCut(t, u, n);
    SameConsumed(t[..n], u[..n]);
    SamePhaseActs(t[..n], u[..n], PostCommit, true, answers, from, show);
    SameEventsActs(t[n..], u[n..], answers, from + Consumed(t[..n]), show);
  }

  lemma SameRollbackActs(t: seq<Event>, u: seq<Event>, members: seq<Member>, answers: Script, from: nat, show: KeyName -> string)
    requires SameCalls(t, u) && 3 * |members| <= |t|
    ensures |u| == |t| && RollbackActs(t, members, answers, from, show) == RollbackActs(u, members, answers, from, show)
  {
    hide PhaseActs, EventsActs, Consumed, SameCalls;
    var n := |members|;
    SameCut(t, u, n);
    SameSlice(t, u, n, 2 * n);
    SameSlice(t, u, 2 * n, 3 * n);
    SameConsumed(t[..n], u[..n]);
    SameConsumed(t[n..2 * n], u[n..2 * n]);
    SamePhaseActs(t[..n], u[..n], PreRollback, true, answers, from, show);
    SamePhaseActs(t[n..2 * n], u[n..2 * n], Rollback, true, answers, from + Consumed(t[..n]), show);
    SamePhaseActs(t[2 * n..3 * n], u[2 * n..3 * n], PostRollback, true, answers, from + Consumed(t[..n]) + Consumed(t[n..2 * n]), show);
  }

  lemma SameRunActs(s: Shape, s': Shape, setup: Setup, r: int, idle: seq<KeyName>, refused: seq<KeyName>,
                    answers: Script, from: nat, show: KeyName -> string)
    requires SameRun(s, s')
    ensures RunActs(s, setup, r, idle, refused, answers, from, show) == RunActs(s', setup, r, idle, refused, answers, from, show)
  {
    hide ForwardActs, EventsActs, CompletionActs, RollbackActs, IdleActs, RefusalActs, Consumed, Bare;
    var mid := from + Consumed(s.before);
    SameEventsActs(s.before, s'.before, answers, from, show);
    SameConsumed(s.before, s'.before);
    SameConsumed(s.forward, s'.forward);
    SameForwardActs(s.forward, s'.forward, FORWARD, setup, answers, mid, show);
    var last := mid + Consumed(s.forward);
    if r == 1 && |setup.members| <= |s.after| {
      SameCompletionActs(s.after, s'.after, setup.members, answers, last, show);
    } else if r == -1 && 3 * |setup.members| <= |s.after| {
      SameRollbackActs(s.after, s'.after, setup.members, answers, last, show);
    }
  }

  // ----- what a run decides

  /** Everything that a run with acceptable arguments starts from. */
  datatype Inputs = Inputs(names: seq<KeyName>, table: seq<Mount>, parent: KeyName, ks: PlainKeySet, allKeys: Option<PlainKeySet>,
                           spec: bool, record: bool, notifications: nat, answers: Script, from: nat)

  /** How it ends. */
  datatype Ending = Ending(r: int, run: Shape, setup: Setup, plan: Plan, to: nat)

  predicate Mounting(x: Inputs) {
    MountTable(x.names) && Describes(x.table, x.names)
  }

  /** The keys that the caller has afterwards. */
  function KeysAfter(x: Inputs, e: Ending): PlainKeySet {
    if e.run.before != [] then x.answers(x.from).keys else x.ks
  }

  /** What kdbSet promises about a run. */
  ghost predicate Possible(x: Inputs, e: Ending) {
    Ended(e.run, e.setup, e.plan, x.notifications, e.r, x.answers, x.from, e.to) && e.setup.spec == x.spec && e.setup.record == x.record &&
    IsScope(e.plan, x.names, x.table, x.parent) && Enlisted(e.setup.members, e.plan.writing, x.table) &&
    (e.r != -1 || e.run.forward != [] ==> IsPlan(e.plan, x.table, KeysAfter(x, e), x.allKeys))
  }

  /** Tables with the same mountpoints are the same. */
  lemma {:induction false} SameTable(a: seq<KeyName>, b: seq<KeyName>)
    requires MountTable(a) && MountTable(b) && forall n :: n in a <==> n in b
    ensures a == b
  {
    hide Lt;
    assert b != [] ==> b[0] in a;
    if a != [] {
      assert a[0] in b;
      LeastSame(a, b);
      forall n ensures n in a[1..] <==> n in b[1..] {
        RestIn(a, n);
        RestIn(b, n);
      }
      SameTable(a[1..], b[1..]);
      assert a == [a[0]] + a[1..] && b == [b[0]] + b[1..];
    }
  }

  lemma LeastSame(a: seq<KeyName>, b: seq<KeyName>)
    requires MountTable(a) && MountTable(b) && a != [] && b != [] && a[0] in b && b[0] in a
    ensures a[0] == b[0]
  {
    hide Lt;
    var i :| 0 <= i < |b| && b[i] == a[0];
    var j :| 0 <= j < |a| && a[j] == b[0];
    LtTotal(a[0], b[0]);
  }

  lemma RestIn(a: seq<KeyName>, n: KeyName)
    requires MountTable(a) && a != []
    ensures n in a[1..] <==> n in a && n != a[0]
  {
    hide Lt;
    assert a == [a[0]] + a[1..];
    LtIrreflexive(a[0]);
    if n in a[1..] {
      var i :| 0 <= i < |a[1..]| && a[1..][i] == n;
      assert a[i + 1] == n && Lt(a[0], a[i + 1]);
    }
  }

  lemma ListedAt(x: Inputs, n: KeyName) returns (j: nat)
    requires Mounting(x) && n in x.names
    ensures j < |x.table| && x.table[j].name == n
  {
    hide MountTable;
    var i :| 0 <= i < |x.names| && x.names[i] == n;
    j := i;
  }

  lemma SameScope(x: Inputs, p: Plan, q: Plan)
    requires Mounting(x) && IsScope(p, x.names, x.table, x.parent) && IsScope(q, x.names, x.table, x.parent)
    ensures p.selected == q.selected && p.idle == q.idle
  {
    hide MountTable, Chosen;
    SameTable(p.selected, q.selected);
    forall n ensures n in p.idle <==> n in q.idle {
      if n in p.selected { var j := ListedAt(x, n); }
    }
    SameTable(p.idle, q.idle);
  }

  lemma SameDecision(x: Inputs, p: Plan, q: Plan, n: KeyName)
    requires Mounting(x) && p.selected == q.selected && p.input == q.input && n in p.selected && n in x.names
    requires IsPlan(p, x.table, x.ks, x.allKeys) && IsPlan(q, x.table, x.ks, x.allKeys)
    ensures (n in p.writing <==> n in q.writing) && (n in p.refused <==> n in q.refused)
  {
    hide MountTable, IsCollected, Share;
    var j := ListedAt(x, n);
    var i :| 0 <= i < |p.selected| && p.selected[i] == n;
    assert Decided(p, x.table[j], i, x.allKeys) && Decided(q, x.table[j], i, x.allKeys);
  }

  /** The plan is fixed by the table, the keys and what kdbGet left. */
  lemma SamePlan(x: Inputs, p: Plan, q: Plan)
    requires Mounting(x) && IsScope(p, x.names, x.table, x.parent) && IsScope(q, x.names, x.table, x.parent)
    requires IsPlan(p, x.table, x.ks, x.allKeys) && IsPlan(q, x.table, x.ks, x.allKeys)
    ensures p == q
  {
    hide MountTable, Chosen, Decided, Mounting;
    SameScope(x, p, q);
    assert p.input == q.input by { Extensional(p.input, q.input); }
    forall n ensures (n in p.writing <==> n in q.writing) && (n in p.refused <==> n in q.refused) {
      if n in p.selected { SameDecision(x, p, q, n); }
    }
    SameTable(p.writing, q.writing);
    SameTable(p.refused, q.refused);
  }

  lemma SameMembers(x: Inputs, writing: seq<KeyName>, a: seq<Member>, b: seq<Member>)
    requires Mounting(x) && Enlisted(a, writing, x.table) && Enlisted(b, writing, x.table) && forall n | n in writing :: n in x.names
    ensures a == b
  {
    hide MountTable;
    forall i | 0 <= i < |a| ensures a[i] == b[i] {
      var j := ListedAt(x, writing[i]);
    }
  }

  // ----- the theorem

  /** The run ends before its first phase: a backend is not initialized, or the spec hook fails. */
  predicate EndsAtOnce(x: Inputs, plan: Plan) {
    plan.idle != [] || (x.spec && x.answers(x.from).code == -1)
  }

  lemma BeforeIs(x: Inputs, e: Ending)
    requires Possible(x, e)
    ensures e.run.before == if e.plan.idle == [] && x.spec then [SpecCopied(x.answers(x.from).code)] else []
    ensures e.r == -1 && e.run.forward == [] <==> EndsAtOnce(x, e.plan)
  {
    hide IsScope, IsPlan, Enlisted, Follows, IsCompletion, IsRollback, PlanFacts, FactsHold;
    var b := e.run.before;
    TraceAnswered(e.run, x.answers, x.from);
    if b != [] {
      assert b == [b[0]] && b[0].SpecCopied?;
      TiedOne(b[0], x.answers, x.from);
    }
  }

  lemma EarlyEnd(x: Inputs, e: Ending)
    requires Possible(x, e) && e.run.forward == []
    ensures e.run.after == if e.r == -1 then UnlockEvents(e.setup) else []
  {
    hide IsScope, IsPlan, Enlisted, Follows, IsCompletion, IsRollback, PlanFacts, FactsHold;
    if e.r == 1 { ForwardHasEvents(e.run.forward, e.setup, true); assert false; }
    if e.r == -1 && Follows(e.run.forward, FORWARD, e.setup, false) { ForwardHasEvents(e.run.forward, e.setup, false); assert false; }
  }

  lemma SameAtOnce(x: Inputs, a: Ending, b: Ending)
    requires Mounting(x) && Possible(x, a) && Possible(x, b) && EndsAtOnce(x, a.plan) && a.plan.idle == b.plan.idle
    ensures a.r == -1 == b.r && a.setup == b.setup && a.run == b.run && a.plan.writing == b.plan.writing && a.plan.refused == b.plan.refused
  {
    hide Mounting, IsScope, IsPlan, Follows, IsRun, FactsHold, PlanFacts, Answered, Consumed;
    BeforeIs(x, a);
    BeforeIs(x, b);
    assert a.plan.writing == [] == b.plan.writing;
    SameMembers(x, [], a.setup.members, b.setup.members);
    EarlyEnd(x, a);
    EarlyEnd(x, b);
  }

  /** A run that goes on has a plan. */
  lemma SamePlanned(x: Inputs, a: Ending, b: Ending)
    requires Mounting(x) && Possible(x, a) && Possible(x, b) && !EndsAtOnce(x, a.plan)
    ensures a.run.before == b.run.before && !EndsAtOnce(x, b.plan) && a.plan == b.plan && a.setup == b.setup
  {
    hide MountTable, IsPlan, Enlisted, Ended, Chosen;
    SameScope(x, a.plan, b.plan);
    BeforeIs(x, a);
    BeforeIs(x, b);
    SamePlan(x.(ks := KeysAfter(x, a)), a.plan, b.plan);
    WritingMounted(x.(ks := KeysAfter(x, a)), a.plan);
    SameMembers(x, a.plan.writing, a.setup.members, b.setup.members);
  }

  lemma WritingMounted(x: Inputs, plan: Plan)
    requires IsScope(plan, x.names, x.table, x.parent) && IsPlan(plan, x.table, x.ks, x.allKeys)
    ensures forall n | n in plan.writing :: n in x.names
  {
    hide MountTable, Chosen, IsCollected, Decided;
  }

  lemma GoesOn(x: Inputs, e: Ending)
    requires Possible(x, e) && !EndsAtOnce(x, e.plan)
    ensures e.run.forward == [] <==> e.plan.writing == []
    ensures e.plan.writing == [] ==> e.r == 0 && e.run.after == []
  {
    hide IsScope, IsPlan, Enlisted, Follows, IsCompletion, IsRollback, PlanFacts, FactsHold, Answered, Consumed;
    BeforeIs(x, e);
    if e.r == 1 { ForwardHasEvents(e.run.forward, e.setup, true); }
  }

  lemma SameLater(x: Inputs, a: Ending, b: Ending)
    requires Mounting(x) && Possible(x, a) && Possible(x, b) && !EndsAtOnce(x, a.plan)
    ensures a.r == b.r && SameRun(a.run, b.run)
  {
    hide Mounting, IsScope, IsPlan, Enlisted, Follows, IsRun, PlanFacts, Answered, Consumed, CallsOf, RedivisionIs, AreGiven, Trace, SameCalls,
         EndsAtOnce;
    SamePlanned(x, a, b);
    GoesOn(x, a);
    GoesOn(x, b);
    SameSelf(a.run.before);
    if a.plan.writing == [] {
      NothingSame();
    } else {
      var facts := PlanFacts(a.plan, x.spec, x.answers, x.from + Consumed(a.run.before));
      SamePhases(a.run, b.run, a.setup, x.notifications, a.r, b.r, x.answers, x.from, facts.placed);
    }
  }

  lemma SameSelf(t: seq<Event>)
    ensures SameCalls(t, t)
  {
  }

  lemma SameTo(x: Inputs, a: Ending, b: Ending)
    requires Possible(x, a) && Possible(x, b) && SameRun(a.run, b.run)
    ensures a.to == b.to
  {
    hide IsScope, IsPlan, Enlisted, Follows, IsRun, PlanFacts, FactsHold, Answered, Consumed, SameCalls, Trace;
    TraceAnswered(a.run, x.answers, x.from);
    TraceAnswered(b.run, x.answers, x.from);
    SameConsumed(a.run.before, b.run.before);
    SameConsumed(a.run.forward, b.run.forward);
    SameConsumed(a.run.after, b.run.after);
  }

  /** Two endings that are possible are the same: the return value, the answers that were used, the members, the plan
      with its shares, the calls and hooks with their answers, and what all of it does to the error record. */
  lemma SameEnding(x: Inputs, a: Ending, b: Ending, show: KeyName -> string)
    requires Mounting(x) && Possible(x, a) && Possible(x, b)
    ensures a.r == b.r && a.to == b.to && a.setup == b.setup && SameRun(a.run, b.run)
    ensures a.plan.(input := b.plan.input) == b.plan && (EndsAtOnce(x, a.plan) || a.plan.input == b.plan.input)
    ensures KeysAfter(x, a) == KeysAfter(x, b)
    ensures RunActs(a.run, a.setup, a.r, a.plan.idle, a.plan.refused, x.answers, x.from, show) ==
            RunActs(b.run, b.setup, b.r, b.plan.idle, b.plan.refused, x.answers, x.from, show)
  {
    hide Mounting, RunActs, IsPlan, Enlisted, FactsHold, PlanFacts, SameCalls, IsRun, Answered, Consumed, Chosen, MountTable;
    SameScope(x, a.plan, b.plan);
    BeforeIs(x, a);
    BeforeIs(x, b);
    if EndsAtOnce(x, a.plan) {
      SameAtOnce(x, a, b);
      SameSelf(a.run.before);
      SameSelf(a.run.forward);
      SameSelf(a.run.after);
    } else {
      SamePlanned(x, a, b);
      SameLater(x, a, b);
    }
    SameTo(x, a, b);
    SameRunActs(a.run, b.run, a.setup, a.r, a.plan.idle, a.plan.refused, x.answers, x.from, show);
  }

  lemma SameTables(now: seq<Mount>, now': seq<Mount>, table: seq<Mount>, plan: Plan, plan': Plan, run: Shape, run': Shape, answers: Script, from: nat)
    requires TableAfter(now, table, plan, run, answers, from) && TableAfter(now', table, plan', run', answers, from)
    requires plan.writing == plan'.writing && SameRun(run, run')
    ensures now == now'
  {
    hide SameCalls, Consumed, IndexOf, NewSize;
    SameConsumed(run.before, run'.before);
    SameLength(run.forward, run'.forward);
    forall j | 0 <= j < |table| ensures now[j] == now'[j] {
      assert SizeAfter(table[j], plan, run, answers, from) == SizeAfter(table[j], plan', run', answers, from);
    }
  }

  lemma SameLength(t: seq<Event>, u: seq<Event>)
    requires SameCalls(t, u)
    ensures |t| == |u|
  {
  }

  /** What kdbSet returns and leaves behind is fixed by what it starts from and by the answers of the plugins: the return
      value, the keys of the caller, the error record, allKeys, and the facts about the backends. */
  lemma SetDetermined(db: Kdb, parent: ParentKey, plugins: Plugins, r: int, after: PlainKeySet, run: Shape, setup: Setup, plan: Plan,
                      db': Kdb, parent': ParentKey, plugins': Plugins, r': int, after': PlainKeySet, run': Shape, setup': Setup, plan': Plan,
                      names: seq<KeyName>, table: seq<Mount>, ks: PlainKeySet, was: Option<PlainKeySet>, from: nat)
    requires MountTable(names) && Describes(table, names)
    requires Concluded(db, parent, r, ks, after, run, setup, plan, names, table, was, plugins, from)
    requires Concluded(db', parent', r', ks, after', run', setup', plan', names, table, was, plugins', from)
    requires TableAfter(Mounts(db.backends), table, plan, run, plugins.answers, from)
    requires TableAfter(Mounts(db'.backends), table, plan', run', plugins'.answers, from)
    requires db.hasSpec == db'.hasSpec && db.hasRecord == db'.hasRecord && db.notifications == db'.notifications
    requires plugins.answers == plugins'.answers && parent.name == parent'.name && parent.show == parent'.show
    ensures r == r' && after == after' && db.allKeys == db'.allKeys && Mounts(db.backends) == Mounts(db'.backends)
    ensures parent.Heard() == parent'.Heard() && plugins.next == plugins'.next && SameRun(run, run')
  {
    hide MountTable, IsScope, IsPlan, Enlisted, Ended, RunActs, Replay, Tracked, Plain, ParentKey.Heard, SameCalls, TableAfter, Describes, Mounts,
         EndsAtOnce;
    var x := Inputs(names, table, parent.name, ks, was, db.hasSpec, db.hasRecord, db.notifications, plugins.answers, from);
    var a, b := Ending(r, run, setup, plan, plugins.next), Ending(r', run', setup', plan', plugins'.next);
    SameEnding(x, a, b, parent.show);
    SameTables(Mounts(db.backends), Mounts(db'.backends), table, plan, plan', run, run', plugins.answers, from);
  }
}
