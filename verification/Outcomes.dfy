/** When a run of kdbSet succeeds, as a condition on the backends, the answers and the keys. */
module Outcomes {
  import opened KeySets
  import opened Protocol
  import opened Answers
  import opened RunReports

  // ----- what the trace does not take from the answers

  /** What is known of a run besides the answers: the keys for the resolver phase, the keys for the storage phase,
      and whether the keys in between can be divided again. */
  datatype Facts = Facts(opening: seq<KeySet>, storing: seq<KeySet>, placed: bool)

  predicate RedivisionIs(t: seq<Event>, placed: bool) {
    forall i | 0 <= i < |t| && t[i].Redivided? :: t[i].ok == placed
  }

  predicate FactsHold(t: seq<Event>, facts: Facts) {
    RedivisionIs(t, facts.placed) && AreGiven(CallsOf(t, Resolver), facts.opening) && AreGiven(CallsOf(t, Storage), facts.storing)
  }

  lemma FactsStart(facts: Facts)
    ensures FactsHold([], facts)
  {
  }

  lemma RedivisionConcat(t: seq<Event>, u: seq<Event>, placed: bool)
    ensures RedivisionIs(t + u, placed) <==> RedivisionIs(t, placed) && RedivisionIs(u, placed)
  {
    var s := t + u;
    forall i | 0 <= i < |t| ensures s[i] == t[i] {}
    forall i | 0 <= i < |u| ensures s[|t| + i] == u[i] {}
  }

  /** A phase that was not reached before gets its keys now. */
  lemma GivenStep(t: seq<Event>, k: nat, u: seq<Event>, setup: Setup, phase: Phase, sets: seq<KeySet>)
    requires k < |FORWARD| && Reached(t, k, setup) && StageTrace(FORWARD[k], u, setup)
    requires AreGiven(CallsOf(t, phase), sets) && (FORWARD[k] == Run(phase) ==> AreGiven(u, sets))
    ensures AreGiven(CallsOf(t + u, phase), sets)
  {
    hide Follows, StageTrace, AreGiven;
    CallsOfConcat(t, u, phase);
    StageCalls(FORWARD[k], u, setup, phase);
    if FORWARD[k] == Run(phase) {
      ForwardDistinct();
      NoOtherCalls(t, FORWARD[..k], setup, true, phase);
      assert [] + u == u;
    } else {
      assert CallsOf(t, phase) + [] == CallsOf(t, phase);
    }
  }

  lemma FactsStep(t: seq<Event>, k: nat, u: seq<Event>, setup: Setup, facts: Facts)
    requires k < |FORWARD| && Reached(t, k, setup) && StageTrace(FORWARD[k], u, setup)
    requires FactsHold(t, facts) && RedivisionIs(u, facts.placed)
    requires FORWARD[k] == Run(Resolver) ==> AreGiven(u, facts.opening)
    requires FORWARD[k] == Run(Storage) ==> AreGiven(u, facts.storing)
    ensures FactsHold(t + u, facts)
  {
    hide Reached, StageTrace, AreGiven, RedivisionIs, CallsOf;
    RedivisionConcat(t, u, facts.placed);
    GivenStep(t, k, u, setup, Resolver, facts.opening);
    GivenStep(t, k, u, setup, Storage, facts.storing);
  }

  lemma PhaseHasNoDivision(u: seq<Event>, phase: Phase, members: seq<Member>, placed: bool)
    requires IsPhaseRun(u, phase, members)
    ensures RedivisionIs(u, placed)
  {
    forall i | 0 <= i < |u| ensures !u[i].Redivided? { assert IsAttempt(u[i], phase, members[i]); }
  }

  // ----- when a stage succeeds

  /** The answers that a stage uses up when it succeeds. */
  function StageAsks(s: Stage, setup: Setup): nat {
    match s
    case Run(_) => |setup.members|
    case RemoveSpec => if setup.spec then 1 else 0
    case Redivide => 0
    case TakeLock => if setup.record then 1 else 0
  }

  /** Every backend has the function of a phase and answers with success or no update; hooks do not fail; and the
      keys can be divided again. */
  predicate StageGood(s: Stage, setup: Setup, answers: Script, from: nat, placed: bool) {
    match s
    case Run(p) => forall i | 0 <= i < |setup.members| ::
      Offers(setup.members[i], FunctionOf(p)) && (answers(from + i).code == 1 || answers(from + i).code == 0)
    case RemoveSpec => setup.spec ==> answers(from).code != -1
    case Redivide => placed
    case TakeLock => setup.record ==> answers(from).code != -1
  }

  predicate StagesGood(stages: seq<Stage>, setup: Setup, answers: Script, from: nat, placed: bool) {
    stages == [] ||
    (StageGood(stages[0], setup, answers, from, placed) &&
     StagesGood(stages[1..], setup, answers, from + StageAsks(stages[0], setup), placed))
  }

  /** Where every event is a call that was made, the codes are the answers one by one. */
  lemma {:induction false} CodesAnswered(t: seq<Event>, answers: Script, from: nat, i: nat)
    requires Answered(t, answers, from) && i < |t| && forall j | 0 <= j < |t| :: t[j].Call? && Asks(t[j])
    ensures t[i].outcome.Returned? && t[i].outcome.code == answers(from + i).code
  {
    assert t[i].Call? && Asks(t[i]);
    var last := |t| - 1;
    if i < last {
      CodesAnswered(t[..last], answers, from, i);
    } else {
      AllAsk(t[..last]);
    }
  }

  lemma PhaseOkIff(p: Phase, t: seq<Event>, setup: Setup, answers: Script, from: nat, to: nat)
    requires IsPhaseRun(t, p, setup.members) && Tied(t, answers, from, to)
    ensures AllSucceeded(t) <==> StageGood(Run(p), setup, answers, from, true)
    ensures AllSucceeded(t) ==> to == from + |setup.members|
  {
    hide Answered, Consumed;
    if forall i | 0 <= i < |t| :: t[i].outcome.Returned? {
      forall i | 0 <= i < |t| ensures t[i].outcome.code == answers(from + i).code && Offers(setup.members[i], FunctionOf(p)) {
        assert IsAttempt(t[i], p, setup.members[i]);
        CodesAnswered(t, answers, from, i);
      }
      AllAsk(t);
      if AllSucceeded(t) {
        forall i | 0 <= i < |setup.members|
          ensures Offers(setup.members[i], FunctionOf(p)) && (answers(from + i).code == 1 || answers(from + i).code == 0)
        {
          assert Succeeded(t[i].outcome);
        }
      }
      if StageGood(Run(p), setup, answers, from, true) {
        forall i | 0 <= i < |t| ensures Succeeded(t[i].outcome) { assert Offers(setup.members[i], FunctionOf(p)); }
      }
    } else {
      var i :| 0 <= i < |t| && t[i].outcome.NoFunction?;
      assert IsAttempt(t[i], p, setup.members[i]);
      assert !Succeeded(t[i].outcome);
    }
  }

  lemma HookOkIff(e: Event, answers: Script, from: nat, to: nat)
    requires Tied([e], answers, from, to) && (e.SpecRemoved? || e.Locked?)
    ensures e.code == answers(from).code && to == from + 1
  {
    TiedOne(e, answers, from);
    ConsumedOne(e);
  }

  /** A stage succeeds exactly when it is good, and uses up its answers. */
  lemma StageOkIff(s: Stage, t: seq<Event>, setup: Setup, answers: Script, from: nat, to: nat, placed: bool)
    requires StageTrace(s, t, setup) && Tied(t, answers, from, to) && RedivisionIs(t, placed)
    ensures StageOk(s, t, setup) <==> StageGood(s, setup, answers, from, placed)
    ensures StageOk(s, t, setup) ==> to == from + StageAsks(s, setup)
  {
    hide Answered, Consumed;
    match s {
      case Run(p) => PhaseOkIff(p, t, setup, answers, from, to);
      case RemoveSpec => if setup.spec { assert t == [t[0]]; HookOkIff(t[0], answers, from, to); } else { ConsumedNothing(); }
      case TakeLock => if setup.record { assert t == [t[0]]; HookOkIff(t[0], answers, from, to); } else { ConsumedNothing(); }
      case Redivide => assert t == [t[0]]; ConsumedOne(t[0]);
    }
  }

  /** The forward stages succeed exactly when all of them are good. */
  lemma {:induction false} FollowsIff(t: seq<Event>, stages: seq<Stage>, setup: Setup, ok: bool, answers: Script, from: nat, to: nat, placed: bool)
    requires Follows(t, stages, setup, ok) && Tied(t, answers, from, to) && RedivisionIs(t, placed)
    ensures ok <==> StagesGood(stages, setup, answers, from, placed)
    decreases |stages|
  {
    hide StageTrace, StageOk, StageLength, StageGood, StageAsks, Follows, Consumed, Answered, RedivisionIs;
    if stages == [] {
      FollowsEnd(t, setup, ok);
    } else {
      FollowsCases(t, stages, setup, ok);
      var k := StageLength(stages[0], setup);
      var u, rest := t[..k], t[k..];
      assert t == u + rest;
      AnsweredConcat(u, rest, answers, from);
      ConsumedConcat(u, rest);
      RedivisionConcat(u, rest, placed);
      var mid := from + Consumed(u);
      StageOkIff(stages[0], u, setup, answers, from, mid, placed);
      if StageOk(stages[0], u, setup) {
        FollowsIff(rest, stages[1..], setup, ok, answers, mid, to, placed);
      }
    }
  }

  /** A run that gets to its phases returns 1 exactly when every stage is good. */
  lemma SuccessIff(run: Shape, setup: Setup, notifications: nat, r: int, answers: Script, from: nat, to: nat, placed: bool)
    requires IsRun(run, setup, notifications, r) && Tied(Trace(run), answers, from, to) && RedivisionIs(run.forward, placed)
    requires run.forward != []
    ensures r == 1 <==> StagesGood(FORWARD, setup, answers, from + Consumed(run.before), placed)
  {
    hide Follows, IsRun, StagesGood, Consumed, Answered, RedivisionIs;
    ForwardPart(run, setup, notifications, r);
    assert Trace(run) == run.before + (run.forward + run.after);
    AnsweredConcat(run.before, run.forward + run.after, answers, from);
    var mid := from + Consumed(run.before);
    AnsweredConcat(run.forward, run.after, answers, mid);
    FollowsIff(run.forward, FORWARD, setup, r == 1, answers, mid, mid + Consumed(run.forward), placed);
  }
}
