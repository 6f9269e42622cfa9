/** A kdbSet that fails although a backend has committed: from a mount table and keys to the whole run. */
module PartialCommit {
  import opened Wrappers
  import opened KeyNames
  import opened KeySets
  import opened Mountpoints
  import opened Backends
  import opened Pruning
  import opened Protocol
  import opened Answers
  import opened RunReports
  import opened Outcomes
  import opened KdbSet
  import opened Determined

  function MemberNames(members: seq<Member>): (names: seq<KeyName>)
    ensures |names| == |members| && forall i | 0 <= i < |members| :: names[i] == members[i].name
  {
    seq(|members|, i requires 0 <= i < |members| => members[i].name)
  }

  /** Every backend is initialized and writable, and held one key. */
  function OneKeyEach(members: seq<Member>): (table: seq<Mount>)
    ensures |table| == |members| && forall i | 0 <= i < |members| :: table[i] == Mount(members[i].name, members[i], 1, false, true)
  {
    seq(|members|, i requires 0 <= i < |members| => Mount(members[i].name, members[i], 1, false, true))
  }

  /** The caller removes everything below `/`. */
  function Clearing(setup: Setup, notifications: nat): Inputs
    requires setup.members != []
  {
    Inputs(MemberNames(setup.members), OneKeyEach(setup.members), RawName(Cascading, []), NoKeys(), None, setup.spec, setup.record, notifications,
           HalfCommittedAnswers(setup), 0)
  }

  function NoKeys(): PlainKeySet {
    []
  }

  function ClearingPlan(setup: Setup): Plan {
    var names := MemberNames(setup.members);
    Plan(names, [], names, [], [])
  }

  function ClearingEnd(setup: Setup): Ending {
    var run := HalfCommitted(setup);
    Ending(-1, run, setup, ClearingPlan(setup), Consumed(Trace(run)))
  }

  // ----- the plan

  lemma AllUnderRoot(names: seq<KeyName>, n: KeyName)
    requires n in names
    ensures Chosen(names, RawName(Cascading, []), ParentSpaces(RawName(Cascading, [])), n)
  {
    hide RoutedTo;
    assert UnderParent(RawName(Cascading, []), n);
  }

  lemma ClearingScope(setup: Setup, notifications: nat)
    requires setup.members != [] && MountTable(MemberNames(setup.members))
    ensures var x := Clearing(setup, notifications);
            Mounting(x) && IsScope(ClearingPlan(setup), x.names, x.table, x.parent) && Enlisted(setup.members, ClearingPlan(setup).writing, x.table)
  {
    hide Chosen, Lt, HalfCommittedAnswers;
    var names := MemberNames(setup.members);
    forall n | n in names ensures Chosen(names, RawName(Cascading, []), ParentSpaces(RawName(Cascading, [])), n) { AllUnderRoot(names, n); }
    LtDistinct(names);
  }

  lemma LtDistinct(names: seq<KeyName>)
    requires MountTable(names)
    ensures forall i, j | 0 <= i < j < |names| :: names[i] != names[j]
  {
    hide Lt;
    forall i, j | 0 <= i < j < |names| ensures names[i] != names[j] { LtIrreflexive(names[i]); }
  }

  lemma ClearingPlanned(setup: Setup, notifications: nat)
    requires setup.members != [] && MountTable(MemberNames(setup.members))
    ensures var x := Clearing(setup, notifications); IsPlan(ClearingPlan(setup), x.table, NoKeys(), x.allKeys)
  {
    hide Lt, HalfCommittedAnswers, Differs;
    var plan, table := ClearingPlan(setup), OneKeyEach(setup.members);
    forall j, i | 0 <= j < |table| && 0 <= i < |plan.selected| && table[j].name == plan.selected[i] ensures Decided(plan, table[j], i, None) {
      assert Share(plan.selected, [], i) == [];
      assert table[j].name in plan.writing;
    }
    assert IsCollected([], plan.selected, []);
  }

  // ----- the keys

  lemma {:induction false} NothingMerged(names: seq<KeyName>, sets: seq<KeySet>, i: nat)
    requires i <= |names| == |sets| && forall j | 0 <= j < |sets| :: sets[j] == []
    ensures Merged(names, sets, [], i) == []
  {
    if i > 0 {
      NothingMerged(names, sets, i - 1);
      Extensional(Append([], []), []);
    }
  }

  lemma NothingRegathered(names: seq<KeyName>, spec: bool, answers: Script, from: nat)
    requires forall i: nat :: answers(i).keys == []
    ensures Regathered(names, spec, answers, from) == []
  {
    var n := |names|;
    NothingMerged(names, LeftKeys(answers, from + n, n), n);
  }

  /** Events that were given no keys, and divisions that succeed. */
  predicate Unladen(t: seq<Event>) {
    forall i | 0 <= i < |t| :: (t[i].Call? ==> t[i].given == []) && t[i] != Redivided(false)
  }

  lemma UnladenConcat(t: seq<Event>, u: seq<Event>)
    requires Unladen(t) && Unladen(u)
    ensures Unladen(t + u)
  {
  }

  lemma {:induction false} GoodStagesUnladen(k: nat, setup: Setup)
    requires k <= |FORWARD|
    ensures Unladen(GoodStages(k, setup))
  {
    if k > 0 {
      GoodStagesUnladen(k - 1, setup);
      assert Unladen(GoodStage(FORWARD[k - 1], setup));
      UnladenConcat(GoodStages(k - 1, setup), GoodStage(FORWARD[k - 1], setup));
    }
  }

  lemma {:induction false} SelectUnladen(t: seq<Event>, f: Event -> bool)
    requires Unladen(t)
    ensures Unladen(Select(t, f))
  {
    if t != [] {
      SelectUnladen(t[1..], f);
      if f(t[0]) { UnladenConcat([t[0]], Select(t[1..], f)); }
    }
  }

  /** Calls without keys fit backends without shares. */
  lemma UnladenGiven(t: seq<Event>, setup: Setup, p: Phase, sets: seq<KeySet>)
    requires Follows(t, FORWARD, setup, false) && Unladen(t)
    requires |sets| == |setup.members| && forall i | 0 <= i < |sets| :: sets[i] == []
    ensures AreGiven(CallsOf(t, p), sets)
  {
    hide Follows, Select;
    ForwardDistinct();
    PhaseOnce(t, FORWARD, setup, false, p);
    SelectUnladen(t, OfPhase(p));
    forall i | 0 <= i < |CallsOf(t, p)| ensures CallsOf(t, p)[i].Call? { assert IsAttempt(CallsOf(t, p)[i], p, setup.members[i]); }
  }

  lemma ClearingFacts(setup: Setup, from: nat)
    requires |setup.members| >= 2 && CanCommit(setup)
    ensures FactsHold(HalfCommitted(setup).forward, PlanFacts(ClearingPlan(setup), setup.spec, HalfCommittedAnswers(setup), from))
  {
    hide Follows, GoodStages, CallsOf, AreGiven, CanCommit;
    var t, plan, answers := HalfCommitted(setup).forward, ClearingPlan(setup), HalfCommittedAnswers(setup);
    HalfCommittedForward(setup);
    GoodStagesUnladen(8, setup);
    UnladenConcat(GoodStages(8, setup), Calls(Commit, setup.members, 1, ERROR));
    NothingRegathered(plan.writing, setup.spec, answers, from);
    UnladenGiven(t, setup, Resolver, Openings(plan));
    UnladenGiven(t, setup, Storage, Shares(plan.writing, []));
  }

  // ----- the run

  lemma ClearingEnds(setup: Setup, notifications: nat)
    requires |setup.members| >= 2 && CanCommit(setup)
    ensures var e := ClearingEnd(setup);
            Ended(e.run, setup, e.plan, notifications, -1, HalfCommittedAnswers(setup), 0, e.to) && !NothingCommitted(Trace(e.run))
  {
    hide IsRun, NothingCommitted, FactsHold, PlanFacts, CanCommit, Calls, GoodStages, Answered, Consumed, Trace, HalfCommittedAnswers;
    HalfCommittedExample(setup, notifications);
    ClearingFacts(setup, Consumed(HalfCommitted(setup).before));
    assert HalfCommitted(setup).forward != [];
  }

  lemma ClearingKeys(setup: Setup, notifications: nat)
    requires setup.members != []
    ensures KeysAfter(Clearing(setup, notifications), ClearingEnd(setup)) == NoKeys()
  {
    hide Consumed, HalfCommitted;
  }

  lemma SameCommits(t: seq<Event>, u: seq<Event>)
    requires SameCalls(t, u) && NothingCommitted(t)
    ensures NothingCommitted(u)
  {
    forall i | 0 <= i < |u| && u[i].Call? && u[i].phase == Commit ensures !Succeeded(u[i].outcome) { assert Bare(t[i]) == Bare(u[i]); }
  }

  /** Over any two mountpoints or more that can commit: a caller removes everything, all phases go well, and only the first
      backend commits. kdbSet can only end with -1, with that backend committed. */
  lemma HalfCommittedEnd(setup: Setup, notifications: nat, e: Ending)
    requires |setup.members| >= 2 && CanCommit(setup) && MountTable(MemberNames(setup.members))
    ensures var x := Clearing(setup, notifications);
            Mounting(x) && Possible(x, ClearingEnd(setup)) &&
            (Possible(x, e) ==> e.r == -1 && !NothingCommitted(Trace(e.run)))
  {
    hide MountTable, CanCommit, HalfCommitted, HalfCommittedAnswers, Ended, IsScope, IsPlan, Enlisted, NothingCommitted, SameCalls, Consumed,
         Mounting, RunActs, EndsAtOnce;
    var x, c := Clearing(setup, notifications), ClearingEnd(setup);
    ClearingScope(setup, notifications);
    ClearingPlanned(setup, notifications);
    ClearingEnds(setup, notifications);
    ClearingKeys(setup, notifications);
    if Possible(x, e) {
      SameEnding(x, e, c, n => "");
      SameTrace(e.run, c.run);
      if NothingCommitted(Trace(e.run)) { SameCommits(Trace(e.run), Trace(c.run)); }
    }
  }

  lemma SameTrace(s: Shape, s': Shape)
    requires SameRun(s, s')
    ensures SameCalls(Trace(s), Trace(s'))
  {
    hide SameCalls;
    SameConcat(s.before, s'.before, s.forward, s'.forward);
    SameConcat(s.before + s.forward, s'.before + s'.forward, s.after, s'.after);
  }
}
