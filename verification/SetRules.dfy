/** What a run of kdbSet hands to the storage plugins, and what it notes down for the next run. */
module SetRules {
  import opened KeyNames
  import opened KeySets
  import opened Mountpoints
  import opened Backends
  import opened Protocol
  import opened Answers
  import opened Outcomes
  import opened KdbSet

  // ----- the keys

  /** A written mountpoint starts with its share of the caller's keys below the selection. */
  lemma OpenedKeys(run: Shape, setup: Setup, plan: Plan, notifications: nat, r: int, answers: Script, from: nat, to: nat, i: nat, s: nat)
    requires Ended(run, setup, plan, notifications, r, answers, from, to)
    requires s < |plan.selected| && MountTable(plan.selected)
    requires i < |CallsOf(run.forward, Resolver)| && i < |plan.writing| && plan.selected[s] == plan.writing[i]
    ensures var e := CallsOf(run.forward, Resolver)[i]; e.Call? && e.given == Share(plan.selected, plan.input, s)
  {
    hide IsRun, Tied, Regathered, Shares, Share, RedivisionIs, MountTable, CallsOf, AllPlaced;
    SelectedOnce(plan, i, s);
  }

  /** What the plugins left, from position `from` of the stream on. */
  predicate LeftIn(answers: Script, from: nat, left: seq<KeySet>) {
    forall b | 0 <= b < |left| :: left[b] == answers(from + b).keys
  }

  /** What the plugins left is merged; where the spec hook is installed its keys count, as long as it kept the names. */
  function ToStore(names: seq<KeyName>, spec: bool, answers: Script, start: nat, left: seq<KeySet>): KeySet
    requires |left| == |names|
  {
    var merged, hooked := Merged(names, left, [], |names|), answers(start + 2 * |names|).keys;
    if spec && SameNames(hooked, merged) then hooked else merged
  }

  /** After the pre-storage phase every written mountpoint is stored with its share of what is to be stored. */
  lemma StoredKeys(run: Shape, setup: Setup, plan: Plan, notifications: nat, r: int, answers: Script, from: nat, to: nat,
                   left: seq<KeySet>, i: nat)
    requires Ended(run, setup, plan, notifications, r, answers, from, to)
    requires |left| == |plan.writing| && LeftIn(answers, from + Consumed(run.before) + |plan.writing|, left)
    requires i < |CallsOf(run.forward, Storage)|
    ensures i < |left| && CallsOf(run.forward, Storage)[i].Call?
    ensures CallsOf(run.forward, Storage)[i].given ==
            Share(plan.writing, ToStore(plan.writing, setup.spec, answers, from + Consumed(run.before), left), i)
  {
    hide Ended, Merged, Share, SameNames, CallsOf, Consumed, Regathered, LeftIn, Plain;
    RegatheredKeys(plan.writing, setup.spec, answers, from + Consumed(run.before), left);
    StorageGiven(run, setup, plan, notifications, r, answers, from, to, i);
  }

  lemma StorageGiven(run: Shape, setup: Setup, plan: Plan, notifications: nat, r: int, answers: Script, from: nat, to: nat, i: nat)
    requires Ended(run, setup, plan, notifications, r, answers, from, to) && i < |CallsOf(run.forward, Storage)|
    ensures var e := CallsOf(run.forward, Storage)[i];
            i < |plan.writing| && e.Call? &&
            e.given == Share(plan.writing, Regathered(plan.writing, setup.spec, answers, from + Consumed(run.before)), i)
  {
    hide IsRun, Tied, Share, RedivisionIs, CallsOf, AllPlaced, Openings, Consumed, Regathered, Plain;
  }

  lemma RegatheredKeys(names: seq<KeyName>, spec: bool, answers: Script, start: nat, left: seq<KeySet>)
    requires |left| == |names| && LeftIn(answers, start + |names|, left)
    ensures Regathered(names, spec, answers, start) == ToStore(names, spec, answers, start, left)
  {
    hide MergedAnswers, Merged, SameNames, Plain, Regathered, LeftIn;
    MergedLeft(names, answers, start + |names|, left);
    HookKeeps(names, spec, answers, start, answers(start + 2 * |names|));
  }

  lemma HookKeeps(names: seq<KeyName>, spec: bool, answers: Script, start: nat, a: Answer)
    requires a == answers(start + 2 * |names|)
    ensures Regathered(names, spec, answers, start) == (
      if spec && SameNames(a.keys, MergedAnswers(names, answers, start + |names|)) then a.keys
      else MergedAnswers(names, answers, start + |names|))
  {
    hide MergedAnswers, SameNames, Plain;
  }

  lemma MergedLeft(names: seq<KeyName>, answers: Script, from: nat, left: seq<KeySet>)
    requires |left| == |names| && LeftIn(answers, from, left)
    ensures MergedAnswers(names, answers, from) == Merged(names, left, [], |names|)
  {
    hide Merged, Plain, LeftKeys, LeftIn;
    LeftListed(answers, from, left);
  }

  lemma LeftListed(answers: Script, from: nat, left: seq<KeySet>)
    requires LeftIn(answers, from, left)
    ensures LeftKeys(answers, from, |left|) == left
  {
    hide Plain;
  }

  lemma SelectedOnce(plan: Plan, i: nat, s: nat)
    requires i < |plan.writing| && s < |plan.selected| && plan.selected[s] == plan.writing[i] && MountTable(plan.selected)
    ensures ShareOf(plan, plan.writing[i]) == Share(plan.selected, plan.input, s)
  {
    hide Lt, Share;
    OwnPosition(plan.selected, s);
  }

  lemma OwnPosition(names: seq<KeyName>, s: nat)
    requires s < |names| && MountTable(names)
    ensures IndexOf(names, names[s]) == s
  {
    hide Lt;
    FoundIndex(names, names[s], 0, s);
    LtIrreflexive(names[s]);
  }

  lemma {:induction false} FoundIndex(names: seq<KeyName>, n: RawName, from: nat, s: nat)
    requires from <= s < |names| && names[s] == n
    ensures 0 <= IndexFrom(names, n, from) <= s
    decreases |names| - from
  {
    if names[from] != n { FoundIndex(names, n, from + 1, s); }
  }

  // ----- the numbers of keys

  /** A run that succeeded has merged the keys. */
  lemma SuccessMerges(t: seq<Event>, setup: Setup)
    requires Follows(t, FORWARD, setup, true)
    ensures |t| > 2 * |setup.members|
  {
    hide Follows;
    var n := |setup.members|;
    FollowsOn(t, FORWARD, setup);
    FollowsOn(t[n..], FORWARD[1..], setup);
    FollowsOn(t[n..][n..], FORWARD[1..][1..], setup);
    var k := StageLength(RemoveSpec, setup);
    FollowsOn(t[n..][n..][k..], FORWARD[1..][1..][1..], setup);
  }

  /** After a run that returned 1 the number on record for a written mountpoint outside default:/ is that of the keys its
      plugin left in the pre-storage phase; every other number stays, as all of them do when nothing was written. */
  lemma NumbersAfterSuccess(run: Shape, setup: Setup, plan: Plan, notifications: nat, r: int, answers: Script, from: nat, to: nat,
                            now: seq<Mount>, table: seq<Mount>, j: nat)
    requires Ended(run, setup, plan, notifications, r, answers, from, to) && TableAfter(now, table, plan, run, answers, from)
    requires MountTable(plan.writing) && j < |table|
    ensures |now| == |table| && now[j].(getSize := table[j].getSize) == table[j]
    ensures r == 0 ==> now[j] == table[j]
    ensures table[j].name !in plan.writing || table[j].name.ns == Default ==> now[j] == table[j]
    ensures forall i | 0 <= i < |plan.writing| && plan.writing[i] == table[j].name && r == 1 && table[j].name.ns != Default ::
      now[j].getSize == |answers(from + Consumed(run.before) + |plan.writing| + i).keys|
  {
    hide Tied, MountTable, FactsHold, PlanFacts, Follows, IsCompletion, IsRollback;
    var i := IndexOf(plan.writing, table[j].name);
    if r == 1 { SuccessMerges(run.forward, setup); }
    forall i | 0 <= i < |plan.writing| ensures IndexOf(plan.writing, plan.writing[i]) == i { OwnPosition(plan.writing, i); }
  }
}
