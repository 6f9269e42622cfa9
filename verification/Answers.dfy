/** What plugins and hooks answer, which events of a trace are such answers, and what they make the error
    record say. */
module Answers {
  import opened KeyNames
  import opened KeySets
  import opened Changes
  import opened ErrorRecord
  import opened Reports
  import opened Protocol

  /** Keys that a backend may hold: their metadata is proper. */
  predicate Plain(ks: KeySet) {
    ValidKeys(ks)
  }

  type PlainKeySet = ks: KeySet | Plain(ks)

  /** What a call into a plugin or hook comes back with: a code, the keys it leaves, the value it gives
      the parent key, and what it reports there. */
  datatype Answer = Answer(code: int, keys: PlainKeySet, value: string, notes: seq<Note>)

  type Script = nat -> Answer

  /** The plugins and hooks: an arbitrary stream of answers. */
  class Plugins {
    const answers: Script
    var next: nat

    constructor (answers: Script)
      ensures this.answers == answers && next == 0
    {
      this.answers, next := answers, 0;
    }

    method Ask() returns (a: Answer)
      modifies this`next
      ensures a == answers(old(next)) && next == old(next) + 1
    {
      a := answers(next);
      next := next + 1;
    }
  }

  // ----- the trace and the answers

  /** Events that are calls into a plugin or hook. */
  predicate Asks(e: Event) {
    match e
    case Call(_, _, _, _, o) => o.Returned?
    case Redivided(_) => false
    case _ => true
  }

  function Consumed(t: seq<Event>): nat {
    if t == [] then 0 else Consumed(t[..|t| - 1]) + if Asks(t[|t| - 1]) then 1 else 0
  }

  /** The code in the event is the code of the answer. */
  predicate AnsweredBy(e: Event, a: Answer) {
    match e
    case Call(_, _, _, _, Returned(c)) => c == a.code
    case SpecCopied(c) => c == a.code
    case SpecRemoved(c) => c == a.code
    case Locked(c) => c == a.code
    case _ => true
  }

  /** The answers from `from` on, one for each event that asks, in order. */
  predicate Answered(t: seq<Event>, answers: Script, from: nat) {
    t == [] ||
    (Answered(t[..|t| - 1], answers, from) && AnsweredBy(t[|t| - 1], answers(from + Consumed(t[..|t| - 1]))))
  }

  /** The trace is exactly what the answers between two positions of the stream make it. */
  predicate Tied(t: seq<Event>, answers: Script, from: nat, to: nat) {
    Answered(t, answers, from) && to == from + Consumed(t)
  }

  lemma {:induction false} ConsumedConcat(t: seq<Event>, u: seq<Event>)
    ensures Consumed(t + u) == Consumed(t) + Consumed(u)
  {
    if u == [] {
      assert t + u == t;
    } else {
      ConsumedConcat(t, u[..|u| - 1]);
      assert (t + u)[..|t + u| - 1] == t + u[..|u| - 1];
    }
  }

  lemma {:induction false} AnsweredConcat(t: seq<Event>, u: seq<Event>, answers: Script, from: nat)
    ensures Answered(t + u, answers, from) <==> Answered(t, answers, from) && Answered(u, answers, from + Consumed(t))
  {
    hide AnsweredBy;
    if u == [] {
      assert t + u == t;
    } else {
      AnsweredConcat(t, u[..|u| - 1], answers, from);
      assert (t + u)[..|t + u| - 1] == t + u[..|u| - 1];
      ConsumedConcat(t, u[..|u| - 1]);
    }
  }

  lemma TiedConcat(t: seq<Event>, u: seq<Event>, answers: Script, from: nat, mid: nat, to: nat)
    requires Tied(t, answers, from, mid) && Tied(u, answers, mid, to)
    ensures Tied(t + u, answers, from, to)
  {
    AnsweredConcat(t, u, answers, from);
    ConsumedConcat(t, u);
  }

  lemma TiedNothing(answers: Script, from: nat)
    ensures Tied([], answers, from, from)
  {
  }

  lemma TiedOne(e: Event, answers: Script, from: nat)
    ensures Tied([e], answers, from, if Asks(e) then from + 1 else from) <==> AnsweredBy(e, answers(from))
  {
    var t := [e];
    assert t[..|t| - 1] == [] && Consumed([]) == 0;
    assert Consumed(t) == if Asks(e) then 1 else 0;
    assert Answered([], answers, from) && from + Consumed([]) == from;
    assert Answered(t, answers, from) <==> AnsweredBy(e, answers(from + Consumed(t[..|t| - 1])));
  }

  /** The keys that were given to the backends, call by call. */
  predicate AreGiven(t: seq<Event>, sets: seq<KeySet>) {
    |t| <= |sets| && forall i | 0 <= i < |t| :: t[i].Call? && t[i].given == sets[i]
  }

  // ----- the reports of kdb.c

  function Interface(line: string, reason: string): Report {
    Report("C01320", "Interface", "kdb.c", line, "kdb", reason)
  }

  function Internal(line: string, reason: string): Report {
    Report("C01310", "Internal", "kdb.c", line, "kdb", reason)
  }

  function PhaseName(p: Phase): string {
    match p
    case Resolver => "resolver"
    case PreStorage => "prestorage"
    case Storage => "storage"
    case PostStorage => "poststorage"
    case PreCommit => "precommit"
    case Commit => "commit"
    case PostCommit => "postcommit"
    case PreRollback => "prerollback"
    case Rollback => "rollback"
    case PostRollback => "postrollback"
  }

  function WithoutFunction(mountpoint: string): Report {
    Interface("2149", "The plugin of the mountpoint '" + mountpoint + "' does not have the needed function.")
  }

  function CallFailed(mountpoint: string, p: Phase): Report {
    Interface("2203", "Calling the plugin of '" + mountpoint + "' has failed during the " + PhaseName(p) + " phase.")
  }

  function NoUpdate(mountpoint: string): Report {
    Interface("2072", "The plugin of '" + mountpoint + "' returned no update; it still goes through all phases.")
  }

  function PhaseFailed(p: Phase): Report {
    Interface("2223", "The " + PhaseName(p) + " phase of kdbSet() has failed. See warnings for details.")
  }

  function ErrorsIgnored(p: Phase): Report {
    Interface("2237", "Errors in " + PhaseName(p) + " are ignored. The error was converted into a warning.")
  }

  function NotDivided(): Report {
    Internal("2553", "Couldn't divide keys into mountpoints after spec removal.")
  }

  function NotInitialized(mountpoint: string): Report {
    Interface("2414", "The mountpoint '" + mountpoint + "' has not been initialized.")
  }

  function SomeNotInitialized(): Report {
    Interface("2428", "One or more mountpoints have not been initialized.")
  }

  function ReadOnlyChanged(mountpoint: string): Report {
    Interface("2491", "The data under the read-only mountpoint '" + mountpoint + "' was changed; it will not be stored.")
  }

  // ----- what an event makes the record say

  function WarnsOf(r: Report, condition: bool): seq<Act> {
    if condition then [Say(AsWarning(r))] else []
  }

  function ErrsOf(r: Report, condition: bool): seq<Act> {
    if condition then [Say(AsError(r))] else []
  }

  /** What an event does to the record of the parent key; `show` writes out names. */
  function EventActs(e: Event, a: Answer, show: KeyName -> string): seq<Act> {
    match e
    case Call(_, _, b, _, NoFunction) => [Say(AsWarning(WithoutFunction(show(b))))]
    case Call(p, _, b, _, Returned(c)) =>
      Says(a.notes) + WarnsOf(NoUpdate(show(b)), p == Resolver && c == 0) + WarnsOf(CallFailed(show(b), p), c != 0 && c != 1)
    case SpecCopied(_) => Says(a.notes)
    case SpecRemoved(_) => Says(a.notes)
    case Redivided(ok) => ErrsOf(NotDivided(), !ok)
    case Locked(c) => if c == ERROR then [Impose(a.notes)] else []
    case Unlocked => []
    case Notified => Says(a.notes)
    case Recorded => Says(a.notes)
  }

  function EventsActs(t: seq<Event>, answers: Script, from: nat, show: KeyName -> string): seq<Act> {
    if t == [] then []
    else
      var last := |t| - 1;
      EventsActs(t[..last], answers, from, show) + EventActs(t[last], answers(from + Consumed(t[..last])), show)
  }

  lemma {:induction false} EventsActsConcat(t: seq<Event>, u: seq<Event>, answers: Script, from: nat, show: KeyName -> string)
    ensures EventsActs(t + u, answers, from, show) ==
            EventsActs(t, answers, from, show) + EventsActs(u, answers, from + Consumed(t), show)
  {
    hide EventActs;
    if u == [] {
      assert t + u == t;
    } else {
      EventsActsConcat(t, u[..|u| - 1], answers, from, show);
      assert (t + u)[..|t + u| - 1] == t + u[..|u| - 1];
      ConsumedConcat(t, u[..|u| - 1]);
    }
  }

  lemma EventsActsOne(e: Event, answers: Script, from: nat, show: KeyName -> string)
    ensures EventsActs([e], answers, from, show) == EventActs(e, answers(from), show)
  {
    hide EventActs;
    var t := [e];
    assert t[..|t| - 1] == [] && Consumed([]) == 0 && EventsActs([], answers, from, show) == [];
  }

  /** A phase: a blocked one puts the dummy before it and takes it afterwards. */
  function PhaseActs(t: seq<Event>, phase: Phase, blocked: bool, answers: Script, from: nat, show: KeyName -> string): seq<Act> {
    var said := EventsActs(t, answers, from, show) + ErrsOf(PhaseFailed(phase), !AllSucceeded(t));
    if blocked then [Block] + said + [Unblock] + WarnsOf(ErrorsIgnored(phase), !AllSucceeded(t)) else said
  }

  function StageActs(s: Stage, t: seq<Event>, answers: Script, from: nat, show: KeyName -> string): seq<Act> {
    if s.Run? then PhaseActs(t, s.phase, false, answers, from, show) else EventsActs(t, answers, from, show)
  }

  /** The forward stages, up to and including the first that fails. */
  function ForwardActs(t: seq<Event>, stages: seq<Stage>, setup: Setup, answers: Script, from: nat, show: KeyName -> string): seq<Act>
    decreases |stages|
  {
    if stages == [] || StageLength(stages[0], setup) > |t| then []
    else
      var k := StageLength(stages[0], setup);
      StageActs(stages[0], t[..k], answers, from, show) +
      ForwardActs(t[k..], stages[1..], setup, answers, from + Consumed(t[..k]), show)
  }
}
