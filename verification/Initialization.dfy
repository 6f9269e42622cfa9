/** Initializing backends, and how long the read-only mark of a backend lasts. */
module Initialization {
  import opened Wrappers
  import opened KeyNames
  import opened Mountpoints
  import opened Backends
  import opened ErrorRecord
  import opened Reports
  import opened ParentKeys
  import opened Protocol
  import opened Answers
  import opened Phases

  function InitMissing(mountpoint: string): Report {
    Interface("1375", "The mountpoint '" + mountpoint + "' defined a plugin without a kdbInit function as a backend.")
  }

  function InitFailed(mountpoint: string): Report {
    Interface("1409", "Calling the kdbInit function of the mountpoint '" + mountpoint + "' has failed.")
  }

  function PhaseInitFailed(): Report {
    Interface("1428", "The init phase of kdbGet() has failed. See warnings for details.")
  }

  // ----- attempts and answers

  /** What the pass did with a backend: nothing if it was initialized, else a call or the lack of a function. */
  datatype Attempt = Attempt(name: KeyName, outcome: Option<Outcome>)

  predicate Calls(a: Attempt) {
    a.outcome.Some? && a.outcome.value.Returned?
  }

  function Used(t: seq<Attempt>): nat {
    if t == [] then 0 else Used(t[..|t| - 1]) + if Calls(t[|t| - 1]) then 1 else 0
  }

  /** Every call returned the code of its answer, from position `from` of the stream on. */
  predicate Matched(t: seq<Attempt>, answers: Script, from: nat) {
    t == [] ||
    (Matched(t[..|t| - 1], answers, from) &&
     (Calls(t[|t| - 1]) ==> t[|t| - 1].outcome.value.code == answers(from + Used(t[..|t| - 1])).code))
  }

  /** What an attempt makes the record of the parent key say. */
  function AttemptActs(a: Attempt, answer: Answer, show: KeyName -> string): seq<Act> {
    match a.outcome
    case None => []
    case Some(NoFunction) => [Say(AsWarning(InitMissing(show(a.name))))]
    case Some(Returned(c)) => Says(answer.notes) + WarnsOf(InitFailed(show(a.name)), c != 0 && c != 1)
  }

  function AttemptsActs(t: seq<Attempt>, answers: Script, from: nat, show: KeyName -> string): seq<Act> {
    if t == [] then []
    else
      var last := |t| - 1;
      AttemptsActs(t[..last], answers, from, show) + AttemptActs(t[last], answers(from + Used(t[..last])), show)
  }

  // ----- one backend

  /** One round: the mark is cleared first, even for a backend that is not initialized again. */
  method InitBackend(b: Backend, parent: ParentKey, plugins: Plugins, definition: KeyName) returns (ghost a: Attempt)
    requires parent.Valid() && !parent.readOnlyName
    modifies b`initialized, b`readOnly, plugins`next, parent`name, parent`readOnlyName, parent`readOnlyValue, parent`log, parent.record
    ensures parent.Valid() && !parent.readOnlyName && Extends(old(parent.log), parent.log)
    ensures parent.readOnlyValue == old(parent.readOnlyValue)
    ensures a.name == b.name && (a.outcome.None? <==> old(b.initialized))
    ensures a.outcome.Some? ==> (a.outcome.value.NoFunction? <==> !b.hasInit)
    ensures Calls(a) ==> a.outcome.value.code == plugins.answers(old(plugins.next)).code
    ensures plugins.next == old(plugins.next) + (if Calls(a) then 1 else 0)
    ensures parent.Heard() == Replay(old(parent.Heard()), AttemptActs(a, plugins.answers(old(plugins.next)), parent.show))
    ensures b.initialized <==> a.outcome.None? || Succeeded(a.outcome.value)
    ensures b.readOnly <==> a.outcome == Some(Returned(0))
  {
    hide ParentKey.Valid, Extends, InitMissing, InitFailed, Replay, Says, Plainly;
    ghost var before, heard := parent.log, parent.Heard();
    ExtendsSelf(before);
    ReplayNone(heard);
    b.readOnly := false;
    if b.initialized {
      a := Attempt(b.name, None);
    } else if !b.hasInit {
      a := Attempt(b.name, Some(NoFunction));
      WarnIf(true, parent, InitMissing(parent.show(b.name)), before);
    } else {
      var answer := CallInit(parent, plugins, definition);
      a := Attempt(b.name, Some(Returned(answer.code)));
      b.initialized, b.readOnly := answer.code == 1 || answer.code == 0, answer.code == 0;
      WarnIf(!b.initialized, parent, InitFailed(parent.show(b.name)), before);
      ReplayConcat(heard, Says(answer.notes), WarnsOf(InitFailed(parent.show(b.name)), answer.code != 0 && answer.code != 1));
    }
  }

  /** The call of the kdbInit function, with the name of the mountpoint definition on the parent key. */
  method CallInit(parent: ParentKey, plugins: Plugins, definition: KeyName) returns (answer: Answer)
    requires parent.Valid()
    modifies plugins`next, parent`name, parent`readOnlyName, parent`readOnlyValue, parent`log, parent.record
    ensures parent.Valid() && !parent.readOnlyName && parent.readOnlyValue == old(parent.readOnlyValue)
    ensures answer == plugins.answers(old(plugins.next)) && plugins.next == old(plugins.next) + 1
    ensures Extends(old(parent.log), parent.log) && parent.Heard() == Replay(old(parent.Heard()), Says(answer.notes))
  {
    hide ParentKey.Valid, Extends, Replay, Says, Plainly;
    parent.Rename(definition, parent.record.value);
    parent.SetFlags(true, parent.readOnlyValue);
    answer := plugins.Ask();
    parent.Receive(answer.notes);
    parent.SetFlags(false, parent.readOnlyValue);
  }

  // ----- all backends

  /** The attempts so far, each with its answer, and what the record says of them. */
  ghost predicate Tried(t: seq<Attempt>, plugins: Plugins, from: nat, first: Log<Report>, now: Log<Report>, show: KeyName -> string)
    reads plugins
  {
    Matched(t, plugins.answers, from) && plugins.next == from + Used(t) &&
    now == Replay(first, AttemptsActs(t, plugins.answers, from, show))
  }

  lemma TriedStep(t: seq<Attempt>, a: Attempt, plugins: Plugins, from: nat, mid: nat, first: Log<Report>, before: Log<Report>,
                  now: Log<Report>, show: KeyName -> string)
    requires Matched(t, plugins.answers, from) && mid == from + Used(t)
    requires before == Replay(first, AttemptsActs(t, plugins.answers, from, show))
    requires Calls(a) ==> a.outcome.value.code == plugins.answers(mid).code
    requires plugins.next == mid + (if Calls(a) then 1 else 0)
    requires now == Replay(before, AttemptActs(a, plugins.answers(mid), show))
    ensures Tried(t + [a], plugins, from, first, now, show)
  {
    hide Replay, AttemptActs;
    var u := t + [a];
    assert u[..|u| - 1] == t && u[|u| - 1] == a;
    ReplayConcat(first, AttemptsActs(t, plugins.answers, from, show), AttemptActs(a, plugins.answers(mid), show));
  }

  lemma TriedStart(plugins: Plugins, first: Log<Report>, show: KeyName -> string)
    ensures Tried([], plugins, plugins.next, first, first, show)
  {
  }

  /** initBackends: succeeds exactly when every backend is initialized afterwards. A backend is marked
      read-only exactly when this very pass initialized it and its plugin said so. */
  method InitBackends(bs: seq<Backend>, parent: ParentKey, plugins: Plugins, definition: KeyName -> KeyName)
    returns (success: bool, ghost t: seq<Attempt>)
    requires Mounted(bs) && parent.Valid() && !parent.readOnlyName
    modifies bs`initialized, bs`readOnly, plugins`next, parent`name, parent`readOnlyName, parent`readOnlyValue, parent`log, parent.record
    ensures parent.Valid() && !parent.readOnlyName && Extends(old(parent.log), parent.log)
    ensures parent.readOnlyValue == old(parent.readOnlyValue)
    ensures Matched(t, plugins.answers, old(plugins.next)) && plugins.next == old(plugins.next) + Used(t)
    ensures parent.Heard() == Replay(old(parent.Heard()),
      AttemptsActs(t, plugins.answers, old(plugins.next), parent.show) + ErrsOf(PhaseInitFailed(), !success))
    ensures success <==> forall b | b in bs :: b.initialized
    ensures !success ==> !parent.Error().Clear?
    ensures |t| == |bs| && forall i | 0 <= i < |bs| :: LeftBy(bs[i], t[i]) && (t[i].outcome.None? <==> old(bs[i].initialized))
    ensures forall b | b in bs && old(b.initialized) :: b.initialized && !b.readOnly
  {
    hide ParentKey.Valid, Extends, PhaseInitFailed, Lt, Replay, AttemptActs, AttemptsActs, Plainly, MountTable, Used, Matched, ParentKey.Heard;
    success, t := true, [];
    ghost var from, first := plugins.next, parent.Heard();
    TriedStart(plugins, first, parent.show);
    ExtendsSelf(parent.log);
    for i := 0 to |bs|
      invariant parent.Valid() && !parent.readOnlyName && Extends(old(parent.log), parent.log)
      invariant parent.readOnlyValue == old(parent.readOnlyValue)
      invariant Tried(t, plugins, from, first, parent.Heard(), parent.show)
      invariant |t| == i && forall j | 0 <= j < i :: LeftBy(bs[j], t[j]) && (t[j].outcome.None? <==> old(bs[j].initialized))
      invariant success <==> forall j | 0 <= j < i :: bs[j].initialized
      invariant forall j | i <= j < |bs| :: bs[j].initialized == old(bs[j].initialized)
    {
      OthersDiffer(bs, i);
      ghost var before, heard, mid := parent.log, parent.Heard(), plugins.next;
      ghost var a := InitBackend(bs[i], parent, plugins, definition(bs[i].name));
      ExtendsFurther(old(parent.log), before, parent.log);
      TriedStep(t, a, plugins, from, mid, first, heard, parent.Heard(), parent.show);
      t := t + [a];
      if !bs[i].initialized { success := false; }
    }
    ghost var before, heard := parent.log, parent.Heard();
    if !success {
      parent.SetError(PhaseInitFailed());
      ExtendsFurther(old(parent.log), before, parent.log);
      ReplayOne(heard, Say(AsError(PhaseInitFailed())));
    }
    ReplayNone(heard);
    ReplayConcat(first, AttemptsActs(t, plugins.answers, from, parent.show), ErrsOf(PhaseInitFailed(), !success));
  }

  /** The state of a backend after its attempt. */
  predicate LeftBy(b: Backend, a: Attempt)
    reads b
  {
    a.name == b.name && (a.outcome.Some? ==> (a.outcome.value.NoFunction? <==> !b.hasInit)) &&
    (b.initialized <==> a.outcome == None || a.outcome == Some(Returned(1)) || a.outcome == Some(Returned(0))) &&
    (b.readOnly <==> a.outcome == Some(Returned(0)))
  }

  lemma {:induction false} AttemptWithin(t: seq<Attempt>, answers: Script, from: nat, show: KeyName -> string, i: nat, act: Act)
    requires i < |t| && act in AttemptActs(t[i], answers(from + Used(t[..i])), show)
    ensures act in AttemptsActs(t, answers, from, show)
  {
    hide AttemptActs, Used;
    var last := |t| - 1;
    if i < last {
      assert t[..last][..i] == t[..i];
      AttemptWithin(t[..last], answers, from, show, i, act);
    }
  }

  /** A backend whose plugin has no kdbInit function, or whose initialization failed, is on record as a warning after the pass. */
  lemma InitFailuresHeard(first: Log<Report>, t: seq<Attempt>, answers: Script, from: nat, show: KeyName -> string, success: bool, i: nat)
    requires i < |t|
    ensures var heard := Replay(first, AttemptsActs(t, answers, from, show) + ErrsOf(PhaseInitFailed(), !success));
            (t[i].outcome == Some(NoFunction) ==>
              Report("C01320", "Interface", "kdb.c", "1375", "kdb",
                     "The mountpoint '" + show(t[i].name) + "' defined a plugin without a kdbInit function as a backend.") in heard.warnings) &&
            (Calls(t[i]) && t[i].outcome.value.code != 0 && t[i].outcome.value.code != 1 ==>
              Report("C01320", "Interface", "kdb.c", "1409", "kdb",
                     "Calling the kdbInit function of the mountpoint '" + show(t[i].name) + "' has failed.") in heard.warnings)
  {
    hide Replay, Used, AttemptsActs;
    var acts := AttemptsActs(t, answers, from, show) + ErrsOf(PhaseInitFailed(), !success);
    var name := show(t[i].name);
    if t[i].outcome == Some(NoFunction) {
      AttemptWithin(t, answers, from, show, i, Say(AsWarning(InitMissing(name))));
      WarningHeard(first, acts, InitMissing(name));
    }
    if Calls(t[i]) && t[i].outcome.value.code != 0 && t[i].outcome.value.code != 1 {
      AttemptWithin(t, answers, from, show, i, Say(AsWarning(InitFailed(name))));
      WarningHeard(first, acts, InitFailed(name));
    }
  }
}
