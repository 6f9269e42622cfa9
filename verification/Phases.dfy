/** One phase of kdbSet: every backend is called, whatever the others returned. */
module Phases {
  import opened Wrappers
  import opened KeyNames
  import opened KeySets
  import opened Mountpoints
  import opened Backends
  import opened ErrorRecord
  import opened Reports
  import opened ParentKeys
  import opened Protocol
  import opened Answers

  ghost predicate AllPlain(bs: seq<Backend>)
    reads bs
  {
    forall b | b in bs :: Plain(b.keys)
  }

  /** The part of a backend that the protocol knows. */
  function MemberOf(b: Backend): Member {
    Member(b.name, b.hasSet, b.hasCommit, b.hasError)
  }

  function Members(bs: seq<Backend>): (ms: seq<Member>)
    ensures |ms| == |bs| && forall i | 0 <= i < |bs| :: ms[i] == MemberOf(bs[i])
  {
    seq(|bs|, i requires 0 <= i < |bs| => MemberOf(bs[i]))
  }

  predicate Has(b: Backend, fn: SetFunction) {
    Offers(MemberOf(b), fn)
  }

  // ----- one backend

  /** An attempt to call a function of a backend. */
  predicate IsCall(e: Event, b: Backend, phase: Phase, fn: SetFunction) {
    e.Call? && e.phase == phase && e.fn == fn && e.backend == b.name && (e.outcome.NoFunction? <==> !Has(b, fn))
  }

  /** The call itself: the plugin may return any code, leave any keys and report anything. */
  method CallPlugin(b: Backend, parent: ParentKey, plugins: Plugins) returns (a: Answer)
    requires parent.Valid()
    modifies b`keys, plugins`next, parent`log, parent.record`meta
    ensures a == plugins.answers(old(plugins.next)) && plugins.next == old(plugins.next) + 1
    ensures b.keys == a.keys && Plain(b.keys)
    ensures parent.Valid() && Extends(old(parent.log), parent.log)
    ensures parent.Heard() == Replay(old(parent.Heard()), Says(a.notes))
  {
    a := plugins.Ask();
    b.keys := a.keys;
    parent.Receive(a.notes);
  }

  /** Lend the parent key to the plugin: with the name of the backend, and not to be renamed. */
  method Invoke(b: Backend, parent: ParentKey, plugins: Plugins, value: string, fixed: bool) returns (a: Answer)
    requires parent.Valid() && Plain(b.keys)
    modifies b`keys, plugins`next, parent`name, parent`readOnlyName, parent`readOnlyValue, parent`log, parent.record
    ensures parent.Valid() && !parent.readOnlyName && !parent.readOnlyValue
    ensures a == plugins.answers(old(plugins.next)) && plugins.next == old(plugins.next) + 1
    ensures b.keys == a.keys && Plain(b.keys) && Extends(old(parent.log), parent.log)
    ensures parent.Heard() == Replay(old(parent.Heard()), Says(a.notes))
    ensures parent.name == b.name && parent.record.value == if fixed then value else a.value
  {
    hide ParentKey.Valid, Plain, Extends, Replay, Says;
    parent.Rename(b.name, value);
    parent.SetFlags(true, fixed);
    a := CallPlugin(b, parent, plugins);
    if !fixed {
      parent.SetValue(a.value);
    }
    parent.SetFlags(false, false);
  }

  /** One more warning, on some condition. */
  method WarnIf(condition: bool, parent: ParentKey, r: Report, ghost before: Log<Entry>)
    requires parent.Valid() && Extends(before, parent.log)
    modifies parent`log, parent.record`meta
    ensures parent.Valid() && Extends(before, parent.log)
    ensures parent.Heard() == Replay(old(parent.Heard()), WarnsOf(r, condition))
  {
    if condition {
      parent.Warn(r);
      ReplayOne(old(parent.Heard()), Say(AsWarning(r)));
    }
  }

  /** Three things said one after the other. */
  lemma ReplayThree(l: Log<Report>, x: seq<Act>, y: seq<Act>, z: seq<Act>)
    ensures Replay(l, x + y + z) == Replay(Replay(Replay(l, x), y), z)
  {
    hide Replay;
    ReplayConcat(l, x + y, z);
    ReplayConcat(l, x, y);
  }

  /** The value of the parent key in a phase: what the resolver phase returned. */
  function StorageOf(b: Backend): string
    reads b`storage
  {
    if b.storage.Some? then b.storage.value else ""
  }

  /** One round of runSetPhase: the event is the plugin's answer, and the record says what it makes it say. */
  method CallBackend(b: Backend, parent: ParentKey, plugins: Plugins, phase: Phase, fn: SetFunction) returns (ok: bool, ghost e: Event)
    requires parent.Valid() && !parent.readOnlyName && !parent.readOnlyValue && Plain(b.keys) && phase != Resolver
    modifies b`keys, plugins`next, parent`name, parent`readOnlyName, parent`readOnlyValue, parent`log, parent.record
    ensures parent.Valid() && !parent.readOnlyName && !parent.readOnlyValue && Plain(b.keys)
    ensures IsCall(e, b, phase, fn) && ok == Succeeded(e.outcome)
    ensures IsAnswer(e, b, plugins, old(plugins.next)) && e.given == old(b.keys)
    ensures Extends(old(parent.log), parent.log)
    ensures parent.Heard() == Replay(old(parent.Heard()), EventActs(e, plugins.answers(old(plugins.next)), parent.show))
    ensures Has(b, fn) ==> parent.name == b.name && parent.record.value == if b.storage.Some? then b.storage.value else ""
  {
    hide ParentKey.Valid, Plain, Has, Extends, Replay, EventActs, Plainly, IsAnswer;
    if Has(b, fn) {
      ok, e := AskBackend(b, parent, plugins, phase, fn);
    } else {
      ok, e := SkipBackend(b, parent, plugins, phase, fn);
    }
  }

  /** A backend without the function is skipped with a warning. */
  method SkipBackend(b: Backend, parent: ParentKey, plugins: Plugins, phase: Phase, fn: SetFunction) returns (ok: bool, ghost e: Event)
    requires parent.Valid() && !Has(b, fn)
    modifies parent`log, parent.record`meta
    ensures parent.Valid() && IsCall(e, b, phase, fn) && ok == Succeeded(e.outcome)
    ensures IsAnswer(e, b, plugins, plugins.next) && e.given == b.keys
    ensures Extends(old(parent.log), parent.log)
    ensures parent.Heard() == Replay(old(parent.Heard()), EventActs(e, plugins.answers(plugins.next), parent.show))
  {
    hide ParentKey.Valid, WithoutFunction, Has, Extends, Replay, EventActs, Tied, WarnsOf, Plainly;
    ExtendsSelf(parent.log);
    ok, e := false, Call(phase, fn, b.name, b.keys, NoFunction);
    WarnIf(true, parent, WithoutFunction(parent.show(b.name)), parent.log);
    TiedOne(e, plugins.answers, plugins.next);
    SkipActs(e, plugins.answers(plugins.next), parent.show);
  }

  method AskBackend(b: Backend, parent: ParentKey, plugins: Plugins, phase: Phase, fn: SetFunction) returns (ok: bool, ghost e: Event)
    requires parent.Valid() && Plain(b.keys) && Has(b, fn) && phase != Resolver
    modifies b`keys, plugins`next, parent`name, parent`readOnlyName, parent`readOnlyValue, parent`log, parent.record
    ensures parent.Valid() && !parent.readOnlyName && !parent.readOnlyValue && Plain(b.keys)
    ensures IsCall(e, b, phase, fn) && ok == Succeeded(e.outcome)
    ensures IsAnswer(e, b, plugins, old(plugins.next)) && e.given == old(b.keys)
    ensures Extends(old(parent.log), parent.log)
    ensures parent.Heard() == Replay(old(parent.Heard()), EventActs(e, plugins.answers(old(plugins.next)), parent.show))
    ensures parent.name == b.name && parent.record.value == StorageOf(b)
  {
    hide ParentKey.Valid, CallFailed, Plain, Extends, Replay, Says, EventActs, IsAnswer, WarnsOf, Plainly, NoUpdate, ParentKey.Heard, Has, StorageOf;
    ghost var heard, given := parent.Heard(), b.keys;
    var a := Invoke(b, parent, plugins, StorageOf(b), true);
    ok, e := a.code == 1 || a.code == 0, Call(phase, fn, b.name, given, Returned(a.code));
    AnswerIs(e, b, plugins, old(plugins.next));
    CallActs(heard, e, a, parent.show);
    WarnIf(!ok, parent, CallFailed(parent.show(b.name), phase), old(parent.log));
  }

  /** The event is tied to the stream of answers, and so are the keys that the backend is left with. */
  ghost predicate IsAnswer(e: Event, b: Backend, plugins: Plugins, from: nat)
    reads b, plugins
  {
    Tied([e], plugins.answers, from, plugins.next) && plugins.next == (if Asks(e) then from + 1 else from) &&
    (Asks(e) ==> b.keys == plugins.answers(from).keys)
  }

  lemma AnswerIs(e: Event, b: Backend, plugins: Plugins, from: nat)
    requires e.Call? && e.outcome == Returned(plugins.answers(from).code)
    requires plugins.next == from + 1 && b.keys == plugins.answers(from).keys
    ensures IsAnswer(e, b, plugins, from)
  {
    TiedOne(e, plugins.answers, from);
  }

  lemma SkipActs(e: Event, a: Answer, show: KeyName -> string)
    requires e.Call? && e.outcome.NoFunction?
    ensures EventActs(e, a, show) == WarnsOf(WithoutFunction(show(e.backend)), true)
  {
  }

  lemma CallActs(l: Log<Report>, e: Event, a: Answer, show: KeyName -> string)
    requires e.Call? && e.outcome.Returned?
    ensures var c := e.outcome.code;
            Replay(l, EventActs(e, a, show)) ==
            Replay(Replay(Replay(l, Says(a.notes)), WarnsOf(NoUpdate(show(e.backend)), e.phase == Resolver && c == 0)),
                   WarnsOf(CallFailed(show(e.backend), e.phase), c != 0 && c != 1))
    ensures e.phase != Resolver ==>
            Replay(l, EventActs(e, a, show)) ==
            Replay(Replay(l, Says(a.notes)), WarnsOf(CallFailed(show(e.backend), e.phase), e.outcome.code != 0 && e.outcome.code != 1))
  {
    hide Replay, Says, CallFailed, NoUpdate;
    var c := e.outcome.code;
    ReplayThree(l, Says(a.notes), WarnsOf(NoUpdate(show(e.backend)), e.phase == Resolver && c == 0),
                WarnsOf(CallFailed(show(e.backend), e.phase), c != 0 && c != 1));
    ReplayNone(Replay(l, Says(a.notes)));
  }

  // ----- all backends

  /** The calls are attempted in order; a backend without the function is skipped. */
  ghost predicate Attempted(t: seq<Event>, bs: seq<Backend>, phase: Phase, fn: SetFunction) {
    |t| == |bs| && forall i | 0 <= i < |t| :: IsCall(t[i], bs[i], phase, fn)
  }

  lemma AttemptedStep(t: seq<Event>, e: Event, bs: seq<Backend>, i: nat, phase: Phase, fn: SetFunction)
    requires i < |bs| && Attempted(t, bs[..i], phase, fn) && IsCall(e, bs[i], phase, fn)
    ensures Attempted(t + [e], bs[..i + 1], phase, fn)
    ensures AllSucceeded(t + [e]) <==> AllSucceeded(t) && Succeeded(e.outcome)
  {
    var u := t + [e];
    forall j | 0 <= j < |u| ensures IsCall(u[j], bs[..i + 1][j], phase, fn) {
      if j < i { assert u[j] == t[j] && bs[..i][j] == bs[j]; }
    }
    if AllSucceeded(u) {
      assert u[|t|] == e;
      forall j | 0 <= j < |t| ensures Succeeded(t[j].outcome) { assert u[j] == t[j]; }
    }
  }

  /** With the function of the phase this is what the protocol asks for. */
  lemma AttemptedIsRun(t: seq<Event>, bs: seq<Backend>, phase: Phase)
    requires Attempted(t, bs, phase, FunctionOf(phase))
    ensures IsPhaseRun(t, phase, Members(bs))
  {
  }

  /** The calls so far: which, with which answers, and what the record says of them. */
  ghost predicate Made(t: seq<Event>, bs: seq<Backend>, phase: Phase, fn: SetFunction, answers: Script, from: nat, to: nat,
                       first: Log<Report>, now: Log<Report>, show: KeyName -> string)
  {
    Attempted(t, bs, phase, fn) && Tied(t, answers, from, to) && now == Replay(first, EventsActs(t, answers, from, show))
  }

  lemma MadeStart(bs: seq<Backend>, phase: Phase, fn: SetFunction, answers: Script, from: nat, first: Log<Report>, show: KeyName -> string)
    ensures Made([], bs[..0], phase, fn, answers, from, from, first, first, show) && AllSucceeded([])
  {
    TiedNothing(answers, from);
  }

  lemma MadeStep(t: seq<Event>, e: Event, bs: seq<Backend>, i: nat, phase: Phase, fn: SetFunction, answers: Script, from: nat, mid: nat, to: nat,
                 first: Log<Report>, before: Log<Report>, now: Log<Report>, show: KeyName -> string)
    requires i < |bs| && Made(t, bs[..i], phase, fn, answers, from, mid, first, before, show)
    requires IsCall(e, bs[i], phase, fn) && Tied([e], answers, mid, to)
    requires now == Replay(before, EventActs(e, answers(mid), show))
    ensures Made(t + [e], bs[..i + 1], phase, fn, answers, from, to, first, now, show)
    ensures AllSucceeded(t + [e]) <==> AllSucceeded(t) && Succeeded(e.outcome)
  {
    hide Attempted, IsCall, AllSucceeded, EventsActs, EventActs, Replay, Answered, Consumed;
    AttemptedStep(t, e, bs, i, phase, fn);
    TiedConcat(t, [e], answers, from, mid, to);
    EventsActsConcat(t, [e], answers, from, show);
    EventsActsOne(e, answers, mid, show);
    ReplayConcat(first, EventsActs(t, answers, from, show), EventActs(e, answers(mid), show));
  }

  /** The keys of the first `i` backends are the answers from `from` on. */
  ghost predicate KeysAnswered(bs: seq<Backend>, i: nat, plugins: Plugins, from: nat)
    requires i <= |bs|
    reads bs, plugins
  {
    plugins.next == from + i && forall j | 0 <= j < i :: bs[j].keys == plugins.answers(from + j).keys
  }

  method CallAll(bs: seq<Backend>, parent: ParentKey, plugins: Plugins, phase: Phase, fn: SetFunction)
    returns (success: bool, ghost t: seq<Event>)
    requires Mounted(bs) && phase != Resolver
    requires parent.Valid() && !parent.readOnlyName && !parent.readOnlyValue && AllPlain(bs)
    modifies bs`keys, plugins`next, parent`name, parent`readOnlyName, parent`readOnlyValue, parent`log, parent.record
    ensures parent.Valid() && !parent.readOnlyName && !parent.readOnlyValue && AllPlain(bs)
    ensures Extends(old(parent.log), parent.log)
    ensures Made(t, bs, phase, fn, plugins.answers, old(plugins.next), plugins.next, old(parent.Heard()), parent.Heard(), parent.show)
    ensures success == AllSucceeded(t) && AreGiven(t, old(KeysOf(bs)))
    ensures success ==> KeysAnswered(bs, |bs|, plugins, old(plugins.next))
  {
    hide ParentKey.Valid, ParentKey.Heard, Made, Plain, AllSucceeded, Extends, EventActs, Replay, MountTable, IsCall, AreGiven, Tied;
    success, t := true, [];
    ghost var from, first, sets := plugins.next, parent.Heard(), KeysOf(bs);
    MadeStart(bs, phase, fn, plugins.answers, from, first, parent.show);
    GivenNone(sets);
    ExtendsSelf(parent.log);
    for i := 0 to |bs|
      invariant parent.Valid() && !parent.readOnlyName && !parent.readOnlyValue && AllPlain(bs)
      invariant Extends(old(parent.log), parent.log)
      invariant Made(t, bs[..i], phase, fn, plugins.answers, from, plugins.next, first, parent.Heard(), parent.show)
      invariant success == AllSucceeded(t) && |t| == i && AreGiven(t, sets)
      invariant forall j | i <= j < |bs| :: bs[j].keys == sets[j]
      invariant success ==> KeysAnswered(bs, i, plugins, from)
    {
      ghost var before, heard, mid := parent.log, parent.Heard(), plugins.next;
      OthersDiffer(bs, i);
      var ok, e := CallBackend(bs[i], parent, plugins, phase, fn);
      ExtendsFurther(old(parent.log), before, parent.log);
      MadeStep(t, e, bs, i, phase, fn, plugins.answers, from, mid, plugins.next, first, heard, parent.Heard(), parent.show);
      SucceededAsks(e, bs[i], phase, fn);
      GivenMore(t, e, sets);
      t := t + [e];
      if !ok { success := false; }
    }
    assert bs[..|bs|] == bs;
  }

  lemma GivenNone(sets: seq<KeySet>)
    ensures AreGiven([], sets)
  {
  }

  lemma GivenMore(t: seq<Event>, e: Event, sets: seq<KeySet>)
    requires AreGiven(t, sets) && |t| < |sets| && e.Call? && e.given == sets[|t|]
    ensures AreGiven(t + [e], sets)
  {
  }

  lemma OthersDiffer(bs: seq<Backend>, i: nat)
    requires Mounted(bs) && i < |bs|
    ensures forall j | 0 <= j < |bs| && j != i :: bs[j] != bs[i]
  {
    forall j | 0 <= j < |bs| && j != i ensures bs[j] != bs[i] { if bs[j] == bs[i] { MountedDistinct(bs, j, i); } }
  }

  lemma SucceededAsks(e: Event, b: Backend, phase: Phase, fn: SetFunction)
    requires IsCall(e, b, phase, fn)
    ensures e.Call? && (Succeeded(e.outcome) ==> Asks(e))
  {
  }

  /** A whole phase: every backend attempted, the attempts are the answers from `from` on, and the record is what
      they and the end of the phase make of `first`. */
  ghost predicate PhaseRan(t: seq<Event>, bs: seq<Backend>, phase: Phase, fn: SetFunction, blocked: bool, plugins: Plugins, from: nat,
                           first: Log<Report>, now: Log<Report>, show: KeyName -> string)
    reads plugins
  {
    Attempted(t, bs, phase, fn) && Tied(t, plugins.answers, from, plugins.next) &&
    now == Replay(first, PhaseActs(t, phase, blocked, plugins.answers, from, show))
  }

  /** runSetPhase: succeeds exactly when every call did. A failed phase leaves an error on the parent, a
      blocked one leaves the error that stood before it, or none. */
  method RunSetPhase(bs: seq<Backend>, parent: ParentKey, plugins: Plugins, phase: Phase, blockErrors: bool, fn: SetFunction)
    returns (success: bool, ghost t: seq<Event>)
    requires Mounted(bs) && phase != Resolver
    requires parent.Valid() && !parent.log.blocked && !parent.readOnlyName && !parent.readOnlyValue && AllPlain(bs)
    modifies bs`keys, plugins`next, parent`name, parent`readOnlyName, parent`readOnlyValue, parent`log, parent.record
    ensures parent.Valid() && !parent.log.blocked && !parent.readOnlyName && !parent.readOnlyValue && AllPlain(bs)
    ensures PhaseRan(t, bs, phase, fn, blockErrors, plugins, old(plugins.next), old(parent.Heard()), parent.Heard(), parent.show)
    ensures success == AllSucceeded(t) && AreGiven(t, old(KeysOf(bs)))
    ensures parent.log.imposed == old(parent.log).imposed
    ensures blockErrors ==> parent.Error() == old(parent.Error())
    ensures !blockErrors && !success ==> !parent.Error().Clear?
    ensures success ==> KeysAnswered(bs, |bs|, plugins, old(plugins.next))
  {
    hide AllPlain, AllSucceeded, PhaseFailed, ErrorsIgnored, ParentKey.Valid, ParentKey.Heard, MountTable, Failure, Warning, KeysAnswered,
         Extends, Made, PhaseRan, AreGiven;
    ghost var l0, log0 := parent.Heard(), parent.log;
    var existingError := StartPhase(parent, blockErrors);
    ghost var l1 := parent.Heard();
    success, t := CallAll(bs, parent, plugins, phase, fn);
    ghost var l2 := parent.Heard();
    ghost var l3 := ConcludePhase(parent, phase, success, blockErrors, existingError, log0);
    PhaseReplayed(t, bs, phase, fn, blockErrors, plugins, old(plugins.next), parent.show, l0, l1, l2, l3, parent.Heard());
  }

  /** The start of a phase: a blocked one puts the dummy on a clean record. */
  method StartPhase(parent: ParentKey, blockErrors: bool) returns (existingError: bool)
    requires parent.Valid() && !parent.log.blocked
    modifies parent`log, parent.record`meta
    ensures parent.Valid() && (existingError <==> !old(parent.Error()).Clear?)
    ensures parent.log == if blockErrors && !existingError then old(parent.log).(blocked := true) else old(parent.log)
    ensures parent.Heard() == if blockErrors then Do(old(parent.Heard()), Block) else old(parent.Heard())
  {
    hide ParentKey.Valid, Plainly;
    StandingPlainly(parent.log);
    existingError := parent.HasError();
    if blockErrors && !existingError {
      parent.Block();
    }
  }

  /** The end of a phase: the error about its failure, and the dummy taken away. */
  method ConcludePhase(parent: ParentKey, phase: Phase, success: bool, blockErrors: bool, existingError: bool, ghost before: Log<Entry>)
    returns (ghost middle: Log<Report>)
    requires parent.Valid() && !before.blocked && (existingError <==> !Standing(before).Clear?)
    requires Extends(if blockErrors && !existingError then before.(blocked := true) else before, parent.log)
    modifies parent`log, parent.record`meta
    ensures parent.Valid() && !parent.log.blocked && parent.log.imposed == before.imposed
    ensures middle == if success then old(parent.Heard()) else Failure(old(parent.Heard()), PhaseFailed(phase))
    ensures parent.Heard() == if !blockErrors then middle
                              else if success then Do(middle, Unblock)
                              else Warning(Do(middle, Unblock), ErrorsIgnored(phase))
    ensures blockErrors ==> parent.Error() == Standing(before)
    ensures !blockErrors && !success ==> !parent.Error().Clear?
  {
    hide PhaseFailed, ErrorsIgnored, ParentKey.Valid;
    if !success {
      parent.SetError(PhaseFailed(phase));
    }
    middle := parent.Heard();
    if blockErrors {
      if !existingError {
        parent.Unblock();
      }
      if !success {
        parent.Warn(ErrorsIgnored(phase));
      }
    }
  }

  /** The steps of a phase put together. */
  lemma PhaseReplayed(t: seq<Event>, bs: seq<Backend>, phase: Phase, fn: SetFunction, blocked: bool, plugins: Plugins, from: nat,
                      show: KeyName -> string, l0: Log<Report>, l1: Log<Report>, l2: Log<Report>, l3: Log<Report>, l4: Log<Report>)
    requires l1 == (if blocked then Do(l0, Block) else l0) && Made(t, bs, phase, fn, plugins.answers, from, plugins.next, l1, l2, show)
    requires l3 == if AllSucceeded(t) then l2 else Failure(l2, PhaseFailed(phase))
    requires l4 == if !blocked then l3
                   else if AllSucceeded(t) then Do(l3, Unblock)
                   else Warning(Do(l3, Unblock), ErrorsIgnored(phase))
    ensures PhaseRan(t, bs, phase, fn, blocked, plugins, from, l0, l4, show)
  {
    hide EventsActs, AllSucceeded, Replay, PhaseFailed, ErrorsIgnored, Attempted, Tied;
    var events, failed, ignored := EventsActs(t, plugins.answers, from, show), ErrsOf(PhaseFailed(phase), !AllSucceeded(t)),
                                   WarnsOf(ErrorsIgnored(phase), !AllSucceeded(t));
    ReplayConcat(l1, events, failed);
    ReplayOne(l2, Say(AsError(PhaseFailed(phase))));
    ReplayNone(l2);
    if blocked {
      ReplayOne(l0, Block);
      ReplayOne(l3, Unblock);
      ReplayOne(Do(l3, Unblock), Say(AsWarning(ErrorsIgnored(phase))));
      ReplayNone(Do(l3, Unblock));
      ReplayConcat(l0, [Block], events + failed);
      ReplayConcat(l0, [Block] + (events + failed), [Unblock]);
      ReplayConcat(l0, [Block] + (events + failed) + [Unblock], ignored);
    }
  }

  // ----- the resolver phase

  method ResolveBackend(b: Backend, parent: ParentKey, plugins: Plugins) returns (ok: bool, ghost e: Event)
    requires parent.Valid() && !parent.readOnlyName && !parent.readOnlyValue && Plain(b.keys)
    modifies b`keys, b`storage, plugins`next, parent`name, parent`readOnlyName, parent`readOnlyValue, parent`log, parent.record
    ensures parent.Valid() && !parent.readOnlyName && !parent.readOnlyValue && Plain(b.keys)
    ensures IsCall(e, b, Resolver, SetFn) && ok == Succeeded(e.outcome)
    ensures IsAnswer(e, b, plugins, old(plugins.next)) && e.given == old(b.keys)
    ensures Extends(old(parent.log), parent.log)
    ensures parent.Heard() == Replay(old(parent.Heard()), EventActs(e, plugins.answers(old(plugins.next)), parent.show))
    ensures b.storage == if ok then Some(plugins.answers(old(plugins.next)).value) else None
  {
    hide ParentKey.Valid, WithoutFunction, CallFailed, NoUpdate, Plain, Extends, Replay, Says, EventActs, IsAnswer, WarnsOf, Plainly;
    ghost var before, heard, given := parent.log, parent.Heard(), b.keys;
    ExtendsSelf(before);
    b.storage := None;
    if !b.hasSet {
      ok, e := SkipBackend(b, parent, plugins, Resolver, SetFn);
    } else {
      var a := Invoke(b, parent, plugins, "", false);
      ok, e := a.code == 1 || a.code == 0, Call(Resolver, SetFn, b.name, given, Returned(a.code));
      WarnIf(a.code == 0, parent, NoUpdate(parent.show(b.name)), before);
      WarnIf(!ok, parent, CallFailed(parent.show(b.name), Resolver), before);
      if ok {
        b.storage := Some(parent.record.value);
      }
      AnswerIs(e, b, plugins, old(plugins.next));
      CallActs(heard, e, a, parent.show);
    }
  }

  /** The storage units of the first `i` backends are the answers from `from` on. */
  ghost predicate StorageAnswered(bs: seq<Backend>, i: nat, plugins: Plugins, from: nat)
    requires i <= |bs|
    reads bs, plugins
  {
    plugins.next == from + i && forall j | 0 <= j < i :: bs[j].storage == Some(plugins.answers(from + j).value)
  }

  /** The loop over the backends. */
  method ResolveAll(bs: seq<Backend>, parent: ParentKey, plugins: Plugins) returns (success: bool, ghost t: seq<Event>)
    requires Mounted(bs) && parent.Valid() && !parent.readOnlyName && !parent.readOnlyValue && AllPlain(bs)
    modifies bs`keys, bs`storage, plugins`next, parent`name, parent`readOnlyName, parent`readOnlyValue, parent`log, parent.record
    ensures parent.Valid() && !parent.readOnlyName && !parent.readOnlyValue && AllPlain(bs)
    ensures Extends(old(parent.log), parent.log)
    ensures Made(t, bs, Resolver, SetFn, plugins.answers, old(plugins.next), plugins.next, old(parent.Heard()), parent.Heard(), parent.show)
    ensures success == AllSucceeded(t) && AreGiven(t, old(KeysOf(bs)))
    ensures success ==> StorageAnswered(bs, |bs|, plugins, old(plugins.next))
  {
    hide ParentKey.Valid, ParentKey.Heard, Made, Plain, AllSucceeded, Extends, EventActs, Replay, MountTable, IsCall, AreGiven, Tied, Asks, Members;
    success, t := true, [];
    ghost var from, first, sets := plugins.next, parent.Heard(), KeysOf(bs);
    MadeStart(bs, Resolver, SetFn, plugins.answers, from, first, parent.show);
    GivenNone(sets);
    ExtendsSelf(parent.log);
    for i := 0 to |bs|
      invariant parent.Valid() && !parent.readOnlyName && !parent.readOnlyValue && AllPlain(bs)
      invariant Extends(old(parent.log), parent.log)
      invariant Made(t, bs[..i], Resolver, SetFn, plugins.answers, from, plugins.next, first, parent.Heard(), parent.show)
      invariant success == AllSucceeded(t) && |t| == i && AreGiven(t, sets)
      invariant forall j | i <= j < |bs| :: bs[j].keys == sets[j]
      invariant success ==> StorageAnswered(bs, i, plugins, from)
    {
      ghost var before, heard, mid := parent.log, parent.Heard(), plugins.next;
      OthersDiffer(bs, i);
      var ok, e := ResolveBackend(bs[i], parent, plugins);
      ExtendsFurther(old(parent.log), before, parent.log);
      MadeStep(t, e, bs, i, Resolver, SetFn, plugins.answers, from, mid, plugins.next, first, heard, parent.Heard(), parent.show);
      SucceededAsks(e, bs[i], Resolver, SetFn);
      GivenMore(t, e, sets);
      t := t + [e];
      if !ok { success := false; }
    }
    assert bs[..|bs|] == bs;
  }

  /** resolveBackendsForSet: as a phase, and every backend that answered has its storage unit. */
  method ResolveBackendsForSet(bs: seq<Backend>, parent: ParentKey, plugins: Plugins) returns (success: bool, ghost t: seq<Event>)
    requires Mounted(bs)
    requires parent.Valid() && !parent.log.blocked && !parent.readOnlyName && !parent.readOnlyValue && AllPlain(bs)
    modifies bs`keys, bs`storage, plugins`next, parent`name, parent`readOnlyName, parent`readOnlyValue, parent`log, parent.record
    ensures parent.Valid() && !parent.log.blocked && !parent.readOnlyName && !parent.readOnlyValue && AllPlain(bs)
    ensures PhaseRan(t, bs, Resolver, SetFn, false, plugins, old(plugins.next), old(parent.Heard()), parent.Heard(), parent.show)
    ensures success == AllSucceeded(t) && AreGiven(t, old(KeysOf(bs)))
    ensures parent.log.imposed == old(parent.log).imposed
    ensures !success ==> !parent.Error().Clear?
    ensures success ==> StorageAnswered(bs, |bs|, plugins, old(plugins.next))
  {
    hide AllPlain, AllSucceeded, PhaseFailed, ParentKey.Valid, Made, PhaseRan, MountTable, Plainly, Replay;
    ghost var l0 := parent.Heard();
    ReplayNone(l0);
    success, t := ResolveAll(bs, parent, plugins);
    ghost var l2 := parent.Heard();
    if !success {
      parent.SetError(PhaseFailed(Resolver));
    }
    PhaseReplayed(t, bs, Resolver, SetFn, false, plugins, old(plugins.next), parent.show, l0, l0, l2, parent.Heard(), parent.Heard());
  }
}
