/** What errors and warnings amount to: the history of an error record as a fold over what was reported. */
module Reports {
  import opened Wrappers
  import opened ErrorRecord

  /** What a plugin or hook reports while it runs. */
  datatype Note = AsError(report: Report) | AsWarning(report: Report)

  /** The `error` metadata: none, the dummy that blocks errors, or a stored error. */
  datatype ErrorState<T> = Clear | Dummy | Stored(entry: T)

  /** What happened to the record since it was cleared: all warnings, the errors that were reported while
      not blocked, an error that was copied over them, and whether a blocked phase is running. */
  datatype Log<T> = Log(warnings: seq<T>, reported: seq<T>, imposed: Option<T>, blocked: bool)

  function Fresh<T>(): Log<T> {
    Log([], [], None, false)
  }

  /** The error that stands: one copied over from a failed lock, else the first one reported, else the
      dummy of a blocked phase. */
  function Standing<T>(log: Log<T>): ErrorState<T> {
    if log.imposed.Some? then Stored(log.imposed.value)
    else if log.reported != [] then Stored(log.reported[0])
    else if log.blocked then Dummy
    else Clear
  }

  function Warning<T>(log: Log<T>, e: T): Log<T> {
    log.(warnings := log.warnings + [e])
  }

  /** On a clean record an error is stored; otherwise it becomes a warning. */
  function Failure<T>(log: Log<T>, e: T): Log<T> {
    match Standing(log)
    case Clear => log.(reported := log.reported + [e])
    case Dummy => Warning(log, e)
    case Stored(_) => Warning(log, e).(reported := log.reported + [e])
  }

  /** All notes, one after the other; `stamp` makes the entry for a report. */
  function Heed<T>(log: Log<T>, notes: seq<Note>, stamp: Report -> T): Log<T> {
    if notes == [] then log
    else
      var l := Heed(log, notes[..|notes| - 1], stamp);
      match notes[|notes| - 1]
      case AsError(r) => Failure(l, stamp(r))
      case AsWarning(r) => Warning(l, stamp(r))
  }

  /** All reported errors but the first became warnings. */
  predicate Demoted<T(==)>(log: Log<T>) {
    forall i | 1 <= i < |log.reported| :: log.reported[i] in log.warnings
  }

  /** Reports only add; behind the dummy an error is added as a warning. */
  predicate Extends<T(==)>(a: Log<T>, b: Log<T>) {
    a.warnings <= b.warnings && a.reported <= b.reported && a.imposed == b.imposed && a.blocked == b.blocked &&
    (Standing(a).Dummy? ==> a.reported == b.reported)
  }

  /** However much is reported after it, the error that stands keeps standing. */
  lemma StandingStays<T>(a: Log<T>, b: Log<T>)
    requires Extends(a, b) && !Standing(a).Clear?
    ensures Standing(b) == Standing(a)
  {
  }

  lemma ExtendsSelf<T>(a: Log<T>)
    ensures Extends(a, a)
  {
  }

  lemma ExtendsFurther<T>(a: Log<T>, b: Log<T>, c: Log<T>)
    requires Extends(a, b) && Extends(b, c)
    ensures Extends(a, c)
  {
  }

  lemma {:induction false} HeedExtends<T>(log: Log<T>, notes: seq<Note>, stamp: Report -> T)
    ensures Extends(log, Heed(log, notes, stamp))
  {
    if notes != [] {
      var l := Heed(log, notes[..|notes| - 1], stamp);
      HeedExtends(log, notes[..|notes| - 1], stamp);
      assert Extends(l, Heed(log, notes, stamp));
      ExtendsFurther(log, l, Heed(log, notes, stamp));
    }
  }

  // ----- entries and reports

  /** The entries that a key with this name and value gets for a report. */
  function Stamp(name: string, value: string): Report -> Entry {
    (r: Report) => Entry(r.code, r.description, r.mod, r.file, r.line, name, value, r.reason)
  }

  function ReportOf(e: Entry): Report {
    Report(e.number, e.description, e.file, e.line, e.mod, e.reason)
  }

  function ReportsOf(es: seq<Entry>): (rs: seq<Report>)
    ensures |rs| == |es| && forall i | 0 <= i < |es| :: rs[i] == ReportOf(es[i])
  {
    seq(|es|, i requires 0 <= i < |es| => ReportOf(es[i]))
  }

  function Same(): Report -> Report {
    (r: Report) => r
  }

  /** The log without the names and values of the key. */
  function Plainly(log: Log<Entry>): Log<Report> {
    Log(ReportsOf(log.warnings), ReportsOf(log.reported),
        if log.imposed.Some? then Some(ReportOf(log.imposed.value)) else None, log.blocked)
  }

  lemma StandingPlainly(log: Log<Entry>)
    ensures Standing(Plainly(log)) ==
            match Standing(log) { case Clear => Clear case Dummy => Dummy case Stored(e) => Stored(ReportOf(e)) }
    ensures Plainly(log).blocked == log.blocked && Plainly(log).imposed.Some? == log.imposed.Some?
  {
  }

  lemma PlainlyWarning(log: Log<Entry>, e: Entry)
    ensures Plainly(Warning(log, e)) == Warning(Plainly(log), ReportOf(e))
  {
    assert ReportsOf(log.warnings + [e]) == ReportsOf(log.warnings) + [ReportOf(e)];
  }

  lemma PlainlyFailure(log: Log<Entry>, e: Entry)
    ensures Plainly(Failure(log, e)) == Failure(Plainly(log), ReportOf(e))
  {
    assert ReportsOf(log.warnings + [e]) == ReportsOf(log.warnings) + [ReportOf(e)];
    assert ReportsOf(log.reported + [e]) == ReportsOf(log.reported) + [ReportOf(e)];
  }

  lemma {:induction false} PlainlyHeed(log: Log<Entry>, notes: seq<Note>, name: string, value: string)
    ensures Plainly(Heed(log, notes, Stamp(name, value))) == Heed(Plainly(log), notes, Same())
  {
    hide Plainly, Failure, Warning;
    if notes != [] {
      var l, r := Heed(log, notes[..|notes| - 1], Stamp(name, value)), notes[|notes| - 1].report;
      PlainlyHeed(log, notes[..|notes| - 1], name, value);
      PlainlyWarning(l, Stamp(name, value)(r));
      PlainlyFailure(l, Stamp(name, value)(r));
    }
  }

  lemma PlainlyCopied(ws: seq<Entry>, vs: seq<Entry>)
    ensures ReportsOf(ws + SlotOrder(vs)) == ReportsOf(ws) + SlotOrder(ReportsOf(vs))
  {
    SlotOrderLength(vs);
    SlotOrderLength(ReportsOf(vs));
    var x, y := SlotOrder(vs), SlotOrder(ReportsOf(vs));
    forall i | 0 <= i < |x| ensures ReportOf(x[i]) == y[i] { LatestForStep(|vs|, i); }
  }

  // ----- acts on the record

  /** A report, the dummy error put and taken, and the record of the original parent key copied over. */
  datatype Act = Say(note: Note) | Block | Unblock | Impose(notes: seq<Note>)

  function Says(notes: seq<Note>): (acts: seq<Act>)
    ensures |acts| == |notes| && forall i | 0 <= i < |notes| :: acts[i] == Say(notes[i])
  {
    seq(|notes|, i requires 0 <= i < |notes| => Say(notes[i]))
  }

  /** What copying a record with these notes does. */
  function Copied(log: Log<Report>, notes: seq<Note>): Log<Report> {
    var source := Heed(Fresh(), notes, Same());
    log.(warnings := log.warnings + SlotOrder(source.warnings),
         imposed := if Standing(source).Stored? then Some(Standing(source).entry) else log.imposed)
  }

  function Do(log: Log<Report>, a: Act): Log<Report> {
    match a
    case Say(AsError(r)) => Failure(log, r)
    case Say(AsWarning(r)) => Warning(log, r)
    case Block => if Standing(log).Clear? then log.(blocked := true) else log
    case Unblock => log.(blocked := false)
    case Impose(notes) => Copied(log, notes)
  }

  function Replay(log: Log<Report>, acts: seq<Act>): Log<Report> {
    if acts == [] then log else Do(Replay(log, acts[..|acts| - 1]), acts[|acts| - 1])
  }

  lemma ReplayOne(log: Log<Report>, a: Act)
    ensures Replay(log, [a]) == Do(log, a)
  {
    assert [a][..0] == [];
  }

  lemma ReplayNone(log: Log<Report>)
    ensures Replay(log, []) == log
  {
  }

  lemma {:induction false} ReplayConcat(log: Log<Report>, x: seq<Act>, y: seq<Act>)
    ensures Replay(log, x + y) == Replay(Replay(log, x), y)
  {
    hide Do;
    if y == [] {
      assert x + y == x;
    } else {
      ReplayConcat(log, x, y[..|y| - 1]);
      assert (x + y)[..|x + y| - 1] == x + y[..|y| - 1];
    }
  }

  lemma {:induction false} ReplaySays(log: Log<Report>, notes: seq<Note>)
    ensures Replay(log, Says(notes)) == Heed(log, notes, Same())
  {
    if notes != [] {
      ReplaySays(log, notes[..|notes| - 1]);
      assert Says(notes)[..|notes| - 1] == Says(notes[..|notes| - 1]);
    }
  }

  // ----- the first error stands

  predicate OnlySays(acts: seq<Act>) {
    forall i | 0 <= i < |acts| :: acts[i].Say?
  }

  /** The errors that are reported, in order. */
  function ErrorsIn(acts: seq<Act>): seq<Report> {
    if acts == [] then []
    else
      var a := acts[|acts| - 1];
      ErrorsIn(acts[..|acts| - 1]) + if a.Say? && a.note.AsError? then [a.note.report] else []
  }

  lemma {:induction false} ErrorsInConcat(x: seq<Act>, y: seq<Act>)
    ensures ErrorsIn(x + y) == ErrorsIn(x) + ErrorsIn(y)
  {
    if y == [] {
      assert x + y == x;
    } else {
      ErrorsInConcat(x, y[..|y| - 1]);
      assert (x + y)[..|x + y| - 1] == x + y[..|y| - 1];
    }
  }

  /** While nothing blocks, exactly the errors said are on record, in order. */
  lemma {:induction false} ErrorsReported(log: Log<Report>, acts: seq<Act>)
    requires OnlySays(acts) && !log.blocked
    ensures var l := Replay(log, acts);
            !l.blocked && l.imposed == log.imposed && l.reported == log.reported + ErrorsIn(acts)
  {
    if acts != [] { ErrorsReported(log, acts[..|acts| - 1]); }
  }

  /** Behind the dummy nothing becomes an error. */
  lemma {:induction false} DummyHolds(log: Log<Report>, acts: seq<Act>)
    requires OnlySays(acts) && Standing(log).Dummy?
    ensures var l := Replay(log, acts); l == log.(warnings := l.warnings)
  {
    if acts != [] { DummyHolds(log, acts[..|acts| - 1]); }
  }

  /** A blocked stretch neither adds nor removes an error: behind an earlier error it only adds to the list
      of later ones, on a clean record not even that. */
  lemma BlockedKeepsError(log: Log<Report>, acts: seq<Act>)
    requires OnlySays(acts) && !log.blocked
    ensures var l := Replay(log, [Block] + acts + [Unblock]);
            !l.blocked && l.imposed == log.imposed && Standing(l) == Standing(log) &&
            l.reported == if Standing(log).Clear? then log.reported else log.reported + ErrorsIn(acts)
  {
    var blocked := Do(log, Block);
    ReplayOne(log, Block);
    ReplayConcat(log, [Block], acts);
    ReplayConcat(log, [Block] + acts, [Unblock]);
    ReplayOne(Replay(log, [Block] + acts), Unblock);
    if Standing(log).Clear? {
      DummyHolds(blocked, acts);
    } else {
      ErrorsReported(log, acts);
    }
  }

  // ----- nothing said is lost

  /** Everything that is reported, in order. */
  function ReportsIn(acts: seq<Act>): seq<Report> {
    if acts == [] then []
    else
      var a := acts[|acts| - 1];
      ReportsIn(acts[..|acts| - 1]) + if a.Say? then [a.note.report] else []
  }

  /** While an error or the dummy stands everything said becomes a warning, in order; so it does as long as no error is said. */
  lemma {:induction false} AllBecomeWarnings(log: Log<Report>, acts: seq<Act>)
    requires OnlySays(acts) && (!Standing(log).Clear? || ErrorsIn(acts) == [])
    ensures Replay(log, acts).warnings == log.warnings + ReportsIn(acts)
    ensures Standing(log).Clear? ==> Standing(Replay(log, acts)).Clear?
    ensures !Standing(log).Clear? ==> !Standing(Replay(log, acts)).Clear?
  {
    if acts != [] { AllBecomeWarnings(log, acts[..|acts| - 1]); }
  }

  /** A warning stays on record whatever else happens. */
  lemma {:induction false} WarningHeard(log: Log<Report>, acts: seq<Act>, r: Report)
    requires Say(AsWarning(r)) in acts || r in log.warnings
    ensures r in Replay(log, acts).warnings
  {
    if acts != [] {
      var last := |acts| - 1;
      assert acts == acts[..last] + [acts[last]];
      if Say(AsWarning(r)) in acts[..last] || r in log.warnings { WarningHeard(log, acts[..last], r); }
    }
  }

  /** An error is on record among the reported ones, or as a warning. */
  lemma {:induction false} ErrorHeard(log: Log<Report>, acts: seq<Act>, r: Report)
    requires Say(AsError(r)) in acts || r in log.warnings || r in log.reported
    ensures var l := Replay(log, acts); r in l.warnings || r in l.reported
  {
    if acts != [] {
      var last := |acts| - 1;
      assert acts == acts[..last] + [acts[last]];
      if Say(AsError(r)) in acts[..last] || r in log.warnings || r in log.reported { ErrorHeard(log, acts[..last], r); }
    }
  }
}
