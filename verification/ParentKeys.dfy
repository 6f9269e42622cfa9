/** The parent key of a kdbSet call: its name, its read-only flags and its error record. */
module ParentKeys {
  import opened Wrappers
  import opened KeyNames
  import opened ErrorRecord
  import opened Reports

  const BLOCKED := "blocked"

  function ErrorMeta(s: ErrorState<Entry>): Meta {
    match s
    case Clear => map[]
    case Dummy => map[ErrorBase := BLOCKED]
    case Stored(e) => PutError(map[], e)
  }

  /** The metadata outside the error and warning record. */
  function OtherMeta(meta: Meta): Meta {
    map k | k in meta && k.Other? :: meta[k]
  }

  // ----- how the metadata follows

  lemma NothingRecorded(meta: Meta)
    ensures ErrorRecord.Records(OtherMeta(meta), []) && ErrorPart(OtherMeta(meta)) == map[]
  {
    var m := OtherMeta(meta);
    forall t: string ensures Absent(m, t) {}
  }

  /** Only the error part differs: the warnings are still recorded. */
  lemma ErrorKeepsRecords(meta: Meta, m: Meta, ws: seq<Entry>)
    requires ErrorRecord.Records(meta, ws)
    requires forall k: MetaName | !OfError(k) :: (k in m <==> k in meta) && (k in meta ==> m[k] == meta[k])
    ensures ErrorRecord.Records(m, ws)
  {
    assert Pointer in m <==> Pointer in meta;
    forall t: string ensures Absent(m, t) <==> Absent(meta, t) {
      assert !OfError(WarningBase(t));
      assert forall f: Field :: !OfError(WarningField(t, f));
    }
    forall i | 0 <= i < 100 ensures SlotRecords(m, ws, i) {
      assert SlotRecords(meta, ws, i);
      assert !OfError(WarningBase(SlotTag(i)));
      assert forall f: Field :: !OfError(WarningField(SlotTag(i), f));
    }
  }

  lemma PutErrorElsewhere(meta: Meta, e: Entry, k: MetaName)
    requires !OfError(k)
    ensures k in PutError(meta, e) <==> k in meta
    ensures k in meta ==> PutError(meta, e)[k] == meta[k]
  {
  }

  lemma PutErrorPart(meta: Meta, e: Entry)
    ensures ErrorPart(PutError(meta, e)) == PutError(map[], e)
  {
    var x, y := ErrorPart(PutError(meta, e)), PutError(map[], e);
    forall k: MetaName ensures k in x <==> k in y {
      if k.ErrorField? {
        var f := k.field;
        assert f.Number? || f.Description? || f.Module? || f.File? || f.Line? || f.Mountpoint? || f.Configfile? || f.Reason?;
      }
    }
  }

  lemma PutErrorRecords(meta: Meta, e: Entry, ws: seq<Entry>)
    requires ErrorRecord.Records(meta, ws)
    ensures ErrorRecord.Records(PutError(meta, e), ws)
  {
    hide PutError, ErrorRecord.Records;
    forall k: MetaName | !OfError(k)
      ensures k in PutError(meta, e) <==> k in meta
      ensures k in meta ==> PutError(meta, e)[k] == meta[k]
    {
      PutErrorElsewhere(meta, e, k);
    }
    ErrorKeepsRecords(meta, PutError(meta, e), ws);
  }

  lemma CopiedError(meta: Meta, e: Entry, ws: seq<Entry>)
    requires ErrorRecord.Records(meta, ws)
    ensures ErrorRecord.Records(meta + PutError(map[], e), ws)
    ensures ErrorPart(meta + PutError(map[], e)) == PutError(map[], e)
  {
    hide ErrorRecord.Records;
    assert meta + PutError(map[], e) == PutError(meta, e);
    PutErrorPart(meta, e);
    PutErrorRecords(meta, e, ws);
  }

  lemma DummyPut(meta: Meta, ws: seq<Entry>)
    requires ErrorRecord.Records(meta, ws) && ErrorPart(meta) == map[]
    ensures ErrorRecord.Records(meta[ErrorBase := BLOCKED], ws)
    ensures ErrorPart(meta[ErrorBase := BLOCKED]) == map[ErrorBase := BLOCKED]
  {
    hide ErrorRecord.Records;
    NoErrorKeys(meta);
    ErrorKeepsRecords(meta, meta[ErrorBase := BLOCKED], ws);
  }

  lemma NoErrorKeys(meta: Meta)
    requires ErrorPart(meta) == map[]
    ensures forall k | k in meta :: !OfError(k)
  {
    forall k | k in meta ensures !OfError(k) {
      assert OfError(k) ==> k in ErrorPart(meta);
    }
  }

  lemma DummyTaken(meta: Meta, ws: seq<Entry>)
    requires ErrorRecord.Records(meta, ws) && ErrorPart(meta) == map[ErrorBase := BLOCKED]
    ensures ErrorRecord.Records(meta - {ErrorBase}, ws)
    ensures ErrorPart(meta - {ErrorBase}) == map[]
  {
    hide ErrorRecord.Records;
    forall k | k in meta - {ErrorBase} ensures !OfError(k) {
      assert OfError(k) ==> k in ErrorPart(meta);
    }
    ErrorKeepsRecords(meta, meta - {ErrorBase}, ws);
  }

  lemma ErrorPresent(meta: Meta, s: ErrorState<Entry>)
    requires ErrorPart(meta) == ErrorMeta(s)
    ensures ErrorBase in meta <==> !s.Clear?
  {
    assert ErrorBase in meta <==> ErrorBase in ErrorPart(meta);
  }

  // ----- the key

  class ParentKey {
    const record: ErrorKey
    /** How names are written out; fixed for the whole run. */
    const show: KeyName -> string
    var name: KeyName
    var readOnlyName: bool
    var readOnlyValue: bool
    var readOnlyMeta: bool

    ghost var log: Log<Entry>

    ghost function Error(): ErrorState<Entry>
      reads this
    {
      Standing(log)
    }

    /** The log without the names and values that this key had at the time. */
    ghost function Heard(): Log<Report>
      reads this
    {
      Plainly(log)
    }

    /** The metadata is exactly what the log says. */
    ghost predicate Valid()
      reads this, record
    {
      record.name == show(name) &&
      ErrorRecord.Records(record.meta, log.warnings) &&
      ErrorPart(record.meta) == ErrorMeta(Error()) &&
      Demoted(log)
    }

    /** A key without error and warnings. */
    constructor (name: KeyName, value: string, show: KeyName -> string)
      ensures Valid() && fresh(record)
      ensures this.name == name && this.show == show && record.value == value
      ensures !readOnlyName && !readOnlyValue && !readOnlyMeta
      ensures log == Fresh()
    {
      this.name, this.show := name, show;
      readOnlyName, readOnlyValue, readOnlyMeta := false, false, false;
      log := Fresh();
      record := new ErrorKey(show(name), value);
      new;
      NothingRecorded(map[]);
      assert OtherMeta(map[]) == map[];
    }

    /** clearErrorAndWarnings */
    method ClearRecord()
      requires record.name == show(name)
      modifies this`log, record`meta
      ensures Valid() && log == Fresh()
      ensures record.meta == OtherMeta(old(record.meta))
    {
      NothingRecorded(record.meta);
      record.meta := OtherMeta(record.meta);
      log := Fresh();
    }

    /** ELEKTRA_ADD_..._WARNING */
    method Warn(r: Report)
      requires Valid()
      modifies this`log, record`meta
      ensures Valid() && log == Warning(old(log), record.EntryOf(r)) && Heard() == Warning(old(Heard()), r)
    {
      hide WithWarning, ErrorRecord.Records, ErrorPart, ErrorMeta, Plainly;
      NextSlot(record.meta, log.warnings);
      ghost var e := record.EntryOf(r);
      WarningRecorded(record.meta, log.warnings, e);
      WarningKeepsError(record.meta, e);
      record.AddWarning(r);
      PlainlyWarning(log, e);
      log := Warning(log, e);
    }

    /** ELEKTRA_SET_..._ERROR: the first error stands; a later one, or one in a blocked phase, becomes
        a warning. */
    method SetError(r: Report)
      requires Valid()
      modifies this`log, record`meta
      ensures Valid() && log == Failure(old(log), record.EntryOf(r)) && Heard() == Failure(old(Heard()), r)
    {
      hide WithWarning, ErrorRecord.Records, ErrorPart, ErrorMeta, PutError, Plainly;
      NextSlot(record.meta, log.warnings);
      ghost var e := record.EntryOf(r);
      ErrorPresent(record.meta, Error());
      ghost var state, meta := Error(), record.meta;
      record.SetError(r);
      if state.Clear? {
        PutErrorPart(meta, e);
        PutErrorRecords(meta, e, log.warnings);
        StoredMeta(e);
      } else {
        WarningRecorded(meta, log.warnings, e);
        FirstErrorWins(meta, e);
      }
      PlainlyFailure(log, e);
      log := Failure(log, e);
    }

    /** Everything a plugin reports, one note after the other, under the present name and value. */
    method Receive(notes: seq<Note>)
      requires Valid()
      modifies this`log, record`meta
      ensures Valid() && log == Heed(old(log), notes, Stamp(record.name, record.value))
      ensures Heard() == Replay(old(Heard()), Says(notes)) && Extends(old(log), log)
    {
      hide Plainly, Replay, Says;
      ghost var stamp := Stamp(record.name, record.value);
      assert notes[..0] == [];
      for i := 0 to |notes|
        invariant Valid() && log == Heed(old(log), notes[..i], stamp)
      {
        assert notes[..i + 1][..i] == notes[..i];
        match notes[i]
        case AsError(r) => SetError(r);
        case AsWarning(r) => Warn(r);
      }
      assert notes[..|notes|] == notes;
      HeedExtends(old(log), notes, stamp);
      PlainlyHeed(old(log), notes, record.name, record.value);
      ReplaySays(Plainly(old(log)), notes);
    }

    method Block()
      requires Valid() && Error().Clear?
      modifies this`log, record`meta
      ensures Valid() && log == old(log).(blocked := true) && Heard() == Do(old(Heard()), Act.Block)
    {
      DummyPut(record.meta, log.warnings);
      record.meta := record.meta[ErrorBase := BLOCKED];
      log := log.(blocked := true);
    }

    method Unblock()
      requires Valid() && Error().Dummy?
      modifies this`log, record`meta
      ensures Valid() && log == old(log).(blocked := false) && Heard() == Do(old(Heard()), Act.Unblock)
    {
      DummyTaken(record.meta, log.warnings);
      record.meta := record.meta - {ErrorBase};
      log := log.(blocked := false);
    }

    /** elektraCopyErrorAndWarnings: an error of the source replaces the one that stands here. */
    method CopyFrom(source: ParentKey)
      requires source != this && source.record != record
      requires Valid() && source.Valid() && !log.blocked && !source.log.blocked
      modifies this`log, record`meta
      ensures Valid()
      ensures log == old(log).(warnings := old(log).warnings + SlotOrder(source.log.warnings),
                               imposed := if source.Error().Stored? then Some(source.Error().entry) else old(log).imposed)
    {
      hide ErrorRecord.Records, PutError, SlotOrder;
      ghost var e, meta := source.Error(), record.meta;
      CopyError(record, source.record);
      assert record.meta == meta + ErrorPart(source.record.meta);
      if e.Stored? {
        CopiedError(meta, e.entry, log.warnings);
      } else {
        assert meta + map[] == meta;
      }
      CopyWarnings(record, source.record, log.warnings, source.log.warnings);
      log := log.(warnings := log.warnings + SlotOrder(source.log.warnings),
                  imposed := if e.Stored? then Some(e.entry) else log.imposed);
    }

    /** Whether the `error` metadata is there. */
    method HasError() returns (has: bool)
      requires Valid()
      ensures has <==> !Error().Clear?
    {
      ErrorPresent(record.meta, Error());
      has := ErrorBase in record.meta;
    }

    method SetFlags(readOnlyName: bool, readOnlyValue: bool)
      requires Valid()
      modifies this`readOnlyName, this`readOnlyValue
      ensures Valid() && this.readOnlyName == readOnlyName && this.readOnlyValue == readOnlyValue
    {
      this.readOnlyName, this.readOnlyValue := readOnlyName, readOnlyValue;
    }

    method SetValue(value: string)
      requires Valid()
      modifies record`value
      ensures Valid() && record.value == value
    {
      record.value := value;
    }

    /** keyCopy with KEY_CP_NAME and a new value. */
    method Rename(n: KeyName, value: string)
      requires Valid()
      modifies this`name, record`name, record`value
      ensures Valid() && name == n && record.value == value
    {
      name := n;
      record.name, record.value := show(n), value;
    }
  }

  lemma StoredMeta(e: Entry)
    ensures ErrorMeta(Stored(e)) == PutError(map[], e)
  {
  }

  /** Copying the record of a key that heard only these notes. */
  lemma CopiedIsImposed(a: Log<Entry>, source: Log<Entry>, b: Log<Entry>, notes: seq<Note>)
    requires Plainly(source) == Heed(Fresh(), notes, Same())
    requires b == a.(warnings := a.warnings + SlotOrder(source.warnings),
                     imposed := if Standing(source).Stored? then Some(Standing(source).entry) else a.imposed)
    ensures Plainly(b) == Do(Plainly(a), Impose(notes))
  {
    hide SlotOrder;
    PlainlyCopied(a.warnings, source.warnings);
  }
}
