/** The error and warning record in the metadata of a key: one error, and a ring of one hundred
    warnings. */
module ErrorRecord {
  import opened Wrappers
  import opened ArrayParts

  datatype Field = Number | Description | Module | File | Line | Mountpoint | Configfile | Reason

  /** The metadata names below `error` and `warnings`; `tag` is the array part of a warning. */
  datatype MetaName =
    | ErrorBase
    | ErrorField(field: Field)
    | Pointer
    | WarningBase(tag: string)
    | WarningField(tag: string, field: Field)
    | Other(name: string)

  type Meta = map<MetaName, string>

  /** What the caller of setError or addWarning passes, with the formatted reason. */
  datatype Report = Report(code: string, description: string, file: string, line: string, mod: string, reason: string)

  /** A stored error or warning. */
  datatype Entry = Entry(number: string, description: string, mod: string, file: string, line: string,
                         mountpoint: string, configfile: string, reason: string)

  const HEADER := "number description  module file line mountpoint configfile reason"

  // ----- the names of the slots

  /** The buffer from its tenth character on: `#d` or `#_dd`. */
  function SlotTag(i: nat): (t: string)
    requires i < 100
    ensures |t| == if i < 10 then 2 else 4
    ensures t[0] == '#'
  {
    if i < 10 then ['#', Digit(i)] else ['#', '_', Digit(i / 10), Digit(i % 10)]
  }

  lemma SlotTagInjective(i: nat, j: nat)
    requires i < 100 && j < 100 && SlotTag(i) == SlotTag(j)
    ensures i == j
  {
    if i < 10 {
      assert SlotTag(i)[1] == SlotTag(j)[1];
    } else {
      assert SlotTag(i)[2] == SlotTag(j)[2] && SlotTag(i)[3] == SlotTag(j)[3];
    }
  }

  /** The tag that follows `old`: parse its digits and count on, or start over at or after `#_99`. */
  function NextTag(old_: Option<string>): string
    requires old_.Some? ==> ValidTag(old_.value)
  {
    if old_.Some? && StrLess(old_.value, "#_99") then
      var s := old_.value;
      var i := if s[1] == '_' then (s[2] - '0') as nat * 10 + (s[3] - '0') as nat else (s[1] - '0') as nat;
      SlotTag((i + 1) % 100)
    else "#0"
  }

  predicate ValidTag(t: string) {
    t != [] && t[0] == '#' &&
    ((|t| == 2 && IsDigit(t[1])) || (|t| == 4 && t[1] == '_' && IsDigit(t[2]) && IsDigit(t[3])))
  }

  lemma TagOrder(i: nat)
    requires i < 100
    ensures ValidTag(SlotTag(i)) && (StrLess(SlotTag(i), "#_99") <==> i < 99)
  {
    TagOrderTo(i, "#_99");
  }

  lemma TagOrderTo(i: nat, m: string)
    requires i < 100 && m == "#_99"
    ensures StrLess(SlotTag(i), m) <==> i < 99
  {
    var t := SlotTag(i);
    if i < 10 {
      assert t[1..][0] == Digit(i) && m[1..][0] == '_';
      assert StrLess(t[1..], m[1..]);
    } else {
      var t2, m2 := t[1..][1..], m[1..][1..];
      assert t2 == [Digit(i / 10), Digit(i % 10)] && m2 == ['9', '9'];
      assert t2[1..] == [Digit(i % 10)] && m2[1..] == ['9'];
      assert t2[1..][1..] == [] && m2[1..][1..] == [];
      assert StrLess(t2[1..], m2[1..]) <==> i % 10 < 9;
      assert StrLess(t2, m2) <==> i < 99;
      assert StrLess(t[1..], m[1..]) <==> i < 99;
    }
  }

  /** The pointer steps through the ring. */
  lemma NextTagSteps(i: nat)
    requires i < 100
    ensures ValidTag(SlotTag(i)) && NextTag(Some(SlotTag(i))) == SlotTag((i + 1) % 100)
  {
    TagOrder(i);
    assert i >= 10 ==> i == i / 10 * 10 + i % 10;
  }

  lemma FirstTag()
    ensures NextTag(None) == SlotTag(0)
  {
  }

  // ----- the ring as a function of all warnings so far

  /** The latest warning number congruent to `i` among `n` warnings. */
  function LatestFor(n: nat, i: nat): int {
    n - 1 - (n - 1 - i) % 100
  }

  lemma LatestForStep(n: nat, i: nat)
    requires i < 100
    ensures i < n ==> 0 <= LatestFor(n, i) < n && LatestFor(n, i) % 100 == i
    ensures i < n ==> forall j | LatestFor(n, i) < j < n :: j % 100 != i
    ensures LatestFor(n + 1, i) == if n % 100 == i then n else LatestFor(n, i)
    ensures n % 100 != i ==> (i < n + 1 <==> i < n)
  {
  }

  predicate Holds(meta: Meta, tag: string, e: Entry) {
    WarningBase(tag) in meta && meta[WarningBase(tag)] == HEADER &&
    WarningField(tag, Number) in meta && meta[WarningField(tag, Number)] == e.number &&
    WarningField(tag, Description) in meta && meta[WarningField(tag, Description)] == e.description &&
    WarningField(tag, Module) in meta && meta[WarningField(tag, Module)] == e.mod &&
    WarningField(tag, File) in meta && meta[WarningField(tag, File)] == e.file &&
    WarningField(tag, Line) in meta && meta[WarningField(tag, Line)] == e.line &&
    WarningField(tag, Mountpoint) in meta && meta[WarningField(tag, Mountpoint)] == e.mountpoint &&
    WarningField(tag, Configfile) in meta && meta[WarningField(tag, Configfile)] == e.configfile &&
    WarningField(tag, Reason) in meta && meta[WarningField(tag, Reason)] == e.reason
  }

  /** No metadata of a slot with this tag. */
  predicate Absent(meta: Meta, tag: string) {
    WarningBase(tag) !in meta && forall f: Field :: WarningField(tag, f) !in meta
  }

  /** The metadata after the warnings `ws` on a key that had none. */
  ghost predicate Records(meta: Meta, ws: seq<Entry>) {
    (Pointer in meta <==> ws != []) &&
    (ws != [] ==> meta[Pointer] == SlotTag((|ws| - 1) % 100)) &&
    (forall i | 0 <= i < 100 :: SlotRecords(meta, ws, i)) &&
    forall t: string :: !Absent(meta, t) ==> IsSlot(t)
  }

  ghost predicate IsSlot(t: string) {
    exists i | 0 <= i < 100 :: t == SlotTag(i)
  }

  predicate SlotRecords(meta: Meta, ws: seq<Entry>, i: nat)
    requires i < 100
  {
    LatestForStep(|ws|, i);
    if i < |ws| then Holds(meta, SlotTag(i), ws[LatestFor(|ws|, i)]) else Absent(meta, SlotTag(i))
  }

  // ----- addWarning

  predicate PointerValid(meta: Meta) {
    Pointer in meta ==> ValidTag(meta[Pointer])
  }

  function PointerOf(meta: Meta): Option<string> {
    if Pointer in meta then Some(meta[Pointer]) else None
  }

  /** The pointer and the nine metadata keys of a slot. */
  function PutWarning(meta: Meta, tag: string, e: Entry): Meta {
    meta[Pointer := tag][WarningBase(tag) := HEADER]
    [WarningField(tag, Number) := e.number][WarningField(tag, Description) := e.description]
    [WarningField(tag, Module) := e.mod][WarningField(tag, File) := e.file][WarningField(tag, Line) := e.line]
    [WarningField(tag, Mountpoint) := e.mountpoint][WarningField(tag, Configfile) := e.configfile]
    [WarningField(tag, Reason) := e.reason]
  }

  function WithWarning(meta: Meta, e: Entry): Meta
    requires PointerValid(meta)
  {
    PutWarning(meta, NextTag(PointerOf(meta)), e)
  }

  predicate OfSlot(k: MetaName, tag: string) {
    k == WarningBase(tag) || (k.WarningField? && k.tag == tag)
  }

  lemma PutWarningElsewhere(meta: Meta, tag: string, e: Entry, k: MetaName)
    requires k != Pointer && !OfSlot(k, tag)
    ensures k in PutWarning(meta, tag, e) <==> k in meta
    ensures k in meta ==> PutWarning(meta, tag, e)[k] == meta[k]
  {
  }

  lemma Successor(n: nat)
    requires n > 0
    ensures ((n - 1) % 100 + 1) % 100 == n % 100
  {
  }

  lemma NextSlot(meta: Meta, ws: seq<Entry>)
    requires Records(meta, ws)
    ensures PointerValid(meta) && NextTag(PointerOf(meta)) == SlotTag(|ws| % 100)
  {
    hide NextTag, Absent, Holds, IsSlot, ValidTag, SlotTag;
    if ws == [] {
      FirstTag();
    } else {
      var last := (|ws| - 1) % 100;
      NextTagSteps(last);
      Successor(|ws|);
    }
  }

  /** One more warning is one more entry of the ring. */
  lemma WarningRecorded(meta: Meta, ws: seq<Entry>, e: Entry)
    requires Records(meta, ws) && PointerValid(meta)
    ensures Records(WithWarning(meta, e), ws + [e])
  {
    hide NextTag, PutWarning, Absent, Holds, IsSlot;
    NextSlot(meta, ws);
    var tag := SlotTag(|ws| % 100);
    var m, vs := WithWarning(meta, e), ws + [e];
    forall i | 0 <= i < 100 ensures SlotRecords(m, vs, i) { SlotKept(meta, ws, e, i, m, vs); }
    forall t: string | !Absent(m, t) ensures IsSlot(t) { OnlySlots(meta, ws, e, t, m); }
    PointerSet(meta, tag, e);
  }

  lemma PointerSet(meta: Meta, tag: string, e: Entry)
    ensures Pointer in PutWarning(meta, tag, e) && PutWarning(meta, tag, e)[Pointer] == tag
  {
  }

  lemma SlotKept(meta: Meta, ws: seq<Entry>, e: Entry, i: nat, m: Meta, vs: seq<Entry>)
    requires i < 100 && Records(meta, ws)
    requires m == PutWarning(meta, SlotTag(|ws| % 100), e) && vs == ws + [e]
    ensures SlotRecords(m, vs, i)
  {
    hide PutWarning;
    LatestForStep(|ws|, i);
    LatestForStep(|vs|, i);
    assert SlotRecords(meta, ws, i);
    if i == |ws| % 100 {
      SlotWritten(meta, SlotTag(i), e);
    } else {
      if SlotTag(i) == SlotTag(|ws| % 100) { SlotTagInjective(i, |ws| % 100); }
      OtherSlotKept(meta, SlotTag(|ws| % 100), e, SlotTag(i), if i < |ws| then ws[LatestFor(|ws|, i)] else e);
    }
  }

  lemma SlotWritten(meta: Meta, tag: string, e: Entry)
    ensures Holds(PutWarning(meta, tag, e), tag, e)
  {
  }

  lemma OtherSlotKept(meta: Meta, tag: string, e: Entry, other: string, x: Entry)
    requires tag != other
    ensures Holds(PutWarning(meta, tag, e), other, x) <==> Holds(meta, other, x)
    ensures Absent(PutWarning(meta, tag, e), other) <==> Absent(meta, other)
  {
    hide PutWarning;
    forall k: MetaName | OfSlot(k, other)
      ensures k in PutWarning(meta, tag, e) <==> k in meta
      ensures k in meta ==> PutWarning(meta, tag, e)[k] == meta[k]
    {
      PutWarningElsewhere(meta, tag, e, k);
    }
    assert OfSlot(WarningBase(other), other);
    assert forall f: Field :: OfSlot(WarningField(other, f), other);
  }

  lemma OnlySlots(meta: Meta, ws: seq<Entry>, e: Entry, t: string, m: Meta)
    requires Records(meta, ws) && !Absent(m, t)
    requires m == PutWarning(meta, SlotTag(|ws| % 100), e)
    ensures IsSlot(t)
  {
    hide PutWarning, Absent;
    if t != SlotTag(|ws| % 100) {
      OtherSlotKept(meta, SlotTag(|ws| % 100), e, t, e);
    }
  }

  // ----- what the record says of a report

  function FieldAt(base: MetaName, f: Field): MetaName
    requires base.ErrorBase? || base.WarningBase?
  {
    if base.ErrorBase? then ErrorField(f) else WarningField(base.tag, f)
  }

  predicate HasText(m: Meta, k: MetaName, text: string) {
    k in m && m[k] == text
  }

  /** A report stands below `base` with all its fields: what the caller passed, and name and value of the key. */
  predicate Written(m: Meta, base: MetaName, r: Report, name: string, value: string)
    requires base.ErrorBase? || base.WarningBase?
  {
    HasText(m, base, "number description  module file line mountpoint configfile reason") &&
    HasText(m, FieldAt(base, Number), r.code) && HasText(m, FieldAt(base, Description), r.description) && HasText(m, FieldAt(base, Module), r.mod) &&
    HasText(m, FieldAt(base, File), r.file) && HasText(m, FieldAt(base, Line), r.line) && HasText(m, FieldAt(base, Mountpoint), name) &&
    HasText(m, FieldAt(base, Configfile), value) && HasText(m, FieldAt(base, Reason), r.reason)
  }

  lemma WarningWritten(meta: Meta, tag: string, r: Report, name: string, value: string, e: Entry)
    requires e == Entry(r.code, r.description, r.mod, r.file, r.line, name, value, r.reason)
    ensures Written(PutWarning(meta, tag, e), WarningBase(tag), r, name, value)
  {
    SlotWritten(meta, tag, e);
  }

  lemma ErrorWritten(meta: Meta, r: Report, name: string, value: string, e: Entry)
    requires e == Entry(r.code, r.description, r.mod, r.file, r.line, name, value, r.reason)
    ensures Written(PutError(meta, e), ErrorBase, r, name, value)
    ensures forall k | !OfError(k) :: (k in PutError(meta, e) <==> k in meta) && (k in meta ==> PutError(meta, e)[k] == meta[k])
  {
  }

  // ----- the key

  class ErrorKey {
    var name: string
    var value: string
    var meta: Meta

    constructor (name: string, value: string)
      ensures this.name == name && this.value == value && meta == map[]
    {
      this.name, this.value, meta := name, value, map[];
    }

    function EntryOf(r: Report): Entry
      reads this
    {
      Entry(r.code, r.description, r.mod, r.file, r.line, name, value, r.reason)
    }

    /** addWarning: advance the pointer, then write the slot field by field. */
    method AddWarning(r: Report)
      requires PointerValid(meta)
      modifies this`meta
      ensures meta == WithWarning(old(meta), EntryOf(r)) && PointerValid(meta)
      ensures Pointer in meta && meta[Pointer] == NextTag(PointerOf(old(meta))) && Written(meta, WarningBase(meta[Pointer]), r, name, value)
    {
      hide NextTag, Written;
      WarningWritten(meta, NextTag(PointerOf(meta)), r, name, value, EntryOf(r));
      var tag := NextTag(PointerOf(meta));
      NextTagValid(PointerOf(meta));
      PointerSet(meta, tag, EntryOf(r));
      meta := meta[Pointer := tag];
      meta := meta[WarningBase(tag) := HEADER];
      meta := meta[WarningField(tag, Number) := r.code];
      meta := meta[WarningField(tag, Description) := r.description];
      meta := meta[WarningField(tag, Module) := r.mod];
      meta := meta[WarningField(tag, File) := r.file];
      meta := meta[WarningField(tag, Line) := r.line];
      meta := meta[WarningField(tag, Mountpoint) := name];
      meta := meta[WarningField(tag, Configfile) := value];
      meta := meta[WarningField(tag, Reason) := r.reason];
    }

    /** setError: the first error is kept, later ones become warnings. */
    method SetError(r: Report)
      requires PointerValid(meta)
      modifies this`meta
      ensures meta == WithError(old(meta), EntryOf(r)) && PointerValid(meta)
      ensures if ErrorBase in old(meta) then meta == WithWarning(old(meta), EntryOf(r)) else Written(meta, ErrorBase, r, name, value)
      ensures ErrorBase !in old(meta) ==> forall k | !OfError(k) :: (k in meta <==> k in old(meta)) && (k in meta ==> meta[k] == old(meta[k]))
    {
      hide WithWarning, Written, OfError;
      ErrorWritten(meta, r, name, value, EntryOf(r));
      if ErrorBase in meta {
        AddWarning(r);
      } else {
        meta := meta[ErrorBase := HEADER];
        meta := meta[ErrorField(Number) := r.code];
        meta := meta[ErrorField(Description) := r.description];
        meta := meta[ErrorField(Module) := r.mod];
        meta := meta[ErrorField(File) := r.file];
        meta := meta[ErrorField(Line) := r.line];
        meta := meta[ErrorField(Mountpoint) := name];
        meta := meta[ErrorField(Configfile) := value];
        meta := meta[ErrorField(Reason) := r.reason];
      }
    }
  }

  lemma NextTagValid(t: Option<string>)
    requires t.Some? ==> ValidTag(t.value)
    ensures ValidTag(NextTag(t))
  {
    forall i: nat | i < 100 ensures ValidTag(SlotTag(i)) { TagOrder(i); }
    FirstTag();
  }

  function PutError(meta: Meta, e: Entry): Meta {
    meta[ErrorBase := HEADER]
    [ErrorField(Number) := e.number][ErrorField(Description) := e.description]
    [ErrorField(Module) := e.mod][ErrorField(File) := e.file][ErrorField(Line) := e.line]
    [ErrorField(Mountpoint) := e.mountpoint][ErrorField(Configfile) := e.configfile]
    [ErrorField(Reason) := e.reason]
  }

  function WithError(meta: Meta, e: Entry): Meta
    requires PointerValid(meta)
  {
    if ErrorBase in meta then WithWarning(meta, e) else PutError(meta, e)
  }

  // ----- any number of warnings on a fresh key

  function AfterWarnings(ws: seq<Entry>): (meta: Meta)
    ensures PointerValid(meta)
  {
    if ws == [] then map[]
    else
      var before := AfterWarnings(ws[..|ws| - 1]);
      NextTagValid(PointerOf(before));
      PointerSet(before, NextTag(PointerOf(before)), ws[|ws| - 1]);
      WithWarning(before, ws[|ws| - 1])
  }

  /** The ring holds the latest warning of every residue. */
  lemma {:induction false} RingHoldsLatest(ws: seq<Entry>)
    ensures Records(AfterWarnings(ws), ws)
  {
    hide WithWarning, Holds;
    if ws != [] {
      RingHoldsLatest(ws[..|ws| - 1]);
      WarningRecorded(AfterWarnings(ws[..|ws| - 1]), ws[..|ws| - 1], ws[|ws| - 1]);
      assert ws == ws[..|ws| - 1] + [ws[|ws| - 1]];
    }
  }

  /** Exactly the first min(n, 100) slots exist. */
  lemma SlotsInUse(meta: Meta, ws: seq<Entry>, t: string)
    requires Records(meta, ws)
    ensures WarningBase(t) in meta <==> exists i: nat | i < 100 && i < |ws| :: t == SlotTag(i)
  {
    if WarningBase(t) in meta {
      assert !Absent(meta, t);
      var i :| 0 <= i < 100 && t == SlotTag(i);
      assert SlotRecords(meta, ws, i);
    }
    if exists i: nat | i < 100 && i < |ws| :: t == SlotTag(i) {
      var i: nat :| i < 100 && i < |ws| && t == SlotTag(i);
      assert SlotRecords(meta, ws, i);
    }
  }

  // ----- the error part

  predicate OfError(k: MetaName) {
    k.ErrorBase? || k.ErrorField?
  }

  function ErrorPart(meta: Meta): Meta {
    map k | k in meta && OfError(k) :: meta[k]
  }

  /** Warnings leave the error alone. */
  lemma WarningKeepsError(meta: Meta, e: Entry)
    requires PointerValid(meta)
    ensures ErrorPart(WithWarning(meta, e)) == ErrorPart(meta)
  {
    hide PutWarning, NextTag;
    var tag := NextTag(PointerOf(meta));
    forall k: MetaName | OfError(k)
      ensures k in PutWarning(meta, tag, e) <==> k in meta
      ensures k in meta ==> PutWarning(meta, tag, e)[k] == meta[k]
    {
      PutWarningElsewhere(meta, tag, e, k);
    }
  }

  /** The first error wins: an error on record is not changed by another one. */
  lemma FirstErrorWins(meta: Meta, e: Entry)
    requires PointerValid(meta) && ErrorBase in meta
    ensures ErrorPart(WithError(meta, e)) == ErrorPart(meta)
  {
    WarningKeepsError(meta, e);
  }

  // ----- copying

  /** elektraCopyError: every error key that the source has wins; error keys it does not have, all warnings and
      all other metadata of the target stay, and nothing is added besides. A source with a complete error thus
      replaces the error, and a source without one changes nothing. */
  method CopyError(target: ErrorKey, source: ErrorKey)
    modifies target`meta
    ensures forall k: MetaName :: k in target.meta <==> k in old(target.meta) || (OfError(k) && k in old(source.meta))
    ensures forall k: MetaName | k in target.meta ::
      target.meta[k] == if OfError(k) && k in old(source.meta) then old(source.meta)[k] else old(target.meta)[k]
  {
    target.meta := target.meta + ErrorPart(source.meta);
  }

  /** The warnings of a ring by slot number; after an overflow this is not their order in time. */
  function SlotOrder<T>(ws: seq<T>): seq<T> {
    seq(if |ws| < 100 then |ws| else 100,
        i requires 0 <= i < (if |ws| < 100 then |ws| else 100) => LatestForStep(|ws|, i); ws[LatestFor(|ws|, i)])
  }

  /** The name with a plain number is looked up in its canonical form. */
  function LookupTag(i: nat): string {
    ArrayPart(Decimal(i))
  }

  lemma LookupTagIsSlot(i: nat)
    ensures i < 100 ==> LookupTag(i) == SlotTag(i)
    ensures i == 100 ==> !IsSlot(LookupTag(i))
  {
    if i < 10 {
      assert Decimal(i) == [Digit(i)];
      assert Underscores(0) == [];
    } else if i < 100 {
      assert Decimal(i) == [Digit(i / 10)] + [Digit(i % 10)];
      assert Underscores(1) == ['_'];
    } else if i == 100 {
      DecimalLength(100);
      assert |LookupTag(100)| == 6;
    }
  }

  lemma CopiedWarning(meta: Meta, temp: Meta, e: Entry)
    requires PointerValid(meta) && PointerValid(temp) && PointerOf(temp) == PointerOf(meta)
    requires forall k | k in temp :: k == Pointer
    ensures meta + WithWarning(temp, e) == WithWarning(meta, e)
  {
    hide NextTag;
  }

  lemma SourceSlot(meta: Meta, ws: seq<Entry>, i: nat)
    requires Records(meta, ws) && i <= 100
    ensures WarningField(LookupTag(i), Number) in meta <==> i < |ws| && i < 100
    ensures i < |ws| && i < 100 ==> i < |SlotOrder(ws)| && Holds(meta, LookupTag(i), SlotOrder(ws)[i])
  {
    hide Holds;
    LookupTagIsSlot(i);
    if i < 100 {
      assert SlotRecords(meta, ws, i);
      if i < |ws| { HoldsNumber(meta, SlotTag(i), ws[LatestFor(|ws|, i)]); }
    } else {
      assert Absent(meta, LookupTag(i));
    }
  }

  lemma HoldsNumber(meta: Meta, tag: string, e: Entry)
    requires Holds(meta, tag, e)
    ensures WarningField(tag, Number) in meta
  {
  }

  /** The warning in a slot, read field by field. */
  method ReadSlot(meta: Meta, tag: string, ghost e: Entry) returns (r: Entry)
    requires Holds(meta, tag, e)
    ensures r == e
  {
    r := Entry(meta[WarningField(tag, Number)], meta[WarningField(tag, Description)], meta[WarningField(tag, Module)],
               meta[WarningField(tag, File)], meta[WarningField(tag, Line)], meta[WarningField(tag, Mountpoint)],
               meta[WarningField(tag, Configfile)], meta[WarningField(tag, Reason)]);
  }

  /** Add a stored warning to `target` through a temporary key that has its mountpoint and file. */
  method CopyOne(target: ErrorKey, e: Entry)
    requires PointerValid(target.meta)
    modifies target`meta
    ensures target.meta == WithWarning(old(target.meta), e) && PointerValid(target.meta)
  {
    hide WithWarning, PutWarning, NextTag;
    var tempKey := new ErrorKey(e.mountpoint, e.configfile);
    if Pointer in target.meta {
      tempKey.meta := map[Pointer := target.meta[Pointer]];
    }
    ghost var temp := tempKey.meta;
    tempKey.AddWarning(Report(e.number, e.description, e.file, e.line, e.mod, e.reason));
    CopiedWarning(target.meta, temp, e);
    target.meta := target.meta + tempKey.meta;
    WithWarningValid(old(target.meta), e);
  }

  lemma WithWarningValid(meta: Meta, e: Entry)
    requires PointerValid(meta)
    ensures PointerValid(WithWarning(meta, e))
  {
    hide NextTag;
    NextTagValid(PointerOf(meta));
    PointerSet(meta, NextTag(PointerOf(meta)), e);
  }

  /** elektraCopyWarnings: the warnings of the source, by slot, are added after those of the target. */
  method CopyWarnings(target: ErrorKey, source: ErrorKey, ghost vs: seq<Entry>, ghost ws: seq<Entry>)
    requires Records(target.meta, vs) && Records(source.meta, ws)
    modifies target`meta
    ensures Records(target.meta, vs + SlotOrder(ws))
    ensures ErrorPart(target.meta) == old(ErrorPart(target.meta))
  {
    hide WithWarning, NextTag, Holds, Records, SlotOrder, ErrorPart;
    var sourceWarnings := source.meta;
    ghost var order := SlotOrder(ws);
    var i := 0;
    SourceSlot(sourceWarnings, ws, 0);
    assert vs + order[..0] == vs;
    ghost var errors := ErrorPart(target.meta);
    while WarningField(LookupTag(i), Number) in sourceWarnings
      invariant 0 <= i <= 100 && i <= |order|
      invariant Records(target.meta, vs + order[..i])
      invariant ErrorPart(target.meta) == errors
      decreases 100 - i
    {
      SourceSlot(sourceWarnings, ws, i);
      var e := ReadSlot(sourceWarnings, LookupTag(i), order[i]);
      NextSlot(target.meta, vs + order[..i]);
      WarningRecorded(target.meta, vs + order[..i], e);
      WarningKeepsError(target.meta, e);
      CopyOne(target, e);
      assert vs + order[..i] + [order[i]] == vs + order[..i + 1];
      i := i + 1;
    }
    SourceSlot(sourceWarnings, ws, i);
    SlotOrderLength(ws);
    assert order[..i] == order;
  }

  lemma SlotOrderLength<T>(ws: seq<T>)
    ensures |SlotOrder(ws)| == if |ws| < 100 then |ws| else 100
  {
  }

  /** Up to a hundred warnings are copied in their order in time; after an overflow the newest ones,
      from the last wrap-around on, come first. */
  lemma SlotOrderInTime<T>(ws: seq<T>)
    ensures |ws| <= 100 ==> SlotOrder(ws) == ws
    ensures |ws| > 100 ==> SlotOrder(ws) == ws[|ws| - |ws| % 100..] + ws[|ws| - 100..|ws| - |ws| % 100]
  {
    var n, o := |ws|, SlotOrder(ws);
    if n <= 100 {
      forall i | 0 <= i < n ensures o[i] == ws[i] { assert LatestFor(n, i) == i; }
    } else {
      var c := n % 100;
      var r := ws[n - c..] + ws[n - 100..n - c];
      forall i | 0 <= i < 100 ensures o[i] == r[i] { LatestInRing(n, i); }
    }
  }

  lemma LatestInRing(n: nat, i: nat)
    requires n > 100 && i < 100
    ensures LatestFor(n, i) == if i < n % 100 then n - n % 100 + i else n - n % 100 - 100 + i
  {
    var q, c := n / 100, n % 100;
    assert n == 100 * q + c;
    if i < c {
      assert n - 1 - i == 100 * q + (c - 1 - i);
    } else {
      assert n - 1 - i == 100 * (q - 1) + (99 + c - i);
    }
  }
}
