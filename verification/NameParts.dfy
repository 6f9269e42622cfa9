/** Splitting a key name into parts, and the escape sequences inside one part. */
module NameParts {
  import opened Wrappers
  import opened ArrayParts

  // ----- content: characters other than slash and backslash, and escape sequences

  /** Made of whole units, none of them a bare slash. */
  predicate Complete(p: string) {
    p == [] ||
    (if p[0] == '\\' then |p| >= 2 && Complete(p[2..]) else p[0] != '/' && Complete(p[1..]))
  }

  /** The longest such start of a string. */
  function Content(s: string): (p: string)
    ensures p <= s
  {
    if s == [] || s[0] == '/' then []
    else if s[0] == '\\' then (if |s| >= 2 then s[..2] + Content(s[2..]) else [])
    else [s[0]] + Content(s[1..])
  }

  lemma {:induction false} ContentComplete(s: string)
    ensures Complete(Content(s))
  {
    if s != [] && s[0] != '/' {
      if s[0] == '\\' {
        if |s| >= 2 {
          ContentComplete(s[2..]);
          assert Content(s)[2..] == Content(s[2..]);
        }
      } else {
        ContentComplete(s[1..]);
        assert Content(s)[1..] == Content(s[1..]);
      }
    }
  }

  /** Content stops at the next slash. */
  lemma {:induction false} ContentStops(p: string, r: string)
    requires Complete(p) && (r == [] || r[0] == '/')
    ensures Content(p + r) == p
  {
    if p == [] {
      assert p + r == r;
    } else if p[0] == '\\' {
      assert (p + r)[2..] == p[2..] + r && (p + r)[..2] == p[..2];
      ContentStops(p[2..], r);
    } else {
      assert (p + r)[1..] == p[1..] + r;
      ContentStops(p[1..], r);
    }
  }

  function DropSlashes(s: string): (r: string)
    ensures |r| <= |s|
    ensures r == [] || r[0] != '/'
  {
    if s != [] && s[0] == '/' then DropSlashes(s[1..]) else s
  }

  /** All matches of slashes followed by content, from left to right. */
  function Parts(s: string): seq<string>
    decreases |s|
  {
    if s == [] then []
    else if s[0] != '/' then Parts(s[1..])
    else
      var t := DropSlashes(s[1..]);
      var p := Content(t);
      [p] + Parts(t[|p|..])
  }

  predicate AllComplete(ps: seq<string>) {
    forall i | 0 <= i < |ps| :: Complete(ps[i])
  }

  lemma {:induction false} PartsComplete(s: string)
    ensures AllComplete(Parts(s))
    decreases |s|
  {
    if s != [] {
      if s[0] != '/' {
        PartsComplete(s[1..]);
      } else {
        var t := DropSlashes(s[1..]);
        ContentComplete(t);
        PartsComplete(t[|Content(t)|..]);
      }
    }
  }

  /** Only the last part can be empty. */
  lemma {:induction false} PartsNonempty(s: string, i: nat)
    requires i + 1 < |Parts(s)|
    ensures Parts(s)[i] != []
    decreases |s|
  {
    if s[0] != '/' {
      PartsNonempty(s[1..], i);
    } else {
      var t := DropSlashes(s[1..]);
      var p := Content(t);
      if i == 0 {
        if p == [] {
          assert t == [] || t == ['\\'];
          LonelyBackslash(t);
        }
      } else {
        PartsNonempty(t[|p|..], i - 1);
      }
    }
  }

  lemma LonelyBackslash(t: string)
    requires t == [] || t == ['\\']
    ensures Parts(t[0..]) == []
  {
    if t == ['\\'] { assert Parts(t[1..]) == []; }
  }

  /** Parts are made of characters of the name. */
  lemma {:induction false} PartsChars(s: string, c: char)
    requires c !in s
    ensures forall i | 0 <= i < |Parts(s)| :: c !in Parts(s)[i]
    decreases |s|
  {
    if s != [] {
      if s[0] != '/' {
        PartsChars(s[1..], c);
      } else {
        SuffixChars(s[1..], c);
        var t := DropSlashes(s[1..]);
        var p := Content(t);
        assert c !in p && c !in t[|p|..];
        PartsChars(t[|p|..], c);
      }
    }
  }

  lemma {:induction false} SuffixChars(s: string, c: char)
    requires c !in s
    ensures c !in DropSlashes(s)
  {
    if s != [] && s[0] == '/' { SuffixChars(s[1..], c); }
  }

  // ----- joining

  /** Each part with a slash before it. */
  function Slashed(ps: seq<string>): string {
    if ps == [] then [] else ['/'] + ps[0] + Slashed(ps[1..])
  }

  /** Printing and splitting are inverse on complete, non-empty parts. */
  lemma {:induction false} PartsOfSlashed(ps: seq<string>)
    requires AllComplete(ps) && forall i | 0 <= i < |ps| :: ps[i] != []
    ensures Parts(Slashed(ps)) == ps
  {
    if ps != [] {
      var p, r := ps[0], Slashed(ps[1..]);
      var s := Slashed(ps);
      assert Complete(p) && p[0] != '/';
      assert s[1..] == p + r;
      assert DropSlashes(p + r) == p + r;
      assert r == [] || r[0] == '/';
      ContentStops(p, r);
      assert (p + r)[|p|..] == r;
      PartsOfSlashed(ps[1..]);
      assert ps == [p] + ps[1..];
    }
  }

  lemma {:induction false} PartsSkip(prefix: string, s: string)
    requires '/' !in prefix
    ensures Parts(prefix + s) == Parts(s)
  {
    if prefix == [] {
      assert prefix + s == s;
    } else {
      assert (prefix + s)[1..] == prefix[1..] + s;
      PartsSkip(prefix[1..], s);
    }
  }

  // ----- dangling escapes

  function TrailingBackslashes(s: string): nat {
    if s != [] && s[|s| - 1] == '\\' then 1 + TrailingBackslashes(s[..|s| - 1]) else 0
  }

  lemma {:induction false} CompleteEndsEven(q: string, p: string)
    requires Complete(p) && TrailingBackslashes(q) % 2 == 0
    ensures TrailingBackslashes(q + p) % 2 == 0
    decreases |p|
  {
    if p == [] {
      assert q + p == q;
    } else if p[0] == '\\' {
      PairEndsEven(q, p[1]);
      CompleteEndsEven(q + ['\\', p[1]], p[2..]);
      assert q + p == q + ['\\', p[1]] + p[2..];
    } else {
      CompleteEndsEven(q + [p[0]], p[1..]);
      assert q + p == q + [p[0]] + p[1..];
    }
  }

  lemma PairEndsEven(q: string, x: char)
    requires TrailingBackslashes(q) % 2 == 0
    ensures TrailingBackslashes(q + ['\\', x]) % 2 == 0
  {
    var a, b := q + ['\\'], q + ['\\', x];
    assert b[..|b| - 1] == a && a[..|a| - 1] == q;
  }

  lemma {:induction false} SlashedEndsEven(q: string, ps: seq<string>)
    requires AllComplete(ps) && TrailingBackslashes(q) % 2 == 0
    ensures TrailingBackslashes(q + Slashed(ps)) % 2 == 0
    decreases |ps|
  {
    if ps == [] {
      assert q + Slashed(ps) == q;
    } else {
      var q1, p, r := q + ['/'], ps[0], Slashed(ps[1..]);
      assert TrailingBackslashes(q1) == 0;
      CompleteEndsEven(q1, p);
      SlashedEndsEven(q1 + p, ps[1..]);
      assert q + (['/'] + p + r) == (q1 + p) + r;
    }
  }

  // ----- escape sequences

  /** The escaped characters, in order. */
  function Escapes(p: string): seq<char> {
    if |p| < 2 then []
    else if p[0] == '\\' then [p[1]] + Escapes(p[2..])
    else Escapes(p[1..])
  }

  /** `\#`, a digit that is not zero, and one to eighteen more digits, up to the largest index. */
  predicate EscapedArray(p: string) {
    |p| >= 4 && p[0] == '\\' && p[1] == '#' && IndexDigits(p[2..])
  }

  predicate IndexDigits(d: string) {
    2 <= |d| <= 19 && AllDigits(d) && d[0] != '0' && (|d| < 19 || !StrLess(Decimal(MAX_INDEX), d))
  }

  predicate EscapeValid(p: string, c: char) {
    c == '/' || c == '\\' ||
    (c == '.' && (p == "\\." || p == "\\..")) ||
    (c == '#' && EscapedArray(p)) ||
    (c == '%' && p == "\\%")
  }

  predicate EscapesValid(p: string) {
    forall c | c in Escapes(p) :: EscapeValid(p, c)
  }

  /** Remove the backslash of every escape sequence. */
  function Strip(p: string): string {
    if p == [] then []
    else if p[0] == '\\' && |p| >= 2 then [p[1]] + Strip(p[2..])
    else [p[0]] + Strip(p[1..])
  }

  function UnescapePart(p: string): string {
    if p == "%" then "" else Strip(p)
  }

  /** Escape what must be escaped everywhere. */
  function EscapeChars(u: string): string {
    if u == [] then []
    else if u[0] == '/' || u[0] == '\\' then ['\\', u[0]] + EscapeChars(u[1..])
    else [u[0]] + EscapeChars(u[1..])
  }

  /** The canonical spelling of an unescaped part. */
  function EscapePart(u: string): string {
    if u == "" then "%"
    else if u == "." || u == ".." || u == "%" || (u[0] == '#' && IndexDigits(u[1..])) then "\\" + u
    else EscapeChars(u)
  }

  /** Valid array parts get all their underscores; other parts stay. */
  function CanonicalPart(p: string): string
    requires p != []
  {
    if p[0] == '#' && CheckArrayPart(p).Some? then ArrayPart(CheckArrayPart(p).value) else p
  }

  /** The parts that a canonical name is made of. */
  predicate IsCanonicalPart(p: string) {
    p != [] && Complete(p) && p != "." && p != ".." && EscapesValid(p) && CanonicalPart(p) == p
  }

  // ----- escaping is the inverse of unescaping

  predicate OnlyPlainEscapes(p: string) {
    forall c | c in Escapes(p) :: c == '/' || c == '\\'
  }

  lemma {:induction false} EscapeStrip(p: string)
    requires Complete(p) && OnlyPlainEscapes(p)
    ensures EscapeChars(Strip(p)) == p
  {
    if p != [] {
      if p[0] == '\\' {
        assert Escapes(p) == [p[1]] + Escapes(p[2..]);
        assert p[1] in Escapes(p);
        assert forall c | c in Escapes(p[2..]) :: c in Escapes(p);
        EscapeStrip(p[2..]);
        assert Strip(p) == [p[1]] + Strip(p[2..]);
        assert p == p[..2] + p[2..];
      } else {
        assert |p| >= 2 ==> Escapes(p) == Escapes(p[1..]);
        EscapeStrip(p[1..]);
        assert Strip(p) == [p[0]] + Strip(p[1..]);
        assert p == [p[0]] + p[1..];
      }
    }
  }

  lemma {:induction false} EscapeCharsPlain(u: string)
    requires '/' !in u && '\\' !in u
    ensures EscapeChars(u) == u
  {
    if u != [] {
      EscapeCharsPlain(u[1..]);
      assert u == [u[0]] + u[1..];
    }
  }

  /** An escape of `.`, `#` or `%` fixes the whole part. */
  lemma SpecialEscape(p: string, c: char)
    requires Complete(p) && c in Escapes(p) && EscapeValid(p, c) && c != '/' && c != '\\'
    ensures p == "\\." || p == "\\.." || p == "\\%" || EscapedArray(p)
  {
  }

  lemma StripBackslash(p: string)
    requires |p| >= 2 && p[0] == '\\' && '\\' !in p[1..]
    ensures Strip(p) == p[1..]
  {
    StripPlain(p[2..]);
    assert p[1..] == [p[1]] + p[2..];
  }

  lemma {:induction false} StripPlain(p: string)
    requires '\\' !in p
    ensures Strip(p) == p
  {
    if p != [] {
      StripPlain(p[1..]);
      assert p == [p[0]] + p[1..];
    }
  }

  lemma DigitsHaveNoBackslash(d: string)
    requires AllDigits(d)
    ensures '\\' !in d && '/' !in d
  {
  }

  /** An index that could have been an array part is one: unescaped it is not canonical. */
  lemma IndexIsNotCanonical(u: string)
    requires |u| > 0 && u[0] == '#' && IndexDigits(u[1..])
    ensures CanonicalPart(u) != u
  {
    hide StrLess, Decimal;
    var d := u[1..];
    assert LeadingUnderscores(d) == 0 && u[0 + 1..] == d;
    assert CheckArrayPart(u) == Some(d);
    assert |ArrayPart(d)| == 1 + (|d| - 1) + |d|;
  }

  /** Escaping undoes unescaping on every canonical part. */
  lemma EscapeInvertsUnescape(p: string)
    requires IsCanonicalPart(p)
    ensures EscapePart(UnescapePart(p)) == p
  {
    hide StrLess, Decimal, CheckArrayPart, ArrayPart;
    if p == "%" {
    } else if exists c :: c in Escapes(p) && c != '/' && c != '\\' {
      var c :| c in Escapes(p) && c != '/' && c != '\\';
      SpecialEscape(p, c);
      SpecialInverse(p);
    } else {
      EscapeStrip(p);
      PlainInverse(p);
    }
  }

  lemma SpecialInverse(p: string)
    requires p == "\\." || p == "\\.." || p == "\\%" || EscapedArray(p)
    ensures EscapePart(UnescapePart(p)) == p
  {
    hide StrLess, Decimal, CheckArrayPart, ArrayPart;
    if EscapedArray(p) {
      DigitsHaveNoBackslash(p[2..]);
      assert p[1..] == ['#'] + p[2..];
      StripBackslash(p);
      assert p[1..][1..] == p[2..];
    } else {
      StripBackslash(p);
    }
    assert p == "\\" + p[1..];
  }

  lemma PlainInverse(p: string)
    requires IsCanonicalPart(p) && p != "%" && OnlyPlainEscapes(p)
    requires EscapeChars(Strip(p)) == p
    ensures EscapePart(UnescapePart(p)) == p
  {
    hide StrLess, Decimal, CheckArrayPart, ArrayPart;
    var u := Strip(p);
    if u == "." || u == ".." || u == "%" {
      EscapeCharsPlain(u);
    } else if u != "" && u[0] == '#' && IndexDigits(u[1..]) {
      DigitsHaveNoBackslash(u[1..]);
      assert u == ['#'] + u[1..];
      EscapeCharsPlain(u);
      IndexIsNotCanonical(u);
    }
  }

  /** The canonical part of a valid part is canonical. */
  lemma CanonicalPartCanonical(p: string)
    requires p != [] && Complete(p) && p != "." && p != ".." && EscapesValid(p)
    ensures IsCanonicalPart(CanonicalPart(p))
  {
    hide StrLess, Decimal;
    if p[0] == '#' && CheckArrayPart(p).Some? {
      var d := CheckArrayPart(p).value;
      ArrayPartStable(p);
      ArrayPartShape(d, if d == [] then 0 else |d| - 1);
      var q := ArrayPart(d);
      assert '\\' !in q && '/' !in q by { DigitsHaveNoBackslash(d); }
      PlainIsComplete(q);
    }
  }

  lemma {:induction false} PlainIsComplete(q: string)
    requires '\\' !in q && '/' !in q
    ensures Complete(q) && Escapes(q) == []
  {
    if q != [] { PlainIsComplete(q[1..]); }
  }

  // ----- every unescaped part has a canonical spelling

  lemma {:induction false} EscapeCharsFacts(u: string)
    ensures Complete(EscapeChars(u)) && OnlyPlainEscapes(EscapeChars(u)) && Strip(EscapeChars(u)) == u
  {
    if u != [] {
      EscapeCharsFacts(u[1..]);
      var r := EscapeChars(u[1..]);
      var e := EscapeChars(u);
      assert u == [u[0]] + u[1..];
      if u[0] == '/' || u[0] == '\\' {
        assert e == ['\\', u[0]] + r && e[2..] == r && e[1] == u[0];
        assert Escapes(e) == [u[0]] + Escapes(r);
      } else {
        assert e == [u[0]] + r && e[1..] == r;
        assert |e| >= 2 ==> Escapes(e) == Escapes(r);
      }
    }
  }

  /** An array part without canonical underscores is an index that EscapePart escapes. */
  lemma ArrayPartOrIndex(u: string)
    requires u != [] && u[0] == '#' && CheckArrayPart(u).Some? && !IndexDigits(u[1..])
    ensures CanonicalPart(u) == u
  {
    hide StrLess, Decimal;
    var k := LeadingUnderscores(u[1..]);
    var d := CheckArrayPart(u).value;
    assert d == u[k + 1..];
    SplitAfterUnderscores(u);
    if k == 0 { assert u[1..] == d && |d| <= 1; }
    assert k == if d == [] then 0 else |d| - 1;
  }

  lemma SplitAfterUnderscores(u: string)
    requires u != [] && u[0] == '#'
    ensures var k := LeadingUnderscores(u[1..]); u == "#" + Underscores(k) + u[k + 1..]
  {
    var k := LeadingUnderscores(u[1..]);
    UnderscorePrefix(u[1..]);
    assert u == [u[0]] + u[1..][..k] + u[k + 1..];
  }

  lemma {:induction false} UnderscorePrefix(s: string)
    ensures s[..LeadingUnderscores(s)] == Underscores(LeadingUnderscores(s))
  {
    if s != [] && s[0] == '_' {
      UnderscorePrefix(s[1..]);
      var k := LeadingUnderscores(s[1..]);
      assert s[..k + 1] == [s[0]] + s[1..][..k];
      assert Underscores(k + 1) == ['_'] + Underscores(k);
    }
  }

  lemma EscapeCharsCanonical(u: string)
    requires u != "" && u != "." && u != ".." && u != "%" && !(u[0] == '#' && IndexDigits(u[1..]))
    ensures IsCanonicalPart(EscapeChars(u)) && EscapeChars(u) != "%"
  {
    hide StrLess, Decimal;
    var e := EscapeChars(u);
    EscapeCharsFacts(u);
    assert Strip(".") == "." && Strip("..") == ".." && Strip("%") == "%" by {
      StripPlain(".");
      StripPlain("..");
      StripPlain("%");
    }
    if e[0] == '#' && CheckArrayPart(e).Some? {
      ArrayIsPlain(e);
      StripPlain(e);
      ArrayPartOrIndex(e);
    }
  }

  lemma ArrayIsPlain(e: string)
    requires e != [] && e[0] == '#' && CheckArrayPart(e).Some?
    ensures '\\' !in e
  {
    hide StrLess, Decimal;
    var k := LeadingUnderscores(e[1..]);
    UnderscorePrefix(e[1..]);
    assert e == "#" + e[1..][..k] + e[k + 1..];
    DigitsHaveNoBackslash(e[k + 1..]);
  }

  lemma SpecialCanonical(u: string)
    requires u == "." || u == ".." || u == "%" || (u != "" && u[0] == '#' && IndexDigits(u[1..]))
    ensures IsCanonicalPart("\\" + u) && UnescapePart("\\" + u) == u
  {
    hide StrLess, Decimal, CheckArrayPart;
    var p := "\\" + u;
    assert p[1..] == u && p[2..] == u[1..];
    if u[0] == '#' { DigitsHaveNoBackslash(u[1..]); }
    assert '\\' !in u[1..] && '/' !in u[1..];
    PlainIsComplete(u[1..]);
    assert Escapes(p) == [u[0]];
    assert '\\' !in u by { assert u == [u[0]] + u[1..]; }
    StripBackslash(p);
  }

  /** Unescaping undoes escaping, and the escaped part is canonical. */
  lemma UnescapeInvertsEscape(u: string)
    ensures IsCanonicalPart(EscapePart(u)) && UnescapePart(EscapePart(u)) == u
  {
    hide StrLess, Decimal, IsCanonicalPart;
    if u == "" {
      PercentCanonical();
    } else if u == "." || u == ".." || u == "%" || (u[0] == '#' && IndexDigits(u[1..])) {
      SpecialCanonical(u);
    } else {
      EscapeCharsCanonical(u);
      EscapeCharsFacts(u);
    }
  }

  lemma PercentCanonical()
    ensures IsCanonicalPart("%")
  {
    PlainIsComplete("%");
  }
}
