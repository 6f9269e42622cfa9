/** The key name reference implementation: canonicalisation and unescaping of key names without a
    prefix. */
module CanonicalNames {
  import opened Wrappers
  import opened NameParts

  const NAMESPACES: set<string> := {"meta", "spec", "proc", "dir", "user", "system", "default"}

  /** Python's str.find. */
  function Find(s: string, c: char): (i: int)
    ensures -1 <= i < |s|
  {
    if s == [] then -1
    else if s[0] == c then 0
    else
      var i := Find(s[1..], c);
      if i < 0 then -1 else i + 1
  }

  /** Namespace (None for cascading) and the rest of the name, from its first slash on. */
  datatype Located = Located(ns: Option<string>, path: string)

  function Locate(name: string): Option<Located> {
    var colon, slash := Find(name, ':'), Find(name, '/');
    if slash < colon && slash != 0 then None
    else if colon > 0 && name[..colon] !in NAMESPACES then None
    else
      var l := if colon > 0 then Located(Some(name[..colon]), name[colon + 1..]) else Located(None, name);
      if l.path == [] || l.path[0] != '/' then None else Some(l)
  }

  /** What one part does to the parts collected so far. */
  function Step(stack: seq<string>, p: string): seq<string>
    requires p != []
  {
    if p == "." then stack
    else if p == ".." then (if stack == [] then stack else stack[..|stack| - 1])
    else stack + [CanonicalPart(p)]
  }

  predicate Processable(ps: seq<string>) {
    AllComplete(ps) && forall i | 0 <= i < |ps| - 1 :: ps[i] != []
  }

  /** All parts, from left to right; an empty last part is dropped, an invalid escape fails. */
  function Collect(stack: seq<string>, ps: seq<string>): Option<seq<string>>
    requires Processable(ps)
    decreases |ps|
  {
    if ps == [] || ps[0] == [] then Some(stack)
    else if !EscapesValid(ps[0]) then None
    else Collect(Step(stack, ps[0]), ps[1..])
  }

  function Joined(ps: seq<string>): string {
    if ps == [] then "/" else Slashed(ps)
  }

  function Render(ns: Option<string>, ps: seq<string>): string {
    if ns.Some? then ns.value + ":" + Joined(ps) else Joined(ps)
  }

  lemma PartsProcessable(path: string)
    ensures Processable(Parts(path))
  {
    PartsComplete(path);
    forall i | 0 <= i < |Parts(path)| - 1 ensures Parts(path)[i] != [] { PartsNonempty(path, i); }
  }

  /** The canonical name, or None where canonicalize raises. */
  function Canonicalize(name: string): Option<string> {
    if name == [] then None
    else
      var located := Locate(name);
      if located.None? then None
      else
        var Located(ns, path) := located.value;
        if path == "/%" || TrailingBackslashes(path) % 2 != 0 then None
        else
          PartsProcessable(path);
          var collected := Collect([], Parts(path));
          if collected.None? then None else Some(Render(ns, collected.value))
  }

  /** canonicalize: the loop over the parts with its list of collected parts. */
  method CanonicalizeName(name: string) returns (r: Option<string>)
    ensures r == Canonicalize(name)
  {
    if |name| == 0 {
      return None;
    }
    var located := Locate(name);
    if located.None? {
      return None;
    }
    var path := located.value.path;
    if path == "/%" {
      return None;
    }
    if TrailingBackslashes(path) % 2 != 0 {
      return None;
    }
    PartsProcessable(path);
    var parts := Parts(path);
    var keyParts: seq<string> := [];
    var index := 0;
    while index < |parts|
      invariant 0 <= index <= |parts|
      invariant Processable(parts[index..])
      invariant Collect(keyParts, parts[index..]) == Collect([], parts)
    {
      var part := parts[index];
      assert parts[index..][0] == part && parts[index..][1..] == parts[index + 1..];
      if index == |parts| - 1 && |part| == 0 {
        break;
      }
      if !EscapesValid(part) {
        return None;
      }
      if part == "." {
      } else if part == ".." {
        if |keyParts| != 0 {
          keyParts := keyParts[..|keyParts| - 1];
        }
      } else {
        keyParts := keyParts + [CanonicalPart(part)];
      }
      index := index + 1;
    }
    return Some(Render(located.value.ns, keyParts));
  }

  // ----- what is collected is canonical

  predicate AllCanonical(ps: seq<string>) {
    forall i | 0 <= i < |ps| :: IsCanonicalPart(ps[i])
  }

  lemma {:induction false} CollectCanonical(stack: seq<string>, ps: seq<string>)
    requires Processable(ps) && AllCanonical(stack) && Collect(stack, ps).Some?
    ensures AllCanonical(Collect(stack, ps).value)
    decreases |ps|
  {
    hide IsCanonicalPart, CanonicalPart, EscapesValid;
    if ps != [] && ps[0] != [] {
      StepCanonical(stack, ps[0]);
      CollectCanonical(Step(stack, ps[0]), ps[1..]);
    }
  }

  lemma StepCanonical(stack: seq<string>, p: string)
    requires AllCanonical(stack) && p != [] && Complete(p) && EscapesValid(p)
    ensures AllCanonical(Step(stack, p))
  {
    hide IsCanonicalPart, CanonicalPart, EscapesValid, Complete;
    if p != "." && p != ".." { CanonicalPartCanonical(p); }
  }

  /** Canonical parts are collected as they are. */
  lemma {:induction false} CollectKeeps(stack: seq<string>, ps: seq<string>)
    requires AllCanonical(ps)
    ensures Processable(ps) && Collect(stack, ps) == Some(stack + ps)
    decreases |ps|
  {
    if ps == [] {
      assert stack + ps == stack;
    } else {
      var p := ps[0];
      assert IsCanonicalPart(p);
      CollectKeeps(stack + [p], ps[1..]);
      assert stack + [p] + ps[1..] == stack + ps;
      assert Step(stack, p) == stack + [p];
    }
  }

  // ----- canonical names

  /** A name as canonicalize builds it. */
  predicate Built(ns: Option<string>, ps: seq<string>) {
    AllCanonical(ps) && (ns.Some? ==> ns.value in NAMESPACES) && (ns.None? ==> ':' !in Joined(ps))
  }

  lemma {:induction false} FindFirst(s: string, c: char, i: nat)
    requires i < |s| && s[i] == c && c !in s[..i]
    ensures Find(s, c) == i
  {
    if i > 0 {
      assert s[0] in s[..i];
      assert s[1..][..i - 1] == s[..i][1..];
      FindFirst(s[1..], c, i - 1);
    }
  }

  lemma {:induction false} FindNothing(s: string, c: char)
    ensures Find(s, c) < 0 <==> c !in s
  {
    if s != [] {
      FindNothing(s[1..], c);
      assert s == [s[0]] + s[1..];
    }
  }

  lemma NamespacesArePlain(ns: string)
    requires ns in NAMESPACES
    ensures ns != [] && ':' !in ns && '/' !in ns
  {
  }

  lemma JoinedStart(ps: seq<string>)
    ensures Joined(ps) != [] && Joined(ps)[0] == '/'
  {
  }

  lemma LocateRendered(ns: Option<string>, ps: seq<string>)
    requires Built(ns, ps)
    ensures Locate(Render(ns, ps)) == Some(Located(ns, Joined(ps)))
  {
    hide AllCanonical, Joined;
    JoinedStart(ps);
    var name := Render(ns, ps);
    if ns.Some? {
      var n := |ns.value|;
      NamespacesArePlain(ns.value);
      assert name[..n] == ns.value && name[n] == ':' && name[n + 1..] == Joined(ps);
      FindFirst(name, ':', n);
      assert name[..n + 1] == ns.value + ":" && name[n + 1] == '/';
      FindFirst(name, '/', n + 1);
    } else {
      FindNothing(name, ':');
      FindFirst(name, '/', 0);
    }
  }

  lemma JoinedParts(ps: seq<string>)
    requires AllCanonical(ps)
    ensures Parts(Joined(ps)) == if ps == [] then [""] else ps
  {
    if ps == [] {
      assert Parts("/"[1..]) == [];
    } else {
      assert forall i | 0 <= i < |ps| :: IsCanonicalPart(ps[i]);
      PartsOfSlashed(ps);
    }
  }

  lemma JoinedEven(ps: seq<string>)
    requires AllCanonical(ps)
    ensures TrailingBackslashes(Joined(ps)) % 2 == 0
  {
    if ps != [] {
      assert forall i | 0 <= i < |ps| :: IsCanonicalPart(ps[i]);
      SlashedEndsEven([], ps);
      assert [] + Slashed(ps) == Slashed(ps);
    }
  }

  lemma BarePercent(ps: seq<string>)
    requires AllCanonical(ps)
    ensures Joined(ps) == "/%" <==> ps == ["%"]
  {
    hide AllCanonical;
    JoinedParts(ps);
    PercentName();
  }

  lemma PercentName()
    ensures Joined(["%"]) == "/%" && AllCanonical(["%"]) && Parts("/%") == ["%"]
  {
    PercentCanonical();
    JoinedParts(["%"]);
    assert ["%"][1..] == [];
  }

  /** A built name is accepted and left as it is, unless its only part is the empty one. */
  lemma BuiltIsFixed(ns: Option<string>, ps: seq<string>)
    requires Built(ns, ps)
    ensures Canonicalize(Render(ns, ps)) == if ps == ["%"] then None else Some(Render(ns, ps))
  {
    hide AllCanonical, Joined, Parts, Collect, TrailingBackslashes;
    LocateRendered(ns, ps);
    JoinedStart(ps);
    JoinedParts(ps);
    JoinedEven(ps);
    BarePercent(ps);
    if ps == [] {
      CollectEmptyPart();
    } else {
      CollectKeeps([], ps);
      assert [] + ps == ps;
    }
  }

  lemma CollectEmptyPart()
    ensures Processable([""]) && Collect([], [""]) == Some([])
  {
  }

  /** Whatever canonicalize returns is built of canonical parts. */
  lemma ResultIsBuilt(name: string) returns (ns: Option<string>, ps: seq<string>)
    requires Canonicalize(name).Some?
    ensures Built(ns, ps) && Canonicalize(name) == Some(Render(ns, ps))
  {
    hide IsCanonicalPart;
    var located := Locate(name).value;
    ns := located.ns;
    PartsProcessable(located.path);
    ps := Collect([], Parts(located.path)).value;
    CollectCanonical([], Parts(located.path));
    if ns.None? {
      FindNothing(name, ':');
      PartsChars(name, ':');
      CollectChars([], Parts(name));
      JoinedChars(ps);
    }
  }

  predicate NoColon(ps: seq<string>) {
    forall i | 0 <= i < |ps| :: ':' !in ps[i]
  }

  lemma CanonicalPartChars(p: string)
    requires p != [] && ':' !in p
    ensures ':' !in CanonicalPart(p)
  {
    hide ArrayParts.StrLess, ArrayParts.Decimal;
  }

  lemma {:induction false} CollectChars(stack: seq<string>, ps: seq<string>)
    requires Processable(ps) && NoColon(stack) && NoColon(ps) && Collect(stack, ps).Some?
    ensures NoColon(Collect(stack, ps).value)
    decreases |ps|
  {
    hide CanonicalPart, EscapesValid;
    if ps != [] && ps[0] != [] {
      CanonicalPartChars(ps[0]);
      CollectChars(Step(stack, ps[0]), ps[1..]);
    }
  }

  lemma {:induction false} SlashedChars(ps: seq<string>)
    requires NoColon(ps)
    ensures ':' !in Slashed(ps)
  {
    if ps != [] { SlashedChars(ps[1..]); }
  }

  lemma JoinedChars(ps: seq<string>)
    requires NoColon(ps)
    ensures ':' !in Joined(ps)
  {
    SlashedChars(ps);
  }

  /** Only the bare `%` name is lost by a second pass; every other result is a fixed point. */
  lemma CanonicalizeIdempotent(name: string)
    requires Canonicalize(name).Some?
    ensures var c := Canonicalize(name).value;
            Locate(c).Some? &&
            Canonicalize(c) == if Locate(c).value.path == "/%" then None else Some(c)
  {
    var ns, ps := ResultIsBuilt(name);
    BuiltIsFixed(ns, ps);
    LocateRendered(ns, ps);
    BarePercent(ps);
  }

  /** A bare `%` does come out: it is what remains of `/./%`, and a second pass rejects it. */
  lemma BarePercentExample(name: string, bare: string)
    requires name == "/./%" && bare == "/%"
    ensures Canonicalize(name) == Some(bare) && Canonicalize(bare) == None
  {
    hide Joined, Parts, Locate, Collect, TrailingBackslashes;
    PercentName();
    BuiltIsFixed(None, ["%"]);
    DotParts();
    DotCollected();
    DotLocated(name);
  }

  lemma DotParts()
    ensures Parts("/./%") == [".", "%"]
  {
    var ps := [".", "%"];
    PlainIsComplete(".");
    PlainIsComplete("%");
    PartsOfSlashed(ps);
    assert ps[1..] == ["%"] && ["%"][1..] == [];
    assert Slashed(["%"]) == "/%";
  }

  lemma CollectDot(stack: seq<string>, ps: seq<string>)
    requires Processable(ps) && ps != [] && ps[0] == "."
    ensures Processable(ps[1..]) && Collect(stack, ps) == Collect(stack, ps[1..])
  {
    PlainIsComplete(".");
    assert EscapesValid(ps[0]) && Step(stack, ps[0]) == stack;
  }

  lemma DotCollected()
    ensures Processable([".", "%"]) && Collect([], [".", "%"]) == Some(["%"])
  {
    hide IsCanonicalPart, CanonicalPart;
    var ps := [".", "%"];
    PlainIsComplete(".");
    PlainIsComplete("%");
    assert ps[1..] == ["%"];
    PercentCanonical();
    CollectKeeps([], ["%"]);
    assert [] + ["%"] == ["%"];
    CollectDot([], ps);
  }

  lemma DotLocated(s: string)
    requires s == "/./%"
    ensures Locate(s) == Some(Located(None, s)) && TrailingBackslashes(s) == 0
  {
    NoTrailing(s);
    FindNothing(s, ':');
    FindFirst(s, '/', 0);
  }

  lemma NoTrailing(s: string)
    requires s != [] && s[|s| - 1] != '\\'
    ensures TrailingBackslashes(s) == 0
  {
  }

  // ----- unescape

  datatype Unescaped = Unescaped(ns: Option<string>, parts: seq<string>)

  function UnescapeParts(ps: seq<string>): (us: seq<string>)
    ensures |us| == |ps| && forall i | 0 <= i < |ps| :: us[i] == UnescapePart(ps[i])
  {
    seq(|ps|, i requires 0 <= i < |ps| => UnescapePart(ps[i]))
  }

  function Unescape(canonical: string): Unescaped {
    var colon := Find(canonical, ':');
    Unescaped(if colon > 0 then Some(canonical[..colon]) else None, UnescapeParts(Parts(canonical)))
  }

  lemma UnescapeRendered(ns: Option<string>, ps: seq<string>)
    requires Built(ns, ps)
    ensures Unescape(Render(ns, ps)) == Unescaped(ns, UnescapeParts(if ps == [] then [""] else ps))
  {
    hide AllCanonical, Joined, UnescapePart;
    JoinedStart(ps);
    JoinedParts(ps);
    var name := Render(ns, ps);
    if ns.Some? {
      var n := |ns.value|;
      NamespacesArePlain(ns.value);
      assert name[..n] == ns.value && name[n] == ':';
      FindFirst(name, ':', n);
      PartsSkip(ns.value + ":", Joined(ps));
    } else {
      FindNothing(name, ':');
    }
  }

  lemma UnescapePartsInjective(ps: seq<string>, qs: seq<string>)
    requires AllCanonical(ps) && AllCanonical(qs) && UnescapeParts(ps) == UnescapeParts(qs)
    ensures ps == qs
  {
    hide IsCanonicalPart, UnescapePart, EscapePart;
    assert |ps| == |qs|;
    forall i | 0 <= i < |ps| ensures ps[i] == qs[i] {
      assert UnescapeParts(ps)[i] == UnescapeParts(qs)[i];
      EscapeInvertsUnescape(ps[i]);
      EscapeInvertsUnescape(qs[i]);
    }
  }

  lemma EmptyUnescaped(ps: seq<string>)
    requires AllCanonical(ps) && ps != ["%"]
    ensures UnescapeParts(ps) != [""]
  {
    hide IsCanonicalPart, UnescapePart, EscapePart;
    if UnescapeParts(ps) == [""] {
      EscapeInvertsUnescape(ps[0]);
      EscapeEmpty();
    }
  }

  lemma EscapeEmpty()
    ensures EscapePart("") == "%"
  {
  }

  /** Canonical names with equal namespaces and equal unescaped parts are equal, the bare `%` aside. */
  lemma UnescapeInjective(name1: string, name2: string)
    requires Canonicalize(name1).Some? && Canonicalize(name2).Some?
    requires Canonicalize(Canonicalize(name1).value).Some? && Canonicalize(Canonicalize(name2).value).Some?
    ensures Unescape(Canonicalize(name1).value) == Unescape(Canonicalize(name2).value)
            <==> Canonicalize(name1) == Canonicalize(name2)
  {
    hide IsCanonicalPart, UnescapeParts, Canonicalize, Unescape, Joined;
    var ns1, ps1 := ResultIsBuilt(name1);
    var ns2, ps2 := ResultIsBuilt(name2);
    BuiltIsFixed(ns1, ps1);
    BuiltIsFixed(ns2, ps2);
    UnescapeRendered(ns1, ps1);
    UnescapeRendered(ns2, ps2);
    if Unescape(Canonicalize(name1).value) == Unescape(Canonicalize(name2).value) {
      RootUnescaped();
      if ps1 == [] && ps2 != [] {
        EmptyUnescaped(ps2);
      } else if ps2 == [] && ps1 != [] {
        EmptyUnescaped(ps1);
      } else if ps1 != [] {
        UnescapePartsInjective(ps1, ps2);
      }
    }
  }

  lemma RootUnescaped()
    ensures UnescapeParts([""]) == [""]
  {
    assert Strip("") == "";
  }

  // ----- every list of parts has a name

  function EscapeParts(us: seq<string>): (ps: seq<string>)
    ensures |ps| == |us| && forall i | 0 <= i < |us| :: ps[i] == EscapePart(us[i])
  {
    seq(|us|, i requires 0 <= i < |us| => EscapePart(us[i]))
  }

  /** In a namespace, any parts but the single empty one can be spelled: the escaped name is canonical
      and unescapes to them. */
  lemma EveryPartsHaveAName(ns: string, us: seq<string>)
    requires ns in NAMESPACES && us != [] && us != [""]
    ensures var c := Render(Some(ns), EscapeParts(us));
            Canonicalize(c) == Some(c) && Unescape(c) == Unescaped(Some(ns), us)
  {
    hide IsCanonicalPart, UnescapePart, EscapePart, Joined, Canonicalize, Unescape;
    var ps := EscapeParts(us);
    forall i | 0 <= i < |us| ensures IsCanonicalPart(ps[i]) && UnescapePart(ps[i]) == us[i] {
      UnescapeInvertsEscape(us[i]);
    }
    BuiltIsFixed(Some(ns), ps);
    UnescapeRendered(Some(ns), ps);
    assert UnescapeParts(ps) == us;
    PercentUnescaped();
    if |us| == 1 { assert us == [us[0]]; }
    assert UnescapePart(ps[0]) == us[0];
  }

  lemma PercentUnescaped()
    ensures UnescapePart("%") == ""
  {
  }
}
