/** Bytes as numbers and as bit-vectors. */
module Octets {
  /** The byte with a given number, by counting up. */
  function ByteOf(x: nat): (b: bv8)
    requires x < 256
    ensures b as int == x
  {
    if x == 0 then 0
    else
      CountUp(ByteOf(x - 1));
      ByteOf(x - 1) + 1
  }

  lemma CountUp(b: bv8)
    requires b != 255
    ensures (b + 1) as int == b as int + 1
  {
  }

  lemma SameNumber(a: bv8, b: bv8)
    requires a as int == b as int
    ensures a == b
  {
  }

  lemma ByteOfInjective(x: nat, y: nat)
    requires x < 256 && y < 256
    ensures ByteOf(x) == ByteOf(y) <==> x == y
  {
    hide ByteOf;
    assert ByteOf(x) as int == x && ByteOf(y) as int == y;
  }
}

/** The strings that the key API hands out: the escaped name of a key and the value of a metadata key. */
module KeyTexts {
  import opened Wrappers
  import opened KeyNames
  import opened KeySets
  import opened Changes
  import opened NameParts
  import CanonicalNames
  import opened Octets

  /** A C string without its terminator: no byte of it is zero. */
  type Text = seq<bv8>

  predicate NulFree(t: Text) {
    forall i | 0 <= i < |t| :: t[i] != 0
  }

  // ----- bytes and characters

  lemma ByteOfZero(x: nat)
    requires 0 < x < 256
    ensures ByteOf(x) != 0
  {
    hide ByteOf;
    assert ByteOf(x) as int == x;
  }

  predicate ByteChar(c: char) {
    0 < c as int < 256
  }

  predicate ByteChars(s: string) {
    forall i | 0 <= i < |s| :: ByteChar(s[i])
  }

  function TextOf(s: string): (t: Text)
    requires ByteChars(s)
    ensures |t| == |s| && forall i | 0 <= i < |s| :: t[i] == ByteOf(s[i] as int)
  {
    seq(|s|, i requires 0 <= i < |s| => ByteOf(s[i] as int))
  }

  lemma TextOfInjective(s: string, t: string)
    requires ByteChars(s) && ByteChars(t) && TextOf(s) == TextOf(t)
    ensures s == t
  {
    hide ByteOf;
    assert |s| == |TextOf(s)| == |t|;
    forall i | 0 <= i < |s| ensures s[i] == t[i] {
      assert TextOf(s)[i] == TextOf(t)[i];
      ByteOfInjective(s[i] as int, t[i] as int);
    }
  }

  lemma TextOfNulFree(s: string)
    requires ByteChars(s)
    ensures NulFree(TextOf(s))
  {
    hide ByteOf;
    forall i | 0 <= i < |s| ensures TextOf(s)[i] != 0 { ByteOfZero(s[i] as int); }
  }

  function Chars(p: Part): (s: string)
    ensures |s| == |p| && ByteChars(s) && forall i | 0 <= i < |p| :: s[i] as int == p[i]
  {
    seq(|p|, i requires 0 <= i < |p| => p[i] as char)
  }

  function AllChars(ps: seq<Part>): (us: seq<string>)
    ensures |us| == |ps| && forall i | 0 <= i < |ps| :: us[i] == Chars(ps[i])
  {
    seq(|ps|, i requires 0 <= i < |ps| => Chars(ps[i]))
  }

  lemma AllCharsInjective(ps: seq<Part>, qs: seq<Part>)
    requires AllChars(ps) == AllChars(qs)
    ensures ps == qs
  {
    assert |ps| == |AllChars(ps)| == |qs|;
    forall i | 0 <= i < |ps| ensures ps[i] == qs[i] {
      assert Chars(ps[i]) == AllChars(ps)[i] == AllChars(qs)[i] == Chars(qs[i]);
      forall j | 0 <= j < |ps[i]| ensures ps[i][j] == qs[i][j] { assert Chars(ps[i])[j] as int == ps[i][j]; }
    }
  }

  // ----- the escaped name

  function NamespaceText(ns: Namespace): Option<string> {
    match ns
    case Cascading => None
    case Meta => Some("meta")
    case Spec => Some("spec")
    case Proc => Some("proc")
    case Dir => Some("dir")
    case User => Some("user")
    case System => Some("system")
    case Default => Some("default")
  }

  /** keyName: the namespace and the escaped parts. */
  function EscapedName(n: KeyName): string {
    CanonicalNames.Render(NamespaceText(n.ns), CanonicalNames.EscapeParts(AllChars(n.parts)))
  }

  /** What stands before the first slash. */
  function Prefix(ns: Namespace): string {
    if NamespaceText(ns).Some? then NamespaceText(ns).value + ":" else ""
  }

  lemma PrefixInjective(a: Namespace, b: Namespace)
    requires Prefix(a) == Prefix(b)
    ensures a == b
  {
    assert |Prefix(a)| == |Prefix(b)|;
    if a != Cascading && b != Cascading {
      assert Prefix(a)[0] == Prefix(b)[0] && Prefix(a)[1] == Prefix(b)[1];
    }
  }

  lemma PrefixHasNoSlash(ns: Namespace)
    ensures '/' !in Prefix(ns)
  {
  }

  lemma EscapedNameSplit(n: KeyName)
    ensures EscapedName(n) == Prefix(n.ns) + CanonicalNames.Joined(CanonicalNames.EscapeParts(AllChars(n.parts)))
  {
  }

  /** A string splits at its first slash in one way. */
  lemma {:induction false} SameSplit(p: string, x: string, q: string, y: string)
    requires '/' !in p && '/' !in q && x != [] && y != [] && x[0] == '/' == y[0] && p + x == q + y
    ensures p == q && x == y
  {
    var s := p + x;
    assert s[|p|] == '/' && s[|q|] == '/';
    assert forall i | 0 <= i < |p| :: s[i] == p[i] && p[i] in p;
    assert forall i | 0 <= i < |q| :: s[i] == q[i] && q[i] in q;
    assert |p| == |q|;
    assert p == s[..|p|] && q == s[..|q|] && x == s[|p|..] && y == s[|q|..];
  }

  lemma EscapedPartsCanonical(us: seq<string>)
    ensures CanonicalNames.AllCanonical(CanonicalNames.EscapeParts(us))
  {
    hide IsCanonicalPart, EscapePart;
    forall i | 0 <= i < |us| ensures IsCanonicalPart(CanonicalNames.EscapeParts(us)[i]) { UnescapeInvertsEscape(us[i]); }
  }

  lemma {:induction false} EscapePartsInjective(us: seq<string>, vs: seq<string>)
    requires CanonicalNames.EscapeParts(us) == CanonicalNames.EscapeParts(vs)
    ensures us == vs
  {
    hide EscapePart, UnescapePart;
    assert |us| == |CanonicalNames.EscapeParts(us)| == |vs|;
    forall i | 0 <= i < |us| ensures us[i] == vs[i] {
      assert CanonicalNames.EscapeParts(us)[i] == CanonicalNames.EscapeParts(vs)[i];
      UnescapeInvertsEscape(us[i]);
      UnescapeInvertsEscape(vs[i]);
    }
  }

  lemma {:induction false} JoinedInjective(ps: seq<string>, qs: seq<string>)
    requires CanonicalNames.AllCanonical(ps) && CanonicalNames.AllCanonical(qs)
    requires CanonicalNames.Joined(ps) == CanonicalNames.Joined(qs)
    ensures ps == qs
  {
    CanonicalNames.JoinedParts(ps);
    CanonicalNames.JoinedParts(qs);
    var empty := [""];
    assert ps != empty && qs != empty;
  }

  /** Different keys have different escaped names. */
  lemma EscapedNameInjective(a: KeyName, b: KeyName)
    ensures EscapedName(a) == EscapedName(b) <==> a == b
  {
    hide CanonicalNames.Joined, CanonicalNames.EscapeParts, Prefix, AllChars, CanonicalNames.AllCanonical, EscapedName;
    if EscapedName(a) == EscapedName(b) {
      EscapedNameSplit(a);
      EscapedNameSplit(b);
      var ps, qs := CanonicalNames.EscapeParts(AllChars(a.parts)), CanonicalNames.EscapeParts(AllChars(b.parts));
      PrefixHasNoSlash(a.ns);
      PrefixHasNoSlash(b.ns);
      CanonicalNames.JoinedStart(ps);
      CanonicalNames.JoinedStart(qs);
      SameSplit(Prefix(a.ns), CanonicalNames.Joined(ps), Prefix(b.ns), CanonicalNames.Joined(qs));
      PrefixInjective(a.ns, b.ns);
      EscapedPartsCanonical(AllChars(a.parts));
      EscapedPartsCanonical(AllChars(b.parts));
      JoinedInjective(ps, qs);
      EscapePartsInjective(AllChars(a.parts), AllChars(b.parts));
      AllCharsInjective(a.parts, b.parts);
    }
  }

  /** The escaped name is canonical and reads back as the namespace and the parts. */
  lemma NameReadsBack(n: KeyName)
    requires n.ns != Cascading && n.parts != []
    ensures CanonicalNames.Canonicalize(EscapedName(n)) == Some(EscapedName(n))
    ensures var u := CanonicalNames.Unescape(EscapedName(n));
            u.parts == AllChars(n.parts) &&
            u.ns == Some(if n.ns == Meta then "meta" else if n.ns == Spec then "spec" else if n.ns == Proc then "proc"
                         else if n.ns == Dir then "dir" else if n.ns == User then "user" else if n.ns == System then "system" else "default")
  {
    hide CanonicalNames.Canonicalize, CanonicalNames.Unescape, CanonicalNames.Render;
    var us := AllChars(n.parts);
    if |n.parts| == 1 {
      assert n.parts == [n.parts[0]];
      assert |us[0]| == |n.parts[0]| > 0;
    }
    CanonicalNames.EveryPartsHaveAName(NamespaceText(n.ns).value, us);
  }

  /** A cascading name starts with a slash, and a root is its namespace with one. */
  lemma RootsSpelled(n: KeyName)
    ensures n.ns == Cascading ==> EscapedName(n)[..1] == "/"
    ensures n == RawName(User, []) ==> EscapedName(n) == "user:/"
    ensures n == RawName(Cascading, []) ==> EscapedName(n) == "/"
  {
    hide CanonicalNames.EscapeParts;
    CanonicalNames.JoinedStart(CanonicalNames.EscapeParts(AllChars(n.parts)));
    EscapedNameSplit(n);
  }

  // ----- its bytes

  lemma {:induction false} EscapeCharsBytes(u: string)
    requires ByteChars(u)
    ensures ByteChars(EscapeChars(u))
  {
    if u != [] { EscapeCharsBytes(u[1..]); }
  }

  lemma EscapePartBytes(u: string)
    requires ByteChars(u)
    ensures ByteChars(EscapePart(u))
  {
    EscapeCharsBytes(u);
  }

  lemma {:induction false} SlashedBytes(ps: seq<string>)
    requires forall i | 0 <= i < |ps| :: ByteChars(ps[i])
    ensures ByteChars(Slashed(ps))
  {
    if ps != [] { SlashedBytes(ps[1..]); }
  }

  lemma EscapedNameBytes(n: KeyName)
    ensures ByteChars(EscapedName(n))
  {
    hide EscapePart, Slashed;
    var us := AllChars(n.parts);
    var ps := CanonicalNames.EscapeParts(us);
    forall i | 0 <= i < |ps| ensures ByteChars(ps[i]) { EscapePartBytes(us[i]); }
    SlashedBytes(ps);
    EscapedNameSplit(n);
    assert ByteChars(Prefix(n.ns));
  }

  function NameText(n: KeyName): Text {
    EscapedNameBytes(n);
    TextOf(EscapedName(n))
  }

  lemma NameTextInjective(a: KeyName, b: KeyName)
    ensures NameText(a) == NameText(b) <==> a == b
  {
    hide EscapedName, TextOf;
    EscapedNameBytes(a);
    EscapedNameBytes(b);
    if NameText(a) == NameText(b) {
      TextOfInjective(EscapedName(a), EscapedName(b));
      EscapedNameInjective(a, b);
    }
  }

  /** "meta:/" */
  const META: Text := [109, 101, 116, 97, 58, 47]

  predicate IsMetaName(t: Text) {
    META <= t
  }

  /** Names of the meta namespace, and only those, start with "meta:/". */
  lemma MetaNames(n: KeyName)
    ensures NulFree(NameText(n)) && (IsMetaName(NameText(n)) <==> n.ns == Meta)
  {
    hide EscapedName, Prefix, CanonicalNames.EscapeParts, CanonicalNames.Joined, AllChars;
    EscapedNameBytes(n);
    TextOfNulFree(EscapedName(n));
    EscapedNameSplit(n);
    var path := CanonicalNames.Joined(CanonicalNames.EscapeParts(AllChars(n.parts)));
    CanonicalNames.JoinedStart(CanonicalNames.EscapeParts(AllChars(n.parts)));
    MetaPrefix();
    var s := EscapedName(n);
    if n.ns == Meta {
      assert s == "meta:" + path && s[..6] == "meta:/";
      TextPrefix(s, "meta:/");
    }
    if IsMetaName(NameText(n)) {
      StartsWithMeta(s);
      PrefixHasNoSlash(n.ns);
      PrefixHasNoSlash(Meta);
      assert s == "meta:" + s[5..];
      SameSplit(Prefix(n.ns), path, "meta:", s[5..]);
      PrefixInjective(n.ns, Meta);
    }
  }

  lemma MetaPrefix()
    ensures Prefix(Meta) == "meta:"
  {
  }

  lemma TextPrefix(s: string, p: string)
    requires ByteChars(s) && p == "meta:/" && |s| >= 6 && s[..6] == p
    ensures IsMetaName(TextOf(s))
  {
    hide ByteOf;
    MetaBytes();
    assert forall i | 0 <= i < 6 :: s[i] == p[i];
    var t := TextOf(s);
    assert t[0] == ByteOf(109) && t[1] == ByteOf(101) && t[2] == ByteOf(116) && t[3] == ByteOf(97) && t[4] == ByteOf(58) && t[5] == ByteOf(47);
  }

  lemma StartsWithMeta(s: string)
    requires ByteChars(s) && IsMetaName(TextOf(s))
    ensures |s| >= 6 && s[..6] == "meta:/" && s[..5] == "meta:" && s[5] == '/'
  {
    hide ByteOf;
    var t := TextOf(s);
    MetaBytes();
    assert forall i | 0 <= i < 6 :: t[i] == META[i];
    ByteOfInjective(s[0] as int, 109);
    ByteOfInjective(s[1] as int, 101);
    ByteOfInjective(s[2] as int, 116);
    ByteOfInjective(s[3] as int, 97);
    ByteOfInjective(s[4] as int, 58);
    ByteOfInjective(s[5] as int, 47);
  }

  lemma MetaBytes()
    ensures META == [ByteOf(109), ByteOf(101), ByteOf(116), ByteOf(97), ByteOf(58), ByteOf(47)]
  {
    hide ByteOf;
    SameNumber(109, ByteOf(109));
    SameNumber(101, ByteOf(101));
    SameNumber(116, ByteOf(116));
    SameNumber(97, ByteOf(97));
    SameNumber(58, ByteOf(58));
    SameNumber(47, ByteOf(47));
  }

  // ----- the value of a metadata key

  /** keyString: a key without data has the empty string. */
  function ValueText(k: Key): Text {
    if k.data.None? then [] else Bytes(UpToNul(k.data.value))
  }

  function Bytes(s: seq<Byte>): (t: Text)
    ensures |t| == |s| && forall i | 0 <= i < |s| :: t[i] == ByteOf(s[i])
  {
    seq(|s|, i requires 0 <= i < |s| => ByteOf(s[i]))
  }

  lemma ValueNulFree(k: Key)
    ensures NulFree(ValueText(k))
  {
    hide ByteOf;
    if k.data.Some? {
      var s := UpToNul(k.data.value);
      UpToNulFirst(k.data.value);
      forall i | 0 <= i < |s| ensures Bytes(s)[i] != 0 {
        assert s[i] in s;
        ByteOfZero(s[i]);
      }
    }
  }
}
