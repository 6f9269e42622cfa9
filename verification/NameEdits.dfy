/** What edits of a key name do to its canonical form: slashes, `.`, `..`, one more part. */
module NameEdits {
  import opened Wrappers
  import opened ArrayParts
  import opened NameParts
  import opened CanonicalNames

  // ----- splitting a path that is put together

  predicate IsPath(s: string) {
    s == [] || s[0] == '/'
  }

  /** Without the empty part that a trailing slash leaves. */
  function Kept(ps: seq<string>): seq<string> {
    if ps != [] && ps[|ps| - 1] == [] then ps[..|ps| - 1] else ps
  }

  /** After content comes a slash, or the name ends, maybe in a lonely backslash. */
  lemma {:induction false} AfterContent(s: string)
    ensures var r := s[|Content(s)|..]; IsPath(r) || r == "\\"
  {
    if s != [] && s[0] != '/' {
      if s[0] == '\\' {
        if |s| >= 2 {
          AfterContent(s[2..]);
          assert s[|Content(s)|..] == s[2..][|Content(s[2..])|..];
        }
      } else {
        AfterContent(s[1..]);
        assert s[|Content(s)|..] == s[1..][|Content(s[1..])|..];
      }
    }
  }

  /** Backslashes at the end of a concatenation. */
  lemma {:induction false} TrailingConcat(a: string, b: string)
    requires exists i | 0 <= i < |b| :: b[i] != '\\'
    ensures TrailingBackslashes(a + b) == TrailingBackslashes(b)
    decreases |b|
  {
    var last := |b| - 1;
    assert (a + b)[|a + b| - 1] == b[last] && (a + b)[..|a + b| - 1] == a + b[..last];
    if b[last] == '\\' {
      var i :| 0 <= i < |b| && b[i] != '\\';
      assert b[..last][i] != '\\';
      TrailingConcat(a, b[..last]);
    }
  }

  lemma TrailingPath(a: string, b: string)
    requires IsPath(b) && b != []
    ensures TrailingBackslashes(a + b) == TrailingBackslashes(b)
  {
    assert b[0] != '\\';
    TrailingConcat(a, b);
  }

  lemma {:induction false} DropSlashesConcat(s: string, b: string)
    ensures DropSlashes(s + b) == if DropSlashes(s) == [] then DropSlashes(b) else DropSlashes(s) + b
  {
    if s == [] {
      assert s + b == b;
    } else if s[0] == '/' {
      assert (s + b)[1..] == s[1..] + b;
      DropSlashesConcat(s[1..], b);
    }
  }

  lemma LonelyIsOdd(front: string, p: string)
    requires front != [] && front[|front| - 1] == '/' && Complete(p)
    ensures TrailingBackslashes(front + p + "\\") % 2 == 1
  {
    assert TrailingBackslashes(front) == 0;
    CompleteEndsEven(front, p);
    var s := front + p + "\\";
    assert s[..|s| - 1] == front + p;
  }

  /** Where nothing is left to escape, no backslash is left alone after the content. */
  lemma NoLonelyBackslash(a: string, front: string, t: string)
    requires a == front + t && TrailingBackslashes(a) % 2 == 0 && front != [] && front[|front| - 1] == '/'
    ensures IsPath(t[|Content(t)|..])
  {
    hide TrailingBackslashes, Content, Complete;
    AfterContent(t);
    ContentComplete(t);
    LonelyIsOdd(front, Content(t));
    assert t == Content(t) + t[|Content(t)|..];
    assert a == front + Content(t) + t[|Content(t)|..];
  }

  lemma SlashesFront(a: string) returns (front: string)
    requires a != [] && a[0] == '/'
    ensures var t := DropSlashes(a[1..]); a == front + t && front != [] && front[|front| - 1] == '/'
  {
    front := AllSlashes(a);
    assert DropSlashes(a) == DropSlashes(a[1..]);
  }

  lemma {:induction false} AllSlashes(a: string) returns (front: string)
    requires a != [] && a[0] == '/'
    ensures a == front + DropSlashes(a) && front != [] && front[|front| - 1] == '/'
  {
    if |a| > 1 && a[1] == '/' {
      var f := AllSlashes(a[1..]);
      front := ['/'] + f;
    } else {
      front := ['/'];
      assert DropSlashes(a) == a[1..];
    }
  }

  lemma PartsStep(a: string, p: string, r: string)
    requires a != [] && a[0] == '/' && DropSlashes(a[1..]) == p + r && Content(p + r) == p
    ensures Parts(a) == [p] + Parts(r)
  {
    assert (p + r)[|p|..] == r;
  }

  lemma KeptTail(p: string, ps: seq<string>)
    requires p != []
    ensures Kept([p] + ps) == [p] + Kept(ps)
  {
    if ps != [] {
      var s := [p] + ps;
      assert s[|s| - 1] == ps[|ps| - 1];
      assert s[..|s| - 1] == [p] + ps[..|ps| - 1];
    }
  }

  lemma NonemptyContent(p: string, r: string)
    requires Content(p + r) == p && p + r != [] && (p + r)[0] != '/' && IsPath(r)
    ensures p != []
  {
  }

  /** The parts of two paths, one behind the other. */
  lemma {:induction false} PartsConcat(a: string, b: string)
    requires IsPath(a) && IsPath(b) && b != [] && TrailingBackslashes(a) % 2 == 0
    ensures Parts(a + b) == Kept(Parts(a)) + Parts(b)
    decreases |a|
  {
    hide Content, TrailingBackslashes, Parts, Kept, DropSlashes;
    if a == [] {
      assert a + b == b;
      EmptyContent();
    } else {
      var t := DropSlashes(a[1..]);
      assert (a + b)[1..] == a[1..] + b;
      DropSlashesConcat(a[1..], b);
      if t == [] {
        OnlySlashes(a, b);
      } else {
        PartsConcatStep(a, b, t);
      }
    }
  }

  lemma OnlySlashes(a: string, b: string)
    requires a != [] && a[0] == '/' && DropSlashes(a[1..]) == [] && b != [] && b[0] == '/' && DropSlashes((a + b)[1..]) == DropSlashes(b)
    ensures Parts(a + b) == Kept(Parts(a)) + Parts(b)
  {
    hide Content;
    assert DropSlashes(b) == DropSlashes(b[1..]);
    EmptyContent();
    PartsStep(a, [], []);
    var t := DropSlashes(b);
    PartsStep(b, Content(t), t[|Content(t)|..]);
    PartsStep(a + b, Content(t), t[|Content(t)|..]);
  }

  lemma {:induction false} PartsConcatStep(a: string, b: string, t: string)
    requires IsPath(a) && a != [] && IsPath(b) && b != [] && TrailingBackslashes(a) % 2 == 0
    requires t == DropSlashes(a[1..]) && t != [] && DropSlashes((a + b)[1..]) == t + b
    ensures Parts(a + b) == Kept(Parts(a)) + Parts(b)
    decreases |a|, 0
  {
    hide Content, TrailingBackslashes, Parts, Kept, DropSlashes;
    var front := SlashesFront(a);
    NoLonelyBackslash(a, front, t);
    var p, r := Content(t), t[|Content(t)|..];
    assert t == p + r;
    ContentComplete(t);
    ContentStops(p, r + b);
    assert t + b == p + (r + b);
    PartsStep(a, p, r);
    PartsStep(a + b, p, r + b);
    if r != [] {
      assert a == (front + p) + r;
      TrailingPath(front + p, r);
    } else {
      NothingTrails();
    }
    PartsConcat(r, b);
    NonemptyContent(p, r);
    KeptTail(p, Parts(r));
    assert [p] + (Kept(Parts(r)) + Parts(b)) == [p] + Kept(Parts(r)) + Parts(b);
  }

  lemma EmptyContent()
    ensures Content([]) == [] && Parts([]) == [] && Kept([]) == [] && Kept([[]]) == []
  {
  }

  lemma NothingTrails()
    ensures TrailingBackslashes([]) == 0
  {
  }

  // ----- reading a path that is put together

  predicate AllNonempty(ps: seq<string>) {
    forall i | 0 <= i < |ps| :: ps[i] != []
  }

  lemma {:induction false} CollectConcat(stack: seq<string>, ps: seq<string>, qs: seq<string>)
    requires AllComplete(ps) && AllNonempty(ps) && Processable(qs)
    ensures Processable(ps) && Processable(ps + qs)
    ensures Collect(stack, ps + qs) == (
      if Collect(stack, ps).None? then None else Collect(Collect(stack, ps).value, qs))
    decreases |ps|
  {
    hide Complete, EscapesValid, Step;
    if ps == [] {
      assert ps + qs == qs;
    } else {
      assert (ps + qs)[1..] == ps[1..] + qs && (ps + qs)[0] == ps[0];
      if EscapesValid(ps[0]) { CollectConcat(Step(stack, ps[0]), ps[1..], qs); } else { ConcatProcessable(ps, qs); }
    }
  }

  lemma ConcatProcessable(ps: seq<string>, qs: seq<string>)
    requires AllComplete(ps) && AllNonempty(ps) && Processable(qs)
    ensures Processable(ps + qs)
  {
    hide Complete;
  }

  /** A trailing slash adds nothing. */
  lemma {:induction false} CollectKept(stack: seq<string>, ps: seq<string>)
    requires Processable(ps)
    ensures AllComplete(Kept(ps)) && AllNonempty(Kept(ps)) && Collect(stack, Kept(ps)) == Collect(stack, ps)
    decreases |ps|
  {
    hide Complete, EscapesValid, Step;
    if ps != [] && ps[0] != [] && EscapesValid(ps[0]) {
      CollectKept(Step(stack, ps[0]), ps[1..]);
      if ps[|ps| - 1] == [] { assert Kept(ps)[1..] == Kept(ps[1..]); }
    }
  }

  /** What a path makes of the parts that were collected before it. */
  function Read(stack: seq<string>, path: string): Option<seq<string>> {
    PartsProcessable(path);
    Collect(stack, Parts(path))
  }

  lemma ReadConcat(stack: seq<string>, a: string, b: string)
    requires IsPath(a) && IsPath(b) && TrailingBackslashes(a) % 2 == 0
    ensures Read(stack, a + b) == if Read(stack, a).None? then None else Read(Read(stack, a).value, b)
  {
    hide Parts, Kept, Collect, TrailingBackslashes, Processable, AllNonempty, AllComplete;
    PartsProcessable(a);
    PartsProcessable(b);
    PartsProcessable(a + b);
    if b == [] {
      assert a + b == a;
      if Read(stack, a).Some? { ReadNothing(Read(stack, a).value); }
    } else {
      PartsConcat(a, b);
      CollectKept(stack, Parts(a));
      CollectConcat(stack, Kept(Parts(a)), Parts(b));
    }
  }

  lemma ReadNothing(stack: seq<string>)
    ensures Read(stack, []) == Some(stack)
  {
  }

  /** A path of one part. */
  lemma ReadPart(stack: seq<string>, p: string)
    requires Complete(p) && p != []
    ensures Read(stack, "/" + p) == if EscapesValid(p) then Some(Step(stack, p)) else None
  {
    hide EscapesValid, Step, Complete;
    var s := "/" + p;
    PartsOfSlashed([p]);
    assert [p][1..] == [] && Slashed([p]) == s;
    assert Collect(Step(stack, p), [p][1..]) == Some(Step(stack, p));
  }

  lemma ReadSlash(stack: seq<string>)
    ensures Read(stack, "/") == Some(stack)
  {
    EmptyContent();
    assert Parts("/"[1..]) == [];
  }

  // ----- names

  /** What precedes the path: nothing, or a namespace with its colon. */
  predicate IsPrefix(q: string) {
    q == "" || exists ns | ns in NAMESPACES :: q == ns + ":"
  }

  function NamespaceOf(q: string): Option<string> {
    if q == "" then None else Some(q[..|q| - 1])
  }

  lemma LocatePrefixed(q: string, path: string)
    requires IsPrefix(q) && IsPath(path) && path != []
    ensures Locate(q + path) == if q == "" && ':' in path then None else Some(Located(NamespaceOf(q), path))
  {
    var name := q + path;
    if q == "" {
      assert name == path;
      FindFirst(path, '/', 0);
      FindNothing(path, ':');
      if ':' in path { NoSuchNamespace(path, Find(path, ':')); }
    } else {
      var ns :| ns in NAMESPACES && q == ns + ":";
      NamespacesArePlain(ns);
      var n := |ns|;
      assert name[..n] == ns && name[n] == ':' && name[n + 1..] == path && name[..n + 1] == ns + ":" && name[n + 1] == '/';
      FindFirst(name, ':', n);
      FindFirst(name, '/', n + 1);
      assert q[..|q| - 1] == ns;
    }
  }

  lemma NoSuchNamespace(path: string, i: nat)
    requires path != [] && path[0] == '/' && 0 < i <= |path|
    ensures path[..i] !in NAMESPACES
  {
    var ns := path[..i];
    assert ns[0] == '/';
    if ns in NAMESPACES { NamespacesArePlain(ns); }
  }

  /** A cascading name with a colon is not a name. */
  predicate Misplaced(q: string, path: string) {
    q == "" && ':' in path
  }

  /** canonicalize, by prefix and path. */
  lemma CanonicalizePrefixed(q: string, path: string)
    requires IsPrefix(q) && IsPath(path) && path != []
    ensures Canonicalize(q + path) == (
      if Misplaced(q, path) || path == "/%" || TrailingBackslashes(path) % 2 != 0 || Read([], path).None? then None
      else Some(Render(NamespaceOf(q), Read([], path).value)))
  {
    hide Locate, Collect, Parts, TrailingBackslashes, Processable;
    LocatePrefixed(q, path);
    PartsProcessable(path);
  }

  /** Two paths that read the same make the same name. */
  lemma SameReading(q: string, path: string, other: string)
    requires IsPrefix(q) && IsPath(path) && path != [] && IsPath(other) && other != []
    requires Misplaced(q, path) == Misplaced(q, other) && path != "/%" && other != "/%"
    requires TrailingBackslashes(path) % 2 == TrailingBackslashes(other) % 2
    requires TrailingBackslashes(path) % 2 == 0 ==> Read([], path) == Read([], other)
    ensures Canonicalize(q + path) == Canonicalize(q + other)
  {
    hide Canonicalize, Read, TrailingBackslashes, Misplaced, IsPrefix;
    CanonicalizePrefixed(q, path);
    CanonicalizePrefixed(q, other);
  }

  /** An insertion that changes nothing that was collected before it changes nothing in the end. */
  lemma Inserted(q: string, a: string, x: string, b: string)
    requires IsPrefix(q) && IsPath(a) && IsPath(b) && IsPath(x) && x != [] && TrailingBackslashes(a) % 2 == 0 && TrailingBackslashes(x) % 2 == 0
    requires a + b != [] && a + b != "/%" && a + x + b != "/%" && (q == "" ==> ':' !in x)
    requires Read([], a).Some? ==> Read(Read([], a).value, x) == Read([], a)
    ensures Canonicalize(q + (a + x + b)) == Canonicalize(q + (a + b))
  {
    hide IsPrefix, Read, TrailingBackslashes, Canonicalize;
    assert (a + x)[0] == '/' by { if a == [] { assert a + x == x; } }
    TrailingPath(a, x);
    ReadConcat([], a, x);
    ReadConcat([], a, b);
    ReadConcat([], a + x, b);
    if b != [] {
      TrailingPath(a + x, b);
      TrailingPath(a, b);
    } else {
      assert a + x + b == a + x && a + b == a;
    }
    SameReading(q, a + x + b, a + b);
  }

  // ----- edits

  /** `/.` can be put in at every end of a part. */
  lemma DotInserted(q: string, a: string, b: string)
    requires IsPrefix(q) && IsPath(a) && IsPath(b) && TrailingBackslashes(a) % 2 == 0 && a + b != "" && a + b != "/%"
    ensures Canonicalize(q + (a + "/." + b)) == Canonicalize(q + (a + b))
  {
    hide IsPrefix, Canonicalize, TrailingBackslashes, Read;
    PlainIsComplete(".");
    EndsPlain("/.");
    if Read([], a).Some? { ReadDot(Read([], a).value); }
    Differs(a + "/." + b, '.');
    assert (a + "/." + b)[|a| + 1] == '.';
    Inserted(q, a, "/.", b);
  }

  lemma EndsPlain(x: string)
    requires x != [] && x[|x| - 1] != '\\'
    ensures TrailingBackslashes(x) == 0
  {
  }

  lemma ReadDot(stack: seq<string>)
    ensures Read(stack, "/.") == Some(stack)
  {
    hide Read;
    PlainIsComplete(".");
    assert "/" + "." == "/.";
    ReadPart(stack, ".");
  }

  lemma Differs(s: string, c: char)
    ensures c in s && c != '/' && c != '%' ==> s != "/%"
  {
  }

  /** So can slashes. */
  lemma SlashInserted(q: string, a: string, b: string)
    requires IsPrefix(q) && IsPath(a) && IsPath(b) && TrailingBackslashes(a) % 2 == 0 && a + b != "" && a + b != "/%"
    ensures Canonicalize(q + (a + "/" + b)) == Canonicalize(q + (a + b))
  {
    hide IsPrefix, Canonicalize, TrailingBackslashes, Read;
    EndsPlain("/");
    if Read([], a).Some? { ReadSlash(Read([], a).value); }
    NotBare(a, b);
    Inserted(q, a, "/", b);
  }

  lemma NotBare(a: string, b: string)
    requires IsPath(a) && IsPath(b)
    ensures a + "/" + b != "/%"
  {
    var s := a + "/" + b;
    if |s| == 2 {
      assert s[1] == '/' by {
        if |a| == 1 { assert s[1] == "/"[0]; }
        if |b| == 1 { assert s[1] == b[0]; }
      }
    }
  }

  /** `..` takes back the part before it, wherever the two are put in: nothing is changed by them, unless the part is not
      acceptable at all. */
  lemma PartTakenBack(q: string, a: string, p: string, b: string)
    requires IsPrefix(q) && IsPath(a) && IsPath(b) && TrailingBackslashes(a) % 2 == 0 && a + b != "" && a + b != "/%"
    requires Complete(p) && p != "" && p != "." && p != ".."
    ensures Canonicalize(q + (a + ("/" + p + "/..") + b)) == (
      if (q == "" && ':' in p) || !EscapesValid(p) then None else Canonicalize(q + (a + b)))
  {
    hide IsPrefix, Canonicalize, TrailingBackslashes, Read, EscapesValid, Complete;
    var x := "/" + p + "/..";
    EndsPlain(x);
    assert (a + x + b)[|a| + |x| - 1] == '.';
    Differs(a + x + b, '.');
    if Read([], a).Some? { ReadTakenBack(Read([], a).value, p); }
    if q == "" && ':' in p {
      HasChar(a, x, b, p, ':');
      NotNamed(a + x + b);
      assert q + (a + x + b) == a + x + b;
    } else if EscapesValid(p) {
      Inserted(q, a, x, b);
    } else {
      Unreadable(q, a, x, b);
    }
  }

  lemma HasChar(a: string, x: string, b: string, p: string, c: char)
    requires c in p && x == "/" + p + "/.."
    ensures c in a + x + b && IsPath(x) && x != []
  {
    assert c in "/" + p;
    assert c in x;
    assert c in a + x;
  }

  lemma NotNamed(path: string)
    requires ':' in path && IsPath(path)
    ensures Canonicalize(path) == None
  {
    hide Read;
    assert "" + path == path;
    CanonicalizePrefixed("", path);
  }

  lemma ReadTakenBack(stack: seq<string>, p: string)
    requires Complete(p) && p != "" && p != "." && p != ".."
    ensures Read(stack, "/" + p + "/..") == if EscapesValid(p) then Some(stack) else None
  {
    hide Read, EscapesValid, CanonicalPart, TrailingBackslashes, Complete;
    ReadPart(stack, p);
    var one := "/" + p;
    SlashEndsEven(p);
    ReadConcat(stack, one, "/..");
    if EscapesValid(p) {
      var more := Step(stack, p);
      assert more == stack + [CanonicalPart(p)];
      ReadUp(more);
      assert more[..|more| - 1] == stack;
    }
  }

  lemma SlashEndsEven(p: string)
    requires Complete(p)
    ensures TrailingBackslashes("/" + p) % 2 == 0
  {
    EndsPlain("/");
    CompleteEndsEven("/", p);
  }

  lemma ReadUp(stack: seq<string>)
    ensures Read(stack, "/..") == Some(if stack == [] then [] else stack[..|stack| - 1])
  {
    hide Read;
    PlainIsComplete("..");
    assert "/" + ".." == "/..";
    ReadPart(stack, "..");
  }

  lemma Unreadable(q: string, a: string, x: string, b: string)
    requires IsPrefix(q) && IsPath(a) && IsPath(b) && IsPath(x) && x != [] && TrailingBackslashes(a) % 2 == 0 && TrailingBackslashes(x) % 2 == 0
    requires Read([], a).Some? ==> Read(Read([], a).value, x) == None
    ensures Canonicalize(q + (a + x + b)) == None
  {
    hide IsPrefix, Read, TrailingBackslashes, Canonicalize;
    assert (a + x)[0] == '/' by { if a == [] { assert a + x == x; } }
    TrailingPath(a, x);
    ReadConcat([], a, x);
    ReadConcat([], a + x, b);
    CanonicalizePrefixed(q, a + x + b);
  }

  lemma RenderedRoot(q: string, ps: seq<string>)
    requires IsPrefix(q) && AllCanonical(ps)
    ensures Render(NamespaceOf(q), ps) == q + Joined(ps) && (q + Joined(ps) == q + "/" <==> ps == [])
  {
    hide IsCanonicalPart;
    if q + Joined(ps) == q + "/" {
      assert Joined(ps) == (q + Joined(ps))[|q|..] && "/" == (q + "/")[|q|..];
      JoinedLength(ps);
    }
  }

  lemma JoinedLength(ps: seq<string>)
    requires AllCanonical(ps)
    ensures ps != [] ==> |Joined(ps)| >= 2
  {
    if ps != [] { assert IsCanonicalPart(ps[0]); }
  }

  lemma ReadCanonical(path: string)
    requires Read([], path).Some?
    ensures AllCanonical(Read([], path).value)
  {
    PartsProcessable(path);
    CollectCanonical([], Parts(path));
  }

  /** At the root there is nothing to take back: `..` is dropped. */
  lemma UpAtRoot(q: string, a: string, b: string)
    requires IsPrefix(q) && IsPath(a) && IsPath(b) && (a == "" || Canonicalize(q + a) == Some(q + "/"))
    ensures Canonicalize(q + (a + "/.." + b)) == Canonicalize(q + ("/" + b))
  {
    hide IsPrefix, Read, TrailingBackslashes, Canonicalize;
    AtRoot(q, a);
    EndsPlain("/..");
    EndsPlain("/");
    assert (a + "/..")[0] == '/' by { if a == [] { assert a + "/.." == "/.."; } }
    TrailingPath(a, "/..");
    ReadUp([]);
    ReadSlash([]);
    ReadConcat([], a, "/..");
    ReadConcat([], a + "/..", b);
    ReadConcat([], "/", b);
    if b != [] {
      TrailingPath(a + "/..", b);
      TrailingPath("/", b);
    } else {
      assert a + "/.." + b == a + "/.." && "/" + b == "/";
    }
    assert (a + "/.." + b)[|a| + 1] == '.';
    Differs(a + "/.." + b, '.');
    NotBare("", b);
    assert "" + "/" + b == "/" + b;
    SameReading(q, a + "/.." + b, "/" + b);
  }

  lemma AtRoot(q: string, a: string)
    requires IsPrefix(q) && IsPath(a) && (a == "" || Canonicalize(q + a) == Some(q + "/"))
    ensures TrailingBackslashes(a) % 2 == 0 && Read([], a) == Some([]) && (q == "" ==> ':' !in a)
  {
    hide IsPrefix, Read, TrailingBackslashes, Canonicalize, Joined;
    if a == "" {
      NothingTrails();
      ReadNothing([]);
    } else {
      CanonicalizePrefixed(q, a);
      ReadCanonical(a);
      RenderedRoot(q, Read([], a).value);
    }
  }

  lemma {:induction false} SlashedSnoc(ps: seq<string>, p: string)
    ensures Slashed(ps + [p]) == Slashed(ps) + "/" + p
  {
    if ps == [] {
      assert [p][1..] == [] && ps + [p] == [p];
    } else {
      assert (ps + [p])[1..] == ps[1..] + [p];
      SlashedSnoc(ps[1..], p);
    }
  }

  /** One more part, other than `.` and `..`, comes behind the canonical form of what precedes it, as it is unless it is an
      array part; a name with a part that is not acceptable is no name. */
  lemma PartAppended(q: string, a: string, p: string)
    requires IsPrefix(q) && IsPath(a) && a != "" && Canonicalize(q + a).Some?
    requires Complete(p) && p != "" && p != "." && p != ".."
    ensures var c := Canonicalize(q + a).value;
            Canonicalize(q + (a + "/" + p)) == (
              if (q == "" && ':' in p) || !EscapesValid(p) then None
              else Some((if c == q + "/" then c else c + "/") + if p[0] == '#' then CanonicalPart(p) else p))
  {
    hide IsPrefix, Read, TrailingBackslashes, Canonicalize, Complete, EscapesValid, CanonicalPart, Joined, Slashed, CheckArrayPart, IsCanonicalPart;
    var one := "/" + p;
    var path := a + one;
    assert a + "/" + p == path;
    CanonicalizePrefixed(q, a);
    CanonicalizePrefixed(q, path);
    SlashEndsEven(p);
    TrailingPath(a, one);
    var ps := Read([], a).value;
    ReadCanonical(a);
    RenderedRoot(q, ps);
    ReadConcat([], a, one);
    ReadPart(ps, p);
    MisplacedIn(a, p, path);
    LongPath(a, one);
    if EscapesValid(p) {
      PartKept(p);
      RenderedMore(q, ps, CanonicalPart(p));
    }
  }

  lemma MisplacedIn(a: string, p: string, path: string)
    requires path == a + ("/" + p)
    ensures ':' in path <==> ':' in a || ':' in p
  {
  }

  lemma LongPath(a: string, one: string)
    requires a != "" && IsPath(one) && |one| >= 2
    ensures a + one != "/%"
  {
    assert |a + one| > 2;
  }

  lemma PartKept(p: string)
    requires p != ""
    ensures p[0] != '#' ==> CanonicalPart(p) == p
  {
  }

  lemma RenderedMore(q: string, ps: seq<string>, p: string)
    requires IsPrefix(q)
    ensures Render(NamespaceOf(q), ps + [p]) == if ps == [] then q + "/" + p else q + Joined(ps) + "/" + p
  {
    hide Slashed;
    SlashedSnoc(ps, p);
    if ps == [] { SlashedNothing(); }
  }

  lemma SlashedNothing()
    ensures Slashed([]) == ""
  {
  }

  /** An array part gets its underscores: one less than the index has digits. */
  lemma IndexAppended(q: string, a: string, n: nat)
    requires IsPrefix(q) && IsPath(a) && a != "" && Canonicalize(q + a).Some? && n <= 9_223_372_036_854_775_807
    ensures var c, d := Canonicalize(q + a).value, Decimal(n);
            Canonicalize(q + (a + "/" + ("#" + d))) == Some((if c == q + "/" then c else c + "/") + "#" + seq(|d| - 1, _ => '_') + d)
  {
    hide IsPrefix, Canonicalize, Complete, Decimal, CheckArrayPart;
    var p := "#" + Decimal(n);
    DecimalDigits(n);
    PlainIndexAccepted(n);
    DigitsPlain(Decimal(n));
    PlainIsComplete(p);
    PartAppended(q, a, p);
    var c, d := Canonicalize(q + a).value, Decimal(n);
    var front := if c == q + "/" then c else c + "/";
    assert CanonicalPart(p) == "#" + Underscores(|d| - 1) + d;
    assert Underscores(|d| - 1) == seq(|d| - 1, _ => '_');
    assert front + ("#" + Underscores(|d| - 1) + d) == front + "#" + Underscores(|d| - 1) + d;
  }

  lemma DigitsPlain(d: string)
    requires AllDigits(d)
    ensures '/' !in "#" + d && '\\' !in "#" + d && ':' !in "#" + d
  {
  }

  /** A backslash at the end that escapes nothing is refused. */
  lemma DanglingEscape(q: string, a: string)
    requires IsPrefix(q) && IsPath(a) && a != "" && Canonicalize(q + a).Some?
    ensures Canonicalize(q + (a + "\\")) == None
  {
    hide IsPrefix, Read, Canonicalize;
    CanonicalizePrefixed(q, a);
    CanonicalizePrefixed(q, a + "\\");
    assert (a + "\\")[..|a|] == a;
  }

  /** The namespaces. */
  lemma NamespaceAccepted(ns: string)
    requires ':' !in ns && '/' !in ns
    ensures Canonicalize(ns + ":/") == (
      if ns == "meta" || ns == "spec" || ns == "proc" || ns == "dir" || ns == "user" || ns == "system" || ns == "default"
      then Some(ns + ":/") else None)
  {
    hide Canonicalize;
    if ns in NAMESPACES { RootAccepted(ns); } else { Refused(ns); }
  }

  lemma RootAccepted(ns: string)
    requires ns in NAMESPACES
    ensures Canonicalize(ns + ":/") == Some(ns + ":/")
  {
    hide Read, TrailingBackslashes, Canonicalize;
    var q := ns + ":";
    assert ns + ":/" == q + "/";
    CanonicalizePrefixed(q, "/");
    ReadSlash([]);
    EndsPlain("/");
    assert q[..|q| - 1] == ns;
  }

  lemma Refused(ns: string)
    requires ':' !in ns && '/' !in ns && ns !in NAMESPACES
    ensures Canonicalize(ns + ":/") == None
  {
    hide TrailingBackslashes, Collect, Parts;
    var name, n := ns + ":/", |ns|;
    assert name[n] == ':' && name[..n] == ns && name[n + 1] == '/' && name[..n + 1] == ns + ":";
    FindFirst(name, ':', n);
    FindFirst(name, '/', n + 1);
  }

  /** The root of a cascading name. */
  lemma CascadingRoot()
    ensures Canonicalize("/") == Some("/")
  {
    hide Read, TrailingBackslashes;
    CanonicalizePrefixed("", "/");
    assert "" + "/" == "/";
    ReadSlash([]);
    EndsPlain("/");
  }
}
