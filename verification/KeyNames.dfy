/** Key names: a namespace and a sequence of parts, stored as the unescaped byte
    string on which every comparison of the C code works. */
module KeyNames {

  datatype Namespace = Cascading | Meta | Spec | Proc | Dir | User | System | Default

  /** The first byte of an unescaped name. */
  function NsByte(ns: Namespace): nat {
    match ns
    case Cascading => 1
    case Meta => 2
    case Spec => 3
    case Proc => 4
    case Dir => 5
    case User => 6
    case System => 7
    case Default => 8
  }

  type NameByte = b: nat | 0 < b < 256 witness 1
  type Part = seq<NameByte>

  datatype RawName = RawName(ns: Namespace, parts: seq<Part>)

  /** A name whose only part is empty would have the byte string of the root, so it does not exist. */
  type KeyName = n: RawName | n.parts != [[]] witness RawName(Cascading, [])

  const DefaultRoot: KeyName := RawName(Default, [])

  /** Each part is followed by a zero byte. */
  function Flat(parts: seq<Part>): seq<nat> {
    if parts == [] then [] else parts[0] + ([0] + Flat(parts[1..]))
  }

  /** The unescaped name; a root is namespace, zero, zero (size 3). */
  function Unescaped(n: KeyName): seq<nat> {
    [NsByte(n.ns), 0] + (if n.parts == [] then [0] else Flat(n.parts))
  }

  // ----- the byte order: memcmp over the shorter size, then the size

  predicate LexLess(a: seq<nat>, b: seq<nat>) {
    b != [] && (a == [] || a[0] < b[0] || (a[0] == b[0] && LexLess(a[1..], b[1..])))
  }

  /** keyCompareByName: memcmp of the unescaped names over the shorter size, then the size. */
  predicate Lt(a: KeyName, b: KeyName) {
    LexLess(Unescaped(a), Unescaped(b))
  }

  predicate Le(a: KeyName, b: KeyName) {
    a == b || Lt(a, b)
  }

  lemma {:induction false} LexIrreflexive(a: seq<nat>)
    ensures !LexLess(a, a)
  {
    if a != [] { LexIrreflexive(a[1..]); }
  }

  lemma {:induction false} LexTransitive(a: seq<nat>, b: seq<nat>, c: seq<nat>)
    requires LexLess(a, b) && LexLess(b, c)
    ensures LexLess(a, c)
  {
    if a != [] && a[0] == b[0] == c[0] { LexTransitive(a[1..], b[1..], c[1..]); }
  }

  lemma {:induction false} LexTotal(a: seq<nat>, b: seq<nat>)
    ensures a == b || LexLess(a, b) || LexLess(b, a)
  {
    if a != [] && b != [] && a[0] == b[0] {
      LexTotal(a[1..], b[1..]);
      assert a == [a[0]] + a[1..] && b == [b[0]] + b[1..];
    }
  }

  /** A proper prefix sorts first. */
  lemma {:induction false} LexPrefix(p: seq<nat>, k: seq<nat>)
    requires p < k
    ensures LexLess(p, k)
  {
    if p != [] { LexPrefix(p[1..], k[1..]); }
  }

  /** Whatever lies between a string and one of its extensions extends it too. */
  lemma {:induction false} LexBetween(p: seq<nat>, x: seq<nat>, k: seq<nat>)
    requires p <= k
    requires !LexLess(x, p) && !LexLess(k, x)
    ensures p <= x
  {
    if p != [] {
      assert p[0] == k[0] && x != [] && x[0] == p[0];
      LexBetween(p[1..], x[1..], k[1..]);
      assert x == [x[0]] + x[1..] && p == [p[0]] + p[1..];
    }
  }

  // ----- parts and bytes

  /** Zero-terminated parts can be read back: a prefix of the bytes is a prefix of the parts. */
  lemma {:induction false} FlatPrefix(p: seq<Part>, q: seq<Part>)
    ensures Flat(p) <= Flat(q) <==> p <= q
  {
    if p != [] && q != [] {
      FlatPrefix(p[1..], q[1..]);
      FlatHead(p[0], q[0], Flat(p[1..]), Flat(q[1..]));
      assert p == [p[0]] + p[1..] && q == [q[0]] + q[1..];
    }
  }

  lemma FlatHead(a: Part, b: Part, s: seq<nat>, t: seq<nat>)
    ensures a + ([0] + s) <= b + ([0] + t) <==> a == b && s <= t
  {
    var fp, fq := a + ([0] + s), b + ([0] + t);
    if fp <= fq {
      TerminatorPositions(a, b, fp, fq);
      assert fp[|a| + 1..] == s && fq[|a| + 1..] == t;
    }
  }

  lemma TerminatorPositions(a: Part, b: Part, fp: seq<nat>, fq: seq<nat>)
    requires a < fp && b < fq && fp <= fq
    requires fp[|a|] == 0 && fq[|b|] == 0
    ensures a == b
  {
    assert fq[|a|] == 0;
    assert forall i | 0 <= i < |a| :: fp[i] == a[i] != 0;
    assert forall i | 0 <= i < |b| :: fq[i] == b[i] != 0;
    assert |a| == |b|;
  }

  lemma FlatEmptyPart(p: seq<Part>)
    requires p != []
    ensures Flat(p) == [0] <==> p == [[]]
    ensures |Flat(p)| > 0
  {
    if Flat(p) == [0] {
      assert |p[0]| == 0 && |Flat(p[1..])| == 0;
      assert p[1..] == [] && p == [p[0]] + p[1..];
    }
    if p == [[]] { assert Flat(p[1..]) == []; }
  }

  lemma UnescapedInjective(a: KeyName, b: KeyName)
    ensures Unescaped(a) == Unescaped(b) <==> a == b
  {
    if Unescaped(a) == Unescaped(b) {
      var ta, tb := Unescaped(a)[2..], Unescaped(b)[2..];
      assert Unescaped(a)[0] == NsByte(a.ns) && Unescaped(b)[0] == NsByte(b.ns);
      assert ta == if a.parts == [] then [0] else Flat(a.parts);
      assert tb == if b.parts == [] then [0] else Flat(b.parts);
      if a.parts != [] { FlatEmptyPart(a.parts); }
      if b.parts != [] { FlatEmptyPart(b.parts); }
      FlatPrefix(a.parts, b.parts);
      FlatPrefix(b.parts, a.parts);
    }
  }

  // ----- the name order

  lemma LtIrreflexive(a: KeyName)
    ensures !Lt(a, a)
  {
    LexIrreflexive(Unescaped(a));
  }

  lemma LtTransitive(a: KeyName, b: KeyName, c: KeyName)
    requires Lt(a, b) && Lt(b, c)
    ensures Lt(a, c)
  {
    LexTransitive(Unescaped(a), Unescaped(b), Unescaped(c));
  }

  /** The byte order is a strict total order of names, because the byte string determines the name. */
  lemma LtTotal(a: KeyName, b: KeyName)
    ensures a == b || Lt(a, b) || Lt(b, a)
    ensures !(Lt(a, b) && Lt(b, a))
    ensures a == b ==> !Lt(a, b)
  {
    LexTotal(Unescaped(a), Unescaped(b));
    UnescapedInjective(a, b);
    if Lt(a, b) && Lt(b, a) { LtTransitive(a, b, a); }
    LtIrreflexive(a);
  }

  /** Namespaces sort by their byte. */
  lemma LtNamespace(a: KeyName, b: KeyName)
    requires Lt(a, b)
    ensures NsByte(a.ns) <= NsByte(b.ns)
  {
    assert Unescaped(a)[0] == NsByte(a.ns) && Unescaped(b)[0] == NsByte(b.ns);
  }

  // ----- the same order, part by part

  predicate PartsLess(p: seq<Part>, q: seq<Part>) {
    q != [] && (p == [] || LexLess(p[0], q[0]) || (p[0] == q[0] && PartsLess(p[1..], q[1..])))
  }

  /** The terminator sorts before every byte of a part, so comparing terminated parts is comparing parts. */
  lemma {:induction false} TerminatedOrder(a: Part, b: Part, s: seq<nat>, t: seq<nat>)
    ensures LexLess(a + ([0] + s), b + ([0] + t)) <==> LexLess(a, b) || (a == b && LexLess(s, t))
    decreases |a|
  {
    var x, y := a + ([0] + s), b + ([0] + t);
    if a == [] && b == [] {
      assert x == [0] + s && y == [0] + t && x[1..] == s && y[1..] == t;
    } else if a == [] {
      assert x[0] == 0 && y[0] == b[0];
    } else if b == [] {
      assert x[0] == a[0] && y[0] == 0;
    } else {
      assert x[0] == a[0] && y[0] == b[0] && x[1..] == a[1..] + ([0] + s) && y[1..] == b[1..] + ([0] + t);
      assert a == [a[0]] + a[1..] && b == [b[0]] + b[1..];
      TerminatedOrder(a[1..], b[1..], s, t);
    }
  }

  lemma {:induction false} FlatOrder(p: seq<Part>, q: seq<Part>)
    ensures LexLess(Flat(p), Flat(q)) <==> PartsLess(p, q)
    decreases |p|
  {
    if q != [] { assert |Flat(q)| > 0; }
    if p != [] && q != [] {
      TerminatedOrder(p[0], q[0], Flat(p[1..]), Flat(q[1..]));
      FlatOrder(p[1..], q[1..]);
      LexIrreflexive(p[0]);
    }
  }

  /** The byte order sorts by namespace first, and then part by part. */
  lemma LtIsPartOrder(a: KeyName, b: KeyName)
    ensures Lt(a, b) <==> NsByte(a.ns) < NsByte(b.ns) || (a.ns == b.ns && PartsLess(a.parts, b.parts))
  {
    var x := if a.parts == [] then [0] else Flat(a.parts);
    var y := if b.parts == [] then [0] else Flat(b.parts);
    if a.ns == b.ns {
      LexShift([NsByte(a.ns), 0], x, y);
      FlatOrder(a.parts, b.parts);
      if a.parts != [] { FlatEmptyPart(a.parts); }
      if b.parts != [] { FlatEmptyPart(b.parts); }
      RootOrder(a, b, x, y);
    } else {
      assert NsByte(a.ns) != NsByte(b.ns);
      assert Unescaped(a)[0] == NsByte(a.ns) && Unescaped(b)[0] == NsByte(b.ns);
    }
  }

  /** The namespaces sort in this order: cascading, meta, spec, proc, dir, user, system, default. */
  lemma NamespacesInOrder(a: KeyName, b: KeyName)
    requires a.ns != b.ns
    ensures Lt(a, b) <==>
      a.ns == Cascading || b.ns == Default || (a.ns == Meta && b.ns != Cascading) || (b.ns == System && a.ns != Default) ||
      (a.ns == Spec && b.ns != Cascading && b.ns != Meta) || (b.ns == User && a.ns != Default && a.ns != System) ||
      (a.ns == Proc && b.ns == Dir)
  {
    LtIsPartOrder(a, b);
  }

  /** The byte string of a root ends with one zero instead of a part; it still sorts first. */
  lemma RootOrder(a: KeyName, b: KeyName, x: seq<nat>, y: seq<nat>)
    requires x == if a.parts == [] then [0] else Flat(a.parts)
    requires y == if b.parts == [] then [0] else Flat(b.parts)
    ensures LexLess(x, y) <==> LexLess(Flat(a.parts), Flat(b.parts))
  {
    if a.parts != [] { FlatEmptyPart(a.parts); }
    if b.parts != [] { FlatEmptyPart(b.parts); }
    if a.parts == [] && b.parts == [] {
      LexIrreflexive([0]);
      LexIrreflexive(Flat([]));
    } else if a.parts == [] {
      LexZero(y);
    } else if b.parts == [] {
      var zero := [0];
      assert zero[1..] == [];
    }
  }

  /** Same namespace and the parts of `above` come first. */
  predicate Below(above: KeyName, below: KeyName) {
    above.ns == below.ns && above.parts <= below.parts
  }

  lemma BelowSortsAfter(above: KeyName, below: KeyName)
    requires Below(above, below)
    ensures Le(above, below)
  {
    if above != below {
      var a, b := Unescaped(above), Unescaped(below);
      if above.parts == [] {
        FlatEmptyPart(below.parts);
        assert a == [NsByte(above.ns), 0] + [0] && b == [NsByte(above.ns), 0] + Flat(below.parts);
        LexShift([NsByte(above.ns), 0], [0], Flat(below.parts));
        LexZero(Flat(below.parts));
      } else {
        FlatPrefix(above.parts, below.parts);
        UnescapedInjective(above, below);
        assert a < b;
        LexPrefix(a, b);
      }
    }
  }

  lemma {:induction false} LexShift(p: seq<nat>, a: seq<nat>, b: seq<nat>)
    ensures LexLess(p + a, p + b) <==> LexLess(a, b)
  {
    if p == [] {
      assert p + a == a && p + b == b;
    } else {
      assert (p + a)[1..] == p[1..] + a && (p + b)[1..] == p[1..] + b;
      LexShift(p[1..], a, b);
    }
  }

  lemma LexZero(t: seq<nat>)
    requires t != [] && t != [0]
    ensures LexLess([0], t)
  {
    if t[0] == 0 {
      assert t == [0] + t[1..];
      assert t[1..] != [];
    }
  }

  /** The descendants of a name follow it contiguously. */
  lemma Contiguous(above: KeyName, x: KeyName, below: KeyName)
    requires Below(above, below) && Le(above, x) && Le(x, below)
    ensures Below(above, x)
  {
    hide LexLess;
    if x != above && x != below {
      var a, b, c := Unescaped(above), Unescaped(x), Unescaped(below);
      LtTotal(above, x);
      LtTotal(x, below);
      LexBetween([NsByte(above.ns)], b, c) by {
        assert a[..1] == [NsByte(above.ns)] == c[..1];
        LexHead(b, a);
        LexHead(c, b);
      }
      assert b[0] == NsByte(above.ns);
      if above.parts != [] {
        FlatPrefix(above.parts, below.parts);
        assert a <= c;
        LexBetween(a, b, c);
        assert a[2..] == Flat(above.parts);
        FlatEmptyPart(above.parts);
        assert a[2..] <= b[2..];
        FlatPrefix(above.parts, x.parts);
      }
    }
  }

  /** Not sorting before a string means not sorting before its first byte. */
  lemma LexHead(x: seq<nat>, p: seq<nat>)
    requires p != [] && !LexLess(x, p)
    ensures !LexLess(x, [p[0]])
  {
    if x != [] && x[0] == p[0] { assert [p[0]][1..] == []; }
  }

  // ----- keyIsBelowOrSame

  /** What `keyIsBelowOrSame` decides: cascading names match every namespace, but the
      cascading root and another root are not below each other. */
  predicate BelowOrSame(above: KeyName, below: KeyName) {
    if (above.ns == Cascading) != (below.ns == Cascading)
    then above.parts <= below.parts && below.parts != []
    else Below(above, below)
  }

  /** The byte comparison, branch by branch. */
  function BelowOrSameBytes(above: seq<nat>, below: seq<nat>): bool
    requires |above| >= 3 && |below| >= 3
  {
    if (|above| == 3 && above[0] == 1 && |below| == 3 && below[0] != 1) ||
       (|below| == 3 && below[0] == 1 && |above| == 3 && above[0] != 1) then false
    else
      var a := if |above| == 3 then above[..2] else above;
      var b := if |below| == 3 then below[..2] else below;
      if (above[0] != 1 && below[0] == 1) || (below[0] != 1 && above[0] == 1)
      then a[1..] <= b[1..]
      else a <= b
  }

  lemma UnescapedShape(n: KeyName)
    ensures |Unescaped(n)| >= 3
    ensures |Unescaped(n)| == 3 <==> n.parts == []
    ensures Unescaped(n)[0] == NsByte(n.ns)
    ensures Unescaped(n)[1] == 0
  {
    if n.parts != [] {
      FlatEmptyPart(n.parts);
    }
  }

  lemma BelowOrSameBytesCorrect(above: KeyName, below: KeyName)
    requires |Unescaped(above)| >= 3 && |Unescaped(below)| >= 3
    ensures BelowOrSameBytes(Unescaped(above), Unescaped(below)) <==> BelowOrSame(above, below)
  {
    UnescapedShape(above);
    UnescapedShape(below);
    FlatPrefix(above.parts, below.parts);
    var u, v := Unescaped(above), Unescaped(below);
    var a := if |u| == 3 then u[..2] else u;
    var b := if |v| == 3 then v[..2] else v;
    assert a == [NsByte(above.ns), 0] + Flat(above.parts);
    assert b == [NsByte(below.ns), 0] + Flat(below.parts);
    assert a[2..] == Flat(above.parts) && b[2..] == Flat(below.parts);
    assert a <= b <==> above.ns == below.ns && a[2..] <= b[2..] by {
      if a <= b { assert a[0] == b[0] && a[2..] <= b[2..]; }
    }
    assert a[1..] <= b[1..] <==> a[2..] <= b[2..] by {
      assert a[1..][1..] == a[2..] && b[1..][1..] == b[2..];
    }
  }
}
