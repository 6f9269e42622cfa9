/** The specification token: which bytes are hashed for an application's KeySet, and that they can be
    read back. */
module SpecificationToken {
  import opened KeyNames
  import opened KeySets
  import opened Cutting
  import opened Changes
  import opened KeyTexts
  import opened Sha256Spec
  import opened Sha256Stream

  datatype MetaEntry = MetaEntry(name: Text, value: Text)
  datatype Entry = Entry(name: Text, meta: seq<MetaEntry>)

  /** Names of keys do not start with "meta:/", names of metadata do. */
  predicate ValidEntry(e: Entry) {
    NulFree(e.name) && !IsMetaName(e.name) && forall i | 0 <= i < |e.meta| :: ValidMeta(e.meta[i])
  }

  predicate ValidMeta(m: MetaEntry) {
    NulFree(m.name) && IsMetaName(m.name) && NulFree(m.value)
  }

  predicate ValidEntries(es: seq<Entry>) {
    forall i | 0 <= i < |es| :: ValidEntry(es[i])
  }

  // ----- the byte stream

  function MetaTokens(ms: seq<MetaEntry>): seq<Text> {
    if ms == [] then [] else [ms[0].name, ms[0].value] + MetaTokens(ms[1..])
  }

  function Tokens(es: seq<Entry>): seq<Text> {
    if es == [] then [] else [es[0].name] + MetaTokens(es[0].meta) + Tokens(es[1..])
  }

  /** Every string is fed with its terminator. */
  function Feed(ts: seq<Text>): seq<bv8> {
    if ts == [] then [] else ts[0] + ([0] + Feed(ts[1..]))
  }

  function Stream(es: seq<Entry>): seq<bv8> {
    Feed(Tokens(es))
  }

  // ----- reading it back

  lemma SameHead(a: Text, b: Text, s: seq<bv8>, t: seq<bv8>)
    requires NulFree(a) && NulFree(b) && a + ([0] + s) == b + ([0] + t)
    ensures a == b && s == t
  {
    var x, y := a + ([0] + s), b + ([0] + t);
    assert x[|a|] == 0 && y[|b|] == 0;
    assert forall i | 0 <= i < |a| :: x[i] == a[i];
    assert forall i | 0 <= i < |b| :: y[i] == b[i];
    assert |a| == |b|;
    assert x[|a| + 1..] == s && y[|b| + 1..] == t;
  }

  predicate AllNulFree(ts: seq<Text>) {
    forall i | 0 <= i < |ts| :: NulFree(ts[i])
  }

  lemma {:induction false} FeedInjective(ts: seq<Text>, us: seq<Text>)
    requires AllNulFree(ts) && AllNulFree(us) && Feed(ts) == Feed(us)
    ensures ts == us
  {
    hide NulFree;
    if ts != [] && us != [] {
      SameHead(ts[0], us[0], Feed(ts[1..]), Feed(us[1..]));
      FeedInjective(ts[1..], us[1..]);
      assert ts == [ts[0]] + ts[1..] && us == [us[0]] + us[1..];
    }
  }

  /** Metadata ends where the next token is not the name of metadata. */
  predicate EndsMeta(rest: seq<Text>) {
    rest == [] || !IsMetaName(rest[0])
  }

  lemma MetaTokensHead(ms: seq<MetaEntry>, r: seq<Text>)
    requires ms != []
    ensures var x := MetaTokens(ms) + r;
            |x| >= 2 && x[0] == ms[0].name && x[1] == ms[0].value && x[2..] == MetaTokens(ms[1..]) + r
  {
    PairHead(ms[0].name, ms[0].value, MetaTokens(ms[1..]), r);
  }

  lemma PairHead(a: Text, b: Text, c: seq<Text>, d: seq<Text>)
    ensures var x := [a, b] + c + d; x[0] == a && x[1] == b && x[2..] == c + d
  {
    assert [a, b] + c + d == [a, b] + (c + d);
  }

  lemma {:induction false} MetaTokensInjective(ms: seq<MetaEntry>, ns: seq<MetaEntry>, r: seq<Text>, s: seq<Text>)
    requires forall i | 0 <= i < |ms| :: IsMetaName(ms[i].name)
    requires forall i | 0 <= i < |ns| :: IsMetaName(ns[i].name)
    requires EndsMeta(r) && EndsMeta(s)
    requires MetaTokens(ms) + r == MetaTokens(ns) + s
    ensures ms == ns && r == s
    decreases |ms| + |ns|
  {
    hide IsMetaName;
    if ms != [] { MetaTokensHead(ms, r); }
    if ns != [] { MetaTokensHead(ns, s); }
    assert MetaTokens([]) + r == r && MetaTokens([]) + s == s;
    if ms != [] && ns != [] {
      MetaTokensInjective(ms[1..], ns[1..], r, s);
      assert ms == [ms[0]] + ms[1..] && ns == [ns[0]] + ns[1..];
    }
  }

  lemma TokensHead(es: seq<Entry>)
    requires es != []
    ensures var x := Tokens(es);
            |x| >= 1 && x[0] == es[0].name && x[1..] == MetaTokens(es[0].meta) + Tokens(es[1..])
  {
    var a, b := MetaTokens(es[0].meta), Tokens(es[1..]);
    assert [es[0].name] + a + b == [es[0].name] + (a + b);
  }

  lemma TokensEndMeta(es: seq<Entry>)
    requires ValidEntries(es)
    ensures EndsMeta(Tokens(es))
  {
    if es != [] { TokensHead(es); }
  }

  lemma {:induction false} TokensInjective(es: seq<Entry>, fs: seq<Entry>)
    requires ValidEntries(es) && ValidEntries(fs) && Tokens(es) == Tokens(fs)
    ensures es == fs
  {
    hide IsMetaName, NulFree;
    if es != [] { TokensHead(es); }
    if fs != [] { TokensHead(fs); }
    if es != [] && fs != [] {
      TokensEndMeta(es[1..]);
      TokensEndMeta(fs[1..]);
      assert ValidEntry(es[0]) && ValidEntry(fs[0]);
      MetaTokensInjective(es[0].meta, fs[0].meta, Tokens(es[1..]), Tokens(fs[1..]));
      TokensInjective(es[1..], fs[1..]);
      assert es == [es[0]] + es[1..] && fs == [fs[0]] + fs[1..];
    }
  }

  lemma {:induction false} MetaTokensNulFree(ms: seq<MetaEntry>)
    requires forall i | 0 <= i < |ms| :: ValidMeta(ms[i])
    ensures AllNulFree(MetaTokens(ms))
  {
    hide NulFree;
    if ms != [] {
      assert ValidMeta(ms[0]);
      MetaTokensNulFree(ms[1..]);
    }
  }

  lemma {:induction false} TokensNulFree(es: seq<Entry>)
    requires ValidEntries(es)
    ensures AllNulFree(Tokens(es))
  {
    hide NulFree;
    if es != [] {
      assert ValidEntry(es[0]);
      MetaTokensNulFree(es[0].meta);
      TokensNulFree(es[1..]);
    }
  }

  /** Equal streams come from equal names and metadata, in equal order. */
  lemma StreamDecodable(es: seq<Entry>, fs: seq<Entry>)
    requires ValidEntries(es) && ValidEntries(fs)
    ensures Stream(es) == Stream(fs) <==> es == fs
  {
    if Stream(es) == Stream(fs) {
      TokensNulFree(es);
      TokensNulFree(fs);
      FeedInjective(Tokens(es), Tokens(fs));
      TokensInjective(es, fs);
    }
  }

  // ----- calculateSpecificationToken

  /** The base name "#" marks an array parent. */
  predicate ArrayParent(k: Key) {
    k.name.parts != [] && k.name.parts[|k.name.parts| - 1] == [35]
  }

  function MetaOf(ms: seq<Key>): seq<MetaEntry> {
    seq(|ms|, i requires 0 <= i < |ms| => MetaEntry(NameText(ms[i].name), ValueText(ms[i])))
  }

  function EntryOf(k: Key): Entry {
    Entry(NameText(k.name), MetaOf(k.meta))
  }

  /** The entries for a sequence of keys: array parents are skipped, values are not looked at. */
  function EntriesOf(ks: seq<Key>): seq<Entry> {
    if ks == [] then []
    else
      var r := EntriesOf(ks[..|ks| - 1]);
      var k := ks[|ks| - 1];
      if ArrayParent(k) then r else r + [EntryOf(k)]
  }

  predicate PlainKeys(ks: seq<Key>) {
    forall i | 0 <= i < |ks| ::
      ks[i].name.ns != Meta && forall j | 0 <= j < |ks[i].meta| :: ks[i].meta[j].name.ns == Meta
  }

  lemma {:induction false} EntriesValid(ks: seq<Key>)
    requires PlainKeys(ks)
    ensures ValidEntries(EntriesOf(ks))
  {
    if ks != [] {
      EntriesValid(ks[..|ks| - 1]);
      var k := ks[|ks| - 1];
      assert [k][0] == ks[|ks| - 1];
      EntryValid(k);
    }
  }

  lemma EntryValid(k: Key)
    requires PlainKeys([k])
    ensures ValidEntry(EntryOf(k))
  {
    hide NulFree, IsMetaName, NameText, ValueText;
    assert [k][0] == k;
    var e := EntryOf(k);
    MetaNames(k.name);
    forall i | 0 <= i < |e.meta| ensures ValidMeta(e.meta[i]) {
      MetaNames(k.meta[i].name);
      ValueNulFree(k.meta[i]);
      assert e.meta[i] == MetaEntry(NameText(k.meta[i].name), ValueText(k.meta[i]));
    }
  }

  lemma {:induction false} FeedSnoc(ts: seq<Text>, t: Text)
    ensures Feed(ts + [t]) == Feed(ts) + t + [0]
  {
    if ts == [] {
      assert ts + [t] == [t];
    } else {
      assert (ts + [t])[1..] == ts[1..] + [t];
      FeedSnoc(ts[1..], t);
      Shift(ts[0], [0], Feed(ts[1..]), t);
    }
  }

  lemma Shift(a: seq<bv8>, b: seq<bv8>, c: seq<bv8>, d: seq<bv8>)
    ensures a + (b + (c + d + [0])) == a + (b + c) + d + [0]
  {
  }

  lemma {:induction false} MetaTokensSnoc(ms: seq<MetaEntry>, m: MetaEntry)
    ensures MetaTokens(ms + [m]) == MetaTokens(ms) + [m.name, m.value]
  {
    if ms == [] {
      assert ms + [m] == [m];
    } else {
      assert (ms + [m])[1..] == ms[1..] + [m];
      MetaTokensSnoc(ms[1..], m);
    }
  }

  lemma {:induction false} TokensSnoc(es: seq<Entry>, e: Entry)
    ensures Tokens(es + [e]) == Tokens(es) + [e.name] + MetaTokens(e.meta)
  {
    if es == [] {
      assert es + [e] == [e];
    } else {
      assert (es + [e])[1..] == es[1..] + [e];
      TokensSnoc(es[1..], e);
    }
  }

  method FeedText(context: Context, t: Text, ghost done: seq<Text>)
    requires context.Valid() && context.written == Feed(done)
    modifies context, context.chunk, context.h
    ensures context.Valid() && context.written == Feed(done + [t])
  {
    hide Feed;
    FeedSnoc(done, t);
    assert Feed(done) + (t + [0]) == Feed(done) + t + [0];
    context.Write(t + [0]);
  }

  /** Feed name and value of each metadata key. */
  method FeedMeta(context: Context, meta: seq<Key>, ghost done: seq<Text>)
    requires context.Valid() && context.written == Feed(done)
    modifies context, context.chunk, context.h
    ensures context.Valid() && context.written == Feed(done + MetaTokens(MetaOf(meta)))
  {
    hide Feed;
    ghost var ms := MetaOf(meta);
    assert done + MetaTokens(ms[..0]) == done;
    for i := 0 to |meta|
      invariant context.Valid() && context.written == Feed(done + MetaTokens(ms[..i]))
    {
      ghost var before := done + MetaTokens(ms[..i]);
      var name, value := NameText(meta[i].name), ValueText(meta[i]);
      FeedText(context, name, before);
      FeedText(context, value, before + [name]);
      OneMoreMeta(done, ms, i);
    }
    assert ms[..|meta|] == ms;
  }

  lemma OneMoreMeta(done: seq<Text>, ms: seq<MetaEntry>, i: nat)
    requires i < |ms|
    ensures done + MetaTokens(ms[..i]) + [ms[i].name] + [ms[i].value] == done + MetaTokens(ms[..i + 1])
  {
    assert ms[..i + 1] == ms[..i] + [ms[i]];
    MetaTokensSnoc(ms[..i], ms[i]);
  }

  /** Feed the name of a key and its metadata. */
  method FeedKey(context: Context, k: Key, ghost es: seq<Entry>)
    requires context.Valid() && context.written == Feed(Tokens(es))
    modifies context, context.chunk, context.h
    ensures context.Valid() && context.written == Feed(Tokens(es + [EntryOf(k)]))
  {
    hide Feed, Tokens;
    var name := NameText(k.name);
    FeedText(context, name, Tokens(es));
    FeedMeta(context, k.meta, Tokens(es) + [name]);
    TokensSnoc(es, EntryOf(k));
  }

  /** The digest (before its rendering in hexadecimal) of the keys at and below the parent. */
  method CalculateToken(ks: KeySet, parent: KeyName) returns (digest: seq<bv8>)
    ensures digest == Sha256(Stream(EntriesOf(Cut(ks, parent).taken)))
  {
    hide Sha256, Feed, MetaOf, Lt, Cut, NameText, UpToNul;
    var hash := new bv8[32];
    var context := new Context(hash);
    var cutKs := Cut(ks, parent).taken;
    assert Feed([]) == [] by { FeedNothing(); }
    for it := 0 to |cutKs|
      invariant context.Valid() && context.hash == hash
      invariant fresh(context) && fresh(context.chunk) && fresh(context.h) && fresh(hash)
      invariant context.written == Feed(Tokens(EntriesOf(cutKs[..it])))
    {
      ghost var es := EntriesOf(cutKs[..it]);
      assert cutKs[..it + 1][..it] == cutKs[..it];
      if !ArrayParent(cutKs[it]) {
        FeedKey(context, cutKs[it], es);
      }
    }
    assert cutKs[..|cutKs|] == cutKs;
    context.Close();
    digest := hash[..];
  }

  lemma FeedNothing()
    ensures Feed([]) == []
  {
  }

  // ----- what the token distinguishes

  /** What a specification says about one key: its name, and the names and values of its metadata. */
  datatype Specified = Specified(name: KeyName, meta: seq<SpecifiedMeta>)
  datatype SpecifiedMeta = SpecifiedMeta(name: KeyName, value: Text)

  function SpecifiedOf(k: Key): (s: Specified)
    ensures s.name == k.name && |s.meta| == |k.meta|
  {
    Specified(k.name, seq(|k.meta|, i requires 0 <= i < |k.meta| => SpecifiedMeta(k.meta[i].name, ValueText(k.meta[i]))))
  }

  /** The specification in a sequence of keys, array parents aside, in order. */
  function Specification(ks: seq<Key>): seq<Specified> {
    if ks == [] then []
    else
      var r := Specification(ks[..|ks| - 1]);
      if ArrayParent(ks[|ks| - 1]) then r else r + [SpecifiedOf(ks[|ks| - 1])]
  }

  /** The entry that is fed for a key. */
  function Spelled(s: Specified): Entry {
    Entry(NameText(s.name), seq(|s.meta|, i requires 0 <= i < |s.meta| => MetaEntry(NameText(s.meta[i].name), s.meta[i].value)))
  }

  lemma SpelledInjective(s: Specified, t: Specified)
    requires Spelled(s) == Spelled(t)
    ensures s == t
  {
    hide NameText;
    NameTextInjective(s.name, t.name);
    assert |s.meta| == |Spelled(s).meta| == |t.meta|;
    forall i | 0 <= i < |s.meta| ensures s.meta[i] == t.meta[i] {
      assert Spelled(s).meta[i] == Spelled(t).meta[i];
      NameTextInjective(s.meta[i].name, t.meta[i].name);
    }
  }

  lemma EntryIsSpelled(k: Key)
    ensures EntryOf(k) == Spelled(SpecifiedOf(k))
  {
    hide NameText, ValueText;
  }

  lemma {:induction false} EntriesAreSpelled(ks: seq<Key>)
    ensures |EntriesOf(ks)| == |Specification(ks)|
    ensures forall i | 0 <= i < |Specification(ks)| :: EntriesOf(ks)[i] == Spelled(Specification(ks)[i])
  {
    hide Spelled, EntryOf, SpecifiedOf;
    if ks != [] {
      EntriesAreSpelled(ks[..|ks| - 1]);
      EntryIsSpelled(ks[|ks| - 1]);
    }
  }

  lemma {:induction false} EntriesTellSpecification(a: seq<Key>, b: seq<Key>)
    ensures EntriesOf(a) == EntriesOf(b) <==> Specification(a) == Specification(b)
  {
    hide Spelled, EntriesOf, Specification;
    EntriesAreSpelled(a);
    EntriesAreSpelled(b);
    if EntriesOf(a) == EntriesOf(b) {
      forall i | 0 <= i < |Specification(a)| ensures Specification(a)[i] == Specification(b)[i] {
        SpelledInjective(Specification(a)[i], Specification(b)[i]);
      }
    }
  }

  /** What is specified: the keys whose base name is not "#", with their names and metadata. */
  lemma {:induction false} SpecifiedExactly(ks: seq<Key>, s: Specified)
    ensures s in Specification(ks) <==>
      exists k | k in ks && s == SpecifiedOf(k) :: k.name.parts == [] || k.name.parts[|k.name.parts| - 1] != [35]
  {
    hide SpecifiedOf;
    if ks != [] {
      var last := |ks| - 1;
      assert ks == ks[..last] + [ks[last]];
      SpecifiedExactly(ks[..last], s);
    }
  }

  /** A key whose base name is not "#" counts: without a key of its name the stream is another one. */
  lemma MissingKeyTells(a: KeySet, b: KeySet, parent: KeyName, k: Key)
    requires PlainKeys(Cut(a, parent).taken) && PlainKeys(Cut(b, parent).taken)
    requires k in Cut(a, parent).taken && (k.name.parts == [] || k.name.parts[|k.name.parts| - 1] != [35])
    requires forall other | other in Cut(b, parent).taken :: other.name != k.name
    ensures Stream(EntriesOf(Cut(a, parent).taken)) != Stream(EntriesOf(Cut(b, parent).taken))
  {
    hide Stream, EntriesOf, Specification, Cut, PlainKeys;
    TokenDistinguishes(a, b, parent);
    SpecifiedExactly(Cut(a, parent).taken, SpecifiedOf(k));
    SpecifiedExactly(Cut(b, parent).taken, SpecifiedOf(k));
  }

  /** A key whose base name is "#" does not count. */
  lemma {:induction false} ArrayParentSkipped(x: seq<Key>, k: Key, y: seq<Key>)
    requires k.name.parts != [] && k.name.parts[|k.name.parts| - 1] == [35]
    ensures EntriesOf(x + [k] + y) == EntriesOf(x + y)
  {
    hide EntryOf;
    if y == [] {
      assert x + [k] + y == x + [k] && (x + [k])[..|x|] == x && x + y == x;
    } else {
      var last := |y| - 1;
      ArrayParentSkipped(x, k, y[..last]);
      var s, t := x + [k] + y, x + y;
      assert s[..|s| - 1] == x + [k] + y[..last] && s[|s| - 1] == y[last];
      assert t[..|t| - 1] == x + y[..last] && t[|t| - 1] == y[last];
    }
  }

  /** Two KeySets feed the hash the same bytes exactly when the key names and the metadata below the parent,
      array parents aside, are the same in the same order. */
  lemma TokenDistinguishes(a: KeySet, b: KeySet, parent: KeyName)
    requires PlainKeys(Cut(a, parent).taken) && PlainKeys(Cut(b, parent).taken)
    ensures Stream(EntriesOf(Cut(a, parent).taken)) == Stream(EntriesOf(Cut(b, parent).taken))
            <==> Specification(Cut(a, parent).taken) == Specification(Cut(b, parent).taken)
  {
    hide Stream, EntriesOf, Specification, Cut;
    var x, y := Cut(a, parent).taken, Cut(b, parent).taken;
    EntriesValid(x);
    EntriesValid(y);
    StreamDecodable(EntriesOf(x), EntriesOf(y));
    EntriesTellSpecification(x, y);
  }

  /** With a namespace in the parent, and not the meta namespace, the keys are always such. */
  lemma PlainBelowParent(ks: KeySet, parent: KeyName)
    requires parent.ns != Meta && parent.ns != Cascading && ValidKeys(ks)
    ensures PlainKeys(Cut(ks, parent).taken)
  {
    hide Lt, Cut;
    var t := Cut(ks, parent).taken;
    forall i | 0 <= i < |t|
      ensures t[i].name.ns != Meta && forall j | 0 <= j < |t[i].meta| :: t[i].meta[j].name.ns == Meta
    {
      GetAt(t, i);
      assert Splits(ks, Cut(ks, parent), t[i].name);
      CutExact(ks, parent, t[i].name);
      GetIn(ks, t[i].name);
      assert ValidKey(t[i]);
    }
  }
}
