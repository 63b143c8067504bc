// Context packs: canonical construction, stored metadata, and the chain of packs of
// a task under rework (src/factory/domain/context.py, orchestration/context.py).
module Context {
  import opened Models

  datatype Json =
    | JNull
    | JBool(flag: bool)
    | JInt(number: int)
    | JReal(value: real)
    | JString(text: string)
    | JArray(items: seq<Json>)
    | JObject(fields: map<string, Json>)

  // SHA-256 of a text as a hexadecimal string, and the sorted-key JSON text of a
  // value. Both are taken as injective, and a digest is never empty.
  datatype Hash = Hash(digest: string -> string, dump: Json -> string) {
    ghost predicate Faithful() {
      && (forall a, b :: digest(a) == digest(b) ==> a == b)
      && (forall a, b :: dump(a) == dump(b) ==> a == b)
      && (forall a :: digest(a) != "")
    }
  }

  type Key = (string, string, string)

  datatype Fragment = Fragment(
    source: string, kind: string, id: string, version: string, contentRef: string, content: string)
  {
    function Key(): Key { (source, kind, id) }

    // Equality of fragments leaves the content out.
    predicate Same(f: Fragment) { this == f.(content := content) }

    predicate ContentMatches(h: Hash) { content != "" && h.digest(content) == contentRef }
  }

  datatype Pack = Pack(
    version: int, budget: int, fragments: seq<Fragment>, sha: string, base: Option<string>)

  // -- the order of keys ------------------------------------------------------------

  // Code point order of strings, and of tuples of strings.
  predicate StringBefore(a: string, b: string)
    decreases |a|
  {
    b != ""
    && (a == "" || a[0] < b[0] || (a[0] == b[0] && StringBefore(a[1..], b[1..])))
  }

  predicate Before(a: Key, b: Key) {
    || StringBefore(a.0, b.0)
    || (a.0 == b.0 && StringBefore(a.1, b.1))
    || (a.0 == b.0 && a.1 == b.1 && StringBefore(a.2, b.2))
  }

  lemma {:induction false} StringOrder(a: string, b: string)
    ensures !(StringBefore(a, b) && StringBefore(b, a))
    ensures a == b || StringBefore(a, b) || StringBefore(b, a)
    ensures !StringBefore(a, a)
    decreases |a|
  {
    if a != "" && b != "" {
      StringOrder(a[1..], b[1..]);
      StringOrder(a[1..], a[1..]);
      if a[0] == b[0] && a[1..] == b[1..] {
        assert a == [a[0]] + a[1..] && b == [b[0]] + b[1..];
      }
    } else if a != "" {
      StringOrder(a[1..], a[1..]);
    }
  }

  lemma {:induction false} StringTransitive(a: string, b: string, c: string)
    requires StringBefore(a, b) && StringBefore(b, c)
    ensures StringBefore(a, c)
    decreases |a|
  {
    if a != "" && a[0] == b[0] == c[0] { StringTransitive(a[1..], b[1..], c[1..]); }
  }

  lemma KeyOrder(a: Key, b: Key)
    ensures !(Before(a, b) && Before(b, a))
    ensures a == b || Before(a, b) || Before(b, a)
    ensures !Before(a, a)
  {
    StringOrder(a.0, b.0);
    StringOrder(a.1, b.1);
    StringOrder(a.2, b.2);
    StringOrder(a.0, a.0);
    StringOrder(a.1, a.1);
    StringOrder(a.2, a.2);
  }

  lemma KeyTransitive(a: Key, b: Key, c: Key)
    requires Before(a, b) && Before(b, c)
    ensures Before(a, c)
  {
    hide StringBefore;
    if StringBefore(a.0, b.0) && StringBefore(b.0, c.0) { StringTransitive(a.0, b.0, c.0); }
    if StringBefore(a.1, b.1) && StringBefore(b.1, c.1) { StringTransitive(a.1, b.1, c.1); }
    if StringBefore(a.2, b.2) && StringBefore(b.2, c.2) { StringTransitive(a.2, b.2, c.2); }
  }

  // -- canonical form --------------------------------------------------------------

  function Elements(fs: seq<Fragment>): set<Fragment> { set f | f in fs }

  ghost predicate Ascending(keys: seq<Key>) {
    forall i, j :: 0 <= i < j < |keys| ==> Before(keys[i], keys[j])
  }

  function Keys(fs: seq<Fragment>): seq<Key> { seq(|fs|, i requires 0 <= i < |fs| => fs[i].Key()) }

  // The same fragments, each once, strictly ascending by key.
  ghost predicate IsCanonical(ordered: seq<Fragment>, fs: seq<Fragment>) {
    Ascending(Keys(ordered)) && Elements(ordered) == Elements(fs)
  }

  function TotalLength(fs: seq<Fragment>): nat {
    if fs == [] then 0 else TotalLength(fs[..|fs| - 1]) + |fs[|fs| - 1].content|
  }

  // Two strictly ascending sequences of the same elements are the same sequence.
  lemma {:induction false} CanonicalUnique(a: seq<Fragment>, b: seq<Fragment>)
    requires Ascending(Keys(a)) && Ascending(Keys(b)) && Elements(a) == Elements(b)
    ensures a == b
    decreases |a|
  {
    NoElements(a);
    NoElements(b);
    if a != [] {
      LeastFirst(a, b);
      LeastFirst(b, a);
      Rest(a);
      Rest(b);
      assert a[0] == b[0] by {
        KeyOrder(a[0].Key(), b[0].Key());
      }
      CanonicalUnique(a[1..], b[1..]);
      assert a == [a[0]] + a[1..] && b == [b[0]] + b[1..];
    }
  }

  lemma NoElements(fs: seq<Fragment>)
    ensures Elements(fs) == {} <==> fs == []
  {
    if fs != [] { assert fs[0] in Elements(fs); }
  }

  lemma LeastFirst(a: seq<Fragment>, b: seq<Fragment>)
    requires Ascending(Keys(a)) && Elements(a) == Elements(b) && a != [] && b != []
    ensures a[0] == b[0] || Before(a[0].Key(), b[0].Key())
  {
    assert b[0] in Elements(b);
    var i :| 0 <= i < |a| && a[i] == b[0];
    assert Keys(a)[0] == a[0].Key() && Keys(a)[i] == a[i].Key();
  }

  lemma Rest(a: seq<Fragment>)
    requires Ascending(Keys(a)) && a != []
    ensures Ascending(Keys(a[1..])) && Elements(a[1..]) == Elements(a) - {a[0]}
  {
    assert forall i :: 0 <= i < |a| - 1 ==> Keys(a[1..])[i] == Keys(a)[i + 1];
    KeyOrder(a[0].Key(), a[0].Key());
    forall f | f in Elements(a) - {a[0]}
      ensures f in Elements(a[1..])
    {
      var i :| 0 <= i < |a| && a[i] == f;
      assert a[1..][i - 1] == f;
    }
    forall f | f in Elements(a[1..])
      ensures f in Elements(a) - {a[0]}
    {
      var i :| 0 <= i < |a[1..]| && a[1..][i] == f;
      assert Keys(a)[0] == a[0].Key() && Keys(a)[i + 1] == f.Key();
    }
  }

  // -- building a pack ------------------------------------------------------------------

  datatype BuildError = InvalidBudget | InvalidContent | Conflicting | MissingOrOverBudget

  predicate AllMatch(h: Hash, fs: seq<Fragment>) {
    forall f :: f in fs ==> f.ContentMatches(h)
  }

  predicate NoConflict(fs: seq<Fragment>) {
    forall f, g :: f in fs && g in fs && f.Key() == g.Key() ==> f.Same(g)
  }

  // With matching content, fragments that agree on the identity agree altogether.
  lemma SameIsEqual(h: Hash, f: Fragment, g: Fragment)
    requires h.Faithful() && f.ContentMatches(h) && g.ContentMatches(h) && f.Same(g)
    ensures f == g
  {
  }

  function FragmentJson(f: Fragment): Json {
    JObject(map[
      "source" := JString(f.source), "type" := JString(f.kind), "id" := JString(f.id),
      "version" := JString(f.version), "content_ref" := JString(f.contentRef)])
  }

  function FragmentsJson(fs: seq<Fragment>): Json {
    JArray(seq(|fs|, i requires 0 <= i < |fs| => FragmentJson(fs[i])))
  }

  function BaseJson(base: Option<string>): Json {
    match base case None => JNull case Some(sha) => JString(sha)
  }

  // The four fields that are hashed.
  function HashedJson(version: Json, budget: Json, fragments: Json, base: Json): Json {
    JObject(map["version" := version, "budget" := budget, "fragments" := fragments, "base_sha256" := base])
  }

  function PackSha(h: Hash, budget: int, fragments: seq<Fragment>, base: Option<string>): string {
    h.digest(h.dump(HashedJson(JInt(1), JInt(budget), FragmentsJson(fragments), BaseJson(base))))
  }

  // What building a pack from these fragments means.
  ghost predicate Builds(h: Hash, fs: seq<Fragment>, budget: int, base: Option<string>, p: Pack) {
    && budget >= 1
    && AllMatch(h, fs)
    && NoConflict(fs)
    && IsCanonical(p.fragments, fs)
    && p.fragments != []
    && TotalLength(p.fragments) <= budget
    && p == Pack(1, budget, p.fragments, PackSha(h, budget, p.fragments, base), base)
  }

  // The pack depends on the set of fragments alone: not on their order, nor on how
  // often each is given.
  lemma OrderAndRepetitionIrrelevant(h: Hash, a: seq<Fragment>, b: seq<Fragment>, budget: int,
                                     base: Option<string>, p: Pack, q: Pack)
    requires Elements(a) == Elements(b)
    requires Builds(h, a, budget, base, p)
    ensures Builds(h, b, budget, base, p)
    ensures Builds(h, b, budget, base, q) ==> q == p
  {
    assert forall f :: f in a <==> f in Elements(a);
    assert forall f :: f in b <==> f in Elements(b);
    if Builds(h, b, budget, base, q) { CanonicalUnique(p.fragments, q.fragments); }
  }

  // Keys taken from a set one after the other, each put in its place.
  method SortedKeys(keys: set<Key>) returns (sorted: seq<Key>)
    ensures Ascending(sorted)
    ensures forall k :: k in sorted <==> k in keys
  {
    var left := keys;
    sorted := [];
    while left != {}
      invariant left <= keys && Ascending(sorted)
      invariant forall k :: k in sorted <==> k in keys - left
      decreases |left|
    {
      var k :| k in left;
      ghost var before := sorted;
      sorted := Insert(sorted, k);
      left := left - {k};
    }
  }

  method Insert(sorted: seq<Key>, k: Key) returns (longer: seq<Key>)
    requires Ascending(sorted) && k !in sorted
    ensures Ascending(longer)
    ensures forall j :: j in longer <==> j in sorted || j == k
  {
    hide Before;
    var i := 0;
    while i < |sorted| && Before(sorted[i], k)
      invariant i <= |sorted|
      invariant forall j :: 0 <= j < i ==> Before(sorted[j], k)
    {
      i := i + 1;
    }
    if i < |sorted| {
      assert sorted[i] in sorted;
      KeyOrder(sorted[i], k);
      forall j | i < j < |sorted|
        ensures Before(k, sorted[j])
      {
        KeyTransitive(k, sorted[i], sorted[j]);
      }
    }
    longer := sorted[..i] + [k] + sorted[i..];
    assert forall j :: j in longer ==> j in sorted || j == k;
    assert forall j :: 0 <= j < i ==> longer[j] == sorted[j];
    assert longer[i] == k;
    assert forall j :: i <= j < |sorted| ==> longer[j + 1] == sorted[j];
  }

  // domain.context.build_pack: a dictionary filled in order, its keys sorted.
  method BuildPack(h: Hash, fs: seq<Fragment>, budget: int, base: Option<string>)
    returns (r: Result<Pack, BuildError>)
    requires h.Faithful()
    ensures r.Ok? ==> Builds(h, fs, budget, base, r.value)
    ensures r.Err? ==> forall p :: !Builds(h, fs, budget, base, p)
    ensures r == Err(InvalidBudget) <==> budget < 1
    ensures r == Err(InvalidContent) ==> !AllMatch(h, fs)
    ensures r == Err(Conflicting) ==> !NoConflict(fs)
    ensures r == Err(MissingOrOverBudget) ==> AllMatch(h, fs) && NoConflict(fs)
  {
    if budget < 1 { return Err(InvalidBudget); }
    var unique: map<Key, Fragment> := map[];
    for i := 0 to |fs|
      invariant forall f :: f in fs[..i] ==> f.ContentMatches(h) && f.Key() in unique && unique[f.Key()] == f
      invariant forall k :: k in unique ==> unique[k] in fs[..i] && unique[k].Key() == k
    {
      var f := fs[i];
      assert f in fs && fs[..i + 1] == fs[..i] + [f];
      if !f.ContentMatches(h) { return Err(InvalidContent); }
      if f.Key() in unique && !unique[f.Key()].Same(f) {
        assert unique[f.Key()] in fs;
        return Err(Conflicting);
      }
      if f.Key() in unique { SameIsEqual(h, unique[f.Key()], f); }
      unique := unique[f.Key() := f];
    }
    assert fs[..|fs|] == fs;
    var keys := SortedKeys(unique.Keys);
    var ordered := seq(|keys|, i requires 0 <= i < |keys| && keys[i] in unique => unique[keys[i]]);
    OrderedIsCanonical(fs, unique, keys, ordered);
    var total := Length(ordered);
    if ordered == [] || total > budget {
      forall p | Builds(h, fs, budget, base, p)
        ensures false
      {
        CanonicalUnique(p.fragments, ordered);
      }
      return Err(MissingOrOverBudget);
    }
    return Ok(Pack(1, budget, ordered, PackSha(h, budget, ordered, base), base));
  }

  method Length(fs: seq<Fragment>) returns (total: nat)
    ensures total == TotalLength(fs)
  {
    total := 0;
    for i := 0 to |fs|
      invariant total == TotalLength(fs[..i])
    {
      assert fs[..i + 1][..i] == fs[..i];
      total := total + |fs[i].content|;
    }
    assert fs[..|fs|] == fs;
  }

  lemma OrderedIsCanonical(fs: seq<Fragment>, unique: map<Key, Fragment>, keys: seq<Key>,
                           ordered: seq<Fragment>)
    requires forall f :: f in fs ==> f.Key() in unique && unique[f.Key()] == f
    requires forall k :: k in unique ==> unique[k] in fs && unique[k].Key() == k
    requires Ascending(keys) && forall k :: k in keys <==> k in unique
    requires |ordered| == |keys| && forall i :: 0 <= i < |keys| ==> keys[i] in unique && ordered[i] == unique[keys[i]]
    ensures IsCanonical(ordered, fs)
    ensures NoConflict(fs)
  {
    assert Keys(ordered) == keys;
    forall f | f in fs
      ensures f in ordered
    {
      var i :| 0 <= i < |keys| && keys[i] == f.Key();
      assert ordered[i] == f;
    }
  }

  // -- stored metadata ---------------------------------------------------------------------

  function Metadata(p: Pack): Json {
    JObject(map[
      "version" := JInt(p.version), "budget" := JInt(p.budget),
      "fragments" := FragmentsJson(p.fragments), "sha256" := JString(p.sha),
      "base_sha256" := BaseJson(p.base)])
  }

  // A pack as read back: the values are those of the document, unchecked beyond what
  // the parser checks, and contents are gone.
  datatype Stored = Stored(budget: Json, fragments: seq<Json>, sha: string, base: Json)

  // Python's comparison with 1.
  predicate EqualsOne(j: Json) { j == JInt(1) || j == JBool(true) || j == JReal(1.0) }

  // What a for-loop over the value yields; texts and objects yield their characters
  // and names, none of which is an object.
  function Iterated(j: Json): Option<seq<Json>> {
    match j
    case JArray(items) => Some(items)
    case JObject(fields) => if fields == map[] then Some([]) else None
    case JString(text) => if text == "" then Some([]) else None
    case _ => None
  }

  predicate Truthy(j: Json) {
    match j
    case JNull => false
    case JBool(b) => b
    case JInt(n) => n != 0
    case JReal(x) => x != 0.0
    case JString(s) => s != ""
    case JArray(a) => a != []
    case JObject(o) => o != map[]
  }

  const REQUIRED: set<string> := {"source", "type", "id", "version", "content_ref"}

  // ContextFragment(**item): exactly its fields, content optional, none of the five empty.
  predicate IsFragment(j: Json) {
    && j.JObject?
    && REQUIRED <= j.fields.Keys <= REQUIRED + {"content"}
    && forall k :: k in REQUIRED ==> Truthy(j.fields[k])
  }

  // domain.context.pack_from_metadata on the parsed document.
  function ParsePack(h: Hash, data: Json): Option<Stored> {
    if !data.JObject?
       || data.fields.Keys != {"version", "budget", "fragments", "sha256", "base_sha256"}
       || !EqualsOne(data.fields["version"])
    then None
    else
      var d := data.fields;
      match Iterated(d["fragments"])
      case None => None
      case Some(items) =>
        if exists j :: j in items && !IsFragment(j) then None
        else
          var digest :=
            h.digest(h.dump(HashedJson(d["version"], d["budget"], d["fragments"], d["base_sha256"])));
          if d["sha256"] != JString(digest) then None
          else Some(Stored(d["budget"], items, digest, d["base_sha256"]))
  }

  function View(p: Pack): Stored {
    Stored(JInt(p.budget), FragmentsJson(p.fragments).items, p.sha, BaseJson(p.base))
  }

  predicate Complete(f: Fragment) {
    f.source != "" && f.kind != "" && f.id != "" && f.version != "" && f.contentRef != ""
  }

  // A built pack's metadata reads back as that pack, contents aside.
  lemma MetadataRoundTrip(h: Hash, fs: seq<Fragment>, budget: int, base: Option<string>, p: Pack)
    requires Builds(h, fs, budget, base, p) && forall f :: f in fs ==> Complete(f)
    ensures ParsePack(h, Metadata(p)) == Some(View(p))
  {
    var items := FragmentsJson(p.fragments).items;
    forall j | j in items
      ensures IsFragment(j)
    {
      var i :| 0 <= i < |items| && items[i] == j;
      assert p.fragments[i] in Elements(p.fragments);
      assert p.fragments[i] in Elements(fs);
      CompleteIsFragment(p.fragments[i]);
    }
    hide IsCanonical, AllMatch, NoConflict, IsFragment, FragmentsJson, TotalLength, HashedJson;
    var d := Metadata(p).fields;
    assert d.Keys == {"version", "budget", "fragments", "sha256", "base_sha256"};
    assert d["version"] == JInt(1) && d["budget"] == JInt(p.budget) && d["sha256"] == JString(p.sha);
    assert d["fragments"] == JArray(items) && d["base_sha256"] == BaseJson(p.base);
  }

  lemma CompleteIsFragment(f: Fragment)
    requires Complete(f)
    ensures IsFragment(FragmentJson(f))
  {
    assert FragmentJson(f).fields.Keys == REQUIRED;
  }

  // Nothing but the identity of the content is lost.
  lemma ViewIdentifies(p: Pack, q: Pack)
    requires View(p) == View(q)
    ensures p.budget == q.budget && p.sha == q.sha && p.base == q.base
    ensures |p.fragments| == |q.fragments|
    ensures forall i :: 0 <= i < |p.fragments| ==> p.fragments[i].Same(q.fragments[i])
  {
    assert p.base == q.base by { assert BaseJson(p.base) == BaseJson(q.base); }
    var x, y := FragmentsJson(p.fragments).items, FragmentsJson(q.fragments).items;
    assert x == y && |x| == |p.fragments| && |y| == |q.fragments|;
    forall i | 0 <= i < |p.fragments|
      ensures p.fragments[i].Same(q.fragments[i])
    {
      assert x[i] == FragmentJson(p.fragments[i]) && y[i] == FragmentJson(q.fragments[i]);
      FragmentJsonInjective(p.fragments[i], q.fragments[i]);
    }
  }

  lemma FragmentJsonInjective(f: Fragment, g: Fragment)
    requires FragmentJson(f) == FragmentJson(g)
    ensures f.Same(g)
  {
    var a, b := FragmentJson(f).fields, FragmentJson(g).fields;
    assert a["source"] == b["source"] && a["type"] == b["type"] && a["id"] == b["id"];
    assert a["version"] == b["version"] && a["content_ref"] == b["content_ref"];
  }

  // A document that still carries a pack's digest and is accepted is that pack's
  // metadata to the letter: any change to the four hashed fields is rejected, even
  // one that Python would compare equal.
  lemma TamperRejected(h: Hash, p: Pack, data: Json)
    requires h.Faithful()
    requires p.version == 1 && p.sha == PackSha(h, p.budget, p.fragments, p.base)
    requires data.JObject? && "sha256" in data.fields && data.fields["sha256"] == JString(p.sha)
    ensures ParsePack(h, data).Some? ==> data == Metadata(p)
  {
    if ParsePack(h, data).Some? {
      var d := data.fields;
      SameHashed(h, d["version"], d["budget"], d["fragments"], d["base_sha256"],
                 JInt(1), JInt(p.budget), FragmentsJson(p.fragments), BaseJson(p.base));
      assert d == Metadata(p).fields;
    }
  }

  lemma SameHashed(h: Hash, v: Json, b: Json, f: Json, s: Json, v': Json, b': Json, f': Json, s': Json)
    requires h.Faithful()
    requires h.digest(h.dump(HashedJson(v, b, f, s))) == h.digest(h.dump(HashedJson(v', b', f', s')))
    ensures v == v' && b == b' && f == f' && s == s'
  {
    var x, y := HashedJson(v, b, f, s), HashedJson(v', b', f', s');
    assert h.dump(x) == h.dump(y);
    assert x.fields["version"] == y.fields["version"] && x.fields["budget"] == y.fields["budget"];
    assert x.fields["fragments"] == y.fields["fragments"];
    assert x.fields["base_sha256"] == y.fields["base_sha256"];
  }

  // -- the chain of packs under rework --------------------------------------------------

  // previous.base_sha256 or previous.sha256
  function Root(p: Pack): string {
    if p.base.Some? && p.base.value != "" then p.base.value else p.sha
  }

  function FeedbackFragment(h: Hash, previous: Pack, feedback: string): Fragment {
    var text := "QA feedback for this rework:\n" + feedback;
    Fragment("factory", "feedback", previous.sha, "1", h.digest(text), text)
  }

  // What a rework build from these sources means.
  ghost predicate Reworks(h: Hash, fs: seq<Fragment>, budget: int, feedback: string, previous: Pack,
                          p: Pack)
  {
    && (exists b :: Builds(h, fs, budget, None, b) && b.sha == Root(previous))
    && Builds(h, fs + [FeedbackFragment(h, previous, feedback)], budget, Some(Root(previous)), p)
  }

  datatype ChainError = Unavailable | HistoryMissing | HistoryChanged | InvalidOrOverBudget

  // The digest a chain began with, as the pack before shows it.
  ghost function FirstSha(p: Pack): string {
    match p.base case Some(sha) => if sha == "" then p.sha else sha case None => p.sha
  }

  // ContextPackBuilder.build; `sources` is what each source supplies, in order, with
  // whether it is required, or None when one of them raises.
  method Build(h: Hash, sources: Option<seq<(seq<Fragment>, bool)>>, budget: int,
               feedback: Option<string>, previous: Option<Pack>)
    returns (r: Result<Pack, ChainError>)
    requires h.Faithful()
    ensures r.Ok? ==>
              && sources.Some?
              && (forall s :: s in sources.value ==> s.0 != [] || !s.1)
              && (feedback.None? ==>
                    Builds(h, Supplied(sources.value), budget,
                           if previous.Some? then Some(Root(previous.value)) else None, r.value))
              && (feedback.Some? ==>
                    previous.Some?
                    && Reworks(h, Supplied(sources.value), budget, feedback.value, previous.value, r.value))
    ensures r.Err? && sources.Some? && (forall s :: s in sources.value ==> s.0 != [] || !s.1)
            && feedback.Some? && previous.Some? ==>
              forall p :: !Reworks(h, Supplied(sources.value), budget, feedback.value, previous.value, p)
    ensures r.Err? && sources.Some? && (forall s :: s in sources.value ==> s.0 != [] || !s.1)
            && feedback.None? ==>
              var base := if previous.Some? then Some(FirstSha(previous.value)) else None;
              forall p :: !Builds(h, Supplied(sources.value), budget, base, p)
    ensures r.Ok? ==> r.value.base == if previous.None? then None else Some(FirstSha(previous.value))
    ensures r.Ok? && feedback.Some? ==>
              var text := "QA feedback for this rework:\n" + feedback.value;
              var note := Fragment("factory", "feedback", previous.value.sha, "1", h.digest(text), text);
              Elements(r.value.fragments) == Elements(Supplied(sources.value)) + {note}
    ensures r.Ok? && feedback.None? ==> Elements(r.value.fragments) == Elements(Supplied(sources.value))
    ensures r == Err(Unavailable) <==>
              sources.None? || exists s :: s in sources.value && s.0 == [] && s.1
    ensures r == Err(HistoryMissing) <==>
              && sources.Some? && (forall s :: s in sources.value ==> s.0 != [] || !s.1)
              && feedback.Some? && previous.None?
    ensures r == Err(HistoryChanged) ==>
              && feedback.Some? && previous.Some?
              && exists b :: Builds(h, Supplied(sources.value), budget, None, b)
                             && b.sha != FirstSha(previous.value)
  {
    if sources.None? { return Err(Unavailable); }
    var fs: seq<Fragment> := [];
    for i := 0 to |sources.value|
      invariant fs == Supplied(sources.value[..i])
      invariant forall s :: s in sources.value[..i] ==> s.0 != [] || !s.1
    {
      var s := sources.value[i];
      assert s in sources.value;
      if s.0 == [] && s.1 { return Err(Unavailable); }
      fs := fs + s.0;
      assert sources.value[..i + 1][..i] == sources.value[..i];
    }
    assert sources.value[..|sources.value|] == sources.value;
    if feedback.Some? {
      if previous.None? { return Err(HistoryMissing); }
      var base := BuildPack(h, fs, budget, None);
      if base.Err? { return Err(InvalidOrOverBudget); }
      if base.value.sha != Root(previous.value) {
        forall b | Builds(h, fs, budget, None, b)
          ensures b == base.value
        {
          OrderAndRepetitionIrrelevant(h, fs, fs, budget, None, base.value, b);
        }
        return Err(HistoryChanged);
      }
      AddOne(fs, FeedbackFragment(h, previous.value, feedback.value));
      fs := fs + [FeedbackFragment(h, previous.value, feedback.value)];
    }
    var pack := BuildPack(h, fs, budget, if previous.Some? then Some(Root(previous.value)) else None);
    if pack.Err? { return Err(InvalidOrOverBudget); }
    return Ok(pack.value);
  }

  function Supplied(sources: seq<(seq<Fragment>, bool)>): seq<Fragment> {
    if sources == [] then []
    else Supplied(sources[..|sources| - 1]) + sources[|sources| - 1].0
  }

  // Everything that some source supplies, and nothing else.
  lemma {:induction false} SuppliedIsAll(sources: seq<(seq<Fragment>, bool)>, f: Fragment)
    ensures f in Supplied(sources) <==> exists s :: s in sources && f in s.0
  {
    if sources != [] {
      var last := sources[|sources| - 1];
      SuppliedIsAll(sources[..|sources| - 1], f);
      assert sources == sources[..|sources| - 1] + [last];
    }
  }

  // One rework after another: what each was built from, and the pack it yielded.
  datatype Link = Link(sources: seq<Fragment>, budget: int, feedback: string, pack: Pack)

  ghost predicate Chain(h: Hash, first: Pack, links: seq<Link>) {
    links == []
    || (var last := links[|links| - 1];
        var previous := PackBefore(first, links, |links| - 1);
        && Chain(h, first, links[..|links| - 1])
        && Reworks(h, last.sources, last.budget, last.feedback, previous, last.pack))
  }

  // Equal digests of packs without a base mean equal budgets and equal fragments.
  lemma SameSha(h: Hash, a: seq<Fragment>, budgetA: int, p: Pack, b: seq<Fragment>, budgetB: int, q: Pack)
    requires h.Faithful() && Builds(h, a, budgetA, None, p) && Builds(h, b, budgetB, None, q)
    requires p.sha == q.sha
    ensures budgetA == budgetB && p.fragments == q.fragments
  {
    SameHashed(h, JInt(1), JInt(budgetA), FragmentsJson(p.fragments), BaseJson(None),
               JInt(1), JInt(budgetB), FragmentsJson(q.fragments), BaseJson(None));
    var i, j := FragmentsJson(p.fragments).items, FragmentsJson(q.fragments).items;
    assert i == j && |p.fragments| == |q.fragments|;
    forall k | 0 <= k < |p.fragments|
      ensures p.fragments[k] == q.fragments[k]
    {
      assert i[k] == FragmentJson(p.fragments[k]) && j[k] == FragmentJson(q.fragments[k]);
      FragmentJsonInjective(p.fragments[k], q.fragments[k]);
      assert p.fragments[k] in Elements(p.fragments) && q.fragments[k] in Elements(q.fragments);
      assert p.fragments[k] in Elements(a) && q.fragments[k] in Elements(b);
      SameIsEqual(h, p.fragments[k], q.fragments[k]);
    }
  }

  // Over a rework chain of any length, every pack carries the first pack's digest as
  // its base, keeps its budget, and consists of exactly the first pack's fragments
  // and one feedback fragment that names the digest of the pack right before it,
  // whatever the sources supply meanwhile: otherwise the build fails.
  lemma {:induction false} ChainKeepsBase(h: Hash, sources: seq<Fragment>, budget: int, first: Pack,
                                          links: seq<Link>)
    requires h.Faithful() && Builds(h, sources, budget, None, first) && Chain(h, first, links)
    ensures AllExtend(h, first, links)
    ensures Root(PackBefore(first, links, |links|)) == first.sha
    decreases |links|
  {
    assert first.base == None && first.sha != "";
    hide Reworks, Extends, Builds;
    if links != [] {
      var earlier := links[..|links| - 1];
      var last := links[|links| - 1];
      ChainKeepsBase(h, sources, budget, first, earlier);
      assert PackBefore(first, earlier, |earlier|) == PackBefore(first, links, |earlier|);
      ReworkKeepsBase(h, sources, budget, first, PackBefore(first, links, |earlier|), last);
      ExtendsRoot(h, first, PackBefore(first, links, |earlier|), last);
    }
  }

  // Every link of the chain extends the first pack, naming the pack right before it.
  predicate AllExtend(h: Hash, first: Pack, links: seq<Link>) {
    links == []
    || (AllExtend(h, first, links[..|links| - 1])
        && Extends(h, first, PackBefore(first, links, |links| - 1), links[|links| - 1]))
  }

  function PackBefore(first: Pack, links: seq<Link>, i: nat): Pack
    requires i <= |links|
  {
    if i == 0 then first else links[i - 1].pack
  }

  // The first digest as base, the first budget, the first fragments and one more.
  predicate Extends(h: Hash, first: Pack, previous: Pack, link: Link) {
    && link.pack.base == Some(first.sha)
    && link.pack.budget == first.budget
    && Elements(link.pack.fragments)
       == Elements(first.fragments) + {FeedbackFragment(h, previous, link.feedback)}
  }

  lemma ExtendsRoot(h: Hash, first: Pack, previous: Pack, link: Link)
    requires Extends(h, first, previous, link) && first.sha != ""
    ensures Root(link.pack) == first.sha
  {
  }

  lemma ReworkKeepsBase(h: Hash, sources: seq<Fragment>, budget: int, first: Pack, previous: Pack, link: Link)
    requires h.Faithful() && Builds(h, sources, budget, None, first) && Root(previous) == first.sha
    requires Reworks(h, link.sources, link.budget, link.feedback, previous, link.pack)
    ensures Extends(h, first, previous, link)
  {
    var b :| Builds(h, link.sources, link.budget, None, b) && b.sha == Root(previous);
    SameSha(h, link.sources, link.budget, b, sources, budget, first);
    hide NoConflict, AllMatch, Ascending, FeedbackFragment, TotalLength;
    AddOne(link.sources, FeedbackFragment(h, previous, link.feedback));
  }

  lemma AddOne(fs: seq<Fragment>, f: Fragment)
    ensures Elements(fs + [f]) == Elements(fs) + {f}
  {
  }
}
