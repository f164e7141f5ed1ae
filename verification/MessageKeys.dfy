/**
 The message-tree validator (next-js-boilerplate/scripts/generate-i18n-types.ts): flattening a
 JSON tree to dotted key strings, and comparing every locale's pages and keys with the first
 locale's. Arrays, primitives and null are leaves; an empty object contributes no key.
 */
module MessageKeys {
  import opened Wrappers

  datatype Json = Leaf | Obj(shape: Shape)

  /** The entries of an object, in order. */
  datatype Shape = End | Entry(key: string, value: Json, rest: Shape)

  type Path = seq<string>

  function FlattenKeys(obj: Shape, prefix: string): seq<string> {
    match obj
    case End => []
    case Entry(k, v, rest) =>
      var path := if prefix != "" then prefix + "." + k else k;
      (if v.Obj? then FlattenKeys(v.shape, path) else [path]) + FlattenKeys(rest, prefix)
  }

  /** The leaves of a tree, as paths of keys. */
  function LeafPaths(obj: Shape): seq<Path> {
    match obj
    case End => []
    case Entry(k, v, rest) => (if v.Obj? then Under(k, LeafPaths(v.shape)) else [[k]]) + LeafPaths(rest)
  }

  /** The object has this entry. */
  predicate HasEntry(obj: Shape, k: string, v: Json) {
    obj.Entry? && ((obj.key == k && obj.value == v) || HasEntry(obj.rest, k, v))
  }

  /** Walking the path from the root, one entry per key, ends at something that is no object. */
  ghost predicate LeadsToLeaf(obj: Shape, p: Path)
    decreases |p|
  {
    p != [] && exists v :: HasEntry(obj, p[0], v) && if v.Leaf? then |p| == 1 else LeadsToLeaf(v.shape, p[1..])
  }

  /** The leaf paths are exactly the paths that lead to a leaf. */
  lemma {:induction false} LeafPathsLeadToLeaves(obj: Shape, p: Path)
    ensures p in LeafPaths(obj) <==> LeadsToLeaf(obj, p)
    decreases obj
  {
    if obj.Entry? {
      var k, v := obj.key, obj.value;
      LeafPathsLeadToLeaves(obj.rest, p);
      LeafPathsAreNonEmpty(obj);
      FirstEntryOrRest(obj, p);
      if p != [] {
        if v.Obj? {
          LeafPathsLeadToLeaves(v.shape, p[1..]);
          UnderHolds(k, LeafPaths(v.shape), p);
        } else if p[0] == k && |p| == 1 {
          assert p == [k] == LeafPaths(obj)[0];
        }
      }
    }
  }

  lemma UnderHolds(k: string, paths: seq<Path>, p: Path)
    requires p != []
    ensures p in Under(k, paths) <==> p[0] == k && p[1..] in paths
  {
    if p[0] == k && p[1..] in paths {
      var i :| 0 <= i < |paths| && paths[i] == p[1..];
      assert Under(k, paths)[i] == [k] + p[1..] == p;
    }
  }

  lemma FirstEntryOrRest(obj: Shape, p: Path)
    requires obj.Entry?
    ensures LeadsToLeaf(obj, p) <==>
              p != [] && ((p[0] == obj.key && if obj.value.Leaf? then |p| == 1 else LeadsToLeaf(obj.value.shape, p[1..]))
                          || LeadsToLeaf(obj.rest, p))
  {
    if p != [] && p[0] == obj.key && (if obj.value.Leaf? then |p| == 1 else LeadsToLeaf(obj.value.shape, p[1..])) {
      assert HasEntry(obj, p[0], obj.value);
    }
    if LeadsToLeaf(obj.rest, p) {
      var v :| HasEntry(obj.rest, p[0], v) && if v.Leaf? then |p| == 1 else LeadsToLeaf(v.shape, p[1..]);
      assert HasEntry(obj, p[0], v);
    }
  }

  lemma {:induction false} LeafPathsAreNonEmpty(obj: Shape)
    ensures NonEmptyPaths(LeafPaths(obj))
  {
    if obj.Entry? {
      LeafPathsAreNonEmpty(obj.rest);
    }
  }

  function Under(k: string, paths: seq<Path>): (r: seq<Path>)
    ensures |r| == |paths| && forall i :: 0 <= i < |r| ==> r[i] == [k] + paths[i]
  {
    if paths == [] then [] else [[k] + paths[0]] + Under(k, paths[1..])
  }

  function KeySet(obj: Shape): set<string> {
    set s | s in FlattenKeys(obj, "")
  }

  function LeafSet(obj: Shape): set<Path> {
    set p | p in LeafPaths(obj)
  }

  /** Every key of a tree is non-empty and has no dot. */
  predicate PlainKeys(obj: Shape) {
    match obj
    case End => true
    case Entry(k, v, rest) => Plain(k) && (v.Obj? ==> PlainKeys(v.shape)) && PlainKeys(rest)
  }

  predicate Plain(k: string) {
    k != "" && '.' !in k
  }

  predicate PlainPath(p: Path) {
    p != [] && forall i :: 0 <= i < |p| ==> Plain(p[i])
  }

  function Join(p: Path): string
    requires p != []
  {
    if |p| == 1 then p[0] else p[0] + "." + Join(p[1..])
  }

  /** The position of the first dot, or the length. */
  function FirstDot(s: string): (n: nat)
    ensures n <= |s| && '.' !in s[..n] && (n < |s| ==> s[n] == '.')
  {
    if s == "" || s[0] == '.' then 0
    else
      var n := 1 + FirstDot(s[1..]);
      assert s[..n] == [s[0]] + s[1..][..n - 1];
      n
  }

  lemma {:induction false} FirstDotAfterPlain(k: string, rest: string)
    requires '.' !in k
    ensures FirstDot(k) == |k| && FirstDot(k + "." + rest) == |k|
  {
    if k != "" {
      FirstDotAfterPlain(k[1..], rest);
      assert (k + "." + rest)[1..] == k[1..] + "." + rest;
    }
  }

  /** Dotted strings of plain paths determine the paths. */
  lemma {:induction false} JoinIsInjective(p: Path, q: Path)
    requires PlainPath(p) && PlainPath(q) && Join(p) == Join(q)
    ensures p == q
    decreases |p|
  {
    var s := Join(p);
    assert Plain(p[0]) && Plain(q[0]);
    HeadOfJoin(p);
    HeadOfJoin(q);
    assert p[0] == s[..FirstDot(s)] == q[0];
    if |p| > 1 && |q| > 1 {
      assert Join(p[1..]) == s[FirstDot(s) + 1..] == Join(q[1..]);
      JoinIsInjective(p[1..], q[1..]);
      assert p == [p[0]] + p[1..] && q == [q[0]] + q[1..];
    }
  }

  lemma HeadOfJoin(p: Path)
    requires PlainPath(p)
    ensures FirstDot(Join(p)) == |p[0]| && Join(p)[..|p[0]|] == p[0]
    ensures |Join(p)| > |p[0]| <==> |p| > 1
    ensures |p| > 1 ==> Join(p)[|p[0]| + 1..] == Join(p[1..])
  {
    assert Plain(p[0]);
    if |p| == 1 {
      FirstDotAfterPlain(p[0], "");
    } else {
      FirstDotAfterPlain(p[0], Join(p[1..]));
    }
  }

  lemma {:induction false} LeafPathsArePlain(obj: Shape)
    requires PlainKeys(obj)
    ensures forall i :: 0 <= i < |LeafPaths(obj)| ==> PlainPath(LeafPaths(obj)[i])
  {
    if obj.Entry? {
      LeafPathsArePlain(obj.rest);
      if obj.value.Obj? {
        LeafPathsArePlain(obj.value.shape);
        var inner := LeafPaths(obj.value.shape);
        forall i | 0 <= i < |inner| ensures PlainPath([obj.key] + inner[i]) {}
      }
    }
  }

  /** What flattening under a prefix makes of a leaf path. */
  function Dotted(prefix: string, p: Path): string
    requires p != []
  {
    if prefix != "" then prefix + "." + Join(p) else Join(p)
  }

  lemma DottedUnder(prefix: string, k: string, p: Path)
    requires p != [] && k != ""
    ensures Dotted(if prefix != "" then prefix + "." + k else k, p) == Dotted(prefix, [k] + p)
  {
    assert ([k] + p)[1..] == p;
    assert Join([k] + p) == k + "." + Join(p);
    if prefix != "" {
      assert prefix + "." + k + "." + Join(p) == prefix + "." + (k + "." + Join(p));
    }
  }

  predicate NonEmptyPaths(paths: seq<Path>) {
    forall i :: 0 <= i < |paths| ==> paths[i] != []
  }

  /** The keys are the paths, dotted, one by one. */
  predicate DottedAll(prefix: string, keys: seq<string>, paths: seq<Path>) {
    NonEmptyPaths(paths) && |keys| == |paths| && forall i :: 0 <= i < |paths| ==> keys[i] == Dotted(prefix, paths[i])
  }

  lemma DottedConcat(prefix: string, k1: seq<string>, p1: seq<Path>, k2: seq<string>, p2: seq<Path>)
    requires DottedAll(prefix, k1, p1) && DottedAll(prefix, k2, p2)
    ensures DottedAll(prefix, k1 + k2, p1 + p2)
  {
    forall i | 0 <= i < |p1 + p2| ensures (p1 + p2)[i] != [] && (k1 + k2)[i] == Dotted(prefix, (p1 + p2)[i]) {
      if i >= |p1| { assert p2[i - |p1|] != []; }
    }
  }

  lemma DottedBelow(prefix: string, k: string, keys: seq<string>, paths: seq<Path>)
    requires k != "" && DottedAll(if prefix != "" then prefix + "." + k else k, keys, paths)
    ensures DottedAll(prefix, keys, Under(k, paths))
  {
    forall i | 0 <= i < |paths| ensures keys[i] == Dotted(prefix, [k] + paths[i]) {
      DottedUnder(prefix, k, paths[i]);
    }
  }

  /** With plain keys, flattening is exactly the leaf paths, dotted, in order and with multiplicity. */
  lemma {:induction false} FlattenIsDottedLeaves(obj: Shape, prefix: string)
    requires PlainKeys(obj)
    ensures DottedAll(prefix, FlattenKeys(obj, prefix), LeafPaths(obj))
  {
    if obj.Entry? {
      var k, v := obj.key, obj.value;
      assert Plain(k);
      var path := if prefix != "" then prefix + "." + k else k;
      FlattenIsDottedLeaves(obj.rest, prefix);
      if v.Obj? {
        FlattenIsDottedLeaves(v.shape, path);
        var keys, below := FlattenKeys(v.shape, path), Under(k, LeafPaths(v.shape));
        DottedBelow(prefix, k, keys, LeafPaths(v.shape));
        DottedConcat(prefix, keys, below, FlattenKeys(obj.rest, prefix), LeafPaths(obj.rest));
      } else {
        assert DottedAll(prefix, [path], [[k]]);
        DottedConcat(prefix, [path], [[k]], FlattenKeys(obj.rest, prefix), LeafPaths(obj.rest));
      }
    }
  }

  /** Two trees with plain keys flatten to the same set of strings exactly when they have the same leaf paths. */
  lemma SameKeysIffSameLeaves(a: Shape, b: Shape)
    requires PlainKeys(a) && PlainKeys(b)
    ensures KeySet(a) == KeySet(b) <==> LeafSet(a) == LeafSet(b)
  {
    if KeySet(a) == KeySet(b) {
      LeavesFollowKeys(a, b);
      LeavesFollowKeys(b, a);
    }
    if LeafSet(a) == LeafSet(b) {
      KeysFollowLeaves(a, b);
      KeysFollowLeaves(b, a);
    }
  }

  lemma LeavesFollowKeys(a: Shape, b: Shape)
    requires PlainKeys(a) && PlainKeys(b) && KeySet(a) <= KeySet(b)
    ensures LeafSet(a) <= LeafSet(b)
  {
    FlattenIsDottedLeaves(a, "");
    FlattenIsDottedLeaves(b, "");
    LeafPathsArePlain(a);
    LeafPathsArePlain(b);
    forall i | 0 <= i < |LeafPaths(a)| ensures LeafPaths(a)[i] in LeafPaths(b) {
      assert FlattenKeys(a, "")[i] in KeySet(a);
      assert FlattenKeys(a, "")[i] in KeySet(b);
      var j :| 0 <= j < |FlattenKeys(b, "")| && FlattenKeys(b, "")[j] == FlattenKeys(a, "")[i];
      JoinIsInjective(LeafPaths(a)[i], LeafPaths(b)[j]);
    }
  }

  lemma KeysFollowLeaves(a: Shape, b: Shape)
    requires PlainKeys(a) && PlainKeys(b) && LeafSet(a) <= LeafSet(b)
    ensures KeySet(a) <= KeySet(b)
  {
    FlattenIsDottedLeaves(a, "");
    FlattenIsDottedLeaves(b, "");
    forall i | 0 <= i < |FlattenKeys(a, "")| ensures FlattenKeys(a, "")[i] in FlattenKeys(b, "") {
      assert LeafPaths(a)[i] in LeafSet(a);
      assert LeafPaths(a)[i] in LeafSet(b);
      var j :| 0 <= j < |LeafPaths(b)| && LeafPaths(b)[j] == LeafPaths(a)[i];
      assert FlattenKeys(b, "")[j] == FlattenKeys(a, "")[i];
    }
  }

  function Only(k: string, v: Json): Shape {
    Entry(k, v, End)
  }

  lemma FlattenOnly(k: string, v: Json, prefix: string)
    ensures v.Leaf? ==> FlattenKeys(Only(k, v), prefix) == [if prefix != "" then prefix + "." + k else k]
    ensures v.Obj? ==> FlattenKeys(Only(k, v), prefix) == FlattenKeys(v.shape, if prefix != "" then prefix + "." + k else k)
    ensures v.Leaf? ==> LeafPaths(Only(k, v)) == [[k]]
    ensures v.Obj? ==> LeafPaths(Only(k, v)) == Under(k, LeafPaths(v.shape))
  {
    assert FlattenKeys(End, prefix) == [] && LeafPaths(End) == [];
  }

  /** A dot in a key, or an empty key, makes different trees flatten alike. */
  lemma DottedKeysCollide()
    ensures var nested, dotted := Only("a", Obj(Only("b", Leaf))), Only("a.b", Leaf);
            FlattenKeys(nested, "") == FlattenKeys(dotted, "") && LeafSet(nested) != LeafSet(dotted)
    ensures var hidden, bare := Only("", Obj(Only("a", Leaf))), Only("a", Leaf);
            FlattenKeys(hidden, "") == FlattenKeys(bare, "") && LeafSet(hidden) != LeafSet(bare)
  {
    FlattenOnly("b", Leaf, "a");
    FlattenOnly("a", Obj(Only("b", Leaf)), "");
    FlattenOnly("a.b", Leaf, "");
    assert "a" + "." + "b" == "a.b";
    FlattenOnly("a", Leaf, "");
    FlattenOnly("", Obj(Only("a", Leaf)), "");
    assert LeafPaths(Only("a", Obj(Only("b", Leaf))))[0] == ["a"] + ["b"];
    assert LeafPaths(Only("", Obj(Only("a", Leaf))))[0] == [""] + ["a"];
    forall p | p in LeafSet(Only("a.b", Leaf)) || p in LeafSet(Only("a", Leaf)) ensures |p| == 1 {}
    assert ["a"] + ["b"] in LeafSet(Only("a", Obj(Only("b", Leaf))));
    assert [""] + ["a"] in LeafSet(Only("", Obj(Only("a", Leaf))));
  }

  // ---------------------------------------------------------------- the generator's checks

  /** One locale's pages, in directory order, and the tree of each. */
  datatype Locale = Locale(pages: seq<string>, shapes: map<string, Shape>)
  {
    ghost predicate Valid() {
      forall p :: p in pages <==> p in shapes
    }
  }

  /** How a run ends: types written, errors reported, nothing to do, or a missing file thrown on. */
  datatype Verdict = Written | Rejected | NothingFound | Crashed

  predicate SamePages(a: Locale, b: Locale) {
    (forall p :: p in a.pages ==> p in b.pages) && (forall p :: p in b.pages ==> p in a.pages)
  }

  predicate SameKeys(a: Shape, b: Shape) {
    KeySet(a) == KeySet(b)
  }

  ghost predicate Agrees(reference: Locale, locale: Locale)
    requires reference.Valid() && locale.Valid()
  {
    SamePages(reference, locale) && SamePerPage(reference, locale)
  }

  /** Page by page, the keys of the first locale. */
  ghost predicate SamePerPage(reference: Locale, locale: Locale)
    requires reference.Valid() && locale.Valid()
  {
    forall p :: p in reference.pages && p in locale.pages ==> SameKeys(reference.shapes[p], locale.shapes[p])
  }

  predicate AllIn(from: seq<string>, other: seq<string>) {
    forall i :: 0 <= i < |from| ==> from[i] in other
  }

  /** Whether some element of one list is missing from the other. */
  method AnyMissing(from: seq<string>, other: seq<string>) returns (missing: bool)
    ensures missing <==> !AllIn(from, other)
  {
    missing := false;
    for i := 0 to |from|
      invariant missing <==> exists j :: 0 <= j < i && from[j] !in other
    {
      if from[i] !in other {
        missing := true;
      }
    }
  }

  /** Whether every page of the first locale has the same keys in another one; nothing when a page is missing there. */
  method ComparePages(reference: Locale, locale: Locale) returns (same: Option<bool>)
    requires reference.Valid() && locale.Valid()
    ensures same.None? <==> !AllIn(reference.pages, locale.pages)
    ensures same.Some? ==> (same.value <==> SamePerPage(reference, locale))
  {
    var good := true;
    for n := 0 to |reference.pages|
      invariant forall m :: 0 <= m < n ==> reference.pages[m] in locale.pages
      invariant good <==> forall m :: 0 <= m < n ==>
        SameKeys(reference.shapes[reference.pages[m]], locale.shapes[reference.pages[m]])
    {
      var page := reference.pages[n];
      if page !in locale.shapes {
        assert page !in locale.pages;
        return None;
      }
      var refKeys := FlattenKeys(reference.shapes[page], "");
      var localeKeys := FlattenKeys(locale.shapes[page], "");
      var missing := AnyMissing(refKeys, localeKeys);
      var extra := AnyMissing(localeKeys, refKeys);
      SameKeysByLists(reference.shapes[page], locale.shapes[page]);
      assert SameKeys(reference.shapes[page], locale.shapes[page]) == !(missing || extra);
      if missing || extra {
        good := false;
      }
    }
    same := Some(good);
  }

  /**
   Walks the locales, comparing each with the first. Types are written exactly when every locale
   has the first one's pages and, page by page, its flattened keys. Reading a page that a locale
   lacks throws, so a missing page crashes the run.
   */
  method Generate(locales: seq<Locale>) returns (verdict: Verdict)
    requires forall i :: 0 <= i < |locales| ==> locales[i].Valid()
    ensures verdict == NothingFound <==> |locales| == 0 || locales[0].pages == []
    ensures verdict == Written <==>
              |locales| != 0 && locales[0].pages != []
              && forall i :: 0 <= i < |locales| ==> Agrees(locales[0], locales[i])
    ensures verdict == Crashed <==>
              |locales| != 0 && exists i :: 0 <= i < |locales| && !AllIn(locales[0].pages, locales[i].pages)
  {
    if |locales| == 0 || |locales[0].pages| == 0 { return NothingFound; }
    var reference := locales[0];
    var hasErrors := false;
    for i := 0 to |locales|
      invariant !hasErrors <==> forall j :: 0 <= j < i ==> Agrees(reference, locales[j])
      invariant forall j :: 0 <= j < i ==> AllIn(reference.pages, locales[j].pages)
    {
      var locale := locales[i];
      var missingPages := AnyMissing(reference.pages, locale.pages);
      var extraPages := AnyMissing(locale.pages, reference.pages);
      var compared := ComparePages(reference, locale);
      if compared.None? { return Crashed; }
      if missingPages || extraPages || compared == Some(false) {
        hasErrors := true;
      }
    }
    verdict := if hasErrors then Rejected else Written;
  }

  lemma SameKeysByLists(a: Shape, b: Shape)
    ensures SameKeys(a, b) <==> AllIn(FlattenKeys(a, ""), FlattenKeys(b, "")) && AllIn(FlattenKeys(b, ""), FlattenKeys(a, ""))
  {
    InclusionByLists(a, b);
    InclusionByLists(b, a);
  }

  lemma InclusionByLists(a: Shape, b: Shape)
    ensures KeySet(a) <= KeySet(b) <==> AllIn(FlattenKeys(a, ""), FlattenKeys(b, ""))
  {
    var ka, kb := FlattenKeys(a, ""), FlattenKeys(b, "");
    if KeySet(a) <= KeySet(b) {
      forall i | 0 <= i < |ka| ensures ka[i] in kb { assert ka[i] in KeySet(a) && ka[i] in KeySet(b); }
    }
  }

  /** When types are written, any two locales have the same pages and, per page, the same leaf paths. */
  lemma AcceptedLocalesMatch(reference: Locale, a: Locale, b: Locale)
    requires reference.Valid() && a.Valid() && b.Valid() && Agrees(reference, a) && Agrees(reference, b)
    requires forall p :: p in a.pages ==> PlainKeys(a.shapes[p])
    requires forall p :: p in b.pages ==> PlainKeys(b.shapes[p])
    ensures SamePages(a, b)
    ensures forall p :: p in a.pages ==> LeafSet(a.shapes[p]) == LeafSet(b.shapes[p])
  {
    forall p | p in a.pages ensures LeafSet(a.shapes[p]) == LeafSet(b.shapes[p]) {
      assert p in reference.pages && p in b.pages;
      assert SameKeys(reference.shapes[p], a.shapes[p]) && SameKeys(reference.shapes[p], b.shapes[p]);
      SameKeysIffSameLeaves(a.shapes[p], b.shapes[p]);
    }
  }
}
