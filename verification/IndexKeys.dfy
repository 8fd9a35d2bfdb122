/** What the index tells apart: which references and kinds share a key, what becomes of kinds, and in
    which order a save lists the entries. */
module IndexKeys {
  import opened Content
  import opened Sequences
  import opened Index
  import opened IndexStore

  // ---------------------------------------------------------------------------
  // Kinds

  predicate Kindless(a: Annotations) {
    "kind" !in a || a["kind"] == ""
  }

  /** A load takes an entry without a kind for an image, and a kind of the old prefix for the same one of the
      new prefix; it changes no other kind, and nothing else about an entry. */
  lemma LoadedKind(d: Descriptor, suffix: string)
    ensures var n := Normalized(d);
            && n == d.(annotations := d.annotations["kind" := n.annotations["kind"]])
            && (Kindless(d.annotations) ==> n.annotations["kind"] == "dev.hauler/image")
            && (!Kindless(d.annotations) && d.annotations["kind"] == "dev.cosignproject.cosign" + suffix ==>
                  n.annotations["kind"] == "dev.hauler" + suffix)
            && (!Kindless(d.annotations) && !("dev.cosignproject.cosign" <= d.annotations["kind"]) ==>
                  n.annotations["kind"] == d.annotations["kind"])
  {
    assert (LEGACY_PREFIX + suffix)[..|LEGACY_PREFIX|] == LEGACY_PREFIX;
    assert (LEGACY_PREFIX + suffix)[|LEGACY_PREFIX|..] == suffix;
    assert |CURRENT_PREFIX + suffix| > 0;
  }

  // ---------------------------------------------------------------------------
  // Keys

  lemma SameEnd(a: string, b: string, end: string)
    ensures a + end == b + end <==> a == b
  {
    if a + end == b + end {
      assert (a + end)[..|a|] == a && (b + end)[..|b|] == b;
    }
  }

  lemma SameStart(start: string, a: string, b: string)
    ensures start + a == start + b <==> a == b
  {
    if start + a == start + b {
      assert (start + a)[|start|..] == a && (start + b)[|start|..] == b;
    }
  }

  /** A reference that gets a key at all. */
  predicate Keyed(r: Reference) {
    !r.shape.OtherShape? && r.full != "--"
  }

  /** Of one kind, two tags have one key exactly when they are the same tag of the same repository, and two
      digests exactly when their repositories are the same. One reference has another key under another kind. */
  lemma KeysTellApart(r: Reference, r': Reference, kind: string, kind': string)
    ensures KeyOf(r, kind).Key? <==> Keyed(r)
    ensures Keyed(r) && Keyed(r') && r.shape.TagShape? && r'.shape.TagShape? ==>
              (KeyOf(r, kind) == KeyOf(r', kind) <==> r.full == r'.full)
    ensures Keyed(r) && Keyed(r') && r.shape.DigestShape? && r'.shape.DigestShape? ==>
              (KeyOf(r, kind) == KeyOf(r', kind) <==> r.context == r'.context)
    ensures Keyed(r) ==> (KeyOf(r, kind) == KeyOf(r, kind') <==> kind == kind')
  {
    SameEnd(r.full, r'.full, "-" + kind);
    SameEnd(r.context, r'.context, "-" + kind);
    SameStart(r.full + "-", kind, kind');
    SameStart(r.context + "-", kind, kind');
    assert r.full + "-" + kind == r.full + ("-" + kind) && r'.full + "-" + kind == r'.full + ("-" + kind);
    assert r.context + "-" + kind == r.context + ("-" + kind) && r'.context + "-" + kind == r'.context + ("-" + kind);
  }

  /** The reference an entry's annotations hold. */
  function RefOf(parse: Parser, a: Annotations): Option<Reference> {
    if "org.opencontainers.image.ref.name" in a then parse(a["org.opencontainers.image.ref.name"]) else None
  }

  /** An add is refused exactly without a reference that parses. */
  lemma AddsNeedAReference(parse: Parser, a: Annotations)
    ensures AddKey(parse, a) == BadReference <==> RefOf(parse, a).None?
    ensures AddKey(parse, a).Key? <==> RefOf(parse, a).Some? && Keyed(RefOf(parse, a).value)
  {
  }

  /** Which entries an add puts under one key, by their references and kinds. */
  lemma AddsShareAKeyExactlyWhen(parse: Parser, a: Annotations, b: Annotations, r: Reference, r': Reference)
    requires RefOf(parse, a) == Some(r) && RefOf(parse, b) == Some(r') && Keyed(r) && Keyed(r')
    requires "kind" in a && "kind" in b
    ensures AddKey(parse, a).Key? && AddKey(parse, b).Key?
    ensures a["kind"] == b["kind"] && r.shape == r'.shape ==>
              (AddKey(parse, a) == AddKey(parse, b) <==>
                 if r.shape.TagShape? then r.full == r'.full else r.context == r'.context)
    ensures r == r' ==> (AddKey(parse, a) == AddKey(parse, b) <==> a["kind"] == b["kind"])
  {
    KeysTellApart(r, r', a["kind"], a["kind"]);
    KeysTellApart(r', r, b["kind"], a["kind"]);
  }

  /** Which entries of a file a load puts under one key. */
  lemma LoadsShareAKeyExactlyWhen(parse: Parser, a: Descriptor, b: Descriptor, r: Reference, r': Reference)
    requires RefOf(parse, a.annotations) == Some(r) && RefOf(parse, b.annotations) == Some(r')
    requires Keyed(r) && Keyed(r')
    ensures var k, k' := LoadKey(parse, a.annotations), LoadKey(parse, b.annotations);
            var kind, kind' := Normalized(a).annotations["kind"], Normalized(b).annotations["kind"];
            && k.Key? && k'.Key?
            && (kind == kind' && r.shape == r'.shape ==>
                  (k == k' <==> if r.shape.TagShape? then r.full == r'.full else r.context == r'.context))
            && (r == r' ==> (k == k' <==> kind == kind'))
  {
    var kind, kind' := Normalized(a).annotations["kind"], Normalized(b).annotations["kind"];
    KeysTellApart(r, r', kind, kind);
    KeysTellApart(r', r, kind', kind);
  }

  /** An add and a load agree on the key of an entry of a current kind, and so do a copy's root and a load. */
  lemma OneKeyForAll(parse: Parser, ref: string, d: Descriptor, r: Reference)
    requires RefOf(parse, d.annotations) == Some(r)
    ensures Normalized(d) == d && Keyed(r) ==> AddKey(parse, d.annotations) == LoadKey(parse, d.annotations)
    ensures Keyed(r) && r.shape.TagShape? && ref == r.full ==>
              LoadKey(parse, Normalized(d).annotations) == Key(RootKey(ref, d))
  {
    NormalizedKeepsItsKey(parse, d);
    assert Normalized(d) == d ==> d.annotations[KIND] == CurrentKind(d.annotations);
  }

  // ---------------------------------------------------------------------------
  // Two adds

  /** After two successful adds of different tags of one kind, or of one tag under two kinds, both entries are
      in the name map; and if both were written, both are in the file. */
  lemma TwoAddsTwoEntries(
    parse: Parser, s: IndexState, d: Descriptor, e: Descriptor, r: Reference, r': Reference,
    start: int, end: int, io: SaveIo, start': int, end': int, io': SaveIo, s1: IndexState, s2: IndexState)
    requires RefOf(parse, d.annotations) == Some(r) && RefOf(parse, e.annotations) == Some(r')
    requires Keyed(r) && Keyed(r') && "kind" in d.annotations && "kind" in e.annotations
    requires || (r.shape == r'.shape == TagShape && r.full != r'.full && d.annotations["kind"] == e.annotations["kind"])
             || (r == r' && d.annotations["kind"] != e.annotations["kind"])
    requires Step(parse, s, Add(d, start, end, io), s1, true)
    requires Step(parse, s1, Add(e, start', end', io'), s2, true)
    ensures IsEntry(d, s2.nameMap) && IsEntry(e, s2.nameMap)
    ensures Saves(parse, s1, Add(e, start', end', io')) ==> FileHolds(s2.file, d) && FileHolds(s2.file, e)
  {
    hide SavedFrom, KeyOf, WithRefs;
    AddsShareAKeyExactlyWhen(parse, d.annotations, e.annotations, r, r');
    var k, k' := AddKey(parse, d.annotations).key, AddKey(parse, e.annotations).key;
    assert Same(s1.nameMap, k, d) by { Added(parse, s, d, start, end, io, s1, k); }
    Added(parse, s1, e, start', end', io', s2, k');
    Kept(parse, s1, e, start', end', io', s2, k, d);
    if Saves(parse, s1, Add(e, start', end', io')) {
      SavedMembers(s2.file.entries, s1.nameMap[k' := e]);
    }
  }

  lemma Added(
    parse: Parser, s: IndexState, d: Descriptor, start: int, end: int, io: SaveIo, s': IndexState, k: string)
    requires AddStep(parse, s, d, start, end, io, s', true) && AddKey(parse, d.annotations) == Key(k)
    ensures Same(s'.nameMap, k, d)
    ensures Saves(parse, s, Add(d, start, end, io)) ==> s'.file.Json? && SavedFrom(s'.file.entries, s.nameMap[k := d])
                                                         && s'.nameMap == WithRefs(s.nameMap[k := d])
  {
    hide SavedFrom;
    WithRefKeeps(d);
  }

  lemma Kept(
    parse: Parser, s: IndexState, e: Descriptor, start: int, end: int, io: SaveIo, s': IndexState,
    k: string, d: Descriptor)
    requires AddStep(parse, s, e, start, end, io, s', true) && AddKey(parse, e.annotations) != Key(k)
    requires Same(s.nameMap, k, d) && REF_NAME in d.annotations
    ensures Same(s'.nameMap, k, d)
  {
    hide SavedFrom;
    WithRefKeeps(d);
  }

  // ---------------------------------------------------------------------------
  // The order of the file

  /** A saved list never has an entry whose kind starts with the image kind after one whose kind does not. */
  lemma SavedListsImagesFirst(list: seq<Descriptor>, nameMap: NameMap, i: nat, j: nat)
    requires SavedFrom(list, nameMap) && i < j < |list|
    requires "kind" in list[j].annotations && "dev.hauler/image" <= list[j].annotations["kind"]
    ensures "kind" in list[i].annotations && "dev.hauler/image" <= list[i].annotations["kind"]
  {
    var order :| IsOrder(order, nameMap.Keys) && list == ImagesFirst(Listing(order, WithRefs(nameMap)));
    StableSortIsImagesFirst(list, Listing(order, WithRefs(nameMap)));
    assert IsImage(list[j]) && IsImage(list[i]);
  }

  function WithAReference(a: Annotations): Annotations {
    if "org.opencontainers.image.ref.name" in a then a else a["org.opencontainers.image.ref.name" := ""]
  }

  /** A saved list holds the entries of the name map, as many as there are, each with a reference, which is
      empty where the entry had none. */
  lemma SavedListsTheEntries(list: seq<Descriptor>, nameMap: NameMap, d: Descriptor)
    requires SavedFrom(list, nameMap)
    ensures |list| == |nameMap|
    ensures d in list <==>
              exists k :: k in nameMap && d == nameMap[k].(annotations := WithAReference(nameMap[k].annotations))
  {
    hide SavedFrom;
    SavedMembers(list, nameMap);
    forall k | k in nameMap
      ensures WithRefs(nameMap)[k] == nameMap[k].(annotations := WithAReference(nameMap[k].annotations))
    {
      var a := nameMap[k].annotations;
      assert REF_NAME in a ==> a[REF_NAME := a[REF_NAME]] == a;
    }
    hide WithRefs, WithAReference;
    assert WithRefs(nameMap).Keys == nameMap.Keys by { WithRefsAgain(nameMap); }
  }

  // ---------------------------------------------------------------------------
  // Rewriting annotations

  /** A rewrite that saves changes the annotations of the entries that match, and nothing else about those, and
      nothing about the others; no entry comes or goes. Every entry has a reference afterwards. */
  lemma RewritesChangeMatchingAnnotations(
    parse: Parser, s: IndexState, matches: Descriptor -> bool, apply: Annotations -> Annotations,
    end: int, io: SaveIo, s': IndexState, ok: bool, k: string)
    requires !s.file.Corrupt? && Step(parse, s, Update(matches, apply, end, io), s', ok)
    requires exists x :: x in Loaded(parse, s).nameMap && matches(Loaded(parse, s).nameMap[x])
    ensures var m := Loaded(parse, s).nameMap;
            && (k in s'.nameMap <==> k in m)
            && (k in m ==>
                  s'.nameMap[k] == m[k].(annotations :=
                    WithAReference(if matches(m[k]) then apply(m[k].annotations) else m[k].annotations)))
    ensures !io.NoRename? ==> s'.file.Json? && |s'.file.entries| == |s'.nameMap|
  {
    hide LoadInto, SavedFrom;
    var op, m := Update(matches, apply, end, io), Loaded(parse, s).nameMap;
    var x :| x in m && matches(m[x]);
    assert x in Matching(m, matches);
    StepShape(parse, s, op, s', ok);
    var updated := Updated(m, matches, apply);
    if k in m {
      var a := updated[k].annotations;
      assert REF_NAME in a ==> a[REF_NAME := a[REF_NAME]] == a;
    }
    if !io.NoRename? {
      SavedMembers(s'.file.entries, updated);
      assert s'.nameMap.Keys == updated.Keys by { WithRefsAgain(updated); }
      assert |s'.nameMap| == |s'.nameMap.Keys| && |updated| == |updated.Keys|;
    }
  }
}
