/** The name map and `index.json`: how entries are keyed, what a save writes, what a load reads. */
module Index {
  import opened Content
  import opened Sequences

  const REF_NAME: string := "org.opencontainers.image.ref.name"
  const KIND: string := "kind"
  const KIND_IMAGE: string := "dev.hauler/image"
  const LEGACY_PREFIX: string := "dev.cosignproject.cosign"
  const CURRENT_PREFIX: string := "dev.hauler"

  /** A parsed reference: its shape, its full string and its repository. */
  datatype Shape = TagShape | DigestShape | OtherShape
  datatype Reference = Reference(shape: Shape, full: string, context: string)

  /** `reference.Parse`, not looked into; `None` is its error. */
  type Parser = string -> Option<Reference>

  type NameMap = map<string, Descriptor>

  /** What is stored under a key, if anything. */
  function At(nameMap: NameMap, k: string): Option<Descriptor> {
    if k in nameMap then Some(nameMap[k]) else None
  }

  // ---------------------------------------------------------------------------
  // Kinds and keys

  function NormalizeLegacyKind(kind: string): string {
    if HasPrefix(kind, LEGACY_PREFIX) then CURRENT_PREFIX + kind[|LEGACY_PREFIX|..] else kind
  }

  /** The kind an entry has after a load: legacy values translated, a missing one defaulted. */
  function CurrentKind(a: Annotations): string {
    var kind := NormalizeLegacyKind(Annotation(a, KIND));
    if kind == "" then KIND_IMAGE else kind
  }

  function Annotation(a: Annotations, key: string): string {
    if key in a then a[key] else ""
  }

  function Normalized(d: Descriptor): Descriptor {
    d.(annotations := d.annotations[KIND := CurrentKind(d.annotations)])
  }

  /** Normalizing is done once and for all. */
  lemma CurrentKindIsStable(a: Annotations)
    ensures CurrentKind(a[KIND := CurrentKind(a)]) == CurrentKind(a)
  {
    var raw := Annotation(a, KIND);
    var kind := NormalizeLegacyKind(raw);
    if HasPrefix(raw, LEGACY_PREFIX) {
      assert kind[4] == CURRENT_PREFIX[4] == 'h';
      assert |kind| >= |LEGACY_PREFIX| ==> kind[..|LEGACY_PREFIX|][4] == 'h' != LEGACY_PREFIX[4];
    }
  }

  datatype KeyResult = BadReference | NoKey | Key(key: string)

  /** A tag is keyed by its full name, a digest by its repository only. A parsed reference has no
      space around it, so the source's trimming before this comparison is the identity. */
  function KeyOf(r: Reference, kind: string): KeyResult {
    if r.full == "--" then NoKey
    else match r.shape
      case TagShape => Key(r.full + "-" + kind)
      case DigestShape => Key(r.context + "-" + kind)
      case OtherShape => NoKey
  }

  /** The key `AddIndex` derives: the annotation must be there, and the kind is taken as it is. */
  function AddKey(parse: Parser, a: Annotations): KeyResult {
    if REF_NAME !in a || parse(a[REF_NAME]).None? then BadReference
    else KeyOf(parse(a[REF_NAME]).value, Annotation(a, KIND))
  }

  /** The key a load derives: a malformed entry is skipped, and the kind is normalized. */
  function LoadKey(parse: Parser, a: Annotations): KeyResult {
    match parse(Annotation(a, REF_NAME))
    case None => NoKey
    case Some(r) => KeyOf(r, CurrentKind(a))
  }

  // ---------------------------------------------------------------------------
  // Loading

  function LoadOne(parse: Parser, nameMap: NameMap, d: Descriptor): NameMap {
    match LoadKey(parse, d.annotations)
    case Key(k) => nameMap[k := Normalized(d)]
    case _ => nameMap
  }

  /** Loading stores the entries of the file over the name map in file order; it removes nothing. */
  function LoadInto(parse: Parser, nameMap: NameMap, entries: seq<Descriptor>): NameMap
    decreases |entries|
  {
    if entries == [] then nameMap
    else LoadInto(parse, LoadOne(parse, nameMap, entries[0]), entries[1..])
  }

  // ---------------------------------------------------------------------------
  // Saving

  /** Saving writes the reference annotation back, so an entry without one gains an empty one. */
  function WithRef(d: Descriptor): Descriptor {
    d.(annotations := d.annotations[REF_NAME := Annotation(d.annotations, REF_NAME)])
  }

  function WithRefs(nameMap: NameMap): NameMap {
    map k | k in nameMap :: WithRef(nameMap[k])
  }

  /** `sync.Map.Range` visits every key once, in no particular order. */
  ghost predicate IsOrder(order: seq<string>, keys: set<string>) {
    && (forall i, j | 0 <= i < j < |order| :: order[i] != order[j])
    && (forall k :: k in order <==> k in keys)
  }

  function Listing(order: seq<string>, nameMap: NameMap): (r: seq<Descriptor>)
    requires forall k | k in order :: k in nameMap
    ensures |r| == |order|
    ensures forall i | 0 <= i < |order| :: r[i] == nameMap[order[i]]
  {
    seq(|order|, i requires 0 <= i < |order| => nameMap[order[i]])
  }

  predicate IsImage(d: Descriptor) {
    HasPrefix(Annotation(d.annotations, KIND), KIND_IMAGE)
  }

  function Select(ds: seq<Descriptor>, image: bool): seq<Descriptor> {
    if ds == [] then []
    else (if IsImage(ds[0]) == image then [ds[0]] else []) + Select(ds[1..], image)
  }

  /** Image kinds first, the order within each half kept. */
  function ImagesFirst(ds: seq<Descriptor>): seq<Descriptor> {
    Select(ds, true) + Select(ds, false)
  }

  /** `list` is what a save of `nameMap` can write. */
  ghost predicate SavedFrom(list: seq<Descriptor>, nameMap: NameMap) {
    exists order :: IsOrder(order, nameMap.Keys) && list == ImagesFirst(Listing(order, WithRefs(nameMap)))
  }

  // ---------------------------------------------------------------------------
  // The sort

  lemma {:induction false} SelectUnfolds(ds: seq<Descriptor>, image: bool)
    requires ds != []
    ensures Select(ds, image) == (if IsImage(ds[0]) == image then [ds[0]] else []) + Select(ds[1..], image)
  {
    hide IsImage;
  }

  lemma {:induction false} SelectAppends(a: seq<Descriptor>, b: seq<Descriptor>, image: bool)
    ensures Select(a + b, image) == Select(a, image) + Select(b, image)
  {
    hide IsImage;
    if a == [] {
      assert a + b == b;
    } else {
      hide Select;
      SelectAppends(a[1..], b, image);
      SelectUnfolds(a, image);
      SelectUnfolds(a + b, image);
      HeadAndTail(a, b);
      var first := if IsImage(a[0]) == image then [a[0]] else [];
      Associates(first, Select(a[1..], image), Select(b, image));
    }
  }

  lemma {:induction false} SelectOfUniform(a: seq<Descriptor>, image: bool)
    requires forall d | d in a :: IsImage(d)
    ensures Select(a, image) == if image then a else []
  {
    if a != [] {
      assert forall d | d in a[1..] :: d in a;
      SelectOfUniform(a[1..], image);
    }
  }

  lemma {:induction false} SelectOfOthers(a: seq<Descriptor>, image: bool)
    requires forall d | d in a :: !IsImage(d)
    ensures Select(a, image) == if image then [] else a
  {
    if a != [] {
      assert forall d | d in a[1..] :: d in a;
      SelectOfOthers(a[1..], image);
    }
  }

  lemma {:induction false} SelectMembers(ds: seq<Descriptor>, image: bool, d: Descriptor)
    ensures d in Select(ds, image) <==> d in ds && IsImage(d) == image
  {
    if ds != [] {
      SelectMembers(ds[1..], image, d);
      assert ds == [ds[0]] + ds[1..];
    }
  }

  lemma {:induction false} ImagesFirstPermutes(ds: seq<Descriptor>)
    ensures multiset(ImagesFirst(ds)) == multiset(ds)
  {
    hide IsImage;
    if ds != [] {
      ImagesFirstPermutes(ds[1..]);
      SelectUnfolds(ds, true);
      SelectUnfolds(ds, false);
      OneMoreElement(ds[0], Select(ds[1..], true), Select(ds[1..], false), ds[1..], IsImage(ds[0]));
      hide Select;
      assert ds == [ds[0]] + ds[1..];
    }
  }

  /** What `sort.SliceStable` promises for this ordering: nothing that is not an image comes before
      an image, and equals keep their order. */
  ghost predicate StablySorted(list: seq<Descriptor>, ds: seq<Descriptor>) {
    && (forall i, j | 0 <= i < j < |list| :: IsImage(list[j]) ==> IsImage(list[i]))
    && Select(list, true) == Select(ds, true)
    && Select(list, false) == Select(ds, false)
  }

  /** The stable sort has exactly one result, and it is the one `saveIndexLocked` writes. */
  lemma StableSortIsImagesFirst(list: seq<Descriptor>, ds: seq<Descriptor>)
    ensures StablySorted(list, ds) <==> list == ImagesFirst(ds)
  {
    var t, f := Select(ds, true), Select(ds, false);
    forall d | d in t ensures IsImage(d) { SelectMembers(ds, true, d); }
    forall d | d in f ensures !IsImage(d) { SelectMembers(ds, false, d); }
    if list == ImagesFirst(ds) {
      SelectAppends(t, f, true);
      SelectAppends(t, f, false);
      SelectOfUniform(t, true);
      SelectOfUniform(t, false);
      SelectOfOthers(f, true);
      SelectOfOthers(f, false);
    }
    if StablySorted(list, ds) {
      SortedSplits(list);
    }
  }

  lemma {:induction false} SortedSplits(list: seq<Descriptor>)
    requires forall i, j | 0 <= i < j < |list| :: IsImage(list[j]) ==> IsImage(list[i])
    ensures list == Select(list, true) + Select(list, false)
  {
    if list != [] {
      SortedSplits(list[1..]);
      if !IsImage(list[0]) {
        forall d | d in list ensures !IsImage(d) {
          var i :| 0 <= i < |list| && list[i] == d;
        }
        SelectOfOthers(list, true);
        SelectOfOthers(list, false);
      }
    }
  }

  // ---------------------------------------------------------------------------
  // Saving and loading are inverse

  /** An entry stored under the key a load derives from it, as a load leaves it. */
  ghost predicate CanonicalEntry(parse: Parser, k: string, d: Descriptor) {
    && LoadKey(parse, d.annotations) == Key(k)
    && Normalized(d) == d
    && REF_NAME in d.annotations
  }

  ghost predicate Canonical(parse: Parser, nameMap: NameMap) {
    forall k | k in nameMap :: CanonicalEntry(parse, k, nameMap[k])
  }

  /** The empty reference does not parse. */
  ghost predicate EmptyRefFails(parse: Parser) {
    parse("").None?
  }

  lemma CanonicalWithRefs(parse: Parser, nameMap: NameMap)
    requires Canonical(parse, nameMap)
    ensures WithRefs(nameMap) == nameMap
  {
    forall k | k in nameMap ensures WithRef(nameMap[k]) == nameMap[k] {
      var a := nameMap[k].annotations;
      assert a[REF_NAME := a[REF_NAME]] == a;
    }
  }

  /** The references a save writes back are already there when its result is saved again. */
  lemma WithRefsAgain(nameMap: NameMap)
    ensures WithRefs(WithRefs(nameMap)) == WithRefs(nameMap) && WithRefs(nameMap).Keys == nameMap.Keys
  {
    forall k | k in nameMap ensures WithRef(WithRef(nameMap[k])) == WithRef(nameMap[k]) {
      var a := WithRef(nameMap[k]).annotations;
      assert a[REF_NAME := a[REF_NAME]] == a;
    }
  }

  lemma SavedFromWithRefs(list: seq<Descriptor>, nameMap: NameMap)
    requires SavedFrom(list, nameMap)
    ensures SavedFrom(list, WithRefs(nameMap))
  {
    WithRefsAgain(nameMap);
    hide WithRefs, WithRef, IsOrder, Listing, ImagesFirst;
  }

  ghost predicate IsEntry(d: Descriptor, nameMap: NameMap) {
    exists k :: k in nameMap && nameMap[k] == d
  }

  lemma SavedMembers(list: seq<Descriptor>, nameMap: NameMap)
    requires SavedFrom(list, nameMap)
    ensures forall d :: d in list <==> IsEntry(d, WithRefs(nameMap))
    ensures |list| == |nameMap|
  {
    var order :| IsOrder(order, nameMap.Keys) && list == ImagesFirst(Listing(order, WithRefs(nameMap)));
    hide WithRef, ImagesFirst;
    var raw := Listing(order, WithRefs(nameMap));
    ImagesFirstPermutes(raw);
    OrderLength(order, nameMap.Keys);
    assert |multiset(list)| == |list| && |multiset(raw)| == |raw| && |nameMap.Keys| == |nameMap|;
    forall d ensures d in list <==> IsEntry(d, WithRefs(nameMap)) {
      assert d in list <==> d in multiset(list);
      ListingMembers(order, WithRefs(nameMap), d);
    }
  }

  /** A save writes each entry of the name map and nothing else, and each of them once. */
  lemma SavedHoldsTheMap(parse: Parser, list: seq<Descriptor>, nameMap: NameMap)
    requires Canonical(parse, nameMap) && SavedFrom(list, nameMap)
    ensures forall d :: d in list <==> IsEntry(d, nameMap)
    ensures |list| == |nameMap|
  {
    CanonicalWithRefs(parse, nameMap);
    SavedMembers(list, nameMap);
  }

  lemma ListingMembers(order: seq<string>, nameMap: NameMap, d: Descriptor)
    requires IsOrder(order, nameMap.Keys)
    ensures d in multiset(Listing(order, nameMap)) <==> IsEntry(d, nameMap)
  {
    var raw := Listing(order, nameMap);
    if d in raw {
      var i :| 0 <= i < |raw| && raw[i] == d;
      assert order[i] in nameMap.Keys;
    }
    if IsEntry(d, nameMap) {
      var k :| k in nameMap && nameMap[k] == d;
      var i :| 0 <= i < |order| && order[i] == k;
      assert raw[i] == d;
    }
  }

  lemma {:induction false} OrderLength(order: seq<string>, keys: set<string>)
    requires IsOrder(order, keys)
    ensures |order| == |keys|
  {
    if order == [] {
      assert keys == {};
    } else {
      var rest := order[1..];
      forall k ensures k in rest <==> k in keys - {order[0]} {
        assert order == [order[0]] + rest;
      }
      OrderLength(rest, keys - {order[0]});
    }
  }

  /** Loading entries that all come from a canonical map stores them under their own keys. */
  lemma {:induction false} LoadOfEntries(
    parse: Parser, base: NameMap, entries: seq<Descriptor>, nameMap: NameMap, k: string)
    requires Canonical(parse, nameMap) && forall d | d in entries :: IsEntry(d, nameMap)
    ensures var r := LoadInto(parse, base, entries);
            && (k in nameMap && nameMap[k] in entries ==> k in r && r[k] == nameMap[k])
            && (!(k in nameMap && nameMap[k] in entries) ==>
                  (k in r <==> k in base) && (k in base ==> r[k] == base[k]))
    decreases |entries|
  {
    if entries != [] {
      var d := entries[0];
      assert IsEntry(d, nameMap);
      var k0 :| k0 in nameMap && nameMap[k0] == d;
      assert LoadOne(parse, base, d) == base[k0 := d];
      LoadOfEntries(parse, base[k0 := d], entries[1..], nameMap, k);
      assert entries == [d] + entries[1..];
    }
  }

  /** Loading what was saved from a canonical map puts that map over whatever was there: into a
      fresh store it gives the map back, and into the store that saved it, it changes nothing. */
  lemma {:induction false} LoadOfSave(parse: Parser, base: NameMap, list: seq<Descriptor>, nameMap: NameMap)
    requires Canonical(parse, nameMap) && SavedFrom(list, nameMap)
    ensures LoadInto(parse, base, list) == base + nameMap
  {
    SavedHoldsTheMap(parse, list, nameMap);
    forall k ensures SameAt(LoadInto(parse, base, list), base + nameMap, k) {
      LoadOfEntries(parse, base, list, nameMap, k);
      assert k in nameMap ==> IsEntry(nameMap[k], nameMap);
    }
    SameEverywhere(LoadInto(parse, base, list), base + nameMap);
  }

  ghost predicate SameAt(a: NameMap, b: NameMap, k: string) {
    (k in a <==> k in b) && (k in a ==> a[k] == b[k])
  }

  lemma SameEverywhere(a: NameMap, b: NameMap)
    requires forall k :: SameAt(a, b, k)
    ensures a == b
  {
    assert forall k :: SameAt(a, b, k) ==> (k in a <==> k in b);
    assert forall k | k in a :: SameAt(a, b, k) ==> a[k] == b[k];
  }

  /** What a load stores is read back under the same key and as it is. */
  lemma NormalizedKeepsItsKey(parse: Parser, d: Descriptor)
    ensures LoadKey(parse, Normalized(d).annotations) == LoadKey(parse, d.annotations)
    ensures Normalized(Normalized(d)) == Normalized(d)
    ensures REF_NAME in Normalized(d).annotations <==> REF_NAME in d.annotations
  {
    CurrentKindIsStable(d.annotations);
    var n := Normalized(d);
    assert n.annotations[KIND := CurrentKind(n.annotations)] == n.annotations;
    assert Annotation(n.annotations, REF_NAME) == Annotation(d.annotations, REF_NAME);
  }

  /** Whatever the file holds -- legacy kinds, missing kinds, malformed or repeated entries -- what a
      load leaves in a fresh store is canonical. */
  lemma {:induction false} LoadIsCanonical(parse: Parser, base: NameMap, entries: seq<Descriptor>)
    requires EmptyRefFails(parse) && Canonical(parse, base)
    ensures Canonical(parse, LoadInto(parse, base, entries))
    decreases |entries|
  {
    if entries != [] {
      NormalizedKeepsItsKey(parse, entries[0]);
      LoadIsCanonical(parse, LoadOne(parse, base, entries[0]), entries[1..]);
    }
  }

  /** Saving a canonical map and loading it into a fresh store gives the map back. */
  lemma {:induction false} RoundTrip(parse: Parser, list: seq<Descriptor>, nameMap: NameMap)
    requires Canonical(parse, nameMap) && SavedFrom(list, nameMap)
    ensures LoadInto(parse, map[], list) == nameMap
  {
    LoadOfSave(parse, map[], list, nameMap);
    forall k ensures SameAt(map[] + nameMap, nameMap, k) {
    }
    SameEverywhere(map[] + nameMap, nameMap);
  }

  /** Load, save, load again: the second load sees exactly what the first one did, for every file. */
  lemma {:induction false} LoadSaveLoad(parse: Parser, entries: seq<Descriptor>, list: seq<Descriptor>)
    requires EmptyRefFails(parse)
    requires SavedFrom(list, LoadInto(parse, map[], entries))
    ensures LoadInto(parse, map[], list) == LoadInto(parse, map[], entries)
  {
    var empty: NameMap := map[];
    assert Canonical(parse, empty);
    LoadIsCanonical(parse, empty, entries);
    RoundTrip(parse, list, LoadInto(parse, empty, entries));
  }

  /** The entry a load leaves under `k`, if the file has one: the last. */
  function LastFor(parse: Parser, entries: seq<Descriptor>, k: string): Option<Descriptor>
    decreases |entries|
  {
    if entries == [] then None
    else
      var last := entries[|entries| - 1];
      if LoadKey(parse, last.annotations) == Key(k) then Some(Normalized(last))
      else LastFor(parse, entries[..|entries| - 1], k)
  }

  lemma {:induction false} LoadAppends(parse: Parser, base: NameMap, a: seq<Descriptor>, b: seq<Descriptor>)
    ensures LoadInto(parse, base, a + b) == LoadInto(parse, LoadInto(parse, base, a), b)
    decreases |a|
  {
    if a == [] {
      assert a + b == b;
    } else {
      assert (a + b)[1..] == a[1..] + b;
      LoadAppends(parse, LoadOne(parse, base, a[0]), a[1..], b);
    }
  }

  lemma {:induction false} LoadKeepsTheLast(parse: Parser, base: NameMap, entries: seq<Descriptor>, k: string)
    ensures var r := LoadInto(parse, base, entries);
            match LastFor(parse, entries, k)
            case Some(d) => k in r && r[k] == d
            case None => SameAt(r, base, k)
    decreases |entries|
  {
    if entries != [] {
      var front, last := entries[..|entries| - 1], entries[|entries| - 1];
      assert entries == front + [last];
      LoadAppends(parse, base, front, [last]);
      LoadKeepsTheLast(parse, base, front, k);
      var before := LoadInto(parse, base, front);
      assert LoadInto(parse, before, [last]) == LoadOne(parse, before, last);
    }
  }

  /** Loading the same file again changes nothing. */
  lemma {:induction false} LoadAgain(parse: Parser, base: NameMap, entries: seq<Descriptor>)
    ensures var once := LoadInto(parse, base, entries); LoadInto(parse, once, entries) == once
  {
    var once := LoadInto(parse, base, entries);
    forall k ensures SameAt(LoadInto(parse, once, entries), once, k) {
      LoadKeepsTheLast(parse, base, entries, k);
      LoadKeepsTheLast(parse, once, entries, k);
    }
    SameEverywhere(LoadInto(parse, once, entries), once);
  }

  /** Whatever the file looks like, loading it is putting what it leaves in a fresh store over the map. */
  lemma {:induction false} LoadIsOver(parse: Parser, base: NameMap, entries: seq<Descriptor>)
    ensures LoadInto(parse, base, entries) == base + LoadInto(parse, map[], entries)
  {
    hide LoadInto, LastFor;
    forall k ensures SameAt(LoadInto(parse, base, entries), base + LoadInto(parse, map[], entries), k) {
      LoadKeepsTheLast(parse, base, entries, k);
      LoadKeepsTheLast(parse, map[], entries, k);
    }
    SameEverywhere(LoadInto(parse, base, entries), base + LoadInto(parse, map[], entries));
  }

  lemma {:induction false} LastForIsAnEntry(parse: Parser, entries: seq<Descriptor>, k: string)
    ensures match LastFor(parse, entries, k)
            case Some(r) => exists d :: d in entries && LoadKey(parse, d.annotations) == Key(k) && r == Normalized(d)
            case None => forall d | d in entries :: LoadKey(parse, d.annotations) != Key(k)
    decreases |entries|
  {
    hide LoadKey, Normalized;
    if entries != [] {
      var front, last := entries[..|entries| - 1], entries[|entries| - 1];
      assert entries == front + [last];
      LastForIsAnEntry(parse, front, k);
    }
  }

  /** A save and a load into a fresh store give back a name map exactly when each of its entries is what a
      load makes of it, and stands under the key a load derives. */
  lemma {:induction false} RoundTripExactlyWhen(parse: Parser, list: seq<Descriptor>, nameMap: NameMap)
    requires SavedFrom(list, nameMap)
    ensures LoadInto(parse, map[], list) == WithRefs(nameMap) <==> Canonical(parse, WithRefs(nameMap))
  {
    hide SavedFrom, LoadInto, LastFor;
    var saved := WithRefs(nameMap);
    if Canonical(parse, saved) {
      SavedFromWithRefs(list, nameMap);
      RoundTrip(parse, list, saved);
    }
    if LoadInto(parse, map[], list) == saved {
      forall k | k in saved ensures CanonicalEntry(parse, k, saved[k]) {
        LoadKeepsTheLast(parse, map[], list, k);
        LastForIsAnEntry(parse, list, k);
        var d :| d in list && LoadKey(parse, d.annotations) == Key(k) && saved[k] == Normalized(d);
        NormalizedKeepsItsKey(parse, d);
      }
    }
  }

  // ---------------------------------------------------------------------------
  // One key at a time

  /** An entry `d` under `x` minds the key `k`: nothing but `k`'s own entry is read back under `k`, and
      that one is canonical. */
  ghost predicate Minds(parse: Parser, k: string, x: string, d: Descriptor) {
    if x == k then CanonicalEntry(parse, k, d) else LoadKey(parse, d.annotations) != Key(k)
  }

  ghost predicate OwnKey(parse: Parser, nameMap: NameMap, k: string) {
    forall x | x in nameMap :: Minds(parse, k, x, nameMap[x])
  }

  /** Writing the references back changes nothing about a key that is minded. */
  lemma WithRefsMinds(parse: Parser, nameMap: NameMap, k: string)
    requires OwnKey(parse, nameMap, k)
    ensures OwnKey(parse, WithRefs(nameMap), k) && At(WithRefs(nameMap), k) == At(nameMap, k)
  {
    forall x | x in nameMap
      ensures Minds(parse, k, x, WithRef(nameMap[x])) && (x == k ==> WithRef(nameMap[x]) == nameMap[x])
    {
      var a := nameMap[x].annotations;
      assert Minds(parse, k, x, nameMap[x]);
      assert x == k ==> a[REF_NAME := a[REF_NAME]] == a;
      assert LoadKey(parse, WithRef(nameMap[x]).annotations) == LoadKey(parse, a);
    }
  }

  /** A load of what was saved finds under a minded key what the name map has there, whatever becomes of
      the other keys. */
  lemma {:induction false} SavedReadsBack(parse: Parser, list: seq<Descriptor>, nameMap: NameMap, k: string)
    requires SavedFrom(list, nameMap) && OwnKey(parse, nameMap, k)
    ensures LastFor(parse, list, k) == At(nameMap, k)
  {
    hide LastFor, SavedFrom, LoadKey, Normalized, WithRefs;
    WithRefsMinds(parse, nameMap, k);
    SavedMembers(list, nameMap);
    LastForIsAnEntry(parse, list, k);
    var saved := WithRefs(nameMap);
    if k in saved {
      assert IsEntry(saved[k], saved);
    }
    forall d | d in list && LoadKey(parse, d.annotations) == Key(k)
      ensures k in saved && saved[k] == d && Normalized(d) == d
    {
      var x :| x in saved && saved[x] == d;
      assert Minds(parse, k, x, d);
    }
  }
}
