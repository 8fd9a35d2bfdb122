/** The store object whose fields the critical sections of `IndexStore` describe. */
module Oci {
  import opened Content
  import opened Index
  import opened IndexStore

  /** `sort.SliceStable` with the save's ordering: insert each descriptor behind the ones it may not
      pass. */
  method SortImagesFirst(ds: seq<Descriptor>) returns (list: seq<Descriptor>)
    ensures StablySorted(list, ds)
    ensures list == ImagesFirst(ds)
  {
    list := [];
    var images := 0;
    for i := 0 to |ds|
      invariant 0 <= images <= |list|
      invariant list[..images] == Select(ds[..i], true)
      invariant list[images..] == Select(ds[..i], false)
    {
      assert ds[..i + 1] == ds[..i] + [ds[i]];
      SelectAppends(ds[..i], [ds[i]], true);
      SelectAppends(ds[..i], [ds[i]], false);
      if IsImage(ds[i]) {
        list := list[..images] + [ds[i]] + list[images..];
        images := images + 1;
      } else {
        list := list + [ds[i]];
      }
    }
    assert ds[..|ds|] == ds;
    assert list == list[..images] + list[images..];
    StableSortIsImagesFirst(list, ds);
  }

  class OCI {
    const parse: Parser
    var nameMap: NameMap
    var file: IndexFile
    var durable: IndexFile
    var lastDurable: Option<int>

    /** A store opened over whatever `index.json` is there; nothing is known to be durable but that. */
    constructor (parse: Parser, file: IndexFile)
      ensures this.parse == parse && State() == IndexState(map[], file, file, None)
    {
      this.parse, this.nameMap, this.file, this.durable, this.lastDurable := parse, map[], file, file, None;
    }

    function State(): IndexState
      reads this
    {
      IndexState(nameMap, file, durable, lastDurable)
    }

    method LoadIndex() returns (ok: bool)
      modifies this
      ensures Step(parse, old(State()), Load, State(), ok)
    {
      match file
      case Absent => return true;
      case Corrupt => return false;
      case Json(entries) =>
        for i := 0 to |entries|
          invariant file == old(file) && durable == old(durable) && lastDurable == old(lastDurable)
          invariant LoadInto(parse, nameMap, entries[i..]) == LoadInto(parse, old(nameMap), entries)
        {
          assert entries[i..][1..] == entries[i + 1..];
          nameMap := LoadOne(parse, nameMap, entries[i]);
        }
        ok := true;
    }

    /** Lists the name map in whatever order the range visits it, writing the reference annotation
        back into each entry it passes. */
    method Range() returns (descs: seq<Descriptor>, ghost order: seq<string>)
      modifies this`nameMap
      ensures nameMap == WithRefs(old(nameMap))
      ensures IsOrder(order, old(nameMap).Keys) && descs == Listing(order, WithRefs(old(nameMap)))
    {
      descs, order := [], [];
      var pending := nameMap.Keys;
      while pending != {}
        invariant pending <= nameMap.Keys == old(nameMap).Keys
        invariant IsOrder(order, nameMap.Keys - pending)
        invariant descs == Listing(order, WithRefs(old(nameMap)))
        invariant forall k | k in nameMap ::
                    nameMap[k] == if k in pending then old(nameMap)[k] else WithRef(old(nameMap)[k])
        decreases pending
      {
        var k :| k in pending;
        nameMap := nameMap[k := WithRef(nameMap[k])];
        descs, order := descs + [nameMap[k]], order + [k];
        pending := pending - {k};
      }
    }

    /** Writes `index.json` through a temporary file and a rename, with fsyncs when `sync` is set.
        `end` is the clock when it is done. */
    method SaveIndexLocked(sync: bool, io: SaveIo, end: int) returns (ok: bool)
      modifies this
      ensures SaveStep(old(State()), State(), sync, io, end) && ok == SaveOk(sync, io)
    {
      var descs, order := Range();
      var list := SortImagesFirst(descs);
      if io.NoRename? {
        return false;
      }
      file := Json(list);
      assert SavedFrom(list, old(nameMap));
      if sync {
        if io.NoDirSync? {
          return false;
        }
        durable, lastDurable := file, Some(end);
      }
      ok := true;
    }

    method SaveIndex(io: SaveIo, end: int) returns (ok: bool)
      modifies this
      ensures Step(parse, old(State()), Save(end, io), State(), ok)
    {
      ok := SaveIndexLocked(true, io, end);
    }

    method SaveIndexCheckpointLocked(io: SaveIo, start: int, end: int) returns (ok: bool)
      modifies this
      ensures SaveStep(old(State()), State(), Due(old(lastDurable), start), io, end)
      ensures ok == SaveOk(Due(old(lastDurable), start), io)
    {
      ok := SaveIndexLocked(Due(lastDurable, start), io, end);
    }

    method AddIndex(desc: Descriptor, io: SaveIo, start: int, end: int) returns (ok: bool)
      modifies this
      ensures Step(parse, old(State()), Add(desc, start, end, io), State(), ok)
    {
      var key := AddKey(parse, desc.annotations);
      match key
      case BadReference => return false;
      case NoKey => return true;
      case Key(k) =>
        if k in nameMap && nameMap[k] == desc {
          return true;
        }
        nameMap := nameMap[k := desc];
        ok := SaveIndexCheckpointLocked(io, start, end);
    }

    /** The critical section of `ociPusher.Push` for the root: load, store under the target's
        reference, save. The blob itself has not been written yet. */
    method PushRootEntry(ref: string, desc: Descriptor, io: SaveIo, start: int, end: int) returns (ok: bool)
      modifies this
      ensures Step(parse, old(State()), PushRoot(ref, desc, start, end, io), State(), ok)
    {
      var loaded := LoadIndex();
      if !loaded {
        return false;
      }
      nameMap := nameMap[RootKey(ref, desc) := Normalized(desc)];
      ok := SaveIndexCheckpointLocked(io, start, end);
    }

    method RemoveFromIndex(key: string)
      modifies this`nameMap
      ensures Step(parse, old(State()), Remove(key), State(), true)
    {
      nameMap := nameMap - {key};
    }

    /** The range of `UpdateAnnotations`: each matching entry gets new annotations under its old key. */
    method RewriteMatching(matches: Descriptor -> bool, apply: Annotations -> Annotations) returns (matched: nat)
      modifies this`nameMap
      ensures nameMap == Updated(old(nameMap), matches, apply)
      ensures matched == |Matching(old(nameMap), matches)|
    {
      matched := 0;
      ghost var l, seen := nameMap, {};
      var pending := nameMap.Keys;
      while pending != {}
        invariant pending <= l.Keys && seen !! pending
        invariant nameMap == Halfway(l, pending, matches, apply)
        invariant forall k :: k in seen <==> k in l && k !in pending && matches(l[k])
        invariant matched == |seen|
        decreases pending
      {
        var k :| k in pending;
        HalfwayStep(l, pending, k, matches, apply);
        if matches(nameMap[k]) {
          nameMap := nameMap[k := Rewritten(nameMap[k], matches, apply)];
          matched, seen := matched + 1, seen + {k};
        }
        pending := pending - {k};
      }
      assert seen == Matching(l, matches);
    }

    static function Halfway(
      l: NameMap, pending: set<string>, matches: Descriptor -> bool, apply: Annotations -> Annotations): NameMap
    {
      map k | k in l :: if k in pending then l[k] else Rewritten(l[k], matches, apply)
    }

    static lemma HalfwayStep(
      l: NameMap, pending: set<string>, k: string, matches: Descriptor -> bool, apply: Annotations -> Annotations)
      requires k in pending && k in l
      ensures Halfway(l, pending, matches, apply)[k] == l[k]
      ensures Halfway(l, pending - {k}, matches, apply) ==
              Halfway(l, pending, matches, apply)[k := Rewritten(l[k], matches, apply)]
      ensures !matches(l[k]) ==> Halfway(l, pending - {k}, matches, apply) == Halfway(l, pending, matches, apply)
    {
    }

    /** Nothing is saved when nothing matches; otherwise the save is durable. */
    method UpdateAnnotations(matches: Descriptor -> bool, apply: Annotations -> Annotations, io: SaveIo, end: int)
      returns (ok: bool, matched: nat)
      modifies this
      ensures Step(parse, old(State()), Update(matches, apply, end, io), State(), ok)
      ensures matched == if old(file).Corrupt? then 0 else |Matching(Loaded(parse, old(State())).nameMap, matches)|
    {
      var loaded := LoadIndex();
      if !loaded {
        return false, 0;
      }
      ghost var l := nameMap;
      matched := RewriteMatching(matches, apply);
      if matched == 0 {
        NothingMatches(l, matches, apply);
        return true, 0;
      }
      ok := SaveIndexLocked(true, io, end);
    }

    static lemma NothingMatches(nameMap: NameMap, matches: Descriptor -> bool, apply: Annotations -> Annotations)
      requires |Matching(nameMap, matches)| == 0
      ensures Updated(nameMap, matches, apply) == nameMap
    {
      forall k | k in nameMap ensures !matches(nameMap[k]) {
        assert k !in Matching(nameMap, matches);
      }
    }

    /** `Walk`: load, then snapshot every entry under the lock; the callbacks run on the snapshot. */
    method Snapshot() returns (ok: bool, entries: seq<Descriptor>)
      modifies this
      ensures Step(parse, old(State()), Load, State(), ok)
      ensures ok ==> forall d :: d in entries <==> IsEntry(d, nameMap)
      ensures !ok ==> entries == []
    {
      entries := [];
      ok := LoadIndex();
      if ok {
        var pending := nameMap.Keys;
        while pending != {}
          invariant pending <= nameMap.Keys
          invariant forall d :: d in entries <==> exists k :: k in nameMap && k !in pending && nameMap[k] == d
          decreases pending
        {
          var k :| k in pending;
          ghost var before := entries;
          entries := entries + [nameMap[k]];
          pending := pending - {k};
          assert forall d :: d in entries <==> d in before || d == nameMap[k];
        }
      }
    }
  }
}
