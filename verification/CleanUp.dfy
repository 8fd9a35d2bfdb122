/** Mark-and-sweep over the blob directory, and what it leaves of every indexed graph. */
module GarbageCollection {
  import opened Content
  import opened Graph
  import opened Index
  import opened IndexStore
  import opened Oci

  // ---------------------------------------------------------------------------
  // What is marked, by paths

  function Peeked(c: Codec, disk: Disk, d: Digest): Option<Refs> {
    if d in disk.files && d !in disk.faults then c.peek(disk.files[d]) else None
  }

  /** From `root` down to some manifest, through valid digests of readable lists. */
  ghost predicate MarkPath(c: Codec, disk: Disk, root: Digest, path: seq<Digest>)
    decreases |path|
  {
    && |path| > 0
    && path[0] == root && Valid(root)
    && (|path| > 1 ==>
          && Peeked(c, disk, root).Some?
          && path[1] in Peeked(c, disk, root).value.manifests
          && MarkPath(c, disk, path[1], path[1..]))
  }

  /** A manifest names itself, its config and its layers. Only the encoded part is kept. */
  ghost predicate Names(c: Codec, disk: Disk, d: Digest, hex: string) {
    || hex == d.hex
    || (&& Peeked(c, disk, d).Some?
        && exists x <- [Peeked(c, disk, d).value.config] + Peeked(c, disk, d).value.layers :: Valid(x) && x.hex == hex)
  }

  ghost predicate Reached(c: Codec, disk: Disk, root: Digest, hex: string) {
    exists path :: MarkPath(c, disk, root, path) && Names(c, disk, path[|path| - 1], hex)
  }

  /** Some entry of the index leads to it. */
  ghost predicate Live(c: Codec, disk: Disk, nameMap: NameMap, hex: string) {
    exists desc :: IsEntry(desc, nameMap) && Reached(c, disk, desc.digest, hex)
  }

  ghost predicate ReachedBelow(c: Codec, disk: Disk, root: Digest, hex: string) {
    && Peeked(c, disk, root).Some?
    && exists s <- Peeked(c, disk, root).value.manifests :: Reached(c, disk, s, hex)
  }

  lemma ReachedFromAbove(c: Codec, disk: Disk, root: Digest, s: Digest, hex: string)
    requires Valid(root) && Peeked(c, disk, root).Some? && s in Peeked(c, disk, root).value.manifests
    requires Reached(c, disk, s, hex)
    ensures Reached(c, disk, root, hex)
  {
    hide Names, Peeked;
    var tail :| MarkPath(c, disk, s, tail) && Names(c, disk, tail[|tail| - 1], hex);
    var path := [root] + tail;
    assert path[1..] == tail && path[|path| - 1] == tail[|tail| - 1];
    assert MarkPath(c, disk, root, path);
  }

  lemma ReachedBelowOrHere(c: Codec, disk: Disk, root: Digest, hex: string)
    requires Reached(c, disk, root, hex)
    ensures Valid(root) && (Names(c, disk, root, hex) || ReachedBelow(c, disk, root, hex))
  {
    hide Names, Peeked;
    var path :| MarkPath(c, disk, root, path) && Names(c, disk, path[|path| - 1], hex);
    if |path| > 1 {
      assert path[1..][|path[1..]| - 1] == path[|path| - 1];
      assert Reached(c, disk, path[1], hex);
    }
  }

  lemma ReachedUnfolds(c: Codec, disk: Disk, root: Digest, hex: string)
    ensures Reached(c, disk, root, hex) <==>
            Valid(root) && (Names(c, disk, root, hex) || ReachedBelow(c, disk, root, hex))
  {
    hide Names, Peeked;
    if Reached(c, disk, root, hex) {
      ReachedBelowOrHere(c, disk, root, hex);
    }
    if Valid(root) && Names(c, disk, root, hex) {
      assert MarkPath(c, disk, root, [root]) && [root][|[root]| - 1] == root;
    }
    if Valid(root) && ReachedBelow(c, disk, root, hex) {
      var s :| s in Peeked(c, disk, root).value.manifests && Reached(c, disk, s, hex);
      ReachedFromAbove(c, disk, root, s, hex);
    }
  }

  /** What the sweep keeps: everything outside the canonical directory, and the live files in it. */
  ghost predicate Kept(c: Codec, disk: Disk, nameMap: NameMap, d: Digest) {
    d.alg == CANONICAL ==> Live(c, disk, nameMap, d.hex)
  }

  ghost function Swept(c: Codec, disk: Disk, nameMap: NameMap): Files {
    map d | d in disk.files && Kept(c, disk, nameMap, d) :: disk.files[d]
  }

  ghost function Collected(c: Codec, disk: Disk, nameMap: NameMap): Disk {
    Disk(Swept(c, disk, nameMap), disk.faults)
  }

  function SizeOf(files: Files, stats: Digest -> bool, d: Digest): nat
    requires d in files
  {
    if stats(d) then |files[d]| else 0
  }

  /** The bytes in the files whose size can be read. */
  ghost function Measured(files: Files, stats: Digest -> bool): nat {
    if files == map[] then 0
    else
      var d :| d in files;
      SizeOf(files, stats, d) + Measured(files - {d}, stats)
  }

  lemma {:induction false} MeasuredMinus(files: Files, stats: Digest -> bool, d: Digest)
    requires d in files
    ensures Measured(files, stats) == SizeOf(files, stats, d) + Measured(files - {d}, stats)
    decreases |files|
  {
    var e :| e in files && Measured(files, stats) == SizeOf(files, stats, e) + Measured(files - {e}, stats);
    if e != d {
      assert |files - {e}| < |files| && |files - {d}| < |files| by {
        assert (files - {e}).Keys == files.Keys - {e} && (files - {d}).Keys == files.Keys - {d};
        assert |files.Keys - {e}| == |files.Keys| - 1 && |files.Keys - {d}| == |files.Keys| - 1;
      }
      MeasuredMinus(files - {e}, stats, d);
      MeasuredMinus(files - {d}, stats, e);
      assert files - {e} - {d} == files - {d} - {e};
      assert SizeOf(files - {e}, stats, d) == SizeOf(files, stats, d);
      assert SizeOf(files - {d}, stats, e) == SizeOf(files, stats, e);
    }
  }

  /** The measure is the number of bytes, file by file: none without files, and one more file adds its
      length, if its size can be read. */
  lemma MeasuredIsTheBytes(files: Files, stats: Digest -> bool, d: Digest, b: Bytes)
    ensures Measured(map[], stats) == 0
    ensures d !in files ==> Measured(files[d := b], stats) == Measured(files, stats) + if stats(d) then |b| else 0
  {
    if d !in files {
      MeasuredMinus(files[d := b], stats, d);
      assert files[d := b] - {d} == files;
    }
  }

  // ---------------------------------------------------------------------------
  // The collector

  /** How the system calls of one collection go: closing a manifest after decoding it, listing the
      directory, removing a file, and reading a directory entry's size. */
  datatype CleanUpIo = CleanUpIo(
    closes: Digest -> bool, lists: bool, removes: Digest -> bool, stats: Digest -> bool)

  ghost predicate CollectionWorks(io: CleanUpIo) {
    io.lists && forall d :: io.closes(d) && io.removes(d)
  }

  class Layout {
    const oci: OCI
    const codec: Codec
    const faults: map<Digest, Fault>
    var files: Files

    constructor (oci: OCI, codec: Codec, files: Files, faults: map<Digest, Fault>)
      ensures this.oci == oci && this.codec == codec && this.files == files && this.faults == faults
    {
      this.oci, this.codec, this.files, this.faults := oci, codec, files, faults;
    }

    function Blobs(): Disk
      reads this
    {
      Disk(files, faults)
    }

    /** `processManifest`: marks a digest and all it leads to. Its error is the failed close of the
        manifest it read, which only matters at the top. */
    method Mark(d: Digest, marks: set<string>, io: CleanUpIo, ghost rank: Digest -> nat)
      returns (marked: set<string>, ok: bool)
      requires Acyclic(codec, Blobs(), rank)
      ensures forall h :: h in marked <==> h in marks || Reached(codec, Blobs(), d, h)
      ensures io.closes(d) ==> ok
      decreases rank(d), 1
    {
      forall h ensures Reached(codec, Blobs(), d, h) <==>
                       Valid(d) && (Names(codec, Blobs(), d, h) || ReachedBelow(codec, Blobs(), d, h)) {
        ReachedUnfolds(codec, Blobs(), d, h);
      }
      marked, ok := marks, true;
      if !Valid(d) {
        return;
      }
      marked := marked + {d.hex};
      if d !in files || Blobs().Fails(d, StatFails) || Blobs().Fails(d, OpenFails) {
        return;
      }
      ok := io.closes(d);
      var peeked := if d in faults then None else codec.peek(files[d]);
      if peeked.None? {
        return;
      }
      var leaves := MarkLeaves([peeked.value.config] + peeked.value.layers);
      marked := MarkSubs(peeked.value.manifests, marked + leaves, io, rank(d), rank);
    }

    method MarkLeaves(ds: seq<Digest>) returns (hexes: set<string>)
      ensures forall h :: h in hexes <==> exists x <- ds :: Valid(x) && x.hex == h
    {
      hexes := {};
      for i := 0 to |ds|
        invariant forall h :: h in hexes <==> exists j :: 0 <= j < i && Valid(ds[j]) && ds[j].hex == h
      {
        if Valid(ds[i]) {
          hexes := hexes + {ds[i].hex};
        }
      }
    }

    /** A child is marked before it is processed, and its own error is dropped. */
    method MarkSubs(ds: seq<Digest>, marks: set<string>, io: CleanUpIo, ghost bound: nat, ghost rank: Digest -> nat)
      returns (marked: set<string>)
      requires Acyclic(codec, Blobs(), rank) && forall s | s in ds && Valid(s) :: rank(s) < bound
      ensures forall h :: h in marked <==> h in marks || exists s <- ds :: Reached(codec, Blobs(), s, h)
      decreases bound, 0
    {
      marked := marks;
      for i := 0 to |ds|
        invariant forall h :: h in marked <==>
                    h in marks || exists j :: 0 <= j < i && Reached(codec, Blobs(), ds[j], h)
      {
        forall h ensures Reached(codec, Blobs(), ds[i], h) ==> Valid(ds[i])
                 ensures Valid(ds[i]) && h == ds[i].hex ==> Reached(codec, Blobs(), ds[i], h) {
          ReachedUnfolds(codec, Blobs(), ds[i], h);
        }
        if Valid(ds[i]) {
          var ok;
          marked, ok := Mark(ds[i], marked + {ds[i].hex}, io, rank);
        }
      }
    }

    /** The walk over the index entries; a failing close of a root manifest fails the whole walk,
        after every entry has been visited. */
    method MarkAll(entries: seq<Descriptor>, io: CleanUpIo, ghost rank: Digest -> nat)
      returns (marked: set<string>, ok: bool)
      requires Acyclic(codec, Blobs(), rank)
      ensures forall h :: h in marked <==> exists e <- entries :: Reached(codec, Blobs(), e.digest, h)
      ensures (forall d :: io.closes(d)) ==> ok
    {
      marked, ok := {}, true;
      for i := 0 to |entries|
        invariant forall h :: h in marked <==> exists j :: 0 <= j < i && Reached(codec, Blobs(), entries[j].digest, h)
        invariant (forall d :: io.closes(d)) ==> ok
      {
        var closed;
        marked, closed := Mark(entries[i].digest, marked, io, rank);
        ok := ok && closed;
      }
    }

    /** Deletes the unmarked files of the canonical directory, in any order, until one cannot be
        removed. The size of that one has been counted by then although it stays. */
    method Sweep(marks: set<string>, io: CleanUpIo)
      returns (ok: bool, count: nat, size: nat, ghost stuck: Option<Digest>)
      modifies this`files
      ensures Between(old(files), files, marks)
      ensures ok == stuck.None?
      ensures ok ==> forall d | d in files && d.alg == CANONICAL :: d.hex in marks
      ensures !ok ==> stuck.value in files && !io.removes(stuck.value)
      ensures count == |old(files)| - |files|
      ensures size == Measured(old(files), io.stats) - Measured(files, io.stats)
                      + if ok then 0 else SizeOf(files, io.stats, stuck.value)
    {
      hide Measured, SizeOf;
      count, size, stuck := 0, 0, None;
      var todo := set d | d in files && d.alg == CANONICAL;
      while todo != {}
        invariant todo <= files.Keys && forall d | d in todo :: d.alg == CANONICAL
        invariant Between(old(files), files, marks)
        invariant forall d | d in files && d.alg == CANONICAL && d !in todo :: d.hex in marks
        invariant count == |old(files)| - |files|
        invariant size == Measured(old(files), io.stats) - Measured(files, io.stats)
        decreases todo
      {
        var d :| d in todo;
        todo := todo - {d};
        if d.hex !in marks {
          MeasuredMinus(files, io.stats, d);
          size := size + SizeOf(files, io.stats, d);
          if !io.removes(d) {
            return false, count, size, Some(d);
          }
          ghost var before := files;
          files := files - {d};
          assert files.Keys == before.Keys - {d};
          count := count + 1;
        }
      }
      ok := true;
    }

    /** The whole collection. It loads the index twice, as the walk does so again. */
    method CleanUp(io: CleanUpIo, ghost rank: Digest -> nat)
      returns (ok: bool, count: nat, size: nat, ghost stuck: Option<Digest>)
      requires Acyclic(codec, Blobs(), rank)
      modifies this`files, oci
      ensures oci.State() == Loaded(oci.parse, Loaded(oci.parse, old(oci.State())))
      ensures !old(oci.file).Corrupt? && CollectionWorks(io) ==> ok
      ensures ok ==> files == Swept(codec, old(Blobs()), oci.nameMap)
      ensures forall d | d in files :: d in old(files) && files[d] == old(files)[d]
      ensures forall d | d in old(files) && Kept(codec, old(Blobs()), oci.nameMap, d) :: d in files
      ensures stuck.Some? ==> !ok && stuck.value in files && !io.removes(stuck.value)
      ensures stuck.None? && !ok ==> files == old(files)
      ensures count == |old(files)| - |files|
      ensures size == Measured(old(files), io.stats) - Measured(files, io.stats)
                      + if stuck.None? then 0 else SizeOf(files, io.stats, stuck.value)
    {
      hide Reached, LoadInto, Measured, SizeOf, IsEntry, Acyclic;
      ok, count, size, stuck := false, 0, 0, None;
      var loaded := oci.LoadIndex();
      if !loaded {
        return;
      }
      var walked, entries := oci.Snapshot();
      if !walked {
        return;
      }
      var marks, closed := MarkAll(entries, io, rank);
      assert MarksAreLive(marks) by {
        forall h ensures h in marks <==> Live(codec, Blobs(), oci.nameMap, h) {
          LiveByEntries(entries, h);
        }
      }
      if !closed || !io.lists {
        return;
      }
      ok, count, size, stuck := Sweep(marks, io);
    }

    /** `RemoveArtifact`: load, drop the key, save durably. */
    method RemoveArtifact(key: string, io: SaveIo, end: int) returns (ok: bool)
      modifies oci
      ensures old(oci.file).Corrupt? ==> !ok && oci.State() == old(oci.State())
      ensures !old(oci.file).Corrupt? ==>
                var l := Loaded(oci.parse, old(oci.State()));
                && SaveStep(l.(nameMap := l.nameMap - {key}), oci.State(), true, io, end)
                && ok == SaveOk(true, io)
    {
      ok := oci.LoadIndex();
      if ok {
        oci.RemoveFromIndex(key);
        ok := oci.SaveIndex(io, end);
      }
    }

    /** The `store remove` command on one artifact. Whatever the index file looks like, and whatever goes
        wrong, every entry that is left keeps its verdict: what checked out before still does, problem
        for problem. */
    method RemoveAndCleanUp(key: string, io: SaveIo, end: int, gc: CleanUpIo, ghost rank: Digest -> nat)
      returns (ok: bool)
      requires PeekAgrees(codec) && Acyclic(codec, Blobs(), rank)
      modifies this`files, oci
      ensures ok ==> files == Swept(codec, old(Blobs()), oci.nameMap)
      ensures !old(oci.file).Corrupt? && io.AllWritten? && CollectionWorks(gc) ==> ok
      ensures Acyclic(codec, Blobs(), rank)
      ensures forall desc | IsEntry(desc, oci.nameMap) && Valid(desc.digest) ::
                Problems(codec, Blobs(), rank, desc) == Problems(codec, old(Blobs()), rank, desc)
      // A load keeps a canonical name map canonical, whatever the file holds.
      ensures ok && Canonical(oci.parse, Loaded(oci.parse, old(oci.State())).nameMap) ==>
                oci.nameMap == Loaded(oci.parse, old(oci.State())).nameMap - {key} && Synced(oci.parse, oci.State())
    {
      ok := RemoveArtifact(key, io, end);
      if ok {
        ghost var saved := oci.State();
        var cleaned, count, size, stuck := CleanUp(gc, rank);
        ok := cleaned;
        SurvivorsKeepTheirProblems(codec, old(Blobs()), Blobs(), oci.nameMap, rank);
        RemovalSyncs(oci.parse, old(oci.State()), saved, oci.State(), key, io, end);
      }
    }

    static lemma RemovalSyncs(
      parse: Parser, s: IndexState, saved: IndexState, s': IndexState, key: string, io: SaveIo, end: int)
      requires var l := Loaded(parse, s); SaveStep(l.(nameMap := l.nameMap - {key}), saved, true, io, end)
      requires s' == Loaded(parse, Loaded(parse, saved)) && !io.NoRename?
      ensures Canonical(parse, Loaded(parse, s).nameMap) ==>
                s'.nameMap == Loaded(parse, s).nameMap - {key} && Synced(parse, s')
    {
      hide LoadInto, SavedFrom, CanonicalEntry;
      var l := Loaded(parse, s);
      if Canonical(parse, l.nameMap) {
        SaveSyncs(parse, l.(nameMap := l.nameMap - {key}), saved, true, io, end);
        SyncedLoadsAsIs(parse, saved);
      }
    }

    /** Collecting again removes nothing and reports nothing, whatever the index file holds. */
    method CleanUpTwice(
      io: CleanUpIo, again: CleanUpIo, ghost rank: Digest -> nat) returns (ok: bool, count: nat, size: nat)
      requires Acyclic(codec, Blobs(), rank)
      modifies this`files, oci
      ensures ok ==> count == 0 && size == 0 && files == Swept(codec, old(Blobs()), oci.nameMap)
    {
      ok, count, size := false, 0, 0;
      ghost var before, parse, s := Blobs(), oci.parse, oci.State();
      var first, _, _, _ := CleanUp(io, rank);
      if first {
        LoadedAgain(parse, s);
        ghost var swept, nameMap := files, oci.nameMap;
        FewerFilesStayAcyclic(codec, before, Blobs(), rank);
        SecondCollectionRemovesNothing(codec, before, nameMap, rank);
        ghost var stuck;
        ok, count, size, stuck := CleanUp(again, rank);
      }
    }

    static lemma LoadedAgain(parse: Parser, s: IndexState)
      ensures var l := Loaded(parse, Loaded(parse, s)); Loaded(parse, Loaded(parse, l)) == l
    {
      if s.file.Json? {
        LoadAgain(parse, s.nameMap, s.file.entries);
      }
    }

    ghost predicate MarksAreLive(marks: set<string>)
      reads this, oci
    {
      forall h :: h in marks <==> Live(codec, Blobs(), oci.nameMap, h)
    }

    lemma LiveByEntries(entries: seq<Descriptor>, h: string)
      requires forall d :: d in entries <==> IsEntry(d, oci.nameMap)
      ensures Live(codec, Blobs(), oci.nameMap, h) <==> exists e <- entries :: Reached(codec, Blobs(), e.digest, h)
    {
    }
  }

  /** A sweep in progress: files only leave, and marked ones never do. */
  ghost predicate Between(before: Files, after: Files, marks: set<string>) {
    && (forall d | d in after :: d in before && after[d] == before[d])
    && (forall d | d in before && (d.alg == CANONICAL ==> d.hex in marks) :: d in after)
  }

  // ---------------------------------------------------------------------------
  // What a collection leaves of the graphs the index names

  /** `after` lost nothing that `root` leads to. */
  ghost predicate Spares(c: Codec, before: Disk, after: Disk, root: Digest) {
    && after.faults == before.faults
    && (forall d | d in after.files :: d in before.files && after.files[d] == before.files[d])
    && (forall d | d in before.files && (d.alg == CANONICAL ==> Reached(c, before, root, d.hex)) :: d in after.files)
  }

  lemma FewerFilesStayAcyclic(c: Codec, before: Disk, after: Disk, rank: Digest -> nat)
    requires Acyclic(c, before, rank) && after.faults == before.faults
    requires forall d | d in after.files :: d in before.files && after.files[d] == before.files[d]
    ensures Acyclic(c, after, rank)
  {
  }

  lemma SpareBlob(c: Codec, before: Disk, after: Disk, root: Digest, desc: Descriptor)
    requires Spares(c, before, after, root) && Reached(c, before, root, desc.digest.hex)
    ensures CheckBlob(c, after, desc) == CheckBlob(c, before, desc)
    ensures Peeked(c, after, desc.digest) == Peeked(c, before, desc.digest)
    ensures Opened(c, after, desc) == Opened(c, before, desc)
  {
  }

  /** What the checker opens and looks at, the collector has marked. */
  lemma OpenedIsMarked(c: Codec, disk: Disk, desc: Descriptor, x: Descriptor)
    requires PeekAgrees(c) && Valid(desc.digest) && Opened(c, disk, desc).Some?
    ensures x in Leaves(Opened(c, disk, desc).value) ==> Reached(c, disk, desc.digest, x.digest.hex)
    ensures Peeked(c, disk, desc.digest).Some?
    ensures x in Subs(Opened(c, disk, desc).value) ==>
              x.digest in Peeked(c, disk, desc.digest).value.manifests && Valid(x.digest)
  {
    var m := Opened(c, disk, desc).value;
    var p := Peeked(c, disk, desc.digest).value;
    ReachedUnfolds(c, disk, desc.digest, x.digest.hex);
    if x in Leaves(m) {
      ValidOnlyMembers([m.config] + m.layers, x);
      var i :| 0 <= i < |[m.config] + m.layers| && ([m.config] + m.layers)[i] == x;
      assert ([p.config] + p.layers)[i] == x.digest;
    }
    if x in Subs(m) {
      ValidOnlyMembers(m.manifests, x);
      var i :| 0 <= i < |m.manifests| && m.manifests[i] == x;
      assert p.manifests[i] == x.digest;
    }
  }

  lemma SparesBelow(c: Codec, before: Disk, after: Disk, root: Digest, sub: Digest)
    requires Spares(c, before, after, root) && Valid(root)
    requires Peeked(c, before, root).Some? && sub in Peeked(c, before, root).value.manifests
    ensures Spares(c, before, after, sub)
  {
    forall d | d in before.files && (d.alg == CANONICAL ==> Reached(c, before, sub, d.hex)) ensures d in after.files {
      ReachedUnfolds(c, before, root, d.hex);
    }
  }

  lemma {:induction false} SameLeafProblems(c: Codec, before: Disk, after: Disk, leaves: seq<Descriptor>)
    requires forall l | l in leaves :: CheckBlob(c, after, l) == CheckBlob(c, before, l)
    ensures LeafProblems(c, after, leaves) == LeafProblems(c, before, leaves)
  {
    if leaves != [] {
      SameLeafProblems(c, before, after, leaves[1..]);
    }
  }

  lemma {:induction false} SameSubProblems(
    c: Codec, before: Disk, after: Disk, rank: Digest -> nat, subs: seq<Descriptor>, bound: nat)
    requires PeekAgrees(c) && Acyclic(c, before, rank) && Acyclic(c, after, rank)
    requires forall s | s in subs :: rank(s.digest) < bound && Valid(s.digest) && Spares(c, before, after, s.digest)
    ensures SubProblems(c, after, rank, subs, bound) == SubProblems(c, before, rank, subs, bound)
    decreases bound, 0, |subs|
  {
    if subs != [] {
      SparedGraphKeepsItsProblems(c, before, after, rank, subs[0]);
      SameSubProblems(c, before, after, rank, subs[1..], bound);
    }
  }

  /** Losing only files a root does not lead to changes no problem the checker reports below it. */
  lemma {:induction false} SparedGraphKeepsItsProblems(
    c: Codec, before: Disk, after: Disk, rank: Digest -> nat, desc: Descriptor)
    requires PeekAgrees(c) && Acyclic(c, before, rank) && Acyclic(c, after, rank)
    requires Valid(desc.digest) && Spares(c, before, after, desc.digest)
    ensures Problems(c, after, rank, desc) == Problems(c, before, rank, desc)
    decreases rank(desc.digest), 1, 0
  {
    hide PeekAgrees, Acyclic, Spares, Reached, Leaves, Subs, Peeked;
    ReachedUnfolds(c, before, desc.digest, desc.digest.hex);
    SpareBlob(c, before, after, desc.digest, desc);
    if Opened(c, before, desc).Some? {
      var m := Opened(c, before, desc).value;
      forall l | l in Leaves(m) ensures CheckBlob(c, after, l) == CheckBlob(c, before, l) {
        OpenedIsMarked(c, before, desc, l);
        SpareBlob(c, before, after, desc.digest, l);
      }
      SameLeafProblems(c, before, after, Leaves(m));
      forall s | s in Subs(m)
        ensures rank(s.digest) < rank(desc.digest) && Valid(s.digest) && Spares(c, before, after, s.digest)
      {
        SubRank(c, before, rank, desc, s);
        OpenedIsMarked(c, before, desc, s);
        SparesBelow(c, before, after, desc.digest, s.digest);
      }
      SameSubProblems(c, before, after, rank, Subs(m), rank(desc.digest));
    }
  }

  /** A complete or partial collection: every entry of the index keeps its problems, each of them. */
  lemma {:induction false} SurvivorsKeepTheirProblems(
    c: Codec, before: Disk, after: Disk, nameMap: NameMap, rank: Digest -> nat)
    requires PeekAgrees(c) && Acyclic(c, before, rank) && after.faults == before.faults
    requires forall d | d in after.files :: d in before.files && after.files[d] == before.files[d]
    requires forall d | d in before.files && Kept(c, before, nameMap, d) :: d in after.files
    ensures Acyclic(c, after, rank)
    ensures forall desc | IsEntry(desc, nameMap) && Valid(desc.digest) ::
              Problems(c, after, rank, desc) == Problems(c, before, rank, desc)
  {
    FewerFilesStayAcyclic(c, before, after, rank);
    forall desc | IsEntry(desc, nameMap) && Valid(desc.digest)
      ensures Problems(c, after, rank, desc) == Problems(c, before, rank, desc)
    {
      assert forall h | Reached(c, before, desc.digest, h) :: Live(c, before, nameMap, h);
      SparedGraphKeepsItsProblems(c, before, after, rank, desc);
    }
  }

  // ---------------------------------------------------------------------------
  // Nothing else is kept

  /** What a manifest at `desc` names, itself included, as its bytes decode. */
  ghost predicate Mentions(c: Codec, files: Files, desc: Descriptor, hex: string) {
    || desc.digest.hex == hex
    || (desc.digest in files && c.decode(files[desc.digest]).Some?
        && var m := c.decode(files[desc.digest]).value;
           exists l <- [m.config] + m.layers :: Valid(l.digest) && l.digest.hex == hex)
  }

  /** Some manifest that the bytes below `root` lead to mentions it. */
  ghost predicate MentionedBelow(c: Codec, files: Files, root: Descriptor, hex: string) {
    exists path :: NamedPath(c, files, path) && path[0] == root && Mentions(c, files, End(path), hex)
  }

  lemma PeekedIsDecoded(c: Codec, disk: Disk, desc: Descriptor)
    requires PeekAgrees(c) && Opened(c, disk, desc).Some?
    ensures desc.digest in disk.files && c.decode(disk.files[desc.digest]) == Opened(c, disk, desc)
    ensures var m := Opened(c, disk, desc).value;
            Peeked(c, disk, desc.digest) == Some(Refs(m.config.digest, Digests(m.layers), Digests(m.manifests)))
  {
  }

  lemma NamedHereExactlyWhenMentioned(c: Codec, disk: Disk, desc: Descriptor, hex: string)
    requires PeekAgrees(c) && Opened(c, disk, desc).Some?
    ensures Names(c, disk, desc.digest, hex) <==> Mentions(c, disk.files, desc, hex)
  {
    PeekedIsDecoded(c, disk, desc);
    var m := Opened(c, disk, desc).value;
    hide Opened, Peeked, PeekAgrees, Valid;
    var parts := [m.config] + m.layers;
    assert Digests(parts) == [m.config.digest] + Digests(m.layers);
    forall l | l in parts ensures l.digest in Digests(parts) {
      var i :| 0 <= i < |parts| && parts[i] == l;
      assert Digests(parts)[i] == l.digest;
    }
    forall x | x in Digests(parts) ensures exists l :: l in parts && l.digest == x {
      var i :| 0 <= i < |parts| && Digests(parts)[i] == x;
      assert parts[i] in parts;
    }
  }

  lemma RootIsOpened(c: Codec, disk: Disk, root: Descriptor)
    requires Intact(c, disk, root)
    ensures Opened(c, disk, root).Some?
  {
    assert Visible(c, disk, root, [root]) && End([root]) == root;
  }

  lemma {:induction false} MarkedIsMentioned(
    c: Codec, disk: Disk, root: Descriptor, path: seq<Digest>, hex: string)
    requires PeekAgrees(c) && Intact(c, disk, root)
    requires MarkPath(c, disk, root.digest, path) && Names(c, disk, path[|path| - 1], hex)
    ensures MentionedBelow(c, disk.files, root, hex)
    decreases |path|
  {
    hide Mentions, Names, Opened, Peeked;
    RootIsOpened(c, disk, root);
    if |path| == 1 {
      NamedHereExactlyWhenMentioned(c, disk, root, hex);
      assert NamedPath(c, disk.files, [root]) && End([root]) == root;
    } else {
      PeekedIsDecoded(c, disk, root);
      var m := Opened(c, disk, root).value;
      var i :| 0 <= i < |m.manifests| && Digests(m.manifests)[i] == path[1];
      var sub := m.manifests[i];
      ValidOnlyMembers(m.manifests, sub);
      assert MarkPath(c, disk, path[1], path[1..]);
      IntactBelow(c, disk, root, sub);
      MarkedIsMentioned(c, disk, sub, path[1..], hex);
      MentionedFromAbove(c, disk.files, root, sub, hex);
    }
  }

  lemma MentionedFromAbove(c: Codec, files: Files, root: Descriptor, sub: Descriptor, hex: string)
    requires root.digest in files && c.decode(files[root.digest]).Some?
    requires sub in c.decode(files[root.digest]).value.manifests && Valid(sub.digest)
    requires MentionedBelow(c, files, sub, hex)
    ensures MentionedBelow(c, files, root, hex)
  {
    hide Mentions;
    var tail :| NamedPath(c, files, tail) && tail[0] == sub && Mentions(c, files, End(tail), hex);
    var path := [root] + tail;
    assert path[1..] == tail && End(path) == End(tail);
    assert NamedPath(c, files, path);
  }

  lemma {:induction false} MentionedIsMarked(
    c: Codec, disk: Disk, path: seq<Descriptor>, hex: string)
    requires PeekAgrees(c) && NamedPath(c, disk.files, path) && Intact(c, disk, path[0]) && Valid(path[0].digest)
    requires Mentions(c, disk.files, End(path), hex)
    ensures Reached(c, disk, path[0].digest, hex)
    decreases |path|
  {
    hide Mentions, Names, Opened, Peeked;
    RootIsOpened(c, disk, path[0]);
    PeekedIsDecoded(c, disk, path[0]);
    if |path| == 1 {
      NamedHereExactlyWhenMentioned(c, disk, path[0], hex);
      ReachedUnfolds(c, disk, path[0].digest, hex);
    } else {
      var m := Opened(c, disk, path[0]).value;
      ValidOnlyMembers(m.manifests, path[1]);
      IntactBelow(c, disk, path[0], path[1]);
      MentionedIsMarked(c, disk, path[1..], hex);
      var i :| 0 <= i < |m.manifests| && m.manifests[i] == path[1];
      assert Digests(m.manifests)[i] == path[1].digest;
      ReachedFromAbove(c, disk, path[0].digest, path[1].digest, hex);
    }
  }

  /** In a store whose entries are intact, a file of the canonical directory is kept exactly when the bytes
      of some indexed graph mention its digest. */
  lemma KeptExactlyWhenMentioned(c: Codec, disk: Disk, nameMap: NameMap, d: Digest)
    requires PeekAgrees(c) && d.alg == "sha256"
    requires forall e | IsEntry(e, nameMap) :: Intact(c, disk, e) && Valid(e.digest)
    ensures Kept(c, disk, nameMap, d) <==>
            exists e :: IsEntry(e, nameMap) && MentionedBelow(c, disk.files, e, d.hex)
  {
    hide Mentions, Names, Intact, Valid, MarkPath, NamedPath;
    forall e | IsEntry(e, nameMap)
      ensures Reached(c, disk, e.digest, d.hex) <==> MentionedBelow(c, disk.files, e, d.hex)
    {
      ReachedExactlyWhenMentioned(c, disk, e, d.hex);
    }
    hide Reached, MentionedBelow;
  }

  lemma ReachedExactlyWhenMentioned(c: Codec, disk: Disk, e: Descriptor, hex: string)
    requires PeekAgrees(c) && Intact(c, disk, e) && Valid(e.digest)
    ensures Reached(c, disk, e.digest, hex) <==> MentionedBelow(c, disk.files, e, hex)
  {
    hide Mentions, Names, Intact;
    if Reached(c, disk, e.digest, hex) {
      var path :| MarkPath(c, disk, e.digest, path) && Names(c, disk, path[|path| - 1], hex);
      MarkedIsMentioned(c, disk, e, path, hex);
    }
    if MentionedBelow(c, disk.files, e, hex) {
      var path :| NamedPath(c, disk.files, path) && path[0] == e && Mentions(c, disk.files, End(path), hex);
      MentionedIsMarked(c, disk, path, hex);
    }
  }

  // ---------------------------------------------------------------------------
  // What was complete stays complete

  /** Every indexed graph that was intact before a collection is intact after it. */
  lemma IntactEntriesStayIntact(c: Codec, before: Disk, nameMap: NameMap, rank: Digest -> nat, desc: Descriptor)
    requires PeekAgrees(c) && HashShape(c) && Acyclic(c, before, rank)
    requires IsEntry(desc, nameMap) && Intact(c, before, desc)
    ensures Intact(c, Collected(c, before, nameMap), desc)
  {
    assert Visible(c, before, desc, [desc]) && End([desc]) == desc;
    assert Valid(Digest(desc.digest.alg, c.hash(desc.digest.alg, before.files[desc.digest])));
    SurvivorsKeepTheirProblems(c, before, Collected(c, before, nameMap), nameMap, rank);
    NoProblemsExactlyWhenIntact(c, before, rank, desc);
    NoProblemsExactlyWhenIntact(c, Collected(c, before, nameMap), rank, desc);
  }

  // ---------------------------------------------------------------------------
  // Collecting twice

  lemma {:induction false} SparedMarks(
    c: Codec, before: Disk, after: Disk, rank: Digest -> nat, root: Digest, hex: string)
    requires Acyclic(c, before, rank) && Acyclic(c, after, rank)
    requires Spares(c, before, after, root)
    ensures Reached(c, after, root, hex) <==> Reached(c, before, root, hex)
    decreases rank(root)
  {
    ReachedUnfolds(c, before, root, hex);
    ReachedUnfolds(c, after, root, hex);
    if Valid(root) {
      ReachedUnfolds(c, before, root, root.hex);
      assert Peeked(c, after, root) == Peeked(c, before, root);
      if Peeked(c, before, root).Some? {
        forall s | s in Peeked(c, before, root).value.manifests
          ensures Reached(c, after, s, hex) <==> Reached(c, before, s, hex)
        {
          SparesBelow(c, before, after, root, s);
          if Valid(s) {
            SparedMarks(c, before, after, rank, s, hex);
          } else {
            ReachedUnfolds(c, before, s, hex);
            ReachedUnfolds(c, after, s, hex);
          }
        }
      }
    }
  }

  /** A second collection over the same index finds nothing to remove. */
  lemma SecondCollectionRemovesNothing(c: Codec, disk: Disk, nameMap: NameMap, rank: Digest -> nat)
    requires Acyclic(c, disk, rank)
    ensures Swept(c, Collected(c, disk, nameMap), nameMap) == Swept(c, disk, nameMap)
  {
    var after := Collected(c, disk, nameMap);
    FewerFilesStayAcyclic(c, disk, after, rank);
    forall d | d in after.files ensures Kept(c, after, nameMap, d) {
      if d.alg == CANONICAL {
        var desc :| IsEntry(desc, nameMap) && Reached(c, disk, desc.digest, d.hex);
        assert forall h | Reached(c, disk, desc.digest, h) :: Live(c, disk, nameMap, h);
        SparedMarks(c, disk, after, rank, desc.digest, d.hex);
      }
    }
  }
}
