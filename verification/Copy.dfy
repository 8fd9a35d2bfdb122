/** Copying a descriptor graph into another OCI layout: children before parents, the root's index
    entry before the root's bytes. */
module GraphCopy {
  import opened Content
  import opened Graph
  import opened Index
  import opened IndexStore
  import opened Oci

  // ---------------------------------------------------------------------------
  // The graph the copy walks: media types decide what is opened

  datatype Kind = ManifestKind | IndexKind | LeafKind

  function MediaKind(mediaType: string): Kind {
    if mediaType == "application/vnd.oci.image.manifest.v1+json"
       || mediaType == "application/vnd.docker.distribution.manifest.v2+json" then ManifestKind
    else if mediaType == "application/vnd.oci.image.index.v1+json"
            || mediaType == "application/vnd.docker.distribution.manifest.list.v2+json" then IndexKind
    else LeafKind
  }

  function Kids(c: Codec, kind: Kind, b: Bytes): seq<Digest> {
    match c.decode(b)
    case None => []
    case Some(m) =>
      match kind
      case ManifestKind => [m.config.digest] + Digests(m.layers)
      case IndexKind => Digests(m.manifests)
      case LeafKind => []
  }

  /** Descriptors of one blob agree on what it is, a manifest's parts are leaves, and the graph has
      no cycle. `kind` and `rank` are the witnesses. */
  ghost predicate TypedSource(c: Codec, source: Files, kind: Digest -> Kind, rank: Digest -> nat) {
    forall d | d in source && c.decode(source[d]).Some? ::
      var m := c.decode(source[d]).value;
      && (kind(d).ManifestKind? ==>
            forall x <- [m.config] + m.layers :: kind(x.digest).LeafKind? && MediaKind(x.mediaType).LeafKind?)
      && (kind(d).IndexKind? ==>
            forall x <- m.manifests :: MediaKind(x.mediaType) == kind(x.digest) && rank(x.digest) < rank(d))
  }

  predicate Hashes(c: Codec, d: Digest, b: Bytes) {
    d == Digest(CANONICAL, c.hash(CANONICAL, b))
  }

  /** No truncated stream of a source blob passes for the blob. */
  ghost predicate Untruncatable(c: Codec, source: Files) {
    forall d, k | d in source && 0 <= k <= |source[d]| && Hashes(c, d, source[d][..k]) :: source[d][..k] == source[d]
  }

  /** Each manifest or index in the layout has its children in the layout. */
  ghost predicate Closed(c: Codec, kind: Digest -> Kind, files: Files) {
    forall d | d in files :: KidsIn(c, kind(d), files[d], files)
  }

  ghost predicate KidsIn(c: Codec, kind: Kind, b: Bytes, files: Files) {
    forall x <- Kids(c, kind, b) :: x in files
  }

  /** `path` goes down the source graph. */
  ghost predicate IsTrail(c: Codec, kind: Digest -> Kind, source: Files, path: seq<Digest>)
    decreases |path|
  {
    && |path| > 0
    && (|path| > 1 ==>
          && path[0] in source && path[1] in Kids(c, kind(path[0]), source[path[0]])
          && IsTrail(c, kind, source, path[1..]))
  }

  ghost predicate Arrived(c: Codec, source: Files, files: Files, d: Digest) {
    d in source && Hashes(c, d, source[d]) && d in files
  }

  /** Everything the source graph of `d` leads to has arrived, `d` included. */
  ghost predicate Whole(c: Codec, kind: Digest -> Kind, source: Files, files: Files, d: Digest) {
    forall path | IsTrail(c, kind, source, path) && path[0] == d :: Arrived(c, source, files, path[|path| - 1])
  }

  /** The same without `d` itself. */
  ghost predicate WholeBelow(c: Codec, kind: Digest -> Kind, source: Files, files: Files, d: Digest) {
    forall path | IsTrail(c, kind, source, path) && path[0] == d && |path| > 1 ::
      Arrived(c, source, files, path[|path| - 1])
  }

  lemma WholeWithItself(c: Codec, kind: Digest -> Kind, source: Files, files: Files, d: Digest)
    ensures Whole(c, kind, source, files, d) <==> WholeBelow(c, kind, source, files, d) && Arrived(c, source, files, d)
  {
    assert IsTrail(c, kind, source, [d]);
  }

  lemma BelowFromKids(c: Codec, kind: Digest -> Kind, source: Files, files: Files, d: Digest)
    requires d in source && forall x <- Kids(c, kind(d), source[d]) :: Whole(c, kind, source, files, x)
    ensures WholeBelow(c, kind, source, files, d)
  {
    forall path | IsTrail(c, kind, source, path) && path[0] == d && |path| > 1
      ensures Arrived(c, source, files, path[|path| - 1])
    {
      assert Whole(c, kind, source, files, path[1]);
      assert path[1..][|path[1..]| - 1] == path[|path| - 1];
    }
  }

  lemma LeafIsWhole(c: Codec, kind: Digest -> Kind, source: Files, files: Files, d: Digest)
    requires kind(d).LeafKind? && Arrived(c, source, files, d)
    ensures Whole(c, kind, source, files, d)
  {
    BelowFromKids(c, kind, source, files, d);
    WholeWithItself(c, kind, source, files, d);
  }

  lemma WholeGrows(c: Codec, kind: Digest -> Kind, source: Files, files: Files, files': Files, d: Digest)
    requires Grows(files, files')
    ensures Whole(c, kind, source, files, d) ==> Whole(c, kind, source, files', d)
    ensures WholeBelow(c, kind, source, files, d) ==> WholeBelow(c, kind, source, files', d)
  {
  }

  /** The source holds everything `d` leads to, and what it has to read decodes. */
  ghost predicate Complete(c: Codec, kind: Digest -> Kind, source: Files, d: Digest) {
    forall path | IsTrail(c, kind, source, path) && path[0] == d :: Usable(c, kind, source, path[|path| - 1])
  }

  predicate Usable(c: Codec, kind: Digest -> Kind, source: Files, d: Digest) {
    d in source && Hashes(c, d, source[d]) && (!kind(d).LeafKind? ==> c.decode(source[d]).Some?)
  }

  // ---------------------------------------------------------------------------
  // The same in terms of media types

  /** The descriptors a copy of `desc` goes on to: those that its own media type makes it read from its
      decoded bytes. */
  function PartsByType(c: Codec, source: Files, desc: Descriptor): seq<Descriptor> {
    if desc.digest !in source || c.decode(source[desc.digest]).None? then []
    else
      var m := c.decode(source[desc.digest]).value;
      if desc.mediaType == "application/vnd.oci.image.manifest.v1+json" then [m.config] + m.layers
      else if desc.mediaType == "application/vnd.docker.distribution.manifest.v2+json" then [m.config] + m.layers
      else if desc.mediaType == "application/vnd.oci.image.index.v1+json" then m.manifests
      else if desc.mediaType == "application/vnd.docker.distribution.manifest.list.v2+json" then m.manifests
      else []
  }

  /** A manifest or an index by its media type. */
  predicate HasParts(mediaType: string) {
    || mediaType == "application/vnd.oci.image.manifest.v1+json"
    || mediaType == "application/vnd.docker.distribution.manifest.v2+json"
    || mediaType == "application/vnd.oci.image.index.v1+json"
    || mediaType == "application/vnd.docker.distribution.manifest.list.v2+json"
  }

  /** `path` goes from a descriptor to one of its parts, and so on. */
  ghost predicate PartPath(c: Codec, source: Files, path: seq<Descriptor>) {
    && |path| > 0
    && (|path| > 1 ==> path[1] in PartsByType(c, source, path[0]) && PartPath(c, source, path[1..]))
  }

  /** The blob of every part, of every part of those, and so on, `desc` included, is under its digest in the
      target, where the source has bytes that hash to it. */
  ghost predicate ArrivedByType(c: Codec, source: Files, files: Files, desc: Descriptor) {
    forall path | PartPath(c, source, path) && path[0] == desc ::
      var d := End(path).digest;
      d in files && d in source && d.alg == "sha256" && c.hash("sha256", source[d]) == d.hex
  }

  /** The source has all of them, and those that have to be read decode. */
  ghost predicate CompleteByType(c: Codec, source: Files, desc: Descriptor) {
    forall path | PartPath(c, source, path) && path[0] == desc :: UsableByType(c, source, End(path))
  }

  predicate UsableByType(c: Codec, source: Files, x: Descriptor) {
    && x.digest in source && x.digest.alg == "sha256" && c.hash("sha256", source[x.digest]) == x.digest.hex
    && (HasParts(x.mediaType) ==> c.decode(source[x.digest]).Some?)
  }

  lemma UsableByTypeIsUsable(c: Codec, kind: Digest -> Kind, source: Files, x: Descriptor)
    requires UsableByType(c, source, x) && MediaKind(x.mediaType) == kind(x.digest)
    ensures Usable(c, kind, source, x.digest)
  {
  }

  lemma KidsAreParts(c: Codec, source: Files, desc: Descriptor)
    requires desc.digest in source
    ensures Kids(c, MediaKind(desc.mediaType), source[desc.digest]) == Digests(PartsByType(c, source, desc))
  {
    if c.decode(source[desc.digest]).Some? {
      var m := c.decode(source[desc.digest]).value;
      assert Digests([m.config] + m.layers) == [m.config.digest] + Digests(m.layers);
    }
  }

  lemma PartsAreTyped(
    c: Codec, source: Files, kind: Digest -> Kind, rank: Digest -> nat, desc: Descriptor, x: Descriptor)
    requires TypedSource(c, source, kind, rank) && MediaKind(desc.mediaType) == kind(desc.digest)
    requires x in PartsByType(c, source, desc)
    ensures desc.digest in source && x.digest in Kids(c, kind(desc.digest), source[desc.digest])
    ensures MediaKind(x.mediaType) == kind(x.digest)
  {
    KidsAreParts(c, source, desc);
    PartIsAKid(PartsByType(c, source, desc), x);
    hide Kids;
    var m := c.decode(source[desc.digest]).value;
    if kind(desc.digest).ManifestKind? {
      assert x in [m.config] + m.layers;
    }
  }

  lemma PartIsAKid(parts: seq<Descriptor>, x: Descriptor)
    requires x in parts
    ensures x.digest in Digests(parts)
  {
    var i :| 0 <= i < |parts| && parts[i] == x;
    assert Digests(parts)[i] == x.digest;
  }

  lemma {:induction false} PathIsTrail(
    c: Codec, source: Files, kind: Digest -> Kind, rank: Digest -> nat, path: seq<Descriptor>)
    requires TypedSource(c, source, kind, rank) && PartPath(c, source, path)
    requires MediaKind(path[0].mediaType) == kind(path[0].digest)
    ensures IsTrail(c, kind, source, Digests(path)) && MediaKind(End(path).mediaType) == kind(End(path).digest)
    decreases |path|
  {
    if |path| > 1 {
      hide TypedSource, PartsByType, MediaKind, Kids;
      PartsAreTyped(c, source, kind, rank, path[0], path[1]);
      PathIsTrail(c, source, kind, rank, path[1..]);
      assert Digests(path)[1..] == Digests(path[1..]);
    }
  }

  lemma {:induction false} TrailIsPath(
    c: Codec, source: Files, kind: Digest -> Kind, rank: Digest -> nat, desc: Descriptor, trail: seq<Digest>)
    returns (path: seq<Descriptor>)
    requires TypedSource(c, source, kind, rank) && MediaKind(desc.mediaType) == kind(desc.digest)
    requires |trail| > 0 && IsTrail(c, kind, source, trail) && trail[0] == desc.digest
    ensures |path| > 0 && PartPath(c, source, path) && path[0] == desc && Digests(path) == trail
    ensures MediaKind(End(path).mediaType) == kind(End(path).digest)
    decreases |trail|
  {
    hide TypedSource, PartsByType, MediaKind, Kids, PartPath;
    if |trail| == 1 {
      OnePart(c, source, desc);
      return [desc];
    }
    var x := KidIsAPart(c, source, kind, rank, desc, trail[1]);
    var tail := TrailIsPath(c, source, kind, rank, x, trail[1..]);
    path := [desc] + tail;
    PathGrows(c, source, desc, tail);
    hide IsTrail;
    assert trail == [trail[0]] + trail[1..];
  }

  lemma {:induction false} OnePart(c: Codec, source: Files, desc: Descriptor)
    ensures PartPath(c, source, [desc]) && Digests([desc]) == [desc.digest]
  {
  }

  lemma {:induction false} PathGrows(c: Codec, source: Files, desc: Descriptor, tail: seq<Descriptor>)
    requires |tail| > 0 && PartPath(c, source, tail) && tail[0] in PartsByType(c, source, desc)
    ensures PartPath(c, source, [desc] + tail) && End([desc] + tail) == End(tail)
    ensures Digests([desc] + tail) == [desc.digest] + Digests(tail)
  {
    hide PartsByType;
    assert ([desc] + tail)[1..] == tail;
  }

  lemma KidIsAPart(
    c: Codec, source: Files, kind: Digest -> Kind, rank: Digest -> nat, desc: Descriptor, d: Digest)
    returns (x: Descriptor)
    requires TypedSource(c, source, kind, rank) && MediaKind(desc.mediaType) == kind(desc.digest)
    requires desc.digest in source && d in Kids(c, kind(desc.digest), source[desc.digest])
    ensures x in PartsByType(c, source, desc) && x.digest == d && MediaKind(x.mediaType) == kind(d)
  {
    hide TypedSource, PartsByType, MediaKind, Kids;
    KidsAreParts(c, source, desc);
    var parts := PartsByType(c, source, desc);
    var i :| 0 <= i < |parts| && Digests(parts)[i] == d;
    x := parts[i];
    PartsAreTyped(c, source, kind, rank, desc, x);
  }

  /** What a copy reports to have copied, it has copied by media type. */
  lemma WholeByType(
    c: Codec, source: Files, files: Files, kind: Digest -> Kind, rank: Digest -> nat, desc: Descriptor)
    requires TypedSource(c, source, kind, rank) && MediaKind(desc.mediaType) == kind(desc.digest)
    requires Whole(c, kind, source, files, desc.digest)
    ensures ArrivedByType(c, source, files, desc)
  {
    hide TypedSource, PartsByType, MediaKind, IsTrail;
    forall path | PartPath(c, source, path) && path[0] == desc ensures Arrived(c, source, files, End(path).digest) {
      PathIsTrail(c, source, kind, rank, path);
    }
  }

  lemma CompleteByTypeIsComplete(
    c: Codec, source: Files, kind: Digest -> Kind, rank: Digest -> nat, desc: Descriptor)
    requires TypedSource(c, source, kind, rank) && MediaKind(desc.mediaType) == kind(desc.digest)
    requires CompleteByType(c, source, desc)
    ensures Complete(c, kind, source, desc.digest)
  {
    hide TypedSource, PartsByType, Usable, UsableByType, MediaKind, Kids, PartPath;
    forall trail | IsTrail(c, kind, source, trail) && trail[0] == desc.digest
      ensures Usable(c, kind, source, trail[|trail| - 1])
    {
      var path := TrailIsPath(c, source, kind, rank, desc, trail);
      assert Digests(path)[|trail| - 1] == End(path).digest;
      UsableByTypeIsUsable(c, kind, source, End(path));
    }
  }

  lemma CompleteItself(c: Codec, kind: Digest -> Kind, source: Files, d: Digest)
    requires Complete(c, kind, source, d)
    ensures Usable(c, kind, source, d)
  {
    assert IsTrail(c, kind, source, [d]);
  }

  lemma CompleteKids(c: Codec, kind: Digest -> Kind, source: Files, d: Digest, x: Digest)
    requires Complete(c, kind, source, d) && d in source && x in Kids(c, kind(d), source[d])
    ensures Complete(c, kind, source, x)
  {
    forall path | IsTrail(c, kind, source, path) && path[0] == x ensures Usable(c, kind, source, path[|path| - 1]) {
      var longer := [d] + path;
      assert longer[1..] == path;
      assert IsTrail(c, kind, source, longer);
    }
  }

  ghost predicate AllComplete(c: Codec, kind: Digest -> Kind, source: Files, ds: seq<Descriptor>) {
    forall x | x in ds :: Complete(c, kind, source, x.digest)
  }

  lemma CompleteParts(c: Codec, kind: Digest -> Kind, source: Files, d: Digest)
    requires Complete(c, kind, source, d) && d in source && c.decode(source[d]).Some?
    ensures kind(d).ManifestKind? ==>
              var m := c.decode(source[d]).value; AllComplete(c, kind, source, [m.config] + m.layers)
    ensures kind(d).IndexKind? ==> AllComplete(c, kind, source, c.decode(source[d]).value.manifests)
  {
    hide Complete;
    var m := c.decode(source[d]).value;
    var parts := if kind(d).ManifestKind? then [m.config] + m.layers else m.manifests;
    if !kind(d).LeafKind? {
      forall x | x in parts ensures Complete(c, kind, source, x.digest) {
        var i :| 0 <= i < |parts| && parts[i] == x;
        assert Kids(c, kind(d), source[d])[i] == x.digest;
        CompleteKids(c, kind, source, d, x.digest);
      }
    }
  }

  // ---------------------------------------------------------------------------
  // Moments of a copy

  /** The target between two steps. */
  datatype Moment = Moment(files: Files, index: IndexState)

  ghost predicate SafeMoment(c: Codec, kind: Digest -> Kind, before: Moment, m: Moment) {
    HashValid(c, m.files) && Closed(c, kind, m.files) && Grows(before.files, m.files)
  }

  /** `trace` lists the moments after each step from `before` to `after`. At every one of them the
      layout is hash-valid, has the children of every parent, and lost nothing. */
  ghost predicate Progress(c: Codec, kind: Digest -> Kind, before: Moment, trace: seq<Moment>, after: Moment) {
    && after == (if trace == [] then before else trace[|trace| - 1])
    && SafeMoment(c, kind, before, after)
    && forall m | m in trace :: SafeMoment(c, kind, before, m)
  }

  ghost predicate IndexKept(before: Moment, trace: seq<Moment>) {
    forall m | m in trace :: m.index == before.index
  }

  /** The index changes only when everything strictly below the root is there. */
  ghost predicate IndexedLate(
    c: Codec, kind: Digest -> Kind, source: Files, before: Moment, trace: seq<Moment>, root: Digest)
  {
    forall m | m in trace && m.index != before.index :: WholeBelow(c, kind, source, m.files, root)
  }

  lemma NoSteps(c: Codec, kind: Digest -> Kind, m: Moment)
    requires HashValid(c, m.files) && Closed(c, kind, m.files)
    ensures Progress(c, kind, m, [], m) && IndexKept(m, [])
  {
  }

  lemma IndexStep(c: Codec, kind: Digest -> Kind, m: Moment, m': Moment)
    requires HashValid(c, m.files) && Closed(c, kind, m.files) && m'.files == m.files
    ensures Progress(c, kind, m, [m'], m')
  {
  }

  lemma TracesJoin(
    c: Codec, kind: Digest -> Kind, source: Files, a: Moment, s: seq<Moment>, b: Moment, t: seq<Moment>, e: Moment)
    requires Progress(c, kind, a, s, b) && Progress(c, kind, b, t, e)
    ensures Progress(c, kind, a, s + t, e)
    ensures IndexKept(a, s) && IndexKept(b, t) ==> IndexKept(a, s + t)
    ensures forall d | Whole(c, kind, source, b.files, d) :: Whole(c, kind, source, e.files, d)
  {
    hide HashValid, Closed;
    forall d | Whole(c, kind, source, b.files, d) ensures Whole(c, kind, source, e.files, d) {
      WholeGrows(c, kind, source, b.files, e.files, d);
    }
  }

  ghost predicate AllWhole(c: Codec, kind: Digest -> Kind, source: Files, files: Files, ds: seq<Descriptor>) {
    forall x | x in ds :: Whole(c, kind, source, files, x.digest)
  }

  /** The graph of `x` was copied after those of `done`. */
  lemma OneMore(
    c: Codec, kind: Digest -> Kind, source: Files, a: Moment, s: seq<Moment>, b: Moment, t: seq<Moment>, e: Moment,
    done: seq<Descriptor>, x: Descriptor, ok: bool)
    requires Progress(c, kind, a, s, b) && Progress(c, kind, b, t, e) && IndexKept(a, s) && IndexKept(b, t)
    requires AllWhole(c, kind, source, b.files, done) && (ok ==> Whole(c, kind, source, e.files, x.digest))
    ensures Progress(c, kind, a, s + t, e) && IndexKept(a, s + t)
    ensures ok ==> AllWhole(c, kind, source, e.files, done + [x])
  {
    hide Progress, IndexKept, Whole;
    TracesJoin(c, kind, source, a, s, b, t, e);
  }

  /** How the system calls of one blob's copy go. `wrote` is what reaches the writer of a stream that
      breaks off; `start`, `end` and `save` are for the save of the root's entry. */
  datatype PushIo = PushIo(
    fetches: bool, readsAll: bool, opens: bool, cutShort: bool, wrote: nat, commits: bool, readerCloses: bool,
    start: int, end: int, save: SaveIo)

  /** The stream of `b` reaches the final path `d`: a stream that breaks off after its last byte does,
      although the copy then fails. */
  predicate StreamLands(c: Codec, d: Digest, b: Bytes, step: PushIo) {
    step.opens && step.commits && Hashes(c, d, b) && (step.cutShort ==> step.wrote >= |b|)
  }

  predicate Good(step: PushIo) {
    && step.fetches && step.readsAll && step.opens && !step.cutShort && step.commits && step.readerCloses
    && step.save.AllWritten?
  }

  /** `Layout.copyDescriptorGraph` from the blob directory `source` through an `ociPusher` whose
      reference is `ref` and whose root digest is `root`. */
  class Copier {
    const codec: Codec
    const source: Files
    const ref: string
    const root: Option<Digest>
    const io: nat -> PushIo
    const oci: OCI
    var files: Files
    var clock: nat

    constructor (
      codec: Codec, source: Files, ref: string, root: Option<Digest>, io: nat -> PushIo, oci: OCI, files: Files)
      ensures this.codec == codec && this.source == source && this.ref == ref && this.root == root
      ensures this.io == io && this.oci == oci && this.files == files
    {
      this.codec, this.source, this.ref, this.root, this.io, this.oci := codec, source, ref, root, io, oci;
      this.files, this.clock := files, 0;
    }

    function Now(): Moment
      reads this, oci
    {
      Moment(files, oci.State())
    }

    predicate IsRoot(desc: Descriptor) {
      !MediaKind(desc.mediaType).LeafKind? && root == Some(desc.digest)
    }

    ghost predicate CopyWorks() {
      forall n :: Good(io(n))
    }

    /** A fresh script entry for each copied blob. */
    method Draw() returns (step: PushIo)
      modifies this`clock
      ensures step == io(old(clock)) && clock == old(clock) + 1
    {
      step := io(clock);
      clock := clock + 1;
    }

    /** The writer `Push` returns, the copying of the stream into it, and its `Close`. A blob that is
        already there gets a discarding writer, which only checks the stream. */
    method WriteStream(desc: Descriptor, step: PushIo, ghost kind: Digest -> Kind)
      returns (ok: bool, ghost trace: seq<Moment>)
      requires desc.digest in source && Untruncatable(codec, source)
      requires HashValid(codec, files) && Closed(codec, kind, files)
      requires KidsIn(codec, kind(desc.digest), source[desc.digest], files)
      modifies this`files
      ensures Progress(codec, kind, old(Now()), trace, Now()) && IndexKept(old(Now()), trace)
      ensures ok ==> Arrived(codec, source, files, desc.digest)
      ensures desc.digest in files <==>
                desc.digest in old(files) || StreamLands(codec, desc.digest, source[desc.digest], step)
      ensures ok <==> && step.opens && !step.cutShort && Hashes(codec, desc.digest, source[desc.digest])
                      && (desc.digest in old(files) || step.commits)
      ensures files == old(files) || files == old(files)[desc.digest := source[desc.digest]]
    {
      var data := source[desc.digest];
      trace := [];
      if !step.opens {
        return false, trace;
      }
      var streamed := if step.cutShort && step.wrote <= |data| then data[..step.wrote] else data;
      assert data[..|data|] == data;
      ok := Hashes(codec, desc.digest, streamed);
      if ok && desc.digest !in files {
        ok := step.commits;
        if ok {
          // A stream cut short does not hash to the name, so the file is the whole blob.
          ClosedWith(codec, kind, files, desc.digest, data);
          files := files[desc.digest := streamed];
          trace := [Now()];
        }
      }
      ok := ok && !step.cutShort;
    }

    /** `Push` for the root first saves its index entry. */
    method PushBytes(
      desc: Descriptor, step: PushIo, ghost kind: Digest -> Kind) returns (ok: bool, ghost trace: seq<Moment>)
      requires desc.digest in source && Untruncatable(codec, source)
      requires HashValid(codec, files) && Closed(codec, kind, files)
      requires KidsIn(codec, kind(desc.digest), source[desc.digest], files)
      modifies this`files, oci
      ensures Progress(codec, kind, old(Now()), trace, Now())
      ensures ok ==> Arrived(codec, source, files, desc.digest)
      ensures files == old(files) || files == old(files)[desc.digest := source[desc.digest]]
      ensures desc.digest in files <==>
                || desc.digest in old(files)
                || ((IsRoot(desc) ==> RootSaves(old(oci.State()), step))
                    && StreamLands(codec, desc.digest, source[desc.digest], step))
      ensures Good(step) && (IsRoot(desc) ==> !old(oci.file).Corrupt?) ==>
                ok == Hashes(codec, desc.digest, source[desc.digest])
      ensures !IsRoot(desc) ==> IndexKept(old(Now()), trace)
      ensures IsRoot(desc) ==>
                var saved := RootSaves(old(oci.State()), step);
                && (ok ==> saved)
                && Step(oci.parse, old(oci.State()), RootOp(ref, desc, step), oci.State(), saved)
      // The index names a root that is not there exactly when its file was replaced, or named it before,
      // and the blob neither was there nor landed.
      ensures IsRoot(desc) ==>
                (Dangles(oci.file, files, desc.digest) <==>
                   && (RootRenames(old(oci.State()), step) || NamesBlob(old(oci.file), desc.digest))
                   && desc.digest !in old(files)
                   && !(RootSaves(old(oci.State()), step)
                        && StreamLands(codec, desc.digest, source[desc.digest], step)))
    {
      hide HashValid, Closed, KidsIn, Step, Untruncatable, Hashes, Progress, Arrived, MediaKind, StreamLands, NamesBlob,
           RootRenames;
      trace := [];
      NoSteps(codec, kind, Now());
      if IsRoot(desc) {
        ok := oci.PushRootEntry(ref, desc, step.save, step.start, step.end);
        RootSaved(oci.parse, old(oci.State()), ref, desc, step, oci.State(), ok);
        RootNamed(oci.parse, old(oci.State()), ref, desc, step, oci.State(), ok);
        trace := [Now()];
        IndexStep(codec, kind, old(Now()), Now());
        if !ok {
          return;
        }
      }
      ghost var middle, written := Now(), [];
      ok, written := WriteStream(desc, step, kind);
      TracesJoin(codec, kind, source, old(Now()), trace, middle, written, Now());
      trace := trace + written;
    }

    /** `copyDescriptor`: one blob, its bytes never looked at. */
    method CopyBlob(desc: Descriptor, ghost kind: Digest -> Kind) returns (ok: bool, ghost trace: seq<Moment>)
      requires Untruncatable(codec, source)
      requires kind(desc.digest).LeafKind? && MediaKind(desc.mediaType).LeafKind?
      requires HashValid(codec, files) && Closed(codec, kind, files)
      modifies this, oci
      ensures Progress(codec, kind, old(Now()), trace, Now()) && IndexKept(old(Now()), trace)
      ensures ok ==> Whole(codec, kind, source, files, desc.digest)
      ensures CopyWorks() && Usable(codec, kind, source, desc.digest) ==> ok
    {
      ok, trace := false, [];
      var step := Draw();
      if !step.fetches || desc.digest !in source {
        return;
      }
      ok, trace := PushBytes(desc, step, kind);
      if ok {
        LeafIsWhole(codec, kind, source, files, desc.digest);
      }
      ok := ok && step.readerCloses;
    }

    ghost predicate CopiesSafely(kind: Digest -> Kind)
      reads this
    {
      Untruncatable(codec, source) && HashValid(codec, files) && Closed(codec, kind, files)
    }

    ghost predicate Typed(desc: Descriptor, kind: Digest -> Kind, rank: Digest -> nat) {
      && TypedSource(codec, source, kind, rank) && MediaKind(desc.mediaType) == kind(desc.digest)
      // The pushed root is `desc` itself or a graph around it.
      && (root.Some? ==> root.value == desc.digest || rank(desc.digest) < rank(root.value))
    }

    /** What copying a graph leaves behind, whether it worked or not. */
    ghost predicate Copied(desc: Descriptor, kind: Digest -> Kind, ok: bool, before: Moment, trace: seq<Moment>)
      reads this, oci
    {
      && Progress(codec, kind, before, trace, Now())
      && (ok ==> Whole(codec, kind, source, files, desc.digest))
      && (!IsRoot(desc) ==> IndexKept(before, trace))
      && IndexedLate(codec, kind, source, before, trace, desc.digest)
      && (ok && IsRoot(desc) ==> RootIndexed(desc, before))
      && (CopyWorks() && (IsRoot(desc) ==> !before.index.file.Corrupt?) ==>
            (Complete(codec, kind, source, desc.digest) ==> ok))
    }

    /** The index is the one before, reloaded, with the root's entry stored and saved. */
    ghost predicate RootIndexed(desc: Descriptor, before: Moment)
      reads this, oci
    {
      exists step: PushIo :: Step(oci.parse, before.index, RootOp(ref, desc, step), oci.State(), true)
    }

    ghost predicate AllLeaves(parts: seq<Descriptor>, kind: Digest -> Kind) {
      forall x <- parts :: kind(x.digest).LeafKind? && MediaKind(x.mediaType).LeafKind?
    }

    lemma NowIs()
      ensures Now().files == files && Now().index.file == oci.file && Now().index == oci.State()
    {
    }

    lemma NothingCopied(kind: Digest -> Kind)
      requires CopiesSafely(kind)
      ensures Progress(codec, kind, Now(), [], Now()) && IndexKept(Now(), [])
      ensures AllWhole(codec, kind, source, files, [])
    {
    }

    method CopyPart(
      parts: seq<Descriptor>, i: nat, ghost kind: Digest -> Kind) returns (ok: bool, ghost trace: seq<Moment>)
      requires CopiesSafely(kind) && AllLeaves(parts, kind) && i < |parts|
      modifies this, oci
      ensures Progress(codec, kind, old(Now()), trace, Now()) && IndexKept(old(Now()), trace)
      ensures ok ==> Whole(codec, kind, source, files, parts[i].digest)
      ensures CopyWorks() && AllComplete(codec, kind, source, parts) ==> ok
      ensures CopiesSafely(kind)
    {
      if AllComplete(codec, kind, source, parts) {
        CompleteItself(codec, kind, source, parts[i].digest);
      }
      ok, trace := CopyBlob(parts[i], kind);
    }

    /** The blobs of one manifest: config first, then the layers in order. */
    method CopyParts(parts: seq<Descriptor>, ghost kind: Digest -> Kind) returns (ok: bool, ghost trace: seq<Moment>)
      requires CopiesSafely(kind) && AllLeaves(parts, kind)
      modifies this, oci
      ensures Progress(codec, kind, old(Now()), trace, Now()) && IndexKept(old(Now()), trace)
      ensures ok ==> AllWhole(codec, kind, source, files, parts)
      ensures CopyWorks() && AllComplete(codec, kind, source, parts) ==> ok
    {
      hide *;
      ghost var start := Now();
      ok, trace := true, [];
      NothingCopied(kind);
      assert parts[..0] == [];
      for i := 0 to |parts|
        invariant CopiesSafely(kind)
        invariant Progress(codec, kind, start, trace, Now()) && IndexKept(start, trace)
        invariant AllWhole(codec, kind, source, files, parts[..i])
      {
        NowIs();
        ghost var middle, more := Now(), [];
        ok, more := CopyPart(parts, i, kind);
        NowIs();
        OneMore(codec, kind, source, start, trace, middle, more, Now(), parts[..i], parts[i], ok);
        trace := trace + more;
        if !ok {
          return;
        }
        assert parts[..i + 1] == parts[..i] + [parts[i]];
      }
      assert parts[..|parts|] == parts;
    }

    /** The parent's own bytes, once everything below it is there. */
    method PushParent(
      desc: Descriptor, step: PushIo, ghost kind: Digest -> Kind, ghost before: Moment, ghost below: seq<Moment>)
      returns (ok: bool, ghost trace: seq<Moment>)
      requires desc.digest in source && Untruncatable(codec, source) && exists n :: step == io(n)
      requires Progress(codec, kind, before, below, Now()) && IndexKept(before, below)
      requires forall x <- Kids(codec, kind(desc.digest), source[desc.digest]) :: Whole(codec, kind, source, files, x)
      modifies this`files, oci
      ensures Copied(desc, kind, ok, before, trace)
    {
      ghost var middle, more := Now(), [];
      BelowFromKids(codec, kind, source, files, desc.digest);
      WholeKidsIn(codec, kind, source, files, kind(desc.digest), source[desc.digest]);
      ok, more := PushBytes(desc, step, kind);
      hide HashValid, Closed, Untruncatable, Whole, WholeBelow, Arrived, Step, KidsIn;
      TracesJoin(codec, kind, source, before, below, middle, more, Now());
      trace := below + more;
      LateEnough(codec, kind, source, before, below, middle, more, desc.digest);
      WholeGrows(codec, kind, source, middle.files, files, desc.digest);
      WholeWithItself(codec, kind, source, files, desc.digest);
      assert middle.index == before.index;
      if Complete(codec, kind, source, desc.digest) {
        CompleteItself(codec, kind, source, desc.digest);
      }
    }

    /** A manifest: its config and layers, then its own bytes. */
    method CopyManifest(desc: Descriptor, ghost kind: Digest -> Kind, ghost rank: Digest -> nat)
      returns (ok: bool, ghost trace: seq<Moment>)
      requires CopiesSafely(kind) && Typed(desc, kind, rank) && kind(desc.digest).ManifestKind?
      modifies this, oci
      ensures Copied(desc, kind, ok, old(Now()), trace)
    {
      ok, trace := false, [];
      NoSteps(codec, kind, Now());
      if Complete(codec, kind, source, desc.digest) {
        CompleteItself(codec, kind, source, desc.digest);
        CompleteParts(codec, kind, source, desc.digest);
      }
      var step := Draw();
      if !step.fetches || !step.readsAll || desc.digest !in source || codec.decode(source[desc.digest]).None? {
        return;
      }
      var m := codec.decode(source[desc.digest]).value;
      ok, trace := CopyParts([m.config] + m.layers, kind);
      if !ok {
        return;
      }
      ManifestKids(codec, kind, source, files, desc.digest);
      ok, trace := PushParent(desc, step, kind, old(Now()), trace);
    }

    /** An index: each child's graph, then its own bytes. */
    method CopyIndex(desc: Descriptor, ghost kind: Digest -> Kind, ghost rank: Digest -> nat)
      returns (ok: bool, ghost trace: seq<Moment>)
      requires CopiesSafely(kind) && Typed(desc, kind, rank) && kind(desc.digest).IndexKind?
      modifies this, oci
      ensures Copied(desc, kind, ok, old(Now()), trace)
      decreases rank(desc.digest), 2
    {
      ok, trace := false, [];
      NoSteps(codec, kind, Now());
      if Complete(codec, kind, source, desc.digest) {
        CompleteItself(codec, kind, source, desc.digest);
        CompleteParts(codec, kind, source, desc.digest);
      }
      var step := Draw();
      if !step.fetches || !step.readsAll || desc.digest !in source || codec.decode(source[desc.digest]).None? {
        return;
      }
      ok, trace := CopyChildren(codec.decode(source[desc.digest]).value.manifests, desc, kind, rank);
      if !ok {
        KeptIsLate(codec, kind, source, old(Now()), trace, desc.digest);
        return;
      }
      IndexKids(codec, kind, source, files, desc.digest);
      ok, trace := PushParent(desc, step, kind, old(Now()), trace);
    }

    method CopyChildren(
      children: seq<Descriptor>, parent: Descriptor, ghost kind: Digest -> Kind, ghost rank: Digest -> nat)
      returns (ok: bool, ghost trace: seq<Moment>)
      requires CopiesSafely(kind) && Typed(parent, kind, rank) && IsParent(parent, children, kind)
      modifies this, oci
      ensures Progress(codec, kind, old(Now()), trace, Now()) && IndexKept(old(Now()), trace)
      ensures ok ==> AllWhole(codec, kind, source, files, children)
      ensures CopyWorks() && AllComplete(codec, kind, source, children) ==> ok
      decreases rank(parent.digest), 1
    {
      hide *;
      ghost var start := Now();
      ok, trace := true, [];
      NothingCopied(kind);
      assert children[..0] == [];
      for i := 0 to |children|
        invariant CopiesSafely(kind)
        invariant Progress(codec, kind, start, trace, Now()) && IndexKept(start, trace)
        invariant AllWhole(codec, kind, source, files, children[..i])
      {
        NowIs();
        ghost var middle, more := Now(), [];
        ok, more := CopyChild(children, i, parent, kind, rank);
        NowIs();
        OneMore(codec, kind, source, start, trace, middle, more, Now(), children[..i], children[i], ok);
        trace := trace + more;
        if !ok {
          return;
        }
        assert children[..i + 1] == children[..i] + [children[i]];
      }
      assert children[..|children|] == children;
    }

    method CopyChild(
      children: seq<Descriptor>, i: nat, parent: Descriptor, ghost kind: Digest -> Kind, ghost rank: Digest -> nat)
      returns (ok: bool, ghost trace: seq<Moment>)
      requires CopiesSafely(kind) && Typed(parent, kind, rank) && IsParent(parent, children, kind) && i < |children|
      modifies this, oci
      ensures Progress(codec, kind, old(Now()), trace, Now()) && IndexKept(old(Now()), trace)
      ensures ok ==> Whole(codec, kind, source, files, children[i].digest)
      ensures CopyWorks() && AllComplete(codec, kind, source, children) ==> ok
      ensures CopiesSafely(kind)
      decreases rank(parent.digest), 0
    {
      ChildReady(children, i, parent, kind, rank);
      ok, trace := CopyGraph(children[i], kind, rank);
      ChildCopied(children[i], kind, ok, old(Now()), trace);
    }

    ghost predicate IsParent(parent: Descriptor, children: seq<Descriptor>, kind: Digest -> Kind) {
      && kind(parent.digest).IndexKind? && parent.digest in source && codec.decode(source[parent.digest]).Some?
      && children == codec.decode(source[parent.digest]).value.manifests
    }

    lemma ChildReady(children: seq<Descriptor>, i: nat, parent: Descriptor, kind: Digest -> Kind, rank: Digest -> nat)
      requires Typed(parent, kind, rank) && IsParent(parent, children, kind) && i < |children|
      ensures Typed(children[i], kind, rank) && rank(children[i].digest) < rank(parent.digest) && !IsRoot(children[i])
    {
    }

    lemma ChildCopied(child: Descriptor, kind: Digest -> Kind, ok: bool, before: Moment, trace: seq<Moment>)
      requires Copied(child, kind, ok, before, trace) && !IsRoot(child)
      ensures Progress(codec, kind, before, trace, Now()) && IndexKept(before, trace)
      ensures ok ==> Whole(codec, kind, source, files, child.digest)
      ensures CopyWorks() && Complete(codec, kind, source, child.digest) ==> ok
      ensures HashValid(codec, files) && Closed(codec, kind, files)
    {
      hide HashValid, Closed, Whole, Complete, Good;
    }

    /** `copyDescriptorGraph`. */
    method CopyGraph(desc: Descriptor, ghost kind: Digest -> Kind, ghost rank: Digest -> nat)
      returns (ok: bool, ghost trace: seq<Moment>)
      requires CopiesSafely(kind) && Typed(desc, kind, rank)
      modifies this, oci
      ensures Copied(desc, kind, ok, old(Now()), trace)
      // By media type: everything the root leads to arrives, and does so when all calls work and it is there.
      ensures ok ==> ArrivedByType(codec, source, files, desc)
      ensures CopyWorks() && (IsRoot(desc) ==> !old(oci.file).Corrupt?) && CompleteByType(codec, source, desc) ==> ok
      // The root, if it is a manifest or an index, is in the target's index then; nothing else ever is.
      ensures ok && root == Some(desc.digest) && HasParts(desc.mediaType) ==> NamesBlob(oci.file, desc.digest)
      ensures root != Some(desc.digest) || !HasParts(desc.mediaType) ==> oci.State() == old(oci.State())
      decreases rank(desc.digest), 3
    {
      hide *;
      TypedKind(desc, kind, rank);
      NowIs();
      match MediaKind(desc.mediaType) {
        case ManifestKind => ok, trace := CopyManifest(desc, kind, rank);
        case IndexKind => ok, trace := CopyIndex(desc, kind, rank);
        case LeafKind => ok, trace := CopyLeaf(desc, kind, rank);
      }
      NowIs();
      CopiedByType(desc, kind, rank, ok, old(Now()), trace);
    }

    lemma TypedKind(desc: Descriptor, kind: Digest -> Kind, rank: Digest -> nat)
      requires Typed(desc, kind, rank)
      ensures MediaKind(desc.mediaType) == kind(desc.digest)
    {
    }

    lemma RootsHaveParts(desc: Descriptor)
      ensures IsRoot(desc) <==> root == Some(desc.digest) && HasParts(desc.mediaType)
    {
    }

    lemma IndexedRootIsNamed(desc: Descriptor, before: Moment)
      requires RootIndexed(desc, before)
      ensures NamesBlob(oci.file, desc.digest)
    {
      hide Step, NamesBlob;
      var step: PushIo :| Step(oci.parse, before.index, RootOp(ref, desc, step), oci.State(), true);
      RootSaved(oci.parse, before.index, ref, desc, step, oci.State(), true);
      RootNamed(oci.parse, before.index, ref, desc, step, oci.State(), true);
    }

    lemma KeptThroughout(kind: Digest -> Kind, before: Moment, trace: seq<Moment>)
      requires Progress(codec, kind, before, trace, Now()) && IndexKept(before, trace)
      ensures Now().index == before.index
    {
      hide SafeMoment;
    }

    lemma CopiedByType(
      desc: Descriptor, kind: Digest -> Kind, rank: Digest -> nat, ok: bool, before: Moment, trace: seq<Moment>)
      requires Typed(desc, kind, rank) && Copied(desc, kind, ok, before, trace)
      ensures ok ==> ArrivedByType(codec, source, files, desc)
      ensures CopyWorks() && (IsRoot(desc) ==> !before.index.file.Corrupt?) ==>
                CompleteByType(codec, source, desc) ==> ok
      ensures ok && root == Some(desc.digest) && HasParts(desc.mediaType) ==> NamesBlob(oci.file, desc.digest)
      ensures root != Some(desc.digest) || !HasParts(desc.mediaType) ==> Now().index == before.index
    {
      hide TypedSource, MediaKind, Whole, Complete, ArrivedByType, CompleteByType, Progress, IndexKept, IndexedLate,
           RootIndexed, Good, IsRoot, HasParts, NamesBlob;
      if ok {
        WholeByType(codec, source, files, kind, rank, desc);
      }
      if CompleteByType(codec, source, desc) {
        CompleteByTypeIsComplete(codec, source, kind, rank, desc);
      }
      RootsHaveParts(desc);
      if ok && IsRoot(desc) {
        IndexedRootIsNamed(desc, before);
      }
      if !IsRoot(desc) {
        KeptThroughout(kind, before, trace);
      }
    }

    /** Whatever is neither a manifest nor an index is copied as it is. */
    method CopyLeaf(desc: Descriptor, ghost kind: Digest -> Kind, ghost rank: Digest -> nat)
      returns (ok: bool, ghost trace: seq<Moment>)
      requires CopiesSafely(kind) && Typed(desc, kind, rank) && kind(desc.digest).LeafKind?
      modifies this, oci
      ensures Copied(desc, kind, ok, old(Now()), trace)
    {
      hide Untruncatable, HashValid, Closed, Whole, TypedSource, MediaKind, Usable;
      assert MediaKind(desc.mediaType).LeafKind?;
      if Complete(codec, kind, source, desc.digest) {
        CompleteItself(codec, kind, source, desc.digest);
      }
      hide Complete, Typed;
      ok, trace := CopyBlob(desc, kind);
      KeptIsLate(codec, kind, source, old(Now()), trace, desc.digest);
    }

    /** The order of `Push` shows when it fails: the target's index names a root whose bytes never came. */
    method PushWithoutBytes(desc: Descriptor, step: PushIo, ghost kind: Digest -> Kind) returns (ok: bool)
      requires CopiesSafely(kind) && desc.digest in source
            && KidsIn(codec, kind(desc.digest), source[desc.digest], files)
      requires IsRoot(desc) && desc.digest !in files && !step.opens && step.save.AllWritten? && !oci.file.Corrupt?
      modifies this`files, oci
      ensures !ok && Dangles(oci.file, files, desc.digest)
    {
      ghost var trace;
      ok, trace := PushBytes(desc, step, kind);
    }
  }

  function RootOp(ref: string, desc: Descriptor, step: PushIo): Op {
    PushRoot(ref, desc, step.start, step.end, step.save)
  }

  /** The root's critical section reports success. */
  predicate RootSaves(s: IndexState, step: PushIo) {
    !s.file.Corrupt? && SaveOk(Due(s.lastDurable, step.start), step.save)
  }

  /** It replaces the file, whether it reports success or not. */
  predicate RootRenames(s: IndexState, step: PushIo) {
    !s.file.Corrupt? && !step.save.NoRename?
  }

  predicate NamesBlob(file: IndexFile, d: Digest) {
    file.Json? && exists e :: e in file.entries && e.digest == d
  }

  /** The index on disk names a blob that is not in the layout. */
  predicate Dangles(file: IndexFile, files: Files, d: Digest) {
    NamesBlob(file, d) && d !in files
  }

  lemma RootSaved(
    parse: Parser, s: IndexState, ref: string, desc: Descriptor, step: PushIo, s': IndexState, saved: bool)
    requires Step(parse, s, RootOp(ref, desc, step), s', saved)
    ensures saved == RootSaves(s, step)
  {
  }

  lemma RootNamed(
    parse: Parser, s: IndexState, ref: string, desc: Descriptor, step: PushIo, s': IndexState, saved: bool)
    requires Step(parse, s, RootOp(ref, desc, step), s', saved)
    ensures NamesBlob(s'.file, desc.digest) <==> RootRenames(s, step) || NamesBlob(s.file, desc.digest)
  {
    hide LoadInto, SavedFrom;
    if RootRenames(s, step) {
      var stored := Loaded(parse, s).nameMap[RootKey(ref, desc) := Normalized(desc)];
      SavedMembers(s'.file.entries, stored);
      assert IsEntry(WithRefs(stored)[RootKey(ref, desc)], WithRefs(stored));
    }
  }

  lemma WholeKidsIn(c: Codec, kind: Digest -> Kind, source: Files, files: Files, k: Kind, b: Bytes)
    requires forall x <- Kids(c, k, b) :: Whole(c, kind, source, files, x)
    ensures KidsIn(c, k, b, files)
  {
    forall x | x in Kids(c, k, b) ensures x in files {
      WholeWithItself(c, kind, source, files, x);
    }
  }

  lemma ManifestKids(c: Codec, kind: Digest -> Kind, source: Files, files: Files, d: Digest)
    requires d in source && kind(d).ManifestKind? && c.decode(source[d]).Some?
    requires var m := c.decode(source[d]).value; AllWhole(c, kind, source, files, [m.config] + m.layers)
    ensures forall x <- Kids(c, kind(d), source[d]) :: Whole(c, kind, source, files, x)
  {
    hide Whole;
    var m := c.decode(source[d]).value;
    forall x | x in Kids(c, kind(d), source[d]) ensures Whole(c, kind, source, files, x) {
      var i :| 0 <= i < |Kids(c, kind(d), source[d])| && Kids(c, kind(d), source[d])[i] == x;
      assert ([m.config] + m.layers)[i].digest == x;
    }
  }

  /** Steps after the index was last as before see everything strictly below the root. */
  lemma LateEnough(
    c: Codec, kind: Digest -> Kind, source: Files, a: Moment, s: seq<Moment>, b: Moment, t: seq<Moment>, d: Digest)
    requires IndexKept(a, s) && WholeBelow(c, kind, source, b.files, d)
    requires forall m | m in t :: Grows(b.files, m.files)
    ensures IndexedLate(c, kind, source, a, s + t, d)
  {
    hide WholeBelow, Grows;
    forall m | m in s + t && m.index != a.index ensures WholeBelow(c, kind, source, m.files, d) {
      WholeGrows(c, kind, source, b.files, m.files, d);
    }
  }

  lemma KeptIsLate(c: Codec, kind: Digest -> Kind, source: Files, before: Moment, trace: seq<Moment>, d: Digest)
    requires IndexKept(before, trace)
    ensures IndexedLate(c, kind, source, before, trace, d)
  {
  }

  lemma IndexKids(c: Codec, kind: Digest -> Kind, source: Files, files: Files, d: Digest)
    requires d in source && kind(d).IndexKind? && c.decode(source[d]).Some?
    requires AllWhole(c, kind, source, files, c.decode(source[d]).value.manifests)
    ensures forall x <- Kids(c, kind(d), source[d]) :: Whole(c, kind, source, files, x)
  {
    hide Whole;
  }

  lemma ClosedWith(c: Codec, kind: Digest -> Kind, files: Files, d: Digest, b: Bytes)
    requires Closed(c, kind, files) && KidsIn(c, kind(d), b, files)
    ensures Closed(c, kind, files[d := b])
  {
  }

  // ---------------------------------------------------------------------------
  // What a finished copy is worth

  /** An index names no blobs of its own and only manifests and indexes below it; a manifest names no
      manifests. */
  ghost predicate Nested(c: Codec, source: Files, kind: Digest -> Kind) {
    forall d | d in source && c.decode(source[d]).Some? ::
      var m := c.decode(source[d]).value;
      && (kind(d).ManifestKind? ==> m.manifests == [])
      && (kind(d).IndexKind? ==>
            !Valid(m.config.digest) && m.layers == [] && forall x <- m.manifests :: !kind(x.digest).LeafKind?)
  }

  /** Blobs of one name hold the same bytes on both sides. */
  ghost predicate SameBytes(c: Codec, source: Files, files: Files) {
    forall d | d in source && d in files && Hashes(c, d, source[d]) :: files[d] == source[d]
  }

  lemma SameVerdict(c: Codec, kind: Digest -> Kind, source: Files, files: Files, desc: Descriptor)
    requires SameBytes(c, source, files) && Arrived(c, source, files, desc.digest)
    ensures CheckBlob(c, Disk(files, map[]), desc) == CheckBlob(c, Disk(source, map[]), desc)
    ensures Opened(c, Disk(files, map[]), desc) == Opened(c, Disk(source, map[]), desc)
  {
  }

  lemma KidIsWhole(c: Codec, kind: Digest -> Kind, source: Files, files: Files, d: Digest, x: Digest)
    requires Whole(c, kind, source, files, d) && d in source && x in Kids(c, kind(d), source[d])
    ensures Whole(c, kind, source, files, x)
  {
    forall path | IsTrail(c, kind, source, path) && path[0] == x ensures Arrived(c, source, files, path[|path| - 1]) {
      var longer := [d] + path;
      assert longer[1..] == path;
      assert IsTrail(c, kind, source, longer);
    }
  }

  lemma OpenedPartsAreKids(c: Codec, kind: Digest -> Kind, source: Files, desc: Descriptor, x: Descriptor)
    requires Nested(c, source, kind) && !kind(desc.digest).LeafKind? && Opened(c, Disk(source, map[]), desc).Some?
    requires var m := Opened(c, Disk(source, map[]), desc).value; x in Leaves(m) || x in Subs(m)
    ensures x.digest in Kids(c, kind(desc.digest), source[desc.digest])
    ensures x in Subs(Opened(c, Disk(source, map[]), desc).value) ==> !kind(x.digest).LeafKind?
  {
    var m := Opened(c, Disk(source, map[]), desc).value;
    ValidOnlyMembers([m.config] + m.layers, x);
    ValidOnlyMembers(m.manifests, x);
    if kind(desc.digest).ManifestKind? {
      var i :| 0 <= i < |[m.config] + m.layers| && ([m.config] + m.layers)[i] == x;
      assert ([m.config.digest] + Digests(m.layers))[i] == x.digest;
    } else {
      var i :| 0 <= i < |m.manifests| && m.manifests[i] == x;
      assert Digests(m.manifests)[i] == x.digest;
    }
  }

  lemma {:induction false} VerdictAlong(
    c: Codec, kind: Digest -> Kind, source: Files, files: Files, desc: Descriptor, path: seq<Descriptor>)
    requires Nested(c, source, kind) && SameBytes(c, source, files) && !kind(desc.digest).LeafKind?
    requires Whole(c, kind, source, files, desc.digest) && Intact(c, Disk(source, map[]), desc)
    requires Visible(c, Disk(files, map[]), desc, path)
    ensures Opened(c, Disk(files, map[]), End(path)).Some?
    ensures forall l <- Leaves(Opened(c, Disk(files, map[]), End(path)).value) ::
              CheckBlob(c, Disk(files, map[]), l) == BlobOK
    decreases |path|
  {
    hide Nested, SameBytes, Whole, CheckBlob, Opened, Arrived;
    assert Visible(c, Disk(source, map[]), desc, [desc]) && End([desc]) == desc;
    WholeWithItself(c, kind, source, files, desc.digest);
    SameVerdict(c, kind, source, files, desc);
    WholeIsThere(c, kind, source, files, desc.digest);
    if |path| == 1 {
      var m := Opened(c, Disk(files, map[]), desc).value;
      forall l | l in Leaves(m) ensures CheckBlob(c, Disk(files, map[]), l) == BlobOK {
        OpenedPartsAreKids(c, kind, source, desc, l);
        KidIsWhole(c, kind, source, files, desc.digest, l.digest);
        WholeWithItself(c, kind, source, files, l.digest);
        SameVerdict(c, kind, source, files, l);
      }
    } else {
      OpenedPartsAreKids(c, kind, source, desc, path[1]);
      KidIsWhole(c, kind, source, files, desc.digest, path[1].digest);
      IntactBelow(c, Disk(source, map[]), desc, path[1]);
      VerdictAlong(c, kind, source, files, path[1], path[1..]);
      assert End(path[1..]) == End(path);
    }
  }

  lemma WholeIsThere(c: Codec, kind: Digest -> Kind, source: Files, files: Files, d: Digest)
    requires Whole(c, kind, source, files, d)
    ensures d in source && d in files
  {
    WholeWithItself(c, kind, source, files, d);
  }

  /** A copy that reported success checks out in the target whenever the original does in the source. */
  lemma CopyKeepsTheVerdict(c: Codec, kind: Digest -> Kind, source: Files, files: Files, desc: Descriptor)
    requires Nested(c, source, kind) && SameBytes(c, source, files) && !kind(desc.digest).LeafKind?
    requires Whole(c, kind, source, files, desc.digest) && Intact(c, Disk(source, map[]), desc)
    ensures Intact(c, Disk(files, map[]), desc)
  {
    forall path | Visible(c, Disk(files, map[]), desc, path)
      ensures Opened(c, Disk(files, map[]), End(path)).Some?
      ensures forall l <- Leaves(Opened(c, Disk(files, map[]), End(path)).value) ::
              CheckBlob(c, Disk(files, map[]), l) == BlobOK
    {
      VerdictAlong(c, kind, source, files, desc, path);
    }
  }
}
