/** Adding artifacts and images concurrently: what the jobs write, in which order, and why every
    entry of the index always leads to a complete graph. */
module IndexClosure {
  import opened Content
  import opened Sequences
  import opened Graph
  import opened Index
  import opened IndexStore
  import opened BlobWriter
  import opened BlobProtocol
  import opened BlobRuns

  // ---------------------------------------------------------------------------
  // What is added

  /** A source to store: an artifact or an image, or an image index over further sources. An
      artifact differs from an image in the order its parts are written only. */
  datatype Source =
    | Leaf(raw: Bytes, config: Bytes, layers: seq<Bytes>, artifact: bool)
    | Nested(raw: Bytes, children: seq<Source>)

  function DigestOf(c: Codec, b: Bytes): Digest {
    Digest(CANONICAL, c.hash(CANONICAL, b))
  }

  predicate Describes(c: Codec, desc: Descriptor, b: Bytes) {
    desc.digest == DigestOf(c, b) && desc.size == |b|
  }

  /** The source's own promise: its manifest decodes and names exactly its parts. An index names no
      config and no layers, so its empty config descriptor has no valid digest. */
  ghost predicate WellTyped(c: Codec, universe: iset<Bytes>, src: Source) {
    src.raw in universe && c.decode(src.raw).Some? &&
    var m := c.decode(src.raw).value;
    match src
    case Leaf(_, config, layers, _) =>
      && Describes(c, m.config, config) && config in universe && m.manifests == []
      && |m.layers| == |layers|
      && forall i | 0 <= i < |layers| :: Describes(c, m.layers[i], layers[i]) && layers[i] in universe
    case Nested(_, children) =>
      && !Valid(m.config.digest) && m.layers == [] && |m.manifests| == |children|
      && forall i | 0 <= i < |children| ::
           Describes(c, m.manifests[i], children[i].raw) && WellTyped(c, universe, children[i])
  }

  /** The phases of the writing of a source: the blobs of one phase are written concurrently, and
      the next phase starts when all of them are done. */
  function Phases(src: Source): seq<seq<Bytes>>
    decreases src, 0
  {
    match src
    case Leaf(raw, config, layers, artifact) =>
      if artifact then [[raw], [config], layers] else [layers, [config], [raw]]
    case Nested(raw, children) => PhasesOfAll(children) + [[raw]]
  }

  function PhasesOfAll(children: seq<Source>): seq<seq<Bytes>>
    decreases children, 1
  {
    if children == [] then [] else Phases(children[0]) + PhasesOfAll(children[1..])
  }

  /** The descriptor the index gets for it. */
  function Root(c: Codec, src: Source, mediaType: string, annotations: Annotations): Descriptor {
    Descriptor(mediaType, DigestOf(c, src.raw), |src.raw|, annotations, "")
  }

  // ---------------------------------------------------------------------------
  // A written source is a complete graph

  ghost predicate NoCollisions(c: Codec, universe: iset<Bytes>) {
    forall a, b | a in universe && b in universe && c.hash(CANONICAL, a) == c.hash(CANONICAL, b) :: a == b
  }

  /** Every file hashes to its own name, and every canonical one comes from the universe. */
  ghost predicate Sane(c: Codec, universe: iset<Bytes>, files: Files) {
    && HashValid(c, files)
    && forall d | d in files && d.alg == CANONICAL :: files[d] in universe
  }

  predicate Stored(c: Codec, files: Files, b: Bytes) {
    DigestOf(c, b) in files
  }

  ghost predicate AllStored(c: Codec, files: Files, phases: seq<seq<Bytes>>) {
    forall p, b | p in phases && b in p :: Stored(c, files, b)
  }

  lemma StoredIsOk(c: Codec, universe: iset<Bytes>, files: Files, desc: Descriptor, b: Bytes)
    requires NoCollisions(c, universe) && Sane(c, universe, files)
    requires Describes(c, desc, b) && b in universe && Stored(c, files, b)
    ensures files[desc.digest] == b && CheckBlob(c, Disk(files, map[]), desc) == BlobOK
  {
    assert HashOk(c, desc.digest, files[desc.digest]);
  }

  lemma {:induction false} ChildStored(c: Codec, files: Files, children: seq<Source>, i: nat)
    requires i < |children| && AllStored(c, files, PhasesOfAll(children))
    ensures AllStored(c, files, Phases(children[i]))
    decreases |children|
  {
    if i == 0 {
      assert forall p | p in Phases(children[0]) :: p in PhasesOfAll(children);
    } else {
      assert forall p | p in PhasesOfAll(children[1..]) :: p in PhasesOfAll(children);
      ChildStored(c, files, children[1..], i - 1);
    }
  }

  /** The parts of a stored source are found in place. */
  lemma {:induction false} StoredOpens(c: Codec, universe: iset<Bytes>, files: Files, src: Source, desc: Descriptor)
    requires NoCollisions(c, universe) && Sane(c, universe, files) && WellTyped(c, universe, src)
    requires Describes(c, desc, src.raw) && AllStored(c, files, Phases(src))
    ensures Opened(c, Disk(files, map[]), desc) == c.decode(src.raw)
    ensures forall l <- Leaves(c.decode(src.raw).value) :: CheckBlob(c, Disk(files, map[]), l) == BlobOK
    ensures forall s <- Subs(c.decode(src.raw).value) ::
              && src.Nested?
              && exists i :: 0 <= i < |src.children| && Describes(c, s, src.children[i].raw)
                             && AllStored(c, files, Phases(src.children[i])) && WellTyped(c, universe, src.children[i])
  {
    var m := c.decode(src.raw).value;
    assert [src.raw] in Phases(src) && src.raw in [src.raw];
    StoredIsOk(c, universe, files, desc, src.raw);
    forall l | l in Leaves(m) ensures CheckBlob(c, Disk(files, map[]), l) == BlobOK {
      ValidOnlyMembers([m.config] + m.layers, l);
      if l == m.config {
        assert [src.config] in Phases(src) && src.config in [src.config];
        StoredIsOk(c, universe, files, l, src.config);
      } else {
        var i :| 0 <= i < |m.layers| && m.layers[i] == l;
        assert src.layers in Phases(src) && src.layers[i] in src.layers;
        StoredIsOk(c, universe, files, l, src.layers[i]);
      }
    }
    forall s | s in Subs(m)
      ensures src.Nested?
      ensures exists i :: 0 <= i < |src.children| && Describes(c, s, src.children[i].raw)
                          && AllStored(c, files, Phases(src.children[i])) && WellTyped(c, universe, src.children[i])
    {
      ValidOnlyMembers(m.manifests, s);
      var i :| 0 <= i < |m.manifests| && m.manifests[i] == s;
      assert AllStored(c, files, PhasesOfAll(src.children));
      ChildStored(c, files, src.children, i);
      assert Describes(c, s, src.children[i].raw) && WellTyped(c, universe, src.children[i]);
    }
  }

  lemma {:induction false} StoredPath(
    c: Codec, universe: iset<Bytes>, files: Files, src: Source, desc: Descriptor, path: seq<Descriptor>)
    requires NoCollisions(c, universe) && Sane(c, universe, files) && WellTyped(c, universe, src)
    requires Describes(c, desc, src.raw) && AllStored(c, files, Phases(src))
    requires Visible(c, Disk(files, map[]), desc, path)
    ensures Opened(c, Disk(files, map[]), End(path)).Some?
    ensures forall l <- Leaves(Opened(c, Disk(files, map[]), End(path)).value) ::
              CheckBlob(c, Disk(files, map[]), l) == BlobOK
    decreases |path|
  {
    hide AllStored, NoCollisions, Sane, Phases, Opened;
    StoredOpens(c, universe, files, src, desc);
    if |path| > 1 {
      var i :| 0 <= i < |src.children| && Describes(c, path[1], src.children[i].raw)
               && AllStored(c, files, Phases(src.children[i])) && WellTyped(c, universe, src.children[i]);
      StoredPath(c, universe, files, src.children[i], path[1], path[1..]);
      assert End(path[1..]) == End(path);
    }
  }

  /** When every blob of a well-typed source is stored, whatever the order, its graph is intact. */
  lemma {:induction false} StoredIsIntact(c: Codec, universe: iset<Bytes>, files: Files, src: Source, desc: Descriptor)
    requires NoCollisions(c, universe) && Sane(c, universe, files) && WellTyped(c, universe, src)
    requires Describes(c, desc, src.raw) && AllStored(c, files, Phases(src))
    ensures Intact(c, Disk(files, map[]), desc)
  {
    forall path | Visible(c, Disk(files, map[]), desc, path)
      ensures Opened(c, Disk(files, map[]), End(path)).Some?
      ensures forall l <- Leaves(Opened(c, Disk(files, map[]), End(path)).value) ::
              CheckBlob(c, Disk(files, map[]), l) == BlobOK
    {
      StoredPath(c, universe, files, src, desc, path);
    }
  }

  // ---------------------------------------------------------------------------
  // The store as one machine: blob writes, the index, and the adding jobs

  /** One `AddArtifact` or `AddImage` under way; `todo` is what its writes have not confirmed yet. */
  datatype Job = Job(src: Source, mediaType: string, annotations: Annotations, todo: seq<seq<Bytes>>)

  datatype Store = Store(blobs: State, index: IndexState, jobs: map<nat, Job>)

  datatype StoreEvent =
    | Blob(action: Action)                          // any step of any blob write, or a cancellation
    | Begin(job: nat, src: Source, mediaType: string, annotations: Annotations)
    | Confirm(job: nat, i: nat, call: Call)         // a write of the current phase returned nil
    | NextPhase(job: nat)
    | Abandon(job: nat)                             // an error or a cancellation: the job returns it
    | Indexed(job: nat, start: int, end: int, io: SaveIo)
    | Other(op: Op)                                 // loads, saves, removals, annotation rewrites

  ghost predicate StoreStep(
    cfg: Config, parse: Parser, universe: iset<Bytes>, s: Store, e: StoreEvent, s': Store, ok: bool)
  {
    match e
    case Blob(a) =>
      && Apply(cfg, s.blobs, a) == Some(s'.blobs) && s'.index == s.index && s'.jobs == s.jobs
      && forall d | d in s'.blobs.files && d.alg == CANONICAL :: s'.blobs.files[d] in universe
    case Begin(j, src, mediaType, annotations) =>
      && j !in s.jobs && WellTyped(cfg.codec, universe, src)
      && s' == s.(jobs := s.jobs[j := Job(src, mediaType, annotations, Phases(src))])
    case Confirm(j, i, call) =>
      && j in s.jobs && s.jobs[j].todo != [] && i < |s.jobs[j].todo[0]|
      && call in s.blobs.procs && s.blobs.procs[call].pc == Returned(Nil)
      && s.blobs.procs[call].digest == DigestOf(cfg.codec, s.jobs[j].todo[0][i])
      && s' == s.(jobs := s.jobs[j := Confirmed(s.jobs[j], i)])
    case NextPhase(j) =>
      && j in s.jobs && s.jobs[j].todo != [] && s.jobs[j].todo[0] == []
      && s' == s.(jobs := s.jobs[j := s.jobs[j].(todo := s.jobs[j].todo[1..])])
    case Abandon(j) => j in s.jobs && s' == s.(jobs := s.jobs - {j})
    case Indexed(j, start, end, io) =>
      && j in s.jobs && s.jobs[j].todo == []
      && Step(parse, s.index, Add(RootOf(cfg.codec, s.jobs[j]), start, end, io), s'.index, ok)
      && s' == s.(index := s'.index, jobs := s.jobs - {j})
    case Other(op) =>
      && !op.Add? && !op.PushRoot?
      && Step(parse, s.index, op, s'.index, ok) && s' == s.(index := s'.index)
  }

  function Confirmed(job: Job, i: nat): Job
    requires job.todo != [] && i < |job.todo[0]|
  {
    job.(todo := [Without(job.todo[0], i)] + job.todo[1..])
  }

  function RootOf(c: Codec, job: Job): Descriptor {
    Root(c, job.src, job.mediaType, job.annotations)
  }

  // ---------------------------------------------------------------------------
  // Files

  lemma LandingGrows(c: Codec, universe: iset<Bytes>, files: Files, files': Files)
    requires NoCollisions(c, universe) && Sane(c, universe, files) && Lands(c, files, files')
    requires forall d | d in files' && d.alg == CANONICAL :: files'[d] in universe
    ensures Grows(files, files') && Sane(c, universe, files')
  {
    if files' != files {
      var d: Digest, b :| d.alg == CANONICAL && HashOk(c, d, b) && files' == files[d := b];
      assert files'[d] in universe;
      if d in files {
        assert HashOk(c, d, files[d]) && files[d] in universe;
      }
    }
  }

  // ---------------------------------------------------------------------------
  // The index: which descriptors it speaks of

  /** An entry of the name map, of `index.json`, or of the last version a power loss can bring back. */
  ghost predicate Lists(s: IndexState, d: Descriptor) {
    || IsEntry(d, s.nameMap)
    || (s.file.Json? && d in s.file.entries)
    || (s.durable.Json? && d in s.durable.entries)
  }

  predicate SameBlob(a: Descriptor, b: Descriptor) {
    a.digest == b.digest && a.size == b.size
  }

  ghost predicate NamedBlob(s: IndexState, d: Descriptor) {
    exists e :: Lists(s, e) && SameBlob(e, d)
  }

  lemma {:induction false} LoadedNames(parse: Parser, nameMap: NameMap, entries: seq<Descriptor>, d: Descriptor)
    requires IsEntry(d, LoadInto(parse, nameMap, entries))
    ensures IsEntry(d, nameMap) || exists e <- entries :: d == Normalized(e)
    decreases |entries|
  {
    if entries != [] {
      LoadedNames(parse, LoadOne(parse, nameMap, entries[0]), entries[1..], d);
    }
  }

  lemma LoadNames(parse: Parser, s: IndexState, d: Descriptor)
    requires Lists(Loaded(parse, s), d)
    ensures NamedBlob(s, d)
  {
    if s.file.Json? && IsEntry(d, Loaded(parse, s).nameMap) {
      LoadedNames(parse, s.nameMap, s.file.entries, d);
      if !IsEntry(d, s.nameMap) {
        var e :| e in s.file.entries && d == Normalized(e);
        assert Lists(s, e) && SameBlob(e, d);
      }
    }
    if Lists(s, d) {
      assert SameBlob(d, d);
    }
  }

  lemma SavedNames(list: seq<Descriptor>, nameMap: NameMap, d: Descriptor)
    requires SavedFrom(list, nameMap) && d in list
    ensures exists e :: IsEntry(e, nameMap) && SameBlob(e, d)
  {
    var order :| IsOrder(order, nameMap.Keys) && list == ImagesFirst(Listing(order, WithRefs(nameMap)));
    ImagesFirstPermutes(Listing(order, WithRefs(nameMap)));
    assert d in multiset(list);
    var i :| 0 <= i < |order| && Listing(order, WithRefs(nameMap))[i] == d;
    assert order[i] in order;
    assert IsEntry(nameMap[order[i]], nameMap) && SameBlob(nameMap[order[i]], d);
  }

  lemma SaveNames(s: IndexState, s': IndexState, durable: bool, io: SaveIo, end: int, d: Descriptor)
    requires SaveStep(s, s', durable, io, end) && Lists(s', d)
    ensures NamedBlob(s, d)
  {
    if IsEntry(d, s'.nameMap) {
      var k :| k in s'.nameMap && s'.nameMap[k] == d;
      assert Lists(s, s.nameMap[k]) && SameBlob(s.nameMap[k], d);
    } else if Lists(s, d) {
      assert SameBlob(d, d);
    } else {
      SavedNames(s'.file.entries, s.nameMap, d);
      var e :| IsEntry(e, s.nameMap) && SameBlob(e, d);
      assert Lists(s, e);
    }
  }

  lemma UpdateNames(s: IndexState, matches: Descriptor -> bool, apply: Annotations -> Annotations, d: Descriptor)
    requires Lists(s.(nameMap := Updated(s.nameMap, matches, apply)), d)
    ensures NamedBlob(s, d)
  {
    if IsEntry(d, Updated(s.nameMap, matches, apply)) {
      var k :| k in s.nameMap && Updated(s.nameMap, matches, apply)[k] == d;
      assert Lists(s, s.nameMap[k]) && SameBlob(s.nameMap[k], d);
    } else {
      assert Lists(s, d) && SameBlob(d, d);
    }
  }

  lemma Chain(parse: Parser, s: IndexState, t: IndexState, d: Descriptor)
    requires NamedBlob(t, d) && forall e | Lists(t, e) :: NamedBlob(s, e)
    ensures NamedBlob(s, d)
  {
    var e :| Lists(t, e) && SameBlob(e, d);
    var f :| Lists(s, f) && SameBlob(f, e);
    assert Lists(s, f) && SameBlob(f, d);
  }

  lemma OtherNames(parse: Parser, s: IndexState, op: Op, s': IndexState, ok: bool, d: Descriptor)
    requires Step(parse, s, op, s', ok) && !op.Add? && !op.PushRoot? && Lists(s', d)
    ensures NamedBlob(s, d)
  {
    hide Loaded, Updated, SaveStep, Lists, NamedBlob;
    var l := Loaded(parse, s);
    forall e | Lists(l, e) ensures NamedBlob(s, e) {
      LoadNames(parse, s, e);
    }
    Unmoved(s, s', op, d);
    match op
    case Save(end, io) => SaveNames(s, s', true, io, end, d);
    case Update(matches, apply, end, io) =>
      var u := l.(nameMap := Updated(l.nameMap, matches, apply));
      if s' != s && s' != l {
        SaveNames(u, s', true, io, end, d);
        forall e | Lists(u, e) ensures NamedBlob(l, e) {
          UpdateNames(l, matches, apply, e);
        }
        Chain(parse, l, u, d);
        Chain(parse, s, l, d);
      }
    case _ =>
  }

  lemma Unmoved(s: IndexState, s': IndexState, op: Op, d: Descriptor)
    requires Lists(s', d)
    ensures s' == s || (op.Remove? && s' == s.(nameMap := s.nameMap - {op.key})) ==> NamedBlob(s, d)
  {
    if s' == s || (op.Remove? && s' == s.(nameMap := s.nameMap - {op.key})) {
      assert Lists(s, d) && SameBlob(d, d);
    }
  }

  lemma AddNames(parse: Parser, s: IndexState, op: Op, s': IndexState, ok: bool, d: Descriptor)
    requires op.Add? && Step(parse, s, op, s', ok) && Lists(s', d)
    ensures NamedBlob(s, d) || SameBlob(op.desc, d)
  {
    if s' == s {
      assert Lists(s, d) && SameBlob(d, d);
    } else {
      var k := AddKey(parse, op.desc.annotations).key;
      var t := s.(nameMap := s.nameMap[k := op.desc]);
      SaveNames(t, s', Due(s.lastDurable, op.start), op.io, op.end, d);
      var e :| Lists(t, e) && SameBlob(e, d);
      if e != op.desc {
        assert Lists(s, e);
      }
    }
  }

  // ---------------------------------------------------------------------------
  // Every entry, always

  ghost predicate EntriesIntact(c: Codec, files: Files, s: IndexState) {
    forall d | Lists(s, d) :: Intact(c, Disk(files, map[]), d)
  }

  ghost predicate Waits(todo: seq<seq<Bytes>>, b: Bytes) {
    exists p :: p in todo && b in p
  }

  ghost predicate JobOk(c: Codec, universe: iset<Bytes>, files: Files, job: Job) {
    && WellTyped(c, universe, job.src)
    && forall p, b | p in Phases(job.src) && b in p :: Stored(c, files, b) || Waits(job.todo, b)
  }

  ghost predicate StoreInv(cfg: Config, universe: iset<Bytes>, s: Store) {
    && Inv(cfg, s.blobs)
    && Sane(cfg.codec, universe, s.blobs.files)
    && EntriesIntact(cfg.codec, s.blobs.files, s.index)
    && forall j | j in s.jobs :: JobOk(cfg.codec, universe, s.blobs.files, s.jobs[j])
  }

  lemma IntactSameBlob(c: Codec, disk: Disk, a: Descriptor, b: Descriptor)
    requires Intact(c, disk, a) && SameBlob(a, b)
    ensures Intact(c, disk, b)
  {
    forall path | Visible(c, disk, b, path)
      ensures Opened(c, disk, End(path)).Some?
      ensures forall l <- Leaves(Opened(c, disk, End(path)).value) :: CheckBlob(c, disk, l) == BlobOK
    {
      var other := [a] + path[1..];
      assert other[1..] == path[1..];
      assert Visible(c, disk, a, other);
      assert |path| == 1 ==> End(other) == a && End(path) == b;
    }
  }

  lemma BlobKeeps(cfg: Config, parse: Parser, universe: iset<Bytes>, s: Store, e: StoreEvent, s': Store, ok: bool)
    requires NoCollisions(cfg.codec, universe) && StoreInv(cfg, universe, s)
    requires e.Blob? && StoreStep(cfg, parse, universe, s, e, s', ok)
    ensures StoreInv(cfg, universe, s')
  {
    hide Inv, Apply, NoCollisions, WellTyped, Lands, Sane, Intact, Lists, Waits;
    var c := cfg.codec;
    StepKeeps(cfg, s.blobs, e.action, s'.blobs);
    LandingGrows(c, universe, s.blobs.files, s'.blobs.files);
    forall d | Lists(s'.index, d) ensures Intact(c, Disk(s'.blobs.files, map[]), d) {
      IntactGrows(c, s.blobs.files, s'.blobs.files, d);
    }
  }

  lemma ConfirmedWaits(job: Job, i: nat, b: Bytes)
    requires job.todo != [] && i < |job.todo[0]| && Waits(job.todo, b)
    ensures b == job.todo[0][i] || Waits(Confirmed(job, i).todo, b)
  {
    var p :| p in job.todo && b in p;
    var todo := Confirmed(job, i).todo;
    if b != job.todo[0][i] {
      if p == job.todo[0] {
        var k :| 0 <= k < |p| && p[k] == b;
        assert Without(p, i)[if k < i then k else k - 1] == b;
        assert todo[0] == Without(p, i) && b in todo[0];
      } else {
        var k :| 0 <= k < |job.todo| && job.todo[k] == p;
        assert todo[k] == p;
      }
    }
  }

  lemma ConfirmKeeps(cfg: Config, parse: Parser, universe: iset<Bytes>, s: Store, e: StoreEvent, s': Store, ok: bool)
    requires StoreInv(cfg, universe, s) && StoreStep(cfg, parse, universe, s, e, s', ok) && e.Confirm?
    ensures StoreInv(cfg, universe, s')
  {
    var c, files, j := cfg.codec, s.blobs.files, e.job;
    assert Stored(c, files, s.jobs[j].todo[0][e.i]) by {
      assert ByteOk(cfg, s.blobs, s.blobs.procs[e.call]);
    }
    hide Inv, Sane, EntriesIntact, WellTyped, Phases, Waits, Confirmed, Stored;
    forall p, b | p in Phases(s.jobs[j].src) && b in p ensures Stored(c, files, b) || Waits(s'.jobs[j].todo, b) {
      if !Stored(c, files, b) {
        ConfirmedWaits(s.jobs[j], e.i, b);
      }
    }
    assert JobOk(c, universe, files, s'.jobs[j]);
  }

  lemma NextPhaseWaits(todo: seq<seq<Bytes>>, b: Bytes)
    requires todo != [] && todo[0] == [] && Waits(todo, b)
    ensures Waits(todo[1..], b)
  {
    var q :| q in todo && b in q;
    assert q in todo[1..];
  }

  lemma JobKeeps(cfg: Config, parse: Parser, universe: iset<Bytes>, s: Store, e: StoreEvent, s': Store, ok: bool)
    requires StoreInv(cfg, universe, s) && StoreStep(cfg, parse, universe, s, e, s', ok)
    requires e.Begin? || e.NextPhase? || e.Abandon?
    ensures StoreInv(cfg, universe, s')
  {
    hide Inv, Sane, EntriesIntact, WellTyped, Phases, Stored;
    var c, files := cfg.codec, s.blobs.files;
    if !e.Abandon? {
      var src := s'.jobs[e.job].src;
      forall p, b | p in Phases(src) && b in p ensures Stored(c, files, b) || Waits(s'.jobs[e.job].todo, b) {
        if e.NextPhase? && !Stored(c, files, b) {
          NextPhaseWaits(s.jobs[e.job].todo, b);
        }
      }
      assert JobOk(c, universe, files, s'.jobs[e.job]);
    }
  }

  lemma IndexKeeps(cfg: Config, parse: Parser, universe: iset<Bytes>, s: Store, e: StoreEvent, s': Store, ok: bool)
    requires NoCollisions(cfg.codec, universe) && StoreInv(cfg, universe, s)
    requires StoreStep(cfg, parse, universe, s, e, s', ok) && (e.Indexed? || e.Other?)
    ensures StoreInv(cfg, universe, s')
  {
    hide Inv, Step, Sane, NoCollisions, Intact, Lists, WellTyped, Phases;
    var c, files := cfg.codec, s.blobs.files;
    if e.Indexed? {
      assert AllStored(c, files, Phases(s.jobs[e.job].src));
      StoredIsIntact(c, universe, files, s.jobs[e.job].src, RootOf(c, s.jobs[e.job]));
    }
    forall d | Lists(s'.index, d) ensures Intact(c, Disk(files, map[]), d) {
      match e
      case Indexed(j, start, end, io) =>
        var root := RootOf(c, s.jobs[j]);
        AddNames(parse, s.index, Add(root, start, end, io), s'.index, ok, d);
        if SameBlob(root, d) {
          IntactSameBlob(c, Disk(files, map[]), root, d);
        } else {
          var x :| Lists(s.index, x) && SameBlob(x, d);
          IntactSameBlob(c, Disk(files, map[]), x, d);
        }
      case Other(op) =>
        OtherNames(parse, s.index, op, s'.index, ok, d);
        var x :| Lists(s.index, x) && SameBlob(x, d);
        IntactSameBlob(c, Disk(files, map[]), x, d);
    }
  }

  /** A run: the states, and what happened between them. */
  ghost predicate StoreRun(
    cfg: Config, parse: Parser, universe: iset<Bytes>, states: seq<Store>, events: seq<StoreEvent>)
  {
    && |states| == |events| + 1
    && forall i: nat | i < |events| :: Happens(cfg, parse, universe, states[i], events[i], states[i + 1])
  }

  ghost predicate Happens(cfg: Config, parse: Parser, universe: iset<Bytes>, s: Store, e: StoreEvent, s': Store) {
    exists ok :: StoreStep(cfg, parse, universe, s, e, s', ok)
  }

  /** A store nobody is working on yet, hash-valid, whose index entries are intact. */
  ghost predicate Quiet0(cfg: Config, universe: iset<Bytes>, s: Store) {
    && Initial(cfg, s.blobs) && s.jobs == map[]
    && Sane(cfg.codec, universe, s.blobs.files) && EntriesIntact(cfg.codec, s.blobs.files, s.index)
  }

  lemma {:induction false} RunKeepsStore(
    cfg: Config, parse: Parser, universe: iset<Bytes>, states: seq<Store>, events: seq<StoreEvent>, n: nat)
    requires NoCollisions(cfg.codec, universe) && StoreRun(cfg, parse, universe, states, events)
    requires Quiet0(cfg, universe, states[0]) && n <= |events|
    ensures StoreInv(cfg, universe, states[n])
  {
    if n == 0 {
      InitialInv(cfg, states[0].blobs);
    } else {
      hide NoCollisions, StoreInv, Quiet0, StoreStep;
      RunKeepsStore(cfg, parse, universe, states, events, n - 1);
      assert Happens(cfg, parse, universe, states[n - 1], events[n - 1], states[n]);
      EventKeeps(cfg, parse, universe, states[n - 1], events[n - 1], states[n]);
    }
  }

  /** Whatever happens next, the store stays consistent. */
  lemma EventKeeps(cfg: Config, parse: Parser, universe: iset<Bytes>, s: Store, e: StoreEvent, s': Store)
    requires NoCollisions(cfg.codec, universe) && StoreInv(cfg, universe, s)
    requires Happens(cfg, parse, universe, s, e, s')
    ensures StoreInv(cfg, universe, s')
  {
    hide NoCollisions, StoreInv, StoreStep;
    var ok :| StoreStep(cfg, parse, universe, s, e, s', ok);
    match e
    case Blob(_) => BlobKeeps(cfg, parse, universe, s, e, s', ok);
    case Confirm(_, _, _) => ConfirmKeeps(cfg, parse, universe, s, e, s', ok);
    case Indexed(_, _, _, _) => IndexKeeps(cfg, parse, universe, s, e, s', ok);
    case Other(_) => IndexKeeps(cfg, parse, universe, s, e, s', ok);
    case _ => JobKeeps(cfg, parse, universe, s, e, s', ok);
  }

  /** In every interleaving of any number of adds, whatever fails or is cancelled where, each entry
      of the name map and of `index.json` leads to a graph that is complete and hash-valid. */
  lemma EveryEntryIsAlwaysIntact(
    cfg: Config, parse: Parser, universe: iset<Bytes>, states: seq<Store>, events: seq<StoreEvent>,
    n: nat, d: Descriptor)
    requires NoCollisions(cfg.codec, universe) && StoreRun(cfg, parse, universe, states, events)
    requires Quiet0(cfg, universe, states[0]) && n <= |events|
    requires Lists(states[n].index, d)
    ensures HashValid(cfg.codec, states[n].blobs.files) && Intact(cfg.codec, Disk(states[n].blobs.files, map[]), d)
    ensures SoundGraph(cfg.codec, Disk(states[n].blobs.files, map[]), d)
  {
    RunKeepsStore(cfg, parse, universe, states, events, n);
    IntactMeansSound(cfg.codec, Disk(states[n].blobs.files, map[]), d);
  }
}
