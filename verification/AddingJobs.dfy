/** What a job that adds an artifact or an image leaves in the index when it ends. */
module AddingJobs {
  import opened Content
  import opened Graph
  import opened Index
  import opened IndexStore
  import opened BlobWriter
  import opened IndexClosure

  /** Job `j` began at event `b` with these arguments, and no event since has ended it. */
  ghost predicate UnderWay(
    events: seq<StoreEvent>, b: nat, n: nat, j: nat, src: Source, mediaType: string, annotations: Annotations)
  {
    && b < n <= |events| && events[b] == StoreEvent.Begin(j, src, mediaType, annotations)
    && forall i | b < i < n :: !((events[i].Abandon? || events[i].Indexed?) && events[i].job == j)
  }

  lemma StepKeepsJob(
    cfg: Config, parse: Parser, universe: iset<Bytes>, s: Store, e: StoreEvent, s': Store, j: nat)
    requires Happens(cfg, parse, universe, s, e, s') && j in s.jobs
    requires !(e.Abandon? && e.job == j) && !(e.Indexed? && e.job == j)
    ensures j in s'.jobs && s'.jobs[j] == s.jobs[j].(todo := s'.jobs[j].todo)
  {
    hide WellTyped, Step, Apply;
    var ok :| StoreStep(cfg, parse, universe, s, e, s', ok);
  }

  /** A job keeps the source, the media type and the annotations it began with. */
  lemma {:induction false} JobKeepsItsArguments(
    cfg: Config, parse: Parser, universe: iset<Bytes>, states: seq<Store>, events: seq<StoreEvent>,
    b: nat, n: nat, j: nat, src: Source, mediaType: string, annotations: Annotations)
    requires StoreRun(cfg, parse, universe, states, events)
    requires UnderWay(events, b, n, j, src, mediaType, annotations)
    ensures j in states[n].jobs
    ensures states[n].jobs[j] == Job(src, mediaType, annotations, states[n].jobs[j].todo)
  {
    hide StoreStep;
    assert Happens(cfg, parse, universe, states[n - 1], events[n - 1], states[n]);
    if b < n - 1 {
      JobKeepsItsArguments(cfg, parse, universe, states, events, b, n - 1, j, src, mediaType, annotations);
      StepKeepsJob(cfg, parse, universe, states[n - 1], events[n - 1], states[n], j);
    } else {
      BeginIsRecorded(cfg, parse, universe, states[b], states[n], j, src, mediaType, annotations);
    }
  }

  lemma BeginIsRecorded(
    cfg: Config, parse: Parser, universe: iset<Bytes>, s: Store, s': Store,
    j: nat, src: Source, mediaType: string, annotations: Annotations)
    requires Happens(cfg, parse, universe, s, StoreEvent.Begin(j, src, mediaType, annotations), s')
    ensures j in s'.jobs && s'.jobs[j] == Job(src, mediaType, annotations, s'.jobs[j].todo)
  {
    hide WellTyped, Step, Apply;
  }

  /** The entry that speaks of a source's top blob under these annotations and this media type. */
  ghost predicate EntryFor(c: Codec, d: Descriptor, src: Source, mediaType: string, annotations: Annotations) {
    && d.annotations == annotations && d.mediaType == mediaType
    && d.digest == Digest("sha256", c.hash("sha256", src.raw)) && d.size == |src.raw|
  }

  lemma AddedEntry(
    parse: Parser, s: IndexState, d: Descriptor, start: int, end: int, io: SaveIo, s': IndexState, ok: bool, k: string)
    requires Step(parse, s, Add(d, start, end, io), s', ok) && AddKey(parse, d.annotations) == Key(k)
    ensures ok ==> At(s'.nameMap, k) == Some(d)
    ensures ok <==> Same(s.nameMap, k, d) || SaveOk(Due(s.lastDurable, start), io)
    ensures ok && !Same(s.nameMap, k, d) ==> FileHolds(s'.file, d)
  {
    hide SavedFrom;
    WithRefKeeps(d);
    if ok && !Same(s.nameMap, k, d) {
      var m := s.nameMap[k := d];
      SavedMembers(s'.file.entries, m);
      assert IsEntry(WithRefs(m)[k], WithRefs(m));
    }
  }

  /** A job that ends by indexing its source, with annotations that have a key: when it reports success, the
      name map has under that key an entry with exactly the annotations and the media type the job began
      with, for the source's top blob, and the graph below that is complete. It reports success whenever
      the save works. */
  lemma AFinishedAddIsInTheIndex(
    cfg: Config, parse: Parser, universe: iset<Bytes>, states: seq<Store>, events: seq<StoreEvent>,
    b: nat, n: nat, src: Source, mediaType: string, annotations: Annotations, k: string, ok: bool)
    returns (d: Descriptor)
    requires NoCollisions(cfg.codec, universe) && StoreRun(cfg, parse, universe, states, events)
    requires Quiet0(cfg, universe, states[0])
    requires n < |events| && events[n].Indexed?
    requires UnderWay(events, b, n, events[n].job, src, mediaType, annotations)
    requires StoreStep(cfg, parse, universe, states[n], events[n], states[n + 1], ok)
    requires AddKey(parse, annotations) == Key(k)
    ensures EntryFor(cfg.codec, d, src, mediaType, annotations)
    ensures ok <==> Same(states[n].index.nameMap, k, d)
                    || events[n].io == AllWritten
                    || (events[n].io == NoDirSync && !Due(states[n].index.lastDurable, events[n].start))
    ensures ok ==> At(states[n + 1].index.nameMap, k) == Some(d)
    ensures ok && !Same(states[n].index.nameMap, k, d) ==> FileHolds(states[n + 1].index.file, d)
    ensures ok ==> SoundGraph(cfg.codec, Disk(states[n + 1].blobs.files, map[]), d)
  {
    hide NoCollisions, Quiet0, WellTyped, AddKey, SoundGraph, Step, Happens;
    JobKeepsItsArguments(cfg, parse, universe, states, events, b, n, events[n].job, src, mediaType, annotations);
    d := RootOf(cfg.codec, states[n].jobs[events[n].job]);
    AddedEntry(parse, states[n].index, d, events[n].start, events[n].end, events[n].io, states[n + 1].index, ok, k);
    if ok {
      EveryEntryIsAlwaysIntact(cfg, parse, universe, states, events, n + 1, d);
    }
  }
}
