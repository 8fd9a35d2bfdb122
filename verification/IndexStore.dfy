/** The critical sections on the index: each exported method of the store runs one of them under
    its mutex, so a run of concurrent callers is a sequence of these steps. */
module IndexStore {
  import opened Content
  import opened Index

  /** Nanoseconds; the shortest time between two checkpointed fsyncs. */
  const CHECKPOINT_INTERVAL: int := 30_000_000_000

  datatype IndexFile = Absent | Corrupt | Json(entries: seq<Descriptor>)

  /** `durable` is the last `index.json` that is certain to survive a power loss. */
  datatype IndexState = IndexState(
    nameMap: NameMap, file: IndexFile, durable: IndexFile, lastDurable: Option<int>)

  /** How the system calls of one save went: some call up to the rename failed, or the rename
      happened and only the directory's fsync failed, or everything worked. */
  datatype SaveIo = NoRename | NoDirSync | AllWritten

  /** The critical sections. `start` and `end` are the two readings of the clock in a save. */
  datatype Op =
    | Add(desc: Descriptor, start: int, end: int, io: SaveIo)
    | PushRoot(ref: string, desc: Descriptor, start: int, end: int, io: SaveIo)
    | Load
    | Save(end: int, io: SaveIo)
    | Remove(key: string)
    | Update(matches: Descriptor -> bool, apply: Annotations -> Annotations, end: int, io: SaveIo)

  predicate Due(lastDurable: Option<int>, now: int) {
    lastDurable.None? || now - lastDurable.value >= CHECKPOINT_INTERVAL
  }

  predicate SaveOk(durable: bool, io: SaveIo) {
    io.AllWritten? || (io.NoDirSync? && !durable)
  }

  ghost predicate SaveStep(s: IndexState, s': IndexState, durable: bool, io: SaveIo, end: int) {
    && s'.nameMap == WithRefs(s.nameMap)
    && (if io.NoRename? then s'.file == s.file
        else s'.file.Json? && SavedFrom(s'.file.entries, s.nameMap))
    && (if durable && io.AllWritten? then s'.durable == s'.file && s'.lastDurable == Some(end)
        else s'.durable == s.durable && s'.lastDurable == s.lastDurable)
  }

  function Loaded(parse: Parser, s: IndexState): IndexState {
    if s.file.Json? then s.(nameMap := LoadInto(parse, s.nameMap, s.file.entries)) else s
  }

  function RootKey(ref: string, d: Descriptor): string {
    ref + "-" + CurrentKind(d.annotations)
  }

  function Rewritten(d: Descriptor, matches: Descriptor -> bool, apply: Annotations -> Annotations): Descriptor {
    if matches(d) then d.(annotations := apply(d.annotations)) else d
  }

  function Updated(nameMap: NameMap, matches: Descriptor -> bool, apply: Annotations -> Annotations): NameMap {
    map k | k in nameMap :: Rewritten(nameMap[k], matches, apply)
  }

  function Matching(nameMap: NameMap, matches: Descriptor -> bool): set<string> {
    set k | k in nameMap && matches(nameMap[k])
  }

  /** One critical section; `ok` is whether the caller gets a nil error. */
  ghost predicate Step(parse: Parser, s: IndexState, op: Op, s': IndexState, ok: bool) {
    match op
    case Add(desc, start, end, io) => AddStep(parse, s, desc, start, end, io, s', ok)
    case PushRoot(ref, desc, start, end, io) =>
      if s.file.Corrupt? then s' == s && !ok
      else
        var l := Loaded(parse, s);
        var durable := Due(s.lastDurable, start);
        && SaveStep(l.(nameMap := l.nameMap[RootKey(ref, desc) := Normalized(desc)]), s', durable, io, end)
        && ok == SaveOk(durable, io)
    case Load => s' == Loaded(parse, s) && ok == !s.file.Corrupt?
    case Save(end, io) => SaveStep(s, s', true, io, end) && ok == SaveOk(true, io)
    case Remove(key) => s' == s.(nameMap := s.nameMap - {key}) && ok
    case Update(matches, apply, end, io) =>
      if s.file.Corrupt? then s' == s && !ok
      else
        var l := Loaded(parse, s);
        if Matching(l.nameMap, matches) == {} then s' == l && ok
        else SaveStep(l.(nameMap := Updated(l.nameMap, matches, apply)), s', true, io, end) && ok == SaveOk(true, io)
  }

  ghost predicate AddStep(
    parse: Parser, s: IndexState, desc: Descriptor, start: int, end: int, io: SaveIo, s': IndexState, ok: bool)
  {
    match AddKey(parse, desc.annotations)
    case BadReference => s' == s && !ok
    case NoKey => s' == s && ok
    case Key(k) =>
      if Same(s.nameMap, k, desc) then s' == s && ok
      else
        var durable := Due(s.lastDurable, start);
        SaveStep(s.(nameMap := s.nameMap[k := desc]), s', durable, io, end) && ok == SaveOk(durable, io)
  }

  /** The stored descriptor is already equal, so the write is skipped. */
  predicate Same(nameMap: NameMap, k: string, d: Descriptor) {
    k in nameMap && nameMap[k] == d
  }

  // ---------------------------------------------------------------------------
  // What an operation does

  /** What one operation writes under which key. */
  function Written(parse: Parser, op: Op): Option<(string, Descriptor)> {
    match op
    case Add(desc, _, _, _) =>
      (match AddKey(parse, desc.annotations)
       case Key(k) => Some((k, desc))
       case _ => None)
    case PushRoot(ref, desc, _, _, _) => Some((RootKey(ref, desc), Normalized(desc)))
    case _ => None
  }

  function IoOf(op: Op): SaveIo {
    match op
    case Add(_, _, _, io) => io
    case PushRoot(_, _, _, _, io) => io
    case Save(_, io) => io
    case Update(_, _, _, io) => io
    case _ => AllWritten
  }

  /** The operation starts by loading the file. */
  predicate Loads(op: Op) {
    op.Load? || op.PushRoot? || op.Update?
  }

  /** The name map an operation starts to work on. */
  function Base(parse: Parser, s: IndexState, op: Op): NameMap {
    if Loads(op) then Loaded(parse, s).nameMap else s.nameMap
  }

  /** The name map it leaves. */
  function Put(parse: Parser, base: NameMap, op: Op): NameMap {
    match op
    case Remove(key) => base - {key}
    case Update(matches, apply, _, _) => Updated(base, matches, apply)
    case _ =>
      match Written(parse, op)
      case None => base
      case Some(w) => base[w.0 := w.1]
  }

  /** The operation goes on to a save. */
  ghost predicate Saves(parse: Parser, s: IndexState, op: Op) {
    match op
    case Add(desc, _, _, _) =>
      AddKey(parse, desc.annotations).Key? && !Same(s.nameMap, AddKey(parse, desc.annotations).key, desc)
    case PushRoot(_, _, _, _, _) => true
    case Save(_, _) => true
    case Update(matches, _, _, _) => Matching(Base(parse, s, op), matches) != {}
    case _ => false
  }

  /** A save whose new file takes the old one's place. */
  ghost predicate Renames(parse: Parser, s: IndexState, op: Op) {
    Saves(parse, s, op) && !IoOf(op).NoRename?
  }

  lemma NothingRewritten(nameMap: NameMap, matches: Descriptor -> bool, apply: Annotations -> Annotations)
    requires Matching(nameMap, matches) == {}
    ensures Updated(nameMap, matches, apply) == nameMap
  {
    forall k | k in nameMap ensures Updated(nameMap, matches, apply)[k] == nameMap[k] {
      assert k !in Matching(nameMap, matches);
    }
  }

  lemma AddShape(
    parse: Parser, s: IndexState, desc: Descriptor, start: int, end: int, io: SaveIo, s': IndexState, ok: bool)
    requires AddStep(parse, s, desc, start, end, io, s', ok)
    ensures var op := Add(desc, start, end, io); var t := s.(nameMap := Put(parse, s.nameMap, op));
            if Saves(parse, s, op) then SaveStep(t, s', Due(s.lastDurable, start), io, end) else s' == t
  {
    hide SaveStep, AddKey;
    var key := AddKey(parse, desc.annotations);
    if key.Key? && Same(s.nameMap, key.key, desc) {
      assert s.nameMap[key.key := desc] == s.nameMap;
    }
  }

  /** Every critical section on a readable file: a save of the new map is tried, or there is none. */
  lemma StepShape(parse: Parser, s: IndexState, op: Op, s': IndexState, ok: bool)
    requires !s.file.Corrupt? && Step(parse, s, op, s', ok)
    ensures var t := s.(nameMap := Put(parse, Base(parse, s, op), op));
            if Saves(parse, s, op) then exists durable, end :: SaveStep(t, s', durable, IoOf(op), end) else s' == t
  {
    hide SaveStep, LoadInto;
    var t := s.(nameMap := Put(parse, Base(parse, s, op), op));
    match op
    case Add(desc, start, end, io) =>
      AddShape(parse, s, desc, start, end, io, s', ok);
      if Saves(parse, s, op) {
        assert SaveStep(t, s', Due(s.lastDurable, start), IoOf(op), end);
      }
    case PushRoot(ref, desc, start, end, io) => assert SaveStep(t, s', Due(s.lastDurable, start), IoOf(op), end);
    case Save(end, io) => assert SaveStep(t, s', true, IoOf(op), end);
    case Update(matches, apply, end, io) =>
      if Matching(Base(parse, s, op), matches) == {} {
        NothingRewritten(Base(parse, s, op), matches, apply);
      } else {
        assert SaveStep(t, s', true, IoOf(op), end);
      }
    case _ =>
  }

  // ---------------------------------------------------------------------------
  // One key in memory and in the file

  /** What a load finds in the file under a key. */
  function InFile(parse: Parser, file: IndexFile, k: string): Option<Descriptor> {
    if file.Json? then LastFor(parse, file.entries, k) else None
  }

  /** What a load into a fresh store would leave. */
  function OnDisk(parse: Parser, file: IndexFile): NameMap {
    if file.Json? then LoadInto(parse, map[], file.entries) else map[]
  }

  lemma OnDiskAt(parse: Parser, file: IndexFile, k: string)
    ensures At(OnDisk(parse, file), k) == InFile(parse, file, k)
  {
    hide LastFor;
    if file.Json? {
      LoadKeepsTheLast(parse, map[], file.entries, k);
    }
  }

  /** A load puts what the file holds over the name map, whatever the file looks like. */
  lemma LoadedIsOver(parse: Parser, s: IndexState)
    ensures !s.file.Corrupt? ==> Loaded(parse, s) == s.(nameMap := s.nameMap + OnDisk(parse, s.file))
  {
    hide LoadInto;
    if s.file.Json? {
      LoadIsOver(parse, s.nameMap, s.file.entries);
    } else {
      assert s.nameMap + map[] == s.nameMap;
    }
  }

  /** No other entry in memory is read back under the key; the file's entry for it, if any, has a reference. */
  ghost predicate Tidy(parse: Parser, s: IndexState, k: string) {
    && OwnKey(parse, s.nameMap, k)
    && !s.file.Corrupt?
    && (InFile(parse, s.file, k).Some? ==> REF_NAME in InFile(parse, s.file, k).value.annotations)
  }

  /** What the operation writes minds the key. A rewrite of annotations that changes a reference does not
      mind the entry's old key, nor the one that the new reference stands for. */
  ghost predicate MindsKey(parse: Parser, s: IndexState, op: Op, k: string) {
    match op
    case Update(matches, apply, _, _) =>
      var base := Base(parse, s, op);
      forall x | x in base && matches(base[x]) :: Minds(parse, k, x, Rewritten(base[x], matches, apply))
    case _ => Written(parse, op).Some? ==> Minds(parse, k, Written(parse, op).value.0, Written(parse, op).value.1)
  }

  /** What an operation finds under a key when it starts to work. */
  function BaseAt(parse: Parser, s: IndexState, op: Op, k: string): Option<Descriptor> {
    if Loads(op) && InFile(parse, s.file, k).Some? then InFile(parse, s.file, k) else At(s.nameMap, k)
  }

  lemma LoadAtKey(parse: Parser, s: IndexState, op: Op, k: string)
    requires Tidy(parse, s, k)
    ensures At(Base(parse, s, op), k) == BaseAt(parse, s, op, k) && OwnKey(parse, Base(parse, s, op), k)
  {
    hide LastFor, LoadInto, LoadKey, Normalized;
    var base := Base(parse, s, op);
    if Loads(op) && s.file.Json? {
      LoadKeepsTheLast(parse, s.nameMap, s.file.entries, k);
      forall x | x in base ensures Minds(parse, k, x, base[x]) {
        LoadKeepsTheLast(parse, s.nameMap, s.file.entries, x);
        LastForIsAnEntry(parse, s.file.entries, x);
        if LastFor(parse, s.file.entries, x).Some? {
          var d: Descriptor :| LoadKey(parse, d.annotations) == Key(x) && base[x] == Normalized(d);
          NormalizedKeepsItsKey(parse, d);
        } else {
          assert Minds(parse, k, x, s.nameMap[x]);
        }
      }
    }
  }

  lemma PutMinds(parse: Parser, s: IndexState, op: Op, k: string)
    requires OwnKey(parse, Base(parse, s, op), k) && MindsKey(parse, s, op, k)
    ensures OwnKey(parse, Put(parse, Base(parse, s, op), op), k)
  {
    hide Minds, Base, Written;
  }

  /** A save, if it reaches its rename, puts into the file what a minded key has in memory. */
  lemma SaveAtKey(parse: Parser, s: IndexState, s': IndexState, durable: bool, io: SaveIo, end: int, k: string)
    requires SaveStep(s, s', durable, io, end) && Tidy(parse, s, k)
    ensures Tidy(parse, s', k) && At(s'.nameMap, k) == At(s.nameMap, k)
    ensures InFile(parse, s'.file, k) == if io.NoRename? then InFile(parse, s.file, k) else At(s.nameMap, k)
  {
    hide SavedFrom, LastFor, WithRefs, LoadKey, Normalized;
    WithRefsMinds(parse, s.nameMap, k);
    if !io.NoRename? {
      SavedReadsBack(parse, s'.file.entries, s.nameMap, k);
    }
  }

  /** One critical section at one key, whatever becomes of the others: the name map gets the file's entry
      if the operation loads, then its own write; the file gets the result if a save reaches its rename,
      and is untouched otherwise. This holds whether or not saves fail. */
  lemma StepAtKey(parse: Parser, s: IndexState, op: Op, s': IndexState, ok: bool, k: string)
    requires Tidy(parse, s, k) && Step(parse, s, op, s', ok) && MindsKey(parse, s, op, k)
    ensures Tidy(parse, s', k) && At(Base(parse, s, op), k) == BaseAt(parse, s, op, k)
    ensures At(s'.nameMap, k) == At(Put(parse, Base(parse, s, op), op), k)
    ensures InFile(parse, s'.file, k) ==
            if Renames(parse, s, op) then At(s'.nameMap, k) else InFile(parse, s.file, k)
  {
    StepShape(parse, s, op, s', ok);
    LoadAtKey(parse, s, op, k);
    PutMinds(parse, s, op, k);
    hide Step, MindsKey, Base, BaseAt, Put, Saves, OwnKey, InFile, SaveStep;
    var t := s.(nameMap := Put(parse, Base(parse, s, op), op));
    if Saves(parse, s, op) {
      var durable, end :| SaveStep(t, s', durable, IoOf(op), end);
      SaveAtKey(parse, t, s', durable, IoOf(op), end, k);
    }
  }

  // ---------------------------------------------------------------------------
  // All keys

  /** `index.json` holds exactly the values of the name map, under canonical keys. */
  ghost predicate Synced(parse: Parser, s: IndexState) {
    && Canonical(parse, s.nameMap)
    && match s.file
       case Absent => s.nameMap == map[]
       case Corrupt => false
       case Json(entries) => SavedFrom(entries, s.nameMap)
  }

  lemma SyncedLoadsBack(parse: Parser, s: IndexState)
    requires Synced(parse, s)
    ensures OnDisk(parse, s.file) == s.nameMap
  {
    hide Canonical, SavedFrom, LoadInto;
    if s.file.Json? {
      RoundTrip(parse, s.file.entries, s.nameMap);
    }
  }

  /** A synchronized store is tidy at every key, and its file says there what its name map says. */
  lemma SyncedAtKey(parse: Parser, s: IndexState, k: string)
    requires Synced(parse, s)
    ensures Tidy(parse, s, k) && InFile(parse, s.file, k) == At(s.nameMap, k)
  {
    hide OnDisk, InFile, SavedFrom, LoadKey, Normalized;
    SyncedLoadsBack(parse, s);
    OnDiskAt(parse, s.file, k);
    forall x | x in s.nameMap ensures Minds(parse, k, x, s.nameMap[x]) {
      assert CanonicalEntry(parse, x, s.nameMap[x]);
    }
  }

  /** A save of a canonical map leaves the map alone, and puts it into the file if the rename happens. */
  lemma SaveSyncs(parse: Parser, s: IndexState, s': IndexState, durable: bool, io: SaveIo, end: int)
    requires Canonical(parse, s.nameMap) && SaveStep(s, s', durable, io, end)
    ensures s'.nameMap == s.nameMap
    ensures if io.NoRename? then s'.file == s.file else Synced(parse, s') && s'.file.Json?
  {
    hide Canonical, SavedFrom;
    CanonicalWithRefs(parse, s.nameMap);
  }

  // ---------------------------------------------------------------------------
  // Where the file falls behind

  ghost predicate FileHolds(file: IndexFile, d: Descriptor) {
    file.Json? && d in file.entries
  }

  /** An add that reports success leaves its entry in the file, except when it skipped the write for
      an entry that an earlier failed save had already put in memory but not in the file. */
  lemma AddReachesTheFileExactlyWhen(
    parse: Parser, s: IndexState, desc: Descriptor, start: int, end: int, io: SaveIo, s': IndexState)
    requires AddStep(parse, s, desc, start, end, io, s', true) && AddKey(parse, desc.annotations).Key?
    ensures FileHolds(s'.file, desc) <==>
            (Same(s.nameMap, AddKey(parse, desc.annotations).key, desc) ==> FileHolds(s.file, desc))
  {
    hide SavedFrom;
    var k := AddKey(parse, desc.annotations).key;
    if !Same(s.nameMap, k, desc) {
      var m := s.nameMap[k := desc];
      SavedMembers(s'.file.entries, m);
      WithRefKeeps(desc);
      assert IsEntry(WithRefs(m)[k], WithRefs(m));
    }
  }

  lemma WithRefKeeps(d: Descriptor)
    requires REF_NAME in d.annotations
    ensures WithRef(d) == d
  {
    assert d.annotations[REF_NAME := d.annotations[REF_NAME]] == d.annotations;
  }

  /** The exception happens: an add whose save fails, tried again, reports success and is lost. */
  lemma RetryAfterFailedSaveIsLost(parse: Parser, desc: Descriptor, t: int, s1: IndexState, s2: IndexState)
    requires AddKey(parse, desc.annotations).Key?
    requires AddStep(parse, IndexState(map[], Absent, Absent, None), desc, t, t, NoRename, s1, false)
    requires AddStep(parse, s1, desc, t, t, AllWritten, s2, true)
    ensures s2.file.Absent? && s2.nameMap == map[AddKey(parse, desc.annotations).key := desc]
  {
    WithRefKeeps(desc);
  }

  /** After a rewrite of annotations, a fresh process finds the name map in the file exactly when every
      rewritten entry still stands under the key its new annotations give. */
  lemma RewriteReadsBackExactlyWhen(
    parse: Parser, s: IndexState, matches: Descriptor -> bool, apply: Annotations -> Annotations,
    end: int, io: SaveIo, s': IndexState, ok: bool)
    requires Synced(parse, s) && Step(parse, s, Update(matches, apply, end, io), s', ok) && !io.NoRename?
    ensures OnDisk(parse, s'.file) == s'.nameMap <==>
            forall k | k in s.nameMap && matches(s.nameMap[k]) ::
              CanonicalEntry(parse, k, WithRef(Rewritten(s.nameMap[k], matches, apply)))
  {
    hide CanonicalEntry, SavedFrom, LoadInto, WithRef, Step;
    var op := Update(matches, apply, end, io);
    StepShape(parse, s, op, s', ok);
    SyncedLoadsAsIs(parse, s);
    if Matching(s.nameMap, matches) == {} {
      SyncedLoadsBack(parse, s);
      NothingRewritten(s.nameMap, matches, apply);
      assert forall k | k in s.nameMap :: k !in Matching(s.nameMap, matches);
    } else {
      var updated := Updated(s.nameMap, matches, apply);
      RoundTripExactlyWhen(parse, s'.file.entries, updated);
      CanonicalWithRefs(parse, s.nameMap);
      forall k | k in s.nameMap && !matches(s.nameMap[k]) ensures CanonicalEntry(parse, k, WithRefs(updated)[k]) {
        assert WithRefs(s.nameMap)[k] == WithRef(updated[k]);
      }
    }
  }

  lemma SyncedLoadsAsIs(parse: Parser, s: IndexState)
    requires Synced(parse, s)
    ensures Loaded(parse, s) == s
  {
    hide LoadInto, SavedFrom, Canonical;
    SyncedLoadsBack(parse, s);
    LoadedIsOver(parse, s);
    assert s.nameMap + s.nameMap == s.nameMap;
  }

  function Listed(file: IndexFile): nat {
    if file.Json? then |file.entries| else 0
  }

  ghost predicate OnlyMatch(nameMap: NameMap, matches: Descriptor -> bool, k: string) {
    k in nameMap && forall y | y in nameMap :: matches(nameMap[y]) <==> y == k
  }

  /** A rewrite that gives one entry a reference nobody has: the entry stays under its old key, the next
      load in the process stores it under the new one as well, and a save then lists it twice. */
  lemma RewrittenEntryIsDoubled(
    parse: Parser, s: IndexState, k: string, x: string, matches: Descriptor -> bool,
    apply: Annotations -> Annotations, end: int, s1: IndexState, s2: IndexState, s3: IndexState)
    requires Synced(parse, s) && OnlyMatch(s.nameMap, matches, k) && x !in s.nameMap
    requires LoadKey(parse, WithRef(Rewritten(s.nameMap[k], matches, apply)).annotations) == Key(x)
    requires Step(parse, s, Update(matches, apply, end, AllWritten), s1, true)
    requires Step(parse, s1, Load, s2, true) && Step(parse, s2, Save(end, AllWritten), s3, true)
    ensures var d := WithRef(Rewritten(s.nameMap[k], matches, apply));
            s1.nameMap == s.nameMap[k := d] && s2.nameMap == s1.nameMap[x := Normalized(d)]
    ensures Listed(s1.file) == |s.nameMap| && Listed(s3.file) == |s.nameMap| + 1
  {
    hide SavedFrom, LastFor, LoadInto, Step, WithRef, CanonicalEntry, LoadKey, Normalized;
    var d, op := WithRef(Rewritten(s.nameMap[k], matches, apply)), Update(matches, apply, end, AllWritten);
    StepShape(parse, s, op, s1, true);
    SyncedLoadsAsIs(parse, s);
    var updated := Updated(s.nameMap, matches, apply);
    OnlyOneRewritten(parse, s.nameMap, k, matches, apply);
    SavedMembers(s1.file.entries, updated);
    var loaded, doubled := LoadInto(parse, s1.nameMap, s1.file.entries), s1.nameMap[x := Normalized(d)];
    forall y ensures SameAt(loaded, doubled, y) {
      LoadKeepsTheLast(parse, s1.nameMap, s1.file.entries, y);
      DoubledAt(parse, s1.file.entries, s.nameMap, k, d, x, y);
    }
    SameEverywhere(loaded, doubled);
    StepShape(parse, s1, Load, s2, true);
    StepShape(parse, s2, Save(end, AllWritten), s3, true);
    SavedMembers(s3.file.entries, s2.nameMap);
    OneMoreKey(s.nameMap, k, d, x, Normalized(d));
    assert |updated| == |updated.Keys| == |s.nameMap.Keys| == |s.nameMap|;
  }

  lemma OnlyOneRewritten(
    parse: Parser, nameMap: NameMap, k: string, matches: Descriptor -> bool, apply: Annotations -> Annotations)
    requires Canonical(parse, nameMap) && OnlyMatch(nameMap, matches, k)
    ensures k in Matching(nameMap, matches) && Updated(nameMap, matches, apply).Keys == nameMap.Keys
    ensures WithRefs(Updated(nameMap, matches, apply)) ==
            nameMap[k := WithRef(Rewritten(nameMap[k], matches, apply))]
  {
    hide WithRef, CanonicalEntry;
    CanonicalWithRefs(parse, nameMap);
    forall y | y in nameMap && y != k ensures WithRef(Updated(nameMap, matches, apply)[y]) == nameMap[y] {
      assert WithRefs(nameMap)[y] == WithRef(nameMap[y]);
    }
  }

  lemma OneMoreKey(nameMap: NameMap, k: string, d: Descriptor, x: string, e: Descriptor)
    requires k in nameMap && x !in nameMap
    ensures |nameMap[k := d][x := e]| == |nameMap| + 1
  {
    var m := nameMap[k := d][x := e];
    assert m.Keys == nameMap.Keys + {x};
    assert |m| == |m.Keys| && |nameMap| == |nameMap.Keys|;
  }

  /** What the file says about a key once `d`, under the key `k`, is an entry for the key `x`. */
  lemma {:induction false} DoubledAt(
    parse: Parser, entries: seq<Descriptor>, nameMap: NameMap, k: string, d: Descriptor, x: string, y: string)
    requires Canonical(parse, nameMap) && k in nameMap && x !in nameMap && LoadKey(parse, d.annotations) == Key(x)
    requires forall e :: e in entries <==> IsEntry(e, nameMap[k := d])
    ensures LastFor(parse, entries, y) == At((nameMap - {k})[x := Normalized(d)], y)
  {
    hide LastFor, LoadKey, Normalized;
    LastForIsAnEntry(parse, entries, y);
    var m := nameMap[k := d];
    assert IsEntry(m[k], m);
    if y in m {
      assert IsEntry(m[y], m);
    }
    forall e | e in entries && LoadKey(parse, e.annotations) == Key(y)
      ensures if y == x then e == d else y in nameMap && y != k && e == nameMap[y] && Normalized(e) == e
    {
      var z :| z in m && m[z] == e;
      assert z != k ==> CanonicalEntry(parse, z, nameMap[z]);
    }
    if y in nameMap {
      assert CanonicalEntry(parse, y, nameMap[y]);
    }
  }
}
