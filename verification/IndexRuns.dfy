/** The index over whole runs of concurrent callers: what reaches the file, what a failed save leaves
    behind, and what becomes of a removal. Everything is said of one key, so that the callers may do
    with the other keys what they like. */
module IndexRuns {
  import opened Content
  import opened Index
  import opened IndexStore

  datatype Event = Event(op: Op, ok: bool)

  ghost predicate Run(parse: Parser, states: seq<IndexState>, events: seq<Event>) {
    && |states| == |events| + 1
    && forall i: nat {:trigger StepAt(parse, states, events, i)} | i < |events| :: StepAt(parse, states, events, i)
  }

  ghost predicate StepAt(parse: Parser, states: seq<IndexState>, events: seq<Event>, i: nat)
    requires |states| == |events| + 1 && i < |events|
  {
    Step(parse, states[i], events[i].op, states[i + 1], events[i].ok)
  }

  ghost predicate MindsAt(parse: Parser, states: seq<IndexState>, events: seq<Event>, i: nat, k: string)
    requires |states| == |events| + 1 && i < |events|
  {
    MindsKey(parse, states[i], events[i].op, k)
  }

  /** A run from a store that is tidy at `k`, in which no operation puts a second entry for `k` under
      another key. Saves may fail. */
  ghost predicate KeyRun(parse: Parser, states: seq<IndexState>, events: seq<Event>, k: string) {
    && Run(parse, states, events) && Tidy(parse, states[0], k)
    && forall i: nat | i < |events| :: MindsAt(parse, states, events, i, k)
  }

  /** Memory and file say the same about `k`. */
  ghost predicate AgreeAt(parse: Parser, s: IndexState, k: string) {
    InFile(parse, s.file, k) == At(s.nameMap, k)
  }

  /** The same with no save that fails before its rename, from a store whose file agrees with it on `k`. */
  ghost predicate CleanRun(parse: Parser, states: seq<IndexState>, events: seq<Event>, k: string) {
    && KeyRun(parse, states, events, k) && AgreeAt(parse, states[0], k)
    && forall e | e in events :: !IoOf(e.op).NoRename?
  }

  /** One event in terms of what memory and file have under `k`. */
  ghost predicate KeyStep(parse: Parser, s: IndexState, op: Op, s': IndexState, k: string) {
    && At(Base(parse, s, op), k) == BaseAt(parse, s, op, k)
    && At(s'.nameMap, k) == At(Put(parse, Base(parse, s, op), op), k)
    && InFile(parse, s'.file, k) == if Renames(parse, s, op) then At(s'.nameMap, k) else InFile(parse, s.file, k)
  }

  lemma {:induction false} RunIsTidy(
    parse: Parser, states: seq<IndexState>, events: seq<Event>, n: nat, k: string)
    requires KeyRun(parse, states, events, k) && n <= |events|
    ensures Tidy(parse, states[n], k)
  {
    if n > 0 {
      hide Tidy, Step, MindsKey, Put, Base, BaseAt, Renames, InFile;
      RunIsTidy(parse, states, events, n - 1, k);
      assert StepAt(parse, states, events, n - 1) && MindsAt(parse, states, events, n - 1, k);
      StepAtKey(parse, states[n - 1], events[n - 1].op, states[n], events[n - 1].ok, k);
    }
  }

  lemma RunKeyStep(parse: Parser, states: seq<IndexState>, events: seq<Event>, n: nat, k: string)
    requires KeyRun(parse, states, events, k) && n < |events|
    ensures KeyStep(parse, states[n], events[n].op, states[n + 1], k)
  {
    hide Tidy, Step, MindsKey, Put, Base, BaseAt, Renames, InFile;
    RunIsTidy(parse, states, events, n, k);
    assert StepAt(parse, states, events, n) && MindsAt(parse, states, events, n, k);
    StepAtKey(parse, states[n], events[n].op, states[n + 1], events[n].ok, k);
  }

  /** The operation may change what is stored under `k`, other than by loading the file. An add of what
      is stored already does not, as its write is skipped. */
  ghost predicate Touches(parse: Parser, s: IndexState, op: Op, k: string) {
    match op
    case Add(desc, _, _, _) => AddKey(parse, desc.annotations) == Key(k) && !Same(s.nameMap, k, desc)
    case Remove(key) => key == k
    case Update(matches, _, _, _) => k in Base(parse, s, op) && matches(Base(parse, s, op)[k])
    case _ => Written(parse, op).Some? && Written(parse, op).value.0 == k
  }

  ghost predicate TouchedAt(parse: Parser, states: seq<IndexState>, events: seq<Event>, i: nat, k: string)
    requires |states| == |events| + 1 && i < |events|
  {
    Touches(parse, states[i], events[i].op, k)
  }

  lemma PutUntouched(parse: Parser, s: IndexState, op: Op, k: string)
    requires !Touches(parse, s, op, k)
    ensures At(Put(parse, Base(parse, s, op), op), k) == At(Base(parse, s, op), k)
  {
    hide AddKey;
    if op.Add? {
      assert Base(parse, s, op) == s.nameMap;
      assert Written(parse, op).Some? ==> Written(parse, op).value.1 == op.desc;
    }
  }

  // ---------------------------------------------------------------------------
  // When no save fails

  ghost predicate RemovedBefore(events: seq<Event>, n: nat, k: string)
    requires n <= |events|
  {
    exists i: nat :: i < n && events[i].op == Remove(k)
  }

  lemma CleanStep(parse: Parser, s: IndexState, op: Op, s': IndexState, k: string)
    requires KeyStep(parse, s, op, s', k) && !IoOf(op).NoRename?
    requires AgreeAt(parse, s, k) || At(s.nameMap, k).None?
    ensures AgreeAt(parse, s', k) || (At(s'.nameMap, k).None? && (op == Remove(k) || !AgreeAt(parse, s, k)))
    ensures Loads(op) || Saves(parse, s, op) ==> AgreeAt(parse, s', k)
  {
    hide InFile, Base;
    match op
    case Add(desc, _, _, _) =>
    case Update(matches, apply, _, _) =>
      if Matching(Base(parse, s, op), matches) == {} {
        NothingRewritten(Base(parse, s, op), matches, apply);
      }
    case _ =>
  }

  /** When no save fails, memory and file say the same about the key after every event, unless a removal
      of that key has not been saved yet; and after every event that loads or saves they do in any case. */
  lemma {:induction false} FileAgreesOnTheKey(
    parse: Parser, states: seq<IndexState>, events: seq<Event>, n: nat, k: string)
    requires CleanRun(parse, states, events, k) && n <= |events|
    ensures AgreeAt(parse, states[n], k) || (At(states[n].nameMap, k).None? && RemovedBefore(events, n, k))
    ensures n > 0 && (Loads(events[n - 1].op) || Saves(parse, states[n - 1], events[n - 1].op)) ==>
              AgreeAt(parse, states[n], k)
  {
    hide AgreeAt, Step, MindsKey, Saves, KeyStep, Tidy;
    if n > 0 {
      FileAgreesOnTheKey(parse, states, events, n - 1, k);
      RunKeyStep(parse, states, events, n - 1, k);
      assert events[n - 1] in events;
      CleanStep(parse, states[n - 1], events[n - 1].op, states[n], k);
      assert RemovedBefore(events, n - 1, k) ==> RemovedBefore(events, n, k);
      assert events[n - 1].op == Remove(k) ==> RemovedBefore(events, n, k);
    }
  }

  /** So, from a synchronized store and where all operations write entries that are read back under their
      own keys, `index.json` holds exactly the name map after every critical section that loads or saves. */
  lemma FileIsTheNameMap(parse: Parser, states: seq<IndexState>, events: seq<Event>, n: nat)
    requires Run(parse, states, events) && Synced(parse, states[0]) && forall e | e in events :: !IoOf(e.op).NoRename?
    requires forall i: nat, k | i < |events| :: MindsAt(parse, states, events, i, k)
    requires 0 < n <= |events| && (Loads(events[n - 1].op) || Saves(parse, states[n - 1], events[n - 1].op))
    ensures OnDisk(parse, states[n].file) == states[n].nameMap
  {
    hide Saves, OnDisk, InFile, Step, Synced, Tidy, MindsAt;
    forall k ensures SameAt(OnDisk(parse, states[n].file), states[n].nameMap, k) {
      SyncedAtKey(parse, states[0], k);
      FileAgreesOnTheKey(parse, states, events, n, k);
      OnDiskAt(parse, states[n].file, k);
    }
    SameEverywhere(OnDisk(parse, states[n].file), states[n].nameMap);
  }

  /** However concurrent callers interleave, an entry written under a key that nobody touches again is in
      the name map and in `index.json` from then on; skipping an equal write loses nothing. */
  lemma {:induction false} EveryWriteReachesTheFile(
    parse: Parser, states: seq<IndexState>, events: seq<Event>, i: nat, n: nat, k: string, d: Descriptor)
    requires CleanRun(parse, states, events, k)
    requires i < n <= |events| && Written(parse, events[i].op) == Some((k, d))
    requires forall j: nat | i < j < n :: !TouchedAt(parse, states, events, j, k)
    ensures At(states[n].nameMap, k) == Some(d) && InFile(parse, states[n].file, k) == Some(d)
  {
    hide Step, MindsKey, Base, InFile, Touches, Written, Tidy;
    RunKeyStep(parse, states, events, n - 1, k);
    FileAgreesOnTheKey(parse, states, events, n, k);
    if i < n - 1 {
      EveryWriteReachesTheFile(parse, states, events, i, n - 1, k, d);
      assert !TouchedAt(parse, states, events, n - 1, k);
      PutUntouched(parse, states[n - 1], events[n - 1].op, k);
    } else {
      WrittenIsPut(parse, Base(parse, states[i], events[i].op), events[i].op);
    }
  }

  lemma WrittenIsPut(parse: Parser, base: NameMap, op: Op)
    ensures match Written(parse, op)
            case Some(w) => At(Put(parse, base, op), w.0) == Some(w.1)
            case None => true
  {
  }

  // ---------------------------------------------------------------------------
  // When saves fail

  ghost predicate RenamesAt(parse: Parser, states: seq<IndexState>, events: seq<Event>, i: nat)
    requires |states| == |events| + 1 && i < |events|
  {
    Renames(parse, states[i], events[i].op)
  }

  /** Event `i` settles a difference between memory and file: it reads the file's entry, if there is one,
      or it replaces the file. */
  ghost predicate Settles(parse: Parser, states: seq<IndexState>, events: seq<Event>, i: nat, stale: bool)
    requires |states| == |events| + 1 && i < |events|
  {
    (stale && Loads(events[i].op)) || RenamesAt(parse, states, events, i)
  }

  lemma UntouchedStep(parse: Parser, s: IndexState, op: Op, s': IndexState, k: string)
    requires KeyStep(parse, s, op, s', k) && !Touches(parse, s, op, k)
    ensures At(s'.nameMap, k) ==
            if Loads(op) && InFile(parse, s.file, k).Some? then InFile(parse, s.file, k) else At(s.nameMap, k)
    ensures InFile(parse, s'.file, k) == if Renames(parse, s, op) then At(s'.nameMap, k) else InFile(parse, s.file, k)
  {
    hide InFile, Renames, Base, Touches;
    PutUntouched(parse, s, op, k);
  }

  /** Whatever memory and file say about a key nobody touches, they go on saying it until the first event
      that reads the file's entry or replaces the file. From then on both say what the file said in the
      first case, and what memory said in the second. */
  lemma {:induction false} TheFirstToSettleDecides(
    parse: Parser, states: seq<IndexState>, events: seq<Event>, n: nat, k: string) returns (j: nat)
    requires KeyRun(parse, states, events, k) && n <= |events|
    requires forall i: nat | i < n :: !TouchedAt(parse, states, events, i, k)
    ensures j <= n
    ensures var mem, disk := At(states[0].nameMap, k), InFile(parse, states[0].file, k);
            && (forall i: nat | i < j :: !Settles(parse, states, events, i, disk.Some?))
            && (j < n ==> Settles(parse, states, events, j, disk.Some?))
            && (var winner := if j < n && disk.Some? && Loads(events[j].op) then disk else mem;
                && At(states[n].nameMap, k) == winner
                && InFile(parse, states[n].file, k) == if j < n then winner else disk)
  {
    hide InFile, Touches, Renames, Step, MindsKey, Tidy;
    if n == 0 {
      return 0;
    }
    j := TheFirstToSettleDecides(parse, states, events, n - 1, k);
    assert !TouchedAt(parse, states, events, n - 1, k);
    RunKeyStep(parse, states, events, n - 1, k);
    UntouchedStep(parse, states[n - 1], events[n - 1].op, states[n], k);
    if j == n - 1 && !Settles(parse, states, events, n - 1, InFile(parse, states[0].file, k).Some?) {
      j := n;
    }
  }

  /** Event `j` replaces the file, and up to it nothing has loaded the old one, if that matters. */
  ghost predicate SavesFirst(parse: Parser, states: seq<IndexState>, events: seq<Event>, j: nat, stale: bool)
    requires |states| == |events| + 1 && j < |events|
  {
    && RenamesAt(parse, states, events, j)
    && (stale ==> forall i: nat | i <= j :: !Loads(events[i].op))
  }

  /** Event `j` loads the file, and no event before it has replaced it. */
  ghost predicate ReloadsFirst(parse: Parser, states: seq<IndexState>, events: seq<Event>, j: nat)
    requires |states| == |events| + 1 && j < |events|
  {
    && Loads(events[j].op)
    && forall i: nat | i < j :: !RenamesAt(parse, states, events, i)
  }

  lemma SettledBySaveExactlyWhen(
    parse: Parser, states: seq<IndexState>, events: seq<Event>, n: nat, stale: bool, j: nat)
    requires |states| == |events| + 1 && j <= n <= |events|
    requires forall i: nat | i < j :: !Settles(parse, states, events, i, stale)
    requires j < n ==> Settles(parse, states, events, j, stale)
    ensures (exists i: nat :: i < n && SavesFirst(parse, states, events, i, stale)) <==>
            j < n && !(stale && Loads(events[j].op))
    ensures stale ==>
              ((exists i: nat :: i < n && ReloadsFirst(parse, states, events, i)) <==> j < n && Loads(events[j].op))
  {
    hide RenamesAt;
    if j < n && !(stale && Loads(events[j].op)) {
      forall i: nat | i < j ensures stale ==> !Loads(events[i].op) {
        assert !Settles(parse, states, events, i, stale);
      }
      assert SavesFirst(parse, states, events, j, stale);
    }
    if j < n && stale && Loads(events[j].op) {
      forall i: nat | i < j ensures !RenamesAt(parse, states, events, i) {
        assert !Settles(parse, states, events, i, stale);
      }
      assert ReloadsFirst(parse, states, events, j);
    }
    forall i: nat | i < j ensures !SavesFirst(parse, states, events, i, stale)
                          ensures stale ==> !ReloadsFirst(parse, states, events, i) {
      assert !Settles(parse, states, events, i, stale);
    }
  }

  /** An entry that is in memory only, after a save that failed, gets into the file exactly when a later
      save of anybody reaches its rename; if the file has an older entry under the same key, that save
      has to come before anybody loads the file. */
  lemma UnsavedEntryIsSavedExactlyWhen(
    parse: Parser, states: seq<IndexState>, events: seq<Event>, n: nat, k: string, d: Descriptor)
    requires KeyRun(parse, states, events, k) && n <= |events|
    requires At(states[0].nameMap, k) == Some(d) && InFile(parse, states[0].file, k) != Some(d)
    requires forall i: nat | i < n :: !TouchedAt(parse, states, events, i, k)
    ensures InFile(parse, states[n].file, k) == Some(d) <==>
            exists j: nat :: j < n && SavesFirst(parse, states, events, j, InFile(parse, states[0].file, k).Some?)
  {
    hide InFile, Settles, SavesFirst, ReloadsFirst, Step, Tidy, MindsKey;
    var first := TheFirstToSettleDecides(parse, states, events, n, k);
    SettledBySaveExactlyWhen(parse, states, events, n, InFile(parse, states[0].file, k).Some?, first);
  }

  /** Between a removal from memory and the save that follows it, other callers may run, and their saves
      may fail. The removal survives them exactly when the file has no such entry, or none of them loads
      the file before one of them has replaced it; and it is in the file exactly when one of them has
      replaced the file first. */
  lemma RemovalSurvivesExactlyWhen(
    parse: Parser, states: seq<IndexState>, events: seq<Event>, n: nat, k: string)
    requires KeyRun(parse, states, events, k) && n <= |events| && k !in states[0].nameMap
    requires forall i: nat | i < n :: !TouchedAt(parse, states, events, i, k)
    ensures k !in states[n].nameMap <==>
            (InFile(parse, states[0].file, k).Some? ==>
               !exists j: nat :: j < n && ReloadsFirst(parse, states, events, j))
    ensures InFile(parse, states[n].file, k).None? <==>
            (InFile(parse, states[0].file, k).Some? ==>
               exists j: nat :: j < n && SavesFirst(parse, states, events, j, true))
  {
    hide InFile, Settles, SavesFirst, ReloadsFirst, Step, Tidy, MindsKey;
    var first := TheFirstToSettleDecides(parse, states, events, n, k);
    SettledBySaveExactlyWhen(parse, states, events, n, InFile(parse, states[0].file, k).Some?, first);
  }
}
