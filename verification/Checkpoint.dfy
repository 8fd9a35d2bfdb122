/** Which saves are fsynced, how far apart, and what a power loss can take away. */
module Checkpoint {
  import opened Content
  import opened Index
  import opened IndexStore
  import opened IndexRuns

  /** Saves that are fsynced only when a checkpoint is due; all others always are. */
  predicate IsCheckpointed(op: Op) {
    op.Add? || op.PushRoot?
  }

  /** An operation reads the clock between `from` and `to`, a save twice and in this order. */
  predicate ReadsClock(op: Op, from: int, to: int) {
    match op
    case Add(_, start, end, _) => from <= start <= end <= to
    case PushRoot(_, _, start, end, _) => from <= start <= end <= to
    case Save(end, _) => from <= end <= to
    case Update(_, _, end, _) => from <= end <= to
    case _ => from <= to
  }

  /** Any run under a clock that never goes back; `clock[i]` is a time between events `i - 1` and `i`. */
  ghost predicate TimedRun(parse: Parser, states: seq<IndexState>, events: seq<Event>, clock: seq<int>) {
    && Run(parse, states, events) && |clock| == |states|
    && forall i: nat | i < |events| :: ReadsClockAt(events, clock, i)
  }

  ghost predicate ReadsClockAt(events: seq<Event>, clock: seq<int>, i: nat)
    requires i < |events| && |clock| == |events| + 1
  {
    ReadsClock(events[i].op, clock[i], clock[i + 1])
  }

  lemma TimedStep(parse: Parser, states: seq<IndexState>, events: seq<Event>, clock: seq<int>, n: nat)
    requires TimedRun(parse, states, events, clock) && n < |events|
    ensures Step(parse, states[n], events[n].op, states[n + 1], events[n].ok)
    ensures ReadsClock(events[n].op, clock[n], clock[n + 1]) && clock[n] <= clock[n + 1]
  {
    assert StepAt(parse, states, events, n) && ReadsClockAt(events, clock, n);
  }

  lemma {:induction false} ClockForward(
    parse: Parser, states: seq<IndexState>, events: seq<Event>, clock: seq<int>, i: nat, j: nat)
    requires TimedRun(parse, states, events, clock) && i <= j <= |events|
    ensures clock[i] <= clock[j]
  {
    hide Step;
    if i < j {
      ClockForward(parse, states, events, clock, i, j - 1);
      TimedStep(parse, states, events, clock, j - 1);
    }
  }

  /** The mark of the last durable save moved: a durable save went through, directory sync included. */
  predicate MarkMoved(s: IndexState, s': IndexState) {
    s'.lastDurable != s.lastDurable
  }

  /** A durable save leaves its time as the mark; a checkpointed one was due by the mark before. */
  lemma MarkMoves(parse: Parser, s: IndexState, op: Op, s': IndexState, ok: bool, from: int, to: int)
    requires Step(parse, s, op, s', ok) && ReadsClock(op, from, to) && MarkMoved(s, s')
    ensures s'.lastDurable.Some? && from <= s'.lastDurable.value <= to && s'.durable == s'.file && ok
    ensures IsCheckpointed(op) && s.lastDurable.Some? ==>
              s'.lastDurable.value - s.lastDurable.value >= CHECKPOINT_INTERVAL
  {
  }

  // ---------------------------------------------------------------------------
  // How often

  /** The times of the durable saves among the first `n` events that a due checkpoint asked for. */
  function CheckpointEnds(states: seq<IndexState>, events: seq<Event>, n: nat): seq<int>
    requires n <= |events| && |states| == |events| + 1
  {
    if n == 0 then []
    else
      CheckpointEnds(states, events, n - 1) +
      (if IsCheckpointed(events[n - 1].op) && MarkMoved(states[n - 1], states[n]) && states[n].lastDurable.Some?
       then [states[n].lastDurable.value] else [])
  }

  ghost predicate Spaced(ends: seq<int>) {
    forall i | 0 < i < |ends| :: ends[i] - ends[i - 1] >= CHECKPOINT_INTERVAL
  }

  /** Durable saves that checkpoints ask for end at least 30 seconds apart, whatever else saves, loads,
      removes or rewrites in between, and whatever fails. */
  lemma {:induction false} DurableSavesAreSpaced(
    parse: Parser, states: seq<IndexState>, events: seq<Event>, clock: seq<int>, n: nat)
    requires TimedRun(parse, states, events, clock) && n <= |events|
    ensures var ends := CheckpointEnds(states, events, n);
            && Spaced(ends) && (forall i | 0 < i < |ends| :: ends[i] - ends[i - 1] >= 30_000_000_000)
            && (ends != [] ==>
                  states[n].lastDurable.Some? && ends[|ends| - 1] <= states[n].lastDurable.value
                  && ends[|ends| - 1] <= clock[n])
  {
    hide Step, ReadsClock, Spaced, IsCheckpointed;
    if n == 0 {
      NothingIsSpaced();
    } else {
      DurableSavesAreSpaced(parse, states, events, clock, n - 1);
      TimedStep(parse, states, events, clock, n - 1);
      var ends := CheckpointEnds(states, events, n - 1);
      assert ends + [] == ends;
      if MarkMoved(states[n - 1], states[n]) {
        MarkMoves(parse, states[n - 1], events[n - 1].op, states[n], events[n - 1].ok, clock[n - 1], clock[n]);
        if IsCheckpointed(events[n - 1].op) {
          SpacedMore(ends, states[n].lastDurable.value);
        }
      }
    }
  }

  lemma NothingIsSpaced()
    ensures Spaced([])
  {
  }

  lemma SpacedMore(ends: seq<int>, e: int)
    requires Spaced(ends) && (ends != [] ==> e - ends[|ends| - 1] >= CHECKPOINT_INTERVAL)
    ensures Spaced(ends + [e])
  {
  }

  lemma {:induction false} SpacedApart(ends: seq<int>, i: nat, j: nat)
    requires Spaced(ends) && i <= j < |ends|
    ensures ends[j] - ends[i] >= (j - i) * CHECKPOINT_INTERVAL
  {
    if i < j {
      SpacedApart(ends, i, j - 1);
    }
  }

  /** So a window of length `window` holds at most one more of them than the intervals that fit into it. */
  lemma {:induction false} FewCheckpointsInAnyWindow(
    parse: Parser, states: seq<IndexState>, events: seq<Event>, clock: seq<int>, n: nat, i: nat, j: nat, window: nat)
    requires TimedRun(parse, states, events, clock) && n <= |events|
    requires i <= j < |CheckpointEnds(states, events, n)|
    requires CheckpointEnds(states, events, n)[j] - CheckpointEnds(states, events, n)[i] <= window
    ensures j - i + 1 <= window / 30_000_000_000 + 1
  {
    hide CheckpointEnds, Step, ReadsClock;
    DurableSavesAreSpaced(parse, states, events, clock, n);
    SpacedApart(CheckpointEnds(states, events, n), i, j);
  }

  // ---------------------------------------------------------------------------
  // How old

  /** The durable file is the file of state `m`, and no durable save has happened since. */
  ghost predicate DurableSince(states: seq<IndexState>, m: nat, n: nat) {
    && m <= n < |states|
    && states[n].durable == states[m].file
    && states[n].lastDurable == states[m].lastDurable
  }

  /** A save wrote the file of `s` durably, and complete. */
  ghost predicate WrittenWhole(s: IndexState) {
    && s.file.Json? && s.durable == s.file && s.lastDurable.Some?
    && exists nameMap :: SavedFrom(s.file.entries, nameMap) && s.nameMap == WithRefs(nameMap)
  }

  predicate SameMark(s: IndexState, s': IndexState) {
    s'.durable == s.durable && s'.lastDurable == s.lastDurable
  }

  lemma SaveMarks(s: IndexState, s': IndexState, durable: bool, io: SaveIo, end: int)
    requires SaveStep(s, s', durable, io, end)
    ensures if durable && io.AllWritten? then WrittenWhole(s') && s'.lastDurable == Some(end) else SameMark(s, s')
  {
  }

  lemma StepDurable(parse: Parser, s: IndexState, op: Op, s': IndexState, ok: bool)
    requires Step(parse, s, op, s', ok)
    ensures SameMark(s, s') || WrittenWhole(s')
  {
    hide SaveStep, Updated, LoadInto, WrittenWhole, AddKey;
    var l := Loaded(parse, s);
    match op
    case Add(desc, start, end, io) =>
      var key := AddKey(parse, desc.annotations);
      if key.Key? && !Same(s.nameMap, key.key, desc) {
        SaveMarks(s.(nameMap := s.nameMap[key.key := desc]), s', Due(s.lastDurable, start), io, end);
      }
    case PushRoot(ref, desc, start, end, io) =>
      if !s.file.Corrupt? {
        var t := l.(nameMap := l.nameMap[RootKey(ref, desc) := Normalized(desc)]);
        SaveMarks(t, s', Due(s.lastDurable, start), io, end);
      }
    case Save(end, io) => SaveMarks(s, s', true, io, end);
    case Update(matches, apply, end, io) =>
      if !s.file.Corrupt? && Matching(l.nameMap, matches) != {} {
        SaveMarks(l.(nameMap := Updated(l.nameMap, matches, apply)), s', true, io, end);
      }
    case _ =>
  }

  /** A checkpointed save is durable if one is due and everything works, and leaves the mark otherwise. */
  lemma CheckpointedSave(parse: Parser, s: IndexState, op: Op, s': IndexState, ok: bool)
    requires Step(parse, s, op, s', ok) && IsCheckpointed(op) && Saves(parse, s, op)
    ensures if Due(s.lastDurable, op.start) && IoOf(op).AllWritten? && (op.PushRoot? ==> !s.file.Corrupt?)
            then WrittenWhole(s') && s'.lastDurable == Some(op.end) else SameMark(s, s')
    ensures ok && Due(s.lastDurable, op.start) ==> IoOf(op).AllWritten? && (op.PushRoot? ==> !s.file.Corrupt?)
  {
    hide SaveStep, LoadInto, WrittenWhole, AddKey;
    var l := Loaded(parse, s);
    match op
    case Add(desc, start, end, io) =>
      var key := AddKey(parse, desc.annotations);
      SaveMarks(s.(nameMap := s.nameMap[key.key := desc]), s', Due(s.lastDurable, start), io, end);
    case PushRoot(ref, desc, start, end, io) =>
      if !s.file.Corrupt? {
        var t := l.(nameMap := l.nameMap[RootKey(ref, desc) := Normalized(desc)]);
        SaveMarks(t, s', Due(s.lastDurable, start), io, end);
      }
  }

  /** Whatever saves failed or were not fsynced, the durable file is one that a single save wrote whole. */
  lemma {:induction false} DurableFileIsAnEarlierFile(
    parse: Parser, states: seq<IndexState>, events: seq<Event>, n: nat) returns (m: nat)
    requires Run(parse, states, events) && n <= |events| && states[0].durable == states[0].file
    ensures DurableSince(states, m, n) && (m == 0 || WrittenWhole(states[m]))
  {
    hide Step, WrittenWhole;
    if n == 0 {
      return 0;
    }
    m := DurableFileIsAnEarlierFile(parse, states, events, n - 1);
    assert StepAt(parse, states, events, n - 1);
    StepDurable(parse, states[n - 1], events[n - 1].op, states[n], events[n - 1].ok);
    if !SameMark(states[n - 1], states[n]) {
      WholeIsDurable(states[n]);
      m := n;
    }
  }

  /** At every point of a run, a checkpointed save that reports success is durable, or the file a power
      loss would bring back was written whole by one durable save that was over less than an interval
      before this one started. */
  lemma UnsyncedSavesAreRecent(parse: Parser, states: seq<IndexState>, events: seq<Event>, i: nat) returns (m: nat)
    requires Run(parse, states, events) && states[0].durable == states[0].file && states[0].lastDurable.None?
    requires i < |events| && events[i].ok && IsCheckpointed(events[i].op) && Saves(parse, states[i], events[i].op)
    ensures DurableSince(states, m, i + 1) && WrittenWhole(states[m])
    ensures m == i + 1 || events[i].op.start - states[m].lastDurable.value < 30_000_000_000
  {
    hide Step, WrittenWhole, Saves;
    assert StepAt(parse, states, events, i);
    CheckpointedSave(parse, states[i], events[i].op, states[i + 1], true);
    if Due(states[i].lastDurable, events[i].op.start) {
      WholeIsDurable(states[i + 1]);
      m := i + 1;
    } else {
      m := DurableFileIsAnEarlierFile(parse, states, events, i + 1);
    }
  }

  lemma WholeIsDurable(s: IndexState)
    requires WrittenWhole(s)
    ensures s.durable == s.file
  {
  }

  lemma FailedSaveKeepsTheMark(parse: Parser, s: IndexState, op: Op, s': IndexState)
    requires Step(parse, s, op, s', false)
    ensures s'.lastDurable == s.lastDurable && s'.durable == s.durable
  {
  }

  /** No durable save went through from event `i` up to event `j`. */
  ghost predicate NoneDurable(states: seq<IndexState>, i: nat, j: nat)
    requires i <= j < |states|
  {
    forall k | i <= k < j :: !MarkMoved(states[k], states[k + 1])
  }

  lemma {:induction false} MarkStays(states: seq<IndexState>, i: nat, j: nat)
    requires i <= j < |states| && NoneDurable(states, i, j)
    ensures states[j].lastDurable == states[i].lastDurable
  {
    if i < j {
      MarkStays(states, i, j - 1);
      assert !MarkMoved(states[j - 1], states[j]);
    }
  }

  /** After a due save that failed, in the write or in the fsync, every checkpointed save stays due until
      a durable save goes through, so the first one that reports success is durable. */
  lemma FailedCheckpointStaysDue(
    parse: Parser, states: seq<IndexState>, events: seq<Event>, clock: seq<int>, i: nat, j: nat)
    requires TimedRun(parse, states, events, clock) && i < j < |events|
    requires !events[i].ok && IsCheckpointed(events[i].op) && Due(states[i].lastDurable, events[i].op.start)
    requires IsCheckpointed(events[j].op) && NoneDurable(states, i + 1, j)
    ensures Due(states[j].lastDurable, events[j].op.start)
    ensures events[j].ok && Saves(parse, states[j], events[j].op) ==>
              states[j + 1].durable == states[j + 1].file && states[j + 1].lastDurable == Some(events[j].op.end)
  {
    hide Step, Saves, WrittenWhole;
    TimedStep(parse, states, events, clock, i);
    TimedStep(parse, states, events, clock, j);
    FailedSaveKeepsTheMark(parse, states[i], events[i].op, states[i + 1]);
    MarkStays(states, i + 1, j);
    ClockForward(parse, states, events, clock, i + 1, j);
    if events[j].ok && Saves(parse, states[j], events[j].op) {
      CheckpointedSave(parse, states[j], events[j].op, states[j + 1], true);
      WholeIsDurable(states[j + 1]);
    }
  }

  // ---------------------------------------------------------------------------
  // Power loss

  /** What a fresh process finds after a power loss put the last durable file back. */
  function Recovered(parse: Parser, s: IndexState): NameMap {
    OnDisk(parse, s.durable)
  }

  /** A power loss at any point, of any run, takes the store back to the one complete file that the last
      durable save wrote, whatever has failed, been removed or been rewritten before and since. A fresh
      process finds the name map of that moment exactly when it was canonical then. */
  lemma PowerLossRestoresAnEarlierMap(
    parse: Parser, states: seq<IndexState>, events: seq<Event>, n: nat) returns (m: nat)
    requires Run(parse, states, events) && n <= |events| && states[0].durable == states[0].file
    ensures DurableSince(states, m, n) && Recovered(parse, states[n]) == OnDisk(parse, states[m].file)
    ensures m > 0 ==>
              && WrittenWhole(states[m])
              && (Recovered(parse, states[n]) == states[m].nameMap <==> Canonical(parse, states[m].nameMap))
  {
    hide Step, Canonical, WrittenWhole, LoadInto;
    m := DurableFileIsAnEarlierFile(parse, states, events, n);
    if m > 0 {
      WholeSaveReadsBackExactlyWhen(parse, states[m]);
    }
  }

  lemma WholeSaveReadsBackExactlyWhen(parse: Parser, s: IndexState)
    requires WrittenWhole(s)
    ensures OnDisk(parse, s.file) == s.nameMap <==> Canonical(parse, s.nameMap)
  {
    hide LoadInto, Canonical, SavedFrom, WithRefs;
    var nameMap :| SavedFrom(s.file.entries, nameMap) && s.nameMap == WithRefs(nameMap);
    RoundTripExactlyWhen(parse, s.file.entries, nameMap);
  }

  /** On a run without failing saves, every entry written by then, and not touched between, is in it. */
  lemma PowerLossKeepsWhatWasWritten(
    parse: Parser, states: seq<IndexState>, events: seq<Event>, n: nat, m: nat, i: nat, k: string, d: Descriptor)
    requires CleanRun(parse, states, events, k) && m <= n <= |events| && DurableSince(states, m, n)
    requires i < m && Written(parse, events[i].op) == Some((k, d))
    requires forall j: nat | i < j < m :: !TouchedAt(parse, states, events, j, k)
    ensures At(Recovered(parse, states[n]), k) == Some(d)
  {
    hide Step, InFile, Tidy, LoadInto, Touches, Written;
    EveryWriteReachesTheFile(parse, states, events, i, m, k, d);
    OnDiskAt(parse, states[m].file, k);
  }
}
