/** The blob write protocol over whole runs: every interleaving from a fresh process. */
module BlobRuns {
  import opened Content
  import opened BlobWriter
  import opened BlobProtocol

  ghost predicate Inv(cfg: Config, s: State) {
    && PermitsOk(cfg, s) && InsideOk(s) && PeakOk(s) && s.highest <= cfg.ceiling
    && FlightsOk(s) && TempsOk(s) && BytesOk(cfg, s) && CancelsOk(s)
  }

  lemma MoveKeeps(cfg: Config, s: State, c: Call, choice: Choice, s': State)
    requires Inv(cfg, s) && Apply(cfg, s, Move(c, choice)) == Some(s')
    ensures Inv(cfg, s') && Lands(cfg.codec, s.files, s'.files) && s.peak <= s'.peak
    ensures exists pc, e :: Steps(cfg, s, c, pc, e) && s' == Perform(s, c, pc, e)
  {
    var next := NextOf(cfg, s, c, s.procs[c], choice);
    var pc, e := next.pc, next.effect;
    assert Steps(cfg, s, c, pc, e) && s' == Perform(s, c, pc, e);
    hide Steps, Perform, NextOf, PermitsOk, InsideOk, PeakOk, FlightsOk, TempsOk, BytesOk, CancelsOk;
    ProcsPerformed(s, c, pc, e);
    RestPerformed(s, c, pc, e);
    PermitsMove(cfg, s, c, pc, e, s');
    InsideMove(cfg, s, c, pc, e, s');
    PeakMove(cfg, s, c, pc, e, s');
    InFlightWithinCeiling(cfg, s');
    FlightsMove(cfg, s, c, pc, e, s');
    TempsMove(cfg, s, c, pc, e, s');
    BytesMove(cfg, s, c, pc, e, s');
    CancelsMove(cfg, s, c, pc, e, s');
    assert s.highest <= cfg.ceiling && s'.inFlight <= cfg.ceiling;
    HighestGrows(s, e, s');
  }

  lemma HighestGrows(s: State, e: Effect, s': State)
    requires PeakAfter(s, e, s')
    ensures s'.highest == s.highest || s'.highest == s'.inFlight
  {
  }

  lemma CancelsMove(cfg: Config, s: State, c: Call, pc: Pc, e: Effect, s': State)
    requires FlightsOk(s) && CancelsOk(s) && Steps(cfg, s, c, pc, e)
    requires PcsAfter(s, c, pc, e, s') && CallsAfter(s, c, e, s')
    ensures CancelsOk(s')
  {
    hide Steps, FlightsOk, CancelOk;
    forall x | x in s'.procs ensures CancelOk(s', x) {
      if x == c {
        CancelMoveOwn(cfg, s, c, pc, e, s');
      } else {
        CancelMoveOther(cfg, s, c, pc, e, s', x);
      }
    }
  }

  /** Beginning a call, or ending a context, changes no call that is already there. */
  ghost predicate Undisturbed(s: State, s': State) {
    && s' == s.(procs := s'.procs, contexts := s'.contexts)
    && (forall x | x in s.procs :: x in s'.procs && s'.procs[x] == s.procs[x])
    && (forall x | x in s'.procs && x !in s.procs :: s'.procs[x].pc == Begin && s'.procs[x].attempt == 1
          && s'.procs[x].cancels == [] && !s'.procs[x].blamed)
    && (forall x | x in s.contexts :: x in s'.contexts && s'.contexts[x] == s.contexts[x])
  }

  lemma StillCounted(cfg: Config, s: State, s': State)
    requires Undisturbed(s, s') && PermitsOk(cfg, s) && InsideOk(s)
    ensures PermitsOk(cfg, s') && InsideOk(s')
  {
  }

  lemma StillHighest(s: State, s': State)
    requires Undisturbed(s, s') && PeakOk(s)
    ensures PeakOk(s')
  {
    if s.peak != s.highest {
      var w :| w in s.procs && Claim(s.procs[w].pc) == s.highest;
      assert w in s'.procs && Claim(s'.procs[w].pc) == s'.highest;
    }
  }

  lemma StillLed(cfg: Config, s: State, s': State)
    requires Undisturbed(s, s') && FlightsOk(s) && TempsOk(s) && BytesOk(cfg, s)
    ensures FlightsOk(s') && TempsOk(s') && BytesOk(cfg, s')
  {
    forall x | x in s'.procs ensures FlightOk(s', x) && ByteOk(cfg, s', s'.procs[x]) {
      if x in s.procs {
        assert FlightOk(s, x) && ByteOk(cfg, s, s.procs[x]);
      }
    }
  }

  lemma StillCancelled(s: State, s': State)
    requires Undisturbed(s, s') && CancelsOk(s)
    ensures CancelsOk(s')
  {
    forall l, d | Doomed(s, l, d) ensures Doomed(s', l, d) {
    }
    hide Doomed;
    forall x | x in s'.procs ensures CancelOk(s', x) {
      if x in s.procs {
        assert CancelOk(s, x);
      }
    }
  }

  lemma OtherKeeps(cfg: Config, s: State, a: Action, s': State)
    requires !a.Move? && Inv(cfg, s) && Apply(cfg, s, a) == Some(s')
    ensures Inv(cfg, s') && Undisturbed(s, s')
  {
    hide PermitsOk, InsideOk, PeakOk, FlightsOk, TempsOk, BytesOk, CancelsOk;
    assert Undisturbed(s, s');
    StillCounted(cfg, s, s');
    StillHighest(s, s');
    StillLed(cfg, s, s');
    StillCancelled(s, s');
  }

  lemma StepKeeps(cfg: Config, s: State, a: Action, s': State)
    requires Inv(cfg, s) && Apply(cfg, s, a) == Some(s')
    ensures Inv(cfg, s') && Lands(cfg.codec, s.files, s'.files) && s.peak <= s'.peak
  {
    hide Inv;
    match a
    case Move(c, choice) => MoveKeeps(cfg, s, c, choice, s');
    case _ => OtherKeeps(cfg, s, a, s');
  }

  lemma InitialInv(cfg: Config, s: State)
    requires Initial(cfg, s)
    ensures Inv(cfg, s)
  {
  }

  lemma {:induction false} RunKeeps(cfg: Config, s0: State, actions: seq<Action>, s: State)
    requires Initial(cfg, s0) && After(cfg, s0, actions) == Some(s)
    ensures Inv(cfg, s)
    decreases |actions|
  {
    hide Inv, Initial, Apply;
    if actions == [] {
      InitialInv(cfg, s0);
    } else {
      var front := actions[..|actions| - 1];
      var t := After(cfg, s0, front).value;
      RunKeeps(cfg, s0, front, t);
      StepKeeps(cfg, t, actions[|actions| - 1], s);
    }
  }

  // ---------------------------------------------------------------------------
  // What callers can rely on

  /** For one digest, at most one call is ever inside `writeBlobOnce`. */
  lemma {:induction false} OneWriterPerDigest(cfg: Config, s0: State, actions: seq<Action>, s: State, a: Call, b: Call)
    requires Initial(cfg, s0) && After(cfg, s0, actions) == Some(s)
    requires a in s.procs && InOnce(s.procs[a].pc) && !s.procs[a].push
    requires b in s.procs && InOnce(s.procs[b].pc) && !s.procs[b].push
    requires s.procs[a].digest == s.procs[b].digest
    ensures a == b
  {
    RunKeeps(cfg, s0, actions, s);
    assert FlightOk(s, a) && FlightOk(s, b);
  }

  /** A final path is as it was, or holds bytes that hash to its name; nothing is ever removed. */
  ghost predicate FilesSafe(c: Codec, before: Files, after: Files) {
    && (forall d | d in before :: d in after)
    && (forall d | d in after :: (d in before && after[d] == before[d]) || HashOk(c, d, after[d]))
  }

  lemma {:induction false} FinalPathsStaySafe(cfg: Config, s0: State, actions: seq<Action>, s: State)
    requires Initial(cfg, s0) && After(cfg, s0, actions) == Some(s)
    ensures FilesSafe(cfg.codec, s0.files, s.files)
    decreases |actions|
  {
    hide Inv, Initial, Apply;
    if actions != [] {
      var front := actions[..|actions| - 1];
      var t := After(cfg, s0, front).value;
      FinalPathsStaySafe(cfg, s0, front, t);
      RunKeeps(cfg, s0, front, t);
      StepKeeps(cfg, t, actions[|actions| - 1], s);
    }
  }

  /** So a store that was hash-valid stays hash-valid, whoever fails or is cancelled where. */
  lemma {:induction false} HashValidStays(cfg: Config, s0: State, actions: seq<Action>, s: State)
    requires Initial(cfg, s0) && After(cfg, s0, actions) == Some(s) && HashValid(cfg.codec, s0.files)
    ensures HashValid(cfg.codec, s.files)
  {
    FinalPathsStaySafe(cfg, s0, actions, s);
  }

  /** A nil result: the blob is at its path. */
  lemma {:induction false} NilMeansStored(cfg: Config, s0: State, actions: seq<Action>, s: State, c: Call)
    requires Initial(cfg, s0) && After(cfg, s0, actions) == Some(s)
    requires c in s.procs && s.procs[c].pc == Returned(Nil)
    ensures s.procs[c].digest in s.files
  {
    RunKeeps(cfg, s0, actions, s);
    assert ByteOk(cfg, s, s.procs[c]);
  }

  /** At every moment the counted writes are held permits, and those are within the ceiling. */
  lemma {:induction false} CountsWithinCeiling(cfg: Config, s0: State, actions: seq<Action>, s: State)
    requires Initial(cfg, s0) && After(cfg, s0, actions) == Some(s)
    ensures 0 <= s.inFlight <= |s.holders| <= cfg.ceiling && s.permits + |s.holders| == cfg.ceiling
    ensures 0 <= s.peak <= s.highest <= cfg.ceiling
    ensures (forall c | c in s.procs :: !InCas(s.procs[c].pc)) ==> s.peak == s.highest
  {
    RunKeeps(cfg, s0, actions, s);
    InFlightWithinCeiling(cfg, s);
    if s.peak != s.highest {
      var w :| w in s.procs && Claim(s.procs[w].pc) == s.highest;
      assert InCas(s.procs[w].pc);
    }
  }

  /** `highest` is the greatest value the in-flight counter took on the way, so when no call is in its
      loop the reported peak is the true one. */
  lemma {:induction false} HighestIsTheMaximum(cfg: Config, s0: State, actions: seq<Action>, s: State)
    requires Initial(cfg, s0) && After(cfg, s0, actions) == Some(s)
    ensures forall k: nat, t | k <= |actions| && After(cfg, s0, actions[..k]) == Some(t) ::
              t.inFlight <= s.highest && t.peak <= s.peak
    ensures exists k: nat, t :: k <= |actions| && After(cfg, s0, actions[..k]) == Some(t) && t.inFlight == s.highest
    decreases |actions|
  {
    hide Inv, Apply, Initial;
    assert actions[..|actions|] == actions;
    RunKeeps(cfg, s0, actions, s);
    PeakFacts(cfg, s);
    if actions == [] {
      InitialZero(cfg, s0);
      assert After(cfg, s0, actions[..0]) == Some(s);
    } else {
      var front, a := actions[..|actions| - 1], actions[|actions| - 1];
      var t := After(cfg, s0, front).value;
      HighestIsTheMaximum(cfg, s0, front, t);
      RunKeeps(cfg, s0, front, t);
      StepKeeps(cfg, t, a, s);
      StepHighest(cfg, t, a, s);
      forall k: nat, u | k <= |actions| && After(cfg, s0, actions[..k]) == Some(u)
        ensures u.inFlight <= s.highest && u.peak <= s.peak
      {
        if k < |actions| {
          assert actions[..k] == front[..k];
        }
      }
      if s.highest == t.highest {
        var k: nat, u :| k <= |front| && After(cfg, s0, front[..k]) == Some(u) && u.inFlight == t.highest;
        assert actions[..k] == front[..k];
      }
    }
  }

  lemma PeakFacts(cfg: Config, s: State)
    requires Inv(cfg, s)
    ensures s.inFlight <= s.highest
  {
  }

  lemma InitialZero(cfg: Config, s: State)
    requires Initial(cfg, s)
    ensures s.inFlight == s.highest == s.peak == 0
  {
  }

  lemma StepHighest(cfg: Config, s: State, a: Action, s': State)
    requires Apply(cfg, s, a) == Some(s')
    ensures s'.highest == s.highest || (s'.highest == s'.inFlight && s'.highest >= s.highest)
  {
    hide NextOf;
  }

  /** When every call has returned, every permit is back, no flight is open and no temp file is left. */
  lemma {:induction false} QuietAfterwards(cfg: Config, s0: State, actions: seq<Action>, s: State)
    requires Initial(cfg, s0) && After(cfg, s0, actions) == Some(s)
    requires forall c | c in s.procs :: s.procs[c].pc.Returned?
    ensures s.temps == {} && s.flights == map[] && s.permits == cfg.ceiling && s.inFlight == 0
    ensures s.peak == s.highest
  {
    hide After, BytesOk, CancelsOk, FlightOk, PeakOk;
    RunKeeps(cfg, s0, actions, s);
    CountsWithinCeiling(cfg, s0, actions, s);
    assert s.holders == {} && s.inside == {};
    assert s.flights.Keys == {};
  }

  // ---------------------------------------------------------------------------
  // One commit

  lemma StepUniform(cfg: Config, s: State, a: Action, s': State, d: Digest, z: int)
    requires Apply(cfg, s, a) == Some(s') && Uniform(s', d, z)
    ensures Uniform(s, d, z)
  {
    hide NextOf;
    forall c | c in s.procs && s.procs[c].digest == d ensures !s.procs[c].push && s.procs[c].size == z {
      assert c in s'.procs && Stable(s.procs[c], s'.procs[c]);
    }
  }

  lemma StepOnce(cfg: Config, s: State, a: Action, s': State, d: Digest, z: int)
    requires Inv(cfg, s) && Apply(cfg, s, a) == Some(s') && OnceOk(s, d, z) && Uniform(s, d, z)
    ensures OnceOk(s', d, z)
  {
    if a.Move? {
      var next := NextOf(cfg, s, a.c, s.procs[a.c], a.choice);
      assert Steps(cfg, s, a.c, next.pc, next.effect);
      hide Steps, Perform, NextOf, OnceOk, Uniform;
      ProcsPerformed(s, a.c, next.pc, next.effect);
      RestPerformed(s, a.c, next.pc, next.effect);
      OnceMove(cfg, s, a.c, next.pc, next.effect, s', d, z);
    }
  }

  lemma {:induction false} OnceKeeps(cfg: Config, s0: State, actions: seq<Action>, s: State, d: Digest, z: int)
    requires Initial(cfg, s0) && After(cfg, s0, actions) == Some(s) && Uniform(s, d, z)
    ensures OnceOk(s, d, z)
    decreases |actions|
  {
    hide Inv, Apply, Uniform;
    if actions != [] {
      var front := actions[..|actions| - 1];
      var t := After(cfg, s0, front).value;
      StepUniform(cfg, t, actions[|actions| - 1], s, d, z);
      OnceKeeps(cfg, s0, front, t, d, z);
      RunKeeps(cfg, s0, front, t);
      StepOnce(cfg, t, actions[|actions| - 1], s, d, z);
    }
  }

  /** However many calls write one blob of one positive size, at most one stream is committed. */
  lemma {:induction false} AtMostOneCommit(cfg: Config, s0: State, actions: seq<Action>, s: State, d: Digest, z: int)
    requires Initial(cfg, s0) && After(cfg, s0, actions) == Some(s) && Uniform(s, d, z)
    ensures CommitCount(s, d) <= 1 && (CommitCount(s, d) == 1 ==> Complete(s, d, z))
  {
    OnceKeeps(cfg, s0, actions, s, d, z);
  }

  // ---------------------------------------------------------------------------
  // Foreign cancellations

  /** A caller whose own context is live reports a cancellation only after two flights of the same digest
      that ended cancelled. Each was led by a call whose own context was cancelled, or whose source
      failed with a cancellation of its own; where no source did, by two different calls. */
  lemma LiveCallerNeedsTwoCancellations(cfg: Config, s0: State, actions: seq<Action>, s: State, c: Call)
    returns (a: Call, b: Call)
    requires Initial(cfg, s0) && After(cfg, s0, actions) == Some(s)
    requires c in s.procs && !s.procs[c].push && s.procs[c].pc == Returned(ErrCanceled)
    requires ContextOf(s, s.procs[c]) == Live
    ensures s.procs[c].cancels == [a, b]
    ensures Doomed(s, a, s.procs[c].digest) && Doomed(s, b, s.procs[c].digest)
    ensures (a != b || Blamed(s, a)) && (a != c || Blamed(s, a)) && (b != c || Blamed(s, b))
  {
    RunKeeps(cfg, s0, actions, s);
    assert CancelOk(s, c);
    a, b := s.procs[c].cancels[0], s.procs[c].cancels[1];
    assert a in s.procs[c].cancels && b in s.procs[c].cancels;
  }

  /** Exactly how often a live caller that has returned was disappointed: it reports a cancellation if
      and only if both its flights ended cancelled. */
  lemma {:induction false} LiveCallerReportsACancellationExactlyWhen(
    cfg: Config, s0: State, actions: seq<Action>, s: State, c: Call)
    requires Initial(cfg, s0) && After(cfg, s0, actions) == Some(s)
    requires c in s.procs && !s.procs[c].push && s.procs[c].pc.Returned? && ContextOf(s, s.procs[c]) == Live
    ensures s.procs[c].pc == Returned(ErrCanceled) <==> |s.procs[c].cancels| == 2
  {
    RunKeeps(cfg, s0, actions, s);
    assert CancelOk(s, c);
  }

  /** No source of a call for `d` failed with a cancellation that was not its context's. */
  ghost predicate SourcesAreHonest(s: State, d: Digest) {
    forall x | x in s.procs && s.procs[x].digest == d :: !s.procs[x].blamed
  }

  /** Two other calls that want the blob `c` wants both run under the context `x`. */
  ghost predicate Shared(s: State, c: Call, x: Context)
    requires c in s.procs
  {
    exists a, b ::
      && a != b && a != c && b != c
      && Wants(s, a, s.procs[c].digest, x) && Wants(s, b, s.procs[c].digest, x)
  }

  predicate Wants(s: State, a: Call, d: Digest, x: Context) {
    a in s.procs && !s.procs[a].push && s.procs[a].digest == d && s.procs[a].ctx == x
  }

  /** When one context only is cancelled, and no source of that blob's calls makes up a cancellation of its
      own, it fails no live caller unless two other calls for the blob share it. */
  lemma {:induction false} OneForeignCancellationIsHarmless(
    cfg: Config, s0: State, actions: seq<Action>, s: State, c: Call, cancelled: Context)
    requires Initial(cfg, s0) && After(cfg, s0, actions) == Some(s)
    requires c in s.procs && !s.procs[c].push && ContextOf(s, s.procs[c]) == Live
    requires forall x | x in s.contexts && s.contexts[x] == Cancelled :: x == cancelled
    requires !Shared(s, c, cancelled) && SourcesAreHonest(s, s.procs[c].digest)
    ensures s.procs[c].pc != Returned(ErrCanceled)
  {
    if s.procs[c].pc == Returned(ErrCanceled) {
      var a, b := LiveCallerNeedsTwoCancellations(cfg, s0, actions, s, c);
      assert Wants(s, a, s.procs[c].digest, cancelled) && Wants(s, b, s.procs[c].digest, cancelled);
    }
  }
}
