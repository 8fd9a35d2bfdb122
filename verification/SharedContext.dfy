/** Runs of the blob write protocol in which a live caller does report a cancellation: because two
    other calls share a cancelled context, as two equal layers of one errgroup do, or because its own
    source makes one up. */
module SharedContext {
  import opened Content
  import opened BlobWriter
  import opened BlobRuns
  import BlobProgress

  /** Calls 1 and 2 share context 0; call 3 has context 1. All three want the same blob, and nobody
      has stored it. */
  ghost predicate Stands(s: State, d: Digest, z: int, pc1: Pc, pc2: Pc, pc3: Pc,
                         flights: map<Digest, Call>, cancels: seq<Call>, over: bool)
  {
    && s.files == map[] && s.flights == flights
    && s.contexts == (if over then map[0 := Cancelled] else map[])
    && 1 in s.procs && s.procs[1] == Proc(false, d, z, 0, pc1, 1, [], false)
    && 2 in s.procs && s.procs[2] == Proc(false, d, z, 0, pc2, 1, [], false)
    && 3 in s.procs && s.procs[3] == Proc(false, d, z, 1, pc3, if cancels == [] then 1 else 2, cancels, false)
  }

  lemma Begins(cfg: Config, s0: State, d: Digest, z: int) returns (actions: seq<Action>, s: State)
    requires Initial(cfg, s0) && s0.files == map[]
    ensures After(cfg, s0, actions) == Some(s) && Stands(s, d, z, Begin, Begin, Begin, map[], [], false)
  {
    var s1 := s0.(procs := s0.procs[1 := Proc(false, d, z, 0, Begin, 1, [], false)]);
    var s2 := s1.(procs := s1.procs[2 := Proc(false, d, z, 0, Begin, 1, [], false)]);
    s := s2.(procs := s2.procs[3 := Proc(false, d, z, 1, Begin, 1, [], false)]);
    actions := BlobProgress.Then(cfg, s0, [], s0, Action.Arrive(1, false, d, z, 0));
    actions := BlobProgress.Then(cfg, s0, actions, s1, Action.Arrive(2, false, d, z, 0));
    actions := BlobProgress.Then(cfg, s0, actions, s2, Action.Arrive(3, false, d, z, 1));
  }

  /** All three look for the file, do not find it, and are about to join a flight. */
  lemma Look(cfg: Config, s0: State, before: seq<Action>, s: State, d: Digest, z: int)
    returns (actions: seq<Action>, t: State)
    requires After(cfg, s0, before) == Some(s) && Stands(s, d, z, Begin, Begin, Begin, map[], [], false)
    ensures After(cfg, s0, actions) == Some(t) && Stands(t, d, z, Join, Join, Join, map[], [], false)
  {
    hide After;
    actions, t := BlobProgress.Moves(cfg, s0, before, s, 1, Works, FastPath, Quiet);
    actions, t := BlobProgress.Moves(cfg, s0, actions, t, 1, Works, Join, Quiet);
    actions, t := BlobProgress.Moves(cfg, s0, actions, t, 2, Works, FastPath, Quiet);
    actions, t := BlobProgress.Moves(cfg, s0, actions, t, 2, Works, Join, Quiet);
    actions, t := BlobProgress.Moves(cfg, s0, actions, t, 3, Works, FastPath, Quiet);
    actions, t := BlobProgress.Moves(cfg, s0, actions, t, 3, Works, Join, Quiet);
  }

  /** Call 1 leads and call 3 joins it. */
  lemma FirstFlight(cfg: Config, s0: State, before: seq<Action>, s: State, d: Digest, z: int)
    returns (actions: seq<Action>, t: State)
    requires After(cfg, s0, before) == Some(s) && Stands(s, d, z, Join, Join, Join, map[], [], false)
    ensures After(cfg, s0, actions) == Some(t) && Stands(t, d, z, Acquire, Join, Wait(1), map[d := 1], [], false)
  {
    hide After;
    actions, t := BlobProgress.Moves(cfg, s0, before, s, 1, Works, Acquire, Lead);
    actions, t := BlobProgress.Moves(cfg, s0, actions, t, 3, Works, Wait(1), Quiet);
  }

  lemma SharedContextEnds(cfg: Config, s0: State, before: seq<Action>, s: State, d: Digest, z: int)
    returns (actions: seq<Action>, t: State)
    requires After(cfg, s0, before) == Some(s) && Stands(s, d, z, Acquire, Join, Wait(1), map[d := 1], [], false)
    ensures After(cfg, s0, actions) == Some(t) && Stands(t, d, z, Acquire, Join, Wait(1), map[d := 1], [], true)
  {
    hide After;
    actions := BlobProgress.Then(cfg, s0, before, s, EndContext(0, Cancelled));
    t := s.(contexts := s.contexts[0 := Cancelled]);
  }

  /** The leader `a` of the open flight gives up waiting for a permit; its flight ends cancelled. */
  lemma LeaderGivesUp(cfg: Config, s0: State, before: seq<Action>, s: State, a: Call)
    returns (actions: seq<Action>, t: State)
    requires After(cfg, s0, before) == Some(s) && a in s.procs && s.procs[a].pc == Acquire
    requires !s.procs[a].push && ContextOf(s, s.procs[a]) == Cancelled
    ensures After(cfg, s0, actions) == Some(t)
    ensures t.contexts == s.contexts && t.files == s.files && t.flights == s.flights - {s.procs[a].digest}
    ensures forall x | x in s.procs ::
              x in t.procs && t.procs[x] == NewProc(s.procs[x], x == a, a, Got(ErrCanceled, a), Deliver(ErrCanceled))
  {
    hide After;
    actions, t := BlobProgress.Moves(cfg, s0, before, s, a, Interrupted, Finish(ErrCanceled), Quiet);
    actions, t := BlobProgress.Moves(cfg, s0, actions, t, a, Works, Got(ErrCanceled, a), Deliver(ErrCanceled));
  }

  /** Call 2 has not noticed yet: it leads the next flight, which call 3 joins for its one retry. */
  lemma SecondFlight(cfg: Config, s0: State, before: seq<Action>, s: State, d: Digest, z: int)
    returns (actions: seq<Action>, t: State)
    requires After(cfg, s0, before) == Some(s)
    requires Stands(s, d, z, Got(ErrCanceled, 1), Join, Got(ErrCanceled, 1), map[], [], true)
    ensures After(cfg, s0, actions) == Some(t)
    ensures Stands(t, d, z, Got(ErrCanceled, 1), Acquire, Wait(2), map[d := 2], [1], true)
  {
    hide After;
    actions, t := BlobProgress.Moves(cfg, s0, before, s, 2, Works, Acquire, Lead);
    actions, t := BlobProgress.Moves(cfg, s0, actions, t, 3, Works, Join, Note(1, true));
    actions, t := BlobProgress.Moves(cfg, s0, actions, t, 3, Works, Wait(2), Quiet);
  }

  lemma FirstEnds(cfg: Config, s0: State, before: seq<Action>, s: State, d: Digest, z: int)
    returns (actions: seq<Action>, t: State)
    requires After(cfg, s0, before) == Some(s) && Stands(s, d, z, Acquire, Join, Wait(1), map[d := 1], [], true)
    ensures After(cfg, s0, actions) == Some(t)
    ensures Stands(t, d, z, Got(ErrCanceled, 1), Join, Got(ErrCanceled, 1), map[], [], true)
  {
    hide After;
    actions, t := LeaderGivesUp(cfg, s0, before, s, 1);
  }

  lemma SecondEnds(cfg: Config, s0: State, before: seq<Action>, s: State, d: Digest, z: int)
    returns (actions: seq<Action>, t: State)
    requires After(cfg, s0, before) == Some(s)
    requires Stands(s, d, z, Got(ErrCanceled, 1), Acquire, Wait(2), map[d := 2], [1], true)
    ensures After(cfg, s0, actions) == Some(t)
    ensures Stands(t, d, z, Got(ErrCanceled, 1), Got(ErrCanceled, 2), Returned(ErrCanceled), map[], [1, 2], true)
  {
    hide After;
    actions, t := LeaderGivesUp(cfg, s0, before, s, 2);
    actions, t := BlobProgress.Moves(cfg, s0, actions, t, 3, Works, Returned(ErrCanceled), Note(2, false));
  }

  /** The run from a fresh process over an empty store: only one context was ever cancelled, two calls
      for the blob share it, and a caller with another, live one returns `context.Canceled`. */
  lemma OneSharedCancellationFailsALiveCaller(cfg: Config, s0: State, d: Digest, z: int)
    returns (actions: seq<Action>, s: State)
    requires Initial(cfg, s0) && s0.files == map[]
    ensures After(cfg, s0, actions) == Some(s) && s.contexts == map[0 := Cancelled]
    ensures 3 in s.procs && s.procs[3].pc == Returned(ErrCanceled) && ContextOf(s, s.procs[3]) == Live
    ensures Shared(s, 3, 0)
  {
    hide After, NewProc;
    actions, s := Begins(cfg, s0, d, z);
    actions, s := Look(cfg, s0, actions, s, d, z);
    actions, s := FirstFlight(cfg, s0, actions, s, d, z);
    actions, s := SharedContextEnds(cfg, s0, actions, s, d, z);
    actions, s := FirstEnds(cfg, s0, actions, s, d, z);
    actions, s := SecondFlight(cfg, s0, actions, s, d, z);
    actions, s := SecondEnds(cfg, s0, actions, s, d, z);
    assert Wants(s, 1, d, 0) && Wants(s, 2, d, 0);
  }

  // ---------------------------------------------------------------------------
  // A source that makes up a cancellation

  /** Call 1 is alone, its context is live, and nobody has stored the blob. `open` is whether it leads a
      flight, `taken` how many permits it holds, `counted` whether it is counted in flight. */
  ghost predicate Alone(
    cfg: Config, s: State, d: Digest, z: int, pc: Pc, attempt: nat, cancels: seq<Call>, blamed: bool,
    open: bool, taken: nat, counted: bool)
  {
    && s.files == map[] && s.contexts == map[]
    && s.flights == (if open then map[d := 1] else map[])
    && s.permits == cfg.ceiling - taken && s.inFlight == (if counted then 1 else 0)
    && 1 in s.procs && s.procs[1] == Proc(false, d, z, 0, pc, attempt, cancels, blamed)
  }

  lemma EntersAlone(
    cfg: Config, s0: State, before: seq<Action>, s: State,
    d: Digest, z: int, attempt: nat, cancels: seq<Call>, blamed: bool)
    returns (actions: seq<Action>, t: State)
    requires After(cfg, s0, before) == Some(s) && cfg.ceiling > 0
    requires Alone(cfg, s, d, z, Join, attempt, cancels, blamed, false, 0, false)
    ensures After(cfg, s0, actions) == Some(t)
    ensures Alone(cfg, t, d, z, CasLoad(1), attempt, cancels, blamed, true, 1, true)
  {
    hide After;
    actions, t := BlobProgress.Moves(cfg, s0, before, s, 1, Works, Acquire, Lead);
    actions, t := BlobProgress.Moves(cfg, s0, actions, t, 1, Works, Count, TakePermit);
    actions, t := BlobProgress.Moves(cfg, s0, actions, t, 1, Works, CasLoad(1), Enter);
  }

  lemma RaisesAlone(
    cfg: Config, s0: State, before: seq<Action>, s: State,
    d: Digest, z: int, attempt: nat, cancels: seq<Call>, blamed: bool)
    returns (actions: seq<Action>, t: State)
    requires After(cfg, s0, before) == Some(s)
    requires Alone(cfg, s, d, z, CasLoad(1), attempt, cancels, blamed, true, 1, true)
    ensures After(cfg, s0, actions) == Some(t)
    ensures Alone(cfg, t, d, z, Recheck, attempt, cancels, blamed, true, 1, true)
  {
    hide After;
    if 1 <= s.peak {
      actions, t := BlobProgress.Moves(cfg, s0, before, s, 1, Works, Recheck, Quiet);
    } else {
      actions, t := BlobProgress.Moves(cfg, s0, before, s, 1, Works, CasSwap(1, s.peak), Quiet);
      actions, t := BlobProgress.Moves(cfg, s0, actions, t, 1, Works, Recheck, Raise(1));
    }
  }

  lemma OpensAlone(
    cfg: Config, s0: State, before: seq<Action>, s: State,
    d: Digest, z: int, attempt: nat, cancels: seq<Call>, blamed: bool)
    returns (actions: seq<Action>, t: State)
    requires After(cfg, s0, before) == Some(s)
    requires Alone(cfg, s, d, z, Recheck, attempt, cancels, blamed, true, 1, true)
    ensures After(cfg, s0, actions) == Some(t)
    ensures Alone(cfg, t, d, z, Cleanup(ErrCanceled), attempt, cancels, true, true, 1, true)
  {
    hide After;
    actions, t := BlobProgress.Moves(cfg, s0, before, s, 1, Works, CheckCtx, Quiet);
    actions, t := BlobProgress.Moves(cfg, s0, actions, t, 1, Works, Create, Quiet);
    actions, t := BlobProgress.Moves(cfg, s0, actions, t, 1, Works, Open, MakeTemp);
    actions, t := BlobProgress.Moves(cfg, s0, actions, t, 1, SourceCanceled, Cleanup(ErrCanceled), Blame);
  }

  lemma LeavesAlone(
    cfg: Config, s0: State, before: seq<Action>, s: State, d: Digest, z: int, n: nat, cancels: seq<Call>)
    returns (actions: seq<Action>, t: State)
    requires After(cfg, s0, before) == Some(s)
    requires Alone(cfg, s, d, z, Cleanup(ErrCanceled), n, cancels, true, true, 1, true)
    ensures After(cfg, s0, actions) == Some(t)
    ensures Alone(cfg, t, d, z, Release(ErrCanceled), n, cancels, true, true, 1, false)
  {
    hide After;
    actions, t := BlobProgress.Moves(cfg, s0, before, s, 1, Works, Leave(ErrCanceled), DropTemp);
    actions, t := BlobProgress.Moves(cfg, s0, actions, t, 1, Works, Release(ErrCanceled), Exit);
  }

  lemma EndsAlone(
    cfg: Config, s0: State, before: seq<Action>, s: State, d: Digest, z: int, n: nat, cancels: seq<Call>)
    returns (actions: seq<Action>, t: State)
    requires After(cfg, s0, before) == Some(s)
    requires Alone(cfg, s, d, z, Release(ErrCanceled), n, cancels, true, true, 1, false)
    ensures After(cfg, s0, actions) == Some(t)
    ensures Alone(cfg, t, d, z, Got(ErrCanceled, 1), n, cancels, true, false, 0, false)
  {
    hide After;
    actions, t := BlobProgress.Moves(cfg, s0, before, s, 1, Works, Finish(ErrCanceled), GivePermit);
    actions, t := BlobProgress.Moves(cfg, s0, actions, t, 1, Works, Got(ErrCanceled, 1), Deliver(ErrCanceled));
  }

  lemma FliesAlone(
    cfg: Config, s0: State, before: seq<Action>, s: State,
    d: Digest, z: int, attempt: nat, cancels: seq<Call>, blamed: bool)
    returns (actions: seq<Action>, t: State)
    requires After(cfg, s0, before) == Some(s) && cfg.ceiling > 0
    requires Alone(cfg, s, d, z, Join, attempt, cancels, blamed, false, 0, false)
    ensures After(cfg, s0, actions) == Some(t)
    ensures Alone(cfg, t, d, z, Got(ErrCanceled, 1), attempt, cancels, true, false, 0, false)
  {
    hide After, Alone;
    actions, t := EntersAlone(cfg, s0, before, s, d, z, attempt, cancels, blamed);
    actions, t := RaisesAlone(cfg, s0, actions, t, d, z, attempt, cancels, blamed);
    actions, t := OpensAlone(cfg, s0, actions, t, d, z, attempt, cancels, blamed);
    actions, t := LeavesAlone(cfg, s0, actions, t, d, z, attempt, cancels);
    actions, t := EndsAlone(cfg, s0, actions, t, d, z, attempt, cancels);
  }

  lemma StartsAlone(cfg: Config, s0: State, d: Digest, z: int) returns (actions: seq<Action>, s: State)
    requires Initial(cfg, s0) && s0.files == map[]
    ensures After(cfg, s0, actions) == Some(s) && Alone(cfg, s, d, z, Join, 1, [], false, false, 0, false)
  {
    s := s0.(procs := s0.procs[1 := Proc(false, d, z, 0, Begin, 1, [], false)]);
    actions := BlobProgress.Then(cfg, s0, [], s0, Action.Arrive(1, false, d, z, 0));
    hide After;
    actions, s := BlobProgress.Moves(cfg, s0, actions, s, 1, Works, FastPath, Quiet);
    actions, s := BlobProgress.Moves(cfg, s0, actions, s, 1, Works, Join, Quiet);
  }

  /** So the honesty of sources is needed too: a run in which no context is cancelled at all, one call
      writes one blob, and it returns `context.Canceled` because its source failed so twice. */
  lemma OneDishonestSourceFailsALiveCaller(cfg: Config, s0: State, d: Digest, z: int)
    returns (actions: seq<Action>, s: State)
    requires Initial(cfg, s0) && s0.files == map[] && cfg.ceiling > 0
    ensures After(cfg, s0, actions) == Some(s) && s.contexts == map[]
    ensures 1 in s.procs && s.procs[1].pc == Returned(ErrCanceled) && !SourcesAreHonest(s, s.procs[1].digest)
  {
    hide After;
    actions, s := StartsAlone(cfg, s0, d, z);
    actions, s := FliesAlone(cfg, s0, actions, s, d, z, 1, [], false);
    actions, s := BlobProgress.Moves(cfg, s0, actions, s, 1, Works, Join, Note(1, true));
    actions, s := FliesAlone(cfg, s0, actions, s, d, z, 2, [1], true);
    actions, s := BlobProgress.Moves(cfg, s0, actions, s, 1, Works, Returned(ErrCanceled), Note(1, false));
    assert s.procs[1].blamed;
  }
}
