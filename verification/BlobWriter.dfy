/** The blob write protocol: singleflight per digest, a bounded semaphore across `WriteBlob` and
    `Push`, in-flight counters, then temp file, check and rename. Goroutines are calls, and every
    interleaving of their steps, with a failure or a cancellation anywhere, is a sequence of actions. */
module BlobWriter {
  import opened Content

  /** One call of `WriteBlob`, or one `Push` with the writer it returned up to its `Close`. */
  type Call = nat
  type Context = nat

  /** `ctx.Err()`. Calls of one errgroup share a context. */
  datatype ContextState = Live | Cancelled | Expired

  datatype Result = Nil | ErrCanceled | ErrDeadline | ErrMismatch | ErrFailed

  /** Where a call stands. A step reads or writes the shared state once. */
  datatype Pc =
    | Begin | FastPath | Join | Wait(leader: Call)
    | Acquire | Count | CasLoad(cur: int) | CasSwap(cur: int, seen: int)
    | Recheck | CheckCtx | Create | Open | Copy | Verify(bytes: Bytes) | Commit(bytes: Bytes)
    | Cleanup(res: Result) | Leave(res: Result) | Release(res: Result) | Finish(res: Result)
    | Got(res: Result, from: Call) | Returned(res: Result)

  /** `attempt` counts the flights a `WriteBlob` call took part in; `blamed` is whether its own source
      ever failed with a cancellation that was not its context's; `cancels` lists the leaders of
      those that ended cancelled (history). */
  datatype Proc = Proc(
    push: bool, digest: Digest, size: int, ctx: Context, pc: Pc, attempt: nat, cancels: seq<Call>,
    blamed: bool)

  datatype Config = Config(codec: Codec, ceiling: nat)

  /** `holders`, `inside`, `highest` and `commits` are history: who holds a permit, who is counted in
      flight, the greatest count there ever was, and how many streams were renamed into place. */
  datatype State = State(
    files: Files, temps: set<Call>, flights: map<Digest, Call>,
    permits: nat, inFlight: int, peak: int,
    procs: map<Call, Proc>, contexts: map<Context, ContextState>,
    holders: set<Call>, inside: set<Call>, highest: int, commits: map<Digest, nat>)

  /** How a step's own system call or read goes. */
  datatype Choice = Works | Fails | Interrupted | SourceCanceled | Yields(bytes: Bytes)

  datatype Action =
    | Arrive(c: Call, push: bool, digest: Digest, size: int, ctx: Context)
    | EndContext(ctx: Context, how: ContextState)
    | Move(c: Call, choice: Choice)

  function ContextOf(s: State, p: Proc): ContextState {
    if p.ctx in s.contexts then s.contexts[p.ctx] else Live
  }

  function ContextError(s: State, p: Proc): Result {
    if ContextOf(s, p) == Cancelled then ErrCanceled else ErrDeadline
  }

  /** A file at the final path whose size is trusted. */
  predicate Present(s: State, p: Proc) {
    && p.digest in s.files
    && if p.size > 0 then |s.files[p.digest]| == p.size else |s.files[p.digest]| > 0
  }

  predicate Expected(cfg: Config, p: Proc, b: Bytes) {
    && (!p.push && p.size > 0 ==> |b| == p.size)
    && Digest(CANONICAL, cfg.codec.hash(CANONICAL, b)) == p.digest
  }

  function CommitCount(s: State, d: Digest): nat {
    if d in s.commits then s.commits[d] else 0
  }

  // ---------------------------------------------------------------------------
  // One step: where the call goes next, and the one thing it does to the shared state

  datatype Effect =
    | Quiet                    // reads only
    | Lead                     // registers the flight for its digest
    | TakePermit | GivePermit
    | Enter | Exit             // the in-flight counter
    | Raise(to: int)           // a compare-and-swap of the high-water mark that succeeded
    | MakeTemp | DropTemp
    | Rename(bytes: Bytes)     // the temp file takes the final path
    | Deliver(res: Result)     // ends the flight; everybody who joined gets the result
    | Note(from: Call, again: bool)  // a cancelled flight, and whether it is retried
    | Blame                    // the source answered with a cancellation of its own

  datatype Next = Blocked | Go(pc: Pc, effect: Effect)

  /** Up to winning the flight. */
  function Joining(s: State, c: Call, p: Proc, choice: Choice): Next {
    match p.pc
    case Begin =>
      if p.push then Go(FastPath, Quiet)
      else if ContextOf(s, p) != Live then Go(Returned(ContextError(s, p)), Quiet)
      else if choice.Fails? then Go(Returned(ErrFailed), Quiet)
      else Go(FastPath, Quiet)
    case FastPath =>
      if p.push then
        // A blob that is there is not written again; the discarding writer only checks the stream.
        if p.digest in s.files then Go(Returned(if choice.Fails? then ErrMismatch else Nil), Quiet)
        else Go(Acquire, Quiet)
      else if Present(s, p) && !choice.Fails? then Go(Returned(Nil), Quiet)
      else Go(Join, Quiet)
    case Join =>
      if p.digest in s.flights then Go(Wait(s.flights[p.digest]), Quiet) else Go(Acquire, Lead)
    case _ => Blocked
  }

  /** Taking a permit and being counted; `CasLoad` and `CasSwap` are the high-water mark's loop. */
  function Entering(s: State, c: Call, p: Proc, choice: Choice): Next {
    var body := if p.push then Create else Recheck;
    match p.pc
    case Acquire =>
      if choice.Interrupted? && ContextOf(s, p) != Live then
        Go(if p.push then Returned(ContextError(s, p)) else Finish(ContextError(s, p)), Quiet)
      else if s.permits > 0 then Go(Count, TakePermit)
      else Blocked
    case Count => Go(CasLoad(s.inFlight + 1), Enter)
    case CasLoad(cur) => Go(if cur <= s.peak then body else CasSwap(cur, s.peak), Quiet)
    case CasSwap(cur, seen) => if s.peak == seen then Go(body, Raise(cur)) else Go(CasLoad(cur), Quiet)
    case _ => Blocked
  }

  /** `writeBlobOnce`, and for a push the writer's own temp file, writes and `Close`. */
  function Writing(cfg: Config, s: State, c: Call, p: Proc, choice: Choice): Next {
    match p.pc
    case Recheck => Go(if Present(s, p) then Leave(Nil) else CheckCtx, Quiet)
    case CheckCtx => Go(if ContextOf(s, p) != Live then Leave(ContextError(s, p)) else Create, Quiet)
    case Create =>
      if choice.Fails? then Go(Leave(ErrFailed), Quiet) else Go(if p.push then Copy else Open, MakeTemp)
    case Open =>
      if choice.Fails? then Go(Cleanup(ErrFailed), Quiet)
      else if choice.SourceCanceled? then Go(Cleanup(ErrCanceled), Blame)
      else if choice.Interrupted? && ContextOf(s, p) != Live then Go(Cleanup(ContextError(s, p)), Quiet)
      else Go(Copy, Quiet)
    case Copy =>
      (match choice
       case Yields(b) => Go(Verify(b), Quiet)
       case Interrupted =>
         if !p.push && ContextOf(s, p) != Live then Go(Cleanup(ContextError(s, p)), Quiet) else Blocked
       case Fails => if p.push then Blocked else Go(Cleanup(ErrFailed), Quiet)
       case SourceCanceled => if p.push then Blocked else Go(Cleanup(ErrCanceled), Blame)
       case Works => Blocked)
    case Verify(b) => Go(if Expected(cfg, p, b) then Commit(b) else Cleanup(ErrMismatch), Quiet)
    case Commit(b) => if choice.Fails? then Go(Cleanup(ErrFailed), Quiet) else Go(Cleanup(Nil), Rename(b))
    case _ => Blocked
  }

  /** The deferred clean-ups in their order, and what the caller does with the flight's result. */
  function Leaving(s: State, c: Call, p: Proc): Next {
    match p.pc
    case Cleanup(r) => Go(Leave(r), DropTemp)
    case Leave(r) => Go(Release(r), Exit)
    case Release(r) => Go(if p.push then Returned(r) else Finish(r), GivePermit)
    case Finish(r) => Go(Got(r, c), Deliver(r))
    case Got(r, from) =>
      // One retry, and only for a cancellation that is not this caller's own.
      if r.ErrCanceled? && p.attempt == 1 && ContextOf(s, p) == Live then Go(Join, Note(from, true))
      else if r.ErrCanceled? then Go(Returned(r), Note(from, false))
      else Go(Returned(r), Quiet)
    case _ => Blocked
  }

  function NextOf(cfg: Config, s: State, c: Call, p: Proc, choice: Choice): Next {
    match p.pc
    case Begin | FastPath | Join => Joining(s, c, p, choice)
    case Acquire | Count | CasLoad(_) | CasSwap(_, _) => Entering(s, c, p, choice)
    case Recheck | CheckCtx | Create | Open | Copy | Verify(_) | Commit(_) => Writing(cfg, s, c, p, choice)
    case Cleanup(_) | Leave(_) | Release(_) | Finish(_) | Got(_, _) => Leaving(s, c, p)
    case Wait(_) | Returned(_) => Blocked
  }

  /** A call after `c` goes to `pc` with an effect; `mine` is whether it is `c` itself. */
  function NewProc(p: Proc, mine: bool, c: Call, pc: Pc, e: Effect): Proc {
    if mine then
      if e.Note? then p.(pc := pc, attempt := if e.again then 2 else p.attempt, cancels := p.cancels + [e.from])
      else p.(pc := pc, blamed := p.blamed || e.Blame?)
    else if e.Deliver? && p.pc == Wait(c) then p.(pc := Got(e.res, c))
    else p
  }

  /** The state after that, field by field. */
  function Perform(s: State, c: Call, pc: Pc, e: Effect): State
    requires c in s.procs
  {
    var d := s.procs[c].digest;
    State(
      files := if e.Rename? then s.files[d := e.bytes] else s.files,
      temps := if e.MakeTemp? then s.temps + {c} else if e.DropTemp? || e.Rename? then s.temps - {c} else s.temps,
      flights := if e.Lead? then s.flights[d := c] else if e.Deliver? then s.flights - {d} else s.flights,
      permits := if e.TakePermit? && s.permits > 0 then s.permits - 1
                 else if e.GivePermit? then s.permits + 1 else s.permits,
      inFlight := if e.Enter? then s.inFlight + 1 else if e.Exit? then s.inFlight - 1 else s.inFlight,
      peak := if e.Raise? then e.to else s.peak,
      procs := map x | x in s.procs :: NewProc(s.procs[x], x == c, c, pc, e),
      contexts := s.contexts,
      holders := if e.TakePermit? && s.permits > 0 then s.holders + {c}
                 else if e.GivePermit? then s.holders - {c} else s.holders,
      inside := if e.Enter? then s.inside + {c} else if e.Exit? then s.inside - {c} else s.inside,
      highest := if e.Enter? && s.inFlight + 1 > s.highest then s.inFlight + 1 else s.highest,
      commits := if e.Rename? then s.commits[d := CommitCount(s, d) + 1] else s.commits)
  }

  /** The state after an action, when it can happen. */
  function Apply(cfg: Config, s: State, a: Action): Option<State> {
    match a
    case Arrive(c, push, digest, size, ctx) =>
      if c in s.procs then None
      else Some(s.(procs := s.procs[c := Proc(push, digest, size, ctx, Begin, 1, [], false)]))
    case EndContext(ctx, how) =>
      if ctx in s.contexts || how.Live? then None else Some(s.(contexts := s.contexts[ctx := how]))
    case Move(c, choice) =>
      if c !in s.procs then None
      else
        match NextOf(cfg, s, c, s.procs[c], choice)
        case Blocked => None
        case Go(pc, e) => Some(Perform(s, c, pc, e))
  }

  /** A fresh process over whatever the blob directory holds. */
  predicate Initial(cfg: Config, s: State) {
    && s.temps == {} && s.flights == map[] && s.procs == map[] && s.contexts == map[]
    && s.permits == cfg.ceiling && s.inFlight == 0 && s.peak == 0
    && s.holders == {} && s.inside == {} && s.highest == 0 && s.commits == map[]
  }

  /** The state after a sequence of actions, when all of them can happen. */
  function After(cfg: Config, s: State, actions: seq<Action>): Option<State>
    decreases |actions|
  {
    if actions == [] then Some(s)
    else
      match After(cfg, s, actions[..|actions| - 1])
      case None => None
      case Some(t) => Apply(cfg, t, actions[|actions| - 1])
  }
}
