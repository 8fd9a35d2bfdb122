/** The blob write protocol from the other side: when nothing goes wrong a write succeeds, and it can
    always go right again. */
module BlobProgress {
  import opened Content
  import opened BlobWriter
  import opened BlobProtocol
  import opened BlobRuns

  /** The bytes a source should give: those of the digest, as many as the call expects if it expects any. */
  predicate RightBytes(c: Codec, push: bool, d: Digest, size: int, b: Bytes) {
    && d.alg == "sha256" && c.hash("sha256", b) == d.hex
    && (!push && size > 0 ==> |b| == size)
  }

  // ---------------------------------------------------------------------------
  // Whoever is not hindered succeeds

  /** Nothing an action does stands in the way of the calls for `d`, which are those of `s`: no system call
      of theirs fails, their sources give the right bytes, and their contexts do not end. */
  ghost predicate Harmless(c: Codec, s: State, a: Action, d: Digest) {
    match a
    case Arrive(_, _, _, _, _) => true
    case EndContext(ctx, _) => forall x | x in s.procs && s.procs[x].digest == d :: s.procs[x].ctx != ctx
    case Move(x, choice) =>
      x in s.procs && s.procs[x].digest == d ==>
        match choice
        case Works => true
        case Yields(b) => RightBytes(c, s.procs[x].push, d, s.procs[x].size, b)
        case _ => false
  }

  ghost predicate AllHarmless(c: Codec, s: State, actions: seq<Action>, d: Digest) {
    forall a | a in actions :: Harmless(c, s, a, d)
  }

  /** No call for `d` has met anything but success. */
  ghost predicate WellSoFar(cfg: Config, s: State, d: Digest) {
    forall x | x in s.procs && s.procs[x].digest == d :: FaresWell(cfg, s.procs[x])
  }

  ghost predicate ContextsLive(s: State, d: Digest) {
    forall x | x in s.procs && s.procs[x].digest == d :: s.procs[x].ctx !in s.contexts
  }

  lemma {:induction false} ContextsEndByActions(cfg: Config, s0: State, actions: seq<Action>, s: State, ctx: Context)
    returns (how: ContextState)
    requires Initial(cfg, s0) && After(cfg, s0, actions) == Some(s) && ctx in s.contexts
    ensures EndContext(ctx, how) in actions
    decreases |actions|
  {
    hide NextOf, Perform;
    var front, a := actions[..|actions| - 1], actions[|actions| - 1];
    var t := After(cfg, s0, front).value;
    if ctx in t.contexts {
      how := ContextsEndByActions(cfg, s0, front, t, ctx);
    } else {
      MovesEndNoContext(cfg, t, a, s);
      how := a.how;
    }
  }

  lemma MovesEndNoContext(cfg: Config, s: State, a: Action, s': State)
    requires Apply(cfg, s, a) == Some(s')
    ensures a.Move? ==> s'.contexts == s.contexts
  {
    hide NextOf;
  }

  lemma {:induction false} HarmlessRunsEndNoContext(
    cfg: Config, s0: State, actions: seq<Action>, s: State, d: Digest)
    requires Initial(cfg, s0) && After(cfg, s0, actions) == Some(s) && AllHarmless(cfg.codec, s, actions, d)
    ensures ContextsLive(s, d)
  {
    hide After, Initial;
    forall x | x in s.procs && s.procs[x].digest == d ensures s.procs[x].ctx !in s.contexts {
      if s.procs[x].ctx in s.contexts {
        var how := ContextsEndByActions(cfg, s0, actions, s, s.procs[x].ctx);
        assert false;
      }
    }
  }

  predicate FaresWell(cfg: Config, p: Proc) {
    && (ResultOf(p.pc).Some? ==> ResultOf(p.pc) == Some(Nil))
    && (p.pc.Verify? ==> RightBytes(cfg.codec, p.push, p.digest, p.size, p.pc.bytes))
  }

  /** What a call that fares well goes on to is no failure either. */
  predicate GoesWell(cfg: Config, p: Proc, pc: Pc, e: Effect) {
    && (ResultOf(pc).Some? ==> ResultOf(pc) == Some(Nil))
    && (pc.Verify? ==> RightBytes(cfg.codec, p.push, p.digest, p.size, pc.bytes))
    && (e.Deliver? ==> e.res == Nil)
  }

  /** The call's own step is not hindered. */
  predicate Smooth(cfg: Config, p: Proc, choice: Choice) {
    choice.Works? || (choice.Yields? && RightBytes(cfg.codec, p.push, p.digest, p.size, choice.bytes))
  }

  lemma JoiningGoesWell(cfg: Config, s: State, c: Call, p: Proc, choice: Choice, pc: Pc, e: Effect)
    requires ContextOf(s, p) == Live && Smooth(cfg, p, choice)
    requires Joining(s, c, p, choice) == Go(pc, e) || Entering(s, c, p, choice) == Go(pc, e)
    ensures GoesWell(cfg, p, pc, e)
  {
    hide Present, RightBytes;
  }

  lemma WritingGoesWell(cfg: Config, s: State, c: Call, p: Proc, choice: Choice, pc: Pc, e: Effect)
    requires FaresWell(cfg, p) && ContextOf(s, p) == Live && Smooth(cfg, p, choice)
    requires Writing(cfg, s, c, p, choice) == Go(pc, e)
    ensures GoesWell(cfg, p, pc, e)
  {
    hide Present;
  }

  lemma LeavingGoesWell(cfg: Config, s: State, c: Call, p: Proc, pc: Pc, e: Effect)
    requires FaresWell(cfg, p) && Leaving(s, c, p) == Go(pc, e)
    ensures GoesWell(cfg, p, pc, e)
  {
    hide RightBytes;
  }

  lemma OwnStepGoesWell(cfg: Config, s: State, c: Call, choice: Choice, pc: Pc, e: Effect)
    requires c in s.procs && FaresWell(cfg, s.procs[c]) && ContextOf(s, s.procs[c]) == Live
    requires NextOf(cfg, s, c, s.procs[c], choice) == Go(pc, e) && Smooth(cfg, s.procs[c], choice)
    ensures GoesWell(cfg, s.procs[c], pc, e)
  {
    hide Joining, Entering, Writing, Leaving, FaresWell, GoesWell, Smooth, ContextOf;
    var p := s.procs[c];
    match p.pc
    case Begin | FastPath | Join => JoiningGoesWell(cfg, s, c, p, choice, pc, e);
    case Acquire | Count | CasLoad(_) | CasSwap(_, _) => JoiningGoesWell(cfg, s, c, p, choice, pc, e);
    case Recheck | CheckCtx | Create | Open | Copy | Verify(_) | Commit(_) =>
      WritingGoesWell(cfg, s, c, p, choice, pc, e);
    case Cleanup(_) | Leave(_) | Release(_) | Finish(_) | Got(_, _) => LeavingGoesWell(cfg, s, c, p, pc, e);
    case Wait(_) | Returned(_) =>
  }

  lemma CallGoesWell(cfg: Config, s: State, c: Call, pc: Pc, e: Effect, s': State, d: Digest, x: Call)
    requires Inv(cfg, s) && WellSoFar(cfg, s, d) && PcsAfter(s, c, pc, e, s') && CallsAfter(s, c, e, s')
    requires s.procs[c].digest == d ==> GoesWell(cfg, s.procs[c], pc, e)
    requires x in s'.procs && s'.procs[x].digest == d
    ensures FaresWell(cfg, s'.procs[x])
  {
    CallMoves(s, c, pc, e, s', x);
    assert FaresWell(cfg, s.procs[x]);
    hide Inv, WellSoFar, PcsAfter, CallsAfter, RightBytes;
    if x != c && e.Deliver? && s.procs[x].pc == Wait(c) {
      WaitersShareTheDigest(cfg, s, x, c);
    }
  }

  lemma MoveGoesWell(cfg: Config, s: State, c: Call, choice: Choice, s': State, d: Digest)
    requires Inv(cfg, s) && WellSoFar(cfg, s, d) && Apply(cfg, s, Move(c, choice)) == Some(s')
    requires Harmless(cfg.codec, s', Move(c, choice), d) && ContextsLive(s, d)
    ensures WellSoFar(cfg, s', d)
  {
    hide Inv, RightBytes, NextOf, Perform, FaresWell, GoesWell;
    var next := NextOf(cfg, s, c, s.procs[c], choice);
    ProcsPerformed(s, c, next.pc, next.effect);
    if s.procs[c].digest == d {
      CallMoves(s, c, next.pc, next.effect, s', c);
      OwnStepGoesWell(cfg, s, c, choice, next.pc, next.effect);
    }
    forall x | x in s'.procs && s'.procs[x].digest == d ensures FaresWell(cfg, s'.procs[x]) {
      CallGoesWell(cfg, s, c, next.pc, next.effect, s', d, x);
    }
  }

  lemma CallMoves(s: State, c: Call, pc: Pc, e: Effect, s': State, x: Call)
    requires PcsAfter(s, c, pc, e, s') && CallsAfter(s, c, e, s') && x in s'.procs
    ensures x in s.procs && Stable(s.procs[x], s'.procs[x]) && s'.procs[x].pc == NewPc(s.procs[x], x == c, c, pc, e)
  {
    hide Noted;
  }

  lemma WaitersShareTheDigest(cfg: Config, s: State, x: Call, c: Call)
    requires Inv(cfg, s) && x in s.procs && s.procs[x].pc == Wait(c)
    ensures c in s.procs && s.procs[c].digest == s.procs[x].digest
  {
    assert FlightOk(s, x);
  }

  lemma ActionGoesWell(cfg: Config, s: State, a: Action, s': State, d: Digest)
    requires Inv(cfg, s) && WellSoFar(cfg, s, d) && Apply(cfg, s, a) == Some(s') && Harmless(cfg.codec, s', a, d)
    requires ContextsLive(s, d)
    ensures WellSoFar(cfg, s', d)
  {
    hide Inv, RightBytes;
    match a
    case Move(c, choice) => MoveGoesWell(cfg, s, c, choice, s', d);
    case _ =>
  }

  /** A call keeps what it was started with. */
  lemma ActionKeepsCalls(cfg: Config, s: State, a: Action, s': State)
    requires Apply(cfg, s, a) == Some(s')
    ensures forall x | x in s.procs :: x in s'.procs && Stable(s.procs[x], s'.procs[x])
  {
    if a.Move? {
      var next := NextOf(cfg, s, a.c, s.procs[a.c], a.choice);
      hide NextOf, Perform;
      ProcsPerformed(s, a.c, next.pc, next.effect);
    }
  }

  lemma {:induction false} RunGoesWell(cfg: Config, s0: State, actions: seq<Action>, s: State, d: Digest)
    requires Initial(cfg, s0) && After(cfg, s0, actions) == Some(s) && AllHarmless(cfg.codec, s, actions, d)
    ensures WellSoFar(cfg, s, d)
    decreases |actions|
  {
    if actions != [] {
      hide Inv, Apply, WellSoFar, Initial, RightBytes, ContextsLive;
      var front, a := actions[..|actions| - 1], actions[|actions| - 1];
      var t := After(cfg, s0, front).value;
      ActionKeepsCalls(cfg, t, a, s);
      forall x | x in front ensures Harmless(cfg.codec, t, x, d) {
        assert x in actions && Harmless(cfg.codec, s, x, d);
      }
      RunGoesWell(cfg, s0, front, t, d);
      HarmlessRunsEndNoContext(cfg, s0, front, t, d);
      RunKeeps(cfg, s0, front, t);
      assert a in actions;
      ActionGoesWell(cfg, t, a, s, d);
    }
  }

  /** In every run in which nothing hinders the calls for one digest, whatever happens to others, each of
      them that has returned has returned nil, and the blob is at its path. */
  lemma {:induction false} UnhinderedCallsSucceed(
    cfg: Config, s0: State, actions: seq<Action>, s: State, c: Call)
    requires Initial(cfg, s0) && After(cfg, s0, actions) == Some(s)
    requires c in s.procs && s.procs[c].pc.Returned? && AllHarmless(cfg.codec, s, actions, s.procs[c].digest)
    ensures s.procs[c].pc == Returned(Nil) && s.procs[c].digest in s.files
  {
    RunGoesWell(cfg, s0, actions, s, s.procs[c].digest);
    assert FaresWell(cfg, s.procs[c]);
    NilMeansStored(cfg, s0, actions, s, c);
  }

  // ---------------------------------------------------------------------------
  // Whoever fails does not succeed

  /** A result other than a cancellation is what a call returns. */
  lemma {:induction false} ResultsAreFinal(
    cfg: Config, s0: State, before: seq<Action>, t: State, c: Call, r: Result, more: seq<Action>, s: State)
    requires After(cfg, s0, before) == Some(t) && c in t.procs && ResultOf(t.procs[c].pc) == Some(r)
    requires After(cfg, s0, before + more) == Some(s) && r != ErrCanceled
    ensures c in s.procs && ResultOf(s.procs[c].pc) == Some(r)
    decreases |more|
  {
    if more == [] {
      assert before + more == before;
    } else {
      hide Apply, ResultOf;
      var all := before + more;
      assert all[..|all| - 1] == before + more[..|more| - 1] && all[|all| - 1] == more[|more| - 1];
      var u := After(cfg, s0, all[..|all| - 1]).value;
      ResultsAreFinal(cfg, s0, before, t, c, r, more[..|more| - 1], u);
      ResultStays(cfg, u, more[|more| - 1], s, c, r);
    }
  }

  lemma ResultStays(cfg: Config, s: State, a: Action, s': State, c: Call, r: Result)
    requires Apply(cfg, s, a) == Some(s') && c in s.procs && ResultOf(s.procs[c].pc) == Some(r) && r != ErrCanceled
    ensures c in s'.procs && ResultOf(s'.procs[c].pc) == Some(r)
  {
    if a.Move? {
      var next := NextOf(cfg, s, a.c, s.procs[a.c], a.choice);
      assert Steps(cfg, s, a.c, next.pc, next.effect);
      hide NextOf, Perform, Steps;
      ProcsPerformed(s, a.c, next.pc, next.effect);
      if a.c == c {
        ResultMoves(cfg, s, c, next.pc, next.effect);
        OwnResultStays(s.procs[c], next.pc, next.effect, r);
      }
    }
  }

  /** Only a cancelled flight is followed by another attempt. */
  lemma OwnResultStays(p: Proc, pc: Pc, e: Effect, r: Result)
    requires ResultOf(p.pc) == Some(r) && r != ErrCanceled
    requires e.Note? ==> p.pc == Got(ErrCanceled, e.from)
    requires ResultOf(pc).Some? ==> ResultOf(pc) == Some(r)
    requires ResultOf(pc).None? ==> p.pc.Got? && e == Note(p.pc.from, true)
    ensures ResultOf(pc) == Some(r)
  {
  }

  /** How a step of a writing call goes wrong: a system call or its source fails, its context has ended when
      it looks, or the bytes it got are not the right ones. */
  function WhatGoesWrong(cfg: Config, s: State, p: Proc, choice: Choice): Option<Result> {
    var ended := p.ctx in s.contexts && !s.contexts[p.ctx].Live?;
    var error := if ended && s.contexts[p.ctx].Cancelled? then ErrCanceled else ErrDeadline;
    match p.pc
    case Create => if choice.Fails? then Some(ErrFailed) else None
    case CheckCtx => if ended then Some(error) else None
    case Open =>
      if choice.Fails? then Some(ErrFailed)
      else if choice.SourceCanceled? then Some(ErrCanceled)
      else if choice.Interrupted? && ended then Some(error)
      else None
    case Copy =>
      if p.push then None
      else if choice.Fails? then Some(ErrFailed)
      else if choice.SourceCanceled? then Some(ErrCanceled)
      else if choice.Interrupted? && ended then Some(error)
      else None
    case Verify(b) => if RightBytes(cfg.codec, p.push, p.digest, p.size, b) then None else Some(ErrMismatch)
    case Commit(_) => if choice.Fails? then Some(ErrFailed) else None
    case _ => None
  }

  /** Such a step stores nothing, and its call's flight ends with the error. */
  lemma AStepThatGoesWrong(cfg: Config, s: State, c: Call, choice: Choice, s': State)
    requires Apply(cfg, s, Move(c, choice)) == Some(s') && WhatGoesWrong(cfg, s, s.procs[c], choice).Some?
    ensures s'.files == s.files && c in s'.procs
    ensures ResultOf(s'.procs[c].pc) == WhatGoesWrong(cfg, s, s.procs[c], choice)
  {
    hide Present;
  }

  /** So a writing call one of whose steps goes wrong returns that very error and nothing else, in whatever
      run; only after a cancellation it may make its second attempt. */
  lemma {:induction false} AHinderedCallFails(
    cfg: Config, s0: State, before: seq<Action>, t: State, c: Call, choice: Choice, more: seq<Action>, s: State)
    requires After(cfg, s0, before) == Some(t) && c in t.procs
    requires After(cfg, s0, before + [Move(c, choice)] + more) == Some(s)
    requires var r := WhatGoesWrong(cfg, t, t.procs[c], choice); r.Some? && r != Some(ErrCanceled)
    ensures c in s.procs && ResultOf(s.procs[c].pc) == WhatGoesWrong(cfg, t, t.procs[c], choice)
  {
    var wrong := before + [Move(c, choice)];
    assert wrong[..|wrong| - 1] == before;
    hide Apply, NextOf;
    FrontRuns(cfg, s0, wrong, more, s);
    var u := After(cfg, s0, wrong).value;
    AStepThatGoesWrong(cfg, t, c, choice, u);
    ResultsAreFinal(cfg, s0, wrong, u, c, ResultOf(u.procs[c].pc).value, more, s);
  }

  lemma {:induction false} FrontRuns(cfg: Config, s0: State, front: seq<Action>, more: seq<Action>, s: State)
    requires After(cfg, s0, front + more) == Some(s)
    ensures After(cfg, s0, front).Some?
    decreases |more|
  {
    hide Apply;
    if more == [] {
      assert front + more == front;
    } else {
      var all := front + more;
      assert all[..|all| - 1] == front + more[..|more| - 1];
      FrontRuns(cfg, s0, front, more[..|more| - 1], After(cfg, s0, all[..|all| - 1]).value);
    }
  }

  // ---------------------------------------------------------------------------
  // Whoever comes too late is refused

  lemma LateStep(cfg: Config, s: State, a: Action, s': State, c: Call, ctx: Context, r: Result)
    requires Apply(cfg, s, a) == Some(s') && c in s.procs && !s.procs[c].push && s.procs[c].ctx == ctx
    requires ctx in s.contexts && !s.contexts[ctx].Live?
    requires r == if s.contexts[ctx].Cancelled? then ErrCanceled else ErrDeadline
    requires s.procs[c].pc == Begin || s.procs[c].pc == Returned(r)
    ensures c in s'.procs && s'.procs[c] == s.procs[c].(pc := s'.procs[c].pc)
    ensures s'.procs[c].pc == Begin || s'.procs[c].pc == Returned(r)
    ensures ctx in s'.contexts && s'.contexts[ctx] == s.contexts[ctx]
  {
    if a.Move? && a.c != c {
      hide NextOf;
    }
  }

  /** A `WriteBlob` call under a context that has ended before it came stores nothing and trusts nothing: the
      only thing it ever returns is that context's error. */
  lemma {:induction false} LateCallsAreRefused(
    cfg: Config, s0: State, before: seq<Action>, t: State, c: Call, d: Digest, size: int, ctx: Context,
    more: seq<Action>, s: State)
    requires After(cfg, s0, before) == Some(t) && ctx in t.contexts && !t.contexts[ctx].Live?
    requires After(cfg, s0, before + [Action.Arrive(c, false, d, size, ctx)] + more) == Some(s)
    ensures c in s.procs && !s.procs[c].push && s.procs[c].ctx == ctx
    ensures ctx in s.contexts && s.contexts[ctx] == t.contexts[ctx]
    ensures s.procs[c].pc == Begin
            || s.procs[c].pc == Returned(if t.contexts[ctx].Cancelled? then ErrCanceled else ErrDeadline)
    decreases |more|
  {
    var arrival := before + [Action.Arrive(c, false, d, size, ctx)];
    var all := arrival + more;
    if more == [] {
      assert all == arrival && arrival[..|arrival| - 1] == before;
    } else {
      hide Apply;
      assert all[..|all| - 1] == arrival + more[..|more| - 1] && all[|all| - 1] == more[|more| - 1];
      var u := After(cfg, s0, all[..|all| - 1]).value;
      LateCallsAreRefused(cfg, s0, before, t, c, d, size, ctx, more[..|more| - 1], u);
      LateStep(cfg, u, more[|more| - 1], s, c, ctx,
               if t.contexts[ctx].Cancelled? then ErrCanceled else ErrDeadline);
    }
  }

  // ---------------------------------------------------------------------------
  // One step more of a run

  lemma Then(cfg: Config, s0: State, actions: seq<Action>, s: State, a: Action) returns (more: seq<Action>)
    requires After(cfg, s0, actions) == Some(s)
    ensures After(cfg, s0, more) == Apply(cfg, s, a)
  {
    more := actions + [a];
    assert more[..|more| - 1] == actions;
  }

  /** One more step of a call, which is known to go to `pc` with effect `e`. */
  lemma Moves(cfg: Config, s0: State, actions: seq<Action>, s: State, c: Call, choice: Choice, pc: Pc, e: Effect)
    returns (more: seq<Action>, s': State)
    requires After(cfg, s0, actions) == Some(s)
    requires c in s.procs && NextOf(cfg, s, c, s.procs[c], choice) == Go(pc, e)
    ensures After(cfg, s0, more) == Some(s') && s'.contexts == s.contexts
    ensures s'.files == if e.Rename? then s.files[s.procs[c].digest := e.bytes] else s.files
    ensures e.TakePermit? && s.permits > 0 ==> s'.permits == s.permits - 1
    ensures !e.TakePermit? ==> s'.permits == s.permits + if e.GivePermit? then 1 else 0
    ensures s'.inFlight == s.inFlight + if e.Enter? then 1 else if e.Exit? then -1 else 0
    ensures s'.peak == if e.Raise? then e.to else s.peak
    ensures s'.flights == if e.Lead? then s.flights[s.procs[c].digest := c]
                          else if e.Deliver? then s.flights - {s.procs[c].digest} else s.flights
    ensures forall x | x in s.procs :: x in s'.procs && s'.procs[x] == NewProc(s.procs[x], x == c, c, pc, e)
  {
    hide NextOf, After;
    more := Then(cfg, s0, actions, s, Move(c, choice));
    s' := Perform(s, c, pc, e);
  }

  // ---------------------------------------------------------------------------
  // A new call can succeed

  /** Call `c`, never hindered so far, is at `pc`. */
  ghost predicate IsAt(s: State, c: Call, push: bool, d: Digest, size: int, ctx: Context, pc: Pc, files: Files) {
    && c in s.procs && s.procs[c] == Proc(push, d, size, ctx, pc, 1, [], false)
    && (ctx in s.contexts ==> s.contexts[ctx] == Live) && s.files == files
  }

  /** A file the protocol takes for the blob without reading it. */
  predicate Trusted(files: Files, push: bool, d: Digest, size: int) {
    d in files && (push || if size > 0 then |files[d]| == size else |files[d]| > 0)
  }

  /** A step of such a call, which stays unhindered. */
  lemma GoesOn(
    cfg: Config, s0: State, before: seq<Action>, s: State, c: Call, push: bool, d: Digest, size: int, ctx: Context,
    files: Files, choice: Choice, pc: Pc, pc': Pc, e: Effect)
    returns (actions: seq<Action>, t: State)
    requires After(cfg, s0, before) == Some(s) && IsAt(s, c, push, d, size, ctx, pc, files)
    requires NextOf(cfg, s, c, Proc(push, d, size, ctx, pc, 1, [], false), choice) == Go(pc', e)
    requires !e.Note? && !e.Blame?
    ensures After(cfg, s0, actions) == Some(t)
    ensures IsAt(t, c, push, d, size, ctx, pc', if e.Rename? then files[d := e.bytes] else files)
    ensures t.inFlight == s.inFlight + if e.Enter? then 1 else if e.Exit? then -1 else 0
    ensures t.peak == if e.Raise? then e.to else s.peak
  {
    hide After, NextOf;
    actions, t := Moves(cfg, s0, before, s, c, choice, pc', e);
  }

  lemma Enters(
    cfg: Config, s0: State, before: seq<Action>, s: State,
    c: Call, push: bool, d: Digest, size: int, ctx: Context, files: Files)
    returns (actions: seq<Action>, t: State)
    requires After(cfg, s0, before) == Some(s) && IsAt(s, c, push, d, size, ctx, Acquire, files) && s.permits > 0
    ensures After(cfg, s0, actions) == Some(t)
    ensures IsAt(t, c, push, d, size, ctx, if push then Create else Recheck, files)
  {
    hide After, IsAt;
    var body, cur := if push then Create else Recheck, s.inFlight + 1;
    actions, t := GoesOn(cfg, s0, before, s, c, push, d, size, ctx, files, Works, Acquire, Count, TakePermit);
    actions, t := GoesOn(cfg, s0, actions, t, c, push, d, size, ctx, files, Works, Count, CasLoad(cur), Enter);
    actions, t := PassesTheMark(cfg, s0, actions, t, c, push, d, size, ctx, files, cur);
  }

  lemma PassesTheMark(
    cfg: Config, s0: State, before: seq<Action>, s: State,
    c: Call, push: bool, d: Digest, size: int, ctx: Context, files: Files, cur: int)
    returns (actions: seq<Action>, t: State)
    requires After(cfg, s0, before) == Some(s) && IsAt(s, c, push, d, size, ctx, CasLoad(cur), files)
    ensures After(cfg, s0, actions) == Some(t)
    ensures IsAt(t, c, push, d, size, ctx, if push then Create else Recheck, files)
  {
    hide After, IsAt;
    var body, swap := if push then Create else Recheck, CasSwap(cur, s.peak);
    if cur <= s.peak {
      actions, t := GoesOn(cfg, s0, before, s, c, push, d, size, ctx, files, Works, CasLoad(cur), body, Quiet);
    } else {
      actions, t := GoesOn(cfg, s0, before, s, c, push, d, size, ctx, files, Works, CasLoad(cur), swap, Quiet);
      actions, t := GoesOn(cfg, s0, actions, t, c, push, d, size, ctx, files, Works, swap, body, Raise(cur));
    }
  }

  /** The context is alive and the file not to be trusted, which the steps up to the copy look at. */
  lemma Looks(
    cfg: Config, s0: State, before: seq<Action>, s: State,
    c: Call, d: Digest, size: int, ctx: Context, files: Files)
    returns (actions: seq<Action>, t: State)
    requires After(cfg, s0, before) == Some(s) && !Trusted(files, false, d, size)
    requires IsAt(s, c, false, d, size, ctx, Recheck, files)
    ensures After(cfg, s0, actions) == Some(t) && IsAt(t, c, false, d, size, ctx, Create, files)
  {
    hide After;
    actions, t := GoesOn(cfg, s0, before, s, c, false, d, size, ctx, files, Works, Recheck, CheckCtx, Quiet);
    actions, t := GoesOn(cfg, s0, actions, t, c, false, d, size, ctx, files, Works, CheckCtx, Create, Quiet);
  }

  lemma Opens(
    cfg: Config, s0: State, before: seq<Action>, s: State,
    c: Call, push: bool, d: Digest, size: int, ctx: Context, files: Files)
    returns (actions: seq<Action>, t: State)
    requires After(cfg, s0, before) == Some(s) && IsAt(s, c, push, d, size, ctx, Create, files)
    ensures After(cfg, s0, actions) == Some(t) && IsAt(t, c, push, d, size, ctx, Copy, files)
  {
    hide After, IsAt;
    if push {
      actions, t := GoesOn(cfg, s0, before, s, c, push, d, size, ctx, files, Works, Create, Copy, MakeTemp);
    } else {
      actions, t := GoesOn(cfg, s0, before, s, c, push, d, size, ctx, files, Works, Create, Open, MakeTemp);
      actions, t := GoesOn(cfg, s0, actions, t, c, push, d, size, ctx, files, Works, Open, Copy, Quiet);
    }
  }

  lemma Commits(
    cfg: Config, s0: State, before: seq<Action>, s: State,
    c: Call, push: bool, d: Digest, size: int, ctx: Context, files: Files, b: Bytes)
    returns (actions: seq<Action>, t: State)
    requires After(cfg, s0, before) == Some(s) && RightBytes(cfg.codec, push, d, size, b)
    requires IsAt(s, c, push, d, size, ctx, Copy, files)
    ensures After(cfg, s0, actions) == Some(t) && IsAt(t, c, push, d, size, ctx, Cleanup(Nil), files[d := b])
  {
    hide After, IsAt;
    actions, t := GoesOn(cfg, s0, before, s, c, push, d, size, ctx, files, Yields(b), Copy, Verify(b), Quiet);
    actions, t := GoesOn(cfg, s0, actions, t, c, push, d, size, ctx, files, Works, Verify(b), Commit(b), Quiet);
    actions, t := GoesOn(cfg, s0, actions, t, c, push, d, size, ctx, files, Works, Commit(b), Cleanup(Nil), Rename(b));
  }

  lemma LeavesTheSlot(
    cfg: Config, s0: State, before: seq<Action>, s: State,
    c: Call, push: bool, d: Digest, size: int, ctx: Context, files: Files)
    returns (actions: seq<Action>, t: State)
    requires After(cfg, s0, before) == Some(s) && IsAt(s, c, push, d, size, ctx, Cleanup(Nil), files)
    ensures After(cfg, s0, actions) == Some(t)
    ensures IsAt(t, c, push, d, size, ctx, if push then Returned(Nil) else Finish(Nil), files)
  {
    hide After, IsAt;
    var end := if push then Returned(Nil) else Finish(Nil);
    actions, t := GoesOn(cfg, s0, before, s, c, push, d, size, ctx, files, Works, Cleanup(Nil), Leave(Nil), DropTemp);
    actions, t := GoesOn(cfg, s0, actions, t, c, push, d, size, ctx, files, Works, Leave(Nil), Release(Nil), Exit);
    actions, t := GoesOn(cfg, s0, actions, t, c, push, d, size, ctx, files, Works, Release(Nil), end, GivePermit);
  }

  lemma EndsFlight(
    cfg: Config, s0: State, before: seq<Action>, s: State,
    c: Call, d: Digest, size: int, ctx: Context, files: Files)
    returns (actions: seq<Action>, t: State)
    requires After(cfg, s0, before) == Some(s) && IsAt(s, c, false, d, size, ctx, Finish(Nil), files)
    ensures After(cfg, s0, actions) == Some(t) && IsAt(t, c, false, d, size, ctx, Returned(Nil), files)
  {
    hide After, IsAt;
    var got := Got(Nil, c);
    actions, t := GoesOn(cfg, s0, before, s, c, false, d, size, ctx, files, Works, Finish(Nil), got, Deliver(Nil));
    actions, t := GoesOn(cfg, s0, actions, t, c, false, d, size, ctx, files, Works, got, Returned(Nil), Quiet);
  }

  lemma StartsWriting(
    cfg: Config, s0: State, before: seq<Action>, s: State,
    c: Call, push: bool, d: Digest, size: int, ctx: Context, files: Files)
    returns (actions: seq<Action>, t: State)
    requires After(cfg, s0, before) == Some(s) && !Trusted(files, push, d, size) && d !in s.flights && s.permits > 0
    requires IsAt(s, c, push, d, size, ctx, FastPath, files)
    ensures After(cfg, s0, actions) == Some(t) && t.permits > 0
    ensures IsAt(t, c, push, d, size, ctx, Acquire, files)
  {
    hide After;
    if push {
      actions, t := Moves(cfg, s0, before, s, c, Works, Acquire, Quiet);
    } else {
      actions, t := Moves(cfg, s0, before, s, c, Works, Join, Quiet);
      actions, t := Moves(cfg, s0, actions, t, c, Works, Acquire, Lead);
    }
  }

  lemma Arrives(
    cfg: Config, s0: State, before: seq<Action>, s: State,
    c: Call, push: bool, d: Digest, size: int, ctx: Context)
    returns (actions: seq<Action>, t: State)
    requires After(cfg, s0, before) == Some(s) && c !in s.procs && (ctx in s.contexts ==> s.contexts[ctx] == Live)
    ensures After(cfg, s0, actions) == Some(t) && t.permits == s.permits && t.flights == s.flights
    ensures IsAt(t, c, push, d, size, ctx, FastPath, s.files)
  {
    actions := Then(cfg, s0, before, s, Action.Arrive(c, push, d, size, ctx));
    t := s.(procs := s.procs[c := Proc(push, d, size, ctx, Begin, 1, [], false)]);
    hide After;
    actions, t := Moves(cfg, s0, actions, t, c, Works, FastPath, Quiet);
  }

  lemma TrustsTheFile(
    cfg: Config, s0: State, before: seq<Action>, s: State,
    c: Call, push: bool, d: Digest, size: int, ctx: Context, files: Files)
    returns (actions: seq<Action>, t: State)
    requires After(cfg, s0, before) == Some(s) && Trusted(files, push, d, size)
    requires IsAt(s, c, push, d, size, ctx, FastPath, files)
    ensures After(cfg, s0, actions) == Some(t) && IsAt(t, c, push, d, size, ctx, Returned(Nil), files)
  {
    hide After;
    actions, t := Moves(cfg, s0, before, s, c, Works, Returned(Nil), Quiet);
  }

  /** From any moment of any run, a new call whose context lives, while a permit is free and no flight for
      its digest is open, can return nil; its bytes are then at the path, unless a file was there that the
      protocol trusts without reading it, which is left alone. */
  lemma ANewCallCanSucceed(
    cfg: Config, s0: State, before: seq<Action>, s: State,
    c: Call, push: bool, d: Digest, size: int, ctx: Context, b: Bytes)
    returns (actions: seq<Action>, t: State)
    requires After(cfg, s0, before) == Some(s) && c !in s.procs && d !in s.flights && s.permits > 0
    requires ctx in s.contexts ==> s.contexts[ctx] == Live
    requires d.alg == "sha256" && cfg.codec.hash("sha256", b) == d.hex && (!push && size > 0 ==> |b| == size)
    ensures After(cfg, s0, actions) == Some(t) && c in t.procs && t.procs[c].pc == Returned(Nil)
    ensures t.files == if d in s.files && (push || if size > 0 then |s.files[d]| == size else |s.files[d]| > 0)
                       then s.files else s.files[d := b]
  {
    hide After, IsAt;
    actions, t := Arrives(cfg, s0, before, s, c, push, d, size, ctx);
    if Trusted(s.files, push, d, size) {
      actions, t := TrustsTheFile(cfg, s0, actions, t, c, push, d, size, ctx, s.files);
      Standing(t, c, push, d, size, ctx, Returned(Nil), s.files);
    } else {
      actions, t := StartsWriting(cfg, s0, actions, t, c, push, d, size, ctx, s.files);
      actions, t := Enters(cfg, s0, actions, t, c, push, d, size, ctx, s.files);
      if !push {
        actions, t := Looks(cfg, s0, actions, t, c, d, size, ctx, s.files);
      }
      actions, t := Opens(cfg, s0, actions, t, c, push, d, size, ctx, s.files);
      actions, t := Commits(cfg, s0, actions, t, c, push, d, size, ctx, s.files, b);
      actions, t := LeavesTheSlot(cfg, s0, actions, t, c, push, d, size, ctx, s.files[d := b]);
      if !push {
        actions, t := EndsFlight(cfg, s0, actions, t, c, d, size, ctx, s.files[d := b]);
      }
      Standing(t, c, push, d, size, ctx, Returned(Nil), s.files[d := b]);
    }
  }

  lemma Standing(s: State, c: Call, push: bool, d: Digest, size: int, ctx: Context, pc: Pc, files: Files)
    requires IsAt(s, c, push, d, size, ctx, pc, files)
    ensures c in s.procs && s.procs[c].pc == pc && s.files == files
  {
  }
}
