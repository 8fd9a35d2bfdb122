/** What every interleaving of the blob write protocol keeps. */
module BlobProtocol {
  import opened Content
  import opened BlobWriter

  predicate HasPermit(pc: Pc) {
    || pc.Count? || pc.CasLoad? || pc.CasSwap? || pc.Recheck? || pc.CheckCtx? || pc.Create? || pc.Open? || pc.Copy?
    || pc.Verify? || pc.Commit? || pc.Cleanup? || pc.Leave? || pc.Release?
  }

  predicate IsInside(pc: Pc) {
    HasPermit(pc) && !pc.Count? && !pc.Release?
  }

  predicate InCas(pc: Pc) {
    pc.CasLoad? || pc.CasSwap?
  }

  /** Inside `writeBlobOnce`. */
  predicate InOnce(pc: Pc) {
    IsInside(pc) && !InCas(pc) && !pc.Leave?
  }

  /** Running the function of a flight. */
  predicate Leads(p: Proc) {
    !p.push && (p.pc.Acquire? || HasPermit(p.pc) || p.pc.Finish?)
  }

  predicate MayHaveTemp(pc: Pc) {
    pc.Open? || pc.Copy? || pc.Verify? || pc.Commit? || pc.Cleanup?
  }

  function ResultOf(pc: Pc): Option<Result> {
    match pc
    case Cleanup(r) => Some(r)
    case Leave(r) => Some(r)
    case Release(r) => Some(r)
    case Finish(r) => Some(r)
    case Got(r, _) => Some(r)
    case Returned(r) => Some(r)
    case _ => None
  }

  // ---------------------------------------------------------------------------
  // How a program counter moves, and with which effect

  ghost predicate Steps(cfg: Config, s: State, c: Call, pc: Pc, e: Effect) {
    c in s.procs && exists choice :: NextOf(cfg, s, c, s.procs[c], choice) == Go(pc, e)
  }

  /** Permits, the counter and the high-water mark. */
  lemma PermitsFollowThePc(cfg: Config, s: State, c: Call, pc: Pc, e: Effect)
    requires Steps(cfg, s, c, pc, e)
    ensures var p := s.procs[c];
            && (e.TakePermit? <==> !HasPermit(p.pc) && HasPermit(pc))
            && (e.GivePermit? <==> HasPermit(p.pc) && !HasPermit(pc))
            && (e.TakePermit? ==> s.permits > 0)
  {
    hide MayHaveTemp, Expected, Present, ContextOf, Leads;
  }

  lemma EntersFollowThePc(cfg: Config, s: State, c: Call, pc: Pc, e: Effect)
    requires Steps(cfg, s, c, pc, e)
    ensures e.Enter? <==> !IsInside(s.procs[c].pc) && IsInside(pc)
  {
  }

  lemma ExitsFollowThePc(cfg: Config, s: State, c: Call, pc: Pc, e: Effect)
    requires Steps(cfg, s, c, pc, e)
    ensures e.Exit? <==> IsInside(s.procs[c].pc) && !IsInside(pc)
  {
  }

  lemma CountingMoves(cfg: Config, s: State, c: Call, pc: Pc, e: Effect)
    requires Steps(cfg, s, c, pc, e)
    ensures var p := s.procs[c];
            && (e.TakePermit? <==> !HasPermit(p.pc) && HasPermit(pc))
            && (e.GivePermit? <==> HasPermit(p.pc) && !HasPermit(pc))
            && (e.Enter? <==> !IsInside(p.pc) && IsInside(pc))
            && (e.Exit? <==> IsInside(p.pc) && !IsInside(pc))
            && (e.TakePermit? ==> s.permits > 0)
  {
    hide Steps, HasPermit, IsInside;
    PermitsFollowThePc(cfg, s, c, pc, e);
    EntersFollowThePc(cfg, s, c, pc, e);
    ExitsFollowThePc(cfg, s, c, pc, e);
  }

  /** The value a call is still trying to publish; zero when it is not in the loop. */
  function Claim(pc: Pc): int {
    match pc
    case CasLoad(cur) => cur
    case CasSwap(cur, _) => cur
    case _ => 0
  }

  /** A swap is only tried to raise the mark that was read. */
  predicate Raises(pc: Pc) {
    pc.CasSwap? ==> pc.seen < pc.cur
  }

  lemma PeakMoves(cfg: Config, s: State, c: Call, pc: Pc, e: Effect)
    requires Steps(cfg, s, c, pc, e) && Raises(s.procs[c].pc)
    ensures Raises(pc)
    ensures e.Enter? ==> Claim(pc) == s.inFlight + 1 && Claim(s.procs[c].pc) == 0
    ensures e.Raise? ==> e.to == Claim(s.procs[c].pc) > s.peak
    ensures !e.Enter? && Claim(pc) != Claim(s.procs[c].pc) ==>
              Claim(pc) == 0 && (e.Raise? || Claim(s.procs[c].pc) <= s.peak)
  {
    hide HasPermit, MayHaveTemp, Expected, Present, ContextOf;
  }

  /** A push never joins a flight. */
  predicate PushAlone(p: Proc) {
    p.push ==> !p.pc.Join? && !p.pc.Wait? && !p.pc.Got? && !p.pc.Finish?
  }

  lemma FlightsOpenAndEnd(cfg: Config, s: State, c: Call, pc: Pc, e: Effect)
    requires Steps(cfg, s, c, pc, e) && PushAlone(s.procs[c])
    ensures var p := s.procs[c]; var p' := p.(pc := pc);
            && (e.Lead? <==> !Leads(p) && Leads(p'))
            && (Leads(p) && !Leads(p') ==> e.Deliver?)
            && (e.Lead? ==> p.pc.Join? && p.digest !in s.flights)
  {
    hide MayHaveTemp, Expected, Present, ContextOf;
  }

  lemma FlightsAreJoined(cfg: Config, s: State, c: Call, pc: Pc, e: Effect)
    requires Steps(cfg, s, c, pc, e) && PushAlone(s.procs[c])
    ensures var p := s.procs[c]; var p' := p.(pc := pc);
            && (e.Deliver? <==> p.pc.Finish?)
            && (e.Deliver? ==> pc == Got(e.res, c) && p.pc == Finish(e.res))
            && (pc.Wait? ==> p.pc.Join? && p.digest in s.flights && pc == Wait(s.flights[p.digest]))
            && (pc.Join? ==> (!p.push && p.pc.FastPath?) || p.pc.Got?)
            && (pc.Got? ==> e.Deliver?)
            && (pc.Finish? ==> !p.push)
            && !p.pc.Wait?
  {
    hide HasPermit, MayHaveTemp, Expected, Present, ContextOf, Leads;
  }

  lemma FlightMoves(cfg: Config, s: State, c: Call, pc: Pc, e: Effect)
    requires Steps(cfg, s, c, pc, e) && PushAlone(s.procs[c])
    ensures var p := s.procs[c]; var p' := p.(pc := pc);
            && (e.Lead? <==> !Leads(p) && Leads(p'))
            && (e.Lead? ==> p.pc.Join? && p.digest !in s.flights)
            && (e.Deliver? <==> p.pc.Finish?)
            && (e.Deliver? ==> pc == Got(e.res, c) && p.pc == Finish(e.res))
            && (Leads(p) && !Leads(p') ==> e.Deliver?)
            && (pc.Wait? ==> p.pc.Join? && p.digest in s.flights && pc == Wait(s.flights[p.digest]))
            && (pc.Join? ==> (!p.push && p.pc.FastPath?) || p.pc.Got?)
            && (pc.Got? ==> e.Deliver?)
            && (pc.Finish? ==> !p.push)
            && !p.pc.Wait?
  {
    hide Steps, HasPermit, Leads, MayHaveTemp, Expected, Present, ContextOf;
    FlightsOpenAndEnd(cfg, s, c, pc, e);
    FlightsAreJoined(cfg, s, c, pc, e);
  }

  lemma RenamesAreChecked(cfg: Config, s: State, c: Call, pc: Pc, e: Effect)
    requires Steps(cfg, s, c, pc, e)
    ensures var p := s.procs[c];
            && (e.Rename? ==> p.pc == Commit(e.bytes) && pc == Cleanup(Nil))
            && (pc.Commit? ==> Expected(cfg, p, pc.bytes))
  {
  }

  lemma TempFilesAreDropped(cfg: Config, s: State, c: Call, pc: Pc, e: Effect)
    requires Steps(cfg, s, c, pc, e)
    ensures var p := s.procs[c];
            && (e.MakeTemp? ==> MayHaveTemp(pc))
            && (MayHaveTemp(p.pc) && !MayHaveTemp(pc) ==> e.DropTemp?)
            && (p.pc.Recheck? ==> pc == if Present(s, p) then Leave(Nil) else CheckCtx)
            && (pc.Recheck? ==> !p.push)
  {
  }

  lemma FileMoves(cfg: Config, s: State, c: Call, pc: Pc, e: Effect)
    requires Steps(cfg, s, c, pc, e)
    ensures var p := s.procs[c];
            && (e.Rename? ==> p.pc == Commit(e.bytes) && pc == Cleanup(Nil))
            && (pc.Commit? ==> Expected(cfg, p, pc.bytes))
            && (e.MakeTemp? ==> MayHaveTemp(pc))
            && (MayHaveTemp(p.pc) && !MayHaveTemp(pc) ==> e.DropTemp?)
            && (p.pc.Recheck? ==> pc == if Present(s, p) then Leave(Nil) else CheckCtx)
            && (pc.Recheck? ==> !p.push)
  {
    hide Steps, HasPermit, Leads, MayHaveTemp, Expected, Present, ContextOf;
    RenamesAreChecked(cfg, s, c, pc, e);
    TempFilesAreDropped(cfg, s, c, pc, e);
  }

  lemma ResultsAreKept(cfg: Config, s: State, c: Call, pc: Pc, e: Effect)
    requires Steps(cfg, s, c, pc, e)
    ensures var p := s.procs[c]; var r, r' := ResultOf(p.pc), ResultOf(pc);
            && (r.Some? && r'.Some? ==> r' == r)
            && (r.Some? && r'.None? ==> p.pc.Got? && pc.Join? && e == Note(p.pc.from, true))
            && !p.pc.Returned? && (pc.Returned? && r.Some? && !p.push ==> p.pc.Got?)
  {
  }

  lemma ResultsArise(cfg: Config, s: State, c: Call, pc: Pc, e: Effect)
    requires Steps(cfg, s, c, pc, e)
    ensures var p := s.procs[c]; var r, r' := ResultOf(p.pc), ResultOf(pc);
            && (r.None? && r' == Some(ErrCanceled) ==> ContextOf(s, p) == Cancelled || e.Blame?)
            && (e.Blame? ==> pc == Cleanup(ErrCanceled))
            && (r.None? && r' == Some(Nil) ==> e.Rename? || Present(s, p) || (p.push && p.digest in s.files))
  {
  }

  lemma CancellationsAreNoted(cfg: Config, s: State, c: Call, pc: Pc, e: Effect)
    requires Steps(cfg, s, c, pc, e)
    ensures var p := s.procs[c]; var r, r' := ResultOf(p.pc), ResultOf(pc);
            && (e.Note? ==> p.pc == Got(ErrCanceled, e.from) && (pc == Join || pc == Returned(ErrCanceled)))
            && (e.Note? ==> (e.again <==> pc == Join) && (e.again <==> p.attempt == 1 && ContextOf(s, p) == Live))
            && (p.pc.Got? && p.pc.res.ErrCanceled? ==> e.Note?)
  {
  }

  lemma ResultMoves(cfg: Config, s: State, c: Call, pc: Pc, e: Effect)
    requires Steps(cfg, s, c, pc, e)
    ensures var p := s.procs[c]; var r, r' := ResultOf(p.pc), ResultOf(pc);
            && (r.Some? && r'.Some? ==> r' == r)
            && (r.Some? && r'.None? ==> p.pc.Got? && pc.Join? && e == Note(p.pc.from, true))
            && (r.None? && r' == Some(ErrCanceled) ==> ContextOf(s, p) == Cancelled || e.Blame?)
            && (e.Blame? ==> pc == Cleanup(ErrCanceled))
            && (r.None? && r' == Some(Nil) ==> e.Rename? || Present(s, p) || (p.push && p.digest in s.files))
            && (e.Note? ==> p.pc == Got(ErrCanceled, e.from) && (pc == Join || pc == Returned(ErrCanceled)))
            && (e.Note? ==> (e.again <==> pc == Join) && (e.again <==> p.attempt == 1 && ContextOf(s, p) == Live))
            && (p.pc.Got? && p.pc.res.ErrCanceled? ==> e.Note?)
            && !p.pc.Returned? && (pc.Returned? && r.Some? && !p.push ==> p.pc.Got?)
  {
    hide Steps, HasPermit, Leads, MayHaveTemp, Expected, Present, ContextOf;
    ResultsAreKept(cfg, s, c, pc, e);
    ResultsArise(cfg, s, c, pc, e);
    CancellationsAreNoted(cfg, s, c, pc, e);
  }

  // ---------------------------------------------------------------------------
  // What an effect leaves, field by field

  predicate Stable(p: Proc, p': Proc) {
    p'.push == p.push && p'.digest == p.digest && p'.size == p.size && p'.ctx == p.ctx
  }

  function NewPc(p: Proc, mine: bool, c: Call, pc: Pc, e: Effect): Pc {
    if mine then pc else if e.Deliver? && p.pc == Wait(c) then Got(e.res, c) else p.pc
  }

  /** Neither a waiting call nor one that has its result holds anything. */
  lemma WaitingHoldsNothing(c: Call, r: Result, from: Call)
    ensures !HasPermit(Wait(c)) && !HasPermit(Got(r, from)) && !IsInside(Wait(c)) && !IsInside(Got(r, from))
    ensures Claim(Wait(c)) == Claim(Got(r, from)) == 0 && Raises(Got(r, from))
    ensures !MayHaveTemp(Wait(c)) && !MayHaveTemp(Got(r, from))
  {
  }

  /** The program counters after a step. */
  ghost predicate PcsAfter(s: State, c: Call, pc: Pc, e: Effect, s': State) {
    && c in s.procs && s'.procs.Keys == s.procs.Keys
    && forall x | x in s.procs :: s'.procs[x].pc == NewPc(s.procs[x], x == c, c, pc, e)
  }

  /** What never changes about a call, and what does only when it notes a cancelled flight. */
  ghost predicate CallsAfter(s: State, c: Call, e: Effect, s': State) {
    && s'.procs.Keys == s.procs.Keys && s'.contexts == s.contexts
    && forall x | x in s.procs ::
         && Stable(s.procs[x], s'.procs[x])
         && Noted(s.procs[x], s'.procs[x], x == c, e)
  }

  predicate Noted(p: Proc, p': Proc, mine: bool, e: Effect) {
    && p'.blamed == (p.blamed || (mine && e.Blame?))
    && if mine && e.Note? then
         p'.cancels == p.cancels + [e.from] && p'.attempt == if e.again then 2 else p.attempt
       else p'.cancels == p.cancels && p'.attempt == p.attempt
  }

  ghost predicate PermitsAfter(s: State, c: Call, e: Effect, s': State) {
    && s'.holders == (if e.TakePermit? && s.permits > 0 then s.holders + {c}
                      else if e.GivePermit? then s.holders - {c} else s.holders)
    && s'.permits == s.permits + (if e.TakePermit? && s.permits > 0 then -1 else if e.GivePermit? then 1 else 0)
  }

  ghost predicate InsideAfter(s: State, c: Call, e: Effect, s': State) {
    && s'.inside == (if e.Enter? then s.inside + {c} else if e.Exit? then s.inside - {c} else s.inside)
    && s'.inFlight == s.inFlight + (if e.Enter? then 1 else if e.Exit? then -1 else 0)
  }

  ghost predicate PeakAfter(s: State, e: Effect, s': State) {
    && s'.inFlight == s.inFlight + (if e.Enter? then 1 else if e.Exit? then -1 else 0)
    && s'.highest == (if e.Enter? && s.inFlight + 1 > s.highest then s.inFlight + 1 else s.highest)
    && s'.peak == if e.Raise? then e.to else s.peak
  }

  ghost predicate FlightsAfter(s: State, c: Call, e: Effect, s': State)
    requires c in s.procs
  {
    var d := s.procs[c].digest;
    s'.flights == if e.Lead? then s.flights[d := c] else if e.Deliver? then s.flights - {d} else s.flights
  }

  ghost predicate FilesAfter(s: State, c: Call, e: Effect, s': State)
    requires c in s.procs
  {
    var d := s.procs[c].digest;
    && s'.files == (if e.Rename? then s.files[d := e.bytes] else s.files)
    && s'.commits == if e.Rename? then s.commits[d := CommitCount(s, d) + 1] else s.commits
  }

  ghost predicate TempsAfter(s: State, c: Call, e: Effect, s': State) {
    s'.temps == if e.MakeTemp? then s.temps + {c} else if e.DropTemp? || e.Rename? then s.temps - {c} else s.temps
  }

  lemma NewProcShape(p: Proc, mine: bool, c: Call, pc: Pc, e: Effect)
    ensures var p' := NewProc(p, mine, c, pc, e);
            Stable(p, p') && p'.pc == NewPc(p, mine, c, pc, e) && Noted(p, p', mine, e)
  {
  }

  lemma ProcPerformed(s: State, c: Call, pc: Pc, e: Effect, x: Call)
    requires c in s.procs && x in s.procs
    ensures Perform(s, c, pc, e).procs[x] == NewProc(s.procs[x], x == c, c, pc, e)
  {
    hide NewProc, CommitCount;
  }

  lemma KeysPerformed(s: State, c: Call, pc: Pc, e: Effect)
    requires c in s.procs
    ensures Perform(s, c, pc, e).procs.Keys == s.procs.Keys && Perform(s, c, pc, e).contexts == s.contexts
  {
    hide NewProc, CommitCount;
  }

  lemma ProcsPerformed(s: State, c: Call, pc: Pc, e: Effect)
    requires c in s.procs
    ensures PcsAfter(s, c, pc, e, Perform(s, c, pc, e)) && CallsAfter(s, c, e, Perform(s, c, pc, e))
  {
    hide Perform, NewProc, NewPc, Stable, Noted;
    KeysPerformed(s, c, pc, e);
    forall x | x in s.procs
      ensures Stable(s.procs[x], Perform(s, c, pc, e).procs[x])
      ensures Noted(s.procs[x], Perform(s, c, pc, e).procs[x], x == c, e)
      ensures Perform(s, c, pc, e).procs[x].pc == NewPc(s.procs[x], x == c, c, pc, e)
    {
      NewProcShape(s.procs[x], x == c, c, pc, e);
      ProcPerformed(s, c, pc, e, x);
    }
  }

  lemma RestPerformed(s: State, c: Call, pc: Pc, e: Effect)
    requires c in s.procs
    ensures var s' := Perform(s, c, pc, e);
            && PermitsAfter(s, c, e, s') && InsideAfter(s, c, e, s') && PeakAfter(s, e, s')
            && FlightsAfter(s, c, e, s') && FilesAfter(s, c, e, s') && TempsAfter(s, c, e, s')
  {
  }

  // ---------------------------------------------------------------------------
  // The semaphore

  /** The permits taken are those of the calls that hold one; none is ever lost. */
  ghost predicate PermitsOk(cfg: Config, s: State) {
    && (forall c :: c in s.holders <==> c in s.procs && HasPermit(s.procs[c].pc))
    && s.permits + |s.holders| == cfg.ceiling
  }

  /** The in-flight counter is the number of calls between their increment and their decrement. */
  ghost predicate InsideOk(s: State) {
    && (forall c :: c in s.inside <==> c in s.procs && IsInside(s.procs[c].pc))
    && s.inFlight == |s.inside|
  }

  /** Who holds a permit, or is counted, changes for the call that moves only. */
  lemma OthersKeepTheirPlace(s: State, c: Call, pc: Pc, e: Effect, s': State, x: Call)
    requires PcsAfter(s, c, pc, e, s') && x in s.procs && x != c
    ensures HasPermit(s'.procs[x].pc) == HasPermit(s.procs[x].pc) && IsInside(s'.procs[x].pc) == IsInside(s.procs[x].pc)
  {
    hide HasPermit, IsInside;
    if e.Deliver? {
      WaitingHoldsNothing(c, e.res, c);
    }
  }

  lemma PermitsMove(cfg: Config, s: State, c: Call, pc: Pc, e: Effect, s': State)
    requires PermitsOk(cfg, s) && Steps(cfg, s, c, pc, e)
    requires PcsAfter(s, c, pc, e, s') && PermitsAfter(s, c, e, s')
    ensures PermitsOk(cfg, s')
  {
    hide Steps, HasPermit, IsInside;
    CountingMoves(cfg, s, c, pc, e);
    forall x ensures x in s'.holders <==> x in s'.procs && HasPermit(s'.procs[x].pc) {
      if x in s.procs && x != c {
        OthersKeepTheirPlace(s, c, pc, e, s', x);
      }
    }
    hide PcsAfter;
  }

  lemma InsideMove(cfg: Config, s: State, c: Call, pc: Pc, e: Effect, s': State)
    requires InsideOk(s) && Steps(cfg, s, c, pc, e)
    requires PcsAfter(s, c, pc, e, s') && InsideAfter(s, c, e, s')
    ensures InsideOk(s')
  {
    hide Steps, HasPermit, IsInside;
    CountingMoves(cfg, s, c, pc, e);
    forall x ensures x in s'.inside <==> x in s'.procs && IsInside(s'.procs[x].pc) {
      if x in s.procs && x != c {
        OthersKeepTheirPlace(s, c, pc, e, s', x);
      }
    }
    hide PcsAfter;
  }

  lemma InFlightWithinCeiling(cfg: Config, s: State)
    requires PermitsOk(cfg, s) && InsideOk(s)
    ensures s.inFlight <= |s.holders| <= cfg.ceiling
  {
    SubsetSize(s.inside, s.holders);
  }

  lemma {:induction false} SubsetSize(a: set<Call>, b: set<Call>)
    requires a <= b
    ensures |a| <= |b|
  {
    if a != {} {
      var x :| x in a;
      SubsetSize(a - {x}, b - {x});
    }
  }

  // ---------------------------------------------------------------------------
  // The high-water mark

  /** The mark only lags behind the true maximum while some call still has that maximum to publish. */
  ghost predicate PeakOk(s: State) {
    && 0 <= s.peak <= s.highest && s.inFlight <= s.highest
    && (forall c | c in s.procs :: Claim(s.procs[c].pc) <= s.highest && Raises(s.procs[c].pc))
    && (s.peak == s.highest || exists c :: c in s.procs && Claim(s.procs[c].pc) == s.highest)
  }

  lemma PeakMove(cfg: Config, s: State, c: Call, pc: Pc, e: Effect, s': State)
    requires PeakOk(s) && Steps(cfg, s, c, pc, e)
    requires PcsAfter(s, c, pc, e, s') && PeakAfter(s, e, s')
    ensures PeakOk(s') && s.peak <= s'.peak
  {
    hide Steps, Claim, Raises;
    PeakMoves(cfg, s, c, pc, e);
    if e.Deliver? {
      WaitingHoldsNothing(c, e.res, c);
    }
    assert s'.procs[c].pc == pc;
    forall x | x in s'.procs ensures Claim(s'.procs[x].pc) <= s'.highest && Raises(s'.procs[x].pc) {
    }
    if s'.peak != s'.highest {
      if s.peak != s.highest {
        var w :| w in s.procs && Claim(s.procs[w].pc) == s.highest;
        assert w != c ==> Claim(s'.procs[w].pc) == Claim(s.procs[w].pc);
      }
      assert Claim(s'.procs[c].pc) == s'.highest || s'.highest == s.highest;
    }
  }

  // ---------------------------------------------------------------------------
  // Flights and temp files

  predicate LeaderOf(s: State, d: Digest, c: Call) {
    d in s.flights && s.flights[d] == c
  }

  /** Running a flight's function or waiting for it, a call agrees with the flight table. */
  ghost predicate FlightOk(s: State, c: Call)
    requires c in s.procs
  {
    var p := s.procs[c];
    && (Leads(p) ==> LeaderOf(s, p.digest, c))
    && (p.pc.Wait? ==> LeaderOf(s, p.digest, p.pc.leader))
    && PushAlone(p)
  }

  /** A flight is led by the one call running its function; whoever waits, waits for that call. */
  ghost predicate FlightsOk(s: State) {
    && (forall d | d in s.flights ::
          s.flights[d] in s.procs && Leads(s.procs[s.flights[d]]) && s.procs[s.flights[d]].digest == d)
    && (forall c | c in s.procs :: FlightOk(s, c))
  }

  lemma FlightMoveOwn(cfg: Config, s: State, c: Call, pc: Pc, e: Effect, s': State)
    requires FlightsOk(s) && Steps(cfg, s, c, pc, e)
    requires PcsAfter(s, c, pc, e, s') && CallsAfter(s, c, e, s') && FlightsAfter(s, c, e, s')
    ensures FlightOk(s', c)
  {
    hide Steps, HasPermit;
    assert FlightOk(s, c);
    FlightMoves(cfg, s, c, pc, e);
    if e.Deliver? {
      WaitingHoldsNothing(c, e.res, c);
    }
  }

  lemma FlightMoveOther(cfg: Config, s: State, c: Call, pc: Pc, e: Effect, s': State, x: Call)
    requires FlightsOk(s) && Steps(cfg, s, c, pc, e) && x in s.procs && x != c
    requires PcsAfter(s, c, pc, e, s') && CallsAfter(s, c, e, s') && FlightsAfter(s, c, e, s')
    ensures FlightOk(s', x)
  {
    hide Steps, HasPermit, Noted;
    assert FlightOk(s, c) && FlightOk(s, x);
    FlightMoves(cfg, s, c, pc, e);
    hide FlightsOk, Leads;
    if e.Deliver? && s.procs[x].pc == Wait(c) {
      GotLeadsNothing(s'.procs[x]);
    } else {
      LeadsByPc(s.procs[x], s'.procs[x]);
    }
  }

  lemma FlightMove(cfg: Config, s: State, c: Call, pc: Pc, e: Effect, s': State, x: Call)
    requires FlightsOk(s) && Steps(cfg, s, c, pc, e) && x in s'.procs
    requires PcsAfter(s, c, pc, e, s') && CallsAfter(s, c, e, s') && FlightsAfter(s, c, e, s')
    ensures FlightOk(s', x)
  {
    hide FlightsOk, FlightOk, Steps, CallsAfter, FlightsAfter;
    if x == c {
      FlightMoveOwn(cfg, s, c, pc, e, s');
    } else {
      FlightMoveOther(cfg, s, c, pc, e, s', x);
    }
  }

  lemma FlightsMove(cfg: Config, s: State, c: Call, pc: Pc, e: Effect, s': State)
    requires FlightsOk(s) && Steps(cfg, s, c, pc, e)
    requires PcsAfter(s, c, pc, e, s') && CallsAfter(s, c, e, s') && FlightsAfter(s, c, e, s')
    ensures FlightsOk(s')
  {
    hide Steps, HasPermit;
    forall x | x in s'.procs ensures FlightOk(s', x) {
      FlightMove(cfg, s, c, pc, e, s', x);
    }
    assert FlightOk(s, c);
    FlightMoves(cfg, s, c, pc, e);
    forall d | d in s'.flights
      ensures s'.flights[d] in s'.procs && Leads(s'.procs[s'.flights[d]]) && s'.procs[s'.flights[d]].digest == d
    {
      if s'.flights[d] != c && e.Deliver? {
        assert !Leads(s.procs[c].(pc := pc));
      }
    }
  }

  /** A temp file belongs to a call that is still writing or about to remove it. */
  ghost predicate TempsOk(s: State) {
    forall c | c in s.temps :: c in s.procs && MayHaveTemp(s.procs[c].pc)
  }

  lemma TempsMove(cfg: Config, s: State, c: Call, pc: Pc, e: Effect, s': State)
    requires TempsOk(s) && Steps(cfg, s, c, pc, e)
    requires PcsAfter(s, c, pc, e, s') && TempsAfter(s, c, e, s')
    ensures TempsOk(s')
  {
    hide Steps, MayHaveTemp;
    FileMoves(cfg, s, c, pc, e);
    if e.Deliver? {
      WaitingHoldsNothing(c, e.res, c);
    }
  }

  // ---------------------------------------------------------------------------
  // The final path

  /** Only checked bytes are about to be renamed, and a nil result means the blob is there. */
  ghost predicate ByteOk(cfg: Config, s: State, p: Proc) {
    && (p.pc.Commit? ==> Expected(cfg, p, p.pc.bytes))
    && (ResultOf(p.pc) == Some(Nil) ==> p.digest in s.files)
  }

  ghost predicate BytesOk(cfg: Config, s: State) {
    forall c | c in s.procs :: ByteOk(cfg, s, s.procs[c])
  }

  /** A step leaves the blob directory alone, or puts at one path bytes that hash to its name. */
  ghost predicate Lands(c: Codec, files: Files, files': Files) {
    files' == files || exists d: Digest, b :: d.alg == CANONICAL && HashOk(c, d, b) && files' == files[d := b]
  }

  lemma FilesLand(cfg: Config, s: State, c: Call, pc: Pc, e: Effect, s': State)
    requires c in s.procs && BytesOk(cfg, s) && Steps(cfg, s, c, pc, e) && FilesAfter(s, c, e, s')
    ensures Lands(cfg.codec, s.files, s'.files)
  {
    hide Steps, MayHaveTemp, Present;
    assert ByteOk(cfg, s, s.procs[c]);
    FileMoves(cfg, s, c, pc, e);
    if e.Rename? {
      assert HashOk(cfg.codec, s.procs[c].digest, e.bytes);
    }
  }

  lemma ByteMoveOwn(cfg: Config, s: State, c: Call, pc: Pc, e: Effect, s': State)
    requires c in s.procs && ByteOk(cfg, s, s.procs[c]) && Steps(cfg, s, c, pc, e)
    requires PcsAfter(s, c, pc, e, s') && CallsAfter(s, c, e, s') && FilesAfter(s, c, e, s')
    ensures ByteOk(cfg, s', s'.procs[c])
  {
    hide Steps, MayHaveTemp;
    FileMoves(cfg, s, c, pc, e);
    ResultMoves(cfg, s, c, pc, e);
  }

  lemma ByteMoveOther(cfg: Config, s: State, c: Call, pc: Pc, e: Effect, s': State, x: Call)
    requires FlightsOk(s) && BytesOk(cfg, s) && Steps(cfg, s, c, pc, e) && x in s.procs && x != c
    requires PcsAfter(s, c, pc, e, s') && CallsAfter(s, c, e, s') && FilesAfter(s, c, e, s')
    ensures ByteOk(cfg, s', s'.procs[x])
  {
    hide Steps, HasPermit, Expected;
    assert FlightOk(s, c) && FlightOk(s, x) && ByteOk(cfg, s, s.procs[c]) && ByteOk(cfg, s, s.procs[x]);
    FlightMoves(cfg, s, c, pc, e);
    SameExpected(cfg, s.procs[x], s'.procs[x]);
  }

  lemma SameExpected(cfg: Config, p: Proc, p': Proc)
    requires Stable(p, p')
    ensures p.pc.Commit? && p'.pc == p.pc ==> Expected(cfg, p, p.pc.bytes) == Expected(cfg, p', p.pc.bytes)
  {
  }

  lemma BytesMove(cfg: Config, s: State, c: Call, pc: Pc, e: Effect, s': State)
    requires FlightsOk(s) && BytesOk(cfg, s) && Steps(cfg, s, c, pc, e)
    requires PcsAfter(s, c, pc, e, s') && CallsAfter(s, c, e, s') && FilesAfter(s, c, e, s')
    ensures BytesOk(cfg, s') && Lands(cfg.codec, s.files, s'.files)
  {
    hide Steps, ByteOk, FlightsOk, Lands, FilesAfter;
    FilesLand(cfg, s, c, pc, e, s');
    forall x | x in s'.procs ensures ByteOk(cfg, s', s'.procs[x]) {
      if x == c {
        ByteMoveOwn(cfg, s, c, pc, e, s');
      } else {
        ByteMoveOther(cfg, s, c, pc, e, s', x);
      }
    }
  }

  // ---------------------------------------------------------------------------
  // One commit per digest

  /** Only `WriteBlob` calls, all expecting `z > 0` bytes, work on `d`. */
  ghost predicate Uniform(s: State, d: Digest, z: int) {
    z > 0 && forall c | c in s.procs && s.procs[c].digest == d :: !s.procs[c].push && s.procs[c].size == z
  }

  predicate PastRecheck(pc: Pc) {
    pc.CheckCtx? || pc.Create? || pc.Open? || pc.Copy? || pc.Verify? || pc.Commit?
  }

  predicate Complete(s: State, d: Digest, z: int) {
    d in s.files && |s.files[d]| == z
  }

  /** Whoever is past the second look has seen no complete file, and nobody has made one since. */
  ghost predicate OnceOk(s: State, d: Digest, z: int) {
    && (forall c | c in s.procs && s.procs[c].digest == d && PastRecheck(s.procs[c].pc) :: !Complete(s, d, z))
    && CommitCount(s, d) <= 1
    && (CommitCount(s, d) == 1 ==> Complete(s, d, z))
  }

  lemma RecheckMoves(cfg: Config, s: State, c: Call, pc: Pc, e: Effect)
    requires Steps(cfg, s, c, pc, e) && !s.procs[c].push
    ensures PastRecheck(pc) ==> PastRecheck(s.procs[c].pc) || !Present(s, s.procs[c])
    ensures PastRecheck(s.procs[c].pc) ==> Leads(s.procs[c])
    ensures e.Rename? ==> s.procs[c].pc == Commit(e.bytes)
  {
  }

  /** On its own digest, a call commits only what makes the file complete, and alone. */
  lemma OnceMoveOwn(cfg: Config, s: State, c: Call, pc: Pc, e: Effect, d: Digest, z: int)
    requires FlightsOk(s) && BytesOk(cfg, s) && OnceOk(s, d, z) && Uniform(s, d, z) && Steps(cfg, s, c, pc, e)
    requires c in s.procs && s.procs[c].digest == d
    ensures PastRecheck(pc) ==> !Complete(s, d, z) && !e.Rename?
    ensures e.Rename? ==> |e.bytes| == z && CommitCount(s, d) == 0
    ensures e.Rename? ==>
              forall x | x in s.procs && s.procs[x].digest == d && x != c :: !PastRecheck(s.procs[x].pc)
  {
    hide Steps, HasPermit, ResultOf;
    assert FlightOk(s, c) && ByteOk(cfg, s, s.procs[c]);
    RecheckMoves(cfg, s, c, pc, e);
    FileMoves(cfg, s, c, pc, e);
    if e.Rename? {
      forall x | x in s.procs && s.procs[x].digest == d && PastRecheck(s.procs[x].pc) ensures x == c {
        assert FlightOk(s, x);
        PastRecheckLeads(s.procs[x]);
      }
    }
  }

  lemma CommitsMove(s: State, c: Call, e: Effect, s': State, d: Digest, z: int)
    requires c in s.procs && FilesAfter(s, c, e, s')
    ensures var renamed := e.Rename? && s.procs[c].digest == d;
            && Complete(s', d, z) == (if renamed then |e.bytes| == z else Complete(s, d, z))
            && CommitCount(s', d) == CommitCount(s, d) + (if renamed then 1 else 0)
  {
  }

  lemma OnceMove(cfg: Config, s: State, c: Call, pc: Pc, e: Effect, s': State, d: Digest, z: int)
    requires FlightsOk(s) && BytesOk(cfg, s) && OnceOk(s, d, z) && Uniform(s, d, z) && Steps(cfg, s, c, pc, e)
    requires PcsAfter(s, c, pc, e, s') && CallsAfter(s, c, e, s') && FilesAfter(s, c, e, s')
    ensures OnceOk(s', d, z)
  {
    hide Steps, FlightsOk, BytesOk, Expected, FilesAfter, Complete, CommitCount, Uniform, HasPermit, Noted;
    if s.procs[c].digest == d {
      OnceMoveOwn(cfg, s, c, pc, e, d, z);
    }
    CommitsMove(s, c, e, s', d, z);
  }

  lemma PastRecheckLeads(p: Proc)
    requires PastRecheck(p.pc) && !p.push
    ensures Leads(p)
  {
  }

  // ---------------------------------------------------------------------------
  // Whose cancellation a caller reports

  /** A call whose own context was cancelled and whose flight ended that way; it leads no other. */
  ghost predicate Gone(s: State, l: Call) {
    && l in s.procs && ContextOf(s, s.procs[l]) == Cancelled
    && (s.procs[l].pc.Got? || s.procs[l].pc.Returned?) && s.procs[l].pc.res == ErrCanceled
  }

  /** A call whose source failed with a cancellation that was not its context's. */
  predicate Blamed(s: State, l: Call) {
    l in s.procs && s.procs[l].blamed
  }

  /** Why a flight led by `l` ended cancelled. */
  ghost predicate Doomed(s: State, l: Call, d: Digest) {
    l in s.procs && s.procs[l].digest == d && !s.procs[l].push && (Gone(s, l) || Blamed(s, l))
  }

  /** The cancelled flights a call has been through, each led by a doomed call; by a different one, if
      that one's source is not to blame. */
  ghost predicate CancelOk(s: State, c: Call)
    requires c in s.procs
  {
    var p := s.procs[c];
    && (forall l | l in p.cancels :: Doomed(s, l, p.digest))
    && (forall i, j | 0 <= i < j < |p.cancels| :: p.cancels[i] != p.cancels[j] || Blamed(s, p.cancels[i]))
    && (p.pc.Got? && p.pc.res == ErrCanceled ==>
          Doomed(s, p.pc.from, p.digest) && (p.pc.from !in p.cancels || Blamed(s, p.pc.from)))
    && (p.pc != Returned(ErrCanceled) ==> |p.cancels| == p.attempt - 1)
    && (p.pc == Returned(ErrCanceled) && !p.push && ContextOf(s, p) == Live ==> |p.cancels| == 2)
    && 1 <= p.attempt <= 2
    && (ResultOf(p.pc) == Some(ErrCanceled) && Leads(p) ==> ContextOf(s, p) == Cancelled || p.blamed)
  }

  ghost predicate CancelsOk(s: State) {
    forall c | c in s.procs :: CancelOk(s, c)
  }

  lemma DoomedStays(cfg: Config, s: State, c: Call, pc: Pc, e: Effect, s': State, l: Call, d: Digest)
    requires Doomed(s, l, d) && Steps(cfg, s, c, pc, e)
    requires PcsAfter(s, c, pc, e, s') && CallsAfter(s, c, e, s')
    ensures Doomed(s', l, d) && (Blamed(s, l) ==> Blamed(s', l))
  {
    ResultMoves(cfg, s, c, pc, e);
    hide Steps;
  }

  /** A call that waits for another one. */
  lemma CancelMoveWaiter(cfg: Config, s: State, c: Call, pc: Pc, e: Effect, s': State, x: Call)
    requires FlightsOk(s) && CancelsOk(s) && Steps(cfg, s, c, pc, e) && x in s.procs && x != c
    requires PcsAfter(s, c, pc, e, s') && CallsAfter(s, c, e, s')
    requires e.Deliver? && s.procs[x].pc == Wait(c)
    ensures CancelOk(s', x)
  {
    hide Steps, HasPermit, Leads;
    assert CancelOk(s, x) && FlightOk(s, x) && FlightOk(s, c);
    var d := s.procs[x].digest;
    LeaderDoomed(cfg, s, c, pc, e, s');
    assert !Gone(s, c);
    hide CancelsOk, FlightsOk, Gone;
    forall l | l in s.procs[x].cancels
      ensures Doomed(s', l, d) && (Blamed(s, l) ==> Blamed(s', l)) && (l == c ==> Blamed(s', c))
    {
      DoomedStays(cfg, s, c, pc, e, s', l, d);
    }
    WaitingHoldsNothing(c, e.res, c);
    GotLeadsNothing(s'.procs[x]);
    assert s.procs[x].digest == s.procs[c].digest;
  }

  /** A call that has nothing to do with the one that moves. */
  lemma CancelMoveBystander(cfg: Config, s: State, c: Call, pc: Pc, e: Effect, s': State, x: Call)
    requires x in s.procs && x != c && CancelOk(s, x) && Steps(cfg, s, c, pc, e)
    requires PcsAfter(s, c, pc, e, s') && CallsAfter(s, c, e, s')
    requires !(e.Deliver? && s.procs[x].pc == Wait(c))
    ensures CancelOk(s', x)
  {
    hide Steps, HasPermit, Leads, Doomed, Blamed;
    var d := s.procs[x].digest;
    forall l | Doomed(s, l, d) ensures Doomed(s', l, d) && (Blamed(s, l) ==> Blamed(s', l)) {
      DoomedStays(cfg, s, c, pc, e, s', l, d);
    }
    LeadsByPc(s.procs[x], s'.procs[x]);
  }

  lemma CancelMoveOther(cfg: Config, s: State, c: Call, pc: Pc, e: Effect, s': State, x: Call)
    requires FlightsOk(s) && CancelsOk(s) && Steps(cfg, s, c, pc, e) && x in s.procs && x != c
    requires PcsAfter(s, c, pc, e, s') && CallsAfter(s, c, e, s')
    ensures CancelOk(s', x)
  {
    hide Steps, CancelOk, FlightsOk, PcsAfter, CallsAfter;
    if e.Deliver? && s.procs[x].pc == Wait(c) {
      CancelMoveWaiter(cfg, s, c, pc, e, s', x);
    } else {
      CancelMoveBystander(cfg, s, c, pc, e, s', x);
    }
  }

  /** A leader that ends its flight cancelled was itself cancelled, or its source is to blame. */
  lemma LeaderDoomed(cfg: Config, s: State, c: Call, pc: Pc, e: Effect, s': State)
    requires FlightsOk(s) && CancelsOk(s) && Steps(cfg, s, c, pc, e) && e.Deliver?
    requires PcsAfter(s, c, pc, e, s') && CallsAfter(s, c, e, s')
    ensures !s.procs[c].pc.Got? && !s.procs[c].pc.Returned? && pc == Got(e.res, c)
    ensures e.res == ErrCanceled ==> Doomed(s', c, s.procs[c].digest)
  {
    hide Steps, HasPermit, CancelsOk;
    assert FlightOk(s, c);
    FlightMoves(cfg, s, c, pc, e);
    FinishedCancelled(s, c, e.res);
  }

  lemma FinishedCancelled(s: State, c: Call, r: Result)
    requires CancelsOk(s) && c in s.procs && s.procs[c].pc == Finish(r) && !s.procs[c].push
    ensures r == ErrCanceled ==> ContextOf(s, s.procs[c]) == Cancelled || s.procs[c].blamed
  {
    hide Doomed;
    assert CancelOk(s, c);
  }

  lemma GotLeadsNothing(p: Proc)
    requires p.pc.Got?
    ensures !Leads(p)
  {
  }

  lemma LeadsByPc(p: Proc, q: Proc)
    requires p.push == q.push && p.pc == q.pc
    ensures Leads(p) == Leads(q)
  {
  }

  /** The part of a step that happens to the call itself, in terms of its own record only. */
  ghost predicate OwnStep(cfg: Config, s: State, c: Call, pc: Pc, e: Effect, s': State) {
    && c in s.procs && c in s'.procs && s'.contexts == s.contexts
    && Stable(s.procs[c], s'.procs[c])
    && Noted(s.procs[c], s'.procs[c], true, e)
    && s'.procs[c].pc == pc
  }

  lemma CancelMoveOwn(cfg: Config, s: State, c: Call, pc: Pc, e: Effect, s': State)
    requires FlightsOk(s) && CancelsOk(s) && Steps(cfg, s, c, pc, e)
    requires PcsAfter(s, c, pc, e, s') && CallsAfter(s, c, e, s')
    ensures CancelOk(s', c)
  {
    hide Steps, HasPermit;
    assert CancelOk(s, c) && FlightOk(s, c);
    var p := s.procs[c];
    forall l | l in p.cancels ensures Doomed(s', l, p.digest) && (Blamed(s, l) ==> Blamed(s', l)) {
      DoomedStays(cfg, s, c, pc, e, s', l, p.digest);
    }
    if p.pc.Got? && p.pc.res == ErrCanceled {
      DoomedStays(cfg, s, c, pc, e, s', p.pc.from, p.digest);
    }
    if e.Deliver? {
      LeaderDoomed(cfg, s, c, pc, e, s');
    }
    assert OwnStep(cfg, s, c, pc, e, s');
    hide PcsAfter, CallsAfter, CancelsOk, FlightsOk, OwnStep;
    CancelOwn(cfg, s, c, pc, e, s');
  }

  lemma CancelOwn(cfg: Config, s: State, c: Call, pc: Pc, e: Effect, s': State)
    requires OwnStep(cfg, s, c, pc, e, s') && Steps(cfg, s, c, pc, e)
    requires FlightOk(s, c) && CancelOk(s, c)
    requires forall l | l in s.procs[c].cancels ::
               Doomed(s', l, s.procs[c].digest) && (Blamed(s, l) ==> Blamed(s', l))
    requires s.procs[c].pc.Got? && s.procs[c].pc.res == ErrCanceled ==>
               var from := s.procs[c].pc.from;
               Doomed(s', from, s.procs[c].digest) && (Blamed(s, from) ==> Blamed(s', from))
    requires e.Deliver? ==> !s.procs[c].pc.Got? && !s.procs[c].pc.Returned? && pc == Got(e.res, c)
    requires e.Deliver? && e.res == ErrCanceled ==> Doomed(s', c, s.procs[c].digest)
    ensures CancelOk(s', c)
  {
    hide Steps, HasPermit;
    FlightMoves(cfg, s, c, pc, e);
    ResultMoves(cfg, s, c, pc, e);
    LeadsByPc(s'.procs[c], s.procs[c].(pc := pc));
    var p, p' := s.procs[c], s'.procs[c];
    assert ContextOf(s', p') == ContextOf(s, p);
    assert e.Deliver? && e.res == ErrCanceled ==> c !in p.cancels || Blamed(s', c) by {
      if c in p.cancels {
        assert Doomed(s, c, p.digest);
      }
    }
    hide Leads, FlightOk, Doomed, Blamed;
  }
}
