/** The layer cache: callers that want one path share one fetch, and only a success is kept. */
module LayerCache {
  import opened Content

  type Caller = nat
  type Layer = nat

  datatype Result = Got(layer: Layer) | Failed

  /** Where a call of `getOrFetch` stands. Each step reads or writes the shared maps once. */
  datatype Pc =
    | Look | Join | Wait(leader: Caller)
    | Recheck | Fetch | Keep(layer: Layer) | Finish(res: Result) | Returned(res: Result)

  datatype Proc = Proc(path: string, pc: Pc)

  /** `fetches` counts the successful fetches of a path (history). */
  datatype State = State(
    cache: map<string, Layer>, flights: map<string, Caller>, procs: map<Caller, Proc>, fetches: map<string, nat>)

  /** How a step's fetch goes. */
  datatype Choice = Works | Fails | Yields(layer: Layer)

  datatype Action = Arrive(c: Caller, path: string) | Move(c: Caller, choice: Choice)

  datatype Effect = Quiet | Lead | CountFetch | Insert(layer: Layer) | Deliver(res: Result)

  datatype Next = Blocked | Go(pc: Pc, effect: Effect)

  function NextOf(s: State, c: Caller, p: Proc, choice: Choice): Next {
    match p.pc
    case Look => if p.path in s.cache then Go(Returned(Got(s.cache[p.path])), Quiet) else Go(Join, Quiet)
    case Join => if p.path in s.flights then Go(Wait(s.flights[p.path]), Quiet) else Go(Recheck, Lead)
    case Recheck => if p.path in s.cache then Go(Finish(Got(s.cache[p.path])), Quiet) else Go(Fetch, Quiet)
    case Fetch =>
      (match choice
       case Yields(l) => Go(Keep(l), CountFetch)
       case Fails => Go(Finish(Failed), Quiet)
       case Works => Blocked)
    case Keep(l) => Go(Finish(Got(l)), Insert(l))
    case Finish(r) => Go(Returned(r), Deliver(r))
    case Wait(_) | Returned(_) => Blocked
  }

  function Fetches(s: State, path: string): nat {
    if path in s.fetches then s.fetches[path] else 0
  }

  function NewProc(p: Proc, mine: bool, c: Caller, pc: Pc, e: Effect): Proc {
    if mine then p.(pc := pc)
    else if e.Deliver? && p.pc == Wait(c) then p.(pc := Returned(e.res))
    else p
  }

  function Perform(s: State, c: Caller, pc: Pc, e: Effect): State
    requires c in s.procs
  {
    var path := s.procs[c].path;
    State(
      cache := if e.Insert? then s.cache[path := e.layer] else s.cache,
      flights := if e.Lead? then s.flights[path := c] else if e.Deliver? then s.flights - {path} else s.flights,
      procs := map x | x in s.procs :: NewProc(s.procs[x], x == c, c, pc, e),
      fetches := if e.CountFetch? then s.fetches[path := Fetches(s, path) + 1] else s.fetches)
  }

  function Apply(s: State, a: Action): Option<State> {
    match a
    case Arrive(c, path) => if c in s.procs then None else Some(s.(procs := s.procs[c := Proc(path, Look)]))
    case Move(c, choice) =>
      if c !in s.procs then None
      else
        match NextOf(s, c, s.procs[c], choice)
        case Blocked => None
        case Go(pc, e) => Some(Perform(s, c, pc, e))
  }

  predicate Initial(s: State) {
    s == State(map[], map[], map[], map[])
  }

  function After(s: State, actions: seq<Action>): Option<State>
    decreases |actions|
  {
    if actions == [] then Some(s)
    else
      match After(s, actions[..|actions| - 1])
      case None => None
      case Some(t) => Apply(t, actions[|actions| - 1])
  }

  // ---------------------------------------------------------------------------
  // What every step keeps

  /** The call runs inside its path's flight, as the one that leads it. */
  predicate InFlight(pc: Pc) {
    pc.Recheck? || pc.Fetch? || pc.Keep? || pc.Finish?
  }

  ghost predicate ProcOk(s: State, c: Caller)
    requires c in s.procs
  {
    var p := s.procs[c];
    && (InFlight(p.pc) ==> p.path in s.flights && s.flights[p.path] == c)
    && (p.pc.Wait? ==> p.path in s.flights && s.flights[p.path] == p.pc.leader)
    && (p.pc.Fetch? ==> p.path !in s.cache && Fetches(s, p.path) == 0)
    && (p.pc.Keep? ==> p.path !in s.cache && Fetches(s, p.path) == 1)
    && ((p.pc.Finish? || p.pc.Returned?) && p.pc.res.Got? ==> p.path in s.cache && s.cache[p.path] == p.pc.res.layer)
  }

  /** A path's only successful fetch is in the cache, or in the hands of the flight's leader. */
  ghost predicate PathOk(s: State, path: string) {
    && (path in s.flights ==>
          s.flights[path] in s.procs && s.procs[s.flights[path]].path == path && InFlight(s.procs[s.flights[path]].pc))
    && (path in s.cache ==> Fetches(s, path) == 1)
    && (path !in s.cache && Fetches(s, path) != 0 ==> path in s.flights && s.procs[s.flights[path]].pc.Keep?)
  }

  ghost predicate Inv(s: State) {
    && (forall c | c in s.procs :: ProcOk(s, c))
    && (forall path :: PathOk(s, path))
  }

  ghost predicate Steps(s: State, c: Caller, pc: Pc, e: Effect) {
    c in s.procs && exists choice :: NextOf(s, c, s.procs[c], choice) == Go(pc, e)
  }

  lemma MoveKeepsOwn(s: State, c: Caller, pc: Pc, e: Effect, s': State)
    requires Inv(s) && Steps(s, c, pc, e) && s' == Perform(s, c, pc, e)
    ensures ProcOk(s', c)
  {
    assert ProcOk(s, c) && PathOk(s, s.procs[c].path);
  }

  lemma MoveKeepsOther(s: State, c: Caller, pc: Pc, e: Effect, s': State, x: Caller)
    requires Inv(s) && Steps(s, c, pc, e) && s' == Perform(s, c, pc, e) && x in s.procs && x != c
    ensures ProcOk(s', x)
  {
    assert ProcOk(s, c) && ProcOk(s, x) && PathOk(s, s.procs[x].path);
  }

  lemma MoveKeepsPath(s: State, c: Caller, pc: Pc, e: Effect, s': State, path: string)
    requires Inv(s) && Steps(s, c, pc, e) && s' == Perform(s, c, pc, e)
    ensures PathOk(s', path)
  {
    assert ProcOk(s, c) && PathOk(s, path) && PathOk(s, s.procs[c].path);
    if path in s.flights && s.flights[path] in s.procs {
      assert ProcOk(s, s.flights[path]);
    }
    hide Inv;
  }

  lemma PerformKeepsCallers(s: State, c: Caller, pc: Pc, e: Effect)
    requires c in s.procs
    ensures Perform(s, c, pc, e).procs.Keys == s.procs.Keys
  {
  }

  lemma StepKeeps(s: State, a: Action, s': State)
    requires Inv(s) && Apply(s, a) == Some(s')
    ensures Inv(s')
  {
    match a
    case Move(c, choice) =>
      var next := NextOf(s, c, s.procs[c], choice);
      assert Steps(s, c, next.pc, next.effect);
      hide NextOf, Perform, ProcOk, PathOk, Steps;
      forall x | x in s'.procs ensures ProcOk(s', x) {
        PerformKeepsCallers(s, c, next.pc, next.effect);
        if x == c {
          MoveKeepsOwn(s, c, next.pc, next.effect, s');
        } else {
          MoveKeepsOther(s, c, next.pc, next.effect, s', x);
        }
      }
      forall path ensures PathOk(s', path) {
        MoveKeepsPath(s, c, next.pc, next.effect, s', path);
      }
    case Arrive(c, path) =>
      forall x | x in s'.procs ensures ProcOk(s', x) {
        if x in s.procs {
          assert ProcOk(s, x);
        }
      }
      forall q ensures PathOk(s', q) {
        assert PathOk(s, q);
      }
  }

  lemma {:induction false} RunKeeps(s0: State, actions: seq<Action>, s: State)
    requires Initial(s0) && After(s0, actions) == Some(s)
    ensures Inv(s)
    decreases |actions|
  {
    hide Apply;
    if actions != [] {
      var t := After(s0, actions[..|actions| - 1]).value;
      RunKeeps(s0, actions[..|actions| - 1], t);
      StepKeeps(t, actions[|actions| - 1], s);
    }
  }

  // ---------------------------------------------------------------------------
  // What callers can rely on

  /** However the callers interleave, a path is fetched successfully at most once. */
  lemma {:induction false} AtMostOneFetch(s0: State, actions: seq<Action>, s: State, path: string)
    requires Initial(s0) && After(s0, actions) == Some(s)
    ensures Fetches(s, path) <= 1
  {
    RunKeeps(s0, actions, s);
    assert PathOk(s, path);
    if path !in s.cache && Fetches(s, path) != 0 {
      assert ProcOk(s, s.flights[path]);
    }
  }

  /** All callers of a path that succeed get the same layer. */
  lemma {:induction false} OneLayerForAll(s0: State, actions: seq<Action>, s: State, a: Caller, b: Caller)
    requires Initial(s0) && After(s0, actions) == Some(s)
    requires a in s.procs && b in s.procs && s.procs[a].path == s.procs[b].path
    requires s.procs[a].pc.Returned? && s.procs[a].pc.res.Got? && s.procs[b].pc.Returned? && s.procs[b].pc.res.Got?
    ensures s.procs[a].pc.res == s.procs[b].pc.res
  {
    RunKeeps(s0, actions, s);
    assert ProcOk(s, a) && ProcOk(s, b);
  }

  /** An entry, once there, stays as it is; a failing fetch adds none. */
  lemma {:induction false} CacheOnlyGrows(s0: State, actions: seq<Action>, s: State, a: Action, s': State)
    requires Initial(s0) && After(s0, actions) == Some(s) && Apply(s, a) == Some(s')
    ensures forall path | path in s.cache :: path in s'.cache && s'.cache[path] == s.cache[path]
    ensures a.Move? && a.choice.Fails? && s.procs[a.c].pc.Fetch? ==> s'.cache == s.cache && s'.fetches == s.fetches
  {
    RunKeeps(s0, actions, s);
    if a.Move? {
      assert ProcOk(s, a.c);
    }
  }

  lemma Then(s0: State, actions: seq<Action>, s: State, c: Caller, choice: Choice, pc: Pc, e: Effect)
    returns (more: seq<Action>, s': State)
    requires After(s0, actions) == Some(s) && c in s.procs && NextOf(s, c, s.procs[c], choice) == Go(pc, e)
    ensures After(s0, more) == Some(s') && c in s'.procs && s'.procs[c] == Proc(s.procs[c].path, pc)
    ensures s'.cache == if e.Insert? then s.cache[s.procs[c].path := e.layer] else s.cache
    ensures s'.flights == if e.Lead? then s.flights[s.procs[c].path := c]
                          else if e.Deliver? then s.flights - {s.procs[c].path} else s.flights
  {
    more := actions + [Move(c, choice)];
    assert more[..|more| - 1] == actions;
    s' := Perform(s, c, pc, e);
  }

  /** A caller that finds neither an entry nor a flight comes to the fetch. */
  lemma ComesToFetch(s0: State, actions: seq<Action>, s: State, path: string, c: Caller)
    returns (more: seq<Action>, s': State)
    requires After(s0, actions) == Some(s) && c in s.procs && s.procs[c] == Proc(path, Look)
    requires path !in s.cache && path !in s.flights
    ensures After(s0, more) == Some(s') && c in s'.procs && s'.procs[c] == Proc(path, Fetch)
    ensures path !in s'.cache && path in s'.flights && s'.flights[path] == c
  {
    hide After;
    more, s' := Then(s0, actions, s, c, Works, Join, Quiet);
    more, s' := Then(s0, more, s', c, Works, Recheck, Lead);
    more, s' := Then(s0, more, s', c, Works, Fetch, Quiet);
  }

  /** The leader of a flight whose fetch works puts the layer into the cache. */
  lemma FetchesAndReturns(s0: State, actions: seq<Action>, s: State, path: string, c: Caller, l: Layer)
    returns (more: seq<Action>, s': State)
    requires After(s0, actions) == Some(s) && c in s.procs && s.procs[c] == Proc(path, Fetch)
    ensures After(s0, more) == Some(s') && c in s'.procs && s'.procs[c] == Proc(path, Returned(Got(l)))
    ensures path in s'.cache && s'.cache[path] == l
  {
    hide After;
    more, s' := Then(s0, actions, s, c, Yields(l), Keep(l), CountFetch);
    more, s' := Then(s0, more, s', c, Works, Finish(Got(l)), Insert(l));
    more, s' := Then(s0, more, s', c, Works, Returned(Got(l)), Deliver(Got(l)));
  }

  /** A caller whose path has an entry gets it without joining or opening a flight. */
  lemma ACachedPathNeedsNoFlight(s0: State, actions: seq<Action>, s: State, path: string, c: Caller)
    returns (more: seq<Action>, s': State)
    requires After(s0, actions) == Some(s) && path in s.cache && c !in s.procs
    ensures After(s0, more) == Some(s') && |more| == |actions| + 2 && s'.flights == s.flights
    ensures c in s'.procs && s'.procs[c] == Proc(path, Returned(Got(s.cache[path])))
  {
    var arrives := actions + [Action.Arrive(c, path)];
    assert arrives[..|arrives| - 1] == actions;
    var t := s.(procs := s.procs[c := Proc(path, Look)]);
    assert After(s0, arrives) == Some(t);
    more := arrives + [Move(c, Works)];
    assert more[..|more| - 1] == arrives;
    s' := Perform(t, c, Returned(Got(s.cache[path])), Quiet);
  }

  /** A fetch that fails ends the flight: its leader and everybody who waits for it get the failure, and the
      path has neither an entry nor a flight. */
  lemma AFailingFetchEndsTheFlight(s0: State, actions: seq<Action>, s: State, c: Caller)
    returns (more: seq<Action>, s': State)
    requires Initial(s0) && After(s0, actions) == Some(s) && c in s.procs && s.procs[c].pc == Fetch
    ensures After(s0, more) == Some(s') && s'.cache == s.cache
    ensures s.procs[c].path !in s'.cache && s.procs[c].path !in s'.flights
    ensures forall x | x in s.procs :: x in s'.procs && s'.procs[x] ==
              if x == c || s.procs[x].pc == Wait(c) then s.procs[x].(pc := Returned(Failed)) else s.procs[x]
  {
    RunKeeps(s0, actions, s);
    assert ProcOk(s, c);
    var fails, ends := Move(c, Fails), Move(c, Works);
    var t := Perform(s, c, Finish(Failed), Quiet);
    s' := Perform(t, c, Returned(Failed), Deliver(Failed));
    more := actions + [fails] + [ends];
    assert (actions + [fails])[..|actions|] == actions && more[..|more| - 1] == actions + [fails];
    assert After(s0, actions + [fails]) == Some(t);
  }

  /** No failure is kept: whenever a path has no entry and no flight, the next caller whose fetch
      works gets its layer, whatever failed before. */
  lemma ALaterCallerCanSucceed(s0: State, actions: seq<Action>, s: State, path: string, c: Caller, l: Layer)
    returns (more: seq<Action>, s': State)
    requires Initial(s0) && After(s0, actions) == Some(s)
    requires path !in s.cache && path !in s.flights && c !in s.procs
    ensures After(s0, more) == Some(s') && c in s'.procs && s'.procs[c] == Proc(path, Returned(Got(l)))
    ensures path in s'.cache && s'.cache[path] == l
  {
    hide NextOf;
    more := actions + [Action.Arrive(c, path)];
    assert more[..|more| - 1] == actions;
    s' := s.(procs := s.procs[c := Proc(path, Look)]);
    hide After;
    more, s' := ComesToFetch(s0, more, s', path, c);
    more, s' := FetchesAndReturns(s0, more, s', path, c, l);
  }
}
