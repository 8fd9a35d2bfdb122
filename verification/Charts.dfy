/** The breadth-first walk over chart dependencies, and the collapsing of the images it finds. */
module Charts {
  import opened Content
  import opened Sequences

  /** The seen set stops cycles; this stops graphs whose charts are all different. */
  const MAX_CHART_DEPTH: nat := 10

  /** `rest` stands for the options that do not identify the chart. */
  datatype ChartJob = ChartJob(name: string, repoURL: string, version: string, rest: string)

  datatype ImageJob = ImageJob(name: string, platform: string, excludeExtras: bool, rest: string)

  /** What fetching one chart finds. */
  datatype Found = Found(images: seq<ImageJob>, deps: seq<ChartJob>)

  /** The `n`th call of the fetcher that returns; calls for one chart need not find the same images. */
  type Fetcher = (nat, ChartJob) -> Option<Found>

  function Key(j: ChartJob): string {
    j.name + "|" + j.repoURL + "|" + j.version
  }

  lemma SameTail(a: string, b: string, tail: string)
    ensures a + tail == b + tail <==> a == b
  {
    if a + tail == b + tail {
      assert (a + tail)[..|a|] == a && (b + tail)[..|b|] == b;
    }
  }

  lemma SameHead(head: string, a: string, b: string)
    ensures head + a == head + b <==> a == b
  {
    if head + a == head + b {
      assert (head + a)[|head|..] == a && (head + b)[|head|..] == b;
    }
  }

  lemma FieldEnds(a: string, x: string, b: string, y: string)
    requires '|' !in a && '|' !in b && a + "|" + x == b + "|" + y
    ensures a == b && x == y
  {
    var s := a + "|" + x;
    assert s[|a|] == '|' && s[|b|] == '|';
    assert forall i | 0 <= i < |a| :: s[i] == a[i] && a[i] in a;
    assert forall i | 0 <= i < |b| :: s[i] == b[i] && b[i] in b;
    assert s[..|a|] == a && s[..|b|] == b;
    assert s[|a| + 1..] == x && s[|b| + 1..] == y;
  }

  /** Two charts that differ in exactly one of name, repository and version are told apart; and where names
      and repositories hold no bar, the key identifies all three. */
  lemma KeysTellChartsApart(a: ChartJob, b: ChartJob)
    ensures a.name == b.name && a.repoURL == b.repoURL ==> (Key(a) == Key(b) <==> a.version == b.version)
    ensures a.name == b.name && a.version == b.version ==> (Key(a) == Key(b) <==> a.repoURL == b.repoURL)
    ensures a.repoURL == b.repoURL && a.version == b.version ==> (Key(a) == Key(b) <==> a.name == b.name)
    ensures '|' !in a.name + a.repoURL && '|' !in b.name + b.repoURL ==>
              (Key(a) == Key(b) <==> a.name == b.name && a.repoURL == b.repoURL && a.version == b.version)
  {
    SameHead(a.name + "|" + a.repoURL + "|", a.version, b.version);
    SameTail(a.name + "|" + a.repoURL, b.name + "|" + b.repoURL, "|" + a.version);
    SameHead(a.name + "|", a.repoURL, b.repoURL);
    SameTail(a.name, b.name, "|" + a.repoURL);
    assert a.name + "|" + a.repoURL == a.name + ("|" + a.repoURL);
    assert b.name + "|" + a.repoURL == b.name + ("|" + a.repoURL);
    assert a.name + "|" + a.repoURL + "|" + a.version == a.name + "|" + a.repoURL + ("|" + a.version);
    assert b.name + "|" + b.repoURL + "|" + a.version == b.name + "|" + b.repoURL + ("|" + a.version);
    if '|' !in a.name + a.repoURL && '|' !in b.name + b.repoURL && Key(a) == Key(b) {
      assert forall c | c in a.name || c in a.repoURL :: c in a.name + a.repoURL;
      assert forall c | c in b.name || c in b.repoURL :: c in b.name + b.repoURL;
      assert Key(a) == a.name + "|" + (a.repoURL + "|" + a.version);
      assert Key(b) == b.name + "|" + (b.repoURL + "|" + b.version);
      FieldEnds(a.name, a.repoURL + "|" + a.version, b.name, b.repoURL + "|" + b.version);
      FieldEnds(a.repoURL, a.version, b.repoURL, b.version);
    }
  }

  function Keys(jobs: seq<ChartJob>): set<string> {
    set j | j in jobs :: Key(j)
  }

  /** The dependency keys depend on the chart's key only. `graph` is the witness; it may be infinite
      or have cycles. */
  ghost predicate Follows(fetch: Fetcher, graph: string -> set<string>) {
    forall n, j | fetch(n, j).Some? :: Keys(fetch(n, j).value.deps) == graph(Key(j))
  }

  // ---------------------------------------------------------------------------
  // Distances

  function Below(graph: string -> set<string>, ks: set<string>): set<string> {
    set k, x | k in ks && x in graph(k) :: x
  }

  /** The keys at most `n` dependencies away from the roots. */
  function Within(graph: string -> set<string>, roots: set<string>, n: nat): set<string> {
    if n == 0 then roots
    else Within(graph, roots, n - 1) + Below(graph, Within(graph, roots, n - 1))
  }

  function Before(graph: string -> set<string>, roots: set<string>, depth: nat): set<string> {
    if depth == 0 then {} else Within(graph, roots, depth - 1)
  }

  /** A chain of dependencies that starts at a root. */
  predicate IsChain(graph: string -> set<string>, roots: set<string>, chain: seq<string>) {
    && |chain| > 0 && chain[0] in roots
    && forall i | 0 <= i < |chain| - 1 :: chain[i + 1] in graph(chain[i])
  }

  ghost predicate Chained(graph: string -> set<string>, roots: set<string>, length: nat, k: string) {
    exists chain :: IsChain(graph, roots, chain) && |chain| <= length && chain[|chain| - 1] == k
  }

  lemma ChainGrows(graph: string -> set<string>, roots: set<string>, length: nat, p: string, k: string)
    requires Chained(graph, roots, length, p) && k in graph(p)
    ensures Chained(graph, roots, length + 1, k)
  {
    var chain :| IsChain(graph, roots, chain) && |chain| <= length && chain[|chain| - 1] == p;
    assert IsChain(graph, roots, chain + [k]);
  }

  lemma ChainShrinks(graph: string -> set<string>, roots: set<string>, length: nat, k: string) returns (p: string)
    requires Chained(graph, roots, length + 1, k)
    ensures k in roots || (k in graph(p) && Chained(graph, roots, length, p))
  {
    var chain :| IsChain(graph, roots, chain) && |chain| <= length + 1 && chain[|chain| - 1] == k;
    p := k;
    if |chain| > 1 {
      p := chain[|chain| - 2];
      assert IsChain(graph, roots, chain[..|chain| - 1]);
    }
  }

  lemma {:induction false} RootsAreWithin(graph: string -> set<string>, roots: set<string>, n: nat)
    ensures roots <= Within(graph, roots, n)
  {
    if n > 0 {
      RootsAreWithin(graph, roots, n - 1);
    }
  }

  lemma LastStep(graph: string -> set<string>, roots: set<string>, n: nat, k: string) returns (p: string)
    requires n > 0 && k in Within(graph, roots, n) && k !in Within(graph, roots, n - 1)
    ensures p in Within(graph, roots, n - 1) && k in graph(p)
  {
    p :| p in Within(graph, roots, n - 1) && k in graph(p);
  }

  lemma OneStepFurther(graph: string -> set<string>, roots: set<string>, n: nat, p: string, k: string)
    requires n > 0 && p in Within(graph, roots, n - 1)
    ensures k in graph(p) ==> k in Within(graph, roots, n)
    ensures p in Within(graph, roots, n)
  {
  }

  /** `Within` is what chains reach. */
  lemma {:induction false} WithinIsReached(graph: string -> set<string>, roots: set<string>, n: nat, k: string)
    ensures k in Within(graph, roots, n) <==> Chained(graph, roots, n + 1, k)
    decreases n, 1
  {
    hide Chained, Below;
    RootsAreWithin(graph, roots, n);
    if k in roots {
      RootIsChained(graph, roots, n + 1, k);
    } else if n == 0 {
      if Chained(graph, roots, 1, k) {
        var p := ChainShrinks(graph, roots, 0, k);
        NoEmptyChain(graph, roots, p);
      }
    } else {
      DeeperIsReached(graph, roots, n, k);
    }
  }

  lemma {:induction false} DeeperIsReached(graph: string -> set<string>, roots: set<string>, n: nat, k: string)
    requires n > 0 && k !in roots
    ensures k in Within(graph, roots, n) <==> Chained(graph, roots, n + 1, k)
    decreases n, 0
  {
    hide Chained, Below, Within;
    WithinIsReached(graph, roots, n - 1, k);
    if k in Within(graph, roots, n - 1) {
      ChainsStay(graph, roots, n, k);
      OneStepFurther(graph, roots, n, k, k);
    } else if k in Within(graph, roots, n) {
      var p := LastStep(graph, roots, n, k);
      WithinIsReached(graph, roots, n - 1, p);
      ChainGrows(graph, roots, n, p, k);
    }
    if Chained(graph, roots, n + 1, k) {
      var p := ChainShrinks(graph, roots, n, k);
      WithinIsReached(graph, roots, n - 1, p);
      if p in Within(graph, roots, n - 1) {
        OneStepFurther(graph, roots, n, p, k);
      }
    }
  }

  lemma RootIsChained(graph: string -> set<string>, roots: set<string>, length: nat, k: string)
    requires k in roots && length > 0
    ensures Chained(graph, roots, length, k)
  {
    assert IsChain(graph, roots, [k]);
  }

  lemma NoEmptyChain(graph: string -> set<string>, roots: set<string>, k: string)
    ensures !Chained(graph, roots, 0, k)
  {
  }

  lemma ChainsStay(graph: string -> set<string>, roots: set<string>, length: nat, k: string)
    requires Chained(graph, roots, length, k)
    ensures Chained(graph, roots, length + 1, k)
  {
  }

  lemma {:induction false} WithinGrows(graph: string -> set<string>, roots: set<string>, m: nat, n: nat)
    requires m <= n
    ensures Within(graph, roots, m) <= Within(graph, roots, n)
  {
    hide Below;
    if m < n {
      WithinGrows(graph, roots, m, n - 1);
    }
  }

  lemma {:induction false} NothingBelow(graph: string -> set<string>, roots: set<string>, depth: nat)
    requires Within(graph, roots, depth) <= Before(graph, roots, depth)
    ensures Below(graph, Before(graph, roots, depth)) <= Before(graph, roots, depth)
    ensures depth == 0 ==> roots == {}
  {
    if depth > 0 {
      hide Below;
    }
  }

  lemma {:induction false} NothingFurther(graph: string -> set<string>, roots: set<string>, depth: nat, n: nat)
    requires Within(graph, roots, depth) <= Before(graph, roots, depth) && depth <= n + 1
    ensures Within(graph, roots, n) == Before(graph, roots, depth)
    decreases n
  {
    hide Below;
    NothingBelow(graph, roots, depth);
    if n > 0 && depth <= n {
      NothingFurther(graph, roots, depth, n - 1);
    }
  }

  // ---------------------------------------------------------------------------
  // One level

  /** A call of the fetcher that succeeded. */
  datatype Fetched = Fetched(job: ChartJob, found: Found)

  function Jobs(calls: seq<Fetched>): (r: seq<ChartJob>)
    ensures |r| == |calls| && forall i | 0 <= i < |calls| :: r[i] == calls[i].job
  {
    seq(|calls|, i requires 0 <= i < |calls| => calls[i].job)
  }

  function Images(calls: seq<Fetched>): seq<ImageJob> {
    if calls == [] then [] else Images(calls[..|calls| - 1]) + calls[|calls| - 1].found.images
  }

  function Deps(calls: seq<Fetched>): seq<ChartJob> {
    if calls == [] then [] else Deps(calls[..|calls| - 1]) + calls[|calls| - 1].found.deps
  }

  predicate DistinctKeys(jobs: seq<ChartJob>) {
    forall i, j | 0 <= i < j < |jobs| :: Key(jobs[i]) != Key(jobs[j])
  }

  lemma Picked(done: seq<Fetched>, waiting: seq<ChartJob>, i: nat, found: Found)
    requires i < |waiting|
    ensures multiset(Jobs(done + [Fetched(waiting[i], found)])) + multiset(Without(waiting, i))
            == multiset(Jobs(done)) + multiset(waiting)
    ensures DistinctKeys(Jobs(done) + waiting) ==>
              DistinctKeys(Jobs(done + [Fetched(waiting[i], found)]) + Without(waiting, i))
  {
    var c := Fetched(waiting[i], found);
    assert Jobs(done + [c]) == Jobs(done) + [c.job];
    assert waiting == waiting[..i] + ([waiting[i]] + waiting[i + 1..]);
    if DistinctKeys(Jobs(done) + waiting) {
      MovedStaysDistinct(Jobs(done), waiting, i);
    }
  }

  lemma MovedStaysDistinct(a: seq<ChartJob>, w: seq<ChartJob>, i: nat)
    requires i < |w| && DistinctKeys(a + w)
    ensures DistinctKeys(a + [w[i]] + Without(w, i))
  {
    var s, t := a + w, a + [w[i]] + Without(w, i);
    forall x, y | 0 <= x < y < |t| ensures Key(t[x]) != Key(t[y]) {
      var fx := CameFrom(|a|, i, x);
      var fy := CameFrom(|a|, i, y);
      assert t[x] == s[fx] && t[y] == s[fy] && fx != fy;
      assert if fx < fy then Key(s[fx]) != Key(s[fy]) else Key(s[fy]) != Key(s[fx]);
    }
  }

  function CameFrom(n: nat, i: nat, x: nat): nat {
    if x < n then x else if x == n then n + i else if x - n - 1 < i then x - 1 else x
  }

  lemma SameElementsSameKeys(a: seq<ChartJob>, b: seq<ChartJob>)
    requires multiset(a) == multiset(b)
    ensures Keys(a) == Keys(b)
  {
    forall j ensures j in a <==> j in b {
      assert j in a <==> j in multiset(a);
      assert j in b <==> j in multiset(b);
    }
  }

  lemma {:induction false} DepsAreBelow(fetch: Fetcher, graph: string -> set<string>, calls: seq<Fetched>)
    requires forall c | c in calls :: Keys(c.found.deps) == graph(Key(c.job))
    ensures Keys(Deps(calls)) == Below(graph, Keys(Jobs(calls)))
  {
    if calls != [] {
      var front, c := calls[..|calls| - 1], calls[|calls| - 1];
      DepsAreBelow(fetch, graph, front);
      assert calls == front + [c];
      assert Jobs(calls) == Jobs(front) + [c.job];
      assert Keys(Deps(calls)) == Keys(Deps(front)) + Keys(c.found.deps);
      assert Keys(Jobs(calls)) == Keys(Jobs(front)) + {Key(c.job)};
    }
  }

  /** Each call is what the fetcher answered, counting from `first`. */
  ghost predicate Answered(fetch: Fetcher, first: nat, calls: seq<Fetched>) {
    forall i | 0 <= i < |calls| :: fetch(first + i, calls[i].job) == Some(calls[i].found)
  }

  /** The fetch that comes next, after those of `calls`, is one of a chart among `keys`, and fails. */
  ghost predicate NextFetchFails(fetch: Fetcher, n: nat, keys: set<string>) {
    exists j :: Key(j) in keys && fetch(n, j).None?
  }

  /** A level half done: `calls` have returned, `waiting` have not. */
  ghost predicate Fetching(
    fetch: Fetcher, first: nat, level: seq<ChartJob>, calls: seq<Fetched>, waiting: seq<ChartJob>)
  {
    && multiset(Jobs(calls)) + multiset(waiting) == multiset(level)
    && Answered(fetch, first, calls)
    && (DistinctKeys(level) ==> DistinctKeys(Jobs(calls) + waiting))
  }

  lemma FetchingStarts(fetch: Fetcher, first: nat, level: seq<ChartJob>)
    ensures Fetching(fetch, first, level, [], level)
  {
    assert Jobs([]) + level == level;
  }

  lemma {:induction false} FetchingGoesOn(
    fetch: Fetcher, first: nat, level: seq<ChartJob>, calls: seq<Fetched>, waiting: seq<ChartJob>, i: nat, found: Found)
    requires Fetching(fetch, first, level, calls, waiting) && i < |waiting|
    requires fetch(first + |calls|, waiting[i]) == Some(found)
    ensures Fetching(fetch, first, level, calls + [Fetched(waiting[i], found)], Without(waiting, i))
    ensures Images(calls + [Fetched(waiting[i], found)]) == Images(calls) + found.images
    ensures Deps(calls + [Fetched(waiting[i], found)]) == Deps(calls) + found.deps
  {
    hide DistinctKeys;
    Picked(calls, waiting, i, found);
    assert (calls + [Fetched(waiting[i], found)])[..|calls|] == calls;
  }

  lemma FetchingFails(
    fetch: Fetcher, first: nat, level: seq<ChartJob>, calls: seq<Fetched>, waiting: seq<ChartJob>, n: nat, i: nat)
    requires Fetching(fetch, first, level, calls, waiting) && i < |waiting| && fetch(n, waiting[i]).None?
    ensures NextFetchFails(fetch, n, Keys(level)) && Answered(fetch, first, calls)
    ensures Keys(Jobs(calls)) <= Keys(level)
  {
    assert waiting[i] in multiset(waiting);
    assert waiting[i] in multiset(level);
    forall j | j in Jobs(calls) ensures j in level {
      assert j in multiset(Jobs(calls)) && j in multiset(level);
    }
  }

  lemma {:induction false} FetchingEnds(
    fetch: Fetcher, graph: string -> set<string>, first: nat, level: seq<ChartJob>, calls: seq<Fetched>)
    requires Follows(fetch, graph) && Fetching(fetch, first, level, calls, [])
    ensures Keys(Deps(calls)) == Below(graph, Keys(level)) && multiset(Jobs(calls)) == multiset(level)
    ensures Answered(fetch, first, calls) && (DistinctKeys(level) ==> DistinctKeys(Jobs(calls)))
    ensures Keys(Jobs(calls)) <= Keys(level)
  {
    assert Jobs(calls) + [] == Jobs(calls);
    DepsAreBelow(fetch, graph, calls);
    SameElementsSameKeys(Jobs(calls), level);
  }

  /** One errgroup: the charts of a level are fetched in any order; the first failure discards all. */
  method FetchLevel(level: seq<ChartJob>, fetch: Fetcher, first: nat, ghost graph: string -> set<string>)
    returns (ok: bool, images: seq<ImageJob>, deps: seq<ChartJob>, fetched: nat, ghost calls: seq<Fetched>)
    requires Follows(fetch, graph)
    ensures Answered(fetch, first, calls) && Keys(Jobs(calls)) <= Keys(level)
    ensures !ok ==> NextFetchFails(fetch, first + |calls|, Keys(level))
    ensures ok ==> multiset(Jobs(calls)) == multiset(level)
    ensures ok ==> images == Images(calls) && fetched == |calls|
    ensures ok ==> Keys(deps) == Below(graph, Keys(level))
    ensures ok && DistinctKeys(level) ==> DistinctKeys(Jobs(calls))
  {
    hide Fetching, Answered, DistinctKeys, Keys, Below, Images, Deps, NextFetchFails, Follows, Jobs;
    ok, images, deps, fetched, calls := true, [], [], 0, [];
    var waiting := level;
    FetchingStarts(fetch, first, level);
    NothingFound();
    while waiting != []
      invariant Fetching(fetch, first, level, calls, waiting)
      invariant images == Images(calls) && deps == Deps(calls) && fetched == |calls|
      decreases |waiting|
    {
      var i :| 0 <= i < |waiting|;
      var got := fetch(first + fetched, waiting[i]);
      if got.None? {
        FetchingFails(fetch, first, level, calls, waiting, first + fetched, i);
        return false, [], [], fetched, calls;
      }
      FetchingGoesOn(fetch, first, level, calls, waiting, i, got.value);
      images, deps := images + got.value.images, deps + got.value.deps;
      fetched, calls := fetched + 1, calls + [Fetched(waiting[i], got.value)];
      waiting := Without(waiting, i);
    }
    FetchingEnds(fetch, graph, first, level, calls);
  }

  lemma NothingFound()
    ensures Images([]) == [] && Deps([]) == []
  {
  }

  lemma KeysOfPrefix(jobs: seq<ChartJob>, i: nat)
    requires i < |jobs|
    ensures Keys(jobs[..i + 1]) == Keys(jobs[..i]) + {Key(jobs[i])}
  {
    assert jobs[..i + 1] == jobs[..i] + [jobs[i]];
  }

  lemma KeysOfMore(next: seq<ChartJob>, j: ChartJob)
    ensures Keys(next + [j]) == Keys(next) + {Key(j)}
    ensures DistinctKeys(next) && Key(j) !in Keys(next) ==> DistinctKeys(next + [j])
  {
    assert forall k | 0 <= k < |next| :: next[k] in next && Key(next[k]) in Keys(next);
  }

  /** The charts not scheduled before, each key once. */
  method NextLevel(deps: seq<ChartJob>, before: set<string>) returns (next: seq<ChartJob>, seen: set<string>)
    ensures DistinctKeys(next) && Keys(next) == Keys(deps) - before && seen == before + Keys(deps)
  {
    next, seen := [], before;
    for i := 0 to |deps|
      invariant seen == before + Keys(deps[..i])
      invariant DistinctKeys(next) && Keys(next) == Keys(deps[..i]) - before
    {
      hide Keys, DistinctKeys, Key;
      KeysOfPrefix(deps, i);
      KeysOfMore(next, deps[i]);
      if Key(deps[i]) !in seen {
        next := next + [deps[i]];
      }
      seen := seen + {Key(deps[i])};
    }
    assert deps[..|deps|] == deps;
  }

  // ---------------------------------------------------------------------------
  // The whole walk

  lemma LastOfAppend(a: seq<Fetched>, b: seq<Fetched>)
    requires b != []
    ensures Images(a + b) == Images(a + b[..|b| - 1]) + b[|b| - 1].found.images
  {
    assert (a + b)[..|a + b| - 1] == a + b[..|b| - 1];
  }

  lemma {:induction false} ImagesAppend(a: seq<Fetched>, b: seq<Fetched>)
    ensures Images(a + b) == Images(a) + Images(b)
  {
    if b == [] {
      assert a + b == a;
    } else {
      var front, last := b[..|b| - 1], b[|b| - 1];
      ImagesAppend(a, front);
      LastOfAppend(a, b);
      Associates(Images(a), Images(front), last.found.images);
    }
  }

  /** The walk after `depth` levels: what has been fetched, and what is queued. */
  ghost predicate Walked(
    graph: string -> set<string>, jobs: seq<ChartJob>, depth: nat, level: seq<ChartJob>,
    seen: set<string>, calls: seq<Fetched>)
  {
    var roots := Keys(jobs);
    && seen == Within(graph, roots, depth)
    && Keys(level) == Within(graph, roots, depth) - Before(graph, roots, depth)
    && Keys(Jobs(calls)) == Before(graph, roots, depth)
    && (depth == 0 ==> calls == [] && level == jobs)
    && (depth > 0 ==> DistinctKeys(level) && RootsThenOnce(jobs, calls))
  }

  /** Every root once as often as it was given, then every other key at most once. */
  ghost predicate RootsThenOnce(jobs: seq<ChartJob>, calls: seq<Fetched>) {
    && |calls| >= |jobs|
    && multiset(Jobs(calls[..|jobs|])) == multiset(jobs)
    && DistinctKeys(Jobs(calls[|jobs|..]))
    && Keys(Jobs(calls[|jobs|..])) !! Keys(jobs)
  }

  lemma FrontierIsBelow(graph: string -> set<string>, roots: set<string>, depth: nat, level: set<string>)
    requires level == Within(graph, roots, depth) - Before(graph, roots, depth)
    ensures Below(graph, level) - Within(graph, roots, depth)
            == Within(graph, roots, depth + 1) - Within(graph, roots, depth)
    ensures Within(graph, roots, depth) + Below(graph, level) == Within(graph, roots, depth + 1)
  {
    var w := Within(graph, roots, depth);
    forall x | x in Below(graph, w) ensures x in w || x in Below(graph, level) {
      var k :| k in w && x in graph(k);
      if k !in level {
        assert x in Below(graph, Within(graph, roots, depth - 1));
      }
    }
  }

  lemma KeysAppend(a: seq<Fetched>, b: seq<Fetched>)
    ensures Jobs(a + b) == Jobs(a) + Jobs(b) && Keys(Jobs(a + b)) == Keys(Jobs(a)) + Keys(Jobs(b))
  {
    assert Jobs(a + b) == Jobs(a) + Jobs(b);
  }

  lemma OnceStays(jobs: seq<ChartJob>, calls: seq<Fetched>, more: seq<Fetched>)
    requires RootsThenOnce(jobs, calls) && DistinctKeys(Jobs(more)) && Keys(Jobs(more)) !! Keys(Jobs(calls))
    ensures RootsThenOnce(jobs, calls + more)
  {
    var n := |jobs|;
    assert calls == calls[..n] + calls[n..];
    KeysAppend(calls[..n], calls[n..]);
    KeysAppend(calls[n..], more);
    SameElementsSameKeys(Jobs(calls[..n]), jobs);
    assert (calls + more)[..n] == calls[..n] && (calls + more)[n..] == calls[n..] + more;
    var a, b := Jobs(calls[n..]), Jobs(more);
    forall i, j | 0 <= i < j < |a + b| ensures Key((a + b)[i]) != Key((a + b)[j]) {
      if i < |a| <= j {
        assert a[i] in a && b[j - |a|] in b;
        assert Key(a[i]) in Keys(Jobs(calls)) && Key(b[j - |a|]) in Keys(b);
      }
    }
  }

  lemma WalkedFurther(
    graph: string -> set<string>, jobs: seq<ChartJob>, depth: nat, level: seq<ChartJob>,
    seen: set<string>, calls: seq<Fetched>,
    more: seq<Fetched>, deps: seq<ChartJob>, next: seq<ChartJob>, seen': set<string>)
    requires Walked(graph, jobs, depth, level, seen, calls)
    requires multiset(Jobs(more)) == multiset(level) && Keys(deps) == Below(graph, Keys(level))
    requires DistinctKeys(level) ==> DistinctKeys(Jobs(more))
    requires DistinctKeys(next) && Keys(next) == Keys(deps) - seen && seen' == seen + Keys(deps)
    ensures Walked(graph, jobs, depth + 1, next, seen', calls + more)
  {
    SameElementsSameKeys(Jobs(more), level);
    KeysAppend(calls, more);
    FrontierIsBelow(graph, Keys(jobs), depth, Keys(level));
    BeforeIsWithin(graph, Keys(jobs), depth);
    if depth > 0 {
      OnceStays(jobs, calls, more);
    } else {
      assert calls + more == more && |more| == |multiset(Jobs(more))| == |multiset(jobs)|;
      assert more[..|jobs|] == more && more[|jobs|..] == [];
    }
  }

  lemma {:induction false} BeforeIsWithin(graph: string -> set<string>, roots: set<string>, depth: nat)
    ensures Before(graph, roots, depth) <= Within(graph, roots, depth)
  {
  }

  lemma AnsweredJoins(fetch: Fetcher, calls: seq<Fetched>, more: seq<Fetched>)
    requires Answered(fetch, 0, calls) && Answered(fetch, |calls|, more)
    ensures Answered(fetch, 0, calls + more)
  {
    forall i | 0 <= i < |calls + more| ensures fetch(0 + i, (calls + more)[i].job) == Some((calls + more)[i].found) {
      if i >= |calls| {
        assert fetch(|calls| + (i - |calls|), more[i - |calls|].job) == Some(more[i - |calls|].found);
      }
    }
  }

  lemma WalkStarts(fetch: Fetcher, graph: string -> set<string>, jobs: seq<ChartJob>)
    ensures Walked(graph, jobs, 0, jobs, Keys(jobs), []) && Answered(fetch, 0, []) && Images([]) == []
  {
  }

  /** `traverseChartLevels`: the images of every fetched chart, and how many were fetched. `dropped`
      is the number the truncation warning names. */
  method TraverseChartLevels(jobs: seq<ChartJob>, fetch: Fetcher, ghost graph: string -> set<string>)
    returns (ok: bool, images: seq<ImageJob>, fetched: nat, dropped: nat, ghost calls: seq<Fetched>)
    requires Follows(fetch, graph)
    // Each fetch is of a chart that is due, and the walk fails exactly with the first that fails.
    ensures Answered(fetch, 0, calls) && Keys(Jobs(calls)) <= Within(graph, Keys(jobs), MAX_CHART_DEPTH - 1)
    ensures !ok ==> images == [] && fetched == 0
                    && NextFetchFails(fetch, |calls|, Within(graph, Keys(jobs), MAX_CHART_DEPTH - 1))
    // Exactly the charts fewer than ten dependencies away from a root are fetched.
    ensures ok ==> Keys(Jobs(calls)) == Within(graph, Keys(jobs), MAX_CHART_DEPTH - 1)
    // In other words, those at the end of a chain of at most ten charts that starts at a root.
    ensures ok ==> forall k :: k in Keys(Jobs(calls)) <==> Chained(graph, Keys(jobs), 10, k)
    ensures ok && jobs != [] ==> RootsThenOnce(jobs, calls)
    ensures ok ==> images == Images(calls) && fetched == |calls|
    ensures var all, kept := Within(graph, Keys(jobs), MAX_CHART_DEPTH), Within(graph, Keys(jobs), MAX_CHART_DEPTH - 1);
            ok ==> dropped == |all - kept|
  {
    hide *;
    ok, images, fetched, dropped, calls := true, [], 0, 0, [];
    var level, seen, depth := jobs, Keys(jobs), 0;
    WalkStarts(fetch, graph, jobs);
    while |level| > 0 && depth < MAX_CHART_DEPTH
      invariant depth <= MAX_CHART_DEPTH
      invariant Walked(graph, jobs, depth, level, seen, calls)
      invariant images == Images(calls) && fetched == |calls| && Answered(fetch, 0, calls)
      decreases MAX_CHART_DEPTH - depth
    {
      var found, deps, count;
      ghost var more;
      ok, found, deps, count, more := FetchLevel(level, fetch, fetched, graph);
      AnsweredJoins(fetch, calls, more);
      if !ok {
        WalkFails(fetch, graph, jobs, depth, level, seen, calls, more);
        return false, [], 0, 0, calls + more;
      }
      var next, seen' := NextLevel(deps, seen);
      WalkedFurther(graph, jobs, depth, level, seen, calls, more, deps, next, seen');
      ImagesAppend(calls, more);
      images, fetched, calls := images + found, fetched + count, calls + more;
      level, seen, depth := next, seen', depth + 1;
    }
    WalkEnds(graph, jobs, depth, level, seen, calls);
    TenCharts(graph, Keys(jobs));
    if depth == MAX_CHART_DEPTH {
      dropped := |level|;
    }
  }

  lemma TenCharts(graph: string -> set<string>, roots: set<string>)
    ensures forall k :: k in Within(graph, roots, MAX_CHART_DEPTH - 1) <==> Chained(graph, roots, 10, k)
  {
    forall k ensures k in Within(graph, roots, MAX_CHART_DEPTH - 1) <==> Chained(graph, roots, 10, k) {
      WithinIsReached(graph, roots, 9, k);
    }
  }

  lemma WalkFails(
    fetch: Fetcher, graph: string -> set<string>, jobs: seq<ChartJob>, depth: nat, level: seq<ChartJob>,
    seen: set<string>, calls: seq<Fetched>, more: seq<Fetched>)
    requires Walked(graph, jobs, depth, level, seen, calls) && depth < MAX_CHART_DEPTH
    requires NextFetchFails(fetch, |calls| + |more|, Keys(level)) && Keys(Jobs(more)) <= Keys(level)
    ensures NextFetchFails(fetch, |calls + more|, Within(graph, Keys(jobs), MAX_CHART_DEPTH - 1))
    ensures Keys(Jobs(calls + more)) <= Within(graph, Keys(jobs), MAX_CHART_DEPTH - 1)
  {
    hide Within, Keys, Jobs;
    KeysAppend(calls, more);
    BeforeIsWithin(graph, Keys(jobs), depth);
    WithinGrows(graph, Keys(jobs), depth, MAX_CHART_DEPTH - 1);
  }

  lemma WalkEnds(
    graph: string -> set<string>, jobs: seq<ChartJob>, depth: nat, level: seq<ChartJob>,
    seen: set<string>, calls: seq<Fetched>)
    requires Walked(graph, jobs, depth, level, seen, calls) && depth <= MAX_CHART_DEPTH
    requires level == [] || depth == MAX_CHART_DEPTH
    ensures Keys(Jobs(calls)) == Within(graph, Keys(jobs), MAX_CHART_DEPTH - 1)
    ensures jobs != [] ==> RootsThenOnce(jobs, calls)
    ensures (if depth == MAX_CHART_DEPTH then |level| else 0)
            == |Within(graph, Keys(jobs), MAX_CHART_DEPTH) - Within(graph, Keys(jobs), MAX_CHART_DEPTH - 1)|
  {
    hide Within, RootsThenOnce;
    if depth == MAX_CHART_DEPTH {
      DistinctCount(level);
    }
    if depth < MAX_CHART_DEPTH {
      forall x | x in Within(graph, Keys(jobs), depth) ensures x in Before(graph, Keys(jobs), depth) {
        assert x !in Keys(level);
      }
      NothingFurther(graph, Keys(jobs), depth, MAX_CHART_DEPTH - 1);
      NothingFurther(graph, Keys(jobs), depth, MAX_CHART_DEPTH);
    }
  }

  lemma {:induction false} DistinctCount(jobs: seq<ChartJob>)
    requires DistinctKeys(jobs)
    ensures |Keys(jobs)| == |jobs|
  {
    if jobs != [] {
      var front, last := jobs[..|jobs| - 1], jobs[|jobs| - 1];
      DistinctCount(front);
      assert jobs == front + [last];
      assert Keys(jobs) == Keys(front) + {Key(last)};
    }
  }

  // ---------------------------------------------------------------------------
  // Collapsing repeated images

  predicate SamePull(a: ImageJob, b: ImageJob) {
    a.name == b.name && a.platform == b.platform && a.excludeExtras == b.excludeExtras
  }

  predicate IsFirst(jobs: seq<ImageJob>, i: nat)
    requires i < |jobs|
  {
    forall j | 0 <= j < i :: !SamePull(jobs[j], jobs[i])
  }

  /** `kept` lists the positions of the first of each pull among the first `n` jobs, in order. */
  ghost predicate Firsts(jobs: seq<ImageJob>, n: nat, kept: seq<nat>)
    requires n <= |jobs|
  {
    && (forall k, l | 0 <= k < l < |kept| :: kept[k] < kept[l])
    && (forall i <- kept :: i < n)
    && (forall i: nat | i < n :: i in kept <==> IsFirst(jobs, i))
  }

  ghost predicate Picks(jobs: seq<ImageJob>, kept: seq<nat>, out: seq<ImageJob>) {
    |out| == |kept| && forall k | 0 <= k < |kept| :: kept[k] < |jobs| && out[k] == jobs[kept[k]]
  }

  lemma {:induction false} FirstOfItsPull(jobs: seq<ImageJob>, i: nat) returns (f: nat)
    requires i < |jobs|
    ensures f <= i && IsFirst(jobs, f) && SamePull(jobs[f], jobs[i])
  {
    if IsFirst(jobs, i) {
      return i;
    }
    var j :| 0 <= j < i && SamePull(jobs[j], jobs[i]);
    f := FirstOfItsPull(jobs, j);
  }

  /** Nothing that would be pulled differently is dropped, and nothing is pulled twice. */
  lemma FirstsCoverAll(jobs: seq<ImageJob>, kept: seq<nat>, out: seq<ImageJob>)
    requires Firsts(jobs, |jobs|, kept) && Picks(jobs, kept, out)
    ensures forall j <- jobs :: exists o <- out :: SamePull(o, j)
    ensures forall k, l | 0 <= k < l < |out| :: !SamePull(out[k], out[l])
    // Two jobs are one pull exactly when name, platform and the choice about extras agree.
    ensures forall k, l | 0 <= k < l < |out| ::
              out[k].name != out[l].name || out[k].platform != out[l].platform
              || out[k].excludeExtras != out[l].excludeExtras
    ensures forall j <- jobs :: exists o <- out ::
              o.name == j.name && o.platform == j.platform && o.excludeExtras == j.excludeExtras
  {
    forall j | j in jobs ensures exists o <- out :: SamePull(o, j) {
      var i :| 0 <= i < |jobs| && jobs[i] == j;
      var f := FirstOfItsPull(jobs, i);
      var k :| 0 <= k < |kept| && kept[k] == f;
      assert out[k] in out;
    }
    forall k, l | 0 <= k < l < |out| ensures !SamePull(out[k], out[l]) {
      assert kept[l] in kept && IsFirst(jobs, kept[l]);
    }
  }

  lemma FirstsGrow(jobs: seq<ImageJob>, n: nat, kept: seq<nat>)
    requires n < |jobs| && Firsts(jobs, n, kept)
    ensures Firsts(jobs, n + 1, if IsFirst(jobs, n) then kept + [n] else kept)
  {
    hide IsFirst;
    assert forall k | 0 <= k < |kept| :: kept[k] in kept;
  }

  /** What `dedupeImageJobs` tells jobs apart by. */
  function PullKey(j: ImageJob): (string, string, bool) {
    (j.name, j.platform, j.excludeExtras)
  }

  function PullKeys(jobs: seq<ImageJob>): set<(string, string, bool)> {
    set j | j in jobs :: PullKey(j)
  }

  lemma SeenBefore(jobs: seq<ImageJob>, n: nat)
    requires n < |jobs|
    ensures PullKey(jobs[n]) !in PullKeys(jobs[..n]) <==> IsFirst(jobs, n)
    ensures PullKeys(jobs[..n + 1]) == PullKeys(jobs[..n]) + {PullKey(jobs[n])}
  {
    assert jobs[..n + 1] == jobs[..n] + [jobs[n]];
    forall j | 0 <= j < n && SamePull(jobs[j], jobs[n]) ensures PullKey(jobs[n]) in PullKeys(jobs[..n]) {
      assert jobs[j] in jobs[..n];
    }
  }

  lemma PicksGrow(jobs: seq<ImageJob>, kept: seq<nat>, out: seq<ImageJob>, n: nat)
    requires Picks(jobs, kept, out) && n < |jobs|
    ensures Picks(jobs, kept + [n], out + [jobs[n]])
  {
  }

  lemma NothingSeen(jobs: seq<ImageJob>)
    ensures Firsts(jobs, 0, []) && Picks(jobs, [], []) && PullKeys(jobs[..0]) == {}
  {
  }

  /** `dedupeImageJobs` keeps the first of each pull, in the order they were first seen. */
  method DedupeImageJobs(jobs: seq<ImageJob>) returns (out: seq<ImageJob>, ghost kept: seq<nat>)
    ensures Firsts(jobs, |jobs|, kept) && Picks(jobs, kept, out)
    ensures forall j <- jobs :: exists o <- out :: SamePull(o, j)
    ensures forall k, l | 0 <= k < l < |out| :: !SamePull(out[k], out[l])
  {
    hide *;
    out, kept := [], [];
    var seen := {};
    NothingSeen(jobs);
    for n := 0 to |jobs|
      invariant Firsts(jobs, n, kept) && Picks(jobs, kept, out) && seen == PullKeys(jobs[..n])
    {
      FirstsGrow(jobs, n, kept);
      SeenBefore(jobs, n);
      PicksGrow(jobs, kept, out, n);
      if PullKey(jobs[n]) !in seen {
        seen := seen + {PullKey(jobs[n])};
        out, kept := out + [jobs[n]], kept + [n];
      }
    }
    FirstsCoverAll(jobs, kept, out);
  }
}
