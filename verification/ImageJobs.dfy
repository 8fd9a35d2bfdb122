/** One image of a sync: pin the tag, verify the pinned digest, store what was pinned. */
module ImageJobs {
  import opened Content
  import opened Retry
  import opened Sequences
  import opened Verifier

  /** What a registry call asks for: the tag as it stands at that moment, or one digest. */
  datatype Target = ByTag | ByDigest(digest: Digest)

  /** `cfg` is the verification asked for; `None` is the empty one. `platform` is empty or a filter, and
      `rewrite` is empty or a new name. `tag` is that of the reference, unless it is by digest. */
  datatype ImageJob = ImageJob(
    cfg: Option<string>, parses: bool, tag: Option<string>, platform: string, rewrite: string)

  // ---------------------------------------------------------------------------
  // Pinning and verifying

  datatype Stage = ParseStage | PinStage | ConfigureStage | VerifyStage

  /** `canceled` is `errors.Is(err, context.Canceled)`. */
  datatype StageError = StageError(stage: Stage, canceled: bool)

  /** A head request: the digest the tag has now, or an error that may be a cancellation. */
  datatype Head = HeadOk(digest: Digest) | HeadFails(canceled: bool)

  /** Everything the registry and the context do during one job. */
  datatype World = World(
    pinCtx: Ctx, heads: nat -> Head,
    configures: Option<bool>,                  // the verifier's set-up error, if any: is it a cancellation
    verifyCtx: Path -> Ctx, answers: (Digest, Path, nat) -> Option<Refusal>,
    storeCtx: Ctx, alive: Option<ContextError>,
    adds: (nat, Target) -> AddIo,
    names: string -> bool,                     // whether a string parses as a reference
    renames: string -> bool)                   // whether `UpdateAnnotations` works and finds the image

  predicate OutcomeCanceled(r: Outcome<bool>) {
    match r
    case Aborted(c) => c.ContextCanceled?
    case Exhausted(_, canceled) => canceled
    case Succeeded => false
  }

  predicate VerifyCanceled(e: VerifyError) {
    match e
    case Done(c) => c.ContextCanceled?
    case BadReference => false
    case _ => RefusalOf(e).value.canceled
  }

  /** `pinDigest`: the answer of the head request that succeeded. */
  method PinDigest(
    retries: int, ctx: Ctx, heads: nat -> Head) returns (pinned: Option<Digest>, canceled: bool, ghost n: nat)
    ensures n <= Budget(retries) && forall i | 0 < i < n :: heads(i).HeadFails?
    ensures pinned.Some? <==> n > 0 && heads(n).HeadOk?
    ensures pinned.Some? ==> heads(n) == HeadOk(pinned.value)
    ensures pinned.Some? ==> !canceled
    ensures pinned.None? && n == Budget(retries) ==> canceled == heads(n).canceled
    ensures pinned.None? && n < Budget(retries) ==>
              var e := if canceled then ContextCanceled else DeadlineExceeded;
              ctx.before(n + 1) == Some(e) || ctx.waiting(n) == Some(e)
  {
    var tried := (i: nat) => if heads(i).HeadFails? then Some(heads(i).canceled) else None;
    var r, calls := Operation(retries, ctx, tried);
    n := calls;
    forall i | 0 < i < n ensures heads(i).HeadFails? {
      assert tried(i).Some?;
    }
    if r.Succeeded? {
      return Some(heads(calls).digest), false, calls;
    }
    return None, OutcomeCanceled(r), calls;
  }

  /** The digest `Verify` was asked about, and the calls it made for that (history). */
  datatype Check = NotChecked | Checked(digest: Digest, classic: seq<Asked>, bundle: seq<Asked>)

  /** The last call that was made for `d` came back without an error. */
  ghost predicate Accepted(check: Check, d: Digest) {
    check.Checked? && check.digest == d && EndsAccepted(check.classic + check.bundle)
  }

  /** The calls are a run of `Verify`, with the answers this world gives for that digest. */
  ghost predicate Made(retries: int, w: World, check: Check) {
    check.Checked? ==>
      && VerifyTrace(retries, check.classic, check.bundle)
      && Answered(check.classic, (n: nat) => w.answers(check.digest, Classic, n))
      && Answered(check.bundle, (n: nat) => w.answers(check.digest, Bundle, n))
  }

  /** `resolveAndVerify`. Failures after the pin keep the pin. */
  method ResolveAndVerify(job: ImageJob, retries: int, w: World)
    returns (pinned: Option<Digest>, err: Option<StageError>, check: Check)
    ensures job.cfg.None? ==> pinned.None? && err.None? && check.NotChecked?
    ensures Made(retries, w, check) && (check.Checked? ==> pinned == Some(check.digest))
    ensures job.cfg.Some? && err.None? <==> pinned.Some? && Accepted(check, pinned.value)
    ensures err.Some? ==> (pinned.Some? <==> err.value.stage.ConfigureStage? || err.value.stage.VerifyStage?)
    ensures pinned.Some? ==> exists n :: w.heads(n) == HeadOk(pinned.value)
    // Under contexts that do not end, the error counts as a cancellation exactly when the last call's does.
    ensures err.Some? && err.value.stage.VerifyStage?
            && Silent(w.verifyCtx(Classic)) && Silent(w.verifyCtx(Bundle)) ==>
              check.Checked?
              && var calls := check.classic + check.bundle;
                 && calls != [] && calls[|calls| - 1].answer.Some?
                 && err.value.canceled == calls[|calls| - 1].answer.value.canceled
  {
    check := NotChecked;
    if job.cfg.None? {
      return None, None, NotChecked;
    }
    if !job.parses {
      return None, Some(StageError(ParseStage, false)), NotChecked;
    }
    var canceled;
    ghost var n;
    pinned, canceled, n := PinDigest(retries, w.pinCtx, w.heads);
    if pinned.None? {
      return None, Some(StageError(PinStage, canceled)), NotChecked;
    }
    if w.configures.Some? {
      return pinned, Some(StageError(ConfigureStage, w.configures.value)), NotChecked;
    }
    var d := pinned.value;
    var refused, classic, bundle := Verify(retries, true, w.verifyCtx, (p: Path, i: nat) => w.answers(d, p, i));
    check := Checked(d, classic, bundle);
    assert forall i | 0 <= i < |classic| :: classic[i].answer == w.answers(d, Classic, i + 1);
    assert forall i | 0 <= i < |bundle| :: bundle[i].answer == w.answers(d, Bundle, i + 1);
    err := if refused.None? then None else Some(StageError(VerifyStage, VerifyCanceled(refused.value)));
  }

  // ---------------------------------------------------------------------------
  // Storing

  /** One attempt of `AddImage`: the descriptor the first fetch gives, whether it is an index, whether
      the platform parses, what the second fetch gives, and whether the blobs and the entry are written. */
  datatype AddIo = AddIo(
    get: Option<Digest>, isIndex: bool, platformParses: bool, image: Option<Digest>, writes: bool, canceled: bool)

  /** What an attempt asked the registry for, and the digest whose blobs it went on to write (history). */
  datatype Attempt = Attempt(target: Target, stored: Option<Digest>)

  /** Which image manifests an index names. */
  type Children = (Digest, Digest) -> bool

  /** The registry client checks what it fetches by digest: the second fetch of a digest reference is
      that image, or under a platform filter one its index names. */
  ghost predicate ContentAddressed(names: Children, target: Target, platform: string, io: AddIo) {
    target.ByDigest? && io.image.Some? ==>
      || io.image.value == target.digest
      || (platform != "" && names(target.digest, io.image.value))
  }

  datatype Added = Added(ok: bool, attempt: Attempt)

  function TargetOf(pinned: Option<Digest>): Target {
    if pinned.Some? then ByDigest(pinned.value) else ByTag
  }

  /** `Layout.AddImage`, as far as it decides what is stored. */
  function AddImage(pinned: Option<Digest>, platform: string, io: AddIo): Added {
    var target := TargetOf(pinned);
    if io.get.None? || (pinned.Some? && io.get != pinned) then Added(false, Attempt(target, None))
    else if io.isIndex && platform == "" then Added(io.writes, Attempt(target, io.get))
    else if (platform != "" && !io.platformParses) || io.image.None? then Added(false, Attempt(target, None))
    else Added(io.writes, Attempt(target, io.image))
  }

  /** When an attempt succeeds, and what it has stored then. Under a platform filter, and for what is no
      index, that is what the second fetch gives. */
  lemma AttemptSucceedsExactlyWhen(pinned: Option<Digest>, platform: string, io: AddIo)
    ensures var a := AddImage(pinned, platform, io);
            var whole := io.isIndex && platform == "";
            && (a.ok <==>
                  && io.get.Some? && (pinned.Some? ==> io.get.value == pinned.value) && io.writes
                  && (whole || (io.image.Some? && (platform == "" || io.platformParses))))
            && (a.ok ==> a.attempt.stored == if whole then io.get else io.image)
            && (a.attempt.target.ByTag? <==> pinned.None?)
  {
  }

  /** An attempt fetches the pin and stores the pin, or a child that the pinned index names. */
  ghost predicate KeepsThePin(names: Children, pinned: Digest, platform: string, a: Attempt) {
    && a.target == ByDigest(pinned)
    && (a.stored.Some? ==>
          a.stored.value == pinned || (platform != "" && names(pinned, a.stored.value)))
  }

  lemma PinnedAttemptKeepsThePin(names: Children, pinned: Digest, platform: string, io: AddIo)
    requires ContentAddressed(names, ByDigest(pinned), platform, io)
    ensures KeepsThePin(names, pinned, platform, AddImage(Some(pinned), platform, io).attempt)
  {
  }

  /** The last of `n` attempts returned nil. */
  predicate StoredAtLast(job: ImageJob, pinned: Option<Digest>, w: World, n: nat) {
    n > 0 && AddImage(pinned, job.platform, w.adds(n, TargetOf(pinned))).ok
  }

  /** The name an image is rewritten to: an untagged one gets the tag of the reference, if that has one. */
  function NewName(job: ImageJob): Option<string> {
    var name := if HasPrefix(job.rewrite, "/") then job.rewrite[1..] else job.rewrite;
    if ':' in name then Some(name)
    else if job.tag.Some? then Some(name + ":" + job.tag.value)
    else None
  }

  /** A rewrite to a name with a tag is to that name, and to one without is to it with the tag of the reference;
      one leading slash does not matter. */
  lemma RewrittenNames(job: ImageJob, name: string, slash: bool)
    requires name != "" && name[0] != '/' && job.rewrite == (if slash then "/" else "") + name
    ensures NewName(job) == if ':' in name then Some(name)
                            else if job.tag.Some? then Some(name + ":" + job.tag.value) else None
  {
    assert if slash then job.rewrite[0] == '/' && job.rewrite[1..] == name else job.rewrite == name;
  }

  /** There is a new name, and it is one. */
  predicate CanBeNamed(job: ImageJob, w: World) {
    job.rewrite != "" && NewName(job).Some? && w.names(NewName(job).value)
  }

  /** No rewrite was asked for, or the rewrite goes through. */
  predicate RewriteWorks(job: ImageJob, w: World) {
    job.rewrite == "" || (CanBeNamed(job, w) && w.renames(NewName(job).value))
  }

  /** Whether a job that reached its store with this pin ends without an error, after `n` attempts. An
      add that failed may be ignored, a rewrite that failed never is. */
  predicate EndsWell(job: ImageJob, pinned: Option<Digest>, ignoreErrors: bool, w: World, n: nat) {
    w.alive.None? && if StoredAtLast(job, pinned, w, n) then RewriteWorks(job, w) else ignoreErrors
  }

  /** `storeImage`: every attempt is given the same pin. `verified` only goes to the audit log. `renamed` is
      the name `rewriteReference` was called with, which is after a successful add only. */
  method StoreImage(job: ImageJob, pinned: Option<Digest>, verified: bool, retries: int, ignoreErrors: bool, w: World)
    returns (ok: bool, attempts: seq<Attempt>, renamed: Option<string>)
    ensures forall i | 0 <= i < |attempts| ::
              attempts[i] == AddImage(pinned, job.platform, w.adds(i + 1, TargetOf(pinned))).attempt
    ensures |attempts| <= Budget(retries)
    ensures w.alive.Some? || !job.parses ==> attempts == []
    // Under a context that does not end, a failing add is tried as often as allowed.
    ensures w.alive.None? && job.parses && Silent(w.storeCtx) && !StoredAtLast(job, pinned, w, |attempts|) ==>
              |attempts| == if retries > 0 then retries else 3
    ensures ok <==> EndsWell(job, pinned, ignoreErrors, w, |attempts|)
    ensures renamed ==
            if StoredAtLast(job, pinned, w, |attempts|) && CanBeNamed(job, w) then NewName(job) else None
  {
    attempts, renamed := [], None;
    if w.alive.Some? {
      return false, [], None;
    }
    if !job.parses {
      return ignoreErrors, [], None;
    }
    var target := TargetOf(pinned);
    var r, calls := Operation(retries, w.storeCtx, (n: nat) =>
      if AddImage(pinned, job.platform, w.adds(n, target)).ok then None else Some(w.adds(n, target).canceled));
    attempts := seq(calls, i requires 0 <= i < calls =>
      AddImage(pinned, job.platform, w.adds(i + 1, target)).attempt);
    if !r.Succeeded? {
      return ignoreErrors, attempts, None;
    }
    if job.rewrite == "" {
      return true, attempts, None;
    }
    var name := NewName(job);
    if name.None? || !w.names(name.value) {
      return false, attempts, None;
    }
    return w.renames(name.value), attempts, name;
  }

  // ---------------------------------------------------------------------------
  // The job

  datatype StoreCall = StoreCall(
    pinned: Option<Digest>, verified: bool, attempts: seq<Attempt>, renamed: Option<string>)

  /** What a job did (history). */
  datatype JobLog = JobLog(check: Check, failure: Option<StageError>, pinned: Option<Digest>, store: Option<StoreCall>)

  /** `logVerifyFailure`: whether the failure ends the job. */
  predicate Propagates(e: StageError, ignoreErrors: bool) {
    e.canceled || !ignoreErrors
  }

  /** The registry is content-addressed for every digest reference a job may use. */
  ghost predicate HonestRegistry(names: Children, platform: string, w: World) {
    forall n, d :: ContentAddressed(names, ByDigest(d), platform, w.adds(n, ByDigest(d)))
  }

  /** Whatever was pinned is what every attempt of the store call fetches and keeps. */
  ghost predicate StoresThePin(names: Children, platform: string, log: JobLog) {
    log.store.Some? && log.pinned.Some? ==>
      && log.store.value.pinned == log.pinned
      && forall a <- log.store.value.attempts :: KeepsThePin(names, log.pinned.value, platform, a)
  }

  /** The body of one job of `runRemoteImageJobsWith`. Tags move as they like between the steps. */
  method RunJob(job: ImageJob, retries: int, ignoreErrors: bool, w: World, ghost names: Children)
    returns (ok: bool, log: JobLog)
    requires HonestRegistry(names, job.platform, w)
    // `verified` means: verification was asked for, and `Verify` accepted exactly the digest stored.
    ensures log.store.Some? ==>
              (log.store.value.verified <==> log.pinned.Some? && Accepted(log.check, log.pinned.value))
    ensures log.store.Some? && log.store.value.verified ==> job.cfg.Some? && log.failure.None?
    ensures Made(retries, w, log.check)
    // A failure after the pin that is ignored still stores the pin.
    ensures StoresThePin(names, job.platform, log)
    ensures job.cfg.Some? && log.store.Some? ==>
              (log.pinned.None? <==> log.failure.Some? && log.failure.value.stage in {ParseStage, PinStage})
    // A cancellation, and any failure when errors are not ignored, stops the job before the store.
    ensures log.store.None? <==> log.failure.Some? && (log.failure.value.canceled || !ignoreErrors)
    ensures ok <==> log.store.Some? && EndsWell(job, log.pinned, ignoreErrors, w, |log.store.value.attempts|)
    // No verification asked for: the tag is stored as it stands.
    ensures job.cfg.None? ==> log.store.Some? && forall a <- log.store.value.attempts :: a.target == ByTag
  {
    var pinned, err, check := ResolveAndVerify(job, retries, w);
    log := JobLog(check, err, pinned, None);
    if err.Some? && Propagates(err.value, ignoreErrors) {
      return false, log;
    }
    var verified := err.None? && job.cfg.Some?;
    var attempts, renamed;
    ok, attempts, renamed := StoreImage(job, pinned, verified, retries, ignoreErrors, w);
    log := log.(store := Some(StoreCall(pinned, verified, attempts, renamed)));
    if pinned.Some? {
      forall a | a in attempts ensures KeepsThePin(names, pinned.value, job.platform, a) {
        var i :| 0 <= i < |attempts| && attempts[i] == a;
        PinnedAttemptKeepsThePin(names, pinned.value, job.platform, w.adds(i + 1, ByDigest(pinned.value)));
      }
    }
  }
}
