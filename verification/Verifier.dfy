/** Signature verification: which registry calls it makes, and when it may make another one. */
module Verifier {
  import opened Content
  import opened Retry

  /** The error types looked for in the chain of an answer. */
  datatype Kind = NoMatchingSignatures | NoMatchingAttestations | TagNotFound | NoSignaturesFound

  /** A verification call's error: the kinds in its chain, and whether that holds `context.Canceled`. */
  datatype Refusal = Refusal(kinds: set<Kind>, canceled: bool)

  datatype VerifyError =
    | BadReference | Done(ctx: ContextError) | Refused(refusal: Refusal) | OutOfAttempts(attempts: nat, last: Refusal)

  datatype Path = Classic | Bundle

  /** A call that was made, and its error if it had one. */
  datatype Asked = Asked(path: Path, answer: Option<Refusal>)

  /** `fallbackEligible`: the image carries no classic signature. */
  predicate Absent(e: Refusal) {
    TagNotFound in e.kinds || NoSignaturesFound in e.kinds
  }

  /** Something was found and none of it validated. */
  predicate NoMatch(e: Refusal) {
    NoMatchingSignatures in e.kinds || NoMatchingAttestations in e.kinds
  }

  /** `retryableVerifyErr`. */
  predicate Retryable(e: Refusal) {
    !NoMatch(e) && !Absent(e)
  }

  /** The refusal in an error's chain, through the wrapping of an exhausted budget. */
  function RefusalOf(e: VerifyError): Option<Refusal> {
    match e
    case Refused(r) => Some(r)
    case OutOfAttempts(_, r) => Some(r)
    case _ => None
  }

  function Answer(answers: nat -> Option<Refusal>, n: nat): Option<Refusal> {
    if answers(n).Some? && Retryable(answers(n).value) then answers(n) else None
  }

  function Calls(path: Path, answers: nat -> Option<Refusal>, n: nat): (r: seq<Asked>)
    ensures |r| == n && forall i | 0 <= i < n :: r[i] == Asked(path, answers(i + 1))
  {
    seq(n, i requires 0 <= i < n => Asked(path, answers(i + 1)))
  }

  /** One path's calls: retryable refusals, then perhaps a last answer of any sort. */
  ghost predicate PathTrace(retries: int, path: Path, calls: seq<Asked>) {
    && |calls| <= Budget(retries)
    && (forall c <- calls :: c.path == path)
    && forall i | 0 <= i < |calls| - 1 :: calls[i].answer.Some? && Retryable(calls[i].answer.value)
  }

  ghost predicate EndsAccepted(calls: seq<Asked>) {
    calls != [] && calls[|calls| - 1].answer.None?
  }

  /** The last answer is the error, unless the context ended first. */
  ghost predicate EndsWith(calls: seq<Asked>, e: VerifyError) {
    && (RefusalOf(e).Some? ==> calls != [] && calls[|calls| - 1].answer == RefusalOf(e))
    && (RefusalOf(e).None? && calls != [] ==>
          calls[|calls| - 1].answer.Some? && Retryable(calls[|calls| - 1].answer.value))
  }

  /** The calls are what the registry answered, in order. */
  ghost predicate Answered(calls: seq<Asked>, answers: nat -> Option<Refusal>) {
    forall i: nat | i < |calls| :: calls[i].answer == answers(i + 1)
  }

  /** Calls that end with an unclassified error were as many as allowed: such an error is tried again. */
  ghost predicate UsesItsBudget(retries: int, calls: seq<Asked>) {
    calls != [] && calls[|calls| - 1].answer.Some? && calls[|calls| - 1].answer.value.kinds == {} ==>
      |calls| == if retries > 0 then retries else 3
  }

  ghost predicate Silent(ctx: Ctx) {
    forall n :: ctx.before(n).None? && ctx.waiting(n).None?
  }

  /** `withRetry`. A refusal no further attempt may touch leaves the loop disguised as success. */
  method WithRetry(retries: int, ctx: Ctx, path: Path, answers: nat -> Option<Refusal>)
    returns (err: Option<VerifyError>, calls: seq<Asked>)
    ensures PathTrace(retries, path, calls) && Answered(calls, answers)
    ensures err.None? <==> EndsAccepted(calls)
    ensures err.Some? ==> EndsWith(calls, err.value) && !err.value.BadReference?
    ensures Silent(ctx) ==> calls != [] && (err.Some? ==> !err.value.Done?)
    ensures Silent(ctx) ==> UsesItsBudget(retries, calls)
  {
    var tried := (i: nat) => Answer(answers, i);
    var r, n := Operation(retries, ctx, tried);
    calls := Calls(path, answers, n);
    forall i | 0 <= i < |calls| - 1 ensures calls[i].answer.Some? && Retryable(calls[i].answer.value) {
      assert tried(i + 1).Some?;
    }
    // The captured `terminal` is set by a call that ended the loop with a refusal.
    if r.Succeeded? && answers(n).Some? {
      return Some(Refused(answers(n).value)), calls;
    }
    match r
    case Succeeded => err := None;
    case Aborted(c) => err := Some(Done(c));
    case Exhausted(k, last) => err := Some(OutOfAttempts(k, last));
  }

  /** What every run of `Verify` looks like: the classic calls, then the bundle calls if the classic
      ones ended in "absent". */
  ghost predicate VerifyTrace(retries: int, classic: seq<Asked>, bundle: seq<Asked>) {
    && PathTrace(retries, Classic, classic) && PathTrace(retries, Bundle, bundle)
    && (bundle != [] ==>
          && classic != [] && classic[|classic| - 1].answer.Some?
          && Absent(classic[|classic| - 1].answer.value))
  }

  /** Only an error of no known type is tried again, and each path within its own budget. */
  lemma OnlyUnclassifiedErrorsAreRetried(retries: int, path: Path, calls: seq<Asked>, i: nat)
    requires PathTrace(retries, path, calls) && i < |calls|
    ensures |calls| <= if retries > 0 then retries else 3
    ensures i < |calls| - 1 ==> calls[i].answer.Some? && calls[i].answer.value.kinds == {}
    ensures calls[i].answer.None? || calls[i].answer.value.kinds != {} ==> i == |calls| - 1
  {
    if i < |calls| - 1 {
      var kinds := calls[i].answer.value.kinds;
      forall k | k in kinds ensures false {
        match k
        case NoMatchingSignatures =>
        case NoMatchingAttestations =>
        case TagNotFound =>
        case NoSignaturesFound =>
      }
    }
  }

  /** `Verifier.Verify` on a digest reference. */
  method Verify(retries: int, parses: bool, ctx: Path -> Ctx, answers: (Path, nat) -> Option<Refusal>)
    returns (err: Option<VerifyError>, classic: seq<Asked>, bundle: seq<Asked>)
    ensures VerifyTrace(retries, classic, bundle)
    ensures Answered(classic, (n: nat) => answers(Classic, n)) && Answered(bundle, (n: nat) => answers(Bundle, n))
    ensures err.None? <==> EndsAccepted(classic + bundle)
    ensures !parses ==> err == Some(BadReference) && classic + bundle == []
    ensures err.Some? && RefusalOf(err.value).Some? ==>
              classic + bundle != [] && (classic + bundle)[|classic + bundle| - 1].answer == RefusalOf(err.value)
    ensures parses && Silent(ctx(Classic)) && Silent(ctx(Bundle)) ==>
              && (err.Some? ==> RefusalOf(err.value).Some?)
              && UsesItsBudget(retries, classic) && UsesItsBudget(retries, bundle)
    ensures parses && Silent(ctx(Classic)) && Silent(ctx(Bundle)) ==>
              && classic != []
              && var last := classic[|classic| - 1].answer;
                 bundle != [] <==>
                   last.Some? && (TagNotFound in last.value.kinds || NoSignaturesFound in last.value.kinds)
  {
    classic, bundle := [], [];
    if !parses {
      return Some(BadReference), [], [];
    }
    err, classic := WithRetry(retries, ctx(Classic), Classic, (n: nat) => answers(Classic, n));
    if err.None? {
      return;
    }
    if RefusalOf(err.value).None? || !Absent(RefusalOf(err.value).value) {
      return;
    }
    err, bundle := WithRetry(retries, ctx(Bundle), Bundle, (n: nat) => answers(Bundle, n));
    assert bundle != [] ==> (classic + bundle)[|classic + bundle| - 1] == bundle[|bundle| - 1];
  }

  /** After an answer that found signatures and validated none, exactly one thing lets another call
      follow: the same chain also says that the classic signature is absent. */
  lemma NoCallFollowsANoMatch(retries: int, classic: seq<Asked>, bundle: seq<Asked>, i: nat)
    requires VerifyTrace(retries, classic, bundle) && i < |classic + bundle| - 1
    requires var a := (classic + bundle)[i].answer; a.Some? && NoMatch(a.value)
    ensures i == |classic| - 1 && Absent((classic + bundle)[i].answer.value)
  {
    assert forall k | 0 <= k < |bundle| :: (classic + bundle)[|classic| + k] == bundle[k];
  }

  /** With answers that never say both, a failed match is the last call and the run's error. */
  lemma AFailedMatchIsFinal(retries: int, classic: seq<Asked>, bundle: seq<Asked>, i: nat)
    requires VerifyTrace(retries, classic, bundle) && i < |classic + bundle|
    requires var a := (classic + bundle)[i].answer; a.Some? && NoMatch(a.value) && !Absent(a.value)
    ensures i == |classic + bundle| - 1 && !EndsAccepted(classic + bundle)
  {
    if i < |classic + bundle| - 1 {
      NoCallFollowsANoMatch(retries, classic, bundle, i);
    }
  }

  /** A registry answer that says both does get a second chance: the bundle path runs after it. */
  method BothKindsFallBack(retries: int, ctx: Path -> Ctx, answers: (Path, nat) -> Option<Refusal>)
    returns (err: Option<VerifyError>, classic: seq<Asked>, bundle: seq<Asked>)
    requires Silent(ctx(Classic)) && Silent(ctx(Bundle))
    requires answers(Classic, 1) == Some(Refusal({NoMatchingSignatures, TagNotFound}, false))
    requires answers(Bundle, 1).None?
    ensures err.None? && |classic| == |bundle| == 1
  {
    err, classic, bundle := Verify(retries, true, ctx, answers);
    assert classic[0].answer == ((n: nat) => answers(Classic, n))(1);
    assert bundle[0].answer == ((n: nat) => answers(Bundle, n))(1);
  }
}
