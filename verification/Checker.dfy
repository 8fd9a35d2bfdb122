/** The memoized integrity checker, against the plain reading of the graph in `Graph`. */
module IntegrityCheck {
  import opened Content
  import opened Graph

  /** Every descriptor a check can meet, starting from those in `scope`, is in `scope`. */
  ghost predicate ScopeClosed(c: Codec, disk: Disk, scope: set<Descriptor>) {
    forall a | a in scope && Opened(c, disk, a).Some? ::
      forall x <- Leaves(Opened(c, disk, a).value) + Subs(Opened(c, disk, a).value) :: x in scope
  }

  /** A size that lets the check go on to the content. */
  predicate SizeFits(size: int, b: Bytes) {
    size <= 0 || |b| == size
  }

  /** A check learns the size of the file. */
  predicate Sized(disk: Disk, d: Digest) {
    d in disk.files && !disk.Fails(d, StatFails)
  }

  /** The memo is keyed by digest alone although a check also reads the size. That is harmless as long
      as the sizes claimed for one measured blob all fit it, or all do not. */
  ghost predicate SizesAgree(disk: Disk, scope: set<Descriptor>) {
    forall a, b | a in scope && b in scope && a.digest == b.digest && Sized(disk, a.digest) ::
      SizeFits(a.size, disk.files[a.digest]) == SizeFits(b.size, disk.files[a.digest])
  }

  /** A check with the answer `s` has started to stream the blob through a verifier, rather than stopping
      before. That is so as well when a read fails half way. */
  predicate Streams(disk: Disk, d: Digest, s: Status) {
    s == BlobOK || s == BlobDigestMismatch || (s == BlobUnreadable && Available(d.alg) && disk.Fails(d, ReadFails))
  }

  lemma {:induction false} LeafProblemsAnyOrder(c: Codec, disk: Disk, leaves: seq<Descriptor>, i: nat)
    requires i < |leaves|
    ensures LeafProblems(c, disk, leaves) ==
            LeafProblems(c, disk, [leaves[i]]) + LeafProblems(c, disk, leaves[..i] + leaves[i + 1..])
  {
    hide CheckBlob;
    var rest := leaves[..i] + leaves[i + 1..];
    if i == 0 {
      assert rest == leaves[1..];
    } else {
      LeafProblemsAnyOrder(c, disk, leaves[1..], i - 1);
      assert leaves[1..][..i - 1] + leaves[1..][i..] == rest[1..];
    }
  }

  datatype CheckResult = CheckResult(ok: bool, problems: seq<BlobResult>)

  class Checker {
    const codec: Codec
    const disk: Disk
    var memo: map<Digest, Status>
    var hashCounts: map<Digest, nat>

    constructor (codec: Codec, disk: Disk)
      ensures this.codec == codec && this.disk == disk
      ensures memo == map[] && hashCounts == map[]
    {
      this.codec, this.disk := codec, disk;
      memo, hashCounts := map[], map[];
    }

    function HashCount(d: Digest): nat
      reads this
    {
      if d in hashCounts then hashCounts[d] else 0
    }

    /** Whatever is memoized for a descriptor in scope is what the plain check says of it. */
    ghost predicate Sound(scope: set<Descriptor>)
      reads this
    {
      forall a | a in scope && a.digest in memo :: memo[a.digest] == CheckBlob(codec, disk, a)
    }

    /** A blob was streamed once if its memoized check came to that, and never otherwise. */
    ghost predicate HashedOnce()
      reads this
    {
      forall d :: HashCount(d) == if d in memo && Streams(disk, d, memo[d]) then 1 else 0
    }

    method CheckOneBlob(desc: Descriptor) returns (s: Status)
      modifies this`hashCounts
      ensures s == CheckBlob(codec, disk, desc)
      ensures s == BlobOK <==> SoundBlob(codec, disk, desc)
      // The count goes up by one exactly when the file has the right length and could be opened.
      ensures var d := desc.digest;
              HashCount(d) == old(HashCount(d)) +
                if d in disk.files && !disk.Fails(d, StatFails) && !disk.Fails(d, OpenFails)
                   && (desc.size > 0 ==> |disk.files[d]| == desc.size) && d.alg in {"sha256", "sha384", "sha512"}
                then 1 else 0
      ensures s == BlobDigestMismatch ==>
                codec.hash(desc.digest.alg, disk.files[desc.digest]) != desc.digest.hex
      ensures forall d :: HashCount(d) ==
                          old(HashCount(d)) + if d == desc.digest && Streams(disk, d, s) then 1 else 0
    {
      var d := desc.digest;
      if disk.Fails(d, StatFails) {
        return BlobUnreadable;
      }
      if d !in disk.files {
        return BlobMissing;
      }
      if desc.size > 0 && |disk.files[d]| != desc.size {
        return BlobSizeMismatch;
      }
      if !Available(d.alg) || disk.Fails(d, OpenFails) {
        return BlobUnreadable;
      }
      hashCounts := hashCounts[d := HashCount(d) + 1];
      if disk.Fails(d, ReadFails) {
        return BlobUnreadable;
      }
      s := if HashOk(codec, d, disk.files[d]) then BlobOK else BlobDigestMismatch;
    }

    /** However the requests for one digest interleave, the first one to reach the entry computes
        it and the others read it; this is that atomic step. */
    method CheckMemo(desc: Descriptor) returns (s: Status)
      requires HashedOnce()
      modifies this
      ensures HashedOnce()
      ensures s == if desc.digest in old(memo) then old(memo)[desc.digest] else CheckBlob(codec, disk, desc)
      ensures memo == old(memo)[desc.digest := s]
    {
      if desc.digest in memo {
        s := memo[desc.digest];
        return;
      }
      s := CheckOneBlob(desc);
      memo := memo[desc.digest := s];
    }

    /** When the claimed sizes agree the memo may be read back: the answer is the plain check's. */
    method CheckInScope(desc: Descriptor, ghost scope: set<Descriptor>) returns (s: Status)
      requires desc in scope && SizesAgree(disk, scope)
      requires Sound(scope) && HashedOnce()
      modifies this
      ensures Sound(scope) && HashedOnce()
      ensures s == CheckBlob(codec, disk, desc)
    {
      s := CheckMemo(desc);
    }

    /** Config and layers run in any order, bounded by the group's limit; `pending[i]` is whichever
        of them goes next. */
    method CheckLeaves(leaves: seq<Descriptor>, ghost scope: set<Descriptor>) returns (problems: seq<BlobResult>)
      requires SizesAgree(disk, scope) && forall l | l in leaves :: l in scope
      requires Sound(scope) && HashedOnce()
      modifies this
      ensures Sound(scope) && HashedOnce()
      ensures multiset(problems) == LeafProblems(codec, disk, leaves)
    {
      hide SizesAgree, Sound, HashedOnce, CheckBlob;
      problems := [];
      var pending := leaves;
      while pending != []
        invariant forall l | l in pending :: l in scope
        invariant Sound(scope) && HashedOnce()
        invariant multiset(problems) + LeafProblems(codec, disk, pending) == LeafProblems(codec, disk, leaves)
        decreases |pending|
      {
        var i :| 0 <= i < |pending|;
        var s := CheckInScope(pending[i], scope);
        LeafProblemsAnyOrder(codec, disk, pending, i);
        problems := problems + if s != BlobOK then [BlobResult(pending[i].digest, s)] else [];
        pending := pending[..i] + pending[i + 1..];
      }
    }

    /** Child manifests run one after the other, each with its own graph. */
    method CheckSubs(subs: seq<Descriptor>, ghost bound: nat, ghost scope: set<Descriptor>, ghost rank: Digest -> nat)
      returns (problems: seq<BlobResult>)
      requires PeekAgrees(codec) && Acyclic(codec, disk, rank)
      requires ScopeClosed(codec, disk, scope) && SizesAgree(disk, scope)
      requires forall s | s in subs :: s in scope && rank(s.digest) < bound
      requires Sound(scope) && HashedOnce()
      modifies this
      ensures Sound(scope) && HashedOnce()
      ensures multiset(problems) == SubProblems(codec, disk, rank, subs, bound)
      decreases bound, 0
    {
      hide Acyclic, PeekAgrees, ScopeClosed, SizesAgree, Sound, HashedOnce, Intact, Problems, SubProblems;
      problems := [];
      var i := 0;
      assert subs[0..] == subs;
      while i < |subs|
        invariant 0 <= i <= |subs|
        invariant Sound(scope) && HashedOnce()
        invariant multiset(problems) + SubProblems(codec, disk, rank, subs[i..], bound) ==
                  SubProblems(codec, disk, rank, subs, bound)
      {
        SubProblemsFrom(codec, disk, rank, subs, bound, i);
        var child := Check(subs[i], scope, rank);
        NoProblemsExactlyWhenIntact(codec, disk, rank, subs[i]);
        problems := problems + if !child.ok then child.problems else [];
        i := i + 1;
      }
      SubProblemsFrom(codec, disk, rank, subs, bound, i);
    }

    /** The walk over a descriptor graph. Whatever was memoized before and whatever order the
        leaves finish in, it reports the plain check's problems, each as often. */
    method Check(desc: Descriptor, ghost scope: set<Descriptor>, ghost rank: Digest -> nat)
      returns (result: CheckResult)
      requires PeekAgrees(codec) && Acyclic(codec, disk, rank)
      requires desc in scope && ScopeClosed(codec, disk, scope) && SizesAgree(disk, scope)
      requires Sound(scope) && HashedOnce()
      modifies this
      ensures Sound(scope) && HashedOnce()
      ensures multiset(result.problems) == Problems(codec, disk, rank, desc)
      ensures result.ok <==> Intact(codec, disk, desc)
      // Everything the bytes name, level by level, is there, has its size and hashes to its digest.
      ensures result.ok <==> SoundGraph(codec, disk, desc)
      decreases rank(desc.digest), 1
    {
      IntactMeansSound(codec, disk, desc);
      hide SoundGraph;
      NoProblemsExactlyWhenIntact(codec, disk, rank, desc);
      var own := CheckInScope(desc, scope);
      if own != BlobOK {
        return CheckResult(false, [BlobResult(desc.digest, own)]);
      }
      var decoded := codec.decode(disk.files[desc.digest]);
      if decoded.None? {
        return CheckResult(false, [BlobResult(desc.digest, BlobUnreadable)]);
      }
      var m := decoded.value;
      InScope(m, desc, scope, rank);
      var leafProblems := CheckLeaves(Leaves(m), scope);
      var subProblems := CheckSubs(Subs(m), rank(desc.digest), scope, rank);
      var problems := leafProblems + subProblems;
      result := CheckResult(|problems| == 0, problems);
    }

    lemma InScope(m: Manifest, desc: Descriptor, scope: set<Descriptor>, rank: Digest -> nat)
      requires PeekAgrees(codec) && Acyclic(codec, disk, rank)
      requires desc in scope && ScopeClosed(codec, disk, scope) && Opened(codec, disk, desc) == Some(m)
      ensures forall l | l in Leaves(m) :: l in scope
      ensures forall s | s in Subs(m) :: s in scope && rank(s.digest) < rank(desc.digest)
    {
      forall l | l in Leaves(m) ensures l in scope {
        assert l in Leaves(m) + Subs(m);
      }
      forall s | s in Subs(m) ensures s in scope && rank(s.digest) < rank(desc.digest) {
        assert s in Leaves(m) + Subs(m);
        SubRank(codec, disk, rank, desc, s);
      }
    }
  }

  // ---------------------------------------------------------------------------
  // When a memo keyed by digest alone is right

  /** Reading back under `b` what was memoized for `a` is right exactly when the blob is missing, or its
      size cannot be read, or both sizes fit the file or neither does. */
  lemma MemoAgreesExactlyWhen(c: Codec, disk: Disk, a: Descriptor, b: Descriptor)
    requires a.digest == b.digest
    ensures CheckBlob(c, disk, a) == CheckBlob(c, disk, b) <==>
              || !Sized(disk, a.digest)
              || SizeFits(a.size, disk.files[a.digest]) == SizeFits(b.size, disk.files[a.digest])
  {
  }

  /** So on a fresh checker the second of two descriptors of one digest is answered rightly in exactly
      these cases; whenever their sizes disagree about a stored blob, its answer is wrong. */
  method SecondAnswer(c: Codec, disk: Disk, a: Descriptor, b: Descriptor) returns (second: Status)
    requires a.digest == b.digest
    ensures second == CheckBlob(c, disk, b) <==> SizesAgree(disk, {a, b})
  {
    var checker := new Checker(c, disk);
    var first := checker.CheckMemo(a);
    second := checker.CheckMemo(b);
    MemoAgreesExactlyWhen(c, disk, a, b);
    if Sized(disk, a.digest) {
      assert SizesAgree(disk, {a, b}) <==>
             SizeFits(a.size, disk.files[a.digest]) == SizeFits(b.size, disk.files[a.digest]);
    }
  }

  /** Two sizes for one digest: after the wrong one, a sound blob is reported as damaged. */
  method SecondSizeIsReportedWrong(c: Codec, d: Digest, bytes: Bytes) returns (second: Status, plain: Status)
    requires Valid(d) && HashOk(c, d, bytes)
    ensures second == BlobSizeMismatch
    ensures plain == BlobOK
  {
    var disk := Disk(map[d := bytes], map[]);
    var wrong := Descriptor("", d, |bytes| + 1, map[], "");
    var right := Descriptor("", d, |bytes|, map[], "");
    var checker := new Checker(c, disk);
    var _ := checker.CheckMemo(wrong);
    second := checker.CheckMemo(right);
    plain := CheckBlob(c, disk, right);
  }
}
