/** The descriptor graph as the integrity checker reads it. */
module Graph {
  import opened Content

  /** Which call on a blob's path fails: `Stat`, for another reason than that there is no file, the call
      that opens the file, or one that reads from it. The calls after it fail too. */
  datatype Fault = StatFails | OpenFails | ReadFails

  /** The blob directory, with the files that exist but cannot be read to their end. */
  datatype Disk = Disk(files: Files, faults: map<Digest, Fault>) {

    predicate Fails(d: Digest, fault: Fault) {
      d in faults && faults[d] == fault
    }
  }

  datatype Status = BlobOK | BlobMissing | BlobSizeMismatch | BlobDigestMismatch | BlobUnreadable

  datatype BlobResult = BlobResult(digest: Digest, status: Status)

  /** One blob against its descriptor; each test short-circuits the next. */
  function CheckBlob(c: Codec, disk: Disk, desc: Descriptor): Status {
    var d := desc.digest;
    if disk.Fails(d, StatFails) then BlobUnreadable
    else if d !in disk.files then BlobMissing
    else if desc.size > 0 && |disk.files[d]| != desc.size then BlobSizeMismatch
    else if !Available(d.alg) then BlobUnreadable
    else if d in disk.faults then BlobUnreadable
    else if !HashOk(c, d, disk.files[d]) then BlobDigestMismatch
    else BlobOK
  }

  /** Entries whose digest does not validate are skipped everywhere below the root. */
  function ValidOnly(ds: seq<Descriptor>): seq<Descriptor> {
    if ds == [] then []
    else (if Valid(ds[0].digest) then [ds[0]] else []) + ValidOnly(ds[1..])
  }

  lemma {:induction false} ValidOnlyMembers(ds: seq<Descriptor>, x: Descriptor)
    ensures x in ValidOnly(ds) <==> x in ds && Valid(x.digest)
  {
    if ds != [] {
      ValidOnlyMembers(ds[1..], x);
      assert ds == [ds[0]] + ds[1..];
    }
  }

  /** Config and layers: checked, never opened as manifests. */
  function Leaves(m: Manifest): seq<Descriptor> {
    ValidOnly([m.config] + m.layers)
  }

  /** Children in manifest position. */
  function Subs(m: Manifest): seq<Descriptor> {
    ValidOnly(m.manifests)
  }

  /** A digest graph over readable files has no cycle. `rank` is the witness. Neither the
      checker nor the collector keeps a visited set, so this is what makes them return. */
  ghost predicate Acyclic(c: Codec, disk: Disk, rank: Digest -> nat) {
    forall d | d in disk.files && d !in disk.faults && c.peek(disk.files[d]).Some? ::
      forall s <- c.peek(disk.files[d]).value.manifests | Valid(s) :: rank(s) < rank(d)
  }

  /** The manifest at `desc`, when the checker can trust it and read it. */
  function Opened(c: Codec, disk: Disk, desc: Descriptor): Option<Manifest> {
    if CheckBlob(c, disk, desc) == BlobOK then c.decode(disk.files[desc.digest]) else None
  }

  lemma SubRank(c: Codec, disk: Disk, rank: Digest -> nat, desc: Descriptor, sub: Descriptor)
    requires PeekAgrees(c) && Acyclic(c, disk, rank)
    requires Opened(c, disk, desc).Some? && sub in Subs(Opened(c, disk, desc).value)
    ensures Valid(sub.digest) && rank(sub.digest) < rank(desc.digest)
  {
    var m := Opened(c, disk, desc).value;
    ValidOnlyMembers(m.manifests, sub);
    var i :| 0 <= i < |m.manifests| && m.manifests[i] == sub;
    assert Digests(m.manifests)[i] == sub.digest;
  }

  /** The problem a descriptor has in manifest position, whatever lies below it. */
  function OwnProblem(c: Codec, disk: Disk, desc: Descriptor): Option<BlobResult> {
    var s := CheckBlob(c, disk, desc);
    if s != BlobOK then Some(BlobResult(desc.digest, s))
    else if c.decode(disk.files[desc.digest]).None? then Some(BlobResult(desc.digest, BlobUnreadable))
    else None
  }

  function LeafProblems(c: Codec, disk: Disk, leaves: seq<Descriptor>): multiset<BlobResult> {
    if leaves == [] then multiset{}
    else
      var s := CheckBlob(c, disk, leaves[0]);
      (if s == BlobOK then multiset{} else multiset{BlobResult(leaves[0].digest, s)})
        + LeafProblems(c, disk, leaves[1..])
  }

  /** Every failure in the graph of `desc` that is not hidden below a bad manifest, without a
      memo and without an order. */
  ghost function Problems(c: Codec, disk: Disk, rank: Digest -> nat, desc: Descriptor): multiset<BlobResult>
    requires PeekAgrees(c) && Acyclic(c, disk, rank)
    decreases rank(desc.digest), 1, 0
  {
    match OwnProblem(c, disk, desc)
    case Some(p) => multiset{p}
    case None =>
      var m := Opened(c, disk, desc).value;
      assert forall s | s in Subs(m) :: rank(s.digest) < rank(desc.digest) by {
        forall s | s in Subs(m) ensures rank(s.digest) < rank(desc.digest) {
          SubRank(c, disk, rank, desc, s);
        }
      }
      LeafProblems(c, disk, Leaves(m)) + SubProblems(c, disk, rank, Subs(m), rank(desc.digest))
  }

  ghost function SubProblems(c: Codec, disk: Disk, rank: Digest -> nat, subs: seq<Descriptor>, bound: nat)
    : multiset<BlobResult>
    requires PeekAgrees(c) && Acyclic(c, disk, rank)
    requires forall s | s in subs :: rank(s.digest) < bound
    decreases bound, 0, |subs|
  {
    if subs == [] then multiset{}
    else Problems(c, disk, rank, subs[0]) + SubProblems(c, disk, rank, subs[1..], bound)
  }

  lemma {:induction false} SubProblemsFrom(
    c: Codec, disk: Disk, rank: Digest -> nat, subs: seq<Descriptor>, bound: nat, i: nat)
    requires PeekAgrees(c) && Acyclic(c, disk, rank) && i <= |subs|
    requires forall s | s in subs :: rank(s.digest) < bound
    ensures SubProblems(c, disk, rank, subs[i..], bound) ==
            if i == |subs| then multiset{}
            else Problems(c, disk, rank, subs[i]) + SubProblems(c, disk, rank, subs[i + 1..], bound)
  {
    hide Acyclic, PeekAgrees, Problems;
    if i < |subs| {
      assert subs[i..][1..] == subs[i + 1..];
    }
  }

  // ---------------------------------------------------------------------------
  // An independent reading of the same graph, by paths

  /** `path` starts at `root` and each step goes from an opened manifest to one of its children. */
  ghost predicate Visible(c: Codec, disk: Disk, root: Descriptor, path: seq<Descriptor>)
    decreases |path|
  {
    && |path| > 0
    && path[0] == root
    && (|path| > 1 ==>
          && Opened(c, disk, root).Some?
          && path[1] in Subs(Opened(c, disk, root).value)
          && Visible(c, disk, path[1], path[1..]))
  }

  /** The descriptor a path leads to. */
  function End(path: seq<Descriptor>): Descriptor
    requires |path| > 0
  {
    path[|path| - 1]
  }

  /** What is wrong at the end of a visible path: the manifest itself, or one of its leaves. */
  ghost predicate WrongAt(c: Codec, disk: Disk, end: Descriptor, r: BlobResult) {
    || OwnProblem(c, disk, end) == Some(r)
    || (&& Opened(c, disk, end).Some?
        && exists l <- Leaves(Opened(c, disk, end).value) ::
             CheckBlob(c, disk, l) == r.status != BlobOK && r.digest == l.digest)
  }

  /** The whole graph below `root` is present, has the right sizes and digests, and every blob in
      manifest position decodes. */
  ghost predicate Intact(c: Codec, disk: Disk, root: Descriptor) {
    forall path | Visible(c, disk, root, path) ::
      var end := End(path);
      && Opened(c, disk, end).Some?
      && forall l <- Leaves(Opened(c, disk, end).value) :: CheckBlob(c, disk, l) == BlobOK
  }

  lemma {:induction false} VisibleTail(c: Codec, disk: Disk, root: Descriptor, sub: Descriptor, tail: seq<Descriptor>)
    requires Opened(c, disk, root).Some? && sub in Subs(Opened(c, disk, root).value)
    requires Visible(c, disk, sub, tail)
    ensures Visible(c, disk, root, [root] + tail) && End([root] + tail) == End(tail)
  {
    assert ([root] + tail)[1..] == tail;
  }

  lemma {:induction false} LeafProblemsMembers(c: Codec, disk: Disk, leaves: seq<Descriptor>, r: BlobResult)
    ensures r in LeafProblems(c, disk, leaves) <==>
              exists l <- leaves :: CheckBlob(c, disk, l) == r.status != BlobOK && r.digest == l.digest
  {
    if leaves != [] {
      LeafProblemsMembers(c, disk, leaves[1..], r);
      assert leaves == [leaves[0]] + leaves[1..];
    }
  }

  lemma {:induction false} SubProblemsMembers(
    c: Codec, disk: Disk, rank: Digest -> nat, subs: seq<Descriptor>, bound: nat, r: BlobResult)
    requires PeekAgrees(c) && Acyclic(c, disk, rank)
    requires forall s | s in subs :: rank(s.digest) < bound
    ensures r in SubProblems(c, disk, rank, subs, bound) <==> exists s <- subs :: r in Problems(c, disk, rank, s)
  {
    if subs != [] {
      var rest := subs[1..];
      SubProblemsMembers(c, disk, rank, rest, bound, r);
      assert SubProblems(c, disk, rank, subs, bound) ==
             Problems(c, disk, rank, subs[0]) + SubProblems(c, disk, rank, rest, bound);
      hide Problems, SubProblems;
      forall s | s in rest ensures s in subs {
      }
      forall s | s in subs ensures s == subs[0] || s in rest {
        var i :| 0 <= i < |subs| && subs[i] == s;
        assert i > 0 ==> rest[i - 1] == s;
      }
    }
  }

  /** A failure visible below `root`. */
  ghost predicate VisiblyWrong(c: Codec, disk: Disk, root: Descriptor, r: BlobResult) {
    exists path :: Visible(c, disk, root, path) && WrongAt(c, disk, End(path), r)
  }

  lemma VisiblyWrongUnfolds(c: Codec, disk: Disk, root: Descriptor, r: BlobResult)
    ensures VisiblyWrong(c, disk, root, r) <==>
              || WrongAt(c, disk, root, r)
              || (Opened(c, disk, root).Some?
                  && exists s <- Subs(Opened(c, disk, root).value) :: VisiblyWrong(c, disk, s, r))
  {
    if WrongAt(c, disk, root, r) {
      assert Visible(c, disk, root, [root]) && End([root]) == root;
    }
    if Opened(c, disk, root).Some? {
      forall s | s in Subs(Opened(c, disk, root).value) && VisiblyWrong(c, disk, s, r)
        ensures VisiblyWrong(c, disk, root, r)
      {
        var tail :| Visible(c, disk, s, tail) && WrongAt(c, disk, End(tail), r);
        VisibleTail(c, disk, root, s, tail);
      }
    }
    if VisiblyWrong(c, disk, root, r) {
      var path :| Visible(c, disk, root, path) && WrongAt(c, disk, End(path), r);
      if |path| > 1 {
        assert End(path[1..]) == End(path);
        assert VisiblyWrong(c, disk, path[1], r);
      }
    }
  }

  /** The reported problems are the failures visible along paths: none invented, none missed. */
  lemma {:induction false} ProblemsAreTheVisibleFailures(
    c: Codec, disk: Disk, rank: Digest -> nat, root: Descriptor, r: BlobResult)
    requires PeekAgrees(c) && Acyclic(c, disk, rank)
    ensures r in Problems(c, disk, rank, root) <==> VisiblyWrong(c, disk, root, r)
    decreases rank(root.digest)
  {
    VisiblyWrongUnfolds(c, disk, root, r);
    if Opened(c, disk, root).Some? {
      var m := Opened(c, disk, root).value;
      forall s | s in Subs(m)
        ensures rank(s.digest) < rank(root.digest)
        ensures r in Problems(c, disk, rank, s) <==> VisiblyWrong(c, disk, s, r)
      {
        SubRank(c, disk, rank, root, s);
        ProblemsAreTheVisibleFailures(c, disk, rank, s, r);
      }
      LeafProblemsMembers(c, disk, Leaves(m), r);
      SubProblemsMembers(c, disk, rank, Subs(m), rank(root.digest), r);
    }
  }

  /** The checker's verdict, read by paths: no problem is reported exactly when the graph is intact. */
  lemma {:induction false} NoProblemsExactlyWhenIntact(c: Codec, disk: Disk, rank: Digest -> nat, root: Descriptor)
    requires PeekAgrees(c) && Acyclic(c, disk, rank)
    ensures Problems(c, disk, rank, root) == multiset{} <==> Intact(c, disk, root)
  {
    if Problems(c, disk, rank, root) == multiset{} {
      forall path | Visible(c, disk, root, path)
        ensures var end := End(path);
                && Opened(c, disk, end).Some?
                && forall l <- Leaves(Opened(c, disk, end).value) :: CheckBlob(c, disk, l) == BlobOK
      {
        var end := End(path);
        if OwnProblem(c, disk, end).Some? {
          ProblemsAreTheVisibleFailures(c, disk, rank, root, OwnProblem(c, disk, end).value);
        }
        forall l | l in Leaves(Opened(c, disk, end).value) ensures CheckBlob(c, disk, l) == BlobOK {
          if CheckBlob(c, disk, l) != BlobOK {
            ProblemsAreTheVisibleFailures(c, disk, rank, root, BlobResult(l.digest, CheckBlob(c, disk, l)));
          }
        }
      }
    }
    if Problems(c, disk, rank, root) != multiset{} {
      var r :| r in Problems(c, disk, rank, root);
      ProblemsAreTheVisibleFailures(c, disk, rank, root, r);
    }
  }

  // ---------------------------------------------------------------------------
  // The same verdict in terms of bytes

  /** The file under the descriptor's digest is there, can be read, has the claimed length if one is claimed,
      and its bytes hash to the digest. */
  predicate SoundBlob(c: Codec, disk: Disk, desc: Descriptor) {
    var d := desc.digest;
    && d in disk.files && d !in disk.faults && d.alg in {"sha256", "sha384", "sha512"}
    && (desc.size > 0 ==> |disk.files[d]| == desc.size)
    && c.hash(d.alg, disk.files[d]) == d.hex
  }

  /** What each answer about one blob says of its file. */
  lemma StatusMeans(c: Codec, disk: Disk, desc: Descriptor)
    ensures var d, s := desc.digest, CheckBlob(c, disk, desc);
            var stat := disk.Fails(d, StatFails);
            var sized := !stat && d in disk.files;
            var fits := sized && (desc.size > 0 ==> |disk.files[d]| == desc.size);
            var readable := d.alg in {"sha256", "sha384", "sha512"} && d !in disk.faults;
            && (s == BlobOK <==> SoundBlob(c, disk, desc))
            && (s == BlobMissing <==> !stat && d !in disk.files)
            && (s == BlobSizeMismatch <==> sized && !fits)
            && (s == BlobUnreadable <==> stat || (fits && !readable))
            && (s == BlobDigestMismatch <==> fits && readable && c.hash(d.alg, disk.files[d]) != d.hex)
  {
  }

  /** `path` goes from a file to one that its bytes, decoded, name as a manifest, whatever those are worth. */
  ghost predicate NamedPath(c: Codec, files: Files, path: seq<Descriptor>) {
    && |path| > 0
    && (|path| > 1 ==>
          && path[0].digest in files && c.decode(files[path[0].digest]).Some?
          && path[1] in c.decode(files[path[0].digest]).value.manifests && Valid(path[1].digest)
          && NamedPath(c, files, path[1..]))
  }

  /** A sound blob that decodes, and whose config and layers, as far as they have valid digests, are sound. */
  ghost predicate SoundManifest(c: Codec, disk: Disk, desc: Descriptor) {
    && SoundBlob(c, disk, desc) && c.decode(disk.files[desc.digest]).Some?
    && var m := c.decode(disk.files[desc.digest]).value;
       forall l <- [m.config] + m.layers | Valid(l.digest) :: SoundBlob(c, disk, l)
  }

  ghost predicate SoundGraph(c: Codec, disk: Disk, root: Descriptor) {
    forall path | NamedPath(c, disk.files, path) && path[0] == root :: SoundManifest(c, disk, End(path))
  }

  lemma OpenedIsSound(c: Codec, disk: Disk, desc: Descriptor)
    ensures SoundManifest(c, disk, desc) <==>
            Opened(c, disk, desc).Some?
            && forall l <- Leaves(Opened(c, disk, desc).value) :: CheckBlob(c, disk, l) == BlobOK
    ensures Opened(c, disk, desc).Some? ==>
              desc.digest in disk.files && Opened(c, disk, desc) == c.decode(disk.files[desc.digest])
  {
    hide CheckBlob, SoundBlob, ValidOnly;
    StatusMeans(c, disk, desc);
    if SoundBlob(c, disk, desc) {
      SoundIsThere(c, disk, desc);
    }
    if Opened(c, disk, desc).Some? {
      var m := Opened(c, disk, desc).value;
      forall l ensures l in Leaves(m) <==> l in [m.config] + m.layers && Valid(l.digest) {
        ValidOnlyMembers([m.config] + m.layers, l);
      }
      forall l ensures CheckBlob(c, disk, l) == BlobOK <==> SoundBlob(c, disk, l) {
        StatusMeans(c, disk, l);
      }
    }
  }

  lemma SoundIsThere(c: Codec, disk: Disk, desc: Descriptor)
    requires SoundBlob(c, disk, desc)
    ensures desc.digest in disk.files
  {
  }

  lemma {:induction false} VisibleIsNamed(c: Codec, disk: Disk, path: seq<Descriptor>)
    requires |path| > 0 && Visible(c, disk, path[0], path)
    ensures NamedPath(c, disk.files, path)
    decreases |path|
  {
    if |path| > 1 {
      OpenedIsSound(c, disk, path[0]);
      hide CheckBlob, Opened, SoundManifest;
      ValidOnlyMembers(Opened(c, disk, path[0]).value.manifests, path[1]);
      VisibleIsNamed(c, disk, path[1..]);
    }
  }

  lemma {:induction false} NamedIsVisible(c: Codec, disk: Disk, path: seq<Descriptor>)
    requires NamedPath(c, disk.files, path) && Intact(c, disk, path[0])
    ensures Visible(c, disk, path[0], path)
    decreases |path|
  {
    if |path| > 1 {
      assert Visible(c, disk, path[0], [path[0]]) && End([path[0]]) == path[0];
      OpenedIsSound(c, disk, path[0]);
      hide CheckBlob, Opened, SoundManifest;
      ValidOnlyMembers(Opened(c, disk, path[0]).value.manifests, path[1]);
      IntactBelow(c, disk, path[0], path[1]);
      NamedIsVisible(c, disk, path[1..]);
    }
  }

  /** A graph is intact exactly when everything that its bytes name, level by level, is sound. */
  lemma IntactMeansSound(c: Codec, disk: Disk, root: Descriptor)
    ensures Intact(c, disk, root) <==> SoundGraph(c, disk, root)
  {
    hide Opened, CheckBlob, SoundManifest, Visible, Leaves;
    if Intact(c, disk, root) {
      forall path | NamedPath(c, disk.files, path) && path[0] == root ensures SoundManifest(c, disk, End(path)) {
        NamedIsVisible(c, disk, path);
        OpenedIsSound(c, disk, End(path));
      }
    }
    if SoundGraph(c, disk, root) {
      forall path | Visible(c, disk, root, path)
        ensures |path| > 0 && path[0] == root && SoundManifest(c, disk, End(path))
        ensures Opened(c, disk, End(path)).Some?
        ensures forall l <- Leaves(Opened(c, disk, End(path)).value) :: CheckBlob(c, disk, l) == BlobOK
      {
        VisibleStarts(c, disk, root, path);
        VisibleIsNamed(c, disk, path);
        OpenedIsSound(c, disk, End(path));
      }
    }
  }

  lemma {:induction false} VisibleStarts(c: Codec, disk: Disk, root: Descriptor, path: seq<Descriptor>)
    requires Visible(c, disk, root, path)
    ensures |path| > 0 && path[0] == root
  {
  }

  /** Adding files never spoils a graph that is already intact. */
  lemma IntactGrows(c: Codec, files: Files, files': Files, root: Descriptor)
    requires Grows(files, files') && Intact(c, Disk(files, map[]), root)
    ensures Intact(c, Disk(files', map[]), root)
  {
    var disk, disk' := Disk(files, map[]), Disk(files', map[]);
    forall path | Visible(c, disk', root, path)
      ensures Opened(c, disk', End(path)).Some?
      ensures forall l <- Leaves(Opened(c, disk', End(path)).value) :: CheckBlob(c, disk', l) == BlobOK
    {
      VisibleShrinks(c, files, files', root, path);
    }
  }

  lemma {:induction false} VisibleShrinks(
    c: Codec, files: Files, files': Files, root: Descriptor, path: seq<Descriptor>)
    requires Grows(files, files') && Intact(c, Disk(files, map[]), root)
    requires Visible(c, Disk(files', map[]), root, path)
    ensures Visible(c, Disk(files, map[]), root, path)
    decreases |path|
  {
    var disk := Disk(files, map[]);
    if |path| > 1 {
      assert Visible(c, disk, root, [root]) && End([root]) == root;
      IntactBelow(c, disk, root, path[1]);
      VisibleShrinks(c, files, files', path[1], path[1..]);
    }
  }

  lemma IntactBelow(c: Codec, disk: Disk, root: Descriptor, sub: Descriptor)
    requires Intact(c, disk, root)
    requires Opened(c, disk, root).Some? && sub in Subs(Opened(c, disk, root).value)
    ensures Intact(c, disk, sub)
  {
    forall tail | Visible(c, disk, sub, tail)
      ensures Opened(c, disk, End(tail)).Some?
      ensures forall l <- Leaves(Opened(c, disk, End(tail)).value) :: CheckBlob(c, disk, l) == BlobOK
    {
      VisibleTail(c, disk, root, sub, tail);
    }
  }
}
