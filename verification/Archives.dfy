/** Splitting an archive into chunk files, and joining chunk files again. */
module Archives {
  import opened Content
  import opened ChunkNames
  import opened Sequences

  const BUFFER_SIZE: nat := 0x8000

  // ---------------------------------------------------------------------------
  // Pieces

  function Flatten(pieces: seq<Bytes>): Bytes {
    if pieces == [] then [] else Flatten(pieces[..|pieces| - 1]) + pieces[|pieces| - 1]
  }

  /** No piece is empty, and all but the last are full. */
  ghost predicate IsSplit(pieces: seq<Bytes>, data: Bytes, max: int) {
    && Flatten(pieces) == data
    && forall i | 0 <= i < |pieces| :: 0 < |pieces[i]| <= max && (i < |pieces| - 1 ==> |pieces[i]| == max)
  }

  lemma {:induction false} FlattenAppends(pieces: seq<Bytes>, p: Bytes)
    ensures Flatten(pieces + [p]) == Flatten(pieces) + p
  {
    assert (pieces + [p])[..|pieces|] == pieces;
  }

  lemma {:induction false} FlattenHead(pieces: seq<Bytes>)
    requires pieces != []
    ensures Flatten(pieces) == pieces[0] + Flatten(pieces[1..])
  {
    var front, last := pieces[..|pieces| - 1], pieces[|pieces| - 1];
    if front == [] {
      assert pieces == [last];
    } else {
      FlattenAppends(front, last);
      FlattenAppends(front[1..], last);
      FlattenHead(front);
      hide Flatten;
      assert pieces == front + [last];
      HeadAndTail(front, [last]);
      Associates(front[0], Flatten(front[1..]), last);
    }
  }

  /** Bytes and size determine the pieces, however short the reads were. */
  lemma {:induction false} OneSplit(p: seq<Bytes>, q: seq<Bytes>, data: Bytes, max: int)
    requires IsSplit(p, data, max) && IsSplit(q, data, max)
    ensures p == q
  {
    if p == [] || q == [] {
      if p != [] {
        FlattenHead(p);
      }
      if q != [] {
        FlattenHead(q);
      }
    } else {
      FlattenHead(p);
      FlattenHead(q);
      var rest, rest' := Flatten(p[1..]), Flatten(q[1..]);
      assert |p| > 1 ==> |rest| > 0 by { if |p| > 1 { FlattenHead(p[1..]); } }
      assert |q| > 1 ==> |rest'| > 0 by { if |q| > 1 { FlattenHead(q[1..]); } }
      assert |p[0]| == |q[0]|;
      assert data[..|p[0]|] == p[0] && data[|p[0]|..] == rest;
      assert data[..|q[0]|] == q[0] && data[|q[0]|..] == rest';
      OneSplit(p[1..], q[1..], rest, max);
      assert p == [p[0]] + p[1..] && q == [q[0]] + q[1..];
    }
  }

  lemma {:induction false} FewPieces(pieces: seq<Bytes>)
    requires forall i | 0 <= i < |pieces| :: 0 < |pieces[i]|
    ensures |pieces| <= |Flatten(pieces)|
  {
    if pieces != [] {
      FewPieces(pieces[..|pieces| - 1]);
    }
  }

  // ---------------------------------------------------------------------------
  // Chunk files

  type Folder = map<string, Bytes>

  /** The folder with the pieces written under the names `<name>.001`, `<name>.002` and so on. */
  function WithChunks(folder: Folder, name: string, pieces: seq<Bytes>): Folder {
    if pieces == [] then folder
    else WithChunks(folder, name, pieces[..|pieces| - 1])[ChunkName(name, |pieces|) := pieces[|pieces| - 1]]
  }

  function ChunkList(name: string, n: nat): (r: seq<string>)
    ensures |r| == n && forall i | 0 <= i < n :: r[i] == ChunkName(name, i + 1)
  {
    seq(n, i requires 0 <= i < n => ChunkName(name, i + 1))
  }

  lemma {:induction false} NameSurvives(folder: Folder, name: string, pieces: seq<Bytes>)
    requires name in folder
    ensures name in WithChunks(folder, name, pieces) && WithChunks(folder, name, pieces)[name] == folder[name]
  {
    if pieces != [] {
      NameSurvives(folder, name, pieces[..|pieces| - 1]);
      assert |ChunkName(name, |pieces|)| > |name|;
    }
  }

  lemma {:induction false} PutMore(folder: Folder, name: string, done: seq<Bytes>, cur: Bytes, more: Bytes)
    ensures WithChunks(folder, name, done + [more]) ==
            WithChunks(folder, name, done)[ChunkName(name, |done| + 1) := more]
    ensures WithChunks(folder, name, done + [more]) ==
            WithChunks(folder, name, done + [cur])[ChunkName(name, |done| + 1) := more]
  {
    assert (done + [cur])[..|done|] == done && (done + [more])[..|done|] == done;
  }

  lemma DifferentIndexDifferentName(name: string, i: nat, j: nat)
    requires ChunkName(name, i) == ChunkName(name, j)
    ensures i == j
  {
    PaddedParses(i);
    PaddedParses(j);
    assert ChunkName(name, i)[|name| + 1..] == Padded(i) && ChunkName(name, j)[|name| + 1..] == Padded(j);
  }

  lemma {:induction false} PutHolds(folder: Folder, name: string, pieces: seq<Bytes>, m: string)
    ensures m in WithChunks(folder, name, pieces) <==>
            m in folder || exists i :: 0 < i <= |pieces| && m == ChunkName(name, i)
    ensures forall i: nat | 0 < i <= |pieces| ::
              ChunkName(name, i) in WithChunks(folder, name, pieces)
                    && WithChunks(folder, name, pieces)[ChunkName(name, i)] == pieces[i - 1]
  {
    hide ChunkName;
    if pieces != [] {
      PutHolds(folder, name, pieces[..|pieces| - 1], m);
      forall i: nat | 0 < i <= |pieces|
        ensures ChunkName(name, i) in WithChunks(folder, name, pieces)
              && WithChunks(folder, name, pieces)[ChunkName(name, i)] == pieces[i - 1]
      {
        if ChunkName(name, i) == ChunkName(name, |pieces|) {
          DifferentIndexDifferentName(name, i, |pieces|);
        }
      }
    }
  }

  // ---------------------------------------------------------------------------
  // SplitArchive

  /** One `Read`: how many bytes it would give, whether it fails, and whether it reports the end of
      the file together with the last bytes. */
  datatype ReadIo = ReadIo(take: nat, fails: bool, early: bool)

  /** `partial` is what a failing write still puts into the chunk. */
  datatype WriteIo = Written | WriteFails(partial: nat)

  datatype SplitIo = SplitIo(
    opens: bool, reading: nat -> ReadIo, creates: nat -> bool, writes: nat -> WriteIo, removes: bool)

  ghost predicate SplitWorks(io: SplitIo) {
    io.opens && io.removes && forall n :: !io.reading(n).fails && io.creates(n) && io.writes(n).Written?
  }

  /** Half way: `done` is complete, `cur` is in the open chunk file, if any. */
  ghost predicate Splitting(
    folder: Folder, name: string, data: Bytes, max: int, pos: nat, done: seq<Bytes>, cur: Bytes, now: Folder)
  {
    && pos <= |data| && Flatten(done) + cur == data[..pos]
    && (forall i | 0 <= i < |done| :: |done[i]| == max)
    && |cur| < max
    && now == WithChunks(folder, name, Pieces(done, cur))
  }

  function Pieces(done: seq<Bytes>, cur: Bytes): seq<Bytes> {
    if cur == [] then done else done + [cur]
  }

  function PieceCount(done: seq<Bytes>, cur: Bytes): nat {
    |done| + if cur == [] then 0 else 1
  }

  lemma {:induction false} SplittingEnds(
    folder: Folder, name: string, data: Bytes, max: int, done: seq<Bytes>, cur: Bytes, now: Folder)
    requires max > 0 && Splitting(folder, name, data, max, |data|, done, cur, now)
    ensures IsSplit(Pieces(done, cur), data, max) && now == WithChunks(folder, name, Pieces(done, cur))
    ensures |Pieces(done, cur)| == PieceCount(done, cur)
  {
    assert data[..|data|] == data;
    FlattenAppends(done, cur);
  }

  lemma {:induction false} SplittingPrefix(
    folder: Folder, name: string, data: Bytes, max: int, pos: nat, done: seq<Bytes>, cur: Bytes, now: Folder)
    requires Splitting(folder, name, data, max, pos, done, cur, now)
    ensures Flatten(Pieces(done, cur)) <= data && now == WithChunks(folder, name, Pieces(done, cur))
  {
    FlattenAppends(done, cur);
  }

  /** Some bytes go to the open chunk, which is created for the first of them. */
  lemma SplittingGoesOn(
    folder: Folder, name: string, data: Bytes, max: int, pos: nat, done: seq<Bytes>, cur: Bytes,
    now: Folder, cur': Bytes)
    requires Splitting(folder, name, data, max, pos, done, cur, now) && pos + |cur'| - |cur| <= |data|
    requires |cur| < |cur'| <= max && cur' == cur + data[pos..pos + |cur'| - |cur|]
    ensures var now', pos' := now[ChunkName(name, |done| + 1) := cur'], pos + |cur'| - |cur|;
            && (|cur'| == max ==> Splitting(folder, name, data, max, pos', done + [cur'], [], now'))
            && (|cur'| < max ==> Splitting(folder, name, data, max, pos', done, cur', now'))
  {
    hide WithChunks, Flatten, ChunkName;
    PutMore(folder, name, done, cur, cur');
    FlattenAppends(done, cur');
    var pos' := pos + |cur'| - |cur|;
    SlicesJoin(data, pos, pos');
    Associates(Flatten(done), cur, data[pos..pos']);
    assert Flatten(done + [cur']) + [] == data[..pos'];
    assert now[ChunkName(name, |done| + 1) := cur'] == WithChunks(folder, name, done + [cur']);
  }

  /** A write that fails leaves a chunk that is still a piece of the archive, if a short one. */
  lemma {:induction false} SplittingStops(
    folder: Folder, name: string, data: Bytes, max: int, pos: nat, done: seq<Bytes>, cur: Bytes,
    now: Folder, part: Bytes)
    requires Splitting(folder, name, data, max, pos, done, cur, now)
    requires pos + |part| <= |data| && part == data[pos..pos + |part|]
    ensures Flatten(done + [cur + part]) <= data
    ensures now[ChunkName(name, |done| + 1) := cur + part] == WithChunks(folder, name, done + [cur + part])
  {
    hide WithChunks;
    PutMore(folder, name, done, cur, cur + part);
    FlattenAppends(done, cur + part);
    assert data[..pos] + part == data[..pos + |part|];
    assert Flatten(done) + (cur + part) == data[..pos + |part|];
  }

  lemma OpenChunk(
    folder: Folder, name: string, data: Bytes, max: int, pos: nat, done: seq<Bytes>, cur: Bytes, now: Folder)
    requires Splitting(folder, name, data, max, pos, done, cur, now) && cur != []
    ensures ChunkName(name, |done| + 1) in now && now[ChunkName(name, |done| + 1)] == cur
  {
  }

  lemma SplittingStarts(folder: Folder, name: string, data: Bytes, max: int)
    requires max > 0
    ensures Splitting(folder, name, data, max, 0, [], [], folder) && ChunkList(name, 0) == []
  {
  }

  lemma NamesMore(name: string, n: nat)
    ensures ChunkList(name, n) + [ChunkName(name, n + 1)] == ChunkList(name, n + 1)
  {
  }

  function BytesRead(r: ReadIo, room: nat, left: nat): (n: nat)
    requires room > 0
    ensures n <= room && n <= left && (n == 0 ==> r.fails || left == 0)
  {
    var n := if r.take <= room then r.take else room;
    var m := if n <= left then n else left;
    if m == 0 && !r.fails && left > 0 then 1 else m
  }

  predicate EndReported(r: ReadIo, n: nat, left: nat) {
    !r.fails && (left == 0 || (r.early && n == left))
  }

  /** How much of `b` a write leaves in the file. */
  function Left(w: WriteIo, b: Bytes): Bytes {
    if w.WriteFails? && w.partial <= |b| then b[..w.partial] else b
  }

  lemma LeftIsPrefix(w: WriteIo, data: Bytes, pos: nat, n: nat)
    requires pos + n <= |data|
    ensures var part := Left(w, data[pos..pos + n]); |part| <= n && part == data[pos..pos + |part|]
  {
  }

  /** Where the split stands in the ghost pieces after `n` more bytes. */
  lemma Advance(
    folder: Folder, name: string, data: Bytes, max: int, pos: nat, done: seq<Bytes>, cur: Bytes,
    now: Folder, now': Folder, n: nat)
    returns (done': seq<Bytes>, cur': Bytes)
    requires Splitting(folder, name, data, max, pos, done, cur, now) && max > 0
    requires pos + n <= |data| && |cur| + n <= max
    requires now' == if n == 0 then now else now[ChunkName(name, |done| + 1) := cur + data[pos..pos + n]]
    ensures Splitting(folder, name, data, max, pos + n, done', cur', now')
    ensures |cur| + n == max ==> cur' == [] && |done'| == |done| + 1
    ensures |cur| + n < max ==> done' == done && |cur'| == |cur| + n
  {
    if n == 0 {
      return done, cur;
    }
    var all := cur + data[pos..pos + n];
    SplittingGoesOn(folder, name, data, max, pos, done, cur, now, all);
    if |all| == max {
      return done + [all], [];
    }
    return done, all;
  }

  class Splitter {
    var files: Folder

    constructor (files: Folder)
      ensures this.files == files
    {
      this.files := files;
    }

    /** Appends to a chunk file, which is created when there is none open. */
    method WriteChunk(chunk: string, isNew: bool, b: Bytes, creates: bool, w: WriteIo) returns (ok: bool)
      requires !isNew ==> chunk in files
      modifies this
      ensures ok <==> (isNew ==> creates) && w.Written?
      ensures files == if isNew && !creates then old(files)
                       else old(files)[chunk := (if isNew then [] else old(files)[chunk]) + Left(w, b)]
      ensures ok ==> files == old(files)[chunk := (if isNew then [] else old(files)[chunk]) + b]
    {
      if isNew {
        if !creates {
          return false;
        }
        files := files[chunk := []];
      }
      files := files[chunk := files[chunk] + Left(w, b)];
      ok := w.Written?;
    }

    /** `SplitArchive`. However the reads fall, the chunks are the archive cut every `maxBytes` bytes,
        and the archive goes only after all of them are written. */
    method SplitArchive(name: string, maxBytes: int, io: SplitIo)
      returns (ok: bool, chunks: seq<string>, ghost pieces: seq<Bytes>)
      modifies this
      ensures ok ==> maxBytes > 0 && name in old(files) && IsSplit(pieces, old(files)[name], maxBytes)
      ensures ok ==> files == WithChunks(old(files), name, pieces) - {name} && chunks == ChunkList(name, |pieces|)
      ensures maxBytes > 0 && name in old(files) && SplitWorks(io) ==> ok
      ensures !ok ==> chunks == [] && files == WithChunks(old(files), name, pieces)
      ensures !ok && name in old(files) ==>
                Flatten(pieces) <= old(files)[name] && name in files && files[name] == old(files)[name]
    {
      hide Splitting, WithChunks, ChunkList, ChunkName, IsSplit, Flatten, Pieces, Left, BytesRead;
      ok, chunks, pieces := false, [], [];
      NothingPut(files, name);
      if maxBytes <= 0 || name !in files || !io.opens {
        return;
      }
      var data := files[name];
      var chunkIdx, written, pos, readCalls, outf, eof := 1, 0, 0, 0, false, false;
      ghost var folder, done, cur := files, [], [];
      SplittingStarts(folder, name, data, maxBytes);
      while !eof
        invariant Splitting(folder, name, data, maxBytes, pos, done, cur, files) && pos <= |data|
        invariant !eof ==> written == |cur| < maxBytes && (outf <==> cur != [])
        invariant !eof ==> chunkIdx == |done| + 1 + (if outf then 1 else 0)
        invariant chunkIdx >= 1 && chunks == ChunkList(name, chunkIdx - 1) && chunkIdx - 1 == PieceCount(done, cur)
        invariant eof ==> pos == |data|
        decreases |data| - pos, !eof
      {
        var remaining := maxBytes - written;
        var readSize := if BUFFER_SIZE > remaining then remaining else BUFFER_SIZE;
        var r, left := io.reading(readCalls), |data| - pos;
        readCalls := readCalls + 1;
        var n := BytesRead(r, readSize, left);
        ghost var before, cur0 := files, cur;
        if n > 0 {
          var chunk := ChunkName(name, if outf then chunkIdx - 1 else chunkIdx);
          if outf {
            OpenChunk(folder, name, data, maxBytes, pos, done, cur, files);
          }
          LeftIsPrefix(io.writes(readCalls), data, pos, n);
          ghost var part := Left(io.writes(readCalls), data[pos..pos + n]);
          var wrote := WriteChunk(chunk, !outf, data[pos..pos + n], io.creates(chunkIdx), io.writes(readCalls));
          if !wrote {
            if files == before {
              pieces := Pieces(done, cur);
              SplittingPrefix(folder, name, data, maxBytes, pos, done, cur, files);
            } else {
              pieces := done + [cur + part];
              SplittingStops(folder, name, data, maxBytes, pos, done, cur, before, part);
            }
            NameSurvives(folder, name, pieces);
            return false, [], pieces;
          }
          if !outf {
            NamesMore(name, chunkIdx - 1);
            chunks, chunkIdx, outf := chunks + [chunk], chunkIdx + 1, true;
          }
          written := written + n;
        }
        done, cur := Advance(folder, name, data, maxBytes, pos, done, cur, before, files, n);
        pos := pos + n;
        if EndReported(r, n, left) {
          eof := true;
        } else if r.fails {
          pieces := Pieces(done, cur);
          SplittingPrefix(folder, name, data, maxBytes, pos, done, cur, files);
          NameSurvives(folder, name, pieces);
          return false, [], pieces;
        } else if written >= maxBytes {
          outf, written := false, 0;
        }
      }
      pieces := Pieces(done, cur);
      SplittingEnds(folder, name, data, maxBytes, done, cur, files);
      if !io.removes {
        NameSurvives(folder, name, pieces);
        return false, [], pieces;
      }
      files := files - {name};
      ok := true;
    }
  }

  lemma {:induction false} NothingPut(folder: Folder, name: string)
    ensures WithChunks(folder, name, []) == folder && (name in folder ==> Flatten([]) <= folder[name])
  {
  }

  // ---------------------------------------------------------------------------
  // JoinChunks

  /** `path` back unchanged, an error, or the joined file's name and bytes. */
  datatype Join = Unchanged | JoinFails | Joined(name: string, bytes: Bytes)

  function Siblings(folder: Folder, name: string): set<string> {
    set m | m in folder && Joins(name, m)
  }

  /** The number siblings of `name` are sorted by. */
  function IndexOf(name: string, m: string): nat
    requires Joins(name, m)
  {
    if ChunkInfo(name).Some? then ChunkInfo(m).value.index else LegacyInfo(m).value.index
  }

  function JoinedName(name: string): string
    requires ChunkGroupKey(name).Some?
  {
    ChunkGroupKey(name).value
  }

  /** `order` lists `ms` once each, by index. */
  ghost predicate Sorted(name: string, ms: set<string>, order: seq<string>) {
    && (forall m :: m in order <==> m in ms)
    && (forall m | m in ms :: Joins(name, m))
    && (forall i, j | 0 <= i < j < |order| :: order[i] != order[j]
          && IndexOf(name, order[i]) <= IndexOf(name, order[j]))
  }

  function Concat(folder: Folder, order: seq<string>): Bytes
    requires forall m | m in order :: m in folder
  {
    if order == [] then [] else Concat(folder, order[..|order| - 1]) + folder[order[|order| - 1]]
  }

  lemma {:induction false} SomeLeast(name: string, ms: set<string>) returns (m: string)
    requires ms != {} && forall x | x in ms :: Joins(name, x)
    ensures m in ms && forall x | x in ms :: IndexOf(name, m) <= IndexOf(name, x)
    decreases |ms|
  {
    var first :| first in ms;
    var rest := ms - {first};
    m := first;
    if rest != {} {
      var least := SomeLeast(name, rest);
      hide IndexOf, Joins;
      if IndexOf(name, least) < IndexOf(name, first) {
        m := least;
      }
    }
    hide IndexOf, Joins;
    assert forall x | x in ms :: x == first || x in rest;
  }

  /** `sort.Slice`: siblings of equal index may come in any order. */
  method SortByIndex(name: string, ms: set<string>) returns (order: seq<string>)
    requires forall m | m in ms :: Joins(name, m)
    ensures Sorted(name, ms, order)
  {
    hide Joins, IndexOf;
    order := [];
    var rest := ms;
    while rest != {}
      invariant rest <= ms && Sorted(name, ms - rest, order)
      invariant forall x, y | x in rest && y in ms - rest :: IndexOf(name, y) <= IndexOf(name, x)
      decreases rest
    {
      ghost var least := SomeLeast(name, rest);
      var m :| m in rest && forall x | x in rest :: IndexOf(name, m) <= IndexOf(name, x);
      assert forall i | 0 <= i < |order| :: order[i] in ms - rest;
      order, rest := order + [m], rest - {m};
    }
    assert ms - {} == ms;
  }

  /** `joinFiles`: the chunks one after another; `opens` is whether each can be opened and copied. */
  method JoinFiles(folder: Folder, order: seq<string>, opens: string -> bool) returns (ok: bool, bytes: Bytes)
    requires forall m | m in order :: m in folder
    ensures ok <==> forall m | m in order :: opens(m)
    ensures ok ==> bytes == Concat(folder, order)
  {
    bytes := [];
    for i := 0 to |order|
      invariant forall j | 0 <= j < i :: opens(order[j])
      invariant bytes == Concat(folder, order[..i])
    {
      if !opens(order[i]) {
        return false, bytes;
      }
      assert order[..i + 1][..i] == order[..i];
      bytes := bytes + folder[order[i]];
    }
    assert order[..|order|] == order;
    ok := true;
  }

  /** `JoinChunks`, with the joined file created in a directory of its own. */
  method JoinChunks(folder: Folder, name: string, creates: bool, opens: string -> bool)
    returns (r: Join, ghost order: seq<string>)
    ensures r.Unchanged? <==> Siblings(folder, name) == {}
    ensures r.JoinFails? <==>
              Siblings(folder, name) != {} && (!creates || exists m :: m in Siblings(folder, name) && !opens(m))
    ensures !r.Unchanged? ==> Sorted(name, Siblings(folder, name), order) && ChunkGroupKey(name).Some?
    ensures r.Joined? ==> r == Joined(JoinedName(name), Concat(folder, order))
  {
    order := [];
    var matches := Siblings(folder, name);
    if matches == {} {
      return Unchanged, [];
    }
    var sorted := SortByIndex(name, matches);
    order := sorted;
    if !creates {
      return JoinFails, order;
    }
    var ok, bytes := JoinFiles(folder, sorted, opens);
    r := if ok then Joined(JoinedName(name), bytes) else JoinFails;
  }

  // ---------------------------------------------------------------------------
  // The round trip

  /** No chunk file of `name` lies in the folder beforehand, except under a name the split reuses. */
  ghost predicate NoStaleChunks(folder: Folder, name: string, n: nat) {
    forall m | m in folder && ChunkInfo(m).Some? && ChunkInfo(m).value.base == name ::
      exists i :: 0 < i <= n && m == ChunkName(name, i)
  }

  /** `ms` are exactly the names of chunks 1 to `n`. */
  ghost predicate AreChunks(name: string, n: nat, ms: set<string>) {
    forall m :: m in ms <==> exists i :: 0 < i <= n && m == ChunkName(name, i)
  }

  lemma NonEmpty(order: seq<string>)
    requires order != []
    ensures exists m :: m in order
  {
    assert order[0] in order;
  }

  lemma HighestIsLast(name: string, sibling: string, n: nat, ms: set<string>, order: seq<string>)
    requires forall i: nat | 0 < i <= n :: ChunkInfo(ChunkName(name, i)) == Some(Chunk(name, i))
    requires n > 0 && ChunkInfo(sibling).Some? && AreChunks(name, n, ms) && Sorted(sibling, ms, order)
    ensures order != [] && order[|order| - 1] == ChunkName(name, n)
  {
    hide ChunkInfo, ChunkName;
    var last := ChunkName(name, n);
    assert last in ms;
    var p :| 0 <= p < |order| && order[p] == last;
    var e := |order| - 1;
    assert order[e] in ms && IndexOf(sibling, last) <= IndexOf(sibling, order[e]);
  }

  lemma WithoutHighest(name: string, sibling: string, n: nat, ms: set<string>, order: seq<string>)
    requires forall i: nat | 0 < i <= n :: ChunkInfo(ChunkName(name, i)) == Some(Chunk(name, i))
    requires n > 0 && AreChunks(name, n, ms) && Sorted(sibling, ms, order)
    requires order != [] && order[|order| - 1] == ChunkName(name, n)
    ensures AreChunks(name, n - 1, ms - {ChunkName(name, n)})
    ensures Sorted(sibling, ms - {ChunkName(name, n)}, order[..|order| - 1])
  {
    hide ChunkInfo, ChunkName, IndexOf, Joins;
    var last, front := ChunkName(name, n), order[..|order| - 1];
    assert order == front + [last];
    forall m ensures m in front <==> m in ms - {last} {
    }
    forall m ensures m in ms - {last} <==> exists i :: 0 < i <= n - 1 && m == ChunkName(name, i) {
      if m in ms - {last} {
        var i :| 0 < i <= n && m == ChunkName(name, i);
        assert i != n;
      }
    }
  }

  /** Sorted by index, the chunks of one split have one order only. */
  lemma {:induction false} OneOrder(name: string, sibling: string, n: nat, ms: set<string>, order: seq<string>)
    requires name != "" && '\n' !in name && n <= MAX_INT && ChunkInfo(sibling).Some?
    requires AreChunks(name, n, ms) && Sorted(sibling, ms, order)
    ensures order == ChunkList(name, n)
    decreases n
  {
    forall i: nat | 0 < i <= n ensures ChunkInfo(ChunkName(name, i)) == Some(Chunk(name, i)) {
      NamesParseBack(name, i);
    }
    hide ChunkInfo, ChunkName;
    if n == 0 {
      if order != [] {
        NonEmpty(order);
      }
    } else {
      HighestIsLast(name, sibling, n, ms, order);
      WithoutHighest(name, sibling, n, ms, order);
      hide Sorted, AreChunks;
      OneOrder(name, sibling, n - 1, ms - {ChunkName(name, n)}, order[..|order| - 1]);
      assert order == order[..|order| - 1] + [order[|order| - 1]];
    }
  }

  lemma {:induction false} ConcatOfNames(folder: Folder, name: string, pieces: seq<Bytes>, n: nat)
    requires n <= |pieces|
    requires forall i: nat | 0 < i <= |pieces| ::
               ChunkName(name, i) in folder && folder[ChunkName(name, i)] == pieces[i - 1]
    ensures Concat(folder, ChunkList(name, n)) == Flatten(pieces[..n])
  {
    hide ChunkName;
    if n > 0 {
      assert ChunkList(name, n)[..n - 1] == ChunkList(name, n - 1);
      assert pieces[..n][..n - 1] == pieces[..n - 1];
      ConcatOfNames(folder, name, pieces, n - 1);
    }
  }

  lemma JoinsByBase(name: string, i: nat, m: string)
    requires name != "" && '\n' !in name && 0 < i <= MAX_INT
    ensures Joins(ChunkName(name, i), m) <==> ChunkInfo(m).Some? && ChunkInfo(m).value.base == name
  {
    NamesParseBack(name, i);
    if ChunkInfo(m).Some? {
      GlobFinds(m);
    }
  }

  lemma {:induction false} IsChunkOf(folder: Folder, name: string, pieces: seq<Bytes>, m: string)
    requires name != "" && '\n' !in name && |pieces| <= MAX_INT && NoStaleChunks(folder, name, |pieces|)
    ensures (m in WithChunks(folder, name, pieces) - {name} && ChunkInfo(m).Some? && ChunkInfo(m).value.base == name)
            <==> exists k :: 0 < k <= |pieces| && m == ChunkName(name, k)
  {
    PutHolds(folder, name, pieces, m);
    if exists k :: 0 < k <= |pieces| && m == ChunkName(name, k) {
      var k :| 0 < k <= |pieces| && m == ChunkName(name, k);
      NamesParseBack(name, k);
      NameIsNoChunkOfItself(name, k);
    }
  }

  lemma {:induction false} SiblingsAreTheChunks(folder: Folder, name: string, pieces: seq<Bytes>, i: nat)
    requires name != "" && '\n' !in name && |pieces| <= MAX_INT && 0 < i <= |pieces|
    requires NoStaleChunks(folder, name, |pieces|)
    ensures AreChunks(name, |pieces|, Siblings(WithChunks(folder, name, pieces) - {name}, ChunkName(name, i)))
  {
    hide ChunkInfo, WithChunks, ChunkName, Joins;
    var siblings := Siblings(WithChunks(folder, name, pieces) - {name}, ChunkName(name, i));
    forall m ensures m in siblings <==> exists k :: 0 < k <= |pieces| && m == ChunkName(name, k) {
      JoinsByBase(name, i, m);
      IsChunkOf(folder, name, pieces, m);
    }
  }

  lemma NameIsNoChunkOfItself(name: string, k: nat)
    ensures ChunkName(name, k) != name
  {
    assert |ChunkName(name, k)| > |name|;
  }

  /** Joining from any chunk rebuilds the archive, past 999 chunks as well. */
  lemma {:induction false} JoinOfSplit(
    folder: Folder, name: string, data: Bytes, max: int, pieces: seq<Bytes>, i: nat, order: seq<string>)
    requires name != "" && '\n' !in name && |data| <= MAX_INT
    requires IsSplit(pieces, data, max) && 0 < i <= |pieces| && NoStaleChunks(folder, name, |pieces|)
    requires var now := WithChunks(folder, name, pieces) - {name};
             Sorted(ChunkName(name, i), Siblings(now, ChunkName(name, i)), order)
    ensures var now := WithChunks(folder, name, pieces) - {name};
            && (forall m | m in order :: m in now) && Concat(now, order) == data
            && ChunkGroupKey(ChunkName(name, i)) == Some(name)
  {
    var now := WithChunks(folder, name, pieces) - {name};
    FewPieces(pieces);
    NamesParseBack(name, i);
    SiblingsAreTheChunks(folder, name, pieces, i);
    OneOrder(name, ChunkName(name, i), |pieces|, Siblings(now, ChunkName(name, i)), order);
    hide WithChunks, ChunkName, ChunkInfo, Sorted;
    PutHolds(folder, name, pieces, name);
    forall k: nat | 0 < k <= |pieces| ensures ChunkName(name, k) in now && now[ChunkName(name, k)] == pieces[k - 1] {
      NameIsNoChunkOfItself(name, k);
    }
    ConcatOfNames(now, name, pieces, |pieces|);
    assert pieces[..|pieces|] == pieces;
  }

  /** An archive leaves chunks to join from exactly when it is not empty. */
  lemma ChunksRemainExactlyWhenNotEmpty(pieces: seq<Bytes>, data: Bytes, max: int)
    requires IsSplit(pieces, data, max)
    ensures pieces == [] <==> data == []
  {
    if pieces != [] {
      FlattenHead(pieces);
    }
  }

  /** The number of chunks an archive of `size` bytes is cut into. */
  function ChunkCount(size: nat, max: nat): nat
    requires max > 0
  {
    if size == 0 then 0 else if size <= max then 1 else 1 + ChunkCount(size - max, max)
  }

  lemma {:induction false} CountOfSplit(pieces: seq<Bytes>, data: Bytes, max: nat)
    requires max > 0 && IsSplit(pieces, data, max)
    ensures |pieces| == ChunkCount(|data|, max)
    decreases |pieces|
  {
    if pieces != [] {
      FlattenHead(pieces);
      CountOfSplit(pieces[1..], Flatten(pieces[1..]), max);
      if |pieces| > 1 {
        FlattenHead(pieces[1..]);
      }
    }
  }

  lemma FewPiecesFit(pieces: seq<Bytes>, data: Bytes, max: int)
    requires IsSplit(pieces, data, max)
    ensures |pieces| <= |data|
  {
    FewPieces(pieces);
  }

  lemma NamesAt(name: string, n: nat, i: nat)
    requires i < n
    ensures ChunkList(name, n)[i] == ChunkName(name, i + 1)
  {
  }

  lemma AChunkIsThere(name: string, n: nat, ms: set<string>)
    requires n > 0 && AreChunks(name, n, ms)
    ensures ms != {}
  {
    assert ChunkName(name, 1) in ms;
  }

  /** Split, then join from chunk `i`. Without a stale sibling the join gives back the archive's name
      and bytes; and when nothing fails and there is such a chunk, it does succeed. */
  method SplitThenJoin(
    splitter: Splitter, name: string, maxBytes: int, io: SplitIo, i: nat, creates: bool, opens: string -> bool)
    returns (r: Join)
    requires name != "" && '\n' !in name
    requires name in splitter.files ==> |splitter.files[name]| <= MAX_INT
    requires name in splitter.files && maxBytes > 0 ==>
               NoStaleChunks(splitter.files, name, ChunkCount(|splitter.files[name]|, maxBytes))
    modifies splitter
    ensures r.Joined? ==> name in old(splitter.files) && r == Joined(name, old(splitter.files)[name])
    ensures && name in old(splitter.files) && maxBytes > 0 && SplitWorks(io) && creates && (forall m :: opens(m))
            && i < ChunkCount(|old(splitter.files)[name]|, maxBytes)
            ==> r.Joined?
  {
    hide NoStaleChunks, ChunkName, WithChunks, IsSplit, Siblings, Sorted, Concat, ChunkList, AreChunks, Joins,
         ChunkCount;
    ghost var folder := splitter.files;
    var ok, chunks, pieces := splitter.SplitArchive(name, maxBytes, io);
    if !ok {
      return JoinFails;
    }
    CountOfSplit(pieces, folder[name], maxBytes);
    if i >= |chunks| {
      return JoinFails;
    }
    FewPiecesFit(pieces, folder[name], maxBytes);
    NamesAt(name, |pieces|, i);
    ghost var order;
    r, order := JoinChunks(splitter.files, chunks[i], creates, opens);
    SiblingsAreTheChunks(folder, name, pieces, i + 1);
    AChunkIsThere(name, |pieces|, Siblings(splitter.files, chunks[i]));
    if r.Joined? {
      JoinOfSplit(folder, name, folder[name], maxBytes, pieces, i + 1, order);
    }
  }

  // ---------------------------------------------------------------------------
  // Joining a legacy set

  predicate LegacyParts(base: string, ext: string) {
    base != "" && '.' !in base && '/' !in base && IsExtension(ext)
  }

  /** `ms` are exactly the legacy names numbered below `n`. */
  ghost predicate AreLegacy(base: string, ext: string, n: nat, ms: set<string>) {
    forall m :: m in ms <==> exists i :: 0 <= i < n && m == LegacyName(base, i, ext)
  }

  /** Sorting by number, as `Sorted` does for a legacy name. */
  ghost predicate SortedLegacy(ms: set<string>, order: seq<string>) {
    && (forall m :: m in order <==> m in ms)
    && (forall m | m in ms :: LegacyInfo(m).Some?)
    && (forall i, j | 0 <= i < j < |order| :: order[i] != order[j]
          && LegacyInfo(order[i]).value.index <= LegacyInfo(order[j]).value.index)
  }

  function LegacyList(base: string, ext: string, n: nat): seq<string> {
    seq(n, i requires 0 <= i < n => LegacyName(base, i, ext))
  }

  lemma LegacyListGrows(base: string, ext: string, n: nat)
    requires n > 0
    ensures LegacyList(base, ext, n) == LegacyList(base, ext, n - 1) + [LegacyName(base, n - 1, ext)]
  {
    hide LegacyName;
  }

  lemma {:induction false} HighestLegacyIsLast(
    base: string, ext: string, n: nat, ms: set<string>, order: seq<string>)
    requires forall i: nat | i < n :: LegacyInfo(LegacyName(base, i, ext)) == Some(Legacy(base, "." + ext, i))
    requires n > 0 && AreLegacy(base, ext, n, ms) && SortedLegacy(ms, order)
    ensures order != [] && order[|order| - 1] == LegacyName(base, n - 1, ext)
  {
    hide LegacyInfo, LegacyName;
    var last := LegacyName(base, n - 1, ext);
    assert last in ms;
    var p :| 0 <= p < |order| && order[p] == last;
    var e := |order| - 1;
    assert order[e] in ms && LegacyInfo(last).value.index <= LegacyInfo(order[e]).value.index;
  }

  lemma {:induction false} WithoutHighestLegacy(
    base: string, ext: string, n: nat, ms: set<string>, order: seq<string>)
    requires forall i: nat | i < n :: LegacyInfo(LegacyName(base, i, ext)) == Some(Legacy(base, "." + ext, i))
    requires n > 0 && AreLegacy(base, ext, n, ms) && SortedLegacy(ms, order)
    requires order != [] && order[|order| - 1] == LegacyName(base, n - 1, ext)
    ensures AreLegacy(base, ext, n - 1, ms - {LegacyName(base, n - 1, ext)})
    ensures SortedLegacy(ms - {LegacyName(base, n - 1, ext)}, order[..|order| - 1])
  {
    hide LegacyInfo, LegacyName;
    var last, front := LegacyName(base, n - 1, ext), order[..|order| - 1];
    assert order == front + [last];
    forall m ensures m in front <==> m in ms - {last} {
    }
    forall m ensures m in ms - {last} <==> exists i :: 0 <= i < n - 1 && m == LegacyName(base, i, ext) {
      if m in ms - {last} {
        var i :| 0 <= i < n && m == LegacyName(base, i, ext);
        assert i != n - 1;
      }
    }
  }

  lemma AllParseBack(base: string, ext: string, n: nat)
    requires LegacyParts(base, ext) && n <= MAX_INT
    ensures forall i: nat | i < n :: LegacyInfo(LegacyName(base, i, ext)) == Some(Legacy(base, "." + ext, i))
  {
    hide LegacyInfo, LegacyName;
    forall i: nat | i < n ensures LegacyInfo(LegacyName(base, i, ext)) == Some(Legacy(base, "." + ext, i)) {
      LegacyNamesParseBack(base, i, ext);
    }
  }

  lemma NoLegacyNoOrder(base: string, ext: string, ms: set<string>, order: seq<string>)
    requires AreLegacy(base, ext, 0, ms) && SortedLegacy(ms, order)
    ensures order == LegacyList(base, ext, 0)
  {
    hide LegacyName, LegacyInfo;
    if order != [] {
      NonEmpty(order);
    }
  }

  /** Sorted by number, a legacy set has one order only, also past ten and a hundred chunks. */
  lemma {:induction false} OneLegacyOrder(base: string, ext: string, n: nat, ms: set<string>, order: seq<string>)
    requires LegacyParts(base, ext) && n <= MAX_INT && AreLegacy(base, ext, n, ms) && SortedLegacy(ms, order)
    ensures order == LegacyList(base, ext, n)
    decreases n
  {
    hide LegacyInfo, LegacyName, LegacyParts, SortedLegacy, AreLegacy, LegacyList;
    if n == 0 {
      NoLegacyNoOrder(base, ext, ms, order);
    } else {
      AllParseBack(base, ext, n);
      HighestLegacyIsLast(base, ext, n, ms, order);
      WithoutHighestLegacy(base, ext, n, ms, order);
      OneLegacyOrder(base, ext, n - 1, ms - {LegacyName(base, n - 1, ext)}, order[..|order| - 1]);
      LegacyListGrows(base, ext, n);
      FrontAndLast(order);
    }
  }

  /** The folder holds exactly the chunks 0 to `|pieces| - 1` of one legacy set, with these contents. */
  ghost predicate HoldsLegacySet(folder: Folder, base: string, ext: string, pieces: seq<Bytes>) {
    && (forall i: nat | i < |pieces| ::
          LegacyName(base, i, ext) in folder && folder[LegacyName(base, i, ext)] == pieces[i])
    && (forall m | m in folder && LegacyInfo(m).Some? && LegacyInfo(m).value.base == base
          && LegacyInfo(m).value.ext == "." + ext :: exists i :: 0 <= i < |pieces| && m == LegacyName(base, i, ext))
  }

  lemma {:induction false} ConcatOfLegacy(folder: Folder, base: string, ext: string, pieces: seq<Bytes>, n: nat)
    requires n <= |pieces|
    requires forall i: nat | i < |pieces| ::
               LegacyName(base, i, ext) in folder && folder[LegacyName(base, i, ext)] == pieces[i]
    ensures (forall m | m in LegacyList(base, ext, n) :: m in folder)
    ensures Concat(folder, LegacyList(base, ext, n)) == Flatten(pieces[..n])
  {
    hide LegacyName;
    if n > 0 {
      assert LegacyList(base, ext, n)[..n - 1] == LegacyList(base, ext, n - 1);
      assert pieces[..n][..n - 1] == pieces[..n - 1];
      ConcatOfLegacy(folder, base, ext, pieces, n - 1);
    }
  }

  /** What a legacy chunk, that does not read as a current one, is joined with. */
  lemma JoinsLegacy(base: string, ext: string, i: nat, m: string)
    requires LegacyParts(base, ext) && i <= MAX_INT && ChunkInfo(LegacyName(base, i, ext)).None?
    ensures Joins(LegacyName(base, i, ext), m) <==>
            LegacyInfo(m).Some? && LegacyInfo(m).value.base == base && LegacyInfo(m).value.ext == "." + ext
  {
    LegacyNamesParseBack(base, i, ext);
    if LegacyInfo(m).Some? && LegacyInfo(m).value.base == base && LegacyInfo(m).value.ext == "." + ext {
      hide LegacyName, ChunkInfo, IsExtension;
      var q := LegacyShape(m);
      hide LegacyInfo;
      assert m[..|base| + 1] == base + "_";
      assert m[|m| - |"." + ext|..] == "." + ext;
    }
  }

  lemma {:induction false} LegacySiblings(folder: Folder, base: string, ext: string, pieces: seq<Bytes>, i: nat)
    requires LegacyParts(base, ext) && HoldsLegacySet(folder, base, ext, pieces) && i < |pieces| <= MAX_INT
    requires ChunkInfo(LegacyName(base, i, ext)).None?
    ensures AreLegacy(base, ext, |pieces|, Siblings(folder, LegacyName(base, i, ext)))
  {
    var siblings := Siblings(folder, LegacyName(base, i, ext));
    forall m ensures m in siblings <==> exists k :: 0 <= k < |pieces| && m == LegacyName(base, k, ext) {
      JoinsLegacy(base, ext, i, m);
      hide LegacyInfo, LegacyName, LegacyParts, ChunkInfo, Joins;
      if exists k :: 0 <= k < |pieces| && m == LegacyName(base, k, ext) {
        var k :| 0 <= k < |pieces| && m == LegacyName(base, k, ext);
        LegacyPartsParse(base, k, ext);
      }
    }
  }

  lemma LegacyPartsParse(base: string, n: nat, ext: string)
    requires LegacyParts(base, ext) && n <= MAX_INT
    ensures LegacyInfo(LegacyName(base, n, ext)) == Some(Legacy(base, "." + ext, n))
  {
    LegacyNamesParseBack(base, n, ext);
  }

  /** Joining from any chunk of a legacy set puts the chunks together by their numbers. */
  method JoinOfLegacySet(
    folder: Folder, base: string, ext: string, ghost pieces: seq<Bytes>, i: nat, creates: bool, opens: string -> bool)
    returns (r: Join)
    requires LegacyParts(base, ext) && HoldsLegacySet(folder, base, ext, pieces) && i < |pieces| <= MAX_INT
    requires ChunkInfo(LegacyName(base, i, ext)).None?
    ensures r == if creates && (forall k: nat | k < |pieces| :: opens(LegacyName(base, k, ext)))
                 then Joined(base + "." + ext, Flatten(pieces)) else JoinFails
  {
    ghost var order;
    var name := LegacyName(base, i, ext);
    r, order := JoinChunks(folder, name, creates, opens);
    LegacySiblings(folder, base, ext, pieces, i);
    LegacyPartsParse(base, i, ext);
    assert base + ("." + ext) == base + "." + ext;
    assert name in Siblings(folder, name);
    SortedIsLegacy(name, Siblings(folder, name), order);
    OneLegacyOrder(base, ext, |pieces|, Siblings(folder, name), order);
    ConcatOfLegacy(folder, base, ext, pieces, |pieces|);
    assert pieces[..|pieces|] == pieces;
  }

  lemma SortedIsLegacy(name: string, ms: set<string>, order: seq<string>)
    requires ChunkInfo(name).None? && Sorted(name, ms, order)
    ensures SortedLegacy(ms, order)
  {
  }
}
