/** The names of archive chunks: how they are printed, and the two schemes that are recognized. */
module ChunkNames {
  import opened Content
  import opened Sequences

  const MAX_INT: nat := 0x7fff_ffff_ffff_ffff

  // ---------------------------------------------------------------------------
  // Decimal numerals

  predicate IsDigit(c: char) {
    '0' <= c <= '9'
  }

  predicate AllDigits(s: string) {
    forall i | 0 <= i < |s| :: IsDigit(s[i])
  }

  function DigitChar(n: nat): (c: char)
    requires n < 10
    ensures IsDigit(c) && c as int == n + '0' as int
  {
    "0123456789"[n]
  }

  function Decimal(n: nat): string {
    if n < 10 then [DigitChar(n)] else Decimal(n / 10) + [DigitChar(n % 10)]
  }

  /** `%03d`. */
  function Padded(n: nat): string {
    var s := Decimal(n);
    if |s| == 1 then "00" + s else if |s| == 2 then "0" + s else s
  }

  function Value(s: string): nat
    requires AllDigits(s)
  {
    if s == "" then 0 else 10 * Value(s[..|s| - 1]) + (s[|s| - 1] as int - '0' as int)
  }

  lemma {:induction false} ValueOfDecimal(n: nat)
    ensures Decimal(n) != "" && AllDigits(Decimal(n)) && Value(Decimal(n)) == n
  {
    if n >= 10 {
      ValueOfDecimal(n / 10);
      assert Decimal(n)[..|Decimal(n)| - 1] == Decimal(n / 10);
    } else {
      assert Decimal(n)[..0] == "";
    }
  }

  lemma {:induction false} LeadingZero(s: string)
    requires AllDigits(s)
    ensures AllDigits("0" + s) && Value("0" + s) == Value(s)
  {
    if s == "" {
      assert ("0" + s)[..0] == "";
    } else {
      LeadingZero(s[..|s| - 1]);
      assert ("0" + s)[..|"0" + s| - 1] == "0" + s[..|s| - 1];
    }
  }

  /** What `%03d` prints parses back, with at least three digits, for every index. */
  lemma PaddedParses(n: nat)
    ensures |Padded(n)| >= 3 && AllDigits(Padded(n)) && Value(Padded(n)) == n
  {
    ValueOfDecimal(n);
    var s := Decimal(n);
    LeadingZero(s);
    LeadingZero("0" + s);
    assert "00" + s == "0" + ("0" + s);
  }

  // ---------------------------------------------------------------------------
  // `<base>.NNN`

  function LastIndex(s: string, c: char): Option<nat> {
    if s == "" then None
    else if s[|s| - 1] == c then Some(|s| - 1)
    else LastIndex(s[..|s| - 1], c)
  }

  lemma {:induction false} LastIndexIs(s: string, c: char, i: nat)
    ensures LastIndex(s, c) == Some(i) <==> i < |s| && s[i] == c && forall j | i < j < |s| :: s[j] != c
  {
    if s != "" && s[|s| - 1] != c {
      LastIndexIs(s[..|s| - 1], c, i);
    }
  }

  datatype Chunk = Chunk(base: string, index: nat)

  /** `chunkInfo` on a base name. The directory is the same before and after. */
  function ChunkInfo(name: string): Option<Chunk> {
    match LastIndex(name, '.')
    case None => None
    case Some(k) =>
      LastIndexIs(name, '.', k);
      var base, digits := name[..k], name[k + 1..];
      if base == "" || '\n' in base || |digits| < 3 || !AllDigits(digits) then None
      else if Value(digits) == 0 || Value(digits) > MAX_INT then None
      else Some(Chunk(base, Value(digits)))
  }

  /** The pattern `^(.+)\.(\d{3,})$`, and the index check after it. */
  ghost predicate MatchesChunk(name: string, base: string, digits: string) {
    && name == base + "." + digits && base != "" && '\n' !in base
    && |digits| >= 3 && AllDigits(digits) && 0 < Value(digits) <= MAX_INT
  }

  /** The name is split at its last dot, which is the only way the pattern can match. */
  lemma ChunkInfoIsThePattern(name: string, base: string, index: nat)
    ensures ChunkInfo(name) == Some(Chunk(base, index)) <==>
              exists digits :: MatchesChunk(name, base, digits) && Value(digits) == index
  {
    if ChunkInfo(name) == Some(Chunk(base, index)) {
      var k := LastIndex(name, '.').value;
      LastIndexIs(name, '.', k);
      assert name == name[..k] + "." + name[k + 1..];
      assert MatchesChunk(name, base, name[k + 1..]);
    }
    forall digits | MatchesChunk(name, base, digits) && Value(digits) == index
      ensures ChunkInfo(name) == Some(Chunk(base, index))
    {
      LastIndexIs(name, '.', |base|);
      assert name[..|base|] == base && name[|base| + 1..] == digits;
    }
  }

  function ChunkName(base: string, index: nat): string {
    base + "." + Padded(index)
  }

  /** Every name the splitter gives parses back to the same base and index, past 999 as well. */
  lemma NamesParseBack(base: string, index: nat)
    requires base != "" && '\n' !in base && 0 < index <= MAX_INT
    ensures ChunkInfo(ChunkName(base, index)) == Some(Chunk(base, index))
  {
    PaddedParses(index);
    assert MatchesChunk(ChunkName(base, index), base, Padded(index));
    ChunkInfoIsThePattern(ChunkName(base, index), base, index);
  }

  // ---------------------------------------------------------------------------
  // `<base>_N<ext>`

  function FirstIndex(s: string, c: char): Option<nat> {
    if s == "" then None
    else if s[0] == c then Some(0)
    else match FirstIndex(s[1..], c)
      case None => None
      case Some(k) => Some(k + 1)
  }

  lemma {:induction false} FirstIndexIs(s: string, c: char, i: nat)
    ensures FirstIndex(s, c) == Some(i) <==> i < |s| && s[i] == c && forall j | 0 <= j < i :: s[j] != c
  {
    if s != "" && s[0] != c && i > 0 {
      FirstIndexIs(s[1..], c, i - 1);
      assert forall j | 0 < j < |s| :: s[1..][j - 1] == s[j];
    }
  }

  predicate IsAlnum(c: char) {
    IsDigit(c) || 'a' <= c <= 'z' || 'A' <= c <= 'Z'
  }

  predicate AllAlnum(s: string) {
    s != "" && forall i | 0 <= i < |s| :: IsAlnum(s[i])
  }

  /** One alphanumeric part, or two with a dot between. */
  predicate IsExtension(s: string) {
    match FirstIndex(s, '.')
    case None => AllAlnum(s)
    case Some(k) => FirstIndexIs(s, '.', k); AllAlnum(s[..k]) && AllAlnum(s[k + 1..])
  }

  /** Zero, or digits without a leading zero. */
  predicate IsPlainNumeral(s: string) {
    s != "" && AllDigits(s) && (s[0] == '0' ==> |s| == 1)
  }

  datatype Legacy = Legacy(base: string, ext: string, index: nat)

  /** `legacyChunkInfo`: the base has no dot, so the numeral ends at the first dot, and it has no
      underscore, so it starts after the last one before that. */
  function LegacyInfo(name: string): Option<Legacy> {
    match FirstIndex(name, '.')
    case None => None
    case Some(k) =>
      FirstIndexIs(name, '.', k);
      match LastIndex(name[..k], '_')
      case None => None
      case Some(u) =>
        LastIndexIs(name[..k], '_', u);
        var base, digits, ext := name[..u], name[u + 1..k], name[k + 1..];
        if base == "" || '/' in base || !IsPlainNumeral(digits) || !IsExtension(ext)
              || Value(digits) > MAX_INT then None
        else Some(Legacy(base, "." + ext, Value(digits)))
  }

  lemma LegacyShape(name: string) returns (numeral: string)
    requires LegacyInfo(name).Some?
    ensures var l := LegacyInfo(name).value;
            && name == l.base + "_" + numeral + l.ext && AllDigits(numeral)
            && l.base != "" && '.' !in l.base && l.ext != "" && l.ext[0] == '.'
  {
    var k := FirstIndex(name, '.').value;
    FirstIndexIs(name, '.', k);
    var u := LastIndex(name[..k], '_').value;
    LastIndexIs(name[..k], '_', u);
    numeral := name[u + 1..k];
  }

  // ---------------------------------------------------------------------------
  // Grouping

  /** `ChunkGroupKey`. */
  function ChunkGroupKey(name: string): Option<string> {
    if ChunkInfo(name).Some? then Some(ChunkInfo(name).value.base)
    else match LegacyInfo(name)
      case Some(l) => Some(l.base + l.ext)
      case None => None
  }

  /** A file `m` that `JoinChunks` takes for a sibling of `name`: the glob finds it, and the filter
      after the glob keeps it. The globbed names hold no pattern characters. */
  predicate Joins(name: string, m: string) {
    if ChunkInfo(name).Some? then
      var base := ChunkInfo(name).value.base;
      HasPrefix(m, base + ".") && ChunkInfo(m).Some? && ChunkInfo(m).value.base == base
    else match LegacyInfo(name)
      case Some(l) =>
        && HasPrefix(m, l.base + "_") && HasSuffix(m, l.ext) && |l.base| + 1 + |l.ext| <= |m|
        && LegacyInfo(m).Some? && LegacyInfo(m).value.base == l.base && LegacyInfo(m).value.ext == l.ext
      case None => false
  }

  lemma KeySplitsOneWay(a: string, x: string, b: string, y: string)
    requires '.' !in a && '.' !in b && x != "" && y != "" && x[0] == '.' && y[0] == '.' && a + x == b + y
    ensures a == b && x == y
  {
    FirstIndexIs(a + x, '.', |a|);
    FirstIndexIs(b + y, '.', |b|);
    assert (a + x)[..|a|] == a && (b + y)[..|b|] == b;
    assert (a + x)[|a|..] == x && (b + y)[|b|..] == y;
  }

  /** A tail that starts with a dot holds the last dot of the whole, and what follows it. */
  lemma LastDotInTail(front: string, ext: string, base: string, digits: string) returns (e: nat)
    requires front + ext == base + "." + digits && ext != "" && ext[0] == '.' && AllDigits(digits)
    ensures e <= |ext| && base == front + ext[..e] && ext[e..] == "." + digits
  {
    var name := front + ext;
    LastIndexIs(name, '.', |base|);
    assert name[|front|] == '.';
    assert |base| >= |front|;
    e := |base| - |front|;
    assert ext[e..] == name[|base|..];
    assert base == name[..|base|];
  }

  lemma Regroup(front: string, ext: string, e: nat, digits: string)
    requires e <= |ext| && ext[e..] == "." + digits
    ensures front + ext == front + ext[..e] + "." + digits
  {
    assert ext == ext[..e] + ext[e..];
  }

  /** Whether a legacy name reads as a current one too depends on what its set shares only. */
  lemma SetReadsAlike(a: string, b: string)
    requires LegacyInfo(a).Some? && LegacyInfo(b).Some? && ChunkInfo(a).Some?
    requires LegacyInfo(a).value.base == LegacyInfo(b).value.base && LegacyInfo(a).value.ext == LegacyInfo(b).value.ext
    ensures ChunkInfo(b).Some?
  {
    hide LegacyInfo, Value;
    var p := LegacyShape(a);
    var q := LegacyShape(b);
    var base, ext := LegacyInfo(a).value.base, LegacyInfo(a).value.ext;
    var c := ChunkInfo(a).value;
    ChunkInfoIsThePattern(a, c.base, c.index);
    hide ChunkInfo;
    var digits :| MatchesChunk(a, c.base, digits) && Value(digits) == c.index;
    var front, front' := base + "_" + p, base + "_" + q;
    var e := LastDotInTail(front, ext, c.base, digits);
    Regroup(front', ext, e, digits);
    NoNewline(base, p, q, ext[..e]);
    assert MatchesChunk(b, front' + ext[..e], digits);
    ChunkInfoIsThePattern(b, front' + ext[..e], c.index);
  }

  lemma NoNewline(base: string, p: string, q: string, x: string)
    requires AllDigits(q) && '\n' !in base + "_" + p + x
    ensures '\n' !in base + "_" + q + x
  {
    assert forall c | c in base :: c in base + "_" + p + x;
    assert forall c | c in x :: c in base + "_" + p + x;
  }

  /** Files grouped under one key are joined together exactly when they follow the same scheme. */
  lemma SameKeyJoinsExactlyWhenSameScheme(a: string, b: string)
    requires ChunkGroupKey(a).Some? && ChunkGroupKey(b) == ChunkGroupKey(a)
    ensures Joins(a, b) <==> (ChunkInfo(a).Some? <==> ChunkInfo(b).Some?)
  {
    if ChunkInfo(a).Some? {
      if ChunkInfo(b).Some? {
        GlobFinds(b);
      }
    } else {
      var p := LegacyShape(a);
      if ChunkInfo(b).Some? {
        if Joins(a, b) {
          SetReadsAlike(b, a);
        }
      } else {
        var q := LegacyShape(b);
        var l, m := LegacyInfo(a).value, LegacyInfo(b).value;
        KeySplitsOneWay(l.base, l.ext, m.base, m.ext);
        assert b[..|m.base| + 1] == m.base + "_";
      }
    }
  }

  lemma GlobFinds(name: string)
    requires ChunkInfo(name).Some?
    ensures HasPrefix(name, ChunkInfo(name).value.base + ".")
  {
    var k := LastIndex(name, '.').value;
    LastIndexIs(name, '.', k);
    assert name[..k + 1] == name[..k] + ".";
  }

  lemma {:induction false} LegacyNameParses(base: string, numeral: string, ext: string)
    requires base != "" && '.' !in base && '/' !in base
    requires IsPlainNumeral(numeral) && Value(numeral) <= MAX_INT && IsExtension(ext)
    ensures LegacyInfo(base + "_" + numeral + "." + ext) == Some(Legacy(base, "." + ext, Value(numeral)))
  {
    hide IsExtension, Value;
    var name := base + "_" + numeral + "." + ext;
    var k := |base| + 1 + |numeral|;
    FirstIndexIs(name, '.', k);
    assert name[..k] == base + "_" + numeral;
    LastIndexIs(name[..k], '_', |base|);
    assert name[..|base|] == base && name[|base| + 1..k] == numeral && name[k + 1..] == ext;
  }

  /** The pattern `^([^./]+)_(0|[1-9]\d*)\.([A-Za-z0-9]+(?:\.[A-Za-z0-9]+)?)$`, and the range of the number. */
  ghost predicate MatchesLegacy(name: string, base: string, digits: string, ext: string) {
    && name == base + "_" + digits + "." + ext
    && base != "" && '.' !in base && '/' !in base
    && (forall i | 0 <= i < |digits| :: '0' <= digits[i] <= '9')
    && (digits == "0" || (digits != "" && digits[0] != '0'))
    && (Letters(ext) || exists a, b :: Letters(a) && Letters(b) && ext == a + "." + b)
    && AllDigits(digits) && Value(digits) <= MAX_INT
  }

  predicate Letters(s: string) {
    s != "" && forall i | 0 <= i < |s| :: '0' <= s[i] <= '9' || 'a' <= s[i] <= 'z' || 'A' <= s[i] <= 'Z'
  }

  lemma LettersAreAlnum(s: string)
    ensures Letters(s) <==> AllAlnum(s)
  {
  }

  lemma ExtensionIsThePattern(ext: string)
    ensures IsExtension(ext) <==> Letters(ext) || exists a, b :: Letters(a) && Letters(b) && ext == a + "." + b
  {
    LettersAreAlnum(ext);
    if IsExtension(ext) && FirstIndex(ext, '.').Some? {
      var k := FirstIndex(ext, '.').value;
      FirstIndexIs(ext, '.', k);
      LettersAreAlnum(ext[..k]);
      LettersAreAlnum(ext[k + 1..]);
      assert ext == ext[..k] + "." + ext[k + 1..];
    }
    if Letters(ext) && FirstIndex(ext, '.').Some? {
      var k := FirstIndex(ext, '.').value;
      FirstIndexIs(ext, '.', k);
    }
    forall a, b | Letters(a) && Letters(b) && ext == a + "." + b ensures IsExtension(ext) {
      LettersAreAlnum(a);
      LettersAreAlnum(b);
      FirstIndexIs(ext, '.', |a|);
      assert ext[..|a|] == a && ext[|a| + 1..] == b;
    }
  }

  lemma PlainNumeralIsThePattern(digits: string)
    ensures IsPlainNumeral(digits) <==>
            && (forall i | 0 <= i < |digits| :: '0' <= digits[i] <= '9')
            && (digits == "0" || (digits != "" && digits[0] != '0'))
  {
    if IsPlainNumeral(digits) {
      assert digits[0] == '0' ==> digits == "0";
    }
  }

  /** A legacy name is read in the one way the pattern can match: numbers with a leading zero, dotted bases
      and longer extensions are not recognized. */
  lemma LegacyInfoIsThePattern(name: string, base: string, ext: string, index: nat)
    ensures LegacyInfo(name) == Some(Legacy(base, "." + ext, index)) <==>
              exists digits :: MatchesLegacy(name, base, digits, ext) && Value(digits) == index
  {
    if LegacyInfo(name) == Some(Legacy(base, "." + ext, index)) {
      var k := FirstIndex(name, '.').value;
      FirstIndexIs(name, '.', k);
      var u := LastIndex(name[..k], '_').value;
      LastIndexIs(name[..k], '_', u);
      var digits := name[u + 1..k];
      assert ("." + name[k + 1..])[1..] == ("." + ext)[1..];
      PlainNumeralIsThePattern(digits);
      ExtensionIsThePattern(ext);
      assert name == base + "_" + digits + "." + ext;
      assert MatchesLegacy(name, base, digits, ext);
    }
    forall digits | MatchesLegacy(name, base, digits, ext) && Value(digits) == index
      ensures LegacyInfo(name) == Some(Legacy(base, "." + ext, index))
    {
      PlainNumeralIsThePattern(digits);
      ExtensionIsThePattern(ext);
      LegacyNameParses(base, digits, ext);
    }
  }

  lemma {:induction false} DecimalIsPlain(n: nat)
    ensures IsPlainNumeral(Decimal(n)) && Value(Decimal(n)) == n && (n > 0 ==> Decimal(n)[0] != '0')
  {
    ValueOfDecimal(n);
    if n >= 10 {
      DecimalIsPlain(n / 10);
    }
  }

  function LegacyName(base: string, n: nat, ext: string): string {
    base + "_" + Decimal(n) + "." + ext
  }

  /** A legacy name with any number up to the greatest integer parses back. */
  lemma {:induction false} LegacyNamesParseBack(base: string, n: nat, ext: string)
    requires base != "" && '.' !in base && '/' !in base && n <= MAX_INT && IsExtension(ext)
    ensures LegacyInfo(LegacyName(base, n, ext)) == Some(Legacy(base, "." + ext, n))
  {
    DecimalIsPlain(n);
    LegacyNameParses(base, Decimal(n), ext);
  }

  /** Both schemes meet under one key: chunk 1 of a split `<base>.<ext>` and chunk 0 of a legacy set
      of it are grouped, yet neither is joined with the other. */
  lemma OneKeyTwoSets(base: string, ext: string)
    requires base != "" && '.' !in base && '/' !in base && '\n' !in base + "." + ext && IsExtension(ext)
    requires ChunkInfo(base + "_0." + ext).None?
    ensures var current, legacy := ChunkName(base + "." + ext, 1), base + "_0." + ext;
            && ChunkGroupKey(current) == ChunkGroupKey(legacy) == Some(base + "." + ext)
            && !Joins(current, legacy) && !Joins(legacy, current)
  {
    var current, legacy := ChunkName(base + "." + ext, 1), base + "_0." + ext;
    NamesParseBack(base + "." + ext, 1);
    LegacyNameParses(base, "0", ext);
    assert base + "_" + "0" + "." + ext == legacy;
    hide ChunkName, LegacyInfo, ChunkInfo, IsExtension;
    assert base + ("." + ext) == base + "." + ext;
    SameKeyJoinsExactlyWhenSameScheme(current, legacy);
    SameKeyJoinsExactlyWhenSameScheme(legacy, current);
  }
}
