/** The values every part of the store speaks about: blobs named by digests,
    descriptors, and the two ways the store decodes a manifest. */
module Content {

  datatype Option<+T> = None | Some(value: T)

  newtype byte = x: int | 0 <= x < 0x100

  type Bytes = seq<byte>

  /** `<alg>:<hex>`, and also the path `blobs/<alg>/<hex>` of a file in the blob directory. */
  datatype Digest = Digest(alg: string, hex: string)

  /** Blobs are only ever written under this algorithm, and the garbage collector only scans it. */
  const CANONICAL: string := "sha256"

  /** Length of the encoded part; zero for an algorithm this build does not have. */
  function EncodedLength(alg: string): nat {
    if alg == CANONICAL then 64
    else if alg == "sha384" then 96
    else if alg == "sha512" then 128
    else 0
  }

  predicate Available(alg: string) {
    EncodedLength(alg) > 0
  }

  /** `digest.Digest.Validate() == nil`. */
  predicate Valid(d: Digest) {
    && Available(d.alg)
    && |d.hex| == EncodedLength(d.alg)
    && forall i | 0 <= i < |d.hex| :: '0' <= d.hex[i] <= '9' || 'a' <= d.hex[i] <= 'f'
  }

  /** The algorithms and the shape of their digests, written out. */
  lemma ValidDigests(d: Digest)
    ensures Available(d.alg) <==> d.alg in {"sha256", "sha384", "sha512"}
    ensures Valid(d) <==>
            && (|| (d.alg == "sha256" && |d.hex| == 64) || (d.alg == "sha384" && |d.hex| == 96)
                || (d.alg == "sha512" && |d.hex| == 128))
            && forall c <- d.hex :: c in "0123456789abcdef"
  {
    assert forall c :: c in "0123456789abcdef" <==> '0' <= c <= '9' || 'a' <= c <= 'f';
    if forall c <- d.hex :: c in "0123456789abcdef" {
      assert forall i | 0 <= i < |d.hex| :: d.hex[i] in d.hex;
    }
  }

  type Annotations = map<string, string>

  /** An OCI content descriptor. `rest` stands for the fields that only take part in equality
      (URLs, inline data, artifact type and platform). */
  datatype Descriptor = Descriptor(
    mediaType: string, digest: Digest, size: int, annotations: Annotations, rest: string)

  /** What `json.Unmarshal` yields for a manifest or an index: an absent part is empty. */
  datatype Manifest = Manifest(config: Descriptor, layers: seq<Descriptor>, manifests: seq<Descriptor>)

  /** What the garbage collector's narrower, laxer decoder yields. */
  datatype Refs = Refs(config: Digest, layers: seq<Digest>, manifests: seq<Digest>)

  /** The functions the store calls and this model does not look into: the hash, the strict
      decoder of the checker and the copier, and the lax decoder of the garbage collector. */
  datatype Codec = Codec(
    hash: (string, Bytes) -> string,
    decode: Bytes -> Option<Manifest>,
    peek: Bytes -> Option<Refs>)

  function Digests(ds: seq<Descriptor>): (r: seq<Digest>)
    ensures |r| == |ds|
    ensures forall i | 0 <= i < |ds| :: r[i] == ds[i].digest
  {
    seq(|ds|, i requires 0 <= i < |ds| => ds[i].digest)
  }

  /** The lax decoder accepts whatever the strict one accepts, and reads the same digests. */
  ghost predicate PeekAgrees(c: Codec) {
    forall b: Bytes | c.decode(b).Some? ::
      var m := c.decode(b).value;
      c.peek(b) == Some(Refs(m.config.digest, Digests(m.layers), Digests(m.manifests)))
  }

  /** A hash is written as a well-formed digest. */
  ghost predicate HashShape(c: Codec) {
    forall alg: string, b: Bytes | Available(alg) :: Valid(Digest(alg, c.hash(alg, b)))
  }

  predicate HashOk(c: Codec, d: Digest, b: Bytes) {
    c.hash(d.alg, b) == d.hex
  }

  type Files = map<Digest, Bytes>

  /** Every file in the blob directory hashes to its own name. */
  ghost predicate HashValid(c: Codec, files: Files) {
    forall d | d in files :: HashOk(c, d, files[d])
  }

  /** `files` only gained entries; nothing was removed or rewritten. */
  ghost predicate Grows(files: Files, files': Files) {
    forall d | d in files :: d in files' && files'[d] == files[d]
  }
}
