/** The byte string that is hashed into the version key of the static assets. */
module StaticAssets {
  import opened Prelude

  newtype Byte = x | 0 <= x < 256

  type Bytes = seq<Byte>

  datatype Asset = Asset(path: Bytes, content: Bytes)

  /** What reading one file gives; unreadable files are skipped. */
  datatype File = File(path: Bytes, content: Option<Bytes>)

  // ---- Lengths ----

  function Power(k: nat): (r: nat)
    ensures r >= 1
  {
    if k == 0 then 1 else 256 * Power(k - 1)
  }

  /** Big-endian bytes; only the lowest `k` are kept. */
  function BigEndian(n: nat, k: nat): (r: Bytes)
    ensures |r| == k
  {
    if k == 0 then [] else BigEndian(n / 256, k - 1) + [(n % 256) as Byte]
  }

  function Number(b: Bytes): nat {
    if b == [] then 0 else 256 * Number(b[..|b| - 1]) + b[|b| - 1] as nat
  }

  lemma {:induction false} NumberOfBigEndian(n: nat, k: nat)
    requires n < Power(k)
    ensures Number(BigEndian(n, k)) == n
  {
    if k > 0 {
      NumberOfBigEndian(n / 256, k - 1);
      assert BigEndian(n, k)[..k - 1] == BigEndian(n / 256, k - 1);
    }
  }

  // ---- The stream ----

  const LENGTH_BYTES := 8

  predicate Encodable(a: Asset) {
    |a.path| < Power(LENGTH_BYTES) && |a.content| < Power(LENGTH_BYTES)
  }

  function Field(b: Bytes): Bytes {
    BigEndian(|b|, LENGTH_BYTES) + b
  }

  function EncodeOne(a: Asset): Bytes {
    Field(a.path) + Field(a.content)
  }

  function Encode(assets: seq<Asset>): Bytes {
    if assets == [] then [] else EncodeOne(assets[0]) + Encode(assets[1..])
  }

  /** One length-prefixed field off the front. */
  function TakeField(s: Bytes): (r: Option<(Bytes, Bytes)>)
    ensures r.Some? ==> |r.value.1| < |s|
  {
    if |s| < LENGTH_BYTES then None
    else
      var n := Number(s[..LENGTH_BYTES]);
      if |s| < LENGTH_BYTES + n then None
      else Some((s[LENGTH_BYTES..LENGTH_BYTES + n], s[LENGTH_BYTES + n..]))
  }

  function Decode(s: Bytes): Option<seq<Asset>>
    decreases |s|
  {
    if s == [] then Some([])
    else match TakeField(s)
      case None => None
      case Some((path, more)) =>
        match TakeField(more)
        case None => None
        case Some((content, rest)) =>
          match Decode(rest)
          case None => None
          case Some(assets) => Some([Asset(path, content)] + assets)
  }

  lemma TakeFieldOfField(b: Bytes, rest: Bytes)
    requires |b| < Power(LENGTH_BYTES)
    ensures TakeField(Field(b) + rest) == Some((b, rest))
  {
    var s := Field(b) + rest;
    NumberOfBigEndian(|b|, LENGTH_BYTES);
    assert s[..LENGTH_BYTES] == BigEndian(|b|, LENGTH_BYTES);
    assert s[LENGTH_BYTES..LENGTH_BYTES + |b|] == b;
    assert s[LENGTH_BYTES + |b|..] == rest;
  }

  lemma EncodeSplits(assets: seq<Asset>)
    requires assets != []
    ensures Encode(assets) == Field(assets[0].path) + (Field(assets[0].content) + Encode(assets[1..]))
  {
    hide Field;
  }

  lemma DecodeJoins(a: Asset, rest: Bytes, assets: seq<Asset>)
    requires Encodable(a) && Decode(rest) == Some(assets)
    ensures Decode(Field(a.path) + (Field(a.content) + rest)) == Some([a] + assets)
  {
    hide Field, TakeField;
    TakeFieldOfField(a.path, Field(a.content) + rest);
    TakeFieldOfField(a.content, rest);
    NotEmpty(a.path, Field(a.content) + rest);
  }

  lemma NotEmpty(b: Bytes, rest: Bytes)
    ensures Field(b) + rest != []
  {
  }

  /** Decoding the stream gives back the assets: the digest input determines them. */
  lemma {:induction false} DecodeInvertsEncode(assets: seq<Asset>)
    requires forall a | a in assets :: Encodable(a)
    ensures Decode(Encode(assets)) == Some(assets)
  {
    hide Field, Encodable;
    if assets != [] {
      DecodeInvertsEncode(assets[1..]);
      EncodeSplits(assets);
      assert assets[0] in assets;
      DecodeJoins(assets[0], Encode(assets[1..]), assets[1..]);
      assert assets == [assets[0]] + assets[1..];
    }
  }

  // ---- The version key ----

  function Readable(files: seq<File>): (r: seq<Asset>)
    ensures |r| <= |files|
  {
    if files == [] then []
    else
      var rest := Readable(files[..|files| - 1]);
      match files[|files| - 1].content
      case None => rest
      case Some(content) => rest + [Asset(files[|files| - 1].path, content)]
  }

  /** Of each file that could be read the path and content, in order, and nothing else. */
  lemma {:induction false} ReadableExactly(files: seq<File>, more: seq<File>)
    ensures Readable([]) == []
    ensures forall f: File :: Readable([f]) == if f.content.Some? then [Asset(f.path, f.content.value)] else []
    ensures Readable(files + more) == Readable(files) + Readable(more)
  {
    forall f: File ensures Readable([f]) == if f.content.Some? then [Asset(f.path, f.content.value)] else [] {
      assert [f][..0] == [];
    }
    if more == [] {
      assert files + more == files;
    } else {
      var init := more[..|more| - 1];
      ReadableExactly(files, init);
      assert (files + more)[..|files + more| - 1] == files + init;
    }
  }

  lemma {:induction false} EncodeAppends(assets: seq<Asset>, a: Asset)
    ensures Encode(assets + [a]) == Encode(assets) + EncodeOne(a)
  {
    hide EncodeOne;
    if assets == [] {
      assert assets + [a] == [a] && [a][1..] == [];
    } else {
      EncodeAppends(assets[1..], a);
      assert (assets + [a])[1..] == assets[1..] + [a];
    }
  }

  /** The bytes fed to the digest, file by file, and how many files were hashed. */
  method DigestInput(files: seq<File>) returns (fed: Bytes, hashed: nat)
    ensures fed == Encode(Readable(files))
    ensures hashed == |Readable(files)|
  {
    fed, hashed := [], 0;
    for i := 0 to |files|
      invariant fed == Encode(Readable(files[..i])) && hashed == |Readable(files[..i])|
    {
      assert files[..i + 1][..i] == files[..i];
      if files[i].content.None? { continue; }
      var content := files[i].content.value;
      EncodeAppends(Readable(files[..i]), Asset(files[i].path, content));
      fed := fed + BigEndian(|files[i].path|, LENGTH_BYTES);
      fed := fed + files[i].path;
      fed := fed + BigEndian(|content|, LENGTH_BYTES);
      fed := fed + content;
      hashed := hashed + 1;
    }
    assert files[..|files|] == files;
  }

  /** Two lists of files feed the digest the same bytes exactly when their readable assets are the same. */
  lemma SameInputSameAssets(files: seq<File>, others: seq<File>)
    requires forall a | a in Readable(files) :: Encodable(a)
    requires forall a | a in Readable(others) :: Encodable(a)
    ensures Encode(Readable(files)) == Encode(Readable(others)) <==> Readable(files) == Readable(others)
  {
    DecodeInvertsEncode(Readable(files));
    DecodeInvertsEncode(Readable(others));
  }

  /** Without readable assets the key is the plain version; otherwise the digest is appended. */
  method StaticAssetVersion(files: seq<File>, version: string, digest: Bytes -> string) returns (key: string)
    ensures key == if Readable(files) == [] then version else version + "-" + digest(Encode(Readable(files)))
  {
    var fed, hashed := DigestInput(files);
    return if hashed == 0 then version else version + "-" + digest(fed);
  }
}
