/** Digest splitting and the blob locator of src/main.rs. */
module Digest {
  import opened Common
  import opened Strings

  /** The text `digest.split(":").collect::<Vec<&str>>()[1]` takes: the second `:`-separated field,
      that is, the hex part of `sha256:<hex>`. `None` where the index panics: a digest without `:`. */
  function DigestHex(digest: string): (hex: Option<string>)
    ensures hex.None? <==> ':' !in digest
    ensures hex.Some? ==> ':' !in hex.value
  {
    var parts := Split(digest, ':');
    if |parts| >= 2 then Some(parts[1]) else None
  }

  /** The canonical `algorithm:hex` form of a digest. */
  function ComposeDigest(algorithm: string, hex: string): string {
    algorithm + [':'] + hex
  }

  /** Round trip: the hex part of a composed digest is the hex it was composed from. */
  lemma DigestHexOfCompose(algorithm: string, hex: string)
    requires ':' !in algorithm && ':' !in hex
    ensures DigestHex(ComposeDigest(algorithm, hex)) == Some(hex)
  {
    SplitAround(algorithm, ':', hex);
    SplitNoSeparator(algorithm, ':');
    SplitNoSeparator(hex, ':');
  }

  /** Whatever follows a second `:` is ignored: the hex part is the text between the first and
      the second `:`. */
  lemma DigestHexBetweenColons(algorithm: string, hex: string, tail: string)
    requires ':' !in algorithm && ':' !in hex
    ensures DigestHex(algorithm + [':'] + hex + [':'] + tail) == Some(hex)
  {
    var d := algorithm + [':'] + (hex + [':'] + tail);
    assert algorithm + [':'] + hex + [':'] + tail == d;
    SplitAround(algorithm, ':', hex + [':'] + tail);
    SplitAround(hex, ':', tail);
    SplitNoSeparator(algorithm, ':');
    SplitNoSeparator(hex, ':');
  }

  /** Conversely, every digest the split accepts has that shape: an algorithm without `:`, a `:`,
      the hex part, and then either nothing or a `:` and the rest. */
  lemma DigestHexIsSecondField(digest: string)
    requires ':' in digest
    ensures var parts := Split(digest, ':');
      ':' !in parts[0] &&
      digest == parts[0] + [':'] + DigestHex(digest).value
                + (if |parts| == 2 then [] else [':'] + Join(parts[2..], ':'))
  {
    var parts := Split(digest, ':');
    JoinSplit(digest, ':');
    assert parts[1..][1..] == parts[2..];
  }

  /** The blob store root: `format!("{}/blobs-store/", base_dir)`. */
  function BlobsDir(baseDir: string): string {
    baseDir + "/blobs-store/"
  }

  /** The path `verify_file` builds, `format!("{}/{}/{}", blobs_dir, &blob_sum[..2], blob_sum)`;
      `None` where the slice `[..2]` panics, a sum shorter than two characters. */
  function BlobPath(blobsDir: string, hex: string): (path: Option<string>)
    ensures path.None? <==> |hex| < 2
    ensures path.Some? ==> |path.value| == |blobsDir| + |hex| + 4
    ensures path.Some? ==> path.value[..|blobsDir|] == blobsDir
    ensures path.Some? ==> path.value[|path.value| - |hex|..] == hex
  {
    if |hex| < 2 then None else Some(blobsDir + "/" + hex[..2] + "/" + hex)
  }

  /** The last two `/`-separated components of a blob path are the shard directory, the first two
      characters of the hex, and the file name, the hex itself; the components of the store root
      come before them unchanged. */
  lemma BlobPathComponents(blobsDir: string, hex: string)
    requires |hex| >= 2 && '/' !in hex
    ensures BlobPath(blobsDir, hex).Some?
    ensures Split(BlobPath(blobsDir, hex).value, '/') == Split(blobsDir, '/') + [hex[..2], hex]
  {
    var shard := hex[..2];
    assert '/' !in shard by {
      forall k | 0 <= k < |shard| ensures shard[k] != '/' { assert shard[k] == hex[k]; }
    }
    assert BlobPath(blobsDir, hex).value == blobsDir + ['/'] + (shard + ['/'] + hex);
    SplitAround(blobsDir, '/', shard + ['/'] + hex);
    SplitAround(shard, '/', hex);
    SplitNoSeparator(shard, '/');
    SplitNoSeparator(hex, '/');
  }

  /** The store is content addressed: two sums with the same path are the same sum. */
  lemma BlobPathInjective(blobsDir: string, hex1: string, hex2: string)
    requires |hex1| >= 2 && '/' !in hex1 && |hex2| >= 2 && '/' !in hex2
    requires BlobPath(blobsDir, hex1) == BlobPath(blobsDir, hex2)
    ensures hex1 == hex2
  {
    BlobPathComponents(blobsDir, hex1);
    BlobPathComponents(blobsDir, hex2);
    var n := |Split(blobsDir, '/')|;
    assert (Split(blobsDir, '/') + [hex1[..2], hex1])[n + 1] == hex1;
    assert (Split(blobsDir, '/') + [hex2[..2], hex2])[n + 1] == hex2;
  }
}
