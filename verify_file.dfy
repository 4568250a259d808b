/** The classification `verify_file` makes of one blob (src/main.rs, lines 262-277), over a file
    system given as a map from path to content and a digest function given as a parameter. */
module VerifyFile {
  import opened Common
  import opened Manifests
  import opened Digest

  /** The blob store as the engine sees it: the content of every regular file, by path. */
  type FileSystem = map<string, seq<bv8>>

  /** What verifying one blob comes to. */
  datatype Outcome =
    | Verified                                        // size and digest both match
    | Missing                                         // no file: logged as missing, the run goes on
    | SizeMismatch(expectedSize: i64, actualSize: nat)      // first `assert_eq!` fails
    | DigestMismatch(expectedSum: string, actualSum: string) // second `assert_eq!` fails
    | ShortSum                                        // `blob_sum[..2]` is out of range

  /** The outcomes that panic and so end the whole run. */
  predicate IsFatal(o: Outcome) {
    !(o.Verified? || o.Missing?)
  }

  /** Rust's `x as u64` for an `i64`: two's-complement reinterpretation, so a negative size
      becomes a number of at least 2^63. */
  function AsU64(x: i64): (r: nat)
    ensures r < 0x1_0000_0000_0000_0000
    ensures x >= 0 ==> r == x as int
    ensures x < 0 ==> r == x as int + 0x1_0000_0000_0000_0000
  {
    (x as int) % 0x1_0000_0000_0000_0000
  }

  /** `verify_file(blobs_dir, blob_sum, blob_size)`: locate the blob, then check that it exists,
      that its length is the declared size and that its content hashes to the declared sum. The
      size is compared first, so a blob of the wrong size is a size mismatch whatever its hash,
      and only a blob of the right size reaches the hash comparison. */
  function Classify(fs: FileSystem, hash: seq<bv8> -> string, blobsDir: string,
                    blobSum: string, blobSize: i64): (o: Outcome)
    ensures o.ShortSum? <==> |blobSum| < 2
    ensures o.Missing? <==> |blobSum| >= 2 && BlobPath(blobsDir, blobSum).value !in fs
    ensures o.Verified? <==>
      |blobSum| >= 2 && BlobPath(blobsDir, blobSum).value in fs &&
      |fs[BlobPath(blobsDir, blobSum).value]| == AsU64(blobSize) &&
      hash(fs[BlobPath(blobsDir, blobSum).value]) == blobSum
    ensures o.SizeMismatch? <==>
      |blobSum| >= 2 && BlobPath(blobsDir, blobSum).value in fs &&
      |fs[BlobPath(blobsDir, blobSum).value]| != AsU64(blobSize)
    ensures o.SizeMismatch? ==>
      o.expectedSize == blobSize && o.actualSize == |fs[BlobPath(blobsDir, blobSum).value]|
    ensures o.DigestMismatch? <==>
      |blobSum| >= 2 && BlobPath(blobsDir, blobSum).value in fs &&
      |fs[BlobPath(blobsDir, blobSum).value]| == AsU64(blobSize) &&
      hash(fs[BlobPath(blobsDir, blobSum).value]) != blobSum
    ensures o.DigestMismatch? ==>
      o.expectedSum == blobSum && o.actualSum == hash(fs[BlobPath(blobsDir, blobSum).value])
  {
    match BlobPath(blobsDir, blobSum)
    case None => ShortSum
    case Some(file) =>
      if file !in fs then Missing
      else if |fs[file]| != AsU64(blobSize) then SizeMismatch(blobSize, |fs[file]|)
      else if hash(fs[file]) != blobSum then DigestMismatch(blobSum, hash(fs[file]))
      else Verified
  }

  /** A blob whose manifest declares a negative size never verifies: the cast makes the expected
      length at least 2^63, more than any file shorter than that has. */
  lemma NegativeSizeNeverVerifies(fs: FileSystem, hash: seq<bv8> -> string, blobsDir: string,
                                  blobSum: string, blobSize: i64)
    requires blobSize < 0 && |blobSum| >= 2
    requires BlobPath(blobsDir, blobSum).value in fs
    requires |fs[BlobPath(blobsDir, blobSum).value]| < 0x8000_0000_0000_0000
    ensures Classify(fs, hash, blobsDir, blobSum, blobSize).SizeMismatch?
  {
  }

  /** Only the file at the blob's own path matters: files elsewhere in the store do not change the
      outcome. */
  lemma ClassifyReadsOnlyItsPath(fs1: FileSystem, fs2: FileSystem, hash: seq<bv8> -> string,
                                 blobsDir: string, blobSum: string, blobSize: i64)
    requires |blobSum| >= 2
    requires var p := BlobPath(blobsDir, blobSum).value;
      (p in fs1 <==> p in fs2) && (p in fs1 ==> fs1[p] == fs2[p])
    ensures Classify(fs1, hash, blobsDir, blobSum, blobSize) == Classify(fs2, hash, blobsDir, blobSum, blobSize)
  {
  }
}
