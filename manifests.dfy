/** The parsed documents the engine consumes: the serde structs of src/main.rs as values.
    JSON parsing itself is not modelled; a file entry carries the parse result, `None` when the
    text is not a manifest. */
module Manifests {
  import opened Common

  /** Rust's `i64`, the type of every size field. */
  newtype i64 = x: int | -0x8000_0000_0000_0000 <= x < 0x8000_0000_0000_0000

  /** A config or layer descriptor; `digest` is written `sha256:<hex>`. */
  datatype Layer = Layer(mediaType: string, size: i64, digest: string)

  datatype Platform = Platform(architecture: string, os: string)

  /** An image manifest. Every field is optional; a manifest list parsed with this schema has
      neither `config` nor `layers`. */
  datatype Manifest = Manifest(
    schemaVersion: Option<i64>,
    digest: Option<string>,
    mediaType: Option<string>,
    platform: Option<Platform>,
    size: Option<i64>,
    config: Option<Layer>,
    layers: Option<seq<Layer>>)

  /** One item of the directory walk, in walk order: a directory, or a file with its parse result. */
  datatype Entry = Dir(path: string) | File(path: string, parsed: Option<Manifest>)

  /** The media type of a Docker manifest list, the only list type the operators pass skips. */
  const ListMediaType: string := "application/vnd.docker.distribution.manifest.list.v2+json"

  /** The file-name fragment that keeps a file in the operators tree from being parsed. */
  const ManifestListFileName: string := "manifest-list.json"
}
