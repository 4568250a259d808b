# Blob verification engine of rust-image-verification

The program checks a mirrored container-image store on local disk. It walks a release tree and an
operators tree of image manifests. For each manifest it takes the config blob and then every
layer blob. Layer blobs already scheduled in the run are skipped; they are remembered in a
run-wide list, `vec_blobs`. Each blob is handed to a bounded queue of pending `verify_file` calls.
`verify_file` locates the blob under `<base>/blobs-store//<first two hex chars>/<hex>` and checks
that its size and SHA-256 sum match the manifest. A missing blob is only logged. A size or sum
mismatch fails an `assert_eq!`, and that ends the whole process. The doubled `/` comes from the
store root ending in `/` (src/main.rs:109) and the path format adding another (src/main.rs:263).

The model has these modules:

- `Strings`: Rust's `str::split` on one character, with its join and round trips; `str::contains`;
  a list grown at the front by `insert(0, _)`.
- `Manifests`: the serde structs as datatypes. Sizes are a 64-bit signed `i64` newtype. A walk
  entry is a directory or a file carrying its parse result.
- `Digest`: the hex part `split(":")[1]` of a digest, and the blob path.
- `VerifyFile`: the outcome of `verify_file`. The file system is a map from path to bytes; the
  SHA-256 function is a parameter.
- `Logging`: the `--loglevel` match.
- `Components`: the `component_full_name` state machine of the operators walk, as written.
- `Schedule`: what the driver loop schedules, as pure functions. It records the tasks pushed, in
  order, and `vec_blobs`, threaded through the layer loop, one manifest, one walk and the run. A
  panic before any blob check (`unwrap`, `expect`, the index `[1]`) is an `Err`.
- `Engine`: the driver loop itself, as a class `Verifier`. Its fields are `seen` (`vec_blobs`),
  `pending` (`futs`), `componentName` and the panic that ended the run, if any. Its methods push
  tasks, retire one whenever the queue reaches `BatchSize` (16), and drain the queue after every
  manifest. `PushConfig`, `Next`, `Admit`, `Settle` and `Drain` are queue operations whose
  contracts state the new queue and list. `ScheduleLayer`, `ScheduleLayers`, `ScheduleManifest`,
  `VerifyManifest`, `RunPass` and `Run` are proved against the `Schedule` functions: their
  recorded progress equals the corresponding plan. `VerifyStore` runs the whole
  engine; it completes exactly when the planned run has no planning panic and every scheduled
  blob is either missing or matches.

Two facts about the code shape the model:

- Manifest lists are never recursed into. The operators walk skips them by file name and by
  media type (src/main.rs:206-216). The release walk parses every file as a manifest
  (src/main.rs:133-139), so a manifest list there panics on its missing `config`.
- A size or digest mismatch is not collected as data. It fails an `assert_eq!`
  (src/main.rs:268, 271), which stops the run.

## Model

| member | source | states |
|---|---|---|
| Strings.Split | src/main.rs:141 | `split` always yields at least one piece; no piece contains the separator; there is exactly one piece iff the separator does not occur |
| Strings.JoinSplit | src/main.rs:141 | gluing the pieces of a split back together with the separator gives the original string |
| Strings.SplitJoin | src/main.rs:141 | pieces without the separator are recovered by splitting their join |
| Strings.SplitAround | src/main.rs:155 | splitting `x + sep + y` gives the pieces of `x` followed by the pieces of `y` |
| Strings.ContainsAt | src/main.rs:192 | `contains` holds iff the fragment occurs at some position |
| Strings.ReversedElements | src/main.rs:166 | a list built by `insert(0, _)` holds exactly the elements inserted, as a multiset |
| Strings.ReversedIndex | src/main.rs:166 | the element at position i of a list built by `insert(0, _)` is the i-th inserted counted from the last |
| Strings.NoDupReversed | src/main.rs:166 | a list built by `insert(0, _)` is free of duplicates iff the elements inserted are |
| Digest.DigestHex | src/main.rs:141 | the index `[1]` of `split(":")` panics iff the digest has no `:`; the hex part has no `:` |
| Digest.DigestHexOfCompose | src/main.rs:155 | the hex part of `algorithm:hex` is `hex` |
| Digest.DigestHexBetweenColons | src/main.rs:220 | with a second `:`, the hex part is the text between the first and second `:` |
| Digest.DigestHexIsSecondField | src/main.rs:234 | every accepted digest is `algorithm:hex` or `algorithm:hex:rest`, with `hex` the field taken |
| Digest.BlobPath | src/main.rs:263 | the slice `[..2]` panics iff the sum is shorter than 2; the path starts with the store root, ends with the sum, and is 4 characters longer than both together |
| Digest.BlobPathComponents | src/main.rs:263 | the path's last two components are the shard, the sum's first two characters, and the sum; the store root's components come before them |
| Digest.BlobPathInjective | src/main.rs:263 | two sums without `/` that give the same path are the same sum |
| VerifyFile.AsU64 | src/main.rs:268 | `as u64` keeps a non-negative size and adds 2^64 to a negative one |
| VerifyFile.Classify | src/main.rs:262-277 | a short sum panics; no file means missing and the run goes on; the blob verifies iff it exists with the declared size and sum; it is a size mismatch iff it exists with another size, reporting the declared size and the file's length; it is a digest mismatch iff the size matches and the hash does not, reporting the declared sum and the file's hash |
| VerifyFile.NegativeSizeNeverVerifies | src/main.rs:268 | a negative declared size fails the size check for any file shorter than 2^63 bytes |
| VerifyFile.ClassifyReadsOnlyItsPath | src/main.rs:263-271 | only the file at the blob's own path affects the outcome |
| Logging.ParseLevel | src/main.rs:93-98 | "debug" and "trace" select their levels; every other string, "info" included, selects INFO |
| Logging.ParseLevelName | src/main.rs:93-98 | every level is selected by its own name |
| Components.LastComponentOfChild | src/main.rs:191 | the last component of `parent/name` is `name` when `name` has no `/` |
| Components.FreshNameDoubles | src/main.rs:196-201 | entering directory `c` with an empty name gives `c/c`, because both `if`s fire |
| Components.NameExtends | src/main.rs:199-201 | a name in progress gets `/c` appended |
| Components.DigestDirectoryResets | src/main.rs:192-194 | a directory whose name contains `sha256:` clears the name |
| Components.TrailingSlashKeepsName | src/main.rs:191-201 | a path ending in `/`, whose last component is empty, leaves the name unchanged |
| Schedule.Select | src/main.rs:133-137 | the release walk parses every file; the operators walk skips `manifest-list.json` files unread and manifests whose media type is absent or the manifest-list type; a file that does not parse panics |
| Schedule.StepLayerAppends | src/main.rs:154-169 | a layer step only appends tasks, and `vec_blobs` gains exactly the sums of the appended tasks, at its front |
| Schedule.PlanLayersAppends | src/main.rs:154-173 | the layer loop appends tasks and puts exactly their sums, newest first, in front of `vec_blobs` |
| Schedule.PlanLayersKeepsSeenDistinct | src/main.rs:159-166 | the layer loop keeps `vec_blobs` free of duplicates |
| Schedule.PlanLayersRecordsEverySum | src/main.rs:159-166 | after the layer loop, every layer sum is in `vec_blobs`, whether it was pushed or skipped |
| Schedule.PlanLayersFails | src/main.rs:155 | the layer loop panics iff some layer digest has no `:` |
| Schedule.PlanLayersPrefix | src/main.rs:154-173 | stopping the layer loop early gives a prefix of its tasks |
| Schedule.NewLayerSumsMembers | src/main.rs:154-166 | a sum is among the tasks the layer loop pushes iff it is not in `vec_blobs` beforehand and some layer carries it |
| Schedule.NewLayerTasksAreLayers | src/main.rs:154-166 | every task the layer loop pushes is a layer task |
| Schedule.PlanLayersNew | src/main.rs:154-169 | for any `vec_blobs` and any layers, the loop pushes exactly the layers, in order, whose sum is neither in `vec_blobs` nor carried by an earlier layer, and puts their sums newest first in front of `vec_blobs` |
| Schedule.PlanLayersFresh | src/main.rs:154-166 | with distinct new sums, every layer is pushed in manifest order with its own sum and size, and `vec_blobs` gains their sums newest first |
| Schedule.FreshStep | src/main.rs:159-166 | a layer whose sum is new is appended as a task and its sum is put in front of `vec_blobs` |
| Schedule.ManifestPlanExtends | src/main.rs:139-166 | a manifest appends its config task first, with the config's sum and size; `vec_blobs` gains only the sums of the layer tasks after it, so config sums never enter it; no duplicates appear |
| Schedule.ManifestPlanTasks | src/main.rs:139-169 | a manifest pushes its config task and then exactly the layers the loop filter keeps, and puts only those layers' sums in front of `vec_blobs` |
| Schedule.ManifestPlanFails | src/main.rs:139-155 | a manifest panics iff its config or layers are missing or one of its digests has no `:` |
| Schedule.ManifestPlanFresh | src/main.rs:139-166 | a manifest with N fresh distinct layers schedules exactly N + 1 tasks: the config, then each layer in order |
| Schedule.ManifestPlanAllSeen | src/main.rs:159-169 | when every layer sum is already in `vec_blobs`, only the config is scheduled and `vec_blobs` is unchanged |
| Schedule.AllSeenLayersSkipped | src/main.rs:159-169 | a layer loop over layers already in `vec_blobs` changes nothing |
| Schedule.ManifestPlanIsExtension | src/main.rs:139-175 | a manifest only appends tasks and only adds sums to the front of `vec_blobs` |
| Schedule.ExtendsTransitive | src/main.rs:118-259 | extending the run twice is extending it |
| Schedule.PassPlanExtends | src/main.rs:122-177 | a walk only appends tasks, only adds to `vec_blobs`, and keeps it free of duplicates |
| Schedule.PassPlanPrefix | src/main.rs:185-258 | stopping a walk early gives a prefix of its tasks |
| Schedule.RunPlanKeepsSeenDistinct | src/main.rs:115-259 | over both walks, sharing `vec_blobs`, no layer sum is recorded twice and nothing recorded is lost |
| Schedule.LayerSumsAppend | src/main.rs:148-166 | the layer sums of two task lists in a row are the layer sums of each, in a row |
| Schedule.ManifestPlanRecorded | src/main.rs:139-169 | if `vec_blobs` holds the sums of the layer tasks pushed so far, newest first, it still does after a manifest |
| Schedule.PassPlanRecorded | src/main.rs:122-177 | the same holds after a walk |
| Schedule.RunPlanSchedulesLayersOnce | src/main.rs:115-259 | a run started empty pushes no layer sum twice, over both walks, and `vec_blobs` is exactly the sums of the layer tasks pushed, newest first |
| Engine.IncompletePrefix | src/main.rs:154-173 | a failure on some prefix of the layers fails the whole layer loop |
| Engine.Verifier.ScheduledPassed | src/main.rs:175 | once nothing is pending and nothing failed, every task pushed has passed its check |
| Engine.Verifier.RetiredWasScheduled | src/main.rs:171 | a task awaited was pushed |
| Engine.Verifier.PushConfig | src/main.rs:148 | pushing a config task appends it to the queue and changes nothing else |
| Engine.Verifier.Next | src/main.rs:171 | awaiting removes exactly one pending task, any one, runs its check, and panics iff the check is fatal |
| Engine.Verifier.Admit | src/main.rs:160-166 | a new layer's task joins the queue and its sum goes to the front of `vec_blobs`, which stays free of duplicates |
| Engine.Verifier.Settle | src/main.rs:170-172 | a full queue retires exactly one task; afterwards fewer than 16 are pending unless the run panicked |
| Engine.Verifier.ScheduleLayer | src/main.rs:154-172 | one layer step does what `Schedule.StepLayer` plans; afterwards fewer than 16 tasks are pending, and one task was retired iff the queue reached 16 |
| Engine.Verifier.ScheduleLayers | src/main.rs:154-173 | the layer loop does what `Schedule.PlanLayers` plans, or panics only where that plan cannot complete |
| Engine.Verifier.Drain | src/main.rs:175 | draining empties the queue, awaiting each pending task exactly once, unless a check panics |
| Engine.Verifier.ScheduleManifest | src/main.rs:139-173 | pushing the config and running the layer loop do what `Schedule.ManifestPlan` plans |
| Engine.Verifier.VerifyManifest | src/main.rs:139-175 | a manifest completes iff its plan succeeds and every task passes; then the queue is empty and the tasks awaited for it are exactly the tasks pushed for it |
| Engine.Verifier.SettledSince | src/main.rs:175 | between two moments with an empty queue, the tasks awaited are exactly the tasks pushed |
| Engine.Verifier.PanicIncomplete | src/main.rs:139-155 | a panic means the plan run so far cannot complete |
| Engine.Verifier.CompletesPrefix | src/main.rs:122-177 | if a plan completes, so does every plan whose tasks are a prefix of its tasks |
| Engine.Verifier.RunPass | src/main.rs:184-258 | a walk completes iff its plan succeeds and every task passes; the operators walk ends with the component name folded over its directories |
| Engine.Verifier.Run | src/main.rs:117-259 | the release walk and then the operators walk complete iff the run's plan succeeds and every task passes |
| Engine.VerifyStore | src/main.rs:105-259 | the engine, started empty, gets to the end iff every file parses, every selected manifest has a config and layers, every digest has a `:`, and every scheduled blob is missing or matches |

## Left out

- Directory walking (`WalkDir`) is not modelled. A walk is an input sequence of directory and file entries in walk order; entries that are neither are dropped by the walk itself.
- Reading manifest files and serde JSON parsing are not modelled. A file entry carries its parse result; a read failure and a parse failure are the same panic, `Unparsable`.
- SHA-256 (FIPS 180-4) is a function parameter `hash`, not an implementation.
- The async runtime is not modelled. `futs` is a sequence; `next()` removes any one pending task, since completion order is unspecified, and runs it to its outcome. There is no interleaving.
- `verify_file` reads the size from file metadata and then the bytes separately. The model uses the length of the one file content in the map, so a file that changes in between is not modelled. A read failure after a successful `metadata` (`unwrap`) is not modelled either.
- Logging output is not modelled: the `log.*` calls, the level's effect on them, and the release walk's component printing (lines 126-131).
- The CLI (`src/api/schema.rs`, `Cli::parse`) and the paths built from its arguments are not modelled; the walks are inputs.
- The serde structs that the engine never reads (`FsLayer`, `ManifestList` and `Common` in src/main.rs) are not modelled.
- Slicing `blob_sum[..2]` is by bytes in Rust and by characters here. A multi-byte character in the first two bytes panics in Rust; the model does not capture that.
- Directory paths are plain strings, with no normalisation of repeated `/`.
