/** The driver loop of `main` in src/main.rs (lines 105-259): the two directory walks, the
    run-wide list `vec_blobs` of layer sums already scheduled, and the queue `futs` of pending
    `verify_file` calls, bounded by `batch_size` and drained after every manifest.
    The queue is sequential here: pushing appends a task, and awaiting the next completion runs
    one pending task, any one of them, to its outcome. A panic anywhere ends the process, so the
    model records it and runs nothing afterwards. */
module Engine {
  import opened Common
  import opened Strings
  import opened Manifests
  import opened Digest
  import opened VerifyFile
  import opened Components
  import opened Schedule

  /** `batch_size`: once this many tasks are pending, the layer loop waits for one of them. */
  const BatchSize: nat := 16

  /** Why the process stopped: a panic while scheduling, or a check whose `assert_eq!` or slice
      failed. */
  datatype Panic = PlanPanic(error: PlanError) | BlobPanic(task: Task, outcome: Outcome)

  /** A run of the whole plan completes when the plan succeeds and no task in it fails its check. */
  ghost predicate Completes(fs: FileSystem, hash: seq<bv8> -> string, blobsDir: string,
                            r: Result<Plan, PlanError>)
  {
    r.Ok? && forall t :: t in r.value.tasks ==> !IsFatal(Classify(fs, hash, blobsDir, t.sum, t.size))
  }

  /** A task that fails on some prefix of the layers fails the whole layer loop. */
  lemma IncompletePrefix(fs: FileSystem, hash: seq<bv8> -> string, blobsDir: string,
                         first: Plan, layers: seq<Layer>, n: nat)
    requires n <= |layers|
    requires !Completes(fs, hash, blobsDir, PlanLayers(first, layers[..n]))
    ensures !Completes(fs, hash, blobsDir, PlanLayers(first, layers))
  {
    var r := PlanLayers(first, layers);
    if r.Ok? {
      PlanLayersPrefix(first, layers, n);
      var q := PlanLayers(first, layers[..n]);
      assert q.Ok?;
      var t :| t in q.value.tasks && IsFatal(Classify(fs, hash, blobsDir, t.sum, t.size));
      assert t in r.value.tasks[..|q.value.tasks|];
    }
  }

  /** Taking the element at `k` out of a sequence takes it out of its multiset. */
  lemma RemoveAt<T>(s: seq<T>, k: nat)
    requires k < |s|
    ensures multiset(s) == multiset(s[..k] + s[k + 1..]) + multiset{s[k]}
    ensures |s[..k] + s[k + 1..]| == |s| - 1
  {
    assert s == s[..k] + [s[k]] + s[k + 1..];
  }

  class Verifier {
    const blobsDir: string
    const fs: FileSystem
    const hash: seq<bv8> -> string

    /** `vec_blobs`: the layer sums scheduled so far, newest first. */
    var seen: seq<string>
    /** `futs`: the tasks pushed and not yet awaited. */
    var pending: seq<Task>
    /** `component_full_name` of the operators walk. */
    var componentName: string
    /** Set when the process panics. */
    var panic: Option<Panic>

    /** Every task pushed, in push order. */
    ghost var scheduled: seq<Task>
    /** Every task awaited, in completion order. */
    ghost var retired: seq<Task>

    /** `verify_file` for one task. */
    function Check(t: Task): Outcome {
      Classify(fs, hash, blobsDir, t.sum, t.size)
    }

    /** The object invariant: at most `BatchSize` tasks pending; every task pushed is either
        pending or awaited, exactly once; `vec_blobs` holds no sum twice; and the record of a failed
        check is true. How `vec_blobs` relates to the layer tasks pushed is proved about the plan,
        in `Schedule.RunPlanSchedulesLayersOnce`. */
    ghost predicate Valid()
      reads this
    {
      |pending| <= BatchSize &&
      multiset(scheduled) == multiset(retired) + multiset(pending) &&
      NoDup(seen) &&
      (panic.None? ==> forall t :: t in retired ==> !IsFatal(Check(t))) &&
      (panic.Some? && panic.value.BlobPanic? ==>
         panic.value.task in retired && panic.value.outcome == Check(panic.value.task) &&
         IsFatal(panic.value.outcome))
    }

    /** What has been scheduled, in the terms of the `Schedule` module. */
    ghost function Progress(): Plan
      reads this
    {
      Plan(scheduled, seen)
    }

    constructor (baseDir: string, fs: FileSystem, hash: seq<bv8> -> string)
      ensures Valid() && panic.None?
      ensures this.blobsDir == BlobsDir(baseDir) && this.fs == fs && this.hash == hash
      ensures seen == [] && pending == [] && componentName == ""
      ensures scheduled == [] && retired == []
    {
      blobsDir := BlobsDir(baseDir);
      this.fs := fs;
      this.hash := hash;
      seen := [];
      pending := [];
      componentName := "";
      panic := None;
      scheduled := [];
      retired := [];
    }

    /** Once nothing is pending and nothing failed, every task pushed has passed its check. */
    lemma ScheduledPassed()
      requires Valid() && panic.None? && pending == []
      ensures forall t :: t in scheduled ==> !IsFatal(Check(t))
    {
      forall t | t in scheduled ensures !IsFatal(Check(t)) {
        assert t in multiset(scheduled);
        assert t in multiset(retired);
      }
    }

    /** A task that was awaited was pushed. */
    lemma RetiredWasScheduled(t: Task)
      requires Valid() && t in retired
      ensures t in scheduled
    {
      assert t in multiset(retired);
      assert t in multiset(scheduled);
    }

    /** `futs.push(verify_file(...))` for a config (line 148): the task becomes pending, nothing
        runs yet, and `vec_blobs` is left alone. */
    method PushConfig(t: Task)
      requires Valid() && |pending| < BatchSize && t.role == ConfigBlob
      modifies this
      ensures Valid()
      ensures pending == old(pending) + [t] && scheduled == old(scheduled) + [t]
      ensures seen == old(seen) && retired == old(retired)
      ensures panic == old(panic) && componentName == old(componentName)
    {
      pending := pending + [t];
      scheduled := scheduled + [t];
    }

    /** `futs.next().await`: some pending task, whichever completes first, runs to its outcome
        and leaves the queue. A failed check panics. */
    method Next() returns (t: Task, o: Outcome)
      requires Valid() && panic.None? && pending != []
      modifies this
      ensures Valid()
      ensures t in old(pending) && o == Check(t)
      ensures multiset(pending) == multiset(old(pending)) - multiset{t}
      ensures |pending| == |old(pending)| - 1
      ensures retired == old(retired) + [t]
      ensures panic == if IsFatal(o) then Some(BlobPanic(t, o)) else None
      ensures scheduled == old(scheduled) && seen == old(seen)
      ensures componentName == old(componentName)
    {
      var k :| 0 <= k < |pending|;
      t := pending[k];
      var rest := pending[..k] + pending[k + 1..];
      RemoveAt(pending, k);
      assert multiset(retired + [t]) + multiset(rest) == multiset(retired) + multiset(pending);
      pending, retired := rest, retired + [t];
      o := Check(t);
      if IsFatal(o) {
        panic := Some(BlobPanic(t, o));
      }
    }

    /** The push of a new layer (lines 160-166): its task joins the queue and its sum goes to
        the front of `vec_blobs`. */
    method Admit(blobSum: string, blobSize: i64)
      requires Valid() && |pending| < BatchSize && blobSum !in seen
      modifies this
      ensures Valid()
      ensures pending == old(pending) + [Task(blobSum, blobSize, LayerBlob)]
      ensures scheduled == old(scheduled) + [Task(blobSum, blobSize, LayerBlob)]
      ensures seen == [blobSum] + old(seen)
      ensures retired == old(retired) && panic == old(panic) && componentName == old(componentName)
    {
      var t := Task(blobSum, blobSize, LayerBlob);
      NoDupCons(blobSum, seen);
      pending := pending + [t];
      scheduled := scheduled + [t];
      seen := [blobSum] + seen;
    }

    /** `if futs.len() >= batch_size { futs.next().await; }` (lines 170-172): a full queue
        waits for one task. */
    method Settle()
      requires Valid() && panic.None?
      modifies this
      ensures Valid() && componentName == old(componentName)
      ensures scheduled == old(scheduled) && seen == old(seen)
      ensures |retired| == old(|retired|) + (if old(|pending|) >= BatchSize then 1 else 0)
      ensures retired[..old(|retired|)] == old(retired)
      ensures panic.Some? ==> panic.value.BlobPanic?
      ensures panic.None? ==> |pending| < BatchSize
    {
      if |pending| >= BatchSize {
        var _, _ := Next();
      }
    }

    /** One iteration of the layer loop (lines 154-172): split the digest; unless the sum is in
        `vec_blobs`, push its task and record the sum; then, if the queue has reached
        `BatchSize`, await one task. */
    method ScheduleLayer(layer: Layer)
      requires Valid() && panic.None? && |pending| < BatchSize
      modifies this
      ensures Valid() && componentName == old(componentName)
      ensures var r := StepLayer(old(Progress()), layer);
        (r.Err? ==> panic == Some(PlanPanic(r.error))) &&
        (r.Ok? ==> Progress() == r.value && (panic.Some? ==> panic.value.BlobPanic?))
      ensures |scheduled| >= old(|scheduled|) && scheduled[..old(|scheduled|)] == old(scheduled)
      ensures |retired| >= old(|retired|) && retired[..old(|retired|)] == old(retired)
      ensures panic.None? ==> |pending| < BatchSize
      ensures panic.None? ==>
        |retired| == old(|retired|) +
          (if old(|pending|) + (|scheduled| - old(|scheduled|)) == BatchSize then 1 else 0)
    {
      ghost var p := Progress();
      ghost var s0 := |scheduled|;
      ghost var r0 := |retired|;
      ghost var q0 := |pending|;
      var sum := DigestHex(layer.digest);
      if sum.None? {
        assert StepLayer(p, layer) == Err(MalformedDigest(layer.digest));
        panic := Some(PlanPanic(MalformedDigest(layer.digest)));
        return;
      }
      var blobSum := sum.value;
      if blobSum !in seen {
        Admit(blobSum, layer.size);
        assert StepLayer(p, layer) == Ok(Progress());
      } else {
        assert StepLayer(p, layer) == Ok(Progress());
      }
      assert q0 + (|scheduled| - s0) == |pending|;
      Settle();
    }

    /** The layer loop of one manifest (lines 154-173). */
    method ScheduleLayers(layers: seq<Layer>)
      requires Valid() && panic.None? && |pending| < BatchSize
      modifies this
      ensures Valid() && componentName == old(componentName)
      ensures panic.None? ==>
        PlanLayers(old(Progress()), layers) == Ok(Progress()) && |pending| < BatchSize
      ensures panic.Some? ==> !Completes(fs, hash, blobsDir, PlanLayers(old(Progress()), layers))
      ensures |scheduled| >= old(|scheduled|) && scheduled[..old(|scheduled|)] == old(scheduled)
      ensures |retired| >= old(|retired|) && retired[..old(|retired|)] == old(retired)
    {
      ghost var first := Progress();
      ghost var scheduled0 := scheduled;
      ghost var retired0 := retired;
      for i := 0 to |layers|
        invariant Valid() && panic.None? && componentName == old(componentName)
        invariant |pending| < BatchSize
        invariant PlanLayers(first, layers[..i]) == Ok(Progress())
        invariant |scheduled| >= |scheduled0| && scheduled[..|scheduled0|] == scheduled0
        invariant |retired| >= |retired0| && retired[..|retired0|] == retired0
      {
        ghost var before := Progress();
        assert layers[..i + 1][..i] == layers[..i];
        ScheduleLayer(layers[i]);
        assert PlanLayers(first, layers[..i + 1]) == StepLayer(before, layers[i]);
        if panic.Some? {
          PanicIncomplete(PlanLayers(first, layers[..i + 1]));
          IncompletePrefix(fs, hash, blobsDir, first, layers, i + 1);
          return;
        }
      }
      assert layers[..|layers|] == layers;
    }

    /** `while let Some(_) = futs.next().await {}` (lines 175 and 254): await every pending
        task. */
    method Drain()
      requires Valid() && panic.None?
      modifies this
      ensures Valid() && componentName == old(componentName)
      ensures scheduled == old(scheduled) && seen == old(seen)
      ensures |retired| >= old(|retired|) && retired[..old(|retired|)] == old(retired)
      ensures panic.None? ==> pending == [] && multiset(retired[old(|retired|)..]) == multiset(old(pending))
      ensures panic.Some? ==> panic.value.BlobPanic?
    {
      ghost var retired0 := retired;
      ghost var pending0 := pending;
      while pending != []
        invariant Valid() && panic.None? && componentName == old(componentName)
        invariant scheduled == old(scheduled) && seen == old(seen)
        invariant |retired| >= |retired0| && retired[..|retired0|] == retired0
        invariant multiset(retired[|retired0|..]) + multiset(pending) == multiset(pending0)
        decreases |pending|
      {
        ghost var done := retired[|retired0|..];
        var t, _ := Next();
        assert retired[|retired0|..] == done + [t];
        if panic.Some? {
          return;
        }
      }
    }

    /** The scheduling part of one manifest (lines 139-173): push the config task, then run the
        layer loop. */
    method ScheduleManifest(m: Manifest)
      requires Valid() && panic.None? && pending == []
      modifies this
      ensures Valid() && componentName == old(componentName)
      ensures panic.None? ==> ManifestPlan(old(Progress()), m) == Ok(Progress())
      ensures panic.Some? ==> !Completes(fs, hash, blobsDir, ManifestPlan(old(Progress()), m))
      ensures |scheduled| >= old(|scheduled|) && scheduled[..old(|scheduled|)] == old(scheduled)
      ensures |retired| >= old(|retired|) && retired[..old(|retired|)] == old(retired)
    {
      ghost var start := Progress();
      ghost var retired0 := retired;
      ghost var r := ManifestPlan(start, m);
      if m.config.None? {
        panic := Some(PlanPanic(MissingConfig));
        PanicIncomplete(r);
        return;
      }
      var config := m.config.value;
      var configSum := DigestHex(config.digest);
      if configSum.None? {
        panic := Some(PlanPanic(MalformedDigest(config.digest)));
        PanicIncomplete(r);
        return;
      }
      PushConfig(Task(configSum.value, config.size, ConfigBlob));
      if m.layers.None? {
        panic := Some(PlanPanic(MissingLayers));
        PanicIncomplete(r);
        return;
      }
      var layers := m.layers.value;
      assert r == PlanLayers(Progress(), layers);
      ghost var pushed := scheduled;
      ScheduleLayers(layers);
      assert scheduled[..|start.tasks|] == scheduled[..|pushed|][..|start.tasks|];
    }

    /** One manifest of a walk (lines 139-175): schedule it, then await every task still
        pending, so that each task pushed for the manifest is awaited exactly once. */
    method VerifyManifest(m: Manifest)
      requires Valid() && panic.None? && pending == []
      modifies this
      ensures Valid() && componentName == old(componentName)
      ensures var r := ManifestPlan(old(Progress()), m);
        (panic.None? <==> Completes(fs, hash, blobsDir, r)) &&
        (panic.None? ==> pending == [] && Progress() == r.value)
      ensures panic.None? ==>
        |retired| >= old(|retired|) && |scheduled| >= old(|scheduled|) &&
        multiset(retired[old(|retired|)..]) == multiset(scheduled[old(|scheduled|)..])
    {
      ghost var start := Progress();
      ghost var retired0 := retired;
      ghost var r := ManifestPlan(start, m);
      assert multiset(start.tasks) == multiset(retired0) by {
        assert multiset(pending) == multiset{};
      }
      ScheduleManifest(m);
      if panic.Some? {
        return;
      }
      ghost var retired1 := retired;
      Drain();
      if panic.Some? {
        PanicIncomplete(r);
        return;
      }
      ScheduledPassed();
      assert retired[..|retired0|] == retired[..|retired1|][..|retired0|];
      SettledSince(start.tasks, retired0);
    }

    /** Between two moments when nothing is pending, the tasks awaited are exactly the tasks
        pushed. */
    lemma SettledSince(scheduled0: seq<Task>, retired0: seq<Task>)
      requires Valid() && pending == []
      requires multiset(scheduled0) == multiset(retired0)
      requires |scheduled| >= |scheduled0| && scheduled[..|scheduled0|] == scheduled0
      requires |retired| >= |retired0| && retired[..|retired0|] == retired0
      ensures multiset(retired[|retired0|..]) == multiset(scheduled[|scheduled0|..])
    {
      assert scheduled == scheduled0 + scheduled[|scheduled0|..];
      assert retired == retired0 + retired[|retired0|..];
      assert multiset(pending) == multiset{};
      assert multiset(scheduled) == multiset(scheduled0) + multiset(scheduled[|scheduled0|..]);
      assert multiset(retired) == multiset(retired0) + multiset(retired[|retired0|..]);
      var done := multiset(retired[|retired0|..]);
      var pushed := multiset(scheduled[|scheduled0|..]);
      forall x ensures done[x] == pushed[x] {
        assert multiset(scheduled)[x] == multiset(retired)[x];
      }
      assert done == pushed;
    }

    /** A panic means that the plan run so far does not complete: either the plan itself failed,
        or it is the plan scheduled so far and one of its tasks failed its check. */
    lemma PanicIncomplete(q: Result<Plan, PlanError>)
      requires Valid() && panic.Some?
      requires q.Err? || (panic.value.BlobPanic? && q == Ok(Progress()))
      ensures !Completes(fs, hash, blobsDir, q)
    {
      if q.Ok? {
        RetiredWasScheduled(panic.value.task);
      }
    }

    /** If a plan completes, so does every plan whose tasks start its tasks. */
    lemma CompletesPrefix(a: Result<Plan, PlanError>, b: Result<Plan, PlanError>)
      requires a.Ok? && b.Ok? && |a.value.tasks| <= |b.value.tasks|
      requires b.value.tasks[..|a.value.tasks|] == a.value.tasks
      requires Completes(fs, hash, blobsDir, b)
      ensures Completes(fs, hash, blobsDir, a)
    {
      forall t | t in a.value.tasks ensures !IsFatal(Check(t)) {
        assert t in b.value.tasks[..|a.value.tasks|];
      }
    }

    /** One directory walk (lines 122-177 for the release tree, 184-258 for the operators tree):
        directories update the component name of the operators walk; files are selected, parsed
        and verified one manifest at a time. */
    method RunPass(pass: Pass, entries: seq<Entry>)
      requires Valid() && panic.None? && pending == []
      modifies this
      ensures Valid()
      ensures var r := PassPlan(pass, old(Progress()), entries);
        (panic.None? <==> Completes(fs, hash, blobsDir, r)) &&
        (panic.None? ==> pending == [] && Progress() == r.value)
      ensures pass.Operators? && panic.None? ==> componentName == ComponentNameAfter("", entries)
      ensures pass.Release? ==> componentName == old(componentName)
    {
      ghost var start := Progress();
      ghost var r := PassPlan(pass, start, entries);
      if pass.Operators? {
        componentName := "";
      }
      for i := 0 to |entries|
        invariant Valid() && panic.None? && pending == []
        invariant PassPlan(pass, start, entries[..i]) == Ok(Progress())
        invariant pass.Operators? ==> componentName == ComponentNameAfter("", entries[..i])
        invariant pass.Release? ==> componentName == old(componentName)
      {
        var entry := entries[i];
        ghost var before := Progress();
        assert entries[..i + 1][..i] == entries[..i];
        assert PassPlan(pass, start, entries[..i + 1]) == StepEntry(pass, before, entry);
        match Select(pass, entry)
        case Err(error) =>
          panic := Some(PlanPanic(error));
          if r.Ok? {
            PassPlanPrefix(pass, start, entries, i + 1);
          }
          return;
        case Ok(None) =>
          if entry.Dir? && pass.Operators? {
            componentName := NextComponentName(componentName, entry.path);
          }
        case Ok(Some(m)) =>
          VerifyManifest(m);
          if panic.Some? {
            if r.Ok? {
              PassPlanPrefix(pass, start, entries, i + 1);
              if Completes(fs, hash, blobsDir, r) {
                CompletesPrefix(PassPlan(pass, start, entries[..i + 1]), r);
              }
            }
            return;
          }
      }
      assert entries[..|entries|] == entries;
      ScheduledPassed();
    }

    /** The run (lines 117-259): the release walk if asked for, then the operators walk if asked
        for, with `vec_blobs` shared between them. */
    method Run(release: Option<seq<Entry>>, operators: Option<seq<Entry>>)
      requires Valid() && panic.None? && pending == []
      modifies this
      ensures Valid()
      ensures var r := RunPlan(old(Progress()), release, operators);
        (panic.None? <==> Completes(fs, hash, blobsDir, r)) &&
        (panic.None? ==> pending == [] && Progress() == r.value)
    {
      ghost var start := Progress();
      ghost var r := RunPlan(start, release, operators);
      if release.Some? {
        RunPass(Release, release.value);
        if panic.Some? {
          var mid := PassPlan(Release, start, release.value);
          if r.Ok? && operators.Some? {
            PassPlanExtends(Operators, mid.value, operators.value);
            if Completes(fs, hash, blobsDir, r) {
              CompletesPrefix(mid, r);
            }
          }
          return;
        }
      }
      ghost var mid := Progress();
      assert r == if operators.Some? then PassPlan(Operators, mid, operators.value) else Ok(mid);
      if operators.Some? {
        RunPass(Operators, operators.value);
      }
      if panic.None? {
        ScheduledPassed();
      }
    }
  }

  /** The engine end to end: build the store root from the base directory, run both walks over
      the given file system, and report whether the process got to the end. It does exactly when
      every file selected parses, every manifest selected has a config and layers, every digest
      has a `:`, and every blob scheduled is either missing or has its declared size and sum. */
  method VerifyStore(baseDir: string, fs: FileSystem, hash: seq<bv8> -> string,
                     release: Option<seq<Entry>>, operators: Option<seq<Entry>>)
    returns (completed: bool)
    ensures completed <==> Completes(fs, hash, BlobsDir(baseDir), RunPlan(Plan([], []), release, operators))
  {
    var v := new Verifier(baseDir, fs, hash);
    v.Run(release, operators);
    completed := v.panic.None?;
  }
}
