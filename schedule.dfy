/** What the driver loop of src/main.rs schedules, as pure functions of its input: for every
    manifest, the config blob and then each layer blob not already in `vec_blobs`, with
    `vec_blobs` updated as the loop goes. The queue of pending tasks is not part of this plan;
    the `Engine` module runs the plan through that queue. */
module Schedule {
  import opened Common
  import opened Strings
  import opened Manifests
  import opened Digest

  /** Which push a task comes from: the config of a manifest (lines 148 and 227) or one of its
      layers (lines 160 and 239). Only layer pushes are checked against and recorded in
      `vec_blobs`. */
  datatype Role = ConfigBlob | LayerBlob

  /** One `verify_file` call: the hex sum and the declared size of a blob, and the push it comes
      from. */
  datatype Task = Task(sum: string, size: i64, role: Role)

  /** The state the plan threads through the walk: every task pushed so far, in push order, and
      `vec_blobs`, newest first. */
  datatype Plan = Plan(tasks: seq<Task>, seen: seq<string>)

  /** The panics that end the run before a blob check does: a file that does not parse, a missing
      `config` or `layers` (`unwrap`), a digest without `:` (index `[1]`). */
  datatype PlanError = Unparsable(path: string) | MissingConfig | MissingLayers | MalformedDigest(digest: string)

  /** The two walks of `main`: the release tree and the operators tree. */
  datatype Pass = Release | Operators

  /** The sums of a list of tasks, in the same order. */
  function Sums(tasks: seq<Task>): (sums: seq<string>)
    ensures |sums| == |tasks|
    ensures forall i :: 0 <= i < |tasks| ==> sums[i] == tasks[i].sum
  {
    seq(|tasks|, i requires 0 <= i < |tasks| => tasks[i].sum)
  }

  /** The task a config with a well-formed digest asks for (lines 139-141 and 148). */
  function ConfigTask(config: Layer): Task
    requires ':' in config.digest
  {
    Task(DigestHex(config.digest).value, config.size, ConfigBlob)
  }

  /** The task a layer with a well-formed digest asks for (lines 155-165). */
  function LayerTask(layer: Layer): Task
    requires ':' in layer.digest
  {
    Task(DigestHex(layer.digest).value, layer.size, LayerBlob)
  }

  lemma SumsAppend(a: seq<Task>, b: seq<Task>)
    ensures Sums(a + b) == Sums(a) + Sums(b)
  {
    assert |Sums(a + b)| == |Sums(a) + Sums(b)|;
    forall i | 0 <= i < |a + b| ensures Sums(a + b)[i] == (Sums(a) + Sums(b))[i] {
      if i < |a| { assert (a + b)[i] == a[i]; } else { assert (a + b)[i] == b[i - |a|]; }
    }
  }

  /** One iteration of the layer loop (src/main.rs, lines 154-169): split the digest, and push the
      layer unless its sum is already in `vec_blobs`, in which case nothing changes. */
  function StepLayer(p: Plan, layer: Layer): Result<Plan, PlanError> {
    match DigestHex(layer.digest)
    case None => Err(MalformedDigest(layer.digest))
    case Some(sum) =>
      if sum in p.seen then Ok(p)
      else Ok(Plan(p.tasks + [Task(sum, layer.size, LayerBlob)], [sum] + p.seen))
  }

  /** The whole layer loop, one `StepLayer` per layer in manifest order. */
  function PlanLayers(p: Plan, layers: seq<Layer>): Result<Plan, PlanError>
    decreases |layers|
  {
    if layers == [] then Ok(p)
    else match PlanLayers(p, layers[..|layers| - 1])
      case Err(e) => Err(e)
      case Ok(q) => StepLayer(q, layers[|layers| - 1])
  }

  /** One manifest (src/main.rs, lines 139-173): the config is pushed first, without looking at
      `vec_blobs`, then the layers. */
  function ManifestPlan(p: Plan, m: Manifest): Result<Plan, PlanError> {
    match m.config
    case None => Err(MissingConfig)
    case Some(config) =>
      match DigestHex(config.digest)
      case None => Err(MalformedDigest(config.digest))
      case Some(sum) =>
        match m.layers
        case None => Err(MissingLayers)
        case Some(layers) => PlanLayers(Plan(p.tasks + [Task(sum, config.size, ConfigBlob)], p.seen), layers)
  }

  /** Which walk entries are verified as manifests. The release pass parses every file
      (lines 133-137). The operators pass skips files whose name contains `manifest-list.json`
      without reading them, and after parsing skips manifests whose media type is absent or is
      the Docker manifest-list type (lines 204-216). */
  function Select(pass: Pass, e: Entry): (r: Result<Option<Manifest>, PlanError>)
    ensures r.Err? <==>
      e.File? && e.parsed.None? && !(pass.Operators? && Contains(e.path, ManifestListFileName))
    ensures (r.Ok? && r.value.Some?) <==>
      e.File? && e.parsed.Some? &&
      (pass.Release? ||
       (!Contains(e.path, ManifestListFileName) &&
        e.parsed.value.mediaType.Some? && e.parsed.value.mediaType.value != ListMediaType))
    ensures r.Ok? && r.value.Some? ==> e.parsed == Some(r.value.value)
  {
    match e
    case Dir(_) => Ok(None)
    case File(path, parsed) =>
      if pass.Operators? && Contains(path, ManifestListFileName) then Ok(None)
      else
        match parsed
        case None => Err(Unparsable(path))
        case Some(m) =>
          if pass.Release? then Ok(Some(m))
          else if m.mediaType.Some? && m.mediaType.value != ListMediaType then Ok(Some(m))
          else Ok(None)
  }

  /** One entry of a walk. */
  function StepEntry(pass: Pass, p: Plan, e: Entry): Result<Plan, PlanError> {
    match Select(pass, e)
    case Err(err) => Err(err)
    case Ok(None) => Ok(p)
    case Ok(Some(m)) => ManifestPlan(p, m)
  }

  /** A whole walk, entry by entry in walk order. */
  function PassPlan(pass: Pass, p: Plan, entries: seq<Entry>): Result<Plan, PlanError>
    decreases |entries|
  {
    if entries == [] then Ok(p)
    else match PassPlan(pass, p, entries[..|entries| - 1])
      case Err(e) => Err(e)
      case Ok(q) => StepEntry(pass, q, entries[|entries| - 1])
  }

  /** The run: the release walk if one was asked for, then the operators walk if one was asked
      for, sharing `vec_blobs`. */
  function RunPlan(p: Plan, release: Option<seq<Entry>>, operators: Option<seq<Entry>>): Result<Plan, PlanError> {
    var afterRelease := if release.Some? then PassPlan(Release, p, release.value) else Ok(p);
    if afterRelease.Err? || operators.None? then afterRelease
    else PassPlan(Operators, afterRelease.value, operators.value)
  }

  // ---------------------------------------------------------------------------------------------
  // Properties of the layer loop

  /** Every layer digest carries a `:`. */
  predicate WellFormed(layers: seq<Layer>) {
    forall i :: 0 <= i < |layers| ==> ':' in layers[i].digest
  }

  /** The task each well-formed layer asks for, in manifest order. */
  function LayerTasks(layers: seq<Layer>): seq<Task>
    requires WellFormed(layers)
  {
    seq(|layers|, i requires 0 <= i < |layers| => LayerTask(layers[i]))
  }

  /** The new tasks of a plan `q` that extends `p`, and the relation the layer loop keeps between
      them and `vec_blobs`. */
  ghost predicate AppendsLayers(p: Plan, q: Plan) {
    |p.tasks| <= |q.tasks| && q.tasks[..|p.tasks|] == p.tasks &&
    q.seen == Reversed(Sums(q.tasks[|p.tasks|..])) + p.seen
  }

  /** One layer step keeps the relation. */
  lemma StepLayerAppends(q: Plan, layer: Layer)
    requires StepLayer(q, layer).Ok?
    ensures AppendsLayers(q, StepLayer(q, layer).value)
  {
    var r := StepLayer(q, layer).value;
    if r != q {
      var sum := DigestHex(layer.digest).value;
      assert r.tasks[|q.tasks|..] == [LayerTask(layer)];
      assert Sums([LayerTask(layer)]) == [sum];
      assert Reversed([sum]) == [sum];
    } else {
      assert q.tasks[|q.tasks|..] == [];
      assert Sums([]) == [];
    }
  }

  /** The relation composes. */
  lemma AppendsLayersTransitive(p: Plan, q: Plan, r: Plan)
    requires AppendsLayers(p, q) && AppendsLayers(q, r)
    ensures AppendsLayers(p, r)
  {
    PrefixTransitive(p.tasks, q.tasks, r.tasks);
    SeenCompose(q.tasks[|p.tasks|..], r.tasks[|q.tasks|..], p.seen);
  }

  /** A prefix of a prefix is a prefix, and the rest splits at the middle one. */
  lemma PrefixTransitive(a: seq<Task>, b: seq<Task>, c: seq<Task>)
    requires |a| <= |b| && b[..|a|] == a && |b| <= |c| && c[..|b|] == b
    ensures |a| <= |c| && c[..|a|] == a && c[|a|..] == b[|a|..] + c[|b|..]
  {
    assert c[..|a|] == c[..|b|][..|a|];
  }

  /** Adding the sums of `a` and then those of `b` in front of `seen` is adding those of
      `a + b`. */
  lemma SeenCompose(a: seq<Task>, b: seq<Task>, seen: seq<string>)
    ensures Reversed(Sums(a + b)) + seen == Reversed(Sums(b)) + (Reversed(Sums(a)) + seen)
  {
    SumsAppend(a, b);
    ReversedAppend(Sums(a), Sums(b));
  }

  /** The layer loop only appends tasks, and what it adds to `vec_blobs` is exactly the sums of
      the tasks it pushed, newest first. */
  lemma {:induction false} PlanLayersAppends(p: Plan, layers: seq<Layer>)
    requires PlanLayers(p, layers).Ok?
    ensures AppendsLayers(p, PlanLayers(p, layers).value)
    decreases |layers|
  {
    if layers == [] {
      assert p.tasks[|p.tasks|..] == [];
      assert Sums([]) == [];
    } else {
      var init := layers[..|layers| - 1];
      PlanLayersAppends(p, init);
      var q := PlanLayers(p, init).value;
      assert PlanLayers(p, layers) == StepLayer(q, layers[|layers| - 1]);
      StepLayerAppends(q, layers[|layers| - 1]);
      AppendsLayersTransitive(p, q, PlanLayers(p, layers).value);
    }
  }

  /** `vec_blobs` never holds a sum twice: a sum is only inserted when it is absent. */
  lemma {:induction false} PlanLayersKeepsSeenDistinct(p: Plan, layers: seq<Layer>)
    requires NoDup(p.seen)
    requires PlanLayers(p, layers).Ok?
    ensures NoDup(PlanLayers(p, layers).value.seen)
    decreases |layers|
  {
    if layers != [] {
      PlanLayersKeepsSeenDistinct(p, layers[..|layers| - 1]);
    }
  }

  /** After the layer loop, the sum of every layer of the manifest is in `vec_blobs`, whether it
      was pushed now or before. */
  lemma {:induction false} PlanLayersRecordsEverySum(p: Plan, layers: seq<Layer>)
    requires PlanLayers(p, layers).Ok?
    ensures WellFormed(layers)
    ensures forall i :: 0 <= i < |layers| ==> DigestHex(layers[i].digest).value in PlanLayers(p, layers).value.seen
    decreases |layers|
  {
    if layers != [] {
      var init := layers[..|layers| - 1];
      PlanLayersRecordsEverySum(p, init);
      var q := PlanLayers(p, init).value;
      var r := PlanLayers(p, layers).value;
      assert forall x :: x in q.seen ==> x in r.seen;
      forall i | 0 <= i < |layers|
        ensures ':' in layers[i].digest && DigestHex(layers[i].digest).value in r.seen
      {
        if i < |layers| - 1 { assert layers[i] == init[i]; }
      }
    }
  }

  /** The layer loop panics exactly when some layer digest has no `:`. */
  lemma {:induction false} PlanLayersFails(p: Plan, layers: seq<Layer>)
    ensures PlanLayers(p, layers).Err? <==> !WellFormed(layers)
    decreases |layers|
  {
    if layers != [] {
      var init := layers[..|layers| - 1];
      PlanLayersFails(p, init);
      assert WellFormed(layers) <==> WellFormed(init) && ':' in layers[|layers| - 1].digest by {
        if WellFormed(init) && ':' in layers[|layers| - 1].digest {
          forall i | 0 <= i < |layers| ensures ':' in layers[i].digest {
            if i < |layers| - 1 { assert layers[i] == init[i]; }
          }
        }
      }
    }
  }

  /** Stopping the loop early gives a prefix of its tasks: when the whole loop succeeds, so does
      every prefix of it, and the prefix's tasks start the whole loop's tasks. */
  lemma {:induction false} PlanLayersPrefix(p: Plan, layers: seq<Layer>, n: nat)
    requires n <= |layers|
    requires PlanLayers(p, layers).Ok?
    ensures PlanLayers(p, layers[..n]).Ok?
    ensures var q := PlanLayers(p, layers[..n]).value; var r := PlanLayers(p, layers).value;
      |q.tasks| <= |r.tasks| && r.tasks[..|q.tasks|] == q.tasks
    decreases |layers|
  {
    if n < |layers| {
      var init := layers[..|layers| - 1];
      assert init[..n] == layers[..n];
      PlanLayersPrefix(p, init, n);
    } else {
      assert layers[..n] == layers;
    }
  }

  /** Dropping the last layer drops the last task. */
  lemma LayerTasksInit(layers: seq<Layer>)
    requires WellFormed(layers) && layers != []
    ensures WellFormed(layers[..|layers| - 1])
    ensures LayerTasks(layers) == LayerTasks(layers[..|layers| - 1]) + [LayerTasks(layers)[|layers| - 1]]
  {
    var init := layers[..|layers| - 1];
    assert WellFormed(init) by {
      forall i | 0 <= i < |init| ensures ':' in init[i].digest { assert init[i] == layers[i]; }
    }
  }

  /** The layers' sums are distinct and none is in `seen`. */
  ghost predicate FreshLayers(seen: seq<string>, layers: seq<Layer>) {
    WellFormed(layers) && NoDup(Sums(LayerTasks(layers))) &&
    forall i :: 0 <= i < |layers| ==> LayerTasks(layers)[i].sum !in seen
  }

  /** Fresh layers stay fresh without their last one, and the last one's sum is not among the
      others. */
  lemma FreshLayersInit(seen: seq<string>, layers: seq<Layer>)
    requires FreshLayers(seen, layers) && layers != []
    ensures FreshLayers(seen, layers[..|layers| - 1])
    ensures var before := LayerTasks(layers[..|layers| - 1]);
      LayerTasks(layers) == before + [LayerTasks(layers)[|layers| - 1]] &&
      LayerTasks(layers)[|layers| - 1].sum !in Reversed(Sums(before)) + seen
  {
    var init := layers[..|layers| - 1];
    LayerTasksInit(layers);
    var all := LayerTasks(layers);
    var before := LayerTasks(init);
    var t := all[|layers| - 1];
    assert Sums(all) == Sums(before) + [t.sum];
    assert NoDup(Sums(before)) by {
      forall i, j | 0 <= i < j < |before| ensures Sums(before)[i] != Sums(before)[j] {
        assert Sums(before)[i] == Sums(all)[i] && Sums(before)[j] == Sums(all)[j];
      }
    }
    assert forall i :: 0 <= i < |init| ==> before[i] == all[i];
    ReversedElements(Sums(before));
    assert t.sum !in Sums(before) by {
      forall i | 0 <= i < |before| ensures Sums(before)[i] != t.sum {
        assert Sums(all)[i] == Sums(before)[i] && Sums(all)[|layers| - 1] == t.sum;
      }
    }
    assert t.sum !in multiset(Reversed(Sums(before)));
  }

  /** When the layer sums are distinct and none is in `vec_blobs` yet, every layer is pushed, in
      manifest order, with its own sum and size, and each sum joins `vec_blobs`. */
  lemma {:induction false} PlanLayersFresh(p: Plan, layers: seq<Layer>)
    requires FreshLayers(p.seen, layers)
    ensures PlanLayers(p, layers) ==
      Ok(Plan(p.tasks + LayerTasks(layers), Reversed(Sums(LayerTasks(layers))) + p.seen))
    decreases |layers|
  {
    if layers == [] {
      assert LayerTasks(layers) == [];
      assert Sums([]) == [];
      assert p.tasks + [] == p.tasks && Reversed<string>([]) + p.seen == p.seen;
    } else {
      var init := layers[..|layers| - 1];
      var last := layers[|layers| - 1];
      FreshLayersInit(p.seen, layers);
      PlanLayersFresh(p, init);
      var t := LayerTasks(layers)[|layers| - 1];
      assert DigestHex(last.digest) == Some(t.sum) && t.size == last.size;
      FreshStep(p, LayerTasks(init), last, t);
    }
  }

  /** The step of `PlanLayersFresh`: a layer whose sum is new is appended. */
  lemma FreshStep(p: Plan, before: seq<Task>, last: Layer, t: Task)
    requires DigestHex(last.digest) == Some(t.sum) && t.size == last.size && t.role == LayerBlob
    requires t.sum !in Reversed(Sums(before)) + p.seen
    ensures StepLayer(Plan(p.tasks + before, Reversed(Sums(before)) + p.seen), last) ==
      Ok(Plan(p.tasks + (before + [t]), Reversed(Sums(before + [t])) + p.seen))
  {
    var q := Plan(p.tasks + before, Reversed(Sums(before)) + p.seen);
    assert StepLayer(q, last) == Ok(Plan(q.tasks + [t], [t.sum] + q.seen));
    assert Sums(before + [t]) == Sums(before) + [t.sum];
    ReversedSnoc(Sums(before), t.sum);
    assert [t.sum] + q.seen == ([t.sum] + Reversed(Sums(before))) + p.seen;
    assert q.tasks + [t] == p.tasks + (before + [t]);
  }

  // ---------------------------------------------------------------------------------------------
  // Which layers the loop pushes, in general

  /** Some layer before index `n` has sum `sum`. */
  predicate SumBefore(layers: seq<Layer>, n: nat, sum: string)
    requires WellFormed(layers) && n <= |layers|
  {
    exists j :: 0 <= j < n && LayerTask(layers[j]).sum == sum
  }

  /** The layers without their last one are well formed too. */
  lemma WellFormedInit(layers: seq<Layer>)
    requires WellFormed(layers) && layers != []
    ensures WellFormed(layers[..|layers| - 1])
  {
    var init := layers[..|layers| - 1];
    forall i | 0 <= i < |init| ensures ':' in init[i].digest { assert init[i] == layers[i]; }
  }

  /** The tasks the layer loop pushes, given by a filter over the manifest's layers rather than
      by running the loop: a layer is pushed when its sum was not in `vec_blobs` when the
      manifest started and no earlier layer of the manifest has the same sum. */
  function NewLayerTasks(seen: seq<string>, layers: seq<Layer>): seq<Task>
    requires WellFormed(layers)
    decreases |layers|
  {
    if layers == [] then []
    else
      var n := |layers| - 1;
      var t := LayerTask(layers[n]);
      WellFormedInit(layers);
      NewLayerTasks(seen, layers[..n]) + (if t.sum in seen || SumBefore(layers, n, t.sum) then [] else [t])
  }

  /** Looking for an earlier sum in the layers without the last one is looking in the layers. */
  lemma SumBeforeInit(layers: seq<Layer>, x: string)
    requires WellFormed(layers) && layers != []
    ensures WellFormed(layers[..|layers| - 1])
    ensures var n := |layers| - 1;
      (SumBefore(layers[..n], n, x) <==> SumBefore(layers, n, x)) &&
      (SumBefore(layers, n + 1, x) <==> SumBefore(layers, n, x) || LayerTask(layers[n]).sum == x)
  {
    var n := |layers| - 1;
    var init := layers[..n];
    WellFormedInit(layers);
    if SumBefore(init, n, x) {
      var j :| 0 <= j < n && LayerTask(init[j]).sum == x;
      assert init[j] == layers[j];
    }
    if SumBefore(layers, n, x) {
      var j :| 0 <= j < n && LayerTask(layers[j]).sum == x;
      assert init[j] == layers[j];
      assert LayerTask(init[j]).sum == x;
    }
    if SumBefore(layers, n + 1, x) && !SumBefore(layers, n, x) {
      var j :| 0 <= j < n + 1 && LayerTask(layers[j]).sum == x;
      assert j == n;
    }
    if LayerTask(layers[n]).sum == x {
      assert 0 <= n < n + 1;
    }
  }

  /** A sum is among the pushed ones exactly when it was not in `vec_blobs` and some layer has
      it. */
  lemma {:induction false} NewLayerSumsMembers(seen: seq<string>, layers: seq<Layer>, x: string)
    requires WellFormed(layers)
    ensures x in Sums(NewLayerTasks(seen, layers)) <==> x !in seen && SumBefore(layers, |layers|, x)
    decreases |layers|
  {
    if layers != [] {
      var n := |layers| - 1;
      var init := layers[..n];
      SumBeforeInit(layers, x);
      NewLayerSumsMembers(seen, init, x);
      var t := LayerTask(layers[n]);
      var before := Sums(NewLayerTasks(seen, init));
      if t.sum in seen || SumBefore(layers, n, t.sum) {
        assert NewLayerTasks(seen, layers) == NewLayerTasks(seen, init) + [];
        assert Sums(NewLayerTasks(seen, layers)) == before;
      } else {
        assert NewLayerTasks(seen, layers) == NewLayerTasks(seen, init) + [t];
        assert Sums(NewLayerTasks(seen, layers)) == before + [t.sum];
      }
    }
  }

  /** Every pushed task is a layer task, so its sum is recorded. */
  lemma {:induction false} NewLayerTasksAreLayers(seen: seq<string>, layers: seq<Layer>)
    requires WellFormed(layers)
    ensures LayerSums(NewLayerTasks(seen, layers)) == Sums(NewLayerTasks(seen, layers))
    decreases |layers|
  {
    if layers != [] {
      var n := |layers| - 1;
      WellFormedInit(layers);
      NewLayerTasksAreLayers(seen, layers[..n]);
      var before := NewLayerTasks(seen, layers[..n]);
      var t := LayerTask(layers[n]);
      var added := if t.sum in seen || SumBefore(layers, n, t.sum) then [] else [t];
      assert NewLayerTasks(seen, layers) == before + added;
      LayerSumsAppend(before, added);
      SumsAppend(before, added);
      if added == [t] {
        assert LayerSums([t]) == LayerSums([]) + [t.sum] by { assert [t][..0] == []; }
        assert Sums([t]) == [t.sum];
      } else {
        assert Sums(added) == [] && LayerSums(added) == [];
      }
    }
  }

  /** The layer loop in general, with some layers already in `vec_blobs` and some repeated: it
      pushes exactly `NewLayerTasks`, in manifest order with their own sums and sizes, and puts
      their sums, newest first, in front of `vec_blobs`. */
  lemma {:induction false} PlanLayersNew(p: Plan, layers: seq<Layer>)
    requires WellFormed(layers)
    ensures var added := NewLayerTasks(p.seen, layers);
      PlanLayers(p, layers) == Ok(Plan(p.tasks + added, Reversed(Sums(added)) + p.seen))
    decreases |layers|
  {
    if layers == [] {
      assert Sums([]) == [];
      assert p.tasks + [] == p.tasks && Reversed<string>([]) + p.seen == p.seen;
    } else {
      var n := |layers| - 1;
      var init := layers[..n];
      var last := layers[n];
      WellFormedInit(layers);
      PlanLayersNew(p, init);
      var before := NewLayerTasks(p.seen, init);
      var q := Plan(p.tasks + before, Reversed(Sums(before)) + p.seen);
      var t := LayerTask(last);
      assert PlanLayers(p, layers) == StepLayer(q, last);
      SumBeforeInit(layers, t.sum);
      NewLayerSumsMembers(p.seen, init, t.sum);
      ReversedElements(Sums(before));
      assert t.sum in Reversed(Sums(before)) <==> t.sum in Sums(before) by {
        assert t.sum in Reversed(Sums(before)) <==> t.sum in multiset(Reversed(Sums(before)));
      }
      if t.sum in q.seen {
        assert NewLayerTasks(p.seen, layers) == before + [];
        assert StepLayer(q, last) == Ok(q);
        assert before + [] == before;
      } else {
        assert NewLayerTasks(p.seen, layers) == before + [t];
        FreshStep(p, before, last, t);
      }
    }
  }

  // ---------------------------------------------------------------------------------------------
  // Properties of one manifest

  /** A manifest's tasks are appended after those already planned; the first of them is its
      config, with the config's own sum and size and whatever `vec_blobs` holds; `vec_blobs` gains
      only the sums of the layer tasks that follow it, so config sums never enter it. */
  lemma ManifestPlanExtends(p: Plan, m: Manifest)
    requires ManifestPlan(p, m).Ok?
    ensures var q := ManifestPlan(p, m).value;
      m.config.Some? && ':' in m.config.value.digest && m.layers.Some? &&
      |p.tasks| < |q.tasks| && q.tasks[..|p.tasks|] == p.tasks &&
      q.tasks[|p.tasks|] == ConfigTask(m.config.value) &&
      q.seen == Reversed(Sums(q.tasks[|p.tasks| + 1..])) + p.seen &&
      (NoDup(p.seen) ==> NoDup(q.seen))
  {
    var config := m.config.value;
    var start := Plan(p.tasks + [ConfigTask(config)], p.seen);
    PlanLayersAppends(start, m.layers.value);
    if NoDup(p.seen) { PlanLayersKeepsSeenDistinct(start, m.layers.value); }
    var q := ManifestPlan(p, m).value;
    assert q.tasks[..|start.tasks|] == start.tasks;
    assert q.tasks[..|p.tasks|] == start.tasks[..|p.tasks|];
  }

  /** One manifest in general: the config task, then the layer tasks `NewLayerTasks` selects;
      `vec_blobs` gains the sums of those layer tasks only. */
  lemma ManifestPlanTasks(p: Plan, m: Manifest)
    requires m.config.Some? && ':' in m.config.value.digest
    requires m.layers.Some? && WellFormed(m.layers.value)
    ensures var added := NewLayerTasks(p.seen, m.layers.value);
      ManifestPlan(p, m) ==
        Ok(Plan(p.tasks + [ConfigTask(m.config.value)] + added, Reversed(Sums(added)) + p.seen))
  {
    PlanLayersNew(Plan(p.tasks + [ConfigTask(m.config.value)], p.seen), m.layers.value);
  }

  /** A manifest panics exactly when its config or its layers are missing or one of its digests
      has no `:`. */
  lemma ManifestPlanFails(p: Plan, m: Manifest)
    ensures ManifestPlan(p, m).Err? <==>
      m.config.None? || ':' !in m.config.value.digest || m.layers.None? || !WellFormed(m.layers.value)
  {
    if m.config.Some? && ':' in m.config.value.digest && m.layers.Some? {
      var config := m.config.value;
      PlanLayersFails(Plan(p.tasks + [ConfigTask(config)], p.seen),
                      m.layers.value);
    }
  }

  /** A manifest with a config and N layers whose sums are distinct and new schedules exactly
      N + 1 tasks: the config, then every layer in order, each with its own sum and size. */
  lemma ManifestPlanFresh(p: Plan, m: Manifest)
    requires m.config.Some? && ':' in m.config.value.digest
    requires m.layers.Some? && FreshLayers(p.seen, m.layers.value)
    ensures ManifestPlan(p, m).Ok?
    ensures var q := ManifestPlan(p, m).value;
      q.tasks == p.tasks + [ConfigTask(m.config.value)]
                 + LayerTasks(m.layers.value) &&
      |q.tasks| == |p.tasks| + |m.layers.value| + 1
  {
    var config := m.config.value;
    PlanLayersFresh(Plan(p.tasks + [ConfigTask(config)], p.seen),
                    m.layers.value);
  }

  /** A layer whose sum is already in `vec_blobs` is skipped: with every layer already seen, a
      manifest schedules its config alone and leaves `vec_blobs` as it was. */
  lemma ManifestPlanAllSeen(p: Plan, m: Manifest)
    requires m.config.Some? && ':' in m.config.value.digest
    requires m.layers.Some? && WellFormed(m.layers.value)
    requires forall i :: 0 <= i < |m.layers.value| ==> LayerTasks(m.layers.value)[i].sum in p.seen
    ensures ManifestPlan(p, m) ==
      Ok(Plan(p.tasks + [ConfigTask(m.config.value)], p.seen))
  {
    var config := m.config.value;
    var start := Plan(p.tasks + [ConfigTask(config)], p.seen);
    AllSeenLayersSkipped(start, m.layers.value);
  }

  /** The layer loop over layers all already in `vec_blobs` changes nothing. */
  lemma {:induction false} AllSeenLayersSkipped(p: Plan, layers: seq<Layer>)
    requires WellFormed(layers)
    requires forall i :: 0 <= i < |layers| ==> LayerTasks(layers)[i].sum in p.seen
    ensures PlanLayers(p, layers) == Ok(p)
    decreases |layers|
  {
    if layers != [] {
      var init := layers[..|layers| - 1];
      assert WellFormed(init) by {
        forall i | 0 <= i < |init| ensures ':' in init[i].digest { assert init[i] == layers[i]; }
      }
      forall i | 0 <= i < |init| ensures LayerTasks(init)[i].sum in p.seen {
        assert init[i] == layers[i];
        assert LayerTasks(init)[i] == LayerTasks(layers)[i];
      }
      AllSeenLayersSkipped(p, init);
      assert LayerTasks(layers)[|layers| - 1].sum in p.seen;
    }
  }

  // ---------------------------------------------------------------------------------------------
  // Properties of a walk and of the run

  /** `q` comes later in the run than `p`: tasks were only appended, `vec_blobs` only gained
      sums at its front, and stayed free of duplicates. */
  ghost predicate Extends(p: Plan, q: Plan) {
    |p.tasks| <= |q.tasks| && q.tasks[..|p.tasks|] == p.tasks &&
    |p.seen| <= |q.seen| && q.seen[|q.seen| - |p.seen|..] == p.seen &&
    (NoDup(p.seen) ==> NoDup(q.seen))
  }

  lemma ExtendsTransitive(p: Plan, q: Plan, r: Plan)
    requires Extends(p, q) && Extends(q, r)
    ensures Extends(p, r)
  {
    assert r.tasks[..|p.tasks|] == r.tasks[..|q.tasks|][..|p.tasks|];
    assert r.seen[|r.seen| - |p.seen|..] == r.seen[|r.seen| - |q.seen|..][|q.seen| - |p.seen|..];
  }

  /** A manifest moves the run forward. */
  lemma ManifestPlanIsExtension(p: Plan, m: Manifest)
    requires ManifestPlan(p, m).Ok?
    ensures Extends(p, ManifestPlan(p, m).value)
  {
    ManifestPlanExtends(p, m);
    var q := ManifestPlan(p, m).value;
    var added := Reversed(Sums(q.tasks[|p.tasks| + 1..]));
    assert q.seen == added + p.seen;
    assert q.seen[|q.seen| - |p.seen|..] == p.seen;
  }

  /** A walk only appends tasks, only adds to `vec_blobs`, and keeps `vec_blobs` free of
      duplicates. */
  lemma {:induction false} PassPlanExtends(pass: Pass, p: Plan, entries: seq<Entry>)
    requires PassPlan(pass, p, entries).Ok?
    ensures Extends(p, PassPlan(pass, p, entries).value)
    decreases |entries|
  {
    if entries != [] {
      var init := entries[..|entries| - 1];
      PassPlanExtends(pass, p, init);
      var q := PassPlan(pass, p, init).value;
      match Select(pass, entries[|entries| - 1])
      case Ok(None) =>
      case Ok(Some(m)) =>
        ManifestPlanIsExtension(q, m);
        ExtendsTransitive(p, q, PassPlan(pass, p, entries).value);
    }
  }

  /** Stopping a walk early gives a prefix of its tasks. */
  lemma {:induction false} PassPlanPrefix(pass: Pass, p: Plan, entries: seq<Entry>, n: nat)
    requires n <= |entries|
    requires PassPlan(pass, p, entries).Ok?
    ensures PassPlan(pass, p, entries[..n]).Ok?
    ensures var q := PassPlan(pass, p, entries[..n]).value; var r := PassPlan(pass, p, entries).value;
      |q.tasks| <= |r.tasks| && r.tasks[..|q.tasks|] == q.tasks
    decreases |entries|
  {
    if n < |entries| {
      var init := entries[..|entries| - 1];
      assert init[..n] == entries[..n];
      PassPlanPrefix(pass, p, init, n);
      var q := PassPlan(pass, p, init).value;
      match Select(pass, entries[|entries| - 1])
      case Ok(None) =>
      case Ok(Some(m)) => ManifestPlanExtends(q, m);
    } else {
      assert entries[..n] == entries;
    }
  }

  /** Over the whole run, both walks included, `vec_blobs` never holds a sum twice and loses
      nothing it held. */
  lemma RunPlanKeepsSeenDistinct(p: Plan, release: Option<seq<Entry>>, operators: Option<seq<Entry>>)
    requires NoDup(p.seen)
    requires RunPlan(p, release, operators).Ok?
    ensures var q := RunPlan(p, release, operators).value;
      NoDup(q.seen) && |p.seen| <= |q.seen| && q.seen[|q.seen| - |p.seen|..] == p.seen &&
      |p.tasks| <= |q.tasks| && q.tasks[..|p.tasks|] == p.tasks
  {
    var mid := if release.Some? then PassPlan(Release, p, release.value) else Ok(p);
    if release.Some? {
      PassPlanExtends(Release, p, release.value);
    } else {
      assert p.tasks[..|p.tasks|] == p.tasks && p.seen[|p.seen| - |p.seen|..] == p.seen;
    }
    if operators.Some? {
      PassPlanExtends(Operators, mid.value, operators.value);
      ExtendsTransitive(p, mid.value, RunPlan(p, release, operators).value);
    }
  }

  // ---------------------------------------------------------------------------------------------
  // Every layer sum is scheduled at most once over the run

  /** The sums of the layer tasks, in push order; config tasks are left out. */
  function LayerSums(tasks: seq<Task>): seq<string>
    decreases |tasks|
  {
    if tasks == [] then []
    else
      var last := tasks[|tasks| - 1];
      LayerSums(tasks[..|tasks| - 1]) + (if last.role == LayerBlob then [last.sum] else [])
  }

  lemma {:induction false} LayerSumsAppend(a: seq<Task>, b: seq<Task>)
    ensures LayerSums(a + b) == LayerSums(a) + LayerSums(b)
    decreases |b|
  {
    if b == [] {
      assert a + b == a;
    } else {
      LayerSumsAppend(a, b[..|b| - 1]);
      assert (a + b)[..|a + b| - 1] == a + b[..|b| - 1];
    }
  }

  /** `vec_blobs` holds exactly the sums of the layer tasks pushed so far, newest first. */
  ghost predicate Recorded(p: Plan) {
    p.seen == Reversed(LayerSums(p.tasks))
  }

  /** A manifest keeps `vec_blobs` equal to the layer sums pushed: its config task adds nothing
      to either, and each of its layer tasks adds its sum to both. */
  lemma ManifestPlanRecorded(p: Plan, m: Manifest)
    requires Recorded(p) && ManifestPlan(p, m).Ok?
    ensures Recorded(ManifestPlan(p, m).value)
  {
    ManifestPlanFails(p, m);
    ManifestPlanTasks(p, m);
    var config := ConfigTask(m.config.value);
    var added := NewLayerTasks(p.seen, m.layers.value);
    NewLayerTasksAreLayers(p.seen, m.layers.value);
    LayerSumsAppend(p.tasks + [config], added);
    LayerSumsAppend(p.tasks, [config]);
    assert LayerSums([config]) == [] by { assert [config][..0] == []; }
    ReversedAppend(LayerSums(p.tasks), Sums(added));
    assert LayerSums(p.tasks) + [] == LayerSums(p.tasks);
  }

  /** A walk keeps `vec_blobs` equal to the layer sums pushed. */
  lemma {:induction false} PassPlanRecorded(pass: Pass, p: Plan, entries: seq<Entry>)
    requires Recorded(p) && PassPlan(pass, p, entries).Ok?
    ensures Recorded(PassPlan(pass, p, entries).value)
    decreases |entries|
  {
    if entries != [] {
      var init := entries[..|entries| - 1];
      PassPlanRecorded(pass, p, init);
      var q := PassPlan(pass, p, init).value;
      match Select(pass, entries[|entries| - 1])
      case Ok(None) =>
      case Ok(Some(m)) => ManifestPlanRecorded(q, m);
    }
  }

  /** The run from its start, both walks included, schedules every layer sum at most once, and
      `vec_blobs` is exactly the layer sums it scheduled, newest first. Config sums are not
      covered: a config is pushed whenever its manifest is. */
  lemma RunPlanSchedulesLayersOnce(release: Option<seq<Entry>>, operators: Option<seq<Entry>>)
    requires RunPlan(Plan([], []), release, operators).Ok?
    ensures var q := RunPlan(Plan([], []), release, operators).value;
      NoDup(LayerSums(q.tasks)) && q.seen == Reversed(LayerSums(q.tasks))
  {
    var start := Plan([], []);
    assert Recorded(start);
    var mid := if release.Some? then PassPlan(Release, start, release.value) else Ok(start);
    if release.Some? {
      PassPlanRecorded(Release, start, release.value);
    }
    if operators.Some? {
      PassPlanRecorded(Operators, mid.value, operators.value);
    }
    RunPlanKeepsSeenDistinct(start, release, operators);
    var q := RunPlan(start, release, operators).value;
    NoDupReversed(LayerSums(q.tasks));
  }
}
