/** The task stream: `TaskGenerator` (an append-only pool of tasks built one from
    the previous by a strategy) and `TaskGenIter` (a cursor over that pool that
    grows it on demand). */
module TaskGeneration {
  import opened Wrappers
  import opened StreamTypes
  import opened SampleLayout

  /** The bound of `rnd.randint(0, int(1e9))`, inclusive. */
  const MaxSeed: nat := 1_000_000_000

  /** The axes `get_similarity` compares when none are named. */
  const DefaultComponent: string := "xyz"

  /** The splits `load_task` reads, in order. */
  const LoadedSplitNames: seq<string> := ["train", "val", "test"]

  /** Every task's `id` is its index in the pool. */
  ghost predicate IdsAreIndices(pool: seq<Task>) {
    forall i :: 0 <= i < |pool| ==> pool[i].id == i
  }

  /** The components `get_similarity` understands. */
  predicate IsAxis(c: char) {
    c == 'x' || c == 'y' || c == 'z'
  }

  predicate AllAxes(component: string) {
    forall k :: 0 <= k < |component| ==> IsAxis(component[k])
  }

  /** `component`, or `"xyz"` when none is given. */
  function ComponentOrDefault(component: Option<string>): string {
    if component.Some? then component.value else DefaultComponent
  }

  /** `k` distinct indices below `n`: a possible result of `rnd.sample(range(n), k)`. */
  predicate IsIndexSample(indices: seq<nat>, k: nat, n: nat) {
    |indices| == k
    && (forall p :: 0 <= p < |indices| ==> indices[p] < n)
    && (forall p, q :: 0 <= p < q < |indices| ==> indices[p] != indices[q])
  }

  /** Every concept in a group of its own, in order. */
  function Singletons(concepts: seq<Concept>): seq<ConceptGroup> {
    seq(|concepts|, i requires 0 <= i < |concepts| => [concepts[i]])
  }

  /** Wrapping concepts in singleton groups loses nothing: each group holds one
      concept and the groups laid end to end give back the concepts in order. */
  lemma {:induction false} SingletonsRoundTrip(concepts: seq<Concept>)
    ensures |Singletons(concepts)| == |concepts|
    ensures forall g :: g in Singletons(concepts) ==> |g| == 1
    ensures Concat(Singletons(concepts)) == concepts
    decreases |concepts|
  {
    if concepts != [] {
      var init := concepts[..|concepts| - 1];
      SingletonsRoundTrip(init);
      assert Singletons(concepts)[..|concepts| - 1] == Singletons(init);
    }
  }

  /** The last position of `c` in `s`: `dict(zip(s, values))` keeps the value
      paired with it. */
  function LastIndex(s: string, c: char): (k: nat)
    requires c in s
    ensures k < |s| && s[k] == c
    ensures forall p :: k < p < |s| ==> s[p] != c
  {
    if s[|s| - 1] == c then |s| - 1 else LastIndex(s[..|s| - 1], c)
  }

  /** The number of pairs `(a, b)` with `a < i` and `a <= b < n`: the calls the
      upper-triangle loop makes for its first `i` rows. */
  function Triangle(i: nat, n: nat): nat
    requires i <= n
  {
    if i == 0 then 0 else Triangle(i - 1, n) + (n - (i - 1))
  }

  lemma {:induction false} TriangleClosedForm(i: nat, n: nat)
    requires i <= n
    ensures 2 * Triangle(i, n) == i * (2 * n - i + 1)
  {
    if i > 0 {
      TriangleClosedForm(i - 1, n);
      assert (i - 1) * (2 * n - i + 2) + 2 * (n - i + 1) == i * (2 * n - i + 1);
    }
  }

  /** What `__next__` produces: a task, the end of the stream, or an exception
      that is not an `IndexError`. */
  datatype Step = Yield(task: Task) | Exhausted | Raise(error: Error)

  /** How `__next__` reports the outcome of `add_task`: an `IndexError` ends the
      iteration, any other exception goes through. */
  function StepOf(r: Result<Task>): (step: Step)
    ensures step.Exhausted? <==> r == Err(IndexError)
    ensures step.Yield? <==> r.Ok?
    ensures step.Yield? ==> step.task == r.value
    ensures step.Raise? ==> r == Err(step.error) && step.error != IndexError
  {
    match r
    case Ok(t) => Yield(t)
    case Err(IndexError) => Exhausted
    case Err(e) => Raise(e)
  }

  /** The contents of a loaded split file. */
  datatype SplitFile = SplitFile(path: string, content: Option<SplitData>)

  /** The sidecar `.meta` file of a loaded task; an absent file reads as
      `EmptyMetadata`. */
  datatype Metadata = Metadata(spec: Option<TaskSpec>, creator: Option<string>)

  const EmptyMetadata: Metadata := Metadata(None, None)

  class TaskGenerator {
    const conceptPool: ConceptPool
    const transformationPool: TransformationPool
    /** The default per-split sample counts. */
    const nSamplesPerClass: seq<nat>
    const splitNames: seq<string>
    /** Whether split 1 gets test-time augmentation. */
    const tta: bool
    const nInitialClasses: nat
    const useCatId: bool
    const strat: Strategy
    /** The image perturbations `augment_samples` applies. */
    const augmenter: Augmenter

    var taskPool: seq<Task>
    var containsLoadedTasks: bool

    ghost predicate Valid()
      reads this
    {
      |nSamplesPerClass| == |splitNames| && IdsAreIndices(taskPool)
    }

    constructor (conceptPool: ConceptPool, transformationPool: TransformationPool,
                 samplesPerClass: seq<nat>, splitNames: seq<string>, strat: Strategy,
                 nInitialClasses: nat, useCatId: bool, tta: bool, augmenter: Augmenter)
      requires |samplesPerClass| == |splitNames|
      ensures Valid()
      ensures this.conceptPool == conceptPool && this.transformationPool == transformationPool
      ensures this.nSamplesPerClass == samplesPerClass && this.splitNames == splitNames
      ensures this.strat == strat && this.nInitialClasses == nInitialClasses
      ensures this.useCatId == useCatId && this.tta == tta && this.augmenter == augmenter
      ensures taskPool == [] && !containsLoadedTasks
    {
      this.conceptPool := conceptPool;
      this.transformationPool := transformationPool;
      this.nSamplesPerClass := samplesPerClass;
      this.splitNames := splitNames;
      this.strat := strat;
      this.nInitialClasses := nInitialClasses;
      this.useCatId := useCatId;
      this.tta := tta;
      this.augmenter := augmenter;
      taskPool := [];
      containsLoadedTasks := false;
    }

    /** `TaskGenerator(...)`: fails unless there is one sample count per split name. */
    static method Create(conceptPool: ConceptPool, transformationPool: TransformationPool,
                         samplesPerClass: seq<nat>, splitNames: seq<string>, strat: Strategy,
                         nInitialClasses: nat, useCatId: bool, tta: bool, augmenter: Augmenter)
      returns (r: Result<TaskGenerator>)
      ensures r.Ok? <==> |samplesPerClass| == |splitNames|
      ensures r.Err? ==> r.error == AssertionError
      ensures r.Ok? ==> fresh(r.value) && r.value.Valid()
                        && r.value.taskPool == [] && !r.value.containsLoadedTasks
                        && r.value.nSamplesPerClass == samplesPerClass && r.value.splitNames == splitNames
      ensures r.Ok? ==> r.value.conceptPool == conceptPool && r.value.transformationPool == transformationPool
                        && r.value.strat == strat && r.value.nInitialClasses == nInitialClasses
                        && r.value.useCatId == useCatId && r.value.tta == tta && r.value.augmenter == augmenter
    {
      if |samplesPerClass| != |splitNames| {
        return Err(AssertionError);
      }
      var g := new TaskGenerator(conceptPool, transformationPool, samplesPerClass, splitNames, strat,
                                 nInitialClasses, useCatId, tta, augmenter);
      r := Ok(g);
    }

    /** `n_tasks`: the pool size, which is above every id in use. */
    function NTasks(): (r: nat)
      reads this
      ensures r == |taskPool|
      ensures Valid() ==> forall t :: t in taskPool ==> t.id < r
    {
      |taskPool|
    }

    /** `stream_infos(full)`: the info record of every task, in pool order;
        `full` defaults to true. */
    function StreamInfos(info: (Task, bool) -> Info, full: Option<bool>): (r: seq<Info>)
      reads this
      ensures |r| == |taskPool|
      ensures forall i :: 0 <= i < |r| ==> r[i] == info(taskPool[i], full != Some(false))
    {
      var f := if full.Some? then full.value else true;
      seq(|taskPool|, i requires 0 <= i < |taskPool| reads this => info(taskPool[i], f))
    }

    // -------------------------------------------------------------------------
    // _create_new_task

    /** The possible results of `_create_new_task(concept_pool, transformation_pool,
        nAttributes)`: an exception from `get_compatible_concepts`, a `ValueError`
        when more attributes are asked for than the pool has, or a spec made of the
        compatible concepts in singleton groups, `nAttributes` distinct attribute
        indices, the pool's transformation and the default sample counts. */
    ghost predicate IsNewSpec(r: Result<TaskSpec>, nAttributes: nat) {
      var concepts := conceptPool.compatibleConcepts(nInitialClasses);
      if concepts.Err? then r == Err(concepts.error)
      else if nAttributes > conceptPool.attributeCount then r == Err(ValueError)
      else r.Ok?
           && r.value.srcConcepts == Singletons(concepts.value)
           && r.value.attributes.useCatId == useCatId
           && IsIndexSample(r.value.attributes.indices, nAttributes, conceptPool.attributeCount)
           && r.value.transformation == transformationPool.transformation
           && r.value.nSamplesPerClass == nSamplesPerClass
    }

    /** `_create_new_task`. The attribute indices are a random choice. */
    method CreateNewTask(nAttributes: nat) returns (r: Result<TaskSpec>)
      ensures IsNewSpec(r, nAttributes)
    {
      var concepts := conceptPool.compatibleConcepts(nInitialClasses);
      if concepts.Err? {
        return Err(concepts.error);
      }
      var nAvail := conceptPool.attributeCount;
      if nAttributes > nAvail {
        return Err(ValueError);
      }
      ghost var firstIndices := seq(nAttributes, p => p);
      assert IsIndexSample(firstIndices, nAttributes, nAvail);
      var attributes: seq<nat> :| IsIndexSample(attributes, nAttributes, nAvail);
      var transformation := transformationPool.transformation;
      var groups := Singletons(concepts.value);
      r := Ok(TaskSpec(groups, Attributes(useCatId, attributes), transformation, nSamplesPerClass));
    }

    // -------------------------------------------------------------------------
    // get_samples and _create_task

    /** The splits that get test-time augmentation: `[1] if tta else []`. */
    function Augment(): (r: seq<nat>)
      ensures forall s :: s in r <==> tta && s == 1
    {
      if tta then [1] else []
    }

    /** The synthesized splits of `spec` for the derived seed `seed`, with the
        task's transformation applied to every sample. */
    function Materialized(spec: TaskSpec, seed: nat): (r: Result<seq<SplitData>>)
      ensures r.Ok? ==> |r.value| == |spec.nSamplesPerClass|
    {
      var sm := Sampler(conceptPool, augmenter, Augment(), seed);
      match Generated(sm, spec.srcConcepts, spec.attributes, spec.nSamplesPerClass)
      case Err(e) => Err(e)
      case Ok(splits) => Ok(Transformed(spec.transformation, splits))
    }

    /** `[transformation(x) for x in samples]`, split by split; labels are kept. */
    function Transformed(transformation: Transformation, splits: seq<SplitData>): (r: seq<SplitData>)
      ensures |r| == |splits|
      ensures forall s :: 0 <= s < |splits| ==>
                |r[s].samples| == |splits[s].samples| && r[s].labels == splits[s].labels
                && forall p :: 0 <= p < |splits[s].samples| ==>
                     r[s].samples[p] == transformationPool.apply(transformation, splits[s].samples[p])
    {
      seq(|splits|, s requires 0 <= s < |splits| =>
        SplitData(seq(|splits[s].samples|, p requires 0 <= p < |splits[s].samples| =>
                        transformationPool.apply(transformation, splits[s].samples[p])),
                  splits[s].labels))
    }

    /** `get_samples`: draws a fresh seed, synthesizes the splits, then applies the
        transformation to each split. */
    method GetSamples(concepts: seq<ConceptGroup>, attributes: Attributes, transformation: Transformation,
                      counts: seq<nat>)
      returns (r: Result<seq<SplitData>>, ghost seed: nat)
      ensures seed <= MaxSeed
      ensures r == Materialized(TaskSpec(concepts, attributes, transformation, counts), seed)
    {
      var derived: nat :| derived <= MaxSeed;
      seed := derived;
      var generated := GenerateSamplesFromDescr(Sampler(conceptPool, augmenter, Augment(), derived),
                                                concepts, attributes, counts);
      if generated.Err? {
        return Err(generated.error), seed;
      }
      r := Ok(Transformed(transformation, generated.value));
    }

    /** The sample layout of a task's split `s`, for a pool that draws exactly what
        is asked for: `k` blocks of `m` samples, one block per concept group in
        order, where `m` is five times the requested count on the augmented split
        (split 1 with test-time augmentation) and the requested count otherwise;
        entry `j` of block `i` is the transformed sample `j` drawn for group `i`,
        and its label is `i`. */
    lemma MaterializedLayout(spec: TaskSpec, seed: nat, s: nat, m: nat)
      requires ExactDraws(conceptPool)
      requires Materialized(spec, seed).Ok? && s < |spec.nSamplesPerClass|
      requires m == (if tta && s == 1 then 5 * spec.nSamplesPerClass[s] else spec.nSamplesPerClass[s])
      ensures |Materialized(spec, seed).value[s].samples| == |spec.srcConcepts| * m
      ensures |Materialized(spec, seed).value[s].labels| == |spec.srcConcepts| * m
      ensures forall i, j :: 0 <= i < |spec.srcConcepts| && 0 <= j < m ==>
                BlockAt(i, j, m) < |spec.srcConcepts| * m
                && Materialized(spec, seed).value[s].labels[BlockAt(i, j, m)] == i
                && j < |Drawn(Sampler(conceptPool, augmenter, Augment(), seed), spec.srcConcepts, i, s,
                              spec.nSamplesPerClass[s])|
                && Materialized(spec, seed).value[s].samples[BlockAt(i, j, m)]
                   == transformationPool.apply(spec.transformation,
                        Drawn(Sampler(conceptPool, augmenter, Augment(), seed), spec.srcConcepts, i, s,
                              spec.nSamplesPerClass[s])[j])
    {
      var sm := Sampler(conceptPool, augmenter, Augment(), seed);
      assert m == PerCategory(sm.augment, s, spec.nSamplesPerClass[s]);
      SplitLayout(sm, spec.srcConcepts, s, spec.nSamplesPerClass[s], m);
    }

    /** The task `_create_task` builds from `spec` (its id is set by the caller). */
    function Built(spec: TaskSpec, name: Option<string>, savePath: Option<string>, seed: nat): (r: Result<Task>)
      ensures r.Ok? ==> r.value.spec == Some(spec) && r.value.splitNames == splitNames
                        && |r.value.splits| == |spec.nSamplesPerClass|
    {
      match Materialized(spec, seed)
      case Err(e) => Err(e)
      case Ok(splits) => Ok(Assembled(spec, splits, name, savePath))
    }

    /** The `Task(...)` call of `_create_task`, with the default id 0. */
    function Assembled(spec: TaskSpec, splits: seq<SplitData>, name: Option<string>, savePath: Option<string>)
      : (t: Task)
      ensures t.id == 0 && t.name == name && t.splits == splits && t.splitNames == splitNames
      ensures t.spec == Some(spec) && t.creator == Some(strat.descr)
      ensures t.savePath == if savePath.Some? then SavedAt(savePath.value) else NoPath
    {
      Task(0, name, splits, splitNames, Some(spec), Some(strat.descr),
           if savePath.Some? then SavedAt(savePath.value) else NoPath)
    }

    /** `_create_task`. */
    method CreateTask(spec: TaskSpec, name: Option<string>, savePath: Option<string>)
      returns (r: Result<Task>, ghost seed: nat)
      ensures seed <= MaxSeed
      ensures r == Built(spec, name, savePath, seed)
    {
      var samples;
      samples, seed := GetSamples(spec.srcConcepts, spec.attributes, spec.transformation, spec.nSamplesPerClass);
      if samples.Err? {
        return Err(samples.error), seed;
      }
      r := Ok(Assembled(spec, samples.value, name, savePath));
    }

    // -------------------------------------------------------------------------
    // add_task

    /** The spec `add_task` hands to `_create_task`: the candidate (the fresh spec
        `initial` for the first task, otherwise a copy of the last task's
        provenance) evolved by the strategy in both cases, provided the result has
        one sample count per split. */
    function Evolved(pool: seq<Task>, initial: Result<TaskSpec>): (r: Result<TaskSpec>)
      ensures r.Ok? ==> |r.value.nSamplesPerClass| == |splitNames|
      ensures pool == [] && initial.Err? ==> r == initial
      ensures pool == [] && initial.Ok? ==>
                var next := strat.newTask(initial.value, []);
                r == if next.Ok? && |next.value.nSamplesPerClass| != |splitNames| then Err(AssertionError) else next
      ensures pool != [] && pool[|pool| - 1].spec.None? ==> r == Err(TypeError)
      ensures pool != [] && pool[|pool| - 1].spec.Some? ==>
                var next := strat.newTask(pool[|pool| - 1].spec.value, pool);
                r == if next.Ok? && |next.value.nSamplesPerClass| != |splitNames| then Err(AssertionError) else next
    {
      var candidate :=
        if pool == [] then initial
        else if pool[|pool| - 1].spec.Some? then Ok(pool[|pool| - 1].spec.value)
        else Err(TypeError);
      if candidate.Err? then Err(candidate.error)
      else
        var next := strat.newTask(candidate.value, pool);
        if next.Err? then next
        else if |next.value.nSamplesPerClass| != |splitNames| then Err(AssertionError)
        else next
    }

    /** The task `add_task` appends to `pool`, or the exception it raises. */
    function NextTask(pool: seq<Task>, initial: Result<TaskSpec>, name: Option<string>,
                      savePath: Option<string>, seed: nat): (r: Result<Task>)
      ensures r.Ok? ==> r.value.id == |pool| && |r.value.splits| == |splitNames|
                        && Evolved(pool, initial).Ok? && r.value.spec == Some(Evolved(pool, initial).value)
      ensures Evolved(pool, initial).Err? ==> r == Err(Evolved(pool, initial).error)
    {
      match Evolved(pool, initial)
      case Err(e) => Err(e)
      case Ok(spec) =>
        match Built(spec, name, savePath, seed)
        case Err(e) => Err(e)
        case Ok(t) => Ok(t.(id := |pool|))
    }

    /** `add_task(name, save_path)`. The spec of the first task and the seed of the
        synthesis are random choices; `initial` and `seed` name the ones taken. */
    method AddTask(name: Option<string>, savePath: Option<string>)
      returns (r: Result<Task>, ghost initial: Result<TaskSpec>, ghost seed: nat)
      requires Valid()
      modifies this
      ensures Valid()
      ensures old(taskPool) == [] ==> IsNewSpec(initial, 0)
      ensures seed <= MaxSeed
      ensures r == NextTask(old(taskPool), initial, name, savePath, seed)
      ensures r.Ok? ==> taskPool == old(taskPool) + [r.value]
      ensures r.Err? ==> taskPool == old(taskPool)
      ensures containsLoadedTasks == old(containsLoadedTasks)
    {
      var newTaskId := |taskPool|;
      initial := Err(IndexError);
      seed := 0;
      var spec: TaskSpec;
      if newTaskId == 0 {
        var created := CreateNewTask(0);
        initial := created;
        if created.Err? {
          return Err(created.error), initial, seed;
        }
        spec := created.value;
      } else {
        var last := taskPool[newTaskId - 1];
        if last.spec.None? {
          return Err(TypeError), initial, seed;
        }
        spec := last.spec.value;
      }
      var next := strat.newTask(spec, taskPool);
      if next.Err? {
        return Err(next.error), initial, seed;
      }
      if |next.value.nSamplesPerClass| != |splitNames| {
        return Err(AssertionError), initial, seed;
      }
      var created;
      created, seed := CreateTask(next.value, name, savePath);
      if created.Err? {
        return Err(created.error), initial, seed;
      }
      var newTask := created.value.(id := newTaskId);
      taskPool := taskPool + [newTask];
      r := Ok(newTask);
    }

    // -------------------------------------------------------------------------
    // load_task

    /** The task `load_task` builds from three present split files. */
    function Loaded(taskName: string, files: seq<SplitFile>, meta: Metadata, id: nat): (t: Task)
      requires forall k :: 0 <= k < |files| ==> files[k].content.Some?
      ensures t.id == id && |t.splits| == |files| && t.splitNames == splitNames && t.spec == meta.spec
      ensures forall k :: 0 <= k < |files| ==> t.splits[k] == files[k].content.value
    {
      Task(id, Some(taskName),
           seq(|files|, k requires 0 <= k < |files| => files[k].content.value),
           splitNames, meta.spec, meta.creator,
           LoadedFrom(seq(|files|, k requires 0 <= k < |files| => files[k].path)))
    }

    /** `load_task(task_name, load_path)`: `files` are the `train`, `val` and `test`
        files of the task (with their contents when they exist), `metaFile` the
        sidecar metadata when it exists. */
    method LoadTask(taskName: string, files: seq<SplitFile>, metaFile: Option<Metadata>)
      returns (r: Result<Task>)
      requires Valid()
      requires |files| == |LoadedSplitNames|
      modifies this
      ensures Valid()
      ensures r.Ok? <==> forall k :: 0 <= k < |files| ==> files[k].content.Some?
      ensures r.Err? ==> r.error == AssertionError
                         && taskPool == old(taskPool) && containsLoadedTasks == old(containsLoadedTasks)
      ensures r.Ok? ==> r.value == Loaded(taskName, files, if metaFile.Some? then metaFile.value else EmptyMetadata,
                                          |old(taskPool)|)
                        && taskPool == old(taskPool) + [r.value] && containsLoadedTasks
    {
      var samples: seq<SplitData> := [];
      var savePaths: seq<string> := [];
      for k := 0 to |files|
        invariant |samples| == k && |savePaths| == k
        invariant forall p :: 0 <= p < k ==> files[p].content.Some? && samples[p] == files[p].content.value
        invariant forall p :: 0 <= p < k ==> savePaths[p] == files[p].path
      {
        savePaths := savePaths + [files[k].path];
        if files[k].content.None? {
          return Err(AssertionError);
        }
        samples := samples + [files[k].content.value];
      }
      var meta := if metaFile.Some? then metaFile.value else EmptyMetadata;
      var task := Task(|taskPool|, Some(taskName), samples, splitNames, meta.spec, meta.creator,
                       LoadedFrom(savePaths));
      assert samples == seq(|files|, k requires 0 <= k < |files| => files[k].content.value);
      assert savePaths == seq(|files|, k requires 0 <= k < |files| => files[k].path);
      assert task == Loaded(taskName, files, meta, |taskPool|);
      taskPool := taskPool + [task];
      containsLoadedTasks := true;
      r := Ok(task);
    }
  
    // -------------------------------------------------------------------------
    // get_similarity and get_similarities

    /** The similarity of two tasks along one axis: `x` compares their
        transformations, `y` their attributes and `z` their concepts; any other
        character is a `ValueError`. */
    function AxisSimilarity(c: char, t1: Task, t2: Task): (r: Result<Sim>)
      ensures r.Ok? <==> IsAxis(c)
      ensures r.Err? ==> r.error == ValueError
    {
      if c == 'x' then Ok(transformationPool.transformationsSim(t1.Trans(), t2.Trans()))
      else if c == 'y' then Ok(conceptPool.yAttributesSim(t1.Attrs(), t2.Attrs()))
      else if c == 'z' then Ok(conceptPool.categoriesSim(t1.SrcConcepts(), t2.SrcConcepts()))
      else Err(ValueError)
    }

    /** `get_similarity(t1, t2, component)`: one similarity per component character,
        in order; a `ValueError` as soon as a character is not an axis. */
    method GetSimilarity(t1: Task, t2: Task, component: Option<string>) returns (r: Result<seq<Sim>>)
      ensures r.Ok? <==> AllAxes(ComponentOrDefault(component))
      ensures r.Err? ==> r.error == ValueError
      ensures r.Ok? ==> |r.value| == |ComponentOrDefault(component)|
      ensures r.Ok? ==> forall k :: 0 <= k < |r.value| ==>
                          AxisSimilarity(ComponentOrDefault(component)[k], t1, t2) == Ok(r.value[k])
    {
      var comp := ComponentOrDefault(component);
      var res: seq<Sim> := [];
      for k := 0 to |comp|
        invariant |res| == k
        invariant forall p :: 0 <= p < k ==> AxisSimilarity(comp[p], t1, t2) == Ok(res[p])
      {
        var c := comp[k];
        if c == 'x' {
          res := res + [transformationPool.transformationsSim(t1.Trans(), t2.Trans())];
        } else if c == 'y' {
          res := res + [conceptPool.yAttributesSim(t1.Attrs(), t2.Attrs())];
        } else if c == 'z' {
          res := res + [conceptPool.categoriesSim(t1.SrcConcepts(), t2.SrcConcepts())];
        } else {
          return Err(ValueError);
        }
      }
      r := Ok(res);
    }

    /** Layer `k` of an `n` by `n` by `K` array, as a matrix. */
    function Layer(sims: array3<Sim>, k: nat): (m: seq<seq<Sim>>)
      reads sims
      requires sims.Length0 == sims.Length1 && k < sims.Length2
      ensures |m| == sims.Length0
      ensures forall a :: 0 <= a < |m| ==> |m[a]| == sims.Length1
      ensures forall a, b :: 0 <= a < sims.Length0 && 0 <= b < sims.Length1 ==> m[a][b] == sims[a, b, k]
    {
      seq(sims.Length0, a requires 0 <= a < sims.Length0 reads sims =>
        seq(sims.Length1, b requires 0 <= b < sims.Length1 reads sims => sims[a, b, k]))
    }

    /** `similarities[a, b] = sim; similarities[b, a] = sim`: both cells get the
        whole vector, every other cell keeps its value. */
    static method SetSymmetric(sims: array3<Sim>, a: nat, b: nat, sim: seq<Sim>)
      requires a < sims.Length0 && b < sims.Length0 && sims.Length0 == sims.Length1
      requires |sim| == sims.Length2
      modifies sims
      ensures forall k :: 0 <= k < |sim| ==> sims[a, b, k] == sim[k] && sims[b, a, k] == sim[k]
      ensures forall x, y, k ::
                0 <= x < sims.Length0 && 0 <= y < sims.Length1 && 0 <= k < sims.Length2
                && !(x == a && y == b) && !(x == b && y == a)
                ==> sims[x, y, k] == old(sims[x, y, k])
    {
      forall k | 0 <= k < |sim| {
        sims[a, b, k] := sim[k];
      }
      forall k | 0 <= k < |sim| {
        sims[b, a, k] := sim[k];
      }
    }

    /** `get_similarities(component)`: one `n_tasks` by `n_tasks` matrix per
        component character, filled from the upper triangle. `calls` counts the
        `get_similarity` calls made. */
    method GetSimilarities(component: Option<string>)
      returns (r: Result<map<char, seq<seq<Sim>>>>, ghost calls: nat)
      ensures r.Err? <==> |taskPool| > 0 && !AllAxes(ComponentOrDefault(component))
      ensures r.Err? ==> r.error == ValueError
      ensures r.Ok? ==> r.value.Keys == set c | c in ComponentOrDefault(component)
      ensures r.Ok? ==> forall c :: c in r.value ==>
                          |r.value[c]| == |taskPool|
                          && forall a :: 0 <= a < |taskPool| ==> |r.value[c][a]| == |taskPool|
      ensures r.Ok? ==> forall c, a, b :: c in r.value && 0 <= a <= b < |taskPool| ==>
                          AxisSimilarity(c, taskPool[a], taskPool[b]) == Ok(r.value[c][a][b])
                          && r.value[c][b][a] == r.value[c][a][b]
      ensures r.Ok? ==> calls == Triangle(|taskPool|, |taskPool|) && 2 * calls == |taskPool| * (|taskPool| + 1)
    {
      var comp := ComponentOrDefault(component);
      var n := |taskPool|;
      var sims := new Sim[n, n, |comp|];
      calls := 0;
      for i := 0 to n
        invariant calls == Triangle(i, n)
        invariant i > 0 ==> AllAxes(comp)
        invariant forall a, b, k :: 0 <= a <= b < n && a < i && 0 <= k < |comp| ==>
                    AxisSimilarity(comp[k], taskPool[a], taskPool[b]) == Ok(sims[a, b, k])
                    && sims[b, a, k] == sims[a, b, k]
      {
        for j := 0 to n - i
          invariant calls == Triangle(i, n) + j
          invariant i > 0 || j > 0 ==> AllAxes(comp)
          invariant forall a, b, k :: 0 <= a <= b < n && (a < i || (a == i && b < i + j)) && 0 <= k < |comp| ==>
                      AxisSimilarity(comp[k], taskPool[a], taskPool[b]) == Ok(sims[a, b, k])
                      && sims[b, a, k] == sims[a, b, k]
        {
          var sim := GetSimilarity(taskPool[i], taskPool[i + j], Some(comp));
          calls := calls + 1;
          if sim.Err? {
            return Err(sim.error), calls;
          }
          SetSymmetric(sims, i, i + j, sim.value);
        }
      }
      TriangleClosedForm(n, n);
      r := Ok(map c | c in comp :: Layer(sims, LastIndex(comp, c)));
    }
  }

  /** `TaskGenIter`: a cursor `n` over the pool of `taskGen`. */
  class TaskGenIter {
    const taskGen: TaskGenerator
    var n: nat

    constructor (taskGen: TaskGenerator)
      ensures this.taskGen == taskGen && n == 0
    {
      this.taskGen := taskGen;
      n := 0;
    }

    /** `__next__`: the task at the cursor when the pool has it, otherwise the one
        `add_task` appends (the end of the stream on an `IndexError`). The cursor
        moves by one exactly when a task is returned. */
    method Next() returns (step: Step, ghost initial: Result<TaskSpec>, ghost seed: nat)
      requires taskGen.Valid()
      modifies this, taskGen
      ensures taskGen.Valid()
      ensures taskGen.containsLoadedTasks == old(taskGen.containsLoadedTasks)
      ensures old(n) < |old(taskGen.taskPool)| ==>
                step == Yield(old(taskGen.taskPool)[old(n)]) && taskGen.taskPool == old(taskGen.taskPool)
      ensures old(n) > |old(taskGen.taskPool)| ==>
                step == Raise(AssertionError) && taskGen.taskPool == old(taskGen.taskPool)
      ensures old(n) == |old(taskGen.taskPool)| ==>
                (old(taskGen.taskPool) == [] ==> taskGen.IsNewSpec(initial, 0))
                && seed <= MaxSeed
                && step == StepOf(taskGen.NextTask(old(taskGen.taskPool), initial, None, None, seed))
                && taskGen.taskPool == old(taskGen.taskPool) + (if step.Yield? then [step.task] else [])
      ensures step.Yield? ==> n == old(n) + 1 && step.task.id == old(n)
      ensures !step.Yield? ==> n == old(n)
    {
      initial := Err(IndexError);
      seed := 0;
      if |taskGen.taskPool| > n {
        step := Yield(taskGen.taskPool[n]);
      } else {
        if n != |taskGen.taskPool| {
          return Raise(AssertionError), initial, seed;
        }
        var added;
        added, initial, seed := taskGen.AddTask(None, None);
        step := StepOf(added);
        if !step.Yield? {
          return step, initial, seed;
        }
      }
      n := n + 1;
    }
  }
}
