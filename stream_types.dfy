/** The entities of a task stream and the collaborators the generator talks to.
    Everything the generator only passes around (concepts, transformations,
    samples, similarity scores) is an opaque type; every collaborator is a record
    of the functions the generator calls on it. */
module StreamTypes {
  import opened Wrappers

  /** A generative concept owned by the concept pool. */
  type Concept(==, !new)
  /** A data transformation handed out by the transformation pool. */
  type Transformation(==, !new)
  /** One input sample (one row of a sample tensor). */
  type Sample(==, !new)
  /** One similarity score returned by a pool. */
  type Sim(0)
  /** The record `Task.info` produces for a task. */
  type Info

  /** The concepts that share one category label. */
  type ConceptGroup = seq<Concept>

  /** The `(use_cat_id, attributes)` pair of a task. */
  datatype Attributes = Attributes(useCatId: bool, indices: seq<nat>)

  /** What a task is made from: its concept groups (one per category, in label
      order), attributes, transformation and per-split sample counts. */
  datatype TaskSpec = TaskSpec(
    srcConcepts: seq<ConceptGroup>,
    attributes: Attributes,
    transformation: Transformation,
    nSamplesPerClass: seq<nat>)

  /** The samples of one split and their labels (the `(n, 1)` label column,
      flattened). */
  datatype SplitData = SplitData(samples: seq<Sample>, labels: seq<nat>)

  /** Where a task is (or will be) saved: nothing, the path given to
      `add_task`, or the per-split files a loaded task came from. */
  datatype SavePath = NoPath | SavedAt(path: string) | LoadedFrom(paths: seq<string>)

  /** A materialized task. `spec` is its provenance: always present on a
      generated task; on a loaded task it is whatever the metadata file held,
      and `None` when that file was absent. */
  datatype Task = Task(
    id: nat,
    name: Option<string>,
    splits: seq<SplitData>,
    splitNames: seq<string>,
    spec: Option<TaskSpec>,
    creator: Option<string>,
    savePath: SavePath)
  {
    /** `task.src_concepts`, `None` on a task without provenance. */
    function SrcConcepts(): Option<seq<ConceptGroup>> {
      if spec.Some? then Some(spec.value.srcConcepts) else None
    }
    /** `task.attributes`. */
    function Attrs(): Option<Attributes> {
      if spec.Some? then Some(spec.value.attributes) else None
    }
    /** `task.transformation`. */
    function Trans(): Option<Transformation> {
      if spec.Some? then Some(spec.value.transformation) else None
    }
  }

  /** One call `mixture._get_samples(n, attributes, split_id, rng)` on the mixture of
      category `category`. The random stream shared by the calls of one
      synthesis is represented by the per-call seed and the call's position
      (category, split). */
  datatype DrawRequest = DrawRequest(
    seed: nat, category: nat, group: ConceptGroup, split: nat, count: nat)

  /** The concept pool, as the generator uses it. */
  datatype ConceptPool = ConceptPool(
    /** `len(concept_pool.attributes)` */
    attributeCount: nat,
    /** `get_compatible_concepts(k, leaf_only=True)`; an `IndexError` when the pool
        cannot supply `k` compatible concepts. */
    compatibleConcepts: nat -> Result<seq<Concept>>,
    /** The samples drawn from a composed concept. */
    draw: DrawRequest -> seq<Sample>,
    /** `y_attributes_sim` */
    yAttributesSim: (Option<Attributes>, Option<Attributes>) -> Sim,
    /** `categories_sim` */
    categoriesSim: (Option<seq<ConceptGroup>>, Option<seq<ConceptGroup>>) -> Sim)

  /** A pool whose composed concepts return exactly the number of samples asked for. */
  ghost predicate ExactDraws(pool: ConceptPool) {
    forall q: DrawRequest :: |pool.draw(q)| == q.count
  }

  /** The transformation pool, and how a transformation acts on a batch. */
  datatype TransformationPool = TransformationPool(
    /** `get_transformation()` */
    transformation: Transformation,
    /** `transformations_sim` */
    transformationsSim: (Option<Transformation>, Option<Transformation>) -> Sim,
    /** A transformation applied to one sample of a batch. */
    apply: (Transformation, Sample) -> Sample)

  /** The task-evolution strategy: `new_task(spec, concept_pool, transformation_pool,
      task_pool)` (the two pools are fixed for a generator) and `descr()`. */
  datatype Strategy = Strategy(
    newTask: (TaskSpec, seq<Task>) -> Result<TaskSpec>,
    descr: string)

  /** The image perturbations of `augment_samples`: `perturb(x, k)` is the k-th
      random flip-and-crop of `x` (k < 4), `reencode(x)` the unperturbed
      round trip through an image. */
  datatype Augmenter = Augmenter(
    perturb: (Sample, nat) -> Sample,
    reencode: Sample -> Sample)
}
