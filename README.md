# Task-stream generator of CTrL, modelled in Dafny

This project models the orchestration layer of the CTrL continual-learning
benchmark (`ctrl/tasks/task_generator.py`). That layer builds a stream of
classification tasks from a concept pool, a transformation pool and a pluggable
strategy. It covers:

- `TaskGenerator` keeps an append-only `task_pool`. Every task's `id` is its index
  in that pool.
- `add_task` takes a fresh spec (`_create_new_task`) for the first task and the
  last task's provenance for every later one. In both cases the candidate goes
  through the strategy, and the result's per-split sample counts are checked
  against the split names.
- `load_task` appends a task read from its per-split files and sets
  `contains_loaded_tasks`.
- `TaskGenIter` is a cursor over the pool. It grows the pool through `add_task`
  when it reaches the end and treats an `IndexError` as the end of the stream.
- `get_similarity` and `get_similarities` compare tasks along the axes `x`
  (transformation), `y` (attributes) and `z` (concepts). `get_similarities`
  fills one symmetric matrix per axis from the upper triangle.
- `_generate_samples_from_descr` and `augment_samples` synthesize samples. Each
  split is the categories' blocks in category order, labelled with the
  category index. The test-time-augmented split has five entries per drawn
  sample. A category that draws nothing for that split makes `torch.stack`
  raise on an empty list.

Files:

- `wrappers.dfy`: `Error` (one constructor per exception class that reaches a
  caller, including the `RuntimeError` of `torch.stack` on an empty list), `Option` and `Result`.
- `stream_types.dfy`: opaque concepts, transformations, samples and similarity
  scores; `TaskSpec`, `Task` and `SplitData`. The collaborators (concept pool,
  transformation pool, strategy, image perturbations) are records of the
  functions the generator calls.
- `sample_layout.dfy`: `augment_samples` and `_generate_samples_from_descr` as
  loop methods, each proved equal to a specification function. Lemmas give the
  exact layout of that function's result.
- `task_generator.dfy`: the `TaskGenerator` class (fields `taskPool` and
  `containsLoadedTasks`, invariant `Valid()`: one sample count per split name
  and `taskPool[i].id == i`) and the `TaskGenIter` class (cursor `n`).

Randomness is modelled as nondeterministic choice (`:|`):

- the attribute indices of `rnd.sample`;
- the seed `rnd.randint(0, 10**9)` derived for each synthesis.

Methods that make such a choice return it as a ghost out-parameter. Their
result is then stated exactly as a function of that choice.

`augment_samples` emits the four variants of each input side by side, input by
input, and then the unperturbed copies (lines 46-50). The order is per sample,
not variant-major.

## Model

| member | source | states |
|---|---|---|
| `SampleLayout.AugmentSamples` | ctrl/tasks/task_generator.py:37-52 | the two appending loops build exactly `Augmented(samples)`: the perturbed variants input by input, then the unperturbed copies; `torch.stack` raises `RuntimeError` exactly when the batch is empty |
| `SampleLayout.AugmentedLayout` | ctrl/tasks/task_generator.py:45-52 | m inputs give 5m outputs; output `4i+k` (k < 4) is variant k of input i, and output `4m+i` is the unperturbed copy of input i (per-sample, not variant-major, order) |
| `SampleLayout.PerturbedAt` | ctrl/tasks/task_generator.py:46-48 | the first loop yields 4m samples, four consecutive variants per input, in input order |
| `SampleLayout.GenerateSamplesFromDescr` | ctrl/tasks/task_generator.py:55-87 | the nested category/split loop followed by the per-split concatenation returns exactly `Generated(...)`, including its error cases (an empty draw on an augmented split stops the loop with `RuntimeError`) |
| `SampleLayout.DrawCategory` | ctrl/tasks/task_generator.py:64-79 | one pass of the inner loop: for every split, category i's drawn samples (augmented where flagged) and one label i per sample; it raises `RuntimeError` exactly when some augmented split draws nothing for category i |
| `SampleLayout.ConcatPerSplit` | ctrl/tasks/task_generator.py:80-85 | `zip(*samples)` then concatenation: one output per split, namely that split's blocks from every category laid end to end in category order |
| `SampleLayout.Generated` | ctrl/tasks/task_generator.py:52-85 | fails exactly when `use_cat_id` is false or attributes are requested (`AssertionError`), when some category draws nothing for an augmented split (`torch.stack([])` raises `RuntimeError`), or when there is no category or no split (`samples[0][0]` raises `IndexError`); otherwise returns one `(samples, labels)` pair per split |
| `SampleLayout.ZeroCountOnAugmentedSplitRaises` | ctrl/tasks/task_generator.py:52-71 | with an exact pool, a zero count on an augmented split makes the synthesis raise `RuntimeError` |
| `SampleLayout.OneLabelPerSample` | ctrl/tasks/task_generator.py:72-77 | every split carries exactly one label per sample, whatever the pool draws |
| `SampleLayout.DrawnLength` | ctrl/tasks/task_generator.py:67-71 | when the concept pool returns the n samples asked for, a category contributes 5n samples to an augmented split and n otherwise |
| `SampleLayout.SplitLayout` | ctrl/tasks/task_generator.py:63-85 | with an exact pool, split s is k blocks of m entries (k categories); entry j of block i, at position `i*m+j`, is the j-th sample drawn for category i and has label i |
| `SampleLayout.SplitEntry` | ctrl/tasks/task_generator.py:72-85 | one entry of that layout: its position lies inside the split, its label is its category and its sample is the one drawn |
| `SampleLayout.ConcatAt` | ctrl/tasks/task_generator.py:84-85 | concatenating blocks of m entries puts entry j of block i at `BlockAt(i, j, m)` |
| `SampleLayout.BlockAtIsOffset` | ctrl/tasks/task_generator.py:84-85 | `BlockAt(i, j, m)` is `i*m + j` |
| `TaskGeneration.TaskGenerator.Create` | ctrl/tasks/task_generator.py:109-147 | construction succeeds exactly when there is one sample count per split name (otherwise `AssertionError`); a new generator keeps every argument as its configuration, has an empty pool and has loaded no task |
| `TaskGeneration.TaskGenerator.NTasks` | ctrl/tasks/task_generator.py:149-151 | `n_tasks` is the pool size and exceeds every id in the pool, so the next id is unused |
| `TaskGeneration.TaskGenerator.AddTask` | ctrl/tasks/task_generator.py:153-186 | on success the pool becomes the old pool plus the returned task; on failure the pool is unchanged; the outcome is `NextTask` of the old pool; `taskPool[i].id == i` is kept and the loaded flag is untouched |
| `TaskGeneration.TaskGenerator.NextTask` | ctrl/tasks/task_generator.py:161-186 | a created task has `id == len(task_pool)`, one split per split name and the evolved spec as provenance; every failure of the spec step is passed through unchanged |
| `TaskGeneration.TaskGenerator.Evolved` | ctrl/tasks/task_generator.py:163-181 | the first candidate comes from `_create_new_task` (its failure propagates), later ones copy the last task's provenance (`TypeError` if it has none); every candidate then passes through `strat.new_task`, and a result whose sample-count list differs in length from `split_names` is an `AssertionError` |
| `TaskGeneration.TaskGenerator.CreateNewTask` | ctrl/tasks/task_generator.py:299-314 | propagates `get_compatible_concepts` failures; raises `ValueError` when `n_attributes` exceeds the pool's attributes; otherwise returns the concepts wrapped one per group, `n_attributes` distinct indices below the number available, `(use_cat_id, indices)`, the pool's transformation and the default per-split counts |
| `TaskGeneration.SingletonsRoundTrip` | ctrl/tasks/task_generator.py:311 | the wrapping gives one group per concept, each of size 1, and flattening the groups returns the concepts in order |
| `TaskGeneration.TaskGenerator.LoadTask` | ctrl/tasks/task_generator.py:188-208 | succeeds exactly when all three split files exist, else `AssertionError` with pool and flag unchanged; on success appends one task with `id == len(task_pool)`, the loaded splits in order, the file paths, the metadata (empty when absent), and sets `contains_loaded_tasks` |
| `TaskGeneration.TaskGenerator.Loaded` | ctrl/tasks/task_generator.py:203-206 | the loaded task has the given id, one split per file in file order, the generator's split names and the metadata's provenance |
| `TaskGeneration.TaskGenerator.CreateTask` | ctrl/tasks/task_generator.py:210-225 | `_create_task` returns `Built(spec, ...)` for the seed it drew |
| `TaskGeneration.TaskGenerator.Built` | ctrl/tasks/task_generator.py:210-225 | a built task carries the spec as provenance, the generator's split names and one split per requested sample count |
| `TaskGeneration.TaskGenerator.GetSamples` | ctrl/tasks/task_generator.py:280-289 | draws a seed in `[0, 10**9]` and returns `Materialized(spec, seed)`: synthesis with split 1 augmented iff `tta`, then the transformation on every split |
| `TaskGeneration.TaskGenerator.Materialized` | ctrl/tasks/task_generator.py:283-289 | one `(samples, labels)` pair per requested split count |
| `TaskGeneration.TaskGenerator.Augment` | ctrl/tasks/task_generator.py:282 | exactly split 1 is augmented, and only when `tta` is set |
| `TaskGeneration.TaskGenerator.MaterializedLayout` | ctrl/tasks/task_generator.py:57-87 | with an exact pool, split s of a task over k concept groups has k·5n samples on the augmented split and k·n otherwise; entry `i*m+j` is the transformed j-th sample of group i, with label i |
| `TaskGeneration.TaskGenerator.AxisSimilarity` | ctrl/tasks/task_generator.py:264-276 | defined exactly for `x`, `y`, `z` (to `transformations_sim`, `y_attributes_sim`, `categories_sim`); any other character is a `ValueError` |
| `TaskGeneration.TaskGenerator.GetSimilarity` | ctrl/tasks/task_generator.py:259-278 | succeeds exactly when every component character is an axis (default `"xyz"`), else `ValueError`; returns one similarity per character, in order |
| `TaskGeneration.TaskGenerator.GetSimilarities` | ctrl/tasks/task_generator.py:227-257 | one n_tasks × n_tasks matrix per component character; entry `[a][b]` (a ≤ b) is the similarity of tasks a and b, and the matrix is symmetric (so every cell is written and the diagonal is self-similarity); exactly n(n+1)/2 `get_similarity` calls; fails with `ValueError` exactly when the pool is non-empty and a character is not an axis |
| `TaskGeneration.TaskGenerator.SetSymmetric` | ctrl/tasks/task_generator.py:248-249 | writes the similarity vector into cells `[i, j]` and `[j, i]` and leaves every other cell alone |
| `TaskGeneration.TaskGenerator.Layer` | ctrl/tasks/task_generator.py:256 | `unbind(-1)`: layer k of the array, as an n × n matrix |
| `TaskGeneration.LastIndex` | ctrl/tasks/task_generator.py:256 | `dict(zip(component, layers))` keeps, for a repeated character, the layer of its last occurrence |
| `TaskGeneration.TriangleClosedForm` | ctrl/tasks/task_generator.py:243-245 | the first i rows of the upper-triangle loop make `i(2n-i+1)/2` calls, so the whole loop makes `n(n+1)/2` |
| `TaskGeneration.TaskGenerator.StreamInfos` | ctrl/tasks/task_generator.py:291-297 | one info record per task, in pool order, with `full` defaulting to true |
| `TaskGeneration.TaskGenIter.constructor` | ctrl/tasks/task_generator.py:91-93 | a fresh cursor is at 0 over the given generator |
| `TaskGeneration.TaskGenIter.Next` | ctrl/tasks/task_generator.py:95-105 | below the pool end, returns `task_pool[n]` and leaves the pool unchanged. At the end, returns `add_task`'s task appended to the pool, ends the stream on `IndexError` and passes any other exception on. Past the end, raises `AssertionError`. `n` advances by one exactly when a task is returned, and that task's id is the old `n` |
| `TaskGeneration.StepOf` | ctrl/tasks/task_generator.py:100-103 | an `IndexError` from `add_task` becomes the end of the stream, a task is yielded, and every other exception is re-raised |

## Left out

- `loss` (lines 22-34), tensor contents, and the `flatten` reshape of `_create_task` (lines 218-219) are not modelled: samples are opaque values and the `flatten` flag is not part of the model.
- Timing and the one-second warning in `get_similarity`/`get_similarities` (lines 242, 250-254, 265, 277) are not modelled. `GetSimilarity` returns only the similarity list, not the list of elapsed times.
- The generator's random source (`random.Random(seed)`, line 137) is not modelled. `rnd.sample` and `rnd.randint` are nondeterministic choices, so the model does not state that two generators built with the same seed produce the same stream.
- `SampleLayout.Drawn`: the random stream that one synthesis call threads through its draws is modelled by the derived seed and the position of the draw (category, split) in `DrawRequest`.
- `augment_samples`'s random flips and crops come from torchvision's global random state. `perturb(x, k)` is a fixed function of the sample and the variant number.
- `get_compatible_concepts` and `get_transformation` are modelled as fixed results of the pool. The pools' own random state is not modelled.
- The strategy's `new_task` is a function of the candidate spec and the pool. The two pools it also receives are fixed for a generator and not passed.
- A transformation is applied to a batch sample by sample (`TransformationPool.apply`). This is what lets the per-split sample counts carry over to a task.
- `load_task`'s path formatting, `os.path.isfile` and `torch.load` (lines 192-202) are not modelled. The three split files arrive as inputs (path and contents when present), and the metadata file arrives as an optional input.
- `Metadata`: the metadata file is modelled as a whole provenance record or nothing. Partial metadata and the `Task` constructor's defaults are not modelled, because ctrl/tasks/task.py is not part of this model.
- `TaskGeneration.TaskGenerator.AddTask`: the strategy is assumed not to mutate its arguments. In the source the candidate spec shares the last task's `src_concepts`, `attributes` and `n_samples_per_class` objects (lines 167-175), and `new_task` receives the live `task_pool` (line 180), so a strategy that mutated them in place would change earlier tasks. The model's "earlier entries are untouched" rests on that assumption.
- `TaskGeneration.TaskGenerator.Evolved`: when the last task was loaded without provenance, the source would hand `None` fields on to the strategy. The model stops there with `TypeError`.
- `TaskGeneration.TaskGenerator.Built`: the id of a task straight out of `_create_task` is a placeholder 0 (the `Task` default is not part of this model). `add_task` then overwrites it.
- Exceptions raised inside collaborators are not modelled, except by `get_compatible_concepts` and `new_task`. The draws, the similarity functions and `apply` are total.
- `np.concatenate` versus `torch.cat` (line 80): both concatenate in the same order, so the choice between them is not modelled.
- `__str__`, `__iter__` (a fresh `TaskGenIter` at 0, which the constructor models) and logging are left out.
