/** Sample synthesis: `augment_samples` and `_generate_samples_from_descr`.
    Samples are opaque; what is modelled is how many of them there are, in
    which order they come, and which label each one gets. */
module SampleLayout {
  import opened Wrappers
  import opened StreamTypes

  // ---------------------------------------------------------------------------
  // augment_samples

  /** The four perturbed variants of one sample, in variant order. */
  function Variants(aug: Augmenter, x: Sample): seq<Sample> {
    [aug.perturb(x, 0), aug.perturb(x, 1), aug.perturb(x, 2), aug.perturb(x, 3)]
  }

  /** The first part of an augmented batch: the variants of each input, input by input. */
  function Perturbed(aug: Augmenter, xs: seq<Sample>): seq<Sample>
    decreases |xs|
  {
    if xs == [] then [] else Perturbed(aug, xs[..|xs| - 1]) + Variants(aug, xs[|xs| - 1])
  }

  /** The second part of an augmented batch: one unperturbed copy of each input. */
  function Reencoded(aug: Augmenter, xs: seq<Sample>): seq<Sample> {
    seq(|xs|, i requires 0 <= i < |xs| => aug.reencode(xs[i]))
  }

  /** The batch `augment_samples` stacks. */
  function Augmented(aug: Augmenter, xs: seq<Sample>): seq<Sample> {
    Perturbed(aug, xs) + Reencoded(aug, xs)
  }

  lemma {:induction false} PerturbedAt(aug: Augmenter, xs: seq<Sample>)
    ensures |Perturbed(aug, xs)| == 4 * |xs|
    ensures forall i, k :: 0 <= i < |xs| && 0 <= k < 4 ==>
              Perturbed(aug, xs)[4 * i + k] == aug.perturb(xs[i], k)
    decreases |xs|
  {
    if xs != [] {
      var init := xs[..|xs| - 1];
      PerturbedAt(aug, init);
      forall i, k | 0 <= i < |xs| && 0 <= k < 4
        ensures Perturbed(aug, xs)[4 * i + k] == aug.perturb(xs[i], k)
      {
        if i < |xs| - 1 {
          assert xs[i] == init[i];
        }
      }
    }
  }

  /** An augmented batch of m inputs has 5m samples: for every input in order its
      four perturbed variants side by side, then the m unperturbed copies in input
      order. */
  lemma AugmentedLayout(aug: Augmenter, xs: seq<Sample>)
    ensures |Augmented(aug, xs)| == 5 * |xs|
    ensures forall i, k :: 0 <= i < |xs| && 0 <= k < 4 ==>
              Augmented(aug, xs)[4 * i + k] == aug.perturb(xs[i], k)
    ensures forall i :: 0 <= i < |xs| ==>
              Augmented(aug, xs)[4 * |xs| + i] == aug.reencode(xs[i])
  {
    PerturbedAt(aug, xs);
  }

  /** `augment_samples`: the two appending loops, then `torch.stack`, which
      raises on an empty batch. */
  method AugmentSamples(aug: Augmenter, samples: seq<Sample>) returns (r: Result<seq<Sample>>)
    ensures r.Err? <==> samples == []
    ensures r.Err? ==> r.error == RuntimeError
    ensures r.Ok? ==> r.value == Augmented(aug, samples)
  {
    var augSamples := [];
    var s := 0;
    while s < |samples|
      invariant 0 <= s <= |samples|
      invariant augSamples == Perturbed(aug, samples[..s])
    {
      var k := 0;
      while k < 4
        invariant 0 <= k <= 4
        invariant augSamples == Perturbed(aug, samples[..s]) + Variants(aug, samples[s])[..k]
      {
        augSamples := augSamples + [aug.perturb(samples[s], k)];
        k := k + 1;
      }
      assert samples[..s + 1][..s] == samples[..s];
      s := s + 1;
    }
    assert samples[..s] == samples;
    ghost var head := augSamples;
    s := 0;
    while s < |samples|
      invariant 0 <= s <= |samples|
      invariant augSamples == head + Reencoded(aug, samples[..s])
    {
      augSamples := augSamples + [aug.reencode(samples[s])];
      s := s + 1;
    }
    assert samples[..s] == samples;
    if augSamples == [] {
      return Err(RuntimeError);
    }
    r := Ok(augSamples);
  }

  // ---------------------------------------------------------------------------
  // _generate_samples_from_descr

  /** What one synthesis call draws from: the concept pool, the image
      perturbations, the indices of the splits to augment and the seed derived
      for this call. */
  datatype Sampler = Sampler(pool: ConceptPool, augmenter: Augmenter, augment: seq<nat>, seed: nat)

  /** `n` copies of label `v`. */
  function Repeat(v: nat, n: nat): (r: seq<nat>)
    ensures |r| == n && forall p :: 0 <= p < n ==> r[p] == v
  {
    seq(n, _ => v)
  }

  /** The blocks of `bs` laid end to end, in order. */
  function Concat<T>(bs: seq<seq<T>>): seq<T>
    decreases |bs|
  {
    if bs == [] then [] else Concat(bs[..|bs| - 1]) + bs[|bs| - 1]
  }

  /** `k` blocks of `m` entries, counted by repeated addition (which keeps the
      proofs below free of non-linear arithmetic). */
  function Times(k: nat, m: nat): nat {
    if k == 0 then 0 else Times(k - 1, m) + m
  }

  lemma {:induction false} TimesIsProduct(k: nat, m: nat)
    ensures Times(k, m) == k * m
  {
    if k > 0 {
      TimesIsProduct(k - 1, m);
      assert (k - 1) * m + m == k * m;
    }
  }

  /** Position of entry `j` of block `i` when every block has `m` entries. */
  function BlockAt(i: nat, j: nat, m: nat): nat {
    Times(i, m) + j
  }

  lemma BlockAtIsOffset(i: nat, j: nat, m: nat)
    ensures BlockAt(i, j, m) == i * m + j
  {
    TimesIsProduct(i, m);
  }

  lemma {:induction false} BlockIndex(i: nat, j: nat, k: nat, m: nat)
    requires i < k && j < m
    ensures BlockAt(i, j, m) < Times(k, m)
  {
    if i < k - 1 {
      BlockIndex(i, j, k - 1, m);
    }
  }

  /** `k` blocks of `m` entries each concatenate to `k` times `m` entries. */
  lemma {:induction false} ConcatLength<T>(bs: seq<seq<T>>, m: nat)
    requires forall i :: 0 <= i < |bs| ==> |bs[i]| == m
    ensures |Concat(bs)| == Times(|bs|, m)
    decreases |bs|
  {
    if bs != [] {
      ConcatLength(bs[..|bs| - 1], m);
    }
  }

  /** In a concatenation of blocks of `m` entries, entry `j` of block `i` sits at
      `BlockAt(i, j, m)`. */
  lemma {:induction false} ConcatAt<T>(bs: seq<seq<T>>, m: nat, i: nat, j: nat)
    requires forall k :: 0 <= k < |bs| ==> |bs[k]| == m
    requires i < |bs| && j < m
    ensures BlockAt(i, j, m) < |Concat(bs)|
    ensures Concat(bs)[BlockAt(i, j, m)] == bs[i][j]
    decreases |bs|
  {
    var init := bs[..|bs| - 1];
    ConcatLength(bs, m);
    ConcatLength(init, m);
    BlockIndex(i, j, |bs|, m);
    if i < |bs| - 1 {
      ConcatAt(init, m, i, j);
    }
  }

  /** Two block sequences whose blocks have pairwise equal lengths concatenate to
      sequences of equal length. */
  lemma {:induction false} ConcatSameShape<T, U>(bs: seq<seq<T>>, cs: seq<seq<U>>)
    requires |bs| == |cs|
    requires forall i :: 0 <= i < |bs| ==> |bs[i]| == |cs[i]|
    ensures |Concat(bs)| == |Concat(cs)|
    decreases |bs|
  {
    if bs != [] {
      ConcatSameShape(bs[..|bs| - 1], cs[..|cs| - 1]);
    }
  }

  /** What the pool returns for category `i` on split `s` (`n` requested). */
  function Draw(sm: Sampler, categories: seq<ConceptGroup>, i: nat, s: nat, n: nat): seq<Sample>
    requires i < |categories|
  {
    sm.pool.draw(DrawRequest(sm.seed, i, categories[i], s, n))
  }

  /** The samples category `i` contributes to split `s` (`n` requested), augmented
      when the split is flagged. */
  function Drawn(sm: Sampler, categories: seq<ConceptGroup>, i: nat, s: nat, n: nat): seq<Sample>
    requires i < |categories|
  {
    var drawn := Draw(sm, categories, i, s, n);
    if s in sm.augment then Augmented(sm.augmenter, drawn) else drawn
  }

  /** Some category draws nothing for an augmented split, so `augment_samples`
      stacks an empty list. */
  predicate EmptyAugmentedDraw(sm: Sampler, categories: seq<ConceptGroup>, counts: seq<nat>) {
    exists i, s :: 0 <= i < |categories| && 0 <= s < |counts| && s in sm.augment
                   && Draw(sm, categories, i, s, counts[s]) == []
  }

  /** The per-category blocks of split `s`, in category order. */
  function SampleBlocks(sm: Sampler, categories: seq<ConceptGroup>, s: nat, n: nat): seq<seq<Sample>> {
    seq(|categories|, i requires 0 <= i < |categories| => Drawn(sm, categories, i, s, n))
  }

  /** The label blocks matching `blocks`: category `i` once per sample of block `i`. */
  function LabelBlocks(blocks: seq<seq<Sample>>): seq<seq<nat>> {
    seq(|blocks|, i requires 0 <= i < |blocks| => Repeat(i, |blocks[i]|))
  }

  /** What `_generate_samples_from_descr` returns: one `(samples, labels)` pair per
      split, each the concatenation of the categories' blocks. */
  function Generated(sm: Sampler, categories: seq<ConceptGroup>, attributes: Attributes, counts: seq<nat>)
    : (r: Result<seq<SplitData>>)
    ensures r.Err? <==> !attributes.useCatId || attributes.indices != [] || EmptyAugmentedDraw(sm, categories, counts)
                        || categories == [] || counts == []
    ensures r.Err? ==> r.error == (if !attributes.useCatId || attributes.indices != [] then AssertionError
                                   else if EmptyAugmentedDraw(sm, categories, counts) then RuntimeError
                                   else IndexError)
    ensures r.Ok? ==> |r.value| == |counts|
  {
    if !attributes.useCatId || attributes.indices != [] then Err(AssertionError)
    else if EmptyAugmentedDraw(sm, categories, counts) then Err(RuntimeError)
    else if |categories| == 0 || |counts| == 0 then Err(IndexError)
    else Ok(seq(|counts|, s requires 0 <= s < |counts| =>
              SplitData(Concat(SampleBlocks(sm, categories, s, counts[s])),
                        Concat(LabelBlocks(SampleBlocks(sm, categories, s, counts[s]))))))
  }

  /** Every split of a synthesis carries exactly one label per sample. */
  lemma OneLabelPerSample(sm: Sampler, categories: seq<ConceptGroup>, attributes: Attributes, counts: seq<nat>)
    requires Generated(sm, categories, attributes, counts).Ok?
    ensures forall s :: 0 <= s < |counts| ==>
              |Generated(sm, categories, attributes, counts).value[s].labels|
              == |Generated(sm, categories, attributes, counts).value[s].samples|
  {
    forall s | 0 <= s < |counts|
      ensures |Concat(LabelBlocks(SampleBlocks(sm, categories, s, counts[s])))|
              == |Concat(SampleBlocks(sm, categories, s, counts[s]))|
    {
      var blocks := SampleBlocks(sm, categories, s, counts[s]);
      ConcatSameShape(LabelBlocks(blocks), blocks);
    }
  }

  /** With an exact pool, asking for no samples on an augmented split makes
      `augment_samples` stack an empty list, so the synthesis raises. */
  lemma ZeroCountOnAugmentedSplitRaises(sm: Sampler, categories: seq<ConceptGroup>, attributes: Attributes,
                                        counts: seq<nat>, s: nat)
    requires ExactDraws(sm.pool)
    requires attributes.useCatId && attributes.indices == []
    requires categories != [] && s < |counts| && s in sm.augment && counts[s] == 0
    ensures Generated(sm, categories, attributes, counts) == Err(RuntimeError)
  {
    assert |Draw(sm, categories, 0, s, counts[s])| == 0;
  }

  /** How many entries one category contributes to split `s` when `n` are requested. */
  function PerCategory(augment: seq<nat>, s: nat, n: nat): nat {
    if s in augment then 5 * n else n
  }

  /** With an exact pool, a category contributes `PerCategory` samples to a split. */
  lemma DrawnLength(sm: Sampler, categories: seq<ConceptGroup>, i: nat, s: nat, n: nat)
    requires ExactDraws(sm.pool)
    requires i < |categories|
    ensures |Drawn(sm, categories, i, s, n)| == PerCategory(sm.augment, s, n)
  {
    var drawn := Draw(sm, categories, i, s, n);
    assert |drawn| == n;
    if s in sm.augment {
      AugmentedLayout(sm.augmenter, drawn);
    }
  }

  /** With an exact pool, every block of split `s` has `m` entries, and so does
      every label block. */
  lemma UniformBlocks(sm: Sampler, categories: seq<ConceptGroup>, s: nat, n: nat, m: nat)
    requires ExactDraws(sm.pool)
    requires m == PerCategory(sm.augment, s, n)
    ensures forall i :: 0 <= i < |categories| ==>
              |SampleBlocks(sm, categories, s, n)[i]| == m
              && |LabelBlocks(SampleBlocks(sm, categories, s, n))[i]| == m
  {
    forall i | 0 <= i < |categories|
      ensures |SampleBlocks(sm, categories, s, n)[i]| == m
    {
      DrawnLength(sm, categories, i, s, n);
    }
  }

  /** One entry of a split's layout. */
  lemma SplitEntry(sm: Sampler, categories: seq<ConceptGroup>, s: nat, n: nat, m: nat, i: nat, j: nat)
    requires ExactDraws(sm.pool)
    requires m == PerCategory(sm.augment, s, n)
    requires i < |categories| && j < m
    ensures BlockAt(i, j, m) < |Concat(SampleBlocks(sm, categories, s, n))|
    ensures BlockAt(i, j, m) < |Concat(LabelBlocks(SampleBlocks(sm, categories, s, n)))|
    ensures Concat(LabelBlocks(SampleBlocks(sm, categories, s, n)))[BlockAt(i, j, m)] == i
    ensures j < |Drawn(sm, categories, i, s, n)|
    ensures Concat(SampleBlocks(sm, categories, s, n))[BlockAt(i, j, m)] == Drawn(sm, categories, i, s, n)[j]
  {
    var blocks := SampleBlocks(sm, categories, s, n);
    UniformBlocks(sm, categories, s, n, m);
    ConcatAt(blocks, m, i, j);
    ConcatAt(LabelBlocks(blocks), m, i, j);
  }

  /** The layout of a split: with an exact pool, split `s` of `k` categories is `k`
      blocks of `m` entries (`m` is 5n on an augmented split, n otherwise); entry
      `j` of block `i`, at position `BlockAt(i, j, m)` (that is `i * m + j`, by
      `BlockAtIsOffset`), is sample `j` drawn for category `i` and carries label `i`. */
  lemma SplitLayout(sm: Sampler, categories: seq<ConceptGroup>, s: nat, n: nat, m: nat)
    requires ExactDraws(sm.pool)
    requires m == PerCategory(sm.augment, s, n)
    ensures |Concat(SampleBlocks(sm, categories, s, n))| == |categories| * m
    ensures |Concat(LabelBlocks(SampleBlocks(sm, categories, s, n)))| == |categories| * m
    ensures forall i, j :: 0 <= i < |categories| && 0 <= j < m ==>
              BlockAt(i, j, m) < |Concat(SampleBlocks(sm, categories, s, n))|
              && BlockAt(i, j, m) < |Concat(LabelBlocks(SampleBlocks(sm, categories, s, n)))|
              && j < |Drawn(sm, categories, i, s, n)|
              && Concat(LabelBlocks(SampleBlocks(sm, categories, s, n)))[BlockAt(i, j, m)] == i
              && Concat(SampleBlocks(sm, categories, s, n))[BlockAt(i, j, m)] == Drawn(sm, categories, i, s, n)[j]
  {
    var blocks := SampleBlocks(sm, categories, s, n);
    UniformBlocks(sm, categories, s, n, m);
    ConcatLength(blocks, m);
    ConcatLength(LabelBlocks(blocks), m);
    TimesIsProduct(|categories|, m);
    forall i, j | 0 <= i < |categories| && 0 <= j < m
      ensures BlockAt(i, j, m) < |Concat(blocks)| && BlockAt(i, j, m) < |Concat(LabelBlocks(blocks))|
      ensures Concat(LabelBlocks(blocks))[BlockAt(i, j, m)] == i
      ensures j < |Drawn(sm, categories, i, s, n)|
      ensures Concat(blocks)[BlockAt(i, j, m)] == Drawn(sm, categories, i, s, n)[j]
    {
      SplitEntry(sm, categories, s, n, m, i, j);
    }
  }

  /** `_generate_samples_from_descr`: the loop over categories and splits that draws
      (and augments) the samples and labels each category contributes to each
      split, then the per-split concatenation. */
  method GenerateSamplesFromDescr(sm: Sampler, categories: seq<ConceptGroup>, attributes: Attributes,
                                  counts: seq<nat>)
    returns (r: Result<seq<SplitData>>)
    ensures r == Generated(sm, categories, attributes, counts)
  {
    if !attributes.useCatId || attributes.indices != [] {
      return Err(AssertionError);
    }
    var samples: seq<seq<seq<Sample>>> := [];
    var labels: seq<seq<seq<nat>>> := [];
    var i := 0;
    while i < |categories|
      invariant 0 <= i <= |categories|
      invariant |samples| == i && |labels| == i
      invariant forall c :: 0 <= c < i ==> |samples[c]| == |counts| && |labels[c]| == |counts|
      invariant forall c, s :: 0 <= c < i && 0 <= s < |counts| ==>
                  samples[c][s] == SampleBlocks(sm, categories, s, counts[s])[c]
                  && labels[c][s] == LabelBlocks(SampleBlocks(sm, categories, s, counts[s]))[c]
      invariant forall c, s :: 0 <= c < i && 0 <= s < |counts| && s in sm.augment ==>
                  Draw(sm, categories, c, s, counts[s]) != []
    {
      var row := DrawCategory(sm, categories, counts, i);
      if row.Err? {
        var t :| 0 <= t < |counts| && t in sm.augment && Draw(sm, categories, i, t, counts[t]) == [];
        assert EmptyAugmentedDraw(sm, categories, counts);
        return Err(row.error);
      }
      var (catSamples, catLabels) := row.value;
      samples := samples + [catSamples];
      labels := labels + [catLabels];
      i := i + 1;
    }
    assert !EmptyAugmentedDraw(sm, categories, counts);
    // `samples[0][0]` raises when there is no category or no split
    if |samples| == 0 || |samples[0]| == 0 {
      return Err(IndexError);
    }
    var out := ConcatPerSplit(samples, labels, |counts|);
    forall s | 0 <= s < |counts|
      ensures out[s] == Generated(sm, categories, attributes, counts).value[s]
    {
      var blocks := SampleBlocks(sm, categories, s, counts[s]);
      assert Column(samples, s) == blocks;
      assert Column(labels, s) == LabelBlocks(blocks);
    }
    assert out == Generated(sm, categories, attributes, counts).value;
    r := Ok(out);
  }

  /** One pass of the inner loop of `_generate_samples_from_descr`: the samples
      (augmented where flagged) and labels category `i` contributes to each split,
      or the `RuntimeError` of an empty augmented draw. */
  method DrawCategory(sm: Sampler, categories: seq<ConceptGroup>, counts: seq<nat>, i: nat)
    returns (r: Result<(seq<seq<Sample>>, seq<seq<nat>>)>)
    requires i < |categories|
    ensures r.Err? <==> exists t :: 0 <= t < |counts| && t in sm.augment && Draw(sm, categories, i, t, counts[t]) == []
    ensures r.Err? ==> r.error == RuntimeError
    ensures r.Ok? ==> |r.value.0| == |counts| && |r.value.1| == |counts|
    ensures r.Ok? ==> forall t :: 0 <= t < |counts| ==>
                        r.value.0[t] == Drawn(sm, categories, i, t, counts[t])
                        && r.value.1[t] == Repeat(i, |r.value.0[t]|)
  {
    var catSamples: seq<seq<Sample>> := [];
    var catLabels: seq<seq<nat>> := [];
    var s := 0;
    while s < |counts|
      invariant 0 <= s <= |counts|
      invariant |catSamples| == s && |catLabels| == s
      invariant forall t :: 0 <= t < s ==>
                  catSamples[t] == Drawn(sm, categories, i, t, counts[t])
                  && catLabels[t] == Repeat(i, |catSamples[t]|)
      invariant forall t :: 0 <= t < s && t in sm.augment ==> Draw(sm, categories, i, t, counts[t]) != []
    {
      var splitSamples := sm.pool.draw(DrawRequest(sm.seed, i, categories[i], s, counts[s]));
      if s in sm.augment {
        var augmented := AugmentSamples(sm.augmenter, splitSamples);
        if augmented.Err? {
          assert Draw(sm, categories, i, s, counts[s]) == [];
          return Err(augmented.error);
        }
        splitSamples := augmented.value;
      }
      assert splitSamples == Drawn(sm, categories, i, s, counts[s]);
      var splitLabels := Repeat(i, |splitSamples|);
      catSamples := catSamples + [splitSamples];
      catLabels := catLabels + [splitLabels];
      s := s + 1;
    }
    r := Ok((catSamples, catLabels));
  }

  /** Split `s` of every category: `zip(*rows)` picks this column. */
  function Column<T>(rows: seq<seq<seq<T>>>, s: nat): seq<seq<T>>
    requires forall c :: 0 <= c < |rows| ==> s < |rows[c]|
  {
    seq(|rows|, c requires 0 <= c < |rows| => rows[c][s])
  }

  /** The end of `_generate_samples_from_descr`: for each split, the categories'
      samples (and labels) for that split, concatenated in category order. */
  method ConcatPerSplit(samples: seq<seq<seq<Sample>>>, labels: seq<seq<seq<nat>>>, nSplits: nat)
    returns (out: seq<SplitData>)
    requires |labels| == |samples|
    requires forall c :: 0 <= c < |samples| ==> |samples[c]| == nSplits && |labels[c]| == nSplits
    ensures |out| == nSplits
    ensures forall s :: 0 <= s < nSplits ==>
              out[s] == SplitData(Concat(Column(samples, s)), Concat(Column(labels, s)))
  {
    out := [];
    var s := 0;
    while s < nSplits
      invariant 0 <= s <= nSplits
      invariant |out| == s
      invariant forall t :: 0 <= t < s ==>
                  out[t] == SplitData(Concat(Column(samples, t)), Concat(Column(labels, t)))
    {
      var xs: seq<Sample> := [];
      var ys: seq<nat> := [];
      var c := 0;
      while c < |samples|
        invariant 0 <= c <= |samples|
        invariant xs == Concat(Column(samples, s)[..c])
        invariant ys == Concat(Column(labels, s)[..c])
      {
        assert Column(samples, s)[..c + 1][..c] == Column(samples, s)[..c];
        assert Column(labels, s)[..c + 1][..c] == Column(labels, s)[..c];
        xs := xs + samples[c][s];
        ys := ys + labels[c][s];
        c := c + 1;
      }
      assert Column(samples, s)[..c] == Column(samples, s);
      assert Column(labels, s)[..c] == Column(labels, s);
      out := out + [SplitData(xs, ys)];
      s := s + 1;
    }
  }
}
