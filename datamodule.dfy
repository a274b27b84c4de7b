/** `OneLayerDataModule`: holds the loader configuration and, once `setup` has
    run, the training and validation subsets of a `OneLayerDataset`. */
module DataModule {
  import opened Datasets

  datatype Option<T> = None | Some(value: T)

  /** `range(lo, hi)`: the integers lo, lo + 1, ..., hi - 1 in order. */
  function Range(lo: int, hi: int): (r: seq<int>)
    requires lo <= hi
  {
    seq(hi - lo, i requires 0 <= i < hi - lo => lo + i)
  }

  /** Membership in `range(lo, hi)`. */
  lemma RangeMembers(lo: int, hi: int)
    requires lo <= hi
    ensures |Range(lo, hi)| == hi - lo
    ensures forall x :: x in Range(lo, hi) <==> lo <= x < hi
  {
    forall x | lo <= x < hi
      ensures x in Range(lo, hi)
    {
      assert Range(lo, hi)[x - lo] == x;
    }
  }

  /** `int(n * 0.8)`: the size of the training range, the largest t with
      5t <= 4n. */
  function TrainSize(n: nat): (t: nat)
    ensures t <= n
    ensures 5 * t <= 4 * n < 5 * t + 5
  {
    n * 4 / 5
  }

  /** `a` and `b` share no index and together hold exactly the indices of
      `[0, n)`. */
  ghost predicate Partitions(a: seq<int>, b: seq<int>, n: nat) {
    (forall x :: x in a ==> x !in b) &&
    (forall x :: 0 <= x < n <==> x in a || x in b)
  }

  /** Cutting `[0, n)` at any t: the training range `[0, t)` followed by the
      validation range `[t, n)` is `[0, n)` itself, so the two are disjoint,
      together cover `[0, n)`, and the training range has t indices. */
  lemma SplitAt(n: nat, t: nat)
    requires t <= n
    ensures Range(0, t) + Range(t, n) == Range(0, n)
    ensures |Range(0, t)| == t && |Range(t, n)| == n - t
    ensures Partitions(Range(0, t), Range(t, n), n)
  {
    RangeMembers(0, t);
    RangeMembers(t, n);
    RangeMembers(0, n);
    var whole := Range(0, t) + Range(t, n);
    forall i | 0 <= i < n
      ensures whole[i] == Range(0, n)[i]
    {
      if i >= t {
        assert whole[i] == Range(t, n)[i - t];
      }
    }
  }

  /** `torch.utils.data.Subset(dataset, indices)`. */
  datatype Subset = Subset(dataset: Dataset, indices: seq<int>)

  class OneLayerDataModule {
    /** The checkpoints at `dataset_path`; `directory[k]` is `seed-k`. */
    const directory: seq<Checkpoint>
    const layerIdx: nat
    const inputDim: nat
    const batchSize: nat
    const numWorkers: nat
    const transposeWeights: bool

    /** Absent (`None`) until `setup` has run. */
    var train: Option<Subset>
    var valid: Option<Subset>
    var test: Option<Subset>

    /** After `setup`, the training and validation subsets index the same
        dataset and split its index range between them. */
    ghost predicate Valid()
      reads this
    {
      (train.Some? <==> valid.Some?) &&
      (train.Some? ==>
        train.value.dataset == valid.value.dataset &&
        Partitions(train.value.indices, valid.value.indices, Len(train.value.dataset)))
    }

    constructor (directory: seq<Checkpoint>, layerIdx: nat, inputDim: nat, batchSize: nat,
                 numWorkers: nat, transposeWeights: bool)
      ensures Valid()
      ensures this.directory == directory && this.layerIdx == layerIdx
      ensures this.inputDim == inputDim && this.batchSize == batchSize
      ensures this.numWorkers == numWorkers && this.transposeWeights == transposeWeights
      ensures train == None && valid == None && test == None
    {
      this.directory := directory;
      this.layerIdx := layerIdx;
      this.inputDim := inputDim;
      this.batchSize := batchSize;
      this.numWorkers := numWorkers;
      this.transposeWeights := transposeWeights;
      train, valid, test := None, None, None;
    }

    /** `setup`: builds the dataset and gives the first `int(len * 0.8)`
        indices to training and the rest to validation. When building the
        dataset fails, the error is passed on and nothing changes. */
    method Setup() returns (r: Result<()>)
      requires Valid()
      modifies this
      ensures Valid()
      ensures r.Err? <==> Init(directory, layerIdx, transposeWeights).Err?
      ensures r.Err? ==> r.error == Init(directory, layerIdx, transposeWeights).error
      ensures r.Err? ==> train == old(train) && valid == old(valid) && test == old(test)
      ensures r.Ok? ==>
        var ds := Init(directory, layerIdx, transposeWeights).value;
        var cut := TrainSize(Len(ds));
        && train == Some(Subset(ds, Range(0, cut)))
        && valid == Some(Subset(ds, Range(cut, Len(ds))))
        && test == None
    {
      var dataset := Init(directory, layerIdx, transposeWeights);
      if dataset.Err? {
        return Err(dataset.error);
      }
      var ds := dataset.value;
      var n := Len(ds);
      var cut := TrainSize(n);
      SplitAt(n, cut);
      train := Some(Subset(ds, Range(0, cut)));
      valid := Some(Subset(ds, Range(cut, n)));
      test := None;
      r := Ok(());
    }
  }
}
