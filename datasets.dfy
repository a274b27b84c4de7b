/** `OneLayerDataset`: every (model, class) pair of a directory of checkpoints
    is one sample. The sample for a pair is the model's weight matrix for one
    layer with the class's row moved to the front and the other rows shuffled.
    Its label is the class index. */
module Datasets {
  import opened Matrices
  import opened Permutations

  /** The parameters of one saved model, keyed by layer index (the key
      `layers.{i}.weight` is determined by i). */
  type Checkpoint = map<nat, Matrix>

  /** The exceptions the dataset code can raise on the modelled paths. */
  datatype DatasetError =
    | CheckpointNotFound   // `torch.load` of a `seed-k` file that does not exist
    | LayerNotFound        // the checkpoint has no `layers.{i}.weight` entry
    | ZeroDivision         // `idx // num_classes` with `num_classes == 0`

  datatype Result<T> = Ok(value: T) | Err(error: DatasetError)

  /** The dataset object. `directory[k]` is the checkpoint `seed-k`;
      `numClasses` is fixed when the dataset is built. */
  datatype Dataset = Dataset(
    directory: seq<Checkpoint>,
    layerIdx: nat,
    transposeWeights: bool,
    numClasses: nat)
  {
    /** The layer's matrix is well-formed in every checkpoint and has
        seed-0's shape, and `numClasses` was read from seed-0. */
    ghost predicate Valid() {
      |directory| > 0 &&
      layerIdx in directory[0] &&
      Uniform(directory, layerIdx, directory[0][layerIdx]) &&
      numClasses == NumClasses(directory[0][layerIdx], transposeWeights)
    }
  }

  /** Every checkpoint holds the layer, and the layer has the shape of `seed0`. */
  ghost predicate Uniform(directory: seq<Checkpoint>, layerIdx: nat, seed0: Matrix) {
    forall k :: 0 <= k < |directory| ==>
      layerIdx in directory[k] &&
      directory[k][layerIdx].Valid() &&
      directory[k][layerIdx].rows == seed0.rows &&
      directory[k][layerIdx].cols == seed0.cols
  }

  /** `shape[0]` of seed-0's layer, or `shape[1]` when the weights are transposed. */
  function NumClasses(seed0: Matrix, transposeWeights: bool): nat {
    if !transposeWeights then seed0.rows else seed0.cols
  }

  /** `OneLayerDataset.__init__`: loads seed-0 and reads its row count. After
      the same conditional transpose that `__getitem__` applies, seed-0's
      layer has exactly `numClasses` rows. */
  function Init(directory: seq<Checkpoint>, layerIdx: nat, transposeWeights: bool): (r: Result<Dataset>)
    ensures r.Ok? <==> |directory| > 0 && layerIdx in directory[0]
    ensures |directory| == 0 ==> r == Err(CheckpointNotFound)
    ensures |directory| > 0 && layerIdx !in directory[0] ==> r == Err(LayerNotFound)
    ensures r.Ok? ==> r.value.directory == directory && r.value.layerIdx == layerIdx
                      && r.value.transposeWeights == transposeWeights
    ensures r.Ok? && directory[0][layerIdx].Valid() ==>
              Oriented(directory[0][layerIdx], transposeWeights).rows == r.value.numClasses
    ensures r.Ok? && Uniform(directory, layerIdx, directory[0][layerIdx]) ==> r.value.Valid()
  {
    if |directory| == 0 then Err(CheckpointNotFound)
    else if layerIdx !in directory[0] then Err(LayerNotFound)
    else Ok(Dataset(directory, layerIdx, transposeWeights,
                    NumClasses(directory[0][layerIdx], transposeWeights)))
  }

  /** Which model and which class a flat index stands for. */
  datatype Location = Location(modelIdx: int, classIdx: int)

  /** `__len__`: one sample per (model, class) pair. Every pair of an existing
      model and a class has its flat index in `[0, len)`; `LocateInRange`
      gives the converse. */
  function Len(ds: Dataset): (r: nat)
    ensures forall loc: Location ::
      0 <= loc.modelIdx < |ds.directory| && 0 <= loc.classIdx < ds.numClasses ==>
        0 <= FlatIndex(loc, ds.numClasses) < r
  {
    FlatIndexBelow(|ds.directory|, ds.numClasses);
    |ds.directory| * ds.numClasses
  }

  lemma FlatIndexBelow(numModels: nat, numClasses: nat)
    ensures forall loc: Location ::
      0 <= loc.modelIdx < numModels && 0 <= loc.classIdx < numClasses ==>
        0 <= FlatIndex(loc, numClasses) < numModels * numClasses
  {
    forall loc: Location | 0 <= loc.modelIdx < numModels && 0 <= loc.classIdx < numClasses
      ensures 0 <= FlatIndex(loc, numClasses) < numModels * numClasses
    {
      MulMonotone(0, loc.modelIdx, numClasses);
      MulMonotone(loc.modelIdx + 1, numModels, numClasses);
    }
  }

  /** `model_idx = idx // num_classes` and `class_idx = idx % num_classes`.
      Python's `//` and `%` round toward negative infinity, which for a
      positive divisor is what Dafny's `/` and `%` do. */
  function Locate(idx: int, numClasses: nat): (r: Result<Location>)
    ensures r.Err? <==> numClasses == 0
    ensures r.Err? ==> r.error == ZeroDivision
    ensures r.Ok? ==> 0 <= r.value.classIdx < numClasses
    ensures r.Ok? ==> r.value.modelIdx * numClasses + r.value.classIdx == idx
  {
    if numClasses == 0 then Err(ZeroDivision)
    else Ok(Location(idx / numClasses, idx % numClasses))
  }

  /** The flat index of a (model, class) pair: the inverse of `Locate`. */
  function FlatIndex(loc: Location, numClasses: nat): int {
    loc.modelIdx * numClasses + loc.classIdx
  }

  /** An index lies in `[0, len)` exactly when it names an existing model. */
  lemma LocateInRange(ds: Dataset, idx: int)
    ensures (0 <= idx < Len(ds)) <==>
            (Locate(idx, ds.numClasses).Ok? && 0 <= Locate(idx, ds.numClasses).value.modelIdx < |ds.directory|)
  {
    var numModels, numClasses := |ds.directory|, ds.numClasses;
    if numClasses > 0 {
      var m, c := idx / numClasses, idx % numClasses;
      assert idx == m * numClasses + c;
      if 0 <= m < numModels {
        assert m * numClasses <= (numModels - 1) * numClasses by {
          MulMonotone(m, numModels - 1, numClasses);
        }
      } else if m < 0 {
        assert m * numClasses < 0 by {
          MulMonotone(m, -1, numClasses);
        }
      } else {
        assert numModels * numClasses <= m * numClasses by {
          MulMonotone(numModels, m, numClasses);
        }
      }
    }
  }

  lemma MulMonotone(a: int, b: int, c: nat)
    requires a <= b
    ensures a * c <= b * c
  {
  }

  /** Locating the flat index of a pair gives the pair back. Together with
      `LocateInRange` this makes `Locate` a bijection from `[0, len)` onto
      the (model, class) pairs. */
  lemma LocateFlatIndex(loc: Location, numClasses: nat)
    requires 0 <= loc.classIdx < numClasses
    ensures Locate(FlatIndex(loc, numClasses), numClasses) == Ok(loc)
  {
    var idx := FlatIndex(loc, numClasses);
    var m, c := idx / numClasses, idx % numClasses;
    assert m * numClasses + c == loc.modelIdx * numClasses + loc.classIdx;
    if m < loc.modelIdx {
      MulMonotone(m + 1, loc.modelIdx, numClasses);
      assert false;
    } else if m > loc.modelIdx {
      MulMonotone(loc.modelIdx + 1, m, numClasses);
      assert false;
    }
  }

  /** Rows 0 and `k` exchanged; every other row where it was. */
  function Swapped<T>(s: seq<T>, k: nat): (r: seq<T>)
    requires k < |s|
    ensures |r| == |s|
  {
    seq(|s|, i requires 0 <= i < |s| => if i == 0 then s[k] else if i == k then s[0] else s[i])
  }

  /** The swap keeps the rows: it only moves them. Selecting class 0 leaves
      the matrix as it was, and swapping twice undoes the swap. */
  lemma SwappedPermutes<T>(s: seq<T>, k: nat)
    requires k < |s|
    ensures multiset(Swapped(s, k)) == multiset(s)
    ensures k == 0 ==> Swapped(s, k) == s
    ensures Swapped(Swapped(s, k), k) == s
  {
    assert Swapped(s, k) == s[k := s[0]][0 := s[k]];
  }

  /** Row 0 kept, rows `1..` replaced by `rows[1:][perm]`. */
  function ShuffledTail<T>(s: seq<T>, perm: seq<nat>): (r: seq<T>)
    requires |s| > 0 && IsPermutation(perm, |s| - 1)
    ensures |r| == |s|
  {
    PermutationIndices(perm, |s| - 1);
    [s[0]] + Gather(s[1..], perm)
  }

  /** The shuffle leaves row 0 alone and only reorders rows `1..`. */
  lemma ShuffledTailPermutes<T>(s: seq<T>, perm: seq<nat>)
    requires |s| > 0 && IsPermutation(perm, |s| - 1)
    ensures |ShuffledTail(s, perm)| == |s|
    ensures ShuffledTail(s, perm)[0] == s[0]
    ensures multiset(ShuffledTail(s, perm)[1..]) == multiset(s[1..])
    ensures multiset(ShuffledTail(s, perm)) == multiset(s)
  {
    var tail := s[1..];
    GatherPermutes(tail, perm);
    var g := Gather(tail, perm);
    var r := ShuffledTail(s, perm);
    assert r == [s[0]] + g;
    assert r[1..] == g;
    assert multiset(r) == multiset(s) by {
      ConsMultiset(s[0], g, tail);
      assert s == [s[0]] + tail;
    }
  }

  lemma ConsMultiset<T>(x: T, a: seq<T>, b: seq<T>)
    requires multiset(a) == multiset(b)
    ensures multiset([x] + a) == multiset([x] + b)
  {
  }

  /** The rows a sample is built from: swap then shuffle. The selected row
      ends up in front, the shape and the multiset of rows are kept. */
  lemma RearrangedRows<T>(s: seq<T>, k: nat, perm: seq<nat>)
    requires k < |s| && IsPermutation(perm, |s| - 1)
    ensures |ShuffledTail(Swapped(s, k), perm)| == |s|
    ensures ShuffledTail(Swapped(s, k), perm)[0] == s[k]
    ensures multiset(ShuffledTail(Swapped(s, k), perm)) == multiset(s)
  {
    SwappedPermutes(s, k);
    ShuffledTailPermutes(Swapped(s, k), perm);
  }

  /** The rearranged rows still form a matrix of the loaded shape. */
  lemma RearrangedMatrix(m: Matrix, k: nat, perm: seq<nat>)
    requires m.Valid() && k < m.rows && IsPermutation(perm, m.rows - 1)
    ensures var w := Matrix(m.rows, m.cols, ShuffledTail(Swapped(m.data, k), perm));
      && w.Valid()
      && w.data[0] == m.data[k]
      && multiset(w.data) == multiset(m.data)
  {
    var rows := ShuffledTail(Swapped(m.data, k), perm);
    RearrangedRows(m.data, k, perm);
    forall i | 0 <= i < |rows|
      ensures |rows[i]| == m.cols
    {
      assert rows[i] in multiset(m.data);
    }
  }

  /** Lines 41-43: the selected row and row 0 trade places through a copy. */
  method SwapToFront(weights: array<Row>, classIdx: nat)
    requires classIdx < weights.Length
    modifies weights
    ensures weights[..] == Swapped(old(weights[..]), classIdx)
  {
    var tmp := weights[classIdx];
    weights[classIdx] := weights[0];
    weights[0] := tmp;
  }

  /** Line 45: `weights[1:,:] = weights[1:,:][perm]`. The right-hand side is a
      copy, so every row is read before any is written. */
  method ShuffleTail(weights: array<Row>, perm: seq<nat>)
    requires weights.Length > 0 && IsPermutation(perm, weights.Length - 1)
    modifies weights
    ensures weights[..] == ShuffledTail(old(weights[..]), perm)
  {
    PermutationIndices(perm, weights.Length - 1);
    var tail := weights[1..];
    forall i | 0 <= i < |perm| {
      weights[1 + i] := tail[perm[i]];
    }
  }

  /** Lines 41-45 on a copy of the loaded matrix: the class's row is swapped
      to the front, then rows `1..` are shuffled. The result keeps the shape
      and the rows, and starts with the class's row. */
  method Rearrange(loaded: Matrix, classIdx: nat, perm: seq<nat>) returns (w: Matrix)
    requires loaded.Valid() && classIdx < loaded.rows
    requires IsPermutation(perm, loaded.rows - 1)
    ensures w.Valid() && w.rows == loaded.rows && w.cols == loaded.cols
    ensures w.data[0] == loaded.data[classIdx]
    ensures multiset(w.data) == multiset(loaded.data)
    ensures w.data == ShuffledTail(Swapped(loaded.data, classIdx), perm)
  {
    var weights := new Row[loaded.rows](i requires 0 <= i < loaded.rows => loaded.data[i]);
    assert weights[..] == loaded.data;
    SwapToFront(weights, classIdx);
    ShuffleTail(weights, perm);
    RearrangedMatrix(loaded, classIdx, perm);
    w := Matrix(loaded.rows, loaded.cols, weights[..]);
  }

  /** One sample: the rearranged weight matrix and its class label. */
  datatype Sample = Sample(weights: Matrix, classLabel: nat)

  /** The layer of checkpoint `seed-modelIdx`, transposed if so configured. */
  function Loaded(ds: Dataset, modelIdx: nat): (m: Matrix)
    requires ds.Valid() && modelIdx < |ds.directory|
    ensures m.Valid() && m.rows == ds.numClasses
  {
    Oriented(ds.directory[modelIdx][ds.layerIdx], ds.transposeWeights)
  }

  /** `__getitem__` without preprocessing. `perm` stands for the result of
      `torch.randperm(num_classes - 1)`. The sample exists exactly for the
      indices in `[0, len)`; its row 0 is the selected class's row of the
      loaded matrix, its rows are those of the loaded matrix, and its label
      is the class index. */
  method GetItem(ds: Dataset, idx: int, perm: seq<nat>) returns (r: Result<Sample>)
    requires ds.Valid()
    requires ds.numClasses > 0 ==> IsPermutation(perm, ds.numClasses - 1)
    ensures r.Ok? <==> 0 <= idx < Len(ds)
    ensures ds.numClasses == 0 ==> r == Err(ZeroDivision)
    ensures ds.numClasses > 0 && !(0 <= idx < Len(ds)) ==> r == Err(CheckpointNotFound)
    ensures r.Ok? ==> Locate(idx, ds.numClasses).Ok?
    ensures r.Ok? ==>
      var loc := Locate(idx, ds.numClasses).value;
      && 0 <= loc.modelIdx < |ds.directory|
      && r.value.classLabel == loc.classIdx
    ensures r.Ok? ==>
      var loaded := Loaded(ds, Locate(idx, ds.numClasses).value.modelIdx);
      var w := r.value.weights;
      && w.Valid() && w.rows == loaded.rows && w.cols == loaded.cols
      && w.data[0] == loaded.data[r.value.classLabel]
      && multiset(w.data) == multiset(loaded.data)
      && w.data == ShuffledTail(Swapped(loaded.data, r.value.classLabel), perm)
  {
    var loc := Locate(idx, ds.numClasses);
    if loc.Err? {
      return Err(loc.error);
    }
    LocateInRange(ds, idx);
    var modelIdx, classIdx := loc.value.modelIdx, loc.value.classIdx;
    if !(0 <= modelIdx < |ds.directory|) {
      return Err(CheckpointNotFound);
    }
    var weights := Rearrange(Loaded(ds, modelIdx), classIdx, perm);
    r := Ok(Sample(weights, classIdx));
  }
}
