# OneLayerDataset and OneLayerDataModule, modelled in Dafny

The repository serves trained network weights as data. A directory holds one
checkpoint per trained model (`seed-0`, `seed-1`, ...). `OneLayerDataset`
reads one layer's weight matrix from each checkpoint. Every pair of a model
and a row ("class") of that matrix is one sample. The sample for flat index
`idx` is built like this:

- the model is `idx // num_classes` and the class is `idx % num_classes`;
- that model's layer matrix is loaded, transposed if so configured;
- the class's row is swapped with row 0 in place;
- rows `1..` are reordered by a random permutation.

The label is the class index. `OneLayerDataModule.setup` builds the dataset
and splits its indices. The first `int(len * 0.8)` indices go to training and
the rest to validation.

Modules, one per concern of `decoder/datasets.py`:

- `Matrices` (`matrices.dfy`): a weight matrix with its shape, `Transpose`, and
  the conditional transpose `Oriented`.
- `Permutations` (`permutations.dfy`): what `torch.randperm(n)` returns
  (`IsPermutation`), the indexing `s[p]` (`Gather`), and the proof that
  indexing by a permutation only reorders.
- `Datasets` (`datasets.dfy`): `OneLayerDataset` as a value. It covers
  `__init__` (`Init`), `__len__` (`Len`), the index split (`Locate`), the
  in-place row swap and tail shuffle on an `array` of rows (`SwapToFront`,
  `ShuffleTail`), and `__getitem__` (`GetItem`). The two array methods are
  proved against the functions `Swapped` and `ShuffledTail`, and the
  properties are proved about those functions.
- `DataModule` (`datamodule.dfy`): `OneLayerDataModule` as a class whose
  `Setup` assigns the `train`, `valid` and `test` fields, plus the range
  split.

Randomness and the file system are parameters. The result of
`torch.randperm` is the argument `perm`, and any permutation is allowed. The
directory is a sequence of checkpoints where `seed-k` is element k. A
checkpoint maps a layer index to that layer's matrix.

Two assumptions the code makes without checking them:

- The directory holds only `seed-*` files, numbered from 0. This lives in the
  representation: `directory[k]` is `seed-k`, and `|directory|` stands for the
  `os.listdir` count.
- Every checkpoint holds the layer, with seed-0's shape. This is
  `Dataset.Valid()`, which `GetItem` requires.

## Model

| member | source | states |
|---|---|---|
| `Matrices.Transpose` | decoder/datasets.py:35-36 | `weights.T` has the swapped shape and entry (i, j) equal to entry (j, i) of the input |
| `Matrices.TransposeInvolutive` | decoder/datasets.py:35-36 | transposing twice gives back the same matrix and shape |
| `Matrices.Oriented` | decoder/datasets.py:35-36 | after the conditional transpose the matrix is well-formed; its row count is `shape[1]` with transpose and `shape[0]` without |
| `Permutations.PermutationIndices` | decoder/datasets.py:45 | a permutation of n indices has n entries, each below n, so `rows[1:][perm]` is well defined |
| `Permutations.GatherPermutes` | decoder/datasets.py:45 | indexing a sequence by a permutation keeps the multiset of its elements |
| `Datasets.Init` | decoder/datasets.py:12-21 | an empty directory gives "checkpoint not found" and a missing layer gives "layer not found"; otherwise the dataset keeps the configuration, seed-0's matrix after the conditional transpose has exactly `numClasses` rows, and the dataset is valid when all checkpoints share seed-0's shape |
| `Datasets.Len` | decoder/datasets.py:23-25 | the length is the number of checkpoints times `numClasses`: every pair of an existing model and a class has its flat index in `[0, len)`; the converse is `LocateInRange`, and `GetItem` yields a sample exactly for `0 <= idx < Len` |
| `Datasets.Locate` | decoder/datasets.py:29-30 | `num_classes == 0` is a division by zero; otherwise the class index lies in `[0, num_classes)` and `model * num_classes + class == idx` |
| `Datasets.LocateInRange` | decoder/datasets.py:23-30 | for a dataset, `0 <= idx < Len(ds)` holds exactly when the split succeeds and names a model in `[0, num_models)` |
| `Datasets.LocateFlatIndex` | decoder/datasets.py:29-30 | splitting `model * num_classes + class` gives `(model, class)` back; with `LocateInRange`, the split is a bijection from `[0, len)` onto the pairs |
| `Datasets.Swapped` | decoder/datasets.py:41-43 | the value the swap produces, defined pointwise: row 0 takes row k, row k takes row 0, every other row stays; the length is kept (its other properties are in `SwappedPermutes`) |
| `Datasets.SwappedPermutes` | decoder/datasets.py:41-43 | the swap keeps the multiset of rows, is its own inverse, and leaves the matrix unchanged for class 0 |
| `Datasets.ShuffledTail` | decoder/datasets.py:45 | the value the shuffle produces: row 0, then entry `1 + i` is old row `1 + perm[i]`; the length is kept (its other properties are in `ShuffledTailPermutes`) |
| `Datasets.ShuffledTailPermutes` | decoder/datasets.py:45 | the shuffle keeps the length and row 0; rows `1..` afterwards are a permutation of rows `1..` before |
| `Datasets.RearrangedRows` | decoder/datasets.py:41-45 | swap then shuffle: same number of rows, same multiset of rows, and row 0 is the selected class's original row |
| `Datasets.RearrangedMatrix` | decoder/datasets.py:41-45 | the rearranged rows still form a well-formed matrix of the loaded shape |
| `Datasets.SwapToFront` | decoder/datasets.py:41-43 | the in-place swap through a temporary leaves the array equal to `Swapped` of its old contents |
| `Datasets.ShuffleTail` | decoder/datasets.py:45 | the slice assignment leaves row 0 and puts old row `1 + perm[i]` at position `1 + i` (`ShuffledTail` of the old contents) |
| `Datasets.Rearrange` | decoder/datasets.py:41-45 | on a copy of the loaded rows, swap then shuffle gives a well-formed matrix of the loaded shape, with the same multiset of rows and the selected class's row first; the result is `ShuffledTail(Swapped(rows, class), perm)` |
| `Datasets.Loaded` | decoder/datasets.py:33-36 | every model's layer, after the conditional transpose, is a well-formed matrix with `num_classes` rows, so `class_idx` is a valid row |
| `Datasets.GetItem` | decoder/datasets.py:27-62 | a sample exists exactly for `0 <= idx < len`; otherwise the error is a division by zero or a missing checkpoint. For a sample: the label is `idx % num_classes`; row 0 is that row of the loaded matrix; shape and multiset of rows are kept; the rows are the swap followed by the shuffle |
| `DataModule.TrainSize` | decoder/datasets.py:82 | the training size t lies in `[0, n]` and is the floor of `0.8 * n` (`5t <= 4n < 5t + 5`) |
| `DataModule.RangeMembers` | decoder/datasets.py:82-83 | `range(lo, hi)` has `hi - lo` elements, exactly the integers in `[lo, hi)` |
| `DataModule.SplitAt` | decoder/datasets.py:82-83 | for any cut t in `[0, n]`: `range(t)` followed by `range(t, n)` is `range(n)`; the two are disjoint and cover `[0, n)`; the training part has t indices |
| `DataModule.OneLayerDataModule.constructor` | decoder/datasets.py:65-73 | stores the configuration; no subsets exist yet |
| `DataModule.OneLayerDataModule.Setup` | decoder/datasets.py:78-84 | a failed dataset build is passed on and changes nothing. Otherwise `train` is the dataset restricted to `range(int(len * 0.8))`, `valid` is the rest of `range(len)` and `test` is `None`. The two subsets partition the dataset's indices |

## Left out

- The loading itself (`torch.load`, `os.listdir`, `.to('cpu')`). The directory is an input value, and its length stands for the `listdir` count, so a directory with files other than `seed-*` is not modelled.
- Path building. The `seed-0` path at line 19 has a `/` separator, but the path at line 33 has none. The two agree only when `dataset_path` ends in `/`. Paths are not modelled.
- The `'multiply_transpose'` and `'dim_reduction'` preprocessing (lines 47-59). These are floating-point matrix products, norms and a randomized low-rank PCA from the tensor library. `GetItem` models only the path without preprocessing.
- The randomness of `torch.randperm`. Any permutation may be passed in, and nothing is said about its distribution.
- The label as a one-element float tensor. It is modelled as the natural number `class_idx`.
- A checkpoint whose layer shape differs from seed-0's. The code would then raise an index error or build a sample of another shape. `GetItem` requires a valid dataset (`Dataset.Valid()`) instead.
- The KeyError that line 34 raises when some `seed-k` with k > 0 lacks the layer. `Dataset.Valid()` requires every checkpoint to hold the layer, so `GetItem` does not model this error; only the missing layer in seed-0 (`Init`) is modelled.
- DataModule.TrainSize: computes `int(n * 0.8)` exactly as `n * 4 / 5`, not in double precision. Because the double nearest to 0.8 is slightly above 0.8, the two agree for every dataset size below about 2^50.
- `prepare_data` does nothing. The `train_dataloader`, `val_dataloader` and `test_dataloader` methods (lines 86-114) only pass batch size, worker count, `drop_last` and shuffle flags to the framework's `DataLoader`. Batching, worker processes and loader shuffling belong to the framework.
- The `preprocessing` setting is not a field of the model, because its branches are left out. `inputDim`, `batchSize` and `numWorkers` are stored; the model never reads them, because only the left-out dataloader methods use `batchSize` and `numWorkers`; `input_dim` is unused in the source as well.
