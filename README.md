# Text-dataset shard naming in Dafny

A model of the naming logic of `TextDataset` in tefla's text-dataset
pipeline. The model covers:

- how a dataset names its shard files (`<base>-NNNNN-of-MMMMM`);
- how it lists the shards of the train, dev and test splits under a data directory;
- how it names its vocabulary file (`<vocab_name>.<size>`);
- which text encoder it builds from two configuration flags.

The dataset is a record of configuration values (`TextDatasets.Dataset`).
The base class leaves some properties abstract: `is_character_level`,
`use_subword_tokenizer`, `targeted_vocab_size` and `num_shards`. They are
fields of the record, as a subclass would supply them. The base-class
defaults are:

- `has_inputs` is true;
- `num_dev_shards` is 1;
- `use_train_shards_for_dev` is true.

`TextDatasets.NewDataset` sets these defaults.

Every modelled member only reads configuration, so each one is a function.
The lemmas prove these properties:

- A shard name records its shard number and shard count, and can be read back (`ParseShardedName`).
- `"%.5d"` is zero-padded decimal. A non-negative number takes exactly five characters below 100000 and more from 100000 on.
- A shard list has one name per shard, in increasing shard order, with no name twice.
- Joining to a directory keeps a shard list in order and free of repeats.
- The train, dev and test families never share a path. So the list `generate_data` writes to, and the repaired combined list, repeat no file.
- The character-level flag overrides the subword flag.
- Both vocabulary-based encoders read `<data_dir>/<vocab_file>`.
- `"inputs"` is a key exactly when the dataset has inputs, and every key maps to the same encoder.

Modules:

- `Results`: Option/Result values and the Python exception `NameError`.
- `Seqs`: list comprehension as `MapSeq`, and lists without repeats.
- `PercentFormat`: `%d` and `%.Nd`, for negative numbers too, with a reader that inverts them.
- `PosixPath`: `os.path.join` for two components, with POSIX semantics. An absolute second component replaces the first. Otherwise a `/` goes between the two unless the first is empty or already ends in `/`.
- `TextDatasets`: the class itself.
- `Python3AsWritten`: what seven members (`shard_filepath`, `_data_filenames`, the train, dev, test and combined lists, and `feature_encoders`) do when the code runs as written (see Findings).

The source has three defects, and the model treats them this way:

- **`dataset_name` (line 56)** reads the undefined name `self_dataset_name`. `TextDatasets` keeps this defect as written while it repairs the other two (`xrange` and `os`): there `DatasetName`, `TestDataFilenames`, `TestFilepaths` and `CombinedDataFilenames` return `NameError`, while `train_data_filenames` and `dev_data_filenames` read the field directly and give their paths. The `...Fixed` members repair this defect too.
- **`xrange` (line 164)** does not exist in Python 3. The file can only be loaded by Python 3, because line 71 has a keyword-only parameter after `*args`. `TextDatasets` uses the intended `[0, n)`, empty when `n <= 0`.
- **`os` is never imported**, but it is used at lines 118, 121 and 141. `TextDatasets` uses the intended `os.path.join`.

`Python3AsWritten` models the code entirely as written. There every shard list except the test list raises the `xrange` NameError; the test list raises the `dataset_name` NameError first, as it reads that property before building any list. `combined_data_filenames` raises it from its first operand, the train list, before the test list reads `dataset_name`.

The reversible-block and gradient-recomputation implementation
(`tefla/core/special_fn.py`) is not part of this model.

## Model

| member | source | states |
|---|---|---|
| `PercentFormat.Decimal` | tefla/dataset/textdataset.py:52 | `%d` of a non-negative int is all digits, has at least one digit, starts with `0` only when it is `0` itself, and a number with k digits is below 10^k and, unless zero, at least 10^(k-1) |
| `PercentFormat.DecimalValue` | tefla/dataset/textdataset.py:52 | the digits `%d` writes for a non-negative int denote exactly that int |
| `PercentFormat.FormatInt` | tefla/dataset/textdataset.py:160 | `%.Nd` (and `%d`, as at line 52) of any integer give at least one character, the first being `-` exactly when the integer is negative |
| `PercentFormat.FormatIntDigits` | tefla/dataset/textdataset.py:160 | after the sign come exactly the decimal digits of the magnitude when they number at least N, and otherwise those digits behind just enough zeros to make N; `%d` (N = 0) is the plain decimal |
| `PercentFormat.FormatIntShape` | tefla/dataset/textdataset.py:160 | `%.Nd` gives a minus sign exactly for negative numbers, then at least N digits |
| `PercentFormat.FormatIntRoundTrip` | tefla/dataset/textdataset.py:160 | reading back `%.Nd` (or `%d`) of any integer gives that integer |
| `PercentFormat.FormatIntInjective` | tefla/dataset/textdataset.py:160 | distinct integers format differently at the same precision |
| `PercentFormat.FormatIntWidth` | tefla/dataset/textdataset.py:160 | for N >= 1, a non-negative number takes exactly N characters under `%.Nd` if and only if it is below 10^N, and never fewer than N |
| `PosixPath.Join` | tefla/dataset/textdataset.py:141 | `os.path.join(dir, name)` (also used at lines 118 and 121) ends with `name`, and is `name` itself when `name` is absolute |
| `PosixPath.JoinShape` | tefla/dataset/textdataset.py:141 | `os.path.join(dir, name)` ends with `name`; it is `name` when `name` is absolute, and otherwise `dir`, at most one `/`, then `name` |
| `PosixPath.JoinInjective` | tefla/dataset/textdataset.py:141 | under one directory, two names that are both absolute or both relative join to equal paths only if they are equal |
| `TextDatasets.NewDataset` | tefla/dataset/textdataset.py:17-68 | the constructor stores the vocabulary and dataset names; the base class defaults are `has_inputs` true, one dev shard, and train shards used for dev |
| `TextDatasets.VocabFile` | tefla/dataset/textdataset.py:50-52 | the vocabulary file name is the vocabulary name, a dot, then the targeted size as `%d` writes it: its plain decimal digits, after a `-` when negative, with no surplus zero; the size can be read back from it |
| `TextDatasets.VocabFileExample` | tefla/dataset/textdataset.py:50-52 | vocabulary `vocab.lm1b.en` of size 32768 gives `vocab.lm1b.en.32768` |
| `TextDatasets.DatasetName` | tefla/dataset/textdataset.py:54-56 | the `dataset_name` property as written always raises NameError for `self_dataset_name` |
| `TextDatasets.DatasetNameFixed` | tefla/dataset/textdataset.py:54-56 | the repaired property yields the dataset name given to the constructor |
| `TextDatasets.ShardedName` | tefla/dataset/textdataset.py:159-160 | every shard name starts with its base followed by `-` |
| `TextDatasets.ShardedNameRoundTrip` | tefla/dataset/textdataset.py:159-160 | `ParseShardedName` reads the exact shard number and shard count back from `sharded_name(base, shard, total)` |
| `TextDatasets.ShardedNameInjective` | tefla/dataset/textdataset.py:159-160 | under one base, equal shard names have equal shard numbers and equal totals |
| `TextDatasets.ShardNumberWidth` | tefla/dataset/textdataset.py:160 | a shard number is at least five characters long, and exactly five if and only if it is below 100000 |
| `TextDatasets.ShardedNameExample` | tefla/dataset/textdataset.py:159-160 | shard 3 of 100 of `lm1b-unshuffled-train` is `lm1b-unshuffled-train-00003-of-00100` |
| `TextDatasets.XRange` | tefla/dataset/textdataset.py:164 | the shard numbers are 0, 1, ..., n-1 in order, and there are none when n <= 0 |
| `TextDatasets.ShardFilepath` | tefla/dataset/textdataset.py:162-165 | `shard_filepath(f, n)` has max(n, 0) names; name i is `sharded_name(f, i, n)` |
| `TextDatasets.ShardFilepathDistinct` | tefla/dataset/textdataset.py:159-165 | no shard name occurs twice in `shard_filepath(f, n)` |
| `TextDatasets.DataFilenames` | tefla/dataset/textdataset.py:139-143 | `_data_filenames` keeps the length and order of the shard list and joins each name to the directory |
| `TextDatasets.DataFilenamesDistinct` | tefla/dataset/textdataset.py:139-143 | no path occurs twice in `_data_filenames`: the shard names all start with the same character, so all are absolute or all relative, and the join keeps them distinct |
| `TextDatasets.TrainName` | tefla/dataset/textdataset.py:146 | the train shards share the base `<dataset>-unshuffled-train` |
| `TextDatasets.DevName` | tefla/dataset/textdataset.py:149 | the dev shards share the base `<dataset>-unshuffled-dev` |
| `TextDatasets.TestName` | tefla/dataset/textdataset.py:152 | the test shards share the base `<dataset>-unshuffled-test` |
| `TextDatasets.TrainDataFilenames` | tefla/dataset/textdataset.py:145-146 | train path i is the join of the directory and shard i of `<dataset>-unshuffled-train` |
| `TextDatasets.DevDataFilenames` | tefla/dataset/textdataset.py:148-149 | dev path i is the join of the directory and shard i of `<dataset>-unshuffled-dev` |
| `TextDatasets.TestDataFilenames` | tefla/dataset/textdataset.py:151-152 | as written, the test list raises the NameError of `dataset_name` for every shard count |
| `TextDatasets.TestDataFilenamesFixed` | tefla/dataset/textdataset.py:151-152 | repaired, test path i is the join of the directory and shard i of `<dataset>-unshuffled-test` |
| `TextDatasets.CombinedDataFilenames` | tefla/dataset/textdataset.py:154-157 | with `xrange` and `os` repaired (as in `TextDatasets`), the combined list raises the NameError of `dataset_name` |
| `TextDatasets.CombinedDataFilenamesFixed` | tefla/dataset/textdataset.py:154-157 | repaired, the combined list is the n train paths, then the dev list of one shard, then the test list of one shard: max(n, 0) + 2 paths |
| `TextDatasets.CombinedNoDuplicates` | tefla/dataset/textdataset.py:154-157 | the repaired combined list repeats no path |
| `TextDatasets.DatasetNameDefect` | tefla/dataset/textdataset.py:151-157 | with `xrange` and `os` repaired (as in `TextDatasets`), test and combined fail for every shard count, while the train list has max(n, 0) paths; with `dataset_name` repaired too, test and combined have max(n, 0) and max(n, 0) + 2 paths |
| `TextDatasets.SplitListsDistinct` | tefla/dataset/textdataset.py:145-152 | no path repeats within the train, the dev or the test list |
| `TextDatasets.TrainDevDisjoint` | tefla/dataset/textdataset.py:145-149 | whatever the shard counts, no train path is a dev path |
| `TextDatasets.TrainTestDisjoint` | tefla/dataset/textdataset.py:145-152 | whatever the shard counts, no train path is a test path |
| `TextDatasets.DevTestDisjoint` | tefla/dataset/textdataset.py:148-152 | whatever the shard counts, no dev path is a test path |
| `TextDatasets.TrainDevDistinct` | tefla/dataset/textdataset.py:145-149 | train paths followed by dev paths, of any counts, repeat no path |
| `TextDatasets.TrainingFilepaths` | tefla/dataset/textdataset.py:127-129 | `training_filepaths` is the train list |
| `TextDatasets.DevFilepaths` | tefla/dataset/textdataset.py:131-133 | `dev_filepaths` is the dev list |
| `TextDatasets.TestFilepaths` | tefla/dataset/textdataset.py:135-137 | `test_filepaths` raises like `test_data_filenames` |
| `TextDatasets.FilepathsIgnoreShuffled` | tefla/dataset/textdataset.py:127-137 | the `shuffled` argument never changes a path list |
| `TextDatasets.GenerationPaths` | tefla/dataset/textdataset.py:99-112 | `generate_data` writes one list, train paths followed by dev paths, exactly when train shards are used for dev, and two lists otherwise |
| `TextDatasets.GenerationPathsDistinct` | tefla/dataset/textdataset.py:99-105 | when train shards are used for dev, the one list `generate_data` writes to repeats no path |
| `TextDatasets.DefaultGenerationPaths` | tefla/dataset/textdataset.py:99-105 | with the base-class defaults, the one list holds max(num_shards, 0) + 1 paths |
| `TextDatasets.SelectEncoder` | tefla/dataset/textdataset.py:115-122 | byte encoder if and only if character level; subword encoder if and only if not character level and subword; token encoder otherwise; both vocabulary encoders read `Join(data_dir, vocab_file)` |
| `TextDatasets.FeatureEncoders` | tefla/dataset/textdataset.py:114-125 | `"targets"` is always a key, `"inputs"` is a key exactly when the dataset has inputs, there are no other keys, and every key maps to the selected encoder |
| `TextDatasets.CharacterLevelPriority` | tefla/dataset/textdataset.py:115-117 | a character-level dataset gets the byte encoder whatever its subword flag, vocabulary name and data directory |
| `TextDatasets.VocabularyEncodersShareFile` | tefla/dataset/textdataset.py:117-122 | flipping the subword flag of a word-level dataset keeps the vocabulary path `<data_dir>/<vocab_name>.<size>` |
| `Python3AsWritten.ShardFilepath` | tefla/dataset/textdataset.py:162-165 | as written, `shard_filepath` raises NameError for `xrange` for every shard count |
| `Python3AsWritten.DataFilenames` | tefla/dataset/textdataset.py:139-143 | as written, `_data_filenames` raises the `xrange` NameError |
| `Python3AsWritten.TrainDataFilenames` | tefla/dataset/textdataset.py:145-146 | as written, the train list raises the `xrange` NameError |
| `Python3AsWritten.DevDataFilenames` | tefla/dataset/textdataset.py:148-149 | as written, the dev list raises the `xrange` NameError |
| `Python3AsWritten.TestDataFilenames` | tefla/dataset/textdataset.py:151-152 | as written, the test list raises the NameError of `dataset_name`, which is read before `_data_filenames` runs |
| `Python3AsWritten.CombinedDataFilenames` | tefla/dataset/textdataset.py:154-157 | as written, the combined list raises the `xrange` NameError of its first operand, the train list |
| `Python3AsWritten.FeatureEncoders` | tefla/dataset/textdataset.py:114-125 | as written, `feature_encoders` succeeds, with the intended map, exactly when the dataset is character level; otherwise it raises NameError for `os` |
| `Python3AsWritten.XRangeDefect` | tefla/dataset/textdataset.py:164 | with one shard, the code as written raises, while the intended list is the single name of shard 0 of 1 |
| `Python3AsWritten.OsImportDefect` | tefla/dataset/textdataset.py:118-122 | a word-level dataset gets no encoders as written, while the intended code builds one on `<data_dir>/<vocab_file>` |

## Left out

- `os.path.join` is modelled as `posixpath.join` only. On Windows `os.path` is `ntpath`, with backslash separators and drive letters, which `Join` does not model.
- `generate_data` (lines 99-112): writing the records, shuffling them and running the user generators is I/O through `TextTFRecord` and is not modelled. Only the path lists it hands over are modelled (`GenerationPaths`).
- `example_reading_spec` (lines 91-97): it builds TensorFlow feature specifications, which are a foreign library and are not modelled. It also uses `tf`, which the file never imports.
- `generator`, `input_space_id`, `target_space_id` and the other properties that raise `NotImplementedError`: they are abstract. Their values are configuration fields of `Dataset`, or they are not used by any modelled member.
- The first `feature_encoders` (lines 84-89): the second definition at line 114 replaces it when the class body is executed, so it can never be called.
- The `text_encoder` constructors: they are foreign code. `Encoder` records only which class is built and from which vocabulary file.
- `SpaceID` (lines 168-228): plain integer constants, with nothing to state about them.
- `tfrecords` (line 20): the writer object is I/O and is not modelled.
- `%d` and `%.5d` applied to values other than integers (floats, objects with `__int__` or `__index__`) are not modelled. Shard numbers, shard counts and the vocabulary size are integers; a `bool` is an `int` in Python and formats as `0` or `1`, which `FormatInt` covers.
- FormatInt: returns the digits of every integer, while Python 3.11 and later (and the security releases that carry the same change) raise ValueError when converting an int of more than 4300 decimal digits to a string; this interpreter limit is not modelled.
- The reversible-block and recompute-gradient tests (tests/test_rev_block.py): they rely on TensorFlow autodiff and floating-point gradients. Their implementation, tefla/core/special_fn.py, is not part of this model.

## Findings

| source | as written | input that shows it | evidently intended | confidence | as-written member | corrected member |
|---|---|---|---|---|---|---|
| tefla/dataset/textdataset.py:56 | `dataset_name` returns the undefined global `self_dataset_name` | any call of `test_data_filenames`, e.g. with one shard; `combined_data_filenames` once `xrange` is repaired | return `self._dataset_name` | high; not executed | `TextDatasets.TestDataFilenames`, `TextDatasets.CombinedDataFilenames`, `TextDatasets.DatasetNameDefect` | `TextDatasets.TestDataFilenamesFixed`, `TextDatasets.CombinedDataFilenamesFixed` |
| tefla/dataset/textdataset.py:164 | `shard_filepath` iterates over `xrange`, which does not exist in Python 3, the only version that can load the file | `shard_filepath(f, 1)` | `range(num_shards)` | high; not executed | `Python3AsWritten.ShardFilepath`, `Python3AsWritten.XRangeDefect` | `TextDatasets.ShardFilepath` |
| tefla/dataset/textdataset.py:118 | `os.path.join` is used, but `os` is never imported | `feature_encoders` of a dataset that is not character level | `import os` | high; not executed | `Python3AsWritten.FeatureEncoders`, `Python3AsWritten.OsImportDefect` | `TextDatasets.FeatureEncoders` |
