/** `TextDataset` of tefla/dataset/textdataset.py: the names of the shard
    files a text dataset is written to, the vocabulary file name, and the
    choice of text encoder.

    Every member of the Python class that is modelled here only reads
    configuration, so the dataset is a record of configuration values and
    each method or property is a function of it. The properties the base
    class leaves abstract (`is_character_level`, `num_shards`,
    `use_subword_tokenizer`, `targeted_vocab_size`) are fields set by
    whoever builds the record, as a subclass would. */
module TextDatasets {
  import opened Results
  import opened Seqs
  import opened PercentFormat
  import opened PosixPath

  /** Inserted between the dataset name and the split name of every file. */
  const UnshuffledSuffix := "-unshuffled"

  /** Digits a shard number is zero-padded to (`%.5d`). */
  const ShardDigits: nat := 5

  datatype Dataset = Dataset(
    vocabName: string,
    datasetName: string,
    isCharacterLevel: bool,
    useSubwordTokenizer: bool,
    hasInputs: bool,
    targetedVocabSize: int,
    numShards: int,
    numDevShards: int,
    useTrainShardsForDev: bool)

  /** The three encoder classes `feature_encoders` may build; the two
      vocabulary-based ones carry the vocabulary file they are built from. */
  datatype Encoder =
    | ByteTextEncoder
    | SubwordTextEncoder(vocabFilename: string)
    | TokenTextEncoder(vocabFilename: string)

  /** The constructor together with the defaults of the base class:
      `has_inputs` is true, there is one dev shard, and the train shards
      are used for dev. */
  function NewDataset(vocabName: string, datasetName: string, isCharacterLevel: bool,
                      useSubwordTokenizer: bool, targetedVocabSize: int, numShards: int): (d: Dataset)
    ensures d.vocabName == vocabName && d.datasetName == datasetName
    ensures d.isCharacterLevel == isCharacterLevel && d.useSubwordTokenizer == useSubwordTokenizer
    ensures d.targetedVocabSize == targetedVocabSize && d.numShards == numShards
    ensures d.hasInputs && d.numDevShards == 1 && d.useTrainShardsForDev
  {
    Dataset(vocabName, datasetName, isCharacterLevel, useSubwordTokenizer,
            true, targetedVocabSize, numShards, 1, true)
  }

  function Max0(n: int): nat {
    if n > 0 then n else 0
  }

  // ---------------------------------------------------------------------
  // Vocabulary file and dataset name

  /** `"%s.%d" % (vocab_name, targeted_vocab_size)`: the vocabulary name, a
      dot, and the size in decimal, from which the size can be read back. */
  function VocabFile(d: Dataset): (f: string)
    ensures |f| > |d.vocabName| + 1
    ensures f[..|d.vocabName| + 1] == d.vocabName + "."
    ensures f[|d.vocabName| + 1..] == FormatInt(d.targetedVocabSize, 0)
    ensures ParseInt(f[|d.vocabName| + 1..]) == Some(d.targetedVocabSize)
    ensures d.targetedVocabSize >= 0 ==> f == d.vocabName + "." + Decimal(d.targetedVocabSize)
    ensures d.targetedVocabSize < 0 ==> f == d.vocabName + ".-" + Decimal(-d.targetedVocabSize)
  {
    var size := FormatInt(d.targetedVocabSize, 0);
    FormatIntRoundTrip(d.targetedVocabSize, 0);
    FormatIntDigits(d.targetedVocabSize, 0);
    assert (d.vocabName + "." + size)[|d.vocabName| + 1..] == size;
    d.vocabName + "." + size
  }

  /** A concrete vocabulary file name. */
  lemma VocabFileExample()
    ensures VocabFile(NewDataset("vocab.lm1b.en", "lm1b", false, true, 32768, 100)) == "vocab.lm1b.en.32768"
  {
    assert Decimal(3) == "3";
    assert Decimal(32) == "32";
    assert Decimal(327) == "327";
    assert Decimal(3276) == "3276";
    assert Decimal(32768) == "32768";
    assert FormatInt(32768, 0) == "32768";
  }

  /** The `dataset_name` property as written: it reads the global
      `self_dataset_name`, which does not exist, instead of the field
      `self._dataset_name`, so every read raises NameError. */
  function DatasetName(d: Dataset): (r: Result<string>)
    ensures r.Failure? && r.error == NameError("self_dataset_name")
  {
    Failure(NameError("self_dataset_name"))
  }

  /** The `dataset_name` property as evidently intended: the field. */
  function DatasetNameFixed(d: Dataset): (r: string)
    ensures r == d.datasetName
  {
    d.datasetName
  }

  // ---------------------------------------------------------------------
  // Shard names

  /** `"%s-%.5d-of-%.5d" % (base_name, shard, total_shards)`. */
  function ShardedName(baseName: string, shard: int, totalShards: int): (name: string)
    ensures |name| > |baseName| + 1 && name[..|baseName| + 1] == baseName + "-"
  {
    baseName + "-" + FormatInt(shard, ShardDigits) + "-of-" + FormatInt(totalShards, ShardDigits)
  }

  /** The first index of `c` in `s`, or `|s|` when `c` does not occur. */
  function IndexOf(s: string, c: char): (k: nat)
    ensures k <= |s|
    ensures k < |s| ==> s[k] == c
    ensures forall i :: 0 <= i < k ==> s[i] != c
  {
    if s == [] || s[0] == c then 0 else 1 + IndexOf(s[1..], c)
  }

  /** Reads the shard number and the shard count back from a name built on
      `baseName`: the inverse of `ShardedName`. */
  function ParseShardedName(baseName: string, name: string): Option<(int, int)> {
    var head := baseName + "-";
    if |name| < |head| || name[..|head|] != head then None
    else ParseShardFields(name[|head|..])
  }

  /** Reads `<number>-of-<number>`; the first 'o' marks the separator, as
      neither number can contain one. */
  function ParseShardFields(rest: string): Option<(int, int)> {
    var k := IndexOf(rest, 'o');
    if k == 0 || k + 3 > |rest| || rest[k - 1..k + 3] != "-of-" then None
    else
      match (ParseInt(rest[..k - 1]), ParseInt(rest[k + 3..]))
      case (Some(shard), Some(total)) => Some((shard, total))
      case _ => None
  }

  lemma ShardFieldsSplit(a: string, b: string)
    requires forall i :: 0 <= i < |a| ==> a[i] == '-' || IsDigit(a[i])
    ensures var rest := a + "-of-" + b;
      var k := IndexOf(rest, 'o');
      k == |a| + 1 && k + 3 <= |rest| && rest[k - 1..k + 3] == "-of-"
      && rest[..k - 1] == a && rest[k + 3..] == b
  {
    var rest := a + "-of-" + b;
    assert rest[|a| + 1] == 'o';
    assert forall i :: 0 <= i < |a| ==> rest[i] == a[i];
    var k := IndexOf(rest, 'o');
    assert k == |a| + 1;
    assert rest[k - 1..k + 3] == "-of-";
    assert rest[..k - 1] == a;
    assert rest[k + 3..] == b;
  }

  /** A shard name records its shard number and shard count exactly. */
  lemma ShardedNameRoundTrip(baseName: string, shard: int, totalShards: int)
    ensures ParseShardedName(baseName, ShardedName(baseName, shard, totalShards)) == Some((shard, totalShards))
  {
    var a := FormatInt(shard, ShardDigits);
    var b := FormatInt(totalShards, ShardDigits);
    var head := baseName + "-";
    var rest := a + "-of-" + b;
    var name := ShardedName(baseName, shard, totalShards);
    assert name == head + rest;
    assert name[..|head|] == head && name[|head|..] == rest;
    FormatIntShape(shard, ShardDigits);
    ShardFieldsSplit(a, b);
    FormatIntRoundTrip(shard, ShardDigits);
    FormatIntRoundTrip(totalShards, ShardDigits);
  }

  /** Two shard names under one base are equal only when they have the same
      shard number and the same shard count. */
  lemma ShardedNameInjective(baseName: string, s1: int, t1: int, s2: int, t2: int)
    requires ShardedName(baseName, s1, t1) == ShardedName(baseName, s2, t2)
    ensures s1 == s2 && t1 == t2
  {
    ShardedNameRoundTrip(baseName, s1, t1);
    ShardedNameRoundTrip(baseName, s2, t2);
  }

  /** A shard number below 100000 takes exactly five digits, and one of
      100000 or more takes more than five. */
  lemma ShardNumberWidth(shard: nat)
    ensures |FormatInt(shard, ShardDigits)| >= 5
    ensures |FormatInt(shard, ShardDigits)| == 5 <==> shard < 100000
  {
    FormatIntWidth(shard, ShardDigits);
    assert Pow10(5) == 100000;
  }

  /** A concrete name, as the lm1b dataset uses them. */
  lemma ShardedNameExample()
    ensures ShardedName("lm1b-unshuffled-train", 3, 100) == "lm1b-unshuffled-train-00003-of-00100"
  {
    assert Decimal(3) == "3";
    assert Decimal(100) == "100";
  }

  // ---------------------------------------------------------------------
  // Shard lists

  /** `xrange(n)` of Python 2 (`range` in Python 3): 0, 1, ..., n - 1, and
      nothing when n <= 0. */
  function XRange(n: int): (r: seq<int>)
    ensures |r| == Max0(n)
    ensures forall i :: 0 <= i < |r| ==> r[i] == i
  {
    if n <= 0 then [] else XRange(n - 1) + [n - 1]
  }

  /** `shard_filepath(fname, num_shards)`: the names of shards 0 .. n - 1 of
      n, in increasing shard order; empty when n <= 0. */
  function ShardFilepath(fname: string, numShards: int): (r: seq<string>)
    ensures |r| == Max0(numShards)
    ensures forall i :: 0 <= i < |r| ==> r[i] == ShardedName(fname, i, numShards)
  {
    MapSeq((shard: int) => ShardedName(fname, shard, numShards), XRange(numShards))
  }

  /** No shard name occurs twice in a shard list. */
  lemma ShardFilepathDistinct(fname: string, numShards: int)
    ensures NoDuplicates(ShardFilepath(fname, numShards))
  {
    var names := ShardFilepath(fname, numShards);
    forall i, j | 0 <= i < j < |names| ensures names[i] != names[j] {
      if names[i] == names[j] {
        ShardedNameInjective(fname, i, numShards, j, numShards);
      }
    }
  }

  /** `_data_filenames(output_name, output_dir, num_shards)`: the shard names
      of `output_name`, in order, each joined to `output_dir`. */
  function DataFilenames(outputName: string, outputDir: string, numShards: int): (r: seq<string>)
    ensures |r| == Max0(numShards)
    ensures forall i :: 0 <= i < |r| ==> r[i] == Join(outputDir, ShardedName(outputName, i, numShards))
  {
    MapSeq((name: string) => Join(outputDir, name), ShardFilepath(outputName, numShards))
  }

  /** No path occurs twice: all shard names of one base begin with the same
      character, so they are all absolute or all relative, and joining them
      to one directory keeps distinct names distinct. */
  lemma DataFilenamesDistinct(outputName: string, outputDir: string, numShards: int)
    ensures NoDuplicates(DataFilenames(outputName, outputDir, numShards))
  {
    var names := ShardFilepath(outputName, numShards);
    var paths := DataFilenames(outputName, outputDir, numShards);
    ShardFilepathDistinct(outputName, numShards);
    forall i, j | 0 <= i < j < |paths| ensures paths[i] != paths[j] {
      assert names[i][0] == (outputName + "-")[0] == names[j][0];
      if paths[i] == paths[j] {
        JoinInjective(outputDir, names[i], names[j]);
      }
    }
  }

  // ---------------------------------------------------------------------
  // The split families

  /** The base names of the three splits' shards. */
  function TrainName(datasetName: string): (b: string)
    ensures b == datasetName + "-unshuffled-train"
  {
    datasetName + UnshuffledSuffix + "-train"
  }

  function DevName(datasetName: string): (b: string)
    ensures b == datasetName + "-unshuffled-dev"
  {
    datasetName + UnshuffledSuffix + "-dev"
  }

  function TestName(datasetName: string): (b: string)
    ensures b == datasetName + "-unshuffled-test"
  {
    datasetName + UnshuffledSuffix + "-test"
  }

  /** `train_data_filenames`: the shards of `<dataset>-unshuffled-train`. */
  function TrainDataFilenames(d: Dataset, outputDir: string, numShards: int): (r: seq<string>)
    ensures |r| == Max0(numShards)
    ensures forall i :: 0 <= i < |r| ==>
      r[i] == Join(outputDir, ShardedName(d.datasetName + "-unshuffled-train", i, numShards))
  {
    DataFilenames(TrainName(d.datasetName), outputDir, numShards)
  }

  /** `dev_data_filenames`: the shards of `<dataset>-unshuffled-dev`. */
  function DevDataFilenames(d: Dataset, outputDir: string, numShards: int): (r: seq<string>)
    ensures |r| == Max0(numShards)
    ensures forall i :: 0 <= i < |r| ==>
      r[i] == Join(outputDir, ShardedName(d.datasetName + "-unshuffled-dev", i, numShards))
  {
    DataFilenames(DevName(d.datasetName), outputDir, numShards)
  }

  /** `test_data_filenames` as written: it reads the `dataset_name`
      property, which raises before any shard list is built, so no test
      file name is ever produced. */
  function TestDataFilenames(d: Dataset, outputDir: string, numShards: int): (r: Result<seq<string>>)
    ensures r.Failure? && r.error == NameError("self_dataset_name")
  {
    match DatasetName(d)
    case Failure(e) => Failure(e)
    case Success(name) => Success(DataFilenames(TestName(name), outputDir, numShards))
  }

  /** `test_data_filenames` with the `dataset_name` property repaired: the
      shards of `<dataset>-unshuffled-test`. */
  function TestDataFilenamesFixed(d: Dataset, outputDir: string, numShards: int): (r: seq<string>)
    ensures |r| == Max0(numShards)
    ensures forall i :: 0 <= i < |r| ==>
      r[i] == Join(outputDir, ShardedName(d.datasetName + "-unshuffled-test", i, numShards))
  {
    DataFilenames(TestName(DatasetNameFixed(d)), outputDir, numShards)
  }

  /** `combined_data_filenames` with `xrange` and `os` repaired but the
      `dataset_name` property as written: the train and dev lists are
      built, then the test list raises, so the whole call raises. (With
      the code entirely as written, the train list raises first; see
      `Python3AsWritten.CombinedDataFilenames`.) */
  function CombinedDataFilenames(d: Dataset, outputDir: string, numTrainingShards: int): (r: Result<seq<string>>)
    ensures r.Failure? && r.error == NameError("self_dataset_name")
  {
    match TestDataFilenames(d, outputDir, 1)
    case Failure(e) => Failure(e)
    case Success(test) =>
      Success(TrainDataFilenames(d, outputDir, numTrainingShards) + DevDataFilenames(d, outputDir, 1) + test)
  }

  /** With `xrange` and `os` repaired but `dataset_name` as written, the
      test list and the combined list raise for every shard count while
      the train list has one path per shard; with the property repaired
      too, the test list has one path per shard and the combined list has
      the training shards and two more. */
  lemma DatasetNameDefect(d: Dataset, outputDir: string, numShards: int)
    ensures TestDataFilenames(d, outputDir, numShards).Failure?
    ensures CombinedDataFilenames(d, outputDir, numShards).Failure?
    ensures |TestDataFilenamesFixed(d, outputDir, numShards)| == Max0(numShards)
    ensures |CombinedDataFilenamesFixed(d, outputDir, numShards)| == Max0(numShards) + 2
    ensures |TrainDataFilenames(d, outputDir, numShards)| == Max0(numShards)
  {
  }

  /** Shards of two families whose bases agree on their first character and
      differ at position `k` have different paths. */
  lemma FamiliesDisjoint(dir: string, b1: string, b2: string, k: nat,
                         s1: int, t1: int, s2: int, t2: int)
    requires k < |b1| && k < |b2| && b1[k] != b2[k]
    requires (b1 + "-")[0] == (b2 + "-")[0]
    ensures Join(dir, ShardedName(b1, s1, t1)) != Join(dir, ShardedName(b2, s2, t2))
  {
    var n1 := ShardedName(b1, s1, t1);
    var n2 := ShardedName(b2, s2, t2);
    assert n1[0] == n2[0];
    assert n1[k] == b1[k] && n2[k] == b2[k];
    if Join(dir, n1) == Join(dir, n2) {
      JoinInjective(dir, n1, n2);
    }
  }

  /** Two shard families whose bases agree on their first character and
      differ at position `k` share no path, whatever the shard counts. */
  lemma FamilyListsDisjoint(dir: string, b1: string, b2: string, k: nat, n: int, m: int)
    requires k < |b1| && k < |b2| && b1[k] != b2[k]
    requires (b1 + "-")[0] == (b2 + "-")[0]
    ensures Disjoint(DataFilenames(b1, dir, n), DataFilenames(b2, dir, m))
  {
    var l1, l2 := DataFilenames(b1, dir, n), DataFilenames(b2, dir, m);
    forall i, j | 0 <= i < Max0(n) && 0 <= j < Max0(m) ensures l1[i] != l2[j] {
      FamiliesDisjoint(dir, b1, b2, k, i, n, j, m);
    }
  }

  /** The bases of the three splits agree on their first character and
      differ right after `<dataset>-unshuffled-`. */
  lemma SplitNamesDiffer(x: string)
    ensures && |TrainName(x)| > |x| + 13 && |DevName(x)| > |x| + 12 && |TestName(x)| > |x| + 13
      && TrainName(x)[|x| + 12] != DevName(x)[|x| + 12]
      && TrainName(x)[|x| + 13] != TestName(x)[|x| + 13]
      && DevName(x)[|x| + 12] != TestName(x)[|x| + 12]
      && (TrainName(x) + "-")[0] == (DevName(x) + "-")[0] == (TestName(x) + "-")[0]
  {
    var tr, dv, te := TrainName(x), DevName(x), TestName(x);
    assert tr[|x| + 12] == 't' && dv[|x| + 12] == 'd' && te[|x| + 12] == 't';
    assert tr[|x| + 13] == 'r' && te[|x| + 13] == 'e';
  }

  /** No train path is a dev path, whatever the shard counts. */
  lemma TrainDevDisjoint(d: Dataset, dir: string, n: int, m: int)
    ensures Disjoint(TrainDataFilenames(d, dir, n), DevDataFilenames(d, dir, m))
  {
    SplitNamesDiffer(d.datasetName);
    FamilyListsDisjoint(dir, TrainName(d.datasetName), DevName(d.datasetName), |d.datasetName| + 12, n, m);
  }

  /** No train path is a test path, whatever the shard counts. */
  lemma TrainTestDisjoint(d: Dataset, dir: string, n: int, m: int)
    ensures Disjoint(TrainDataFilenames(d, dir, n), TestDataFilenamesFixed(d, dir, m))
  {
    SplitNamesDiffer(d.datasetName);
    FamilyListsDisjoint(dir, TrainName(d.datasetName), TestName(d.datasetName), |d.datasetName| + 13, n, m);
  }

  /** No dev path is a test path, whatever the shard counts. */
  lemma DevTestDisjoint(d: Dataset, dir: string, n: int, m: int)
    ensures Disjoint(DevDataFilenames(d, dir, n), TestDataFilenamesFixed(d, dir, m))
  {
    SplitNamesDiffer(d.datasetName);
    FamilyListsDisjoint(dir, DevName(d.datasetName), TestName(d.datasetName), |d.datasetName| + 12, n, m);
  }

  /** No path repeats within the train, the dev or the test list. */
  lemma SplitListsDistinct(d: Dataset, dir: string, n: int)
    ensures NoDuplicates(TrainDataFilenames(d, dir, n))
    ensures NoDuplicates(DevDataFilenames(d, dir, n))
    ensures NoDuplicates(TestDataFilenamesFixed(d, dir, n))
  {
    DataFilenamesDistinct(TrainName(d.datasetName), dir, n);
    DataFilenamesDistinct(DevName(d.datasetName), dir, n);
    DataFilenamesDistinct(TestName(d.datasetName), dir, n);
  }

  /** The train, dev and test shards of the given counts, in that order. */
  function SplitsInOrder(d: Dataset, dir: string, numTrain: int, numDev: int, numTest: int): (r: seq<string>)
    ensures |r| == Max0(numTrain) + Max0(numDev) + Max0(numTest)
    ensures r[..Max0(numTrain)] == TrainDataFilenames(d, dir, numTrain)
    ensures r[Max0(numTrain)..] == DevDataFilenames(d, dir, numDev) + TestDataFilenamesFixed(d, dir, numTest)
  {
    Concat3(TrainDataFilenames(d, dir, numTrain), DevDataFilenames(d, dir, numDev), TestDataFilenamesFixed(d, dir, numTest))
  }

  /** `combined_data_filenames` with the `dataset_name` property repaired:
      the training shards in order, then the one dev shard, then the one
      test shard. */
  function CombinedDataFilenamesFixed(d: Dataset, outputDir: string, numTrainingShards: int): (r: seq<string>)
    ensures |r| == Max0(numTrainingShards) + 2
    ensures r[..Max0(numTrainingShards)] == TrainDataFilenames(d, outputDir, numTrainingShards)
    ensures r[Max0(numTrainingShards)..] == DevDataFilenames(d, outputDir, 1) + TestDataFilenamesFixed(d, outputDir, 1)
  {
    SplitsInOrder(d, outputDir, numTrainingShards, 1, 1)
  }

  /** Train shards followed by dev shards, of any counts, repeat no path. */
  lemma TrainDevDistinct(d: Dataset, dir: string, n: int, m: int)
    ensures NoDuplicates(TrainDataFilenames(d, dir, n) + DevDataFilenames(d, dir, m))
  {
    DataFilenamesDistinct(TrainName(d.datasetName), dir, n);
    DataFilenamesDistinct(DevName(d.datasetName), dir, m);
    TrainDevDisjoint(d, dir, n, m);
    NoDuplicatesConcat(TrainDataFilenames(d, dir, n), DevDataFilenames(d, dir, m));
  }

  /** The repaired combined list repeats no path. */
  lemma CombinedNoDuplicates(d: Dataset, dir: string, n: int)
    ensures NoDuplicates(CombinedDataFilenamesFixed(d, dir, n))
  {
    var train := TrainDataFilenames(d, dir, n);
    var dev := DevDataFilenames(d, dir, 1);
    var test := TestDataFilenamesFixed(d, dir, 1);
    TrainDevDistinct(d, dir, n, 1);
    DataFilenamesDistinct(TestName(d.datasetName), dir, 1);
    TrainTestDisjoint(d, dir, n, 1);
    DevTestDisjoint(d, dir, 1, 1);
    DisjointConcatLeft(train, dev, test);
    NoDuplicatesConcat(train + dev, test);
  }

  /** `training_filepaths`: the train shards; `shuffled` is not used. */
  function TrainingFilepaths(d: Dataset, dataDir: string, numShards: int, shuffled: bool): (r: seq<string>)
    ensures r == TrainDataFilenames(d, dataDir, numShards)
  {
    TrainDataFilenames(d, dataDir, numShards)
  }

  /** `dev_filepaths`: the dev shards; `shuffled` is not used. */
  function DevFilepaths(d: Dataset, dataDir: string, numShards: int, shuffled: bool): (r: seq<string>)
    ensures r == DevDataFilenames(d, dataDir, numShards)
  {
    DevDataFilenames(d, dataDir, numShards)
  }

  /** `test_filepaths`: raises like `test_data_filenames`; `shuffled` is not used. */
  function TestFilepaths(d: Dataset, dataDir: string, numShards: int, shuffled: bool): (r: Result<seq<string>>)
    ensures r.Failure? && r.error == NameError("self_dataset_name")
  {
    TestDataFilenames(d, dataDir, numShards)
  }

  /** The `shuffled` flag never changes a path list. */
  lemma FilepathsIgnoreShuffled(d: Dataset, dataDir: string, numShards: int)
    ensures TrainingFilepaths(d, dataDir, numShards, true) == TrainingFilepaths(d, dataDir, numShards, false)
    ensures DevFilepaths(d, dataDir, numShards, true) == DevFilepaths(d, dataDir, numShards, false)
    ensures TestFilepaths(d, dataDir, numShards, true) == TestFilepaths(d, dataDir, numShards, false)
  {
  }

  // ---------------------------------------------------------------------
  // Paths that generate_data writes

  /** The file lists `generate_data` hands to the record writer: one
      combined list when train shards are used for dev, else two lists. */
  datatype GenerationPlan =
    | Combined(allPaths: seq<string>)
    | Separate(trainPaths: seq<string>, devPaths: seq<string>)

  /** The path part of `generate_data`: `num_shards` train files and
      `num_dev_shards` dev files under `data_dir`, concatenated train first
      when `use_train_shards_for_dev` holds. */
  function GenerationPaths(d: Dataset, dataDir: string): (p: GenerationPlan)
    ensures p.Combined? <==> d.useTrainShardsForDev
    ensures p.Combined? ==>
      && |p.allPaths| == Max0(d.numShards) + Max0(d.numDevShards)
      && p.allPaths[..Max0(d.numShards)] == TrainingFilepaths(d, dataDir, d.numShards, false)
      && p.allPaths[Max0(d.numShards)..] == DevFilepaths(d, dataDir, d.numDevShards, false)
    ensures p.Separate? ==>
      && p.trainPaths == TrainingFilepaths(d, dataDir, d.numShards, false)
      && p.devPaths == DevFilepaths(d, dataDir, d.numDevShards, false)
  {
    var trainPaths := TrainingFilepaths(d, dataDir, d.numShards, false);
    var devPaths := DevFilepaths(d, dataDir, d.numDevShards, false);
    if d.useTrainShardsForDev then
      assert (trainPaths + devPaths)[..|trainPaths|] == trainPaths;
      assert (trainPaths + devPaths)[|trainPaths|..] == devPaths;
      Combined(trainPaths + devPaths)
    else
      Separate(trainPaths, devPaths)
  }

  /** The one list `generate_data` writes repeats no path, so no record
      file is written twice. */
  lemma GenerationPathsDistinct(d: Dataset, dataDir: string)
    requires d.useTrainShardsForDev
    ensures NoDuplicates(GenerationPaths(d, dataDir).allPaths)
  {
    TrainDevDistinct(d, dataDir, d.numShards, d.numDevShards);
  }

  /** With the base-class defaults the combined list holds the train shards
      and exactly one dev shard. */
  lemma DefaultGenerationPaths(vocabName: string, datasetName: string, isCharacterLevel: bool,
                               useSubwordTokenizer: bool, targetedVocabSize: int, numShards: int, dataDir: string)
    ensures var p := GenerationPaths(NewDataset(vocabName, datasetName, isCharacterLevel,
                                                useSubwordTokenizer, targetedVocabSize, numShards), dataDir);
      p.Combined? && |p.allPaths| == Max0(numShards) + 1
  {
  }

  // ---------------------------------------------------------------------
  // Encoders

  /** The if/elif of `feature_encoders`: character level wins over the
      subword flag; both vocabulary-based encoders read `vocab_file` under
      `data_dir`. */
  function SelectEncoder(d: Dataset, dataDir: string): (e: Encoder)
    ensures e.ByteTextEncoder? <==> d.isCharacterLevel
    ensures e.SubwordTextEncoder? <==> !d.isCharacterLevel && d.useSubwordTokenizer
    ensures e.TokenTextEncoder? <==> !d.isCharacterLevel && !d.useSubwordTokenizer
    ensures !e.ByteTextEncoder? ==> e.vocabFilename == Join(dataDir, VocabFile(d))
  {
    if d.isCharacterLevel then ByteTextEncoder
    else if d.useSubwordTokenizer then SubwordTextEncoder(Join(dataDir, VocabFile(d)))
    else TokenTextEncoder(Join(dataDir, VocabFile(d)))
  }

  /** `feature_encoders(data_dir)` (the second definition, which replaces
      the first): the key "targets" always, "inputs" exactly when the
      dataset has inputs, and the same encoder under every key. */
  function FeatureEncoders(d: Dataset, dataDir: string): (m: map<string, Encoder>)
    ensures "targets" in m
    ensures "inputs" in m <==> d.hasInputs
    ensures forall k :: k in m ==> k == "inputs" || k == "targets"
    ensures forall k :: k in m ==> m[k] == SelectEncoder(d, dataDir)
  {
    var encoder := SelectEncoder(d, dataDir);
    if d.hasInputs then map["inputs" := encoder, "targets" := encoder]
    else map["targets" := encoder]
  }

  /** A character-level dataset gets the byte encoder whatever its subword
      flag, vocabulary and data directory. */
  lemma CharacterLevelPriority(d: Dataset, dataDir: string, useSubword: bool, vocabName: string, otherDir: string)
    requires d.isCharacterLevel
    ensures FeatureEncoders(d, dataDir)
         == FeatureEncoders(d.(useSubwordTokenizer := useSubword, vocabName := vocabName), otherDir)
    ensures FeatureEncoders(d, dataDir)["targets"] == ByteTextEncoder
  {
  }

  /** The subword and token encoders differ only in kind: both read the file
      `<data_dir>/<vocab_name>.<size>`. */
  lemma VocabularyEncodersShareFile(d: Dataset, dataDir: string)
    requires !d.isCharacterLevel
    ensures SelectEncoder(d, dataDir).vocabFilename
         == SelectEncoder(d.(useSubwordTokenizer := !d.useSubwordTokenizer), dataDir).vocabFilename
    ensures SelectEncoder(d, dataDir).vocabFilename
         == Join(dataDir, d.vocabName + "." + FormatInt(d.targetedVocabSize, 0))
  {
  }
}
