/** The members of tefla/dataset/textdataset.py whose code, as written,
    raises under the interpreter the file is written for.

    The file only parses under Python 3 (the `generator` signature at line
    71 puts a keyword-only parameter after `*args`), and under Python 3
    there is no `xrange`; the file also never imports `os`. The members of
    `TextDatasets` model the evidently intended behaviour (`range` and
    `os.path.join`); the members here model what the code does as
    written, and the lemmas set the two side by side. */
module Python3AsWritten {
  import opened Results
  import PosixPath
  import TextDatasets

  /** `shard_filepath` as written: looking up `xrange` raises before a
      single name is built, whatever the shard count. */
  function ShardFilepath(fname: string, numShards: int): (r: Result<seq<string>>)
    ensures r.Failure? && r.error == NameError("xrange")
  {
    Failure(NameError("xrange"))
  }

  /** `_data_filenames` as written: the shard list is evaluated first and
      raises; were it ever to yield a name, the missing `os` would raise
      next. */
  function DataFilenames(outputName: string, outputDir: string, numShards: int): (r: Result<seq<string>>)
    ensures r.Failure? && r.error == NameError("xrange")
  {
    match ShardFilepath(outputName, numShards)
    case Failure(e) => Failure(e)
    case Success(names) => if names == [] then Success([]) else Failure(NameError("os"))
  }

  /** `train_data_filenames` as written: `_data_filenames` raises. */
  function TrainDataFilenames(d: TextDatasets.Dataset, outputDir: string, numShards: int): (r: Result<seq<string>>)
    ensures r.Failure? && r.error == NameError("xrange")
  {
    DataFilenames(TextDatasets.TrainName(d.datasetName), outputDir, numShards)
  }

  /** `dev_data_filenames` as written: `_data_filenames` raises. */
  function DevDataFilenames(d: TextDatasets.Dataset, outputDir: string, numShards: int): (r: Result<seq<string>>)
    ensures r.Failure? && r.error == NameError("xrange")
  {
    DataFilenames(TextDatasets.DevName(d.datasetName), outputDir, numShards)
  }

  /** `test_data_filenames` as written: the `dataset_name` property is read
      for the argument before `_data_filenames` runs, and raises. */
  function TestDataFilenames(d: TextDatasets.Dataset, outputDir: string, numShards: int): (r: Result<seq<string>>)
    ensures r.Failure? && r.error == NameError("self_dataset_name")
  {
    match TextDatasets.DatasetName(d)
    case Failure(e) => Failure(e)
    case Success(name) => DataFilenames(TextDatasets.TestName(name), outputDir, numShards)
  }

  /** `combined_data_filenames` as written: the operands of `+` are
      evaluated left to right, and the first, the train list, raises the
      `xrange` NameError before the test list's `dataset_name` is read. */
  function CombinedDataFilenames(d: TextDatasets.Dataset, outputDir: string, numTrainingShards: int): (r: Result<seq<string>>)
    ensures r.Failure? && r.error == NameError("xrange")
  {
    match TrainDataFilenames(d, outputDir, numTrainingShards)
    case Failure(e) => Failure(e)
    case Success(train) =>
      match DevDataFilenames(d, outputDir, 1)
      case Failure(e) => Failure(e)
      case Success(dev) =>
        match TestDataFilenames(d, outputDir, 1)
        case Failure(e) => Failure(e)
        case Success(test) => Success(train + dev + test)
  }

  /** `feature_encoders` as written: the byte encoder needs no path and is
      built; the two vocabulary-based branches evaluate `os.path.join` and
      raise. */
  function FeatureEncoders(d: TextDatasets.Dataset, dataDir: string): (r: Result<map<string, TextDatasets.Encoder>>)
    ensures r.Success? <==> d.isCharacterLevel
    ensures r.Success? ==> r.value == TextDatasets.FeatureEncoders(d, dataDir)
    ensures r.Failure? ==> r.error == NameError("os")
  {
    if d.isCharacterLevel then Success(TextDatasets.FeatureEncoders(d, dataDir))
    else Failure(NameError("os"))
  }

  /** With one shard the code as written raises, where the intended list
      holds the one name of shard 0 of 1. */
  lemma XRangeDefect(fname: string, dir: string)
    ensures ShardFilepath(fname, 1).Failure? && DataFilenames(fname, dir, 1).Failure?
    ensures TextDatasets.ShardFilepath(fname, 1) == [TextDatasets.ShardedName(fname, 0, 1)]
    ensures |TextDatasets.DataFilenames(fname, dir, 1)| == 1
  {
    var s := TextDatasets.ShardFilepath(fname, 1);
    assert |s| == 1 && s[0] == TextDatasets.ShardedName(fname, 0, 1);
  }

  /** A dataset that is not character level gets no encoders as written,
      where the intended code builds one on `<data_dir>/<vocab_file>`. */
  lemma OsImportDefect(d: TextDatasets.Dataset, dataDir: string)
    requires !d.isCharacterLevel
    ensures FeatureEncoders(d, dataDir) == Failure(NameError("os"))
    ensures TextDatasets.FeatureEncoders(d, dataDir)["targets"].vocabFilename
         == PosixPath.Join(dataDir, TextDatasets.VocabFile(d))
  {
  }
}
