/**
 * `ArabDataset._process_csvfile`: builds the (token ids, audio path) list of
 * the CSV-backed dataset. The CSV reader, the `text` tokenizer and the file
 * system are parameters: `columns` and `rows` are what `pandas.read_csv`
 * produced, `tokenize` stands for `tokens_to_ids(buckwalter_to_tokens(.))`
 * (`None` when either raises) and `fileExists` for `os.path.exists`.
 */
module CsvDataset {
  import opened Wrappers
  import opened Paths
  import opened Filtering

  const RequiredColumns: seq<string> := ["index", "text", "Diacterized", "Buckwalter", "Cleaned_Text"]

  /** The cells of a row that the loader uses (the `text` and `Cleaned_Text` cells are read and ignored). */
  datatype Row = Row(index: int, buckwalter: string)

  /** One dataset entry: token ids and the audio file path. */
  datatype Entry = Entry(tokenIds: seq<int>, fpath: string)

  datatype CsvError = MissingColumn(column: string)

  type Tokenizer = string -> Option<seq<int>>

  /** The audio file a row refers to. */
  function RowPath(wavPath: string, row: Row): string {
    JoinPath(wavPath, ClipFileName(row.index))
  }

  /**
   * One iteration of the row loop: a row whose tokenization raises or whose
   * audio file is missing is logged and skipped; no row aborts the load.
   */
  function RowStep(wavPath: string, tokenize: Tokenizer, fileExists: string -> bool, row: Row)
    : (r: Result<Option<Entry>, CsvError>)
    ensures r.Ok?
    ensures r.value.Some? <==> tokenize(row.buckwalter).Some? && fileExists(RowPath(wavPath, row))
    ensures r.value.Some? ==> r.value.value == Entry(tokenize(row.buckwalter).value, RowPath(wavPath, row))
  {
    match tokenize(row.buckwalter)
    case None => Ok(None)
    case Some(ids) =>
      var fpath := RowPath(wavPath, row);
      if fileExists(fpath) then Ok(Some(Entry(ids, fpath))) else Ok(None)
  }

  function RowStepper(wavPath: string, tokenize: Tokenizer, fileExists: string -> bool)
    : Row -> Result<Option<Entry>, CsvError>
  {
    row => RowStep(wavPath, tokenize, fileExists, row)
  }

  /** The entries the loader keeps from `rows`. */
  function KeptEntries(rows: seq<Row>, wavPath: string, tokenize: Tokenizer, fileExists: string -> bool)
    : Result<seq<Entry>, CsvError>
  {
    Collect(rows, RowStepper(wavPath, tokenize, fileExists))
  }

  /**
   * `_process_csvfile`: fails on the first required column (in the order
   * above) that is missing; otherwise keeps, in order, the rows that
   * tokenize and whose `clip_{index:05}.wav` exists under `wavPath`.
   */
  method ProcessCsvFile(columns: seq<string>, rows: seq<Row>, wavPath: string,
                        tokenize: Tokenizer, fileExists: string -> bool)
    returns (r: Result<seq<Entry>, CsvError>)
    ensures r.Err? <==> exists c :: c in RequiredColumns && c !in columns
    ensures r.Err? ==> exists k :: 0 <= k < |RequiredColumns| && r.error == MissingColumn(RequiredColumns[k]) &&
                                   RequiredColumns[k] !in columns &&
                                   forall i :: 0 <= i < k ==> RequiredColumns[i] in columns
    ensures r.Ok? ==> Ok(r.value) == KeptEntries(rows, wavPath, tokenize, fileExists)
  {
    for k := 0 to |RequiredColumns|
      invariant forall i :: 0 <= i < k ==> RequiredColumns[i] in columns
    {
      if RequiredColumns[k] !in columns {
        return Err(MissingColumn(RequiredColumns[k]));
      }
    }
    var step := RowStepper(wavPath, tokenize, fileExists);
    var dataList: seq<Entry> := [];
    for i := 0 to |rows|
      invariant Collect(rows[..i], step) == Ok(dataList)
    {
      assert rows[..i + 1][..i] == rows[..i];
      var row := rows[i];
      var filename := ClipFileName(row.index);
      var tokenIds := tokenize(row.buckwalter);
      if tokenIds.None? {
        // "Error processing row": the row is skipped
        continue;
      }
      var fpath := JoinPath(wavPath, filename);
      if !fileExists(fpath) {
        // "<fpath> does not exist": the row is skipped
        continue;
      }
      dataList := dataList + [Entry(tokenIds.value, fpath)];
    }
    assert rows[..|rows|] == rows;
    return Ok(dataList);
  }

  /**
   * What the loader keeps: the rows that tokenize and whose audio file
   * exists, each exactly once and in the CSV's order, with the row's own
   * token ids and clip path.
   */
  lemma KeptEntriesAreTheGoodRows(rows: seq<Row>, wavPath: string, tokenize: Tokenizer, fileExists: string -> bool)
    ensures KeptEntries(rows, wavPath, tokenize, fileExists).Ok?
    ensures var out := KeptEntries(rows, wavPath, tokenize, fileExists).value;
            var ks := KeptIndices(rows, RowStepper(wavPath, tokenize, fileExists));
            |ks| == |out| && StrictlyIncreasing(ks) &&
            (forall k :: 0 <= k < |ks| ==>
               tokenize(rows[ks[k]].buckwalter) == Some(out[k].tokenIds) &&
               out[k].fpath == RowPath(wavPath, rows[ks[k]]) && fileExists(out[k].fpath)) &&
            (forall j :: 0 <= j < |rows| ==>
               (j in ks <==> tokenize(rows[j].buckwalter).Some? && fileExists(RowPath(wavPath, rows[j]))))
  {
    var step := RowStepper(wavPath, tokenize, fileExists);
    assert forall row :: step(row) == RowStep(wavPath, tokenize, fileExists, row);
    CollectKeepsAcceptedInOrder(rows, step);
  }

  /** The clip name of a one-digit index. */
  lemma OneDigitClipName(i: nat)
    requires i < 10
    ensures ClipFileName(i) == "clip_0000" + [DigitChar(i)] + ".wav"
  {
    assert Decimal(i) == [DigitChar(i)];
    assert Zeros(4) == "0000";
    assert FormatIndex(i) == "0000" + [DigitChar(i)];
  }

  lemma SmallClipNames()
    ensures ClipFileName(1) == "clip_00001.wav"
    ensures ClipFileName(2) == "clip_00002.wav"
    ensures ClipFileName(3) == "clip_00003.wav"
  {
    OneDigitClipName(1);
    OneDigitClipName(2);
    OneDigitClipName(3);
  }

  /**
   * A three-row CSV whose second clip is missing yields two entries, for the
   * first and the third row (`clip_00001.wav` and `clip_00003.wav`).
   */
  lemma MissingFileSkipped(wavPath: string, tokenize: Tokenizer, fileExists: string -> bool)
    requires forall s :: tokenize(s).Some?
    requires fileExists(RowPath(wavPath, Row(1, "a")))
    requires !fileExists(RowPath(wavPath, Row(2, "b")))
    requires fileExists(RowPath(wavPath, Row(3, "c")))
    ensures KeptEntries([Row(1, "a"), Row(2, "b"), Row(3, "c")], wavPath, tokenize, fileExists) ==
              Ok([Entry(tokenize("a").value, JoinPath(wavPath, "clip_00001.wav")),
                  Entry(tokenize("c").value, JoinPath(wavPath, "clip_00003.wav"))])
  {
    var r1, r2, r3 := Row(1, "a"), Row(2, "b"), Row(3, "c");
    var step := RowStepper(wavPath, tokenize, fileExists);
    SmallClipNames();
    var e1 := Entry(tokenize("a").value, RowPath(wavPath, r1));
    var e3 := Entry(tokenize("c").value, RowPath(wavPath, r3));
    assert step(r1) == Ok(Some(e1)) by { assert step(r1) == RowStep(wavPath, tokenize, fileExists, r1); }
    assert step(r2) == Ok(None) by { assert step(r2) == RowStep(wavPath, tokenize, fileExists, r2); }
    assert step(r3) == Ok(Some(e3)) by { assert step(r3) == RowStep(wavPath, tokenize, fileExists, r3); }
    assert Collect([], step) == Ok([]);
    CollectSnoc([], r1, step);
    assert [] + [r1] == [r1] && [] + [e1] == [e1];
    assert Collect([r1], step) == Ok([e1]);
    CollectSnoc([r1], r2, step);
    assert [r1] + [r2] == [r1, r2];
    assert Collect([r1, r2], step) == Ok([e1]);
    CollectSnoc([r1, r2], r3, step);
    assert [r1, r2] + [r3] == [r1, r2, r3] && [e1] + [e3] == [e1, e3];
  }
}
