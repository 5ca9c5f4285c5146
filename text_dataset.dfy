/**
 * `ArabDataset4FastPitch._process_textfile`: builds the (token ids, audio
 * path, pitch contour) list of the line-file dataset.
 *
 * Reading the file, matching the label pattern, the `text` conversions, the
 * file system and the loaded pitch dictionary are parameters bundled in a
 * `Loader`. A pitch contour is the one row of the `[1, frames]` tensor
 * `f0_dict[name][None]`.
 */
module TextDataset {
  import opened Wrappers
  import opened Paths
  import opened Filtering
  import opened LineParser

  /** The loader's collaborators and configuration. */
  datatype Loader = Loader(
    matchLine: string -> Option<Groups>,             // re.search(label_pattern, line), then groupdict()
    arabicToPhonemes: Converter,
    buckwalterToPhonemes: Converter,
    phonemesToIds: Option<string> -> Option<seq<int>>,  // tokens_to_ids(phonemes_to_tokens(.)); None when it raises
    wavPath: string,
    fileExists: string -> bool,                      // os.path.exists
    pitchDict: map<string, seq<real>>)               // torch.load(f0_dict_path)

  /** One dataset entry: token ids, audio path and pitch contour. */
  datatype TextEntry = TextEntry(tokenIds: seq<int>, fpath: string, pitch: seq<real>)

  /** Failures outside the loop's `try` blocks, which abort the whole load. */
  datatype LoadError =
    | NoneFileName           // os.path.join(wav_path, None) raises TypeError
    | MissingPitch(key: string)  // f0_dict[wav_name] raises KeyError

  /** What `_process_line` makes of a line. */
  function ParsedLine(env: Loader, line: string): Result<LineFields, LineError> {
    ProcessLine(env.matchLine(line), env.arabicToPhonemes, env.buckwalterToPhonemes)
  }

  /** The line parses and names a file (its file name is not `None`). */
  predicate Named(env: Loader, line: string) {
    ParsedLine(env, line).Ok? && ParsedLine(env, line).value.filename.Some?
  }

  /** The audio path of a line that names a file. */
  function LinePath(env: Loader, line: string): string
    requires Named(env, line)
  {
    JoinPath(env.wavPath, ParsedLine(env, line).value.filename.value)
  }

  /** The line gets through both `try` blocks: it names an existing file and its phonemes tokenize. */
  predicate GoodLine(env: Loader, line: string) {
    Named(env, line) && env.fileExists(LinePath(env, line)) &&
    env.phonemesToIds(ParsedLine(env, line).value.phonemes).Some?
  }

  /**
   * One iteration of the line loop. Lines that do not parse, whose audio file
   * is missing or whose phonemes do not tokenize are logged and skipped; a
   * `None` file name and a good line without a pitch contour abort the load;
   * every other good line is kept.
   */
  function LineStep(env: Loader, line: string): (r: Result<Option<TextEntry>, LoadError>)
    ensures ParsedLine(env, line).Err? ==> r == Ok(None)
    ensures r == Err(NoneFileName) <==> ParsedLine(env, line).Ok? && ParsedLine(env, line).value.filename.None?
    ensures r.Err? && r.error.MissingPitch? <==>
              GoodLine(env, line) && BaseName(LinePath(env, line)) !in env.pitchDict
    ensures r.Err? && r.error.MissingPitch? ==> r.error.key == BaseName(LinePath(env, line))
    ensures r.Ok? && r.value.Some? <==> GoodLine(env, line) && BaseName(LinePath(env, line)) in env.pitchDict
    ensures r.Ok? && r.value.Some? ==>
              r.value.value == TextEntry(env.phonemesToIds(ParsedLine(env, line).value.phonemes).value,
                                         LinePath(env, line),
                                         env.pitchDict[BaseName(LinePath(env, line))])
  {
    match ParsedLine(env, line)
    case Err(_) => Ok(None)
    case Ok(fields) =>
      match fields.filename
      case None => Err(NoneFileName)
      case Some(filename) =>
        var fpath := JoinPath(env.wavPath, filename);
        if !env.fileExists(fpath) then Ok(None)
        else
          match env.phonemesToIds(fields.phonemes)
          case None => Ok(None)
          case Some(ids) =>
            var wavName := BaseName(fpath);
            if wavName !in env.pitchDict then Err(MissingPitch(wavName))
            else Ok(Some(TextEntry(ids, fpath, env.pitchDict[wavName])))
  }

  function LineStepper(env: Loader): string -> Result<Option<TextEntry>, LoadError> {
    line => LineStep(env, line)
  }

  /** The entries the loader keeps from `lines`, or the error that aborted it. */
  function LoadedEntries(env: Loader, lines: seq<string>): Result<seq<TextEntry>, LoadError> {
    Collect(lines, LineStepper(env))
  }

  /** `_process_textfile`, over the lines `read_lines_from_file` returned. */
  method ProcessTextFile(env: Loader, lines: seq<string>) returns (r: Result<seq<TextEntry>, LoadError>)
    ensures r == LoadedEntries(env, lines)
  {
    var step := LineStepper(env);
    var entries: seq<TextEntry> := [];
    for i := 0 to |lines|
      invariant Collect(lines[..i], step) == Ok(entries)
    {
      assert lines[..i + 1][..i] == lines[..i];
      var line := lines[i];
      var parsed := ProcessLine(env.matchLine(line), env.arabicToPhonemes, env.buckwalterToPhonemes);
      if parsed.Err? {
        // "invalid line": skipped
        continue;
      }
      var phonemes, filename := parsed.value.phonemes, parsed.value.filename;
      if filename.None? {
        // os.path.join raises outside the try
        assert step(line) == Err(NoneFileName);
        AbortIsFinal(lines, step, i + 1);
        return Err(NoneFileName);
      }
      var fpath := JoinPath(env.wavPath, filename.value);
      if !env.fileExists(fpath) {
        // "<fpath> does not exist": skipped
        continue;
      }
      var tokenIds := env.phonemesToIds(phonemes);
      if tokenIds.None? {
        // "invalid phonemes": skipped
        continue;
      }
      var wavName := BaseName(fpath);
      if wavName !in env.pitchDict {
        // KeyError outside the try
        assert step(line) == Err(MissingPitch(wavName));
        AbortIsFinal(lines, step, i + 1);
        return Err(MissingPitch(wavName));
      }
      entries := entries + [TextEntry(tokenIds.value, fpath, env.pitchDict[wavName])];
    }
    assert lines[..|lines|] == lines;
    return Ok(entries);
  }

  /**
   * When no line aborts, the loader keeps exactly the good lines, each once
   * and in file order, with the line's token ids, its audio path and the
   * pitch contour stored under that path's base name.
   */
  lemma KeptEntriesAreTheGoodLines(env: Loader, lines: seq<string>)
    requires forall j :: 0 <= j < |lines| ==> LineStep(env, lines[j]).Ok?
    ensures LoadedEntries(env, lines).Ok?
    ensures var out := LoadedEntries(env, lines).value;
            var ks := KeptIndices(lines, LineStepper(env));
            |ks| == |out| && StrictlyIncreasing(ks) &&
            (forall k :: 0 <= k < |ks| ==>
               GoodLine(env, lines[ks[k]]) &&
               out[k] == TextEntry(env.phonemesToIds(ParsedLine(env, lines[ks[k]]).value.phonemes).value,
                                   LinePath(env, lines[ks[k]]),
                                   env.pitchDict[BaseName(LinePath(env, lines[ks[k]]))])) &&
            (forall j :: 0 <= j < |lines| ==> (j in ks <==> GoodLine(env, lines[j])))
  {
    var step := LineStepper(env);
    assert forall line :: step(line) == LineStep(env, line);
    CollectKeepsAcceptedInOrder(lines, step);
  }

  /** Every kept entry's audio file exists, and its pitch is the dictionary's contour for the file's base name. */
  lemma LoadedEntriesExistWithPitch(env: Loader, lines: seq<string>)
    requires forall j :: 0 <= j < |lines| ==> LineStep(env, lines[j]).Ok?
    ensures LoadedEntries(env, lines).Ok?
    ensures var out := LoadedEntries(env, lines).value;
            forall k :: 0 <= k < |out| ==>
              env.fileExists(out[k].fpath) &&
              BaseName(out[k].fpath) in env.pitchDict &&
              out[k].pitch == env.pitchDict[BaseName(out[k].fpath)]
  {
    var step := LineStepper(env);
    assert forall line :: step(line) == LineStep(env, line);
    CollectKeepsAcceptedInOrder(lines, step);
  }

  /**
   * A line that parses and tokenizes, whose audio file exists but has no
   * pitch contour, aborts the whole load when every earlier line is fine:
   * the dictionary lookup is outside the `try`.
   */
  lemma MissingPitchAborts(env: Loader, lines: seq<string>, j: nat)
    requires j < |lines|
    requires forall i :: 0 <= i < j ==> LineStep(env, lines[i]).Ok?
    requires var p := ProcessLine(env.matchLine(lines[j]), env.arabicToPhonemes, env.buckwalterToPhonemes);
             p.Ok? && p.value.filename.Some? &&
             env.fileExists(JoinPath(env.wavPath, p.value.filename.value)) &&
             env.phonemesToIds(p.value.phonemes).Some? &&
             BaseName(p.value.filename.value) !in env.pitchDict
    ensures var p := ProcessLine(env.matchLine(lines[j]), env.arabicToPhonemes, env.buckwalterToPhonemes);
            LoadedEntries(env, lines) == Err(MissingPitch(BaseName(p.value.filename.value)))
  {
    var step := LineStepper(env);
    var p := ProcessLine(env.matchLine(lines[j]), env.arabicToPhonemes, env.buckwalterToPhonemes);
    BaseNameOfJoin(env.wavPath, p.value.filename.value);
    assert step(lines[j]) == LineStep(env, lines[j]);
    assert forall i :: 0 <= i < j ==> step(lines[i]) == LineStep(env, lines[i]);
    CollectAbortsAtFirstFailure(lines, step, j);
  }
}
