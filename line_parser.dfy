/**
 * `_process_line`: turns the named groups of a label-pattern match into a
 * phoneme string and an audio file name.
 *
 * A match's `groupdict()` has one key per named group of the pattern; a
 * group that did not take part in the match is present with the value
 * `None`. The regular-expression search itself is not modelled: the caller
 * supplies its outcome (`None` when the pattern does not match the line).
 * The grapheme-to-phoneme conversions of the `text` module are parameters;
 * they receive the group's value as it is (possibly `None`) and answer
 * `None` when they raise.
 */
module LineParser {
  import opened Wrappers

  /** The `groupdict()` of a match: group name to captured text, `None` for a non-participating group. */
  type Groups = map<string, Option<string>>

  /** A `text` module conversion: `None` in stands for Python's `None`, `None` out for an exception. */
  type Converter = Option<string> -> Option<string>

  datatype LineError =
    | NoMatch               // `re.search` found nothing: `Exception('no match for line')`
    | ConversionFailed      // a `text` conversion raised
    | NoTranscriptionGroup  // none of arabic/phonemes/buckwalter: `phonemes` is unbound at the return
    | NoFileGroup           // neither filename nor filestem: `filename` is unbound at the return

  /** The pair `_process_line` returns; either part may be Python's `None`. */
  datatype LineFields = LineFields(phonemes: Option<string>, filename: Option<string>)

  /** `f"{value}.wav"`: a `None` stem is formatted as the text `None`. */
  function StemToFileName(stem: Option<string>): (name: string)
    ensures |name| >= 4 && name[|name| - 4..] == ".wav"
    ensures name[..|name| - 4] == (if stem.Some? then stem.value else "None")
  {
    match stem
    case Some(s) => s + ".wav"
    case None => "None.wav"
  }

  /** The phoneme part: arabic is converted, phonemes taken as they are, buckwalter converted. */
  function PhonemesOf(g: Groups, arabicToPhonemes: Converter, buckwalterToPhonemes: Converter)
    : (r: Result<Option<string>, LineError>)
    ensures r == Err(NoTranscriptionGroup) <==> "arabic" !in g && "phonemes" !in g && "buckwalter" !in g
    ensures r.Err? ==> r.error == NoTranscriptionGroup || r.error == ConversionFailed
    ensures "arabic" in g ==>
              (r.Ok? <==> arabicToPhonemes(g["arabic"]).Some?) &&
              (r.Ok? ==> r.value == arabicToPhonemes(g["arabic"]))
    ensures "arabic" !in g && "phonemes" in g ==> r == Ok(g["phonemes"])
    ensures "arabic" !in g && "phonemes" !in g && "buckwalter" in g ==>
              (r.Ok? <==> buckwalterToPhonemes(g["buckwalter"]).Some?) &&
              (r.Ok? ==> r.value == buckwalterToPhonemes(g["buckwalter"]))
  {
    if "arabic" in g then
      (match arabicToPhonemes(g["arabic"])
       case Some(p) => Ok(Some(p))
       case None => Err(ConversionFailed))
    else if "phonemes" in g then Ok(g["phonemes"])
    else if "buckwalter" in g then
      (match buckwalterToPhonemes(g["buckwalter"])
       case Some(p) => Ok(Some(p))
       case None => Err(ConversionFailed))
    else Err(NoTranscriptionGroup)
  }

  /** The file part: a file name is taken as it is, a stem gets `.wav` appended. */
  function FileNameOf(g: Groups): (r: Option<Option<string>>)
    ensures r.None? <==> "filename" !in g && "filestem" !in g
    ensures "filename" in g ==> r == Some(g["filename"])
    ensures "filename" !in g && "filestem" in g ==>
              r.Some? && r.value.Some? && r.value.value == StemToFileName(g["filestem"])
  {
    if "filename" in g then Some(g["filename"])
    else if "filestem" in g then Some(Some(StemToFileName(g["filestem"])))
    else None
  }

  /** `_process_line`, given the outcome of `re.search(label_pattern, line)`. */
  function ProcessLine(m: Option<Groups>, arabicToPhonemes: Converter, buckwalterToPhonemes: Converter)
    : (r: Result<LineFields, LineError>)
    ensures r == Err(NoMatch) <==> m.None?
    ensures r == Err(NoTranscriptionGroup) <==>
              m.Some? && "arabic" !in m.value && "phonemes" !in m.value && "buckwalter" !in m.value
    ensures r == Err(NoFileGroup) <==>
              m.Some? && PhonemesOf(m.value, arabicToPhonemes, buckwalterToPhonemes).Ok? &&
              "filename" !in m.value && "filestem" !in m.value
    ensures r.Ok? <==>
              m.Some? && PhonemesOf(m.value, arabicToPhonemes, buckwalterToPhonemes).Ok? &&
              ("filename" in m.value || "filestem" in m.value)
    ensures r.Ok? ==>
              r.value == LineFields(PhonemesOf(m.value, arabicToPhonemes, buckwalterToPhonemes).value,
                                    FileNameOf(m.value).value)
  {
    match m
    case None => Err(NoMatch)
    case Some(g) =>
      match PhonemesOf(g, arabicToPhonemes, buckwalterToPhonemes)
      case Err(e) => Err(e)
      case Ok(phonemes) =>
        match FileNameOf(g)
        case None => Err(NoFileGroup)
        case Some(filename) => Ok(LineFields(phonemes, filename))
  }

  // ---- the tagged-variant view of a label line ----

  /** Which transcription a label pattern captures. */
  datatype Transcription = Arabic(arabic: string) | Phonemes(phonemes: string) | Buckwalter(buckwalter: string)

  /** How a label pattern names the audio file. */
  datatype AudioName = FileName(name: string) | FileStem(stem: string)

  /** The `groupdict()` of a match of a pattern with exactly these two groups, both captured. */
  function GroupsOf(t: Transcription, a: AudioName): Groups {
    var tg := match t
      case Arabic(s) => map["arabic" := Some(s)]
      case Phonemes(s) => map["phonemes" := Some(s)]
      case Buckwalter(s) => map["buckwalter" := Some(s)];
    match a
    case FileName(n) => tg["filename" := Some(n)]
    case FileStem(s) => tg["filestem" := Some(s)]
  }

  /** The audio file a tagged line refers to. */
  function AudioFileOf(a: AudioName): string {
    match a
    case FileName(n) => n
    case FileStem(s) => s + ".wav"
  }

  /**
   * Parsing the group dictionary of a tagged line recovers the tagged
   * variant: phonemes unchanged, the other transcriptions converted, and
   * the audio file name (with `.wav` added to a stem).
   */
  lemma TaggedLineRoundTrip(t: Transcription, a: AudioName, arabicToPhonemes: Converter, buckwalterToPhonemes: Converter)
    ensures var r := ProcessLine(Some(GroupsOf(t, a)), arabicToPhonemes, buckwalterToPhonemes);
            match t
            case Phonemes(p) => r == Ok(LineFields(Some(p), Some(AudioFileOf(a))))
            case Arabic(s) =>
              if arabicToPhonemes(Some(s)).Some?
              then r == Ok(LineFields(arabicToPhonemes(Some(s)), Some(AudioFileOf(a))))
              else r == Err(ConversionFailed)
            case Buckwalter(s) =>
              if buckwalterToPhonemes(Some(s)).Some?
              then r == Ok(LineFields(buckwalterToPhonemes(Some(s)), Some(AudioFileOf(a))))
              else r == Err(ConversionFailed)
  {
    var g := GroupsOf(t, a);
    match a {
      case FileName(n) =>
        assert "filename" in g && g["filename"] == Some(n);
      case FileStem(s) =>
        assert "filename" !in g && "filestem" in g && g["filestem"] == Some(s);
    }
    match t {
      case Arabic(s) =>
        assert "arabic" in g && g["arabic"] == Some(s);
      case Phonemes(p) =>
        assert "arabic" !in g && "phonemes" in g && g["phonemes"] == Some(p);
      case Buckwalter(s) =>
        assert "arabic" !in g && "phonemes" !in g && "buckwalter" in g && g["buckwalter"] == Some(s);
    }
  }

  /** An `arabic` group hides any `phonemes` or `buckwalter` group of the same pattern. */
  lemma ArabicTakesPrecedence(g: Groups, arabicToPhonemes: Converter, buckwalterToPhonemes: Converter)
    requires "arabic" in g
    ensures ProcessLine(Some(g), arabicToPhonemes, buckwalterToPhonemes) ==
            ProcessLine(Some(g - {"phonemes", "buckwalter"}), arabicToPhonemes, buckwalterToPhonemes)
  {
    var h := g - {"phonemes", "buckwalter"};
    assert "arabic" in h && h["arabic"] == g["arabic"];
    assert ("filename" in h <==> "filename" in g) && ("filestem" in h <==> "filestem" in g);
    assert FileNameOf(h) == FileNameOf(g);
  }

  /** A `phonemes` group hides any `buckwalter` group of the same pattern. */
  lemma PhonemesTakePrecedence(g: Groups, arabicToPhonemes: Converter, buckwalterToPhonemes: Converter)
    requires "phonemes" in g
    ensures ProcessLine(Some(g), arabicToPhonemes, buckwalterToPhonemes) ==
            ProcessLine(Some(g - {"buckwalter"}), arabicToPhonemes, buckwalterToPhonemes)
  {
    var h := g - {"buckwalter"};
    assert "phonemes" in h && h["phonemes"] == g["phonemes"];
    assert ("arabic" in h <==> "arabic" in g);
    assert "arabic" in g ==> h["arabic"] == g["arabic"];
    assert ("filename" in h <==> "filename" in g) && ("filestem" in h <==> "filestem" in g);
    assert FileNameOf(h) == FileNameOf(g);
  }

  /** A `filename` group hides any `filestem` group of the same pattern. */
  lemma FileNameTakesPrecedence(g: Groups, arabicToPhonemes: Converter, buckwalterToPhonemes: Converter)
    requires "filename" in g
    ensures ProcessLine(Some(g), arabicToPhonemes, buckwalterToPhonemes) ==
            ProcessLine(Some(g - {"filestem"}), arabicToPhonemes, buckwalterToPhonemes)
  {
    var h := g - {"filestem"};
    assert "filename" in h && h["filename"] == g["filename"];
    assert forall k :: k in {"arabic", "phonemes", "buckwalter"} ==> (k in h <==> k in g);
    assert forall k :: k in {"arabic", "phonemes", "buckwalter"} && k in g ==> h[k] == g[k];
    assert PhonemesOf(h, arabicToPhonemes, buckwalterToPhonemes) == PhonemesOf(g, arabicToPhonemes, buckwalterToPhonemes);
  }

  /** The default pattern `"(?P<filename>.*)" "(?P<phonemes>.*)"` on the line `"a.wav" "abc"`. */
  lemma DefaultPatternExample(arabicToPhonemes: Converter, buckwalterToPhonemes: Converter)
    ensures ProcessLine(Some(map["filename" := Some("a.wav"), "phonemes" := Some("abc")]),
                        arabicToPhonemes, buckwalterToPhonemes)
            == Ok(LineFields(Some("abc"), Some("a.wav")))
  {
  }
}
