/**
 * The request handlers for uploads and remixes: the extension check on
 * uploaded file names, the validation ladder of the analysis endpoint, and
 * the remix endpoint's checks and output naming. Flask's request parsing,
 * the file system and the audio libraries are parameters: whether a file
 * was sent, its name, the extension whitelist, the name sanitiser, the
 * feature extractor, the existence test and the audio rewriter.
 */
module App {
  import opened Common
  import MoodClassifier
  import AudioProcessor

  // ---------------------------------------------------------------------
  // File-name extension check
  // ---------------------------------------------------------------------

  /** The index of the last '.' in `s`, if there is one. */
  function LastDotIndex(s: string): (r: Option<nat>)
    ensures r.None? <==> '.' !in s
    ensures r.Some? ==> r.value < |s| && s[r.value] == '.' && '.' !in s[r.value + 1..]
    decreases |s|
  {
    if s == [] then None
    else if s[|s| - 1] == '.' then Some(|s| - 1)
    else
      var r := LastDotIndex(s[..|s| - 1]);
      assert r.Some? ==> s[r.value + 1..] == s[..|s| - 1][r.value + 1..] + [s[|s| - 1]];
      r
  }

  /** Python's `s.rsplit('.', 1)[1]`: the text after the last '.'. */
  function Extension(s: string): (ext: string)
    requires '.' in s
    ensures '.' !in ext
    ensures |ext| < |s| && s[|s| - |ext| - 1] == '.' && ext == s[|s| - |ext|..]
  {
    s[LastDotIndex(s).value + 1..]
  }

  /** ASCII lower-casing of one character. */
  function LowerChar(c: char): char
  {
    if 'A' <= c <= 'Z' then (c as int + 32) as char else c
  }

  function ToLower(s: string): (r: string)
    ensures |r| == |s|
    ensures forall k :: 0 <= k < |s| ==> r[k] == LowerChar(s[k])
  {
    seq(|s|, k requires 0 <= k < |s| => LowerChar(s[k]))
  }

  /**
   * A name is accepted when it has a '.' and the lower-cased text after its
   * last '.' is one of the allowed extensions.
   */
  function AllowedFile(filename: string, allowedExtensions: set<string>): (r: bool)
    ensures '.' !in filename ==> !r
  {
    '.' in filename && ToLower(Extension(filename)) in allowedExtensions
  }

  /** In `stem.ext` with a dot-free `ext`, the last '.' is the one just before `ext`. */
  lemma {:induction false} LastDotOfJoin(stem: string, ext: string)
    requires '.' !in ext
    ensures LastDotIndex(stem + "." + ext) == Some(|stem|)
    decreases |ext|
  {
    var s := stem + "." + ext;
    if ext != [] {
      assert s[|s| - 1] == ext[|ext| - 1];
      assert s[..|s| - 1] == stem + "." + ext[..|ext| - 1];
      LastDotOfJoin(stem, ext[..|ext| - 1]);
    } else {
      assert s[|s| - 1] == '.';
    }
  }

  /** The verdict on `stem.ext` depends only on the lower-cased `ext`, whatever the stem holds. */
  lemma AllowedFileByExtension(stem: string, ext: string, allowedExtensions: set<string>)
    requires '.' !in ext
    ensures AllowedFile(stem + "." + ext, allowedExtensions) <==> ToLower(ext) in allowedExtensions
  {
    var s := stem + "." + ext;
    LastDotOfJoin(stem, ext);
    assert s[|stem|] == '.';
    assert s[|stem| + 1..] == ext;
  }

  lemma {:induction false} LastDotOfLower(s: string)
    ensures LastDotIndex(ToLower(s)) == LastDotIndex(s)
    decreases |s|
  {
    if s != [] {
      assert ToLower(s)[..|s| - 1] == ToLower(s[..|s| - 1]);
      LastDotOfLower(s[..|s| - 1]);
    }
  }

  /** Lower-casing the whole name never changes the verdict: the check is case-insensitive. */
  lemma AllowedFileCaseInsensitive(filename: string, allowedExtensions: set<string>)
    ensures AllowedFile(ToLower(filename), allowedExtensions) == AllowedFile(filename, allowedExtensions)
  {
    LastDotOfLower(filename);
    var low := ToLower(filename);
    assert ('.' in low) <==> ('.' in filename) by {
      assert LastDotIndex(low).None? <==> LastDotIndex(filename).None?;
    }
    if '.' in filename {
      var i := LastDotIndex(filename).value;
      assert ToLower(low[i + 1..]) == ToLower(filename[i + 1..]);
    }
  }

  // ---------------------------------------------------------------------
  // POST /api/analyze
  // ---------------------------------------------------------------------

  datatype AnalyzeResponse =
    | Analysis(mood: string, confidence: real, valence: real, energy: real,
               tempo: real, spectralCentroid: real, filename: string)
    | AnalyzeError(status: int, message: string)

  /** The HTTP status that goes with a response. */
  function AnalyzeStatus(r: AnalyzeResponse): int
  {
    match r
    case Analysis(_, _, _, _, _, _, _) => 200
    case AnalyzeError(status, _) => status
  }

  /** The three checks run before anything is saved, in order; `None` when all pass. */
  function ValidateUpload(hasFile: bool, filename: string, allowedExtensions: set<string>): (r: Option<AnalyzeResponse>)
    ensures r.None? <==> hasFile && filename != "" && AllowedFile(filename, allowedExtensions)
    ensures r.Some? ==> r.value.AnalyzeError? && r.value.status == 400
  {
    if !hasFile then Some(AnalyzeError(400, "No file provided"))
    else if filename == "" then Some(AnalyzeError(400, "No file selected"))
    else if !AllowedFile(filename, allowedExtensions) then Some(AnalyzeError(400, "Invalid file type"))
    else None
  }

  /**
   * The analysis endpoint. `secure` is the name sanitiser applied before
   * saving; `extract` is the feature extractor applied to the saved name,
   * `None` when extraction fails.
   */
  function AnalyzeAudio(hasFile: bool, filename: string, allowedExtensions: set<string>,
                        secure: string -> string,
                        extract: string -> Option<AudioProcessor.Features>): (r: AnalyzeResponse)
    ensures !hasFile ==> r == AnalyzeError(400, "No file provided")
    ensures hasFile && filename == "" ==> r == AnalyzeError(400, "No file selected")
    ensures hasFile && filename != "" && !AllowedFile(filename, allowedExtensions) ==>
              r == AnalyzeError(400, "Invalid file type")
    ensures AnalyzeStatus(r) == 400 <==> !(hasFile && filename != "" && AllowedFile(filename, allowedExtensions))
    ensures AnalyzeStatus(r) == 500 <==>
              hasFile && filename != "" && AllowedFile(filename, allowedExtensions) && extract(secure(filename)).None?
    ensures r.Analysis? ==>
              && r.filename == secure(filename)
              && r.mood in MoodClassifier.MoodLabels
              && r.mood == MoodClassifier.ClassifyMoodSimple(r.valence, r.energy).mood
              && r.confidence == MoodClassifier.LabelConfidence(r.mood)
              && 0.0 <= r.valence <= 1.0 && 0.0 <= r.energy <= 1.0
              && extract(secure(filename)).Some?
              && (r.valence, r.energy) == AudioProcessor.EstimateValenceEnergy(extract(secure(filename)).value)
              && r.tempo == extract(secure(filename)).value.tempo
              && r.spectralCentroid == extract(secure(filename)).value.spectralCentroid
    ensures hasFile && filename != "" && AllowedFile(filename, allowedExtensions) && extract(secure(filename)).Some? ==>
              r.Analysis?
  {
    match ValidateUpload(hasFile, filename, allowedExtensions)
    case Some(err) => err
    case None =>
      var saved := secure(filename);
      match extract(saved)
      case None => AnalyzeError(500, "Failed to extract audio features")
      case Some(features) =>
        var (valence, energy) := AudioProcessor.EstimateValenceEnergy(features);
        var c := MoodClassifier.ClassifyMoodSimple(valence, energy);
        Analysis(c.mood, c.confidence, valence, energy, features.tempo, features.spectralCentroid, saved)
  }

  /** A rejected upload never reaches the sanitiser or the extractor: their behaviour cannot matter. */
  lemma RejectedUploadNeverExtracts(hasFile: bool, filename: string, allowedExtensions: set<string>,
                                    secure1: string -> string, extract1: string -> Option<AudioProcessor.Features>,
                                    secure2: string -> string, extract2: string -> Option<AudioProcessor.Features>)
    requires ValidateUpload(hasFile, filename, allowedExtensions).Some?
    ensures AnalyzeAudio(hasFile, filename, allowedExtensions, secure1, extract1)
         == AnalyzeAudio(hasFile, filename, allowedExtensions, secure2, extract2)
  {
  }

  // ---------------------------------------------------------------------
  // POST /api/remix
  // ---------------------------------------------------------------------

  const RemixPrefix := "remix_"

  /** The name of the remixed file: the original name with the prefix in front. */
  function RemixOutputName(filename: string): (out: string)
    ensures |out| == |RemixPrefix| + |filename|
    ensures out[..|RemixPrefix|] == RemixPrefix && out[|RemixPrefix|..] == filename
  {
    RemixPrefix + filename
  }

  /** Two different names never share a remix name. */
  lemma RemixOutputNameInjective(a: string, b: string)
    requires RemixOutputName(a) == RemixOutputName(b)
    ensures a == b
  {
    assert a == RemixOutputName(a)[|RemixPrefix|..];
  }

  /** A missing `mood` key means Calm. */
  function MoodOrDefault(key: Option<string>): (mood: string)
    ensures key.Some? ==> mood == key.value
    ensures key.None? ==> mood == "Calm"
  {
    match key
    case None => "Calm"
    case Some(m) => m
  }

  datatype RemixResponse =
    | RemixCreated(remixFilename: string)
    | RemixError(status: int, message: string)

  /**
   * The remix endpoint. `fileExists` answers for names inside the upload
   * folder; `modifyAudio(input, output, modification)` rewrites the audio and
   * reports success.
   */
  function CreateRemix(filename: Option<string>, moodKey: Option<string>,
                       fileExists: string -> bool,
                       modifyAudio: (string, string, AudioProcessor.Modification) -> bool): (r: RemixResponse)
    ensures (filename.None? || filename == Some("")) <==> r == RemixError(400, "Filename required")
    ensures filename.Some? && filename.value != "" && !fileExists(filename.value) <==>
              r == RemixError(404, "Original file not found")
    ensures && filename.Some? && filename.value != "" && fileExists(filename.value)
            && !modifyAudio(filename.value, RemixOutputName(filename.value),
                            AudioProcessor.RemixModification(MoodOrDefault(moodKey))) ==>
              r == RemixError(500, "Failed to create remix")
    ensures r.RemixCreated? <==>
              && filename.Some? && filename.value != "" && fileExists(filename.value)
              && modifyAudio(filename.value, RemixOutputName(filename.value),
                             AudioProcessor.RemixModification(MoodOrDefault(moodKey)))
    ensures r.RemixCreated? ==> r.remixFilename == RemixOutputName(filename.value)
    ensures r.RemixError? ==> r.status in {400, 404, 500}
  {
    if filename.None? || filename.value == "" then RemixError(400, "Filename required")
    else
      var name := filename.value;
      var output := RemixOutputName(name);
      if !fileExists(name) then RemixError(404, "Original file not found")
      else if !modifyAudio(name, output, AudioProcessor.RemixModification(MoodOrDefault(moodKey))) then
        RemixError(500, "Failed to create remix")
      else RemixCreated(output)
  }
}
