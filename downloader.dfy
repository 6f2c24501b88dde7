/**
 * `YoutubeDownloader.download_video`: checks the URL, updates the stored
 * output directory, builds the options handed to the download library and
 * turns the library's outcome into a status record.
 *
 * The library itself is not modelled: what it would do with the options is
 * an input (`LibraryOutcome`), and the options it is handed, if it is
 * invoked at all, are an output.
 */
module Downloader {
  import opened Wrappers
  import opened Text
  import opened Formats
  import Paths

  /** The output file name template, relative to the output directory. */
  const OutputTemplate := "%(title)s.%(ext)s"

  const EmptyUrlMessage := "URL cannot be empty"
  const FfmpegRequiredMessage := "FFmpeg is required for audio extraction. Please install FFmpeg and add it to your PATH."
  const FfmpegErrorPrefix := "FFmpeg error: "
  const FfmpegInstallHint := "\nPlease install FFmpeg from https://ffmpeg.org/download.html"
  const DownloadErrorPrefix := "Download error: "
  const UnknownTitle := "Unknown"

  /** The two words whose presence marks a download error as a transcoder error. */
  const FfmpegWord := "ffmpeg"
  const PostprocessorWord := "postprocessor"

  /** One post-processing step of the download library. */
  datatype PostProcessor = PostProcessor(key: string, preferredCodec: string, preferredQuality: string)

  /** Extract the audio track and transcode it to 192 kbit/s MP3. */
  const ExtractMp3 := PostProcessor("FFmpegExtractAudio", "mp3", "192")

  /** The options dictionary handed to the download library. */
  datatype Options = Options(
    format: string,
    outtmpl: string,
    noplaylist: bool,
    ignoreerrors: bool,
    verbose: bool,
    postprocessor: Option<PostProcessor>,
    hasProgressHook: bool)

  /**
   * What the two `extract_info` calls and `prepare_filename` end in. A
   * `title` of `None` means the info dictionary has no `'title'` key; a key
   * stored with the value `None` is not modelled (`info.get` would return it
   * as is, not "Unknown").
   */
  datatype LibraryOutcome =
    | Success(title: Option<string>, filename: string)
    | DownloadError(message: string)
    | OtherError(message: string)

  /** The status dictionary `download_video` returns. */
  datatype DownloadResult =
    | Succeeded(title: string, filename: string, path: string, format: string)
    | Failed(error: string)

  /** A returned status record, or the `ValueError` raised for an empty URL. */
  datatype Reply = Returned(result: DownloadResult) | Raised(valueError: string)

  /** One call's effect: the stored directory afterwards, the library call made (if any) and the reply. */
  datatype Step = Step(outputPath: string, call: Option<Options>, reply: Reply)

  /** Python truthiness of an optional string: `None` and the empty string are the only falsy values. */
  function Truthy(s: Option<string>): (b: bool)
    ensures !b <==> s == None || s == Some("")
  {
    s.Some? && s.value != ""
  }

  predicate HasPrefix(s: string, prefix: string)
  {
    |prefix| <= |s| && s[..|prefix|] == prefix
  }

  /**
   * The test `"ffmpeg" in msg.lower() or "postprocessor" in msg.lower()`:
   * the library's error text mentions one of the two words, in any letter case.
   */
  function MentionsTranscoder(message: string): (b: bool)
    ensures b <==> (exists i: nat :: OccursAtIgnoringCase(message, FfmpegWord, i)) ||
                   (exists i: nat :: OccursAtIgnoringCase(message, PostprocessorWord, i))
  {
    WordsAreLowerCase();
    ContainsIgnoringCase(message, FfmpegWord);
    ContainsIgnoringCase(message, PostprocessorWord);
    Contains(Lower(message), FfmpegWord) || Contains(Lower(message), PostprocessorWord)
  }

  /**
   * The error text for a library download error: a transcoder hint when the
   * message mentions FFmpeg or a post-processor, otherwise a plain prefix.
   * Either way the kind can be told from the prefix and the library's own
   * message follows it unchanged.
   */
  function DownloadErrorText(message: string): (e: string)
    ensures HasPrefix(e, FfmpegErrorPrefix) <==> MentionsTranscoder(message)
    ensures HasPrefix(e, DownloadErrorPrefix) <==> !MentionsTranscoder(message)
    ensures MentionsTranscoder(message) ==>
              |e| == |FfmpegErrorPrefix| + |message| + |FfmpegInstallHint| &&
              e[|FfmpegErrorPrefix|..|FfmpegErrorPrefix| + |message|] == message &&
              e[|FfmpegErrorPrefix| + |message|..] == FfmpegInstallHint
    ensures !MentionsTranscoder(message) ==> e[|DownloadErrorPrefix|..] == message
  {
    if MentionsTranscoder(message) then
      var e := FfmpegErrorPrefix + message + FfmpegInstallHint;
      assert e[..|DownloadErrorPrefix|][0] != DownloadErrorPrefix[0];
      e
    else
      var e := DownloadErrorPrefix + message;
      assert e[..|FfmpegErrorPrefix|][0] != FfmpegErrorPrefix[0];
      e
  }

  /**
   * The status record for a library outcome: a success record carrying the
   * title (or "Unknown"), the file name, the directory and the label as the
   * caller passed it; an error record otherwise.
   */
  function ResultFor(outcome: LibraryOutcome, path: string, formatOption: string): (r: DownloadResult)
    ensures r.Succeeded? <==> outcome.Success?
    ensures outcome.Success? ==>
              r.path == path && r.format == formatOption && r.filename == outcome.filename &&
              (outcome.title.Some? ==> r.title == outcome.title.value) &&
              (outcome.title.None? ==> r.title == UnknownTitle)
    ensures outcome.DownloadError? ==> r.error == DownloadErrorText(outcome.message)
    ensures outcome.OtherError? ==> r.error == outcome.message
  {
    match outcome
    case Success(title, filename) => Succeeded(title.GetOr(UnknownTitle), filename, path, formatOption)
    case DownloadError(message) => Failed(DownloadErrorText(message))
    case OtherError(message) => Failed(message)
  }

  /**
   * What one `download_video` call does, given the stored output directory,
   * its arguments, whether FFmpeg is available and what the library would
   * do if invoked.
   */
  function DownloadStep(stored: string, url: Option<string>, formatOption: string, outputPath: Option<string>,
                        progressCallback: bool, ffmpegAvailable: bool, outcome: LibraryOutcome): (s: Step)
    // An empty or absent URL raises before anything is changed or called.
    ensures !Truthy(url) ==> s == Step(stored, None, Raised(EmptyUrlMessage))
    // Otherwise a non-empty directory argument replaces the stored one, and an empty or absent one keeps it.
    ensures Truthy(url) && Truthy(outputPath) ==> s.outputPath == outputPath.value
    ensures Truthy(url) && !Truthy(outputPath) ==> s.outputPath == stored
    // Failures never escape: only the empty-URL check raises.
    ensures s.reply.Returned? <==> Truthy(url)
    // The library is invoked unless the URL is empty or MP3 extraction is asked for without FFmpeg.
    ensures s.call.Some? <==> Truthy(url) && (formatOption != AudioLabel || ffmpegAvailable)
    ensures Truthy(url) && formatOption == AudioLabel && !ffmpegAvailable ==>
              s.reply == Returned(Failed(FfmpegRequiredMessage))
    // The options handed to the library.
    ensures s.call.Some? ==>
              var o := s.call.value;
              && o.format == Selector(formatOption)
              && o.outtmpl == Paths.Join(s.outputPath, OutputTemplate)
              && o.noplaylist && !o.ignoreerrors && o.verbose
              && (o.hasProgressHook <==> progressCallback)
              && (o.postprocessor.Some? <==> formatOption == AudioLabel)
              && (o.postprocessor.Some? ==> o.postprocessor.value == ExtractMp3)
    // The reply after an invocation depends only on the outcome, the directory and the label.
    ensures s.call.Some? ==> s.reply == Returned(ResultFor(outcome, s.outputPath, formatOption))
  {
    if !Truthy(url) then
      Step(stored, None, Raised(EmptyUrlMessage))
    else
      var dir := if Truthy(outputPath) then outputPath.value else stored;
      if formatOption == AudioLabel && !ffmpegAvailable then
        Step(dir, None, Returned(Failed(FfmpegRequiredMessage)))
      else
        var options := Options(
          Selector(formatOption), Paths.Join(dir, OutputTemplate), true, false, true,
          if formatOption == AudioLabel then Some(ExtractMp3) else None,
          progressCallback);
        Step(dir, Some(options), Returned(ResultFor(outcome, dir, formatOption)))
  }

  /** The post-processor is present exactly for the MP3 label with FFmpeg available. */
  lemma PostProcessorOnlyWithFfmpeg(stored: string, url: Option<string>, formatOption: string,
                                    outputPath: Option<string>, progressCallback: bool,
                                    ffmpegAvailable: bool, outcome: LibraryOutcome)
    ensures var s := DownloadStep(stored, url, formatOption, outputPath, progressCallback, ffmpegAvailable, outcome);
            (s.call.Some? && s.call.value.postprocessor.Some?) <==>
            (Truthy(url) && formatOption == AudioLabel && ffmpegAvailable)
  {
  }

  /**
   * A directory given to one call is used by a later call that gives none,
   * even when the first call stopped at the FFmpeg check; a later call that
   * raises for an empty URL leaves it stored.
   */
  lemma OutputPathPersists(stored: string, url1: Option<string>, formatOption1: string, dir: string,
                           progressCallback1: bool, ffmpeg1: bool, outcome1: LibraryOutcome,
                           url2: Option<string>, formatOption2: string, outputPath2: Option<string>,
                           progressCallback2: bool, ffmpeg2: bool, outcome2: LibraryOutcome)
    requires Truthy(url1) && dir != "" && !Truthy(outputPath2)
    ensures var s1 := DownloadStep(stored, url1, formatOption1, Some(dir), progressCallback1, ffmpeg1, outcome1);
            var s2 := DownloadStep(s1.outputPath, url2, formatOption2, outputPath2, progressCallback2, ffmpeg2, outcome2);
            && s2.outputPath == dir
            && (s2.call.Some? ==> s2.call.value.outtmpl == Paths.Join(dir, OutputTemplate))
            && (outcome2.Success? && s2.call.Some? ==> s2.reply.result.path == dir)
  {
  }

  /** A URL that is only whitespace is not empty, so it passes the check. */
  lemma WhitespaceUrlPasses(stored: string, formatOption: string, outputPath: Option<string>,
                            progressCallback: bool, ffmpegAvailable: bool, outcome: LibraryOutcome)
    ensures DownloadStep(stored, Some(" "), formatOption, outputPath, progressCallback, ffmpegAvailable, outcome).reply.Returned?
  {
  }

  /** Both words are already lower case, so the test ignores case in the message only. */
  lemma WordsAreLowerCase()
    ensures Lower(FfmpegWord) == FfmpegWord
    ensures Lower(PostprocessorWord) == PostprocessorWord
  {
    LowerOfLowerCase(FfmpegWord);
    LowerOfLowerCase(PostprocessorWord);
  }

  /**
   * A download error that names either word in any letter case, say
   * "FFMPEG" or "PostProcessor", is reported as a transcoder error.
   */
  lemma TranscoderMentionIgnoresCase(message: string, word: string, i: nat)
    requires word == FfmpegWord || word == PostprocessorWord
    requires OccursAtIgnoringCase(message, word, i)
    ensures HasPrefix(DownloadErrorText(message), FfmpegErrorPrefix)
  {
  }

  /**
   * A message that mentions neither word in any letter case is reported as
   * a plain download error.
   */
  lemma PlainDownloadError(message: string)
    requires forall i: nat :: !OccursAtIgnoringCase(message, FfmpegWord, i)
    requires forall i: nat :: !OccursAtIgnoringCase(message, PostprocessorWord, i)
    ensures DownloadErrorText(message) == DownloadErrorPrefix + message
  {
  }

  /** The downloader object: a stored output directory and the constant format table. */
  class YoutubeDownloader {
    var outputPath: string
    const formats: seq<FormatEntry> := Table

    /** `downloads` stands for the user's resolved `~/Downloads` directory. */
    constructor (downloads: string)
      ensures outputPath == downloads
    {
      outputPath := downloads;
    }

    /**
     * `download_video`. Returns the reply and the options the library was
     * invoked with, or `None` when it was not invoked.
     */
    method DownloadVideo(url: Option<string>, formatOption: string, outputPathArg: Option<string>,
                         progressCallback: bool, ffmpegAvailable: bool, outcome: LibraryOutcome)
      returns (reply: Reply, call: Option<Options>)
      modifies this`outputPath
      ensures Step(outputPath, call, reply) ==
              DownloadStep(old(outputPath), url, formatOption, outputPathArg, progressCallback, ffmpegAvailable, outcome)
    {
      if !Truthy(url) {
        return Raised(EmptyUrlMessage), None;
      }
      if Truthy(outputPathArg) {
        outputPath := outputPathArg.value;
      }
      var formatCode := Get(formats, formatOption, DefaultSelector);
      var options := Options(formatCode, Paths.Join(outputPath, OutputTemplate), true, false, true, None, false);
      if formatOption == AudioLabel {
        if !ffmpegAvailable {
          return Returned(Failed(FfmpegRequiredMessage)), None;
        }
        options := options.(postprocessor := Some(ExtractMp3));
      }
      if progressCallback {
        options := options.(hasProgressHook := true);
      }
      call := Some(options);
      reply := Returned(ResultFor(outcome, outputPath, formatOption));
    }
  }
}
