# YouTube downloader: request builder and result classifier

A Dafny model of the one piece of original logic in a small YouTube
downloader (a Tk window and a terminal prompt over the `yt_dlp` library):
the `YoutubeDownloader` object and its `download_video` operation, plus the
terminal front end's format-choice fallback.

`download_video(url, format_option, output_path, progress_callback)`:

1. raises `ValueError("URL cannot be empty")` when the URL is empty or absent
   (plain Python falsiness, so a whitespace-only URL passes);
2. stores a non-empty `output_path` in the object, where it persists;
3. looks the label up in a fixed five-entry table, falling back to `"best"`;
4. builds the options dictionary: selector, `outtmpl` = the stored directory
   joined with `%(title)s.%(ext)s`, `noplaylist`, `ignoreerrors = False`,
   `verbose`, the MP3 extraction post-processor for the audio label, and a
   progress hook when a callback is given;
5. for the audio label without FFmpeg returns a fixed error record and never
   calls the library;
6. otherwise calls the library and turns its outcome into a success record or
   an error record; a download error whose lower-cased text mentions `ffmpeg`
   or `postprocessor` gets a transcoder hint.

Modules:

- `Wrappers` (`wrappers.dfy`): `Option`, an optional value: an absent argument (`None`) or, for a title, a missing dictionary key.
- `Text` (`text.dfy`): `str.lower` and the substring test `needle in s`,
  with the lemma that the classifier's test ignores letter case.
- `Paths` (`paths.dfy`): `os.path.join` of two components, POSIX rules.
- `Formats` (`formats.dfy`): the ordered format table and `dict.get`.
- `Downloader` (`downloader.dfy`): the options record, the library outcome,
  the status records, the error-text classifier, the specification function
  `DownloadStep` of one call, and the class `YoutubeDownloader` with its
  mutable `outputPath` field and the method `DownloadVideo`, which builds the
  options step by step as the source does and is proved equal to
  `DownloadStep`.
- `Cli` (`cli.dfy`): the terminal's choice of format by number.

The environment becomes input. FFmpeg availability is a `bool`. What the
library does is a `LibraryOutcome`: `Success(title, filename)`,
`DownloadError(message)` or `OtherError(message)`. The method returns the
options the library was invoked with, or `None` when it was not invoked, so
"the library is never called" is a statement about that result. The progress
callback is represented only by whether one was given.

With the MP3 label and no FFmpeg, `download_video` returns the fixed error
record and downloads nothing (youtube_downloader.py:37-43), although the
start-up warning (youtube_downloader.py:298-302) says the program continues
without FFmpeg. Other labels are unaffected.

## Model

| member | source | states |
|---|---|---|
| `Formats.Labels` | youtube_downloader.py:238 | the label list has one label per table entry, in table order |
| `Formats.Get` | youtube_downloader.py:26 | a key no entry has yields the fallback; a key yields the selector of its first entry |
| `Formats.TableHasDistinctLabels` | youtube_downloader.py:11-17 | the table has five entries and no label twice, as the keys of a dictionary are; `Get` agrees with `dict.get` only on such a table |
| `Formats.GetListed` | youtube_downloader.py:26 | in a table without repeated labels, every listed label yields its own selector |
| `Formats.Selector` | youtube_downloader.py:26 | a listed label yields its own table selector, an unlisted one `"best"` |
| `Formats.SelectorOfEachLabel` | youtube_downloader.py:11-26 | each of the five labels yields exactly its selector string |
| `Formats.SelectorOfUnlistedLabel` | youtube_downloader.py:26 | any label not in the table yields `"best"` |
| `Text.Lower` | youtube_downloader.py:73 | lower-casing keeps the length and maps each character on its own |
| `Text.Contains` | youtube_downloader.py:73 | the substring test holds exactly when the needle occurs at some position |
| `Text.LowerSlice` | youtube_downloader.py:73 | lower-casing a window is the window of the lower-cased string |
| `Text.ContainsIgnoringCase` | youtube_downloader.py:73 | for a lower-case needle, `needle in s.lower()` holds exactly when some window of `s` matches it ignoring case |
| `Text.ContainsSurvivesLower` | youtube_downloader.py:73 | an exact occurrence of a needle is still found after lower-casing both sides |
| `Paths.Join` | youtube_downloader.py:30 | the joined path ends with the name and, for a relative name, starts with the directory with at most one separator between |
| `Paths.JoinInjective` | youtube_downloader.py:30 | two directories without trailing separator give different templates |
| `Downloader.Truthy` | youtube_downloader.py:20-23 | an optional string is falsy exactly when it is `None` or empty |
| `Downloader.MentionsTranscoder` | youtube_downloader.py:73 | the test holds exactly when "ffmpeg" or "postprocessor" occurs in the message in any letter case |
| `Downloader.DownloadErrorText` | youtube_downloader.py:71-82 | the prefix says whether the message mentions FFmpeg or a post-processor; the library's message follows it unchanged, then the install hint in the transcoder case |
| `Downloader.ResultFor` | youtube_downloader.py:64-87 | success exactly for a successful outcome, with title or "Unknown", the file name, the stored directory and the label as passed; download errors are classified, other errors kept verbatim |
| `Downloader.DownloadStep` | youtube_downloader.py:19-87 | an empty or absent URL raises and changes nothing; a non-empty directory argument replaces the stored one; nothing else raises; the library is invoked unless MP3 is asked for without FFmpeg, then with the table's selector, the joined template, the fixed flags, the hook exactly when a callback is given and the MP3 post-processor exactly for the audio label |
| `Downloader.PostProcessorOnlyWithFfmpeg` | youtube_downloader.py:37-51 | the library gets the MP3 post-processor if and only if the URL is non-empty, the label is the audio label and FFmpeg is available |
| `Downloader.OutputPathPersists` | youtube_downloader.py:23-68 | a directory given to one call, even one that stops at the FFmpeg check, stays stored through a later call that gives none, and is that call's template directory and reported path |
| `Downloader.WhitespaceUrlPasses` | youtube_downloader.py:20-21 | a whitespace-only URL is not rejected |
| `Downloader.WordsAreLowerCase` | youtube_downloader.py:73 | the two words the classifier looks for are their own lower-case forms |
| `Downloader.TranscoderMentionIgnoresCase` | youtube_downloader.py:73-77 | a message naming "ffmpeg" or "postprocessor" in any letter case becomes an "FFmpeg error" |
| `Downloader.PlainDownloadError` | youtube_downloader.py:78-82 | a message naming neither word in any case becomes `"Download error: " + message` |
| `Downloader.YoutubeDownloader.constructor` | youtube_downloader.py:9-17 | the stored directory starts as the given downloads directory |
| `Downloader.YoutubeDownloader.DownloadVideo` | youtube_downloader.py:19-87 | the new stored directory, the library call and the reply are exactly those of `DownloadStep` on the old directory |
| `Cli.ChooseFormat` | youtube_downloader.py:238-250 | the result is always a table label: position n for an integer n in 1..5, otherwise "Best Video + Audio" |
| `Cli.EveryLabelCanBeChosen` | youtube_downloader.py:238-247 | every table label is selected by some number in 1..5 |
| `Cli.ChosenLabelIsListed` | youtube_downloader.py:238-250 | a label chosen in the terminal always gets its selector from the table, never from the `"best"` fallback |

## Left out

- The Tk window (`DownloaderGUI`), its widgets, message boxes and event loop: presentation only.
- The background thread and `root.after` dispatch: presentation plumbing of the window.
- Overlapping calls: the model treats `download_video` calls as one after another. The window starts a new thread on every click, all on one shared downloader, so two calls can overlap; the reported `path` (read after the library returns) and, in a narrow window, the template can then come from the other call's directory.
- `check_ffmpeg`: a subprocess probe; it is the `bool` input `ffmpegAvailable`.
- `yt_dlp.YoutubeDL`, `extract_info` and `prepare_filename`: a foreign library; their combined effect is the `LibraryOutcome` input.
- The progress hooks' percentage, speed and ETA arithmetic and text: floating point and display.
- The prompts, prints and stdin parsing of `run_cli` and the `__main__` entry: terminal I/O. The integer parse becomes an `Option<int>` input of `Cli.ChooseFormat`, `None` standing for input `int()` rejects.
- `os.path.expanduser` and the default `~/Downloads`: OS path resolution; the initial directory is a constructor argument.
- `Paths.Join`: follows POSIX `os.path.join`; Windows drive letters and backslashes are not modelled.
- `Text.Lower`: lower-cases ASCII capitals only, where Python's `str.lower` follows Unicode. Neither word the classifier looks for contains `i` or `k`. Among the non-ASCII characters, only the capital I with dot and the Kelvin sign lower-case to ASCII letters, and they give `i` and `k`. So the classifier's verdict is the same under both definitions.
- Exceptions outside `Exception` (such as `KeyboardInterrupt`) escape `download_video` in the source; the model has no such outcome.
- The progress callback's identity: only whether one was given is modelled.
