/**
 * The downloader's format table: human-readable labels, in the order the
 * user is shown them, each with the format selector handed to the
 * download library.
 */
module Formats {

  datatype FormatEntry = FormatEntry(name: string, selector: string)

  const BestLabel := "Best Video + Audio"
  const AudioLabel := "Best Audio Only (MP3)"
  const Hd720Label := "720p MP4"
  const Hd1080Label := "1080p MP4"
  const Sd480Label := "480p MP4"

  /** The selector used for a label the table does not list. */
  const DefaultSelector := "best"

  const Table: seq<FormatEntry> := [
    FormatEntry(BestLabel, "best"),
    FormatEntry(AudioLabel, "bestaudio/best"),
    FormatEntry(Hd720Label, "bestvideo[height<=720][ext=mp4]+bestaudio[ext=m4a]/best[height<=720][ext=mp4]"),
    FormatEntry(Hd1080Label, "bestvideo[height<=1080][ext=mp4]+bestaudio[ext=m4a]/best[height<=1080][ext=mp4]"),
    FormatEntry(Sd480Label, "bestvideo[height<=480][ext=mp4]+bestaudio[ext=m4a]/best[height<=480][ext=mp4]")
  ]

  /** The labels of a table, in table order (`list(formats.keys())`). */
  function Labels(entries: seq<FormatEntry>): (r: seq<string>)
    ensures |r| == |entries|
    ensures forall i :: 0 <= i < |entries| ==> r[i] == entries[i].name
  {
    if entries == [] then [] else [entries[0].name] + Labels(entries[1..])
  }

  /** No label is listed twice, as in a dictionary. */
  predicate DistinctLabels(entries: seq<FormatEntry>)
  {
    forall i, j :: 0 <= i < j < |entries| ==> entries[i].name != entries[j].name
  }

  /**
   * `formats.get(key, fallback)`: the selector of the first entry labelled
   * `key`, or `fallback` when no entry is.
   */
  function Get(entries: seq<FormatEntry>, key: string, fallback: string): (r: string)
    ensures (forall i :: 0 <= i < |entries| ==> entries[i].name != key) ==> r == fallback
    ensures forall i :: (0 <= i < |entries| && entries[i].name == key &&
                         forall j :: 0 <= j < i ==> entries[j].name != key) ==> r == entries[i].selector
  {
    if entries == [] then fallback
    else if entries[0].name == key then entries[0].selector
    else
      var r := Get(entries[1..], key, fallback);
      assert forall i :: 1 <= i < |entries| ==> entries[1..][i - 1] == entries[i];
      r
  }

  /**
   * The selector the downloader uses for a label
   * (`self.formats.get(format_option, "best")`): the listed label's own
   * selector, or "best" for a label the table does not list.
   */
  function Selector(formatOption: string): (r: string)
    ensures forall k :: 0 <= k < |Table| && Table[k].name == formatOption ==> r == Table[k].selector
    ensures formatOption !in Labels(Table) ==> r == DefaultSelector
  {
    TableHasDistinctLabels();
    Get(Table, formatOption, DefaultSelector)
  }

  /** The five labels are pairwise different, as the keys of a dictionary are. */
  lemma TableHasDistinctLabels()
    ensures DistinctLabels(Table)
    ensures |Table| == 5
  {
  }

  /** In a table without repeated labels, each listed label yields its own selector. */
  lemma GetListed(entries: seq<FormatEntry>, i: nat, fallback: string)
    requires DistinctLabels(entries)
    requires i < |entries|
    ensures Get(entries, entries[i].name, fallback) == entries[i].selector
  {
  }

  /** Each of the five labels yields exactly its selector string. */
  lemma SelectorOfEachLabel()
    ensures Selector(BestLabel) == "best"
    ensures Selector(AudioLabel) == "bestaudio/best"
    ensures Selector(Hd720Label) == "bestvideo[height<=720][ext=mp4]+bestaudio[ext=m4a]/best[height<=720][ext=mp4]"
    ensures Selector(Hd1080Label) == "bestvideo[height<=1080][ext=mp4]+bestaudio[ext=m4a]/best[height<=1080][ext=mp4]"
    ensures Selector(Sd480Label) == "bestvideo[height<=480][ext=mp4]+bestaudio[ext=m4a]/best[height<=480][ext=mp4]"
  {
    TableHasDistinctLabels();
    GetListed(Table, 0, DefaultSelector);
    GetListed(Table, 1, DefaultSelector);
    GetListed(Table, 2, DefaultSelector);
    GetListed(Table, 3, DefaultSelector);
    GetListed(Table, 4, DefaultSelector);
  }

  /** Any label the table does not list yields "best". */
  lemma SelectorOfUnlistedLabel(formatOption: string)
    requires formatOption !in Labels(Table)
    ensures Selector(formatOption) == DefaultSelector
  {
  }
}
