/**
 * The `queue` command of both bots (`packages/discord-bot/src/commands/queue.ts`,
 * `src/commands/queue.ts`): the queue is cut into pages of ten tracks and
 * one page is listed, each track numbered by its position in the queue.
 *
 * Both bots share the logic; they differ in how the page argument is parsed
 * (base 10, or `parseInt` without a radix) and in the duration formatting
 * (`Time` or `LegacyUtils`), which are parameters here.
 */
module QueuePages {
  import opened Wrappers
  import opened Tracks
  import opened Text
  import opened Lists
  import Time
  import LegacyUtils

  const PageSize: nat := 10

  /** A listed track: its number, its title, and the duration and who added it. */
  datatype Entry = Entry(position: nat, title: string, line: string)

  /** What the command answers. */
  datatype View =
    | NoTracks                                  // "There are no queued tracks."
    | InvalidPage(pages: nat)                   // the page-index reply, naming the page count
    | Page(index: nat, pages: nat, entries: seq<Entry>)

  /** The entries of page `index` (from 1): `i + 1 + 10 * (index - 1)` for the `i`-th track of the page. */
  function Entries(page: seq<Track>, index: nat, format: string -> string): (es: seq<Entry>)
    requires index >= 1
    ensures |es| == |page|
    ensures forall i :: 0 <= i < |page| ==>
      es[i].position == i + 1 + PageSize * (index - 1) && es[i].title == page[i].title
  {
    seq(|page|, i requires 0 <= i < |page| =>
      Entry(i + 1 + PageSize * (index - 1), page[i].title,
            format(page[i].duration) + " \U{2014} Added by " + page[i].initiator.username))
  }

  /** The command, given the queue, the first argument (`None` when absent), the page parser and the formatter. */
  function Show(tracks: seq<Track>, arg: Option<string>, parse: string -> Option<int>, format: string -> string): (v: View)
    ensures v == NoTracks <==> tracks == []
    ensures v.InvalidPage? ==> v.pages == |Chunk(tracks, PageSize)|
    ensures tracks != [] && (arg.None? || arg.value == []) ==> v.Page? && v.index == 1
    ensures tracks != [] && arg.Some? && arg.value != [] && parse(arg.value).None? ==> v.InvalidPage?
    ensures tracks != [] && arg.Some? && arg.value != [] && parse(arg.value).Some? ==>
      (v.Page? <==> 1 <= parse(arg.value).value <= |Chunk(tracks, PageSize)|)
    ensures v.Page? ==> (1 <= v.index <= v.pages && v.pages == |Chunk(tracks, PageSize)| &&
      v.entries == Entries(Chunk(tracks, PageSize)[v.index - 1], v.index, format))
  {
    var pages := Chunk(tracks, PageSize);
    ChunkCount(tracks, PageSize);
    if |tracks| <= 0 then NoTracks
    else if arg.Some? && arg.value != [] && parse(arg.value).Some? then
      var pageIndex := parse(arg.value).value;
      if pageIndex > |pages| || pageIndex < 1 then InvalidPage(|pages|)
      else Page(pageIndex, |pages|, Entries(pages[pageIndex - 1], pageIndex, format))
    else if arg.Some? && arg.value != [] then InvalidPage(|pages|)
    else Page(1, |pages|, Entries(pages[0], 1, format))
  }

  /** The current bot's command: the page is parsed in base 10; `now` is the wall-clock second the formatter starts at. */
  function QueueCommand(tracks: seq<Track>, arg: Option<string>, now: Time.ClockSecond): View {
    Show(tracks, arg, ParseInt, (d: string) => Time.SecondsToHHMMSS(d, now))
  }

  /** The first bot's command: `parseInt` without a radix, and the `mm:ss` formatting. */
  function LegacyQueueCommand(tracks: seq<Track>, arg: Option<string>): View {
    Show(tracks, arg, ParseIntAuto, LegacyUtils.SecondsToHHMMSS)
  }

  /**
   * A listed entry's number is the 1-based position in the whole queue of
   * the track it lists: pages are consecutive runs of ten.
   */
  lemma NumberIsQueuePosition(tracks: seq<Track>, arg: Option<string>, parse: string -> Option<int>, format: string -> string, i: int)
    requires Show(tracks, arg, parse, format).Page?
    requires 0 <= i < |Show(tracks, arg, parse, format).entries|
    ensures var e := Show(tracks, arg, parse, format).entries[i];
      1 <= e.position <= |tracks| && e.title == tracks[e.position - 1].title
  {
    var v := Show(tracks, arg, parse, format);
    var p := v.index - 1;
    var page := Chunk(tracks, PageSize)[p];
    ChunkPage(tracks, PageSize, p);
    var hi := if (p + 1) * PageSize < |tracks| then (p + 1) * PageSize else |tracks|;
    assert page == tracks[p * PageSize..hi];
    assert page[i] == tracks[p * PageSize + i];
  }

  /** The page count is the ceiling of the queue length over ten, and the pages put together are the queue. */
  lemma PagesCoverQueue(tracks: seq<Track>)
    ensures |tracks| <= |Chunk(tracks, PageSize)| * PageSize
    ensures |tracks| > 0 ==> (|Chunk(tracks, PageSize)| - 1) * PageSize < |tracks|
    ensures Flatten(Chunk(tracks, PageSize)) == tracks
    ensures forall p :: 0 <= p < |Chunk(tracks, PageSize)| ==> 0 < |Chunk(tracks, PageSize)[p]| <= PageSize
  {
    ChunkCount(tracks, PageSize);
    ChunkFlatten(tracks, PageSize);
  }

  /** With no argument, the first page is listed, numbered from 1. */
  lemma DefaultFirstPage(tracks: seq<Track>, parse: string -> Option<int>, format: string -> string)
    requires tracks != []
    ensures var v := Show(tracks, None, parse, format);
      v.Page? && v.index == 1 && |v.entries| > 0 && v.entries[0].position == 1 && v.entries[0].title == tracks[0].title
  {
    ChunkPage(tracks, PageSize, 0);
    var hi := if PageSize < |tracks| then PageSize else |tracks|;
    assert Chunk(tracks, PageSize)[0] == tracks[0..hi];
  }

  /** `parseInt("0x2")` is 2, `parseInt("0x2", 10)` is 0. */
  lemma HexTwo()
    ensures ParseIntAuto("0x2") == Some(2)
    ensures ParseInt("0x2") == Some(0)
  {
    var s := "0x2";
    SignAndBodyOfDigit(s);
    assert StartsWith(s, "0x") by {
      assert s[..2] == "0x";
    }
    assert s[2..] == "2";
    assert HexDigitPrefix("2") == "2" by {
      assert "2"[1..] == [];
    }
    assert HexDigitsValue("2") == 2 by {
      assert "2"[..0] == [];
    }
    assert DigitPrefix(s) == "0" by {
      assert s[1..] == "x2";
      assert DigitPrefix(s[1..]) == [];
    }
    assert DigitsValue("0") == 0 by {
      assert "0"[..0] == [];
    }
  }

  /** The two bots read the argument `"0x2"` differently: page 2 in the first bot, invalid in the current one. */
  lemma HexPageArgument(tracks: seq<Track>, now: Time.ClockSecond)
    requires |tracks| > PageSize
    ensures QueueCommand(tracks, Some("0x2"), now).InvalidPage?
    ensures LegacyQueueCommand(tracks, Some("0x2")).Page? && LegacyQueueCommand(tracks, Some("0x2")).index == 2
  {
    ChunkCount(tracks, PageSize);
    HexTwo();
  }
}
