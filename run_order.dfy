/**
 * The run-order document: the items of one service plan, walked in order
 * and written out as Markdown text.
 *
 * The walk is specified as the sequence of `print` calls it makes
 * (`PrintCall`); `Text` turns those calls into the exact characters that
 * end up in the output buffer, each call appending its argument and a line
 * ending.
 */
module RunOrder {
  import opened Wrappers
  import opened Lyrics

  /**
   * The `item_type` attribute of a planned item: the tags "item" and "song"
   * are told apart, every other tag is kept as it is.
   */
  datatype ItemType = GenericItem | Song | OtherType(tag: string)

  /** An item type as it can come from a tag: "item" and "song" are never kept as other types. */
  type KnownItemType = t: ItemType | !(t.OtherType? && (t.tag == "item" || t.tag == "song")) witness GenericItem

  /** Reads an `item_type` tag. */
  function ParseItemType(tag: string): (t: KnownItemType)
    ensures t == GenericItem <==> tag == "item"
    ensures t == Song <==> tag == "song"
    ensures t.OtherType? ==> t.tag == tag
  {
    if tag == "item" then GenericItem else if tag == "song" then Song else OtherType(tag)
  }

  /** The tag an item type is read from. */
  function Tag(t: KnownItemType): string
  {
    match t
    case GenericItem => "item"
    case Song => "song"
    case OtherType(tag) => tag
  }

  /** Reading a tag and writing it back gives the same tag. */
  lemma TagOfParse(tag: string)
    ensures Tag(ParseItemType(tag)) == tag
  {
  }

  /** Every item type comes from exactly one tag: reading its tag gives it back. */
  lemma ParseOfTag(t: KnownItemType)
    ensures ParseItemType(Tag(t)) == t
  {
  }

  /**
   * One planned item: its type, `title`, `description`, and the id of the
   * song it refers to.
   */
  datatype Item = Item(itemType: KnownItemType, title: string, description: Option<string>, songId: string)

  /** Generic items whose title starts with this marker are planning notes. */
  const PlanningNoteMarker := "NOTE: SERVICE PLANNING"

  predicate IsPlanningNote(item: Item)
  {
    item.itemType == GenericItem && PlanningNoteMarker <= item.title
  }

  // ---- Print calls and the text they produce ----

  /** One `print` call of the render loop, by what it prints. */
  datatype PrintCall =
    | TitleHeading(title: string)
    | Description(text: string)
    | Separator
    | SongsHeading
    | Bullet(title: string)
    | LyricsLine(lyrics: string)
    | NoLyrics

  /** The argument the loop passes to `print` for this call. */
  function Argument(call: PrintCall): (arg: string)
  {
    match call
    case TitleHeading(title) => "### " + title + "\n\n"
    case Description(text) => EscapeNewlines(text)
    case Separator => "\n\n"
    case SongsHeading => "### Songs\n\n"
    case Bullet(title) => "- " + title
    case LyricsLine(lyrics) => lyrics
    case NoLyrics => "No lyrics found."
  }

  /** What one `print(s)` appends to the buffer: `s` and a line ending. */
  function Line(s: string): (line: string)
  {
    s + "\n"
  }

  /** A printed line is its argument followed by one line ending, and nothing else. */
  lemma LineShape(s: string)
    ensures |Line(s)| == |s| + 1 && Line(s)[..|s|] == s && Line(s)[|s|] == '\n'
  {
  }

  /**
   * Headings start with the Markdown "### " marker and end in a blank line,
   * bullets start with "- " followed by the title, and an escaped description
   * is longer than the description by its number of line endings.
   */
  lemma ArgumentShape(call: PrintCall)
    ensures call.TitleHeading? || call.SongsHeading? ==>
              var arg := Argument(call); "### " <= arg && arg[|arg| - 2..] == "\n\n"
    ensures call.Bullet? ==> "- " <= Argument(call) && Argument(call)[2..] == call.title
    ensures call.Description? ==> |Argument(call)| == |call.text| + NewlineCount(call.text)
  {
  }

  /** The buffer contents after a sequence of print calls. */
  function Text(calls: seq<PrintCall>): string
  {
    if calls == [] then "" else Line(Argument(calls[0])) + Text(calls[1..])
  }

  /** Printing two batches of calls one after the other appends their texts. */
  lemma {:induction false} TextAppend(a: seq<PrintCall>, b: seq<PrintCall>)
    ensures Text(a + b) == Text(a) + Text(b)
  {
    if a == [] {
      assert a + b == b;
    } else {
      assert (a + b)[0] == a[0];
      assert (a + b)[1..] == a[1..] + b;
      TextAppend(a[1..], b);
    }
  }

  /** A single print call appends its argument and a line ending. */
  lemma TextOne(call: PrintCall)
    ensures Text([call]) == Line(Argument(call))
  {
    assert [call][1..] == [];
  }

  // ---- Escaping of descriptions ----

  /**
   * `s.replace('\n', '\\\n')`: every line ending gets a backslash in front
   * of it, which Markdown reads as a hard line break.
   */
  function EscapeNewlines(s: string): (r: string)
    ensures |r| == |s| + NewlineCount(s)
  {
    if s == [] then [] else EscapeChar(s[0]) + EscapeNewlines(s[1..])
  }

  function EscapeChar(c: char): string
  {
    if c == '\n' then ['\\', '\n'] else [c]
  }

  /** Drops the backslash of each backslash-newline pair, read left to right. */
  function UnescapeHardBreaks(t: string): string
  {
    if t == [] then []
    else if |t| >= 2 && t[0] == '\\' && t[1] == '\n' then ['\n'] + UnescapeHardBreaks(t[2..])
    else [t[0]] + UnescapeHardBreaks(t[1..])
  }

  function NewlineCount(s: string): nat
  {
    if s == [] then 0 else (if s[0] == '\n' then 1 else 0) + NewlineCount(s[1..])
  }

  /** Escaped text never starts with a line ending. */
  lemma EscapeNewlinesStart(s: string)
    ensures EscapeNewlines(s) == [] || EscapeNewlines(s)[0] != '\n'
  {
  }

  /** Every line ending of the escaped text follows a backslash: a Markdown hard line break. */
  lemma {:induction false} EscapeNewlinesHardBreaks(s: string)
    ensures var r := EscapeNewlines(s);
            forall k :: 0 <= k < |r| && r[k] == '\n' ==> 0 < k && r[k - 1] == '\\'
  {
    if s != [] {
      EscapeNewlinesHardBreaks(s[1..]);
      EscapeNewlinesStart(s[1..]);
      var head, tail := EscapeChar(s[0]), EscapeNewlines(s[1..]);
      var r := EscapeNewlines(s);
      assert r == head + tail;
      forall k | 0 <= k < |r| && r[k] == '\n'
        ensures 0 < k && r[k - 1] == '\\'
      {
        if k >= |head| {
          assert r[k] == tail[k - |head|];
        }
      }
    }
  }

  /** Removing the inserted backslashes gives back the description: nothing else changes. */
  lemma {:induction false} EscapeNewlinesRoundTrip(s: string)
    ensures UnescapeHardBreaks(EscapeNewlines(s)) == s
  {
    if s != [] {
      EscapeNewlinesRoundTrip(s[1..]);
      EscapeNewlinesStart(s[1..]);
      var tail := EscapeNewlines(s[1..]);
      if s[0] == '\n' {
        assert (['\\', '\n'] + tail)[2..] == tail;
      } else {
        assert ([s[0]] + tail)[1..] == tail;
      }
      assert s == [s[0]] + s[1..];
    }
  }

  // ---- The walk ----

  /** The lyrics print call for a song in lyrics mode. */
  function LyricsCall(item: Item, arrangementsOf: string -> seq<Arrangement>): PrintCall
  {
    var lyrics := FirstNonEmpty(arrangementsOf(item.songId));
    if IsTruthy(lyrics) then LyricsLine(lyrics.value) else NoLyrics
  }

  /** The print calls of the loop body for `item` when the tracked previous type is `prev`. */
  function Emit(item: Item, prev: Option<ItemType>, includeLyrics: bool,
                arrangementsOf: string -> seq<Arrangement>): (calls: seq<PrintCall>)
  {
    match item.itemType
    case GenericItem =>
      if PlanningNoteMarker <= item.title then []
      else
        [TitleHeading(item.title)]
        + (if IsTruthy(item.description) then [Description(item.description.value)] else [])
        + [Separator]
    case Song =>
      if includeLyrics then [TitleHeading(item.title), LyricsCall(item, arrangementsOf), Separator]
      else (if prev != Some(Song) then [SongsHeading] else []) + [Bullet(item.title)]
    case OtherType(_) => []
  }

  /**
   * The loop body prints nothing exactly for planning notes and items of an
   * unknown type, and at most three lines for any item.
   */
  lemma EmitShape(item: Item, prev: Option<ItemType>, includeLyrics: bool, arrangementsOf: string -> seq<Arrangement>)
    ensures var calls := Emit(item, prev, includeLyrics, arrangementsOf);
            (calls == [] <==> IsPlanningNote(item) || item.itemType.OtherType?) && |calls| <= 3
  {
  }

  /** The tracked previous type after `item`: a skipped planning note leaves it alone. */
  function Tracked(item: Item, prev: Option<ItemType>): Option<ItemType>
  {
    if IsPlanningNote(item) then prev else Some(item.itemType)
  }

  /**
   * Every item other than a planning note, whatever its type, becomes the
   * tracked type; the tracked type never changes on a planning note.
   */
  lemma TrackedShape(item: Item, prev: Option<ItemType>)
    ensures !IsPlanningNote(item) ==> Tracked(item, prev) == Some(item.itemType)
    ensures Tracked(item, prev) != prev ==> !IsPlanningNote(item)
  {
  }

  /** The print calls for `items` when the tracked previous type starts as `prev`. */
  function RenderFrom(items: seq<Item>, prev: Option<ItemType>, includeLyrics: bool,
                      arrangementsOf: string -> seq<Arrangement>): seq<PrintCall>
  {
    if items == [] then []
    else
      Emit(items[0], prev, includeLyrics, arrangementsOf)
      + RenderFrom(items[1..], Tracked(items[0], prev), includeLyrics, arrangementsOf)
  }

  /** The print calls of the whole walk, which starts with no previous item. */
  function Render(items: seq<Item>, includeLyrics: bool,
                  arrangementsOf: string -> seq<Arrangement>): seq<PrintCall>
  {
    RenderFrom(items, None, includeLyrics, arrangementsOf)
  }

  /** The print calls and the tracked previous type after the loop has seen `items[..n]`. */
  datatype Progress = Progress(calls: seq<PrintCall>, prevItemType: Option<ItemType>)

  function RenderPrefix(items: seq<Item>, n: nat, includeLyrics: bool,
                        arrangementsOf: string -> seq<Arrangement>): Progress
    requires n <= |items|
  {
    if n == 0 then Progress([], None)
    else
      var p := RenderPrefix(items, n - 1, includeLyrics, arrangementsOf);
      Progress(p.calls + Emit(items[n - 1], p.prevItemType, includeLyrics, arrangementsOf),
               Tracked(items[n - 1], p.prevItemType))
  }

  /**
   * The loop state after `i` items: the buffer holds the text of the fold's
   * print calls, and the tracked type is the fold's.
   */
  predicate Rendered(items: seq<Item>, i: nat, output: string, prevItemType: Option<ItemType>, includeLyrics: bool,
                     arrangementsOf: string -> seq<Arrangement>)
  {
    i <= |items|
    && var p := RenderPrefix(items, i, includeLyrics, arrangementsOf);
    output == Text(p.calls) && prevItemType == p.prevItemType
  }

  /**
   * The render loop: one pass over the items carrying the previous item's
   * type and a growing output buffer. A planning note is skipped before the
   * tracked type is updated.
   */
  method RenderRunOrder(items: seq<Item>, includeLyrics: bool,
                        arrangementsOf: string -> seq<Arrangement>) returns (output: string)
    ensures output == Text(Render(items, includeLyrics, arrangementsOf))
  {
    output := "";
    var prevItemType: Option<ItemType> := None;
    for i := 0 to |items|
      invariant Rendered(items, i, output, prevItemType, includeLyrics, arrangementsOf)
    {
      output, prevItemType := RenderStep(items, i, output, prevItemType, includeLyrics, arrangementsOf);
    }
    RenderPrefixComplete(items, includeLyrics, arrangementsOf);
  }

  /**
   * One iteration of the render loop: a planning note is skipped with the
   * tracked type left alone; any other item is printed and becomes the
   * tracked type.
   */
  method RenderStep(items: seq<Item>, i: nat, output: string, prevItemType: Option<ItemType>, includeLyrics: bool,
                    arrangementsOf: string -> seq<Arrangement>) returns (output': string, prevItemType': Option<ItemType>)
    requires i < |items| && Rendered(items, i, output, prevItemType, includeLyrics, arrangementsOf)
    ensures Rendered(items, i + 1, output', prevItemType', includeLyrics, arrangementsOf)
  {
    var item := items[i];
    RenderPrefixNext(items, i, includeLyrics, arrangementsOf);
    if item.itemType == GenericItem && PlanningNoteMarker <= item.title {
      return output, prevItemType;
    }
    var printed := PrintItem(item, prevItemType, includeLyrics, arrangementsOf);
    output' := output + printed;
    prevItemType' := Some(item.itemType);
  }

  /** One more item of the fold appends that item's text and moves the tracked type on. */
  lemma RenderPrefixNext(items: seq<Item>, i: nat, includeLyrics: bool,
                         arrangementsOf: string -> seq<Arrangement>)
    requires i < |items|
    ensures var p := RenderPrefix(items, i, includeLyrics, arrangementsOf);
            var q := RenderPrefix(items, i + 1, includeLyrics, arrangementsOf);
            && Text(q.calls) == Text(p.calls) + Text(Emit(items[i], p.prevItemType, includeLyrics, arrangementsOf))
            && q.prevItemType == Tracked(items[i], p.prevItemType)
  {
    var p := RenderPrefix(items, i, includeLyrics, arrangementsOf);
    TextAppend(p.calls, Emit(items[i], p.prevItemType, includeLyrics, arrangementsOf));
  }

  /**
   * The loop body's prints for one item that is not a planning note, given
   * the tracked type of the item before it.
   */
  method PrintItem(item: Item, prevItemType: Option<ItemType>, includeLyrics: bool,
                   arrangementsOf: string -> seq<Arrangement>) returns (printed: string)
    requires !IsPlanningNote(item)
    ensures printed == Text(Emit(item, prevItemType, includeLyrics, arrangementsOf))
  {
    if item.itemType == GenericItem {
      printed := PrintGenericItem(item);
    } else if item.itemType == Song {
      printed := PrintSong(item, prevItemType, includeLyrics, arrangementsOf);
    } else {
      printed := "";
    }
  }

  /** A generic item's heading, its escaped description when it has one, and a separator. */
  method PrintGenericItem(item: Item) returns (printed: string)
    requires item.itemType == GenericItem && !IsPlanningNote(item)
    ensures forall prev, includeLyrics, arrangementsOf :: printed == Text(Emit(item, prev, includeLyrics, arrangementsOf))
  {
    ghost var calls: seq<PrintCall> := [];
    printed := "";
    TextAppend(calls, [TitleHeading(item.title)]);
    TextOne(TitleHeading(item.title));
    printed, calls := printed + Line("### " + item.title + "\n\n"), calls + [TitleHeading(item.title)];
    if IsTruthy(item.description) {
      TextAppend(calls, [Description(item.description.value)]);
      TextOne(Description(item.description.value));
      printed := printed + Line(EscapeNewlines(item.description.value));
      calls := calls + [Description(item.description.value)];
    }
    TextAppend(calls, [Separator]);
    TextOne(Separator);
    printed, calls := printed + Line("\n\n"), calls + [Separator];
  }

  /**
   * A song: with lyrics on, its heading, its lyrics or the fallback line,
   * and a separator; with lyrics off, the "Songs" heading when the previous
   * item was not a song, and its bullet.
   */
  method PrintSong(item: Item, prevItemType: Option<ItemType>, includeLyrics: bool,
                   arrangementsOf: string -> seq<Arrangement>) returns (printed: string)
    requires item.itemType == Song
    ensures printed == Text(Emit(item, prevItemType, includeLyrics, arrangementsOf))
  {
    ghost var calls: seq<PrintCall> := [];
    printed := "";
    if includeLyrics {
      TextAppend(calls, [TitleHeading(item.title)]);
      TextOne(TitleHeading(item.title));
      printed, calls := printed + Line("### " + item.title + "\n\n"), calls + [TitleHeading(item.title)];
      var lyrics := GetLyrics(arrangementsOf(item.songId));
      if IsTruthy(lyrics) {
        TextAppend(calls, [LyricsLine(lyrics.value)]);
        TextOne(LyricsLine(lyrics.value));
        printed, calls := printed + Line(lyrics.value), calls + [LyricsLine(lyrics.value)];
      } else {
        TextAppend(calls, [NoLyrics]);
        TextOne(NoLyrics);
        printed, calls := printed + Line("No lyrics found."), calls + [NoLyrics];
      }
      TextAppend(calls, [Separator]);
      TextOne(Separator);
      printed, calls := printed + Line("\n\n"), calls + [Separator];
    } else {
      if prevItemType != Some(Song) {
        TextAppend(calls, [SongsHeading]);
        TextOne(SongsHeading);
        printed, calls := printed + Line("### Songs\n\n"), calls + [SongsHeading];
      }
      TextAppend(calls, [Bullet(item.title)]);
      TextOne(Bullet(item.title));
      printed, calls := printed + Line("- " + item.title), calls + [Bullet(item.title)];
    }
    assert calls == Emit(item, prevItemType, includeLyrics, arrangementsOf);
  }

  /** The fold over the first `n` items, followed by the rest of the items, is the whole walk. */
  lemma {:induction false} RenderPrefixThenRest(items: seq<Item>, n: nat, includeLyrics: bool,
                                                arrangementsOf: string -> seq<Arrangement>)
    requires n <= |items|
    ensures var p := RenderPrefix(items, n, includeLyrics, arrangementsOf);
            p.calls + RenderFrom(items[n..], p.prevItemType, includeLyrics, arrangementsOf)
            == Render(items, includeLyrics, arrangementsOf)
  {
    if n == 0 {
      assert items[0..] == items;
    } else {
      RenderPrefixThenRest(items, n - 1, includeLyrics, arrangementsOf);
      assert items[n - 1..][1..] == items[n..];
    }
  }

  /** The fold over all the items is the whole walk. */
  lemma RenderPrefixComplete(items: seq<Item>, includeLyrics: bool,
                             arrangementsOf: string -> seq<Arrangement>)
    ensures RenderPrefix(items, |items|, includeLyrics, arrangementsOf).calls
            == Render(items, includeLyrics, arrangementsOf)
  {
    RenderPrefixThenRest(items, |items|, includeLyrics, arrangementsOf);
    assert items[|items|..] == [];
  }

  // ---- Planning notes ----

  /** How many of the items are planning notes. */
  function NoteCount(items: seq<Item>): nat
  {
    if items == [] then 0 else (if IsPlanningNote(items[0]) then 1 else 0) + NoteCount(items[1..])
  }

  /**
   * The items with every planning note removed, order kept: exactly the
   * non-note items remain, one fewer for each note, and a run order
   * without notes is left as it is.
   */
  function WithoutPlanningNotes(items: seq<Item>): (kept: seq<Item>)
    ensures |kept| == |items| - NoteCount(items)
    ensures forall x :: x in kept <==> x in items && !IsPlanningNote(x)
    ensures NoteCount(items) == 0 ==> kept == items
  {
    if items == [] then []
    else
      assert items == [items[0]] + items[1..];
      if IsPlanningNote(items[0]) then WithoutPlanningNotes(items[1..])
      else [items[0]] + WithoutPlanningNotes(items[1..])
  }

  /**
   * Planning notes print nothing and leave the tracked type alone, so the
   * print calls are the same with them removed, whatever the starting state.
   */
  lemma {:induction false} RenderFromIgnoresPlanningNotes(items: seq<Item>, prev: Option<ItemType>, includeLyrics: bool,
                                                          arrangementsOf: string -> seq<Arrangement>)
    ensures RenderFrom(items, prev, includeLyrics, arrangementsOf)
            == RenderFrom(WithoutPlanningNotes(items), prev, includeLyrics, arrangementsOf)
  {
    if items != [] {
      RenderFromIgnoresPlanningNotes(items[1..], Tracked(items[0], prev), includeLyrics, arrangementsOf);
      if !IsPlanningNote(items[0]) {
        var kept := [items[0]] + WithoutPlanningNotes(items[1..]);
        assert kept[0] == items[0] && kept[1..] == WithoutPlanningNotes(items[1..]);
      }
    }
  }

  /** The document of a run order is the document of the same run order without its planning notes. */
  lemma RenderIgnoresPlanningNotes(items: seq<Item>, includeLyrics: bool, arrangementsOf: string -> seq<Arrangement>)
    ensures Text(Render(items, includeLyrics, arrangementsOf))
            == Text(Render(WithoutPlanningNotes(items), includeLyrics, arrangementsOf))
  {
    RenderFromIgnoresPlanningNotes(items, None, includeLyrics, arrangementsOf);
  }

  // ---- Songs with lyrics off ----

  /** Every item of `run` is a song. */
  predicate AllSongs(run: seq<Item>)
  {
    forall i :: 0 <= i < |run| ==> run[i].itemType == Song
  }

  /** One bullet per song title, in order. */
  function Bullets(run: seq<Item>): seq<PrintCall>
  {
    seq(|run|, i requires 0 <= i < |run| => Bullet(run[i].title))
  }

  /** With lyrics off, one song prints an optional "Songs" heading and its bullet, and becomes the tracked type. */
  lemma SongWithoutLyrics(song: Item, prev: Option<ItemType>, rest: seq<Item>,
                          arrangementsOf: string -> seq<Arrangement>)
    requires song.itemType == Song
    ensures RenderFrom([song] + rest, prev, false, arrangementsOf)
            == (if prev != Some(Song) then [SongsHeading] else []) + [Bullet(song.title)]
               + RenderFrom(rest, Some(Song), false, arrangementsOf)
  {
    assert ([song] + rest)[0] == song && ([song] + rest)[1..] == rest;
  }

  /** With lyrics off, the first song of `run` prints its optional "Songs" heading and its bullet. */
  lemma SongStep(run: seq<Item>, prev: Option<ItemType>, rest: seq<Item>, arrangementsOf: string -> seq<Arrangement>)
    requires run != [] && run[0].itemType == Song
    ensures RenderFrom(run + rest, prev, false, arrangementsOf)
            == (if prev != Some(Song) then [SongsHeading] else []) + [Bullet(run[0].title)]
               + RenderFrom(run[1..] + rest, Some(Song), false, arrangementsOf)
  {
    assert run + rest == [run[0]] + (run[1..] + rest);
    SongWithoutLyrics(run[0], prev, run[1..] + rest, arrangementsOf);
  }

  /** The first song's bullet followed by the other songs' bullets is the bullet list of the whole run. */
  lemma BulletThenBullets(heading: seq<PrintCall>, run: seq<Item>, tail: seq<PrintCall>, after: seq<PrintCall>)
    requires run != [] && tail == Bullets(run[1..]) + after
    ensures heading + [Bullet(run[0].title)] + tail == heading + Bullets(run) + after
  {
    assert Bullets(run) == [Bullet(run[0].title)] + Bullets(run[1..]);
  }

  /** With lyrics off, songs that follow a song print one bullet each and no heading. */
  lemma {:induction false} SongRunContinues(run: seq<Item>, rest: seq<Item>, arrangementsOf: string -> seq<Arrangement>)
    requires AllSongs(run)
    ensures RenderFrom(run + rest, Some(Song), false, arrangementsOf)
            == Bullets(run) + RenderFrom(rest, Some(Song), false, arrangementsOf)
  {
    var after := RenderFrom(rest, Some(Song), false, arrangementsOf);
    if run == [] {
      assert run + rest == rest;
      assert Bullets(run) + after == after;
    } else {
      var bullet, tail := Bullet(run[0].title), RenderFrom(run[1..] + rest, Some(Song), false, arrangementsOf);
      SongStep(run, Some(Song), rest, arrangementsOf);
      SongRunContinues(run[1..], rest, arrangementsOf);
      BulletThenBullets([], run, tail, after);
      assert [] + [bullet] + tail == [bullet] + tail;
      assert [] + Bullets(run) + after == Bullets(run) + after;
    }
  }

  /**
   * With lyrics off, consecutive songs print the "Songs" heading once, and
   * only when the item before them was not a song, then one bullet each in
   * order; afterwards the tracked type is "song".
   */
  lemma SongRunHasOneHeading(run: seq<Item>, prev: Option<ItemType>, rest: seq<Item>,
                             arrangementsOf: string -> seq<Arrangement>)
    requires run != [] && AllSongs(run)
    ensures RenderFrom(run + rest, prev, false, arrangementsOf)
            == (if prev != Some(Song) then [SongsHeading] else []) + Bullets(run)
               + RenderFrom(rest, Some(Song), false, arrangementsOf)
  {
    SongStep(run, prev, rest, arrangementsOf);
    SongRunContinues(run[1..], rest, arrangementsOf);
    BulletThenBullets(if prev != Some(Song) then [SongsHeading] else [], run,
                      RenderFrom(run[1..] + rest, Some(Song), false, arrangementsOf),
                      RenderFrom(rest, Some(Song), false, arrangementsOf));
  }

  /** An item of a type other than "item" or "song" prints nothing but becomes the tracked type. */
  lemma OtherTypeStep(other: Item, prev: Option<ItemType>, rest: seq<Item>, includeLyrics: bool,
                      arrangementsOf: string -> seq<Arrangement>)
    requires other.itemType.OtherType?
    ensures RenderFrom([other] + rest, prev, includeLyrics, arrangementsOf)
            == RenderFrom(rest, Some(other.itemType), includeLyrics, arrangementsOf)
  {
    assert ([other] + rest)[0] == other && ([other] + rest)[1..] == rest;
  }

  /**
   * An item of any type other than "item" or "song" prints nothing but
   * becomes the tracked type, so a song right after it opens a new "Songs"
   * heading.
   */
  lemma OtherTypeSplitsSongRun(other: Item, song: Item, prev: Option<ItemType>, rest: seq<Item>,
                               arrangementsOf: string -> seq<Arrangement>)
    requires other.itemType.OtherType? && song.itemType == Song
    ensures RenderFrom([other, song] + rest, prev, false, arrangementsOf)
            == [SongsHeading, Bullet(song.title)] + RenderFrom(rest, Some(Song), false, arrangementsOf)
  {
    assert [other, song] + rest == [other] + ([song] + rest);
    OtherTypeStep(other, prev, [song] + rest, false, arrangementsOf);
    SongWithoutLyrics(song, Some(other.itemType), rest, arrangementsOf);
  }

  /** A planning note prints nothing and leaves the tracked type as it was. */
  lemma PlanningNoteStep(note: Item, prev: Option<ItemType>, rest: seq<Item>, includeLyrics: bool,
                         arrangementsOf: string -> seq<Arrangement>)
    requires IsPlanningNote(note)
    ensures RenderFrom([note] + rest, prev, includeLyrics, arrangementsOf)
            == RenderFrom(rest, prev, includeLyrics, arrangementsOf)
  {
    assert ([note] + rest)[0] == note && ([note] + rest)[1..] == rest;
  }

  /**
   * With lyrics off, a planning note between two songs does not split their
   * run: the second song gets a bullet and no new "Songs" heading.
   */
  lemma PlanningNoteKeepsSongRun(first: Item, note: Item, second: Item, prev: Option<ItemType>,
                                 rest: seq<Item>, arrangementsOf: string -> seq<Arrangement>)
    requires first.itemType == Song && second.itemType == Song && IsPlanningNote(note)
    ensures RenderFrom([first, note, second] + rest, prev, false, arrangementsOf)
            == (if prev != Some(Song) then [SongsHeading] else []) + [Bullet(first.title), Bullet(second.title)]
               + RenderFrom(rest, Some(Song), false, arrangementsOf)
  {
    var heading: seq<PrintCall> := if prev != Some(Song) then [SongsHeading] else [];
    var after := RenderFrom(rest, Some(Song), false, arrangementsOf);
    calc {
      RenderFrom([first, note, second] + rest, prev, false, arrangementsOf);
      { assert [first, note, second] + rest == [first] + ([note] + ([second] + rest)); }
      RenderFrom([first] + ([note] + ([second] + rest)), prev, false, arrangementsOf);
      { SongWithoutLyrics(first, prev, [note] + ([second] + rest), arrangementsOf); }
      heading + [Bullet(first.title)] + RenderFrom([note] + ([second] + rest), Some(Song), false, arrangementsOf);
      { PlanningNoteStep(note, Some(Song), [second] + rest, false, arrangementsOf); }
      heading + [Bullet(first.title)] + RenderFrom([second] + rest, Some(Song), false, arrangementsOf);
      { SongWithoutLyrics(second, Some(Song), rest, arrangementsOf); }
      heading + [Bullet(first.title)] + ([Bullet(second.title)] + after);
      heading + [Bullet(first.title), Bullet(second.title)] + after;
    }
  }

  /** The marker test on two concrete titles: "Welcome" is no planning note, the marked title is. */
  lemma MarkerDecidesNote(welcome: Item, note: Item)
    requires welcome == Item(GenericItem, "Welcome", None, "")
    requires note == Item(GenericItem, "NOTE: SERVICE PLANNING - ignore", None, "")
    ensures !IsPlanningNote(welcome) && IsPlanningNote(note)
  {
    assert PlanningNoteMarker[0] != welcome.title[0];
    assert note.title[..|PlanningNoteMarker|] == PlanningNoteMarker;
  }

  /**
   * A welcome item, two songs, a planning note and a third song, lyrics off:
   * the welcome block, then one "Songs" heading over all three bullets, since
   * the skipped note does not become the tracked type.
   */
  lemma NoteInsideSongRunExample(arrangementsOf: string -> seq<Arrangement>)
    ensures Render([Item(GenericItem, "Welcome", None, ""),
                    Item(Song, "Amazing Grace", None, "1"),
                    Item(Song, "How Great", None, "2"),
                    Item(GenericItem, "NOTE: SERVICE PLANNING - ignore", None, ""),
                    Item(Song, "Great Is Thy Faithfulness", None, "3")], false, arrangementsOf)
            == [TitleHeading("Welcome"), Separator,
                SongsHeading, Bullet("Amazing Grace"), Bullet("How Great"), Bullet("Great Is Thy Faithfulness")]
  {
    var welcome := Item(GenericItem, "Welcome", None, "");
    var first := Item(Song, "Amazing Grace", None, "1");
    var second := Item(Song, "How Great", None, "2");
    var note := Item(GenericItem, "NOTE: SERVICE PLANNING - ignore", None, "");
    var third := Item(Song, "Great Is Thy Faithfulness", None, "3");
    MarkerDecidesNote(welcome, note);
    calc {
      Render([welcome, first, second, note, third], false, arrangementsOf);
      { assert [welcome, first, second, note, third] == [welcome] + ([first, second, note, third]); }
      RenderFrom([welcome] + [first, second, note, third], None, false, arrangementsOf);
      { assert ([welcome] + [first, second, note, third])[1..] == [first, second, note, third]; }
      [TitleHeading("Welcome"), Separator] + RenderFrom([first, second, note, third], Some(GenericItem), false, arrangementsOf);
      { assert [first, second, note, third] == [first] + ([second, note, third] + []);
        SongWithoutLyrics(first, Some(GenericItem), [second, note, third] + [], arrangementsOf);
        PlanningNoteKeepsSongRun(second, note, third, Some(Song), [], arrangementsOf); }
      [TitleHeading("Welcome"), Separator] + ([SongsHeading] + [Bullet(first.title)] + [Bullet(second.title), Bullet(third.title)]);
    }
  }

  // ---- Lyrics mode ----

  /** What an item prints in lyrics mode, stated without any tracked state. */
  function LyricsModeBlock(item: Item, arrangementsOf: string -> seq<Arrangement>): seq<PrintCall>
  {
    if IsPlanningNote(item) || item.itemType.OtherType? then []
    else if item.itemType == GenericItem then
      [TitleHeading(item.title)]
      + (match item.description
         case Some(d) => if d == "" then [] else [Description(d)]
         case None => [])
      + [Separator]
    else
      [TitleHeading(item.title),
       match FirstNonEmpty(arrangementsOf(item.songId))
       case Some(lyrics) => LyricsLine(lyrics)
       case None => NoLyrics,
       Separator]
  }

  /** Each item's lyrics-mode block, in order. */
  function LyricsModeCalls(items: seq<Item>, arrangementsOf: string -> seq<Arrangement>): seq<PrintCall>
  {
    if items == [] then [] else LyricsModeBlock(items[0], arrangementsOf) + LyricsModeCalls(items[1..], arrangementsOf)
  }

  /**
   * With lyrics on, the tracked previous type has no effect: the print calls
   * are each item's own block, in order, every song with its own heading and
   * exactly one of its selected lyrics or the fallback line.
   */
  lemma {:induction false} LyricsModeIgnoresPrevious(items: seq<Item>, prev: Option<ItemType>,
                                                     arrangementsOf: string -> seq<Arrangement>)
    ensures RenderFrom(items, prev, true, arrangementsOf) == LyricsModeCalls(items, arrangementsOf)
  {
    if items != [] {
      LyricsModeIgnoresPrevious(items[1..], Tracked(items[0], prev), arrangementsOf);
      assert Emit(items[0], prev, true, arrangementsOf) == LyricsModeBlock(items[0], arrangementsOf);
    }
  }
}
