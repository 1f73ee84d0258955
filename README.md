# Planning Center run-order export, modelled in Dafny

`app.py` turns the run order of one Planning Center service plan into a
Markdown document. A user picks a service type and a service date, and the
date defaults to the next upcoming plan. The program then walks the plan's
items in order and prints:

- a heading and an escaped description for each generic item;
- one "### Songs" heading over a bullet list for each run of consecutive songs;
- in lyrics mode, a heading for each song followed by the lyrics of its first
  arrangement whose lyrics are non-empty.

This project models the logic inside that glue, with the API responses as
plain inputs:

- `wrappers.dfy` (`Wrappers`): `Option` and Python truthiness of an
  optional string, where `None` and `""` are false.
- `strings.dfy` (`Strings`): Python's `<` and `>=` on `str`. This is
  lexicographic order on code points, written out because Dafny's `<` on
  sequences means "proper prefix". The module proves that the order is
  irreflexive, transitive and total.
- `services.dfy` (`Services`): the service-type selector's options and
  labels (`service_type_ids`, `service_type_names`) and the default
  "upcoming" service index.
- `lyrics.dfy` (`Lyrics`): `get_lyrics`. It is a scan over a song's
  arrangements, in the order the API returns them, that returns the first
  non-empty lyrics or falls off the end with `None`.
- `run_order.dfy` (`RunOrder`): the render loop.
  - `RenderRunOrder` is the loop itself: a `for` loop that carries
    `prevItemType` and a growing output string.
  - The loop is proved equal to a specification. `Render` gives the
    sequence of `print` calls (`PrintCall`), and `Text` gives the exact
    characters those calls append. Each `print(s)` appends `s` followed by
    a line ending.
  - Lemmas about `Render` state the documented behaviour:
    - planning notes print nothing and do not disturb the tracked type;
    - a run of songs gets one heading, with lyrics off;
    - an unknown item type starts a new song run;
    - with lyrics on, the tracked type has no effect;
    - escaping a description turns each line ending into a Markdown hard
      line break, and nothing else changes.

### Planning notes and the tracked type

One might expect a skipped planning note to set the tracked previous type to
"item", so that a song after a note would open a new "### Songs" heading. It
does not. The `continue` at `app.py:73` skips `prev_item_type = item_type` at
`app.py:93`, so a skipped note leaves the tracked type as it was. The model
follows the code:

- `RenderIgnoresPlanningNotes` shows that rendering with or without the
  notes gives the same document.
- `PlanningNoteKeepsSongRun` shows that a note between two songs does not
  split their run.
- `NoteInsideSongRunExample` renders a welcome item, two songs, a planning
  note and a third song. The result is the welcome block and a single
  "### Songs" heading over three bullets.

## Model

| member | source | states |
|---|---|---|
| Services.ServiceTypeIds | app.py:27 | the selector options are the service-type ids in response order: same length, entry `i` is entry `i`'s id |
| Services.ServiceTypeNames | app.py:28 | the name dictionary's keys are exactly the ids that occur in the response |
| Services.ServiceTypeNamesLastWins | app.py:28 | an id maps to the name of its last occurrence, because a later duplicate overwrites an earlier one in the comprehension |
| Services.EveryIdHasName | app.py:27-31 | every option of the service-type selector has a label in the name dictionary, so `format_func` never misses |
| Services.FirstUpcomingFrom | app.py:44 | the generator scan from position `from` stops at the first sort date `>= today`: every date it passes is `< today`, and it stops at the end only if none qualifies |
| Services.UpcomingIndex | app.py:44 | the default index is the first plan whose sort date is `>= str(today)`, and every earlier plan is `<`; it is 0 when no plan qualifies |
| Services.UpcomingIndexSplitsSorted | app.py:38-44 | on plans ordered by sort date with some upcoming plan, a plan is upcoming exactly when its index is at or after the default index |
| Services.UpcomingIndexPicksToday | app.py:44 | with plans 10 and 2 days ago, today and 5 days ahead, the default is today's plan (index 2) |
| Services.UpcomingIndexAllPast | app.py:44 | with every plan in the past, the default index is 0 |
| Strings.StrLessAt | app.py:44 | two strings that agree up to a position where `a` has the smaller code point satisfy `a < b`, whatever follows |
| Strings.StrLessIrreflexive | app.py:44 | no string is `<` itself |
| Strings.StrLessAsymmetric | app.py:44 | `a < b` and `b < a` never hold together |
| Strings.StrLessTransitive | app.py:44 | Python's string `<`, used for the date comparison, is transitive |
| Strings.StrLessTotal | app.py:44 | any two strings are equal or `<` one way or the other, so `>=` is exactly "not `<`" |
| Strings.StrAtLeast | app.py:44 | `a >= b` holds exactly when `a == b` or `b < a` |
| Strings.StrAtLeastTransitive | app.py:44 | `>=` on strings is transitive |
| Lyrics.FirstNonEmpty | app.py:57-60 | the selected lyrics, when present, are non-empty |
| Lyrics.GetLyrics | app.py:51-60 | the loop with early return yields exactly the first-non-empty selection, or `None` when it runs off the end |
| Lyrics.FirstNonEmptyIsFirst | app.py:57-60 | if arrangement `k` has non-empty lyrics and all earlier ones are empty, the result is arrangement `k`'s lyrics |
| Lyrics.FirstNonEmptyNoneIffAllEmpty | app.py:57-60 | the result is `None` if and only if every arrangement's lyrics are empty, including the empty list |
| Lyrics.FirstNonEmptyIgnoresLater | app.py:57-60 | arrangements after the first with lyrics never affect the result, because the scan returns in source order |
| RunOrder.ParseItemType | app.py:69-78 | "item" and "song" are recognised exactly, and every other tag is kept as an other type; the result is never an other type named "item" or "song" |
| RunOrder.TagOfParse | app.py:69-78 | reading an `item_type` tag and writing it back gives the same tag |
| RunOrder.ParseOfTag | app.py:69-78 | every item type an item can carry is read from exactly one tag, so no item type is unreachable from the data |
| RunOrder.LineShape | app.py:74-92 | each `print(s)` appends exactly `s` followed by one line ending |
| RunOrder.ArgumentShape | app.py:74-92 | a heading's argument starts with "### " and ends with a blank line, a bullet's is "- " followed by exactly the title, and a description's is one character longer per line ending |
| RunOrder.TextAppend | app.py:64-65 | printing two batches of calls into the buffer yields the concatenation of their texts |
| RunOrder.EmitShape | app.py:70-92 | the loop body prints nothing exactly for a planning note or an item of an unknown type, and at most three lines for any item |
| RunOrder.TrackedShape | app.py:71-93 | every item other than a planning note becomes the tracked type, and the tracked type changes only on an item that is not a planning note |
| RunOrder.RenderRunOrder | app.py:64-93 | the loop's buffer equals the text of the specified print-call sequence for the items, lyrics flag and lyrics lookup |
| RunOrder.RenderStep | app.py:67-93 | one loop iteration keeps the loop state: a planning note leaves the buffer and the tracked type as they were, and any other item appends its prints and becomes the tracked type |
| RunOrder.PrintItem | app.py:70-92 | the loop body's prints for one non-note item are exactly the text of that item's print calls, given the tracked previous type; an unknown type prints nothing |
| RunOrder.PrintGenericItem | app.py:74-77 | a generic item prints its "### title" heading, then its escaped description only when that is non-empty, then a separator, whatever the tracked type or lyrics mode |
| RunOrder.PrintSong | app.py:78-92 | a song prints, with lyrics on, its heading, its selected lyrics or "No lyrics found.", and a separator; with lyrics off, "### Songs" only after a non-song, then its bullet |
| RunOrder.EscapeNewlines | app.py:76 | escaping lengthens a description by exactly its number of line endings |
| RunOrder.EscapeNewlinesHardBreaks | app.py:75-76 | every line ending in an escaped description is preceded by a backslash, which is a Markdown hard line break |
| RunOrder.EscapeNewlinesRoundTrip | app.py:75-76 | removing the inserted backslashes gives back the original description, so no other character changes |
| RunOrder.WithoutPlanningNotes | app.py:71-73 | removing the planning notes shortens the list by exactly the number of notes; an item is kept if and only if it occurs in the list and is not a note; a list without notes is returned unchanged |
| RunOrder.PlanningNoteStep | app.py:71-73 | a planning note prints nothing and leaves the tracked type unchanged, because `continue` skips the update at line 93 |
| RunOrder.RenderFromIgnoresPlanningNotes | app.py:70-93 | from any tracked state, the print calls with and without the planning notes are identical, because a note prints nothing and `continue` skips the type update |
| RunOrder.RenderIgnoresPlanningNotes | app.py:64-93 | the document of a run order equals the document of the same run order with its planning notes removed |
| RunOrder.SongWithoutLyrics | app.py:89-93 | with lyrics off, a song prints "### Songs" only when the tracked type is not song, then its bullet, and the tracked type becomes song |
| RunOrder.SongStep | app.py:89-93 | with lyrics off, the first song of a list prints "### Songs" only when the tracked type is not song, then its bullet, and the rest renders with song as the tracked type |
| RunOrder.SongRunContinues | app.py:89-93 | with lyrics off, songs after a song print one bullet each, in order, and no heading |
| RunOrder.SongRunHasOneHeading | app.py:89-93 | with lyrics off, a run of consecutive songs prints one "### Songs" heading (none if the previous item was a song), then one bullet per song in order |
| RunOrder.OtherTypeStep | app.py:67-93 | an item whose type is neither "item" nor "song" prints nothing in either mode, and the rest renders with that type as the tracked type |
| RunOrder.OtherTypeSplitsSongRun | app.py:67-93 | an item whose type is neither "item" nor "song" prints nothing but becomes the tracked type, so a following song opens a new "### Songs" heading |
| RunOrder.PlanningNoteKeepsSongRun | app.py:70-93 | with lyrics off, a planning note between two songs does not split their run, so the second song gets only a bullet |
| RunOrder.NoteInsideSongRunExample | app.py:64-93 | a welcome item, two songs, a planning note and a third song render as the welcome block, one "### Songs" heading and three bullets |
| RunOrder.LyricsModeIgnoresPrevious | app.py:79-88 | with lyrics on, the output is each item's own block in order, independent of the tracked type; each song gets its heading, exactly one of its selected lyrics or "No lyrics found.", and a separator |

## Left out

- Streamlit widgets and display (`st.selectbox`, `st.checkbox`,
  `st.markdown`; app.py:29-31, 45, 62, 95) are UI. The chosen service type,
  service index and lyrics flag become inputs.
- HTTP, basic auth and `get_json` (app.py:21-24), including the response
  cache, are network I/O. Wherever the loop fetches a song and its
  arrangements (app.py:81, 55-56), the model takes a function
  `arrangementsOf` from song id to arrangement list. Request failures, which
  abort the render in the source, are not modelled.
- Loading configuration from the environment and the startup asserts
  (app.py:13-19) are configuration I/O.
- `date.today()` and `timedelta` (app.py:33-34) are clock reads. `today` is
  a string parameter in ISO 8601 form. The two-weeks-ago bound only feeds the
  server-side plan filter (app.py:36-39), which is not modelled.
- JSON navigation becomes typed datatype fields. This covers the
  `song['data']` unwrap at app.py:53-54 and the `service_dates` labels at
  app.py:42 and 47.
- The plan lookup at app.py:46: with an empty plan list the default index is
  0, and the lookup then fails in the source. The model stops at the index.
- `redirect_stdout` and `StringIO` (app.py:64-65) become appending to a
  string.
- Re-rendering the same items with the same flag gives identical output.
  This holds by construction, because `Render` is a function, so there is no
  separate lemma for it.
- RunOrder.PrintItem, RunOrder.PrintGenericItem: require that the item is not
  a planning note. The loop at app.py:71-73 skips notes before the prints
  these model.
