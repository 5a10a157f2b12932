# Guitar chase game: chart post-processing and game flow in Dafny

This project models the parts of the rhythm game "bear vs man" that can be
modelled without the rhythm engine itself. There are two halves:

- **Backend chart clean-up** (`backend/server.js`). A chart comes back from the
  language model, and the backend repairs it:
  - It rebuilds the `[Events]` section with one event per tick, sorted by tick.
  - In every difficulty section it moves the note lines behind the other lines
    and sorts them by tick.
  - It gives every tap note whose tick is a multiple of 10 a sustain of 192.
  - It wraps and quotes an unbraced `[Song]` block.
- **Backend chart metadata and song library** (`backend/server.js`).
  `parseChartMetadata` turns a chart into its metadata record. The save and
  upload handlers derive directory and file names from the song name, and
  upsert the song into `index.json`.
- **Game flow in the client** (`frontend-game/src`):
  - How the game screen turns each judgment the engine reports into score,
    combo, accuracy, a score push and a popup.
  - The chase bars.
  - The one-shot end-of-match handler behind the `endHandledRef` latch, with
    its win attribution, the multiplayer auto-restart and the solo results
    screen.
  - The restart button and the rank.
  - The keyboard state machine and start rule of the song-select screen.
  - The character cycling of both selection screens.
  - The `{isLoading, error, result}` record of the Gemini request hook.

The modules:

| module | file | what it holds |
|---|---|---|
| `Wrappers` | wrappers.dfy | `Option`, `Result` |
| `JsText` | js_text.dfy | JavaScript string semantics the code relies on: `\s`, `trim`, `split`/`join`, `parseInt` of a digit run, `^(\d+)` and `(\d+)` |
| `JsSort` | js_sort.dfy | `Array.prototype.sort` with a comparator, as a stable insertion sort |
| `ChartText` | chart_text.dfy | events de-duplication, note-section sort, sustain injection, `[Song]` formatting |
| `ChartMetadata` | chart_metadata.dfy | `parseChartMetadata` |
| `SongLibrary` | song_library.dfy | `cleanSongName`, the chart file name, the `index.json` upsert |
| `Roster` | roster.dfy | the character table, `getCharIndex`, `swapChar`, panel and NEXT rules, the local player |
| `SongSelect` | song_select.dfy | `canStart`, the song cursor, the `keydown` handler, the upload filter |
| `Gameplay` | gameplay.dfy | the game screen |
| `GeminiApi` | gemini_api.dfy | `useGeminiApi` |

Regular expressions are modelled where their result matters:
- A note line is recognised by a small piecewise matcher (`ChartText.MatchAt`)
  that runs the literal pattern `\d+\s*=\s*N\s+\d+\s+\d+`.
- The difficulty counts matches of `<c>\s*N\s+\d+` with the same matcher.
- Elsewhere a regex's findings are inputs, as already-parsed values: event
  lines, note entries, and the captures of `parseChartMetadata`.

A few behaviours of the game screen follow from React's dependency rules and
are modelled as the code has them:

- The stats interval is created by the main effect. It reads the gameplay
  record of the render in which that effect last ran (`GameSession.seen`).
  The scores are not among the effect's dependencies, so multiplayer chase
  bars follow the scores as they were when the effect last ran.
- `handleInput` depends on `isPaused`, and the main effect depends on
  `handleInput`. Pausing or resuming therefore re-runs the effect: the
  paused engine is stopped, and a new engine is created and starts the song
  (`GameSession.TogglePause`).
- A change of the synchronized end state also re-runs the effect
  (`GameSession.MirrorLobbyRecord`). Every re-run reopens the latch.
- A multiplayer restart timer starts the engine that was current when it was
  scheduled. Unmounting does not cancel it.
- `handleNoteResult` reads the current score and combo from refs that
  effects refresh after each render (`ScoreRefs`, `GameSession.CommitRefs`).
  Two judgments reported before the next render read the same refs, so in
  solo play the second overwrites the first
  (`Gameplay.ResultsBetweenRendersOverwrite`). With a render between them
  both count (`Gameplay.ResultsAcrossRendersAdd`).

Engines are numbered in the order the screen creates them, so the call log
says which engine each call reaches.

## Model

| member | source | states |
|---|---|---|
| JsText.TrimStart | backend/server.js:707 | `trimStart` leaves a suffix of the string that does not start with white space, and everything it drops is white space |
| JsText.TrimEnd | backend/server.js:707 | `trimEnd` leaves a prefix that does not end with white space, and everything it drops is white space |
| JsText.Trim | backend/server.js:707 | `trim` leaves no white space at either end |
| JsText.TrimmedIsFixed | backend/server.js:707 | a string without white space at its ends is its own trim |
| JsText.TrimStartSkips | backend/server.js:707 | leading white space does not change what `trimStart` leaves |
| JsText.TrimEndSkips | backend/server.js:707 | trailing white space does not change what `trimEnd` leaves |
| JsText.TrimOfPadded | backend/server.js:707 | trimming the white space around a trimmed string gives exactly that string |
| JsText.LeadingDigits | backend/server.js:670 | the longest digit prefix of a line |
| JsText.LeadingNumber | backend/server.js:670-671 | `^(\d+)` finds a number exactly when the line starts with a digit |
| JsText.FirstNumber | backend/server.js:684 | `(\d+)` finds a number exactly when the line holds a digit |
| JsText.DigitsValueBelow | backend/server.js:609 | `parseInt` of n digits is below 10^n |
| JsText.DigitsValueAbove | backend/server.js:609 | `parseInt` of n ≥ 2 digits without a leading zero is at least 10^(n-1) |
| JsText.DigitsValueInjective | backend/server.js:600-609 | two digit runs without leading zeros that `parseInt` reads as the same number are the same run |
| JsText.Split | backend/server.js:704 | `split` gives at least one part, and no part holds the separator |
| JsText.IndexOf | backend/server.js:707 | the position of the first occurrence of the separator |
| JsText.JoinSplit | backend/server.js:704 | joining the parts of a split gives the string back |
| JsText.SplitJoin | backend/server.js:716 | splitting a join of separator-free parts gives the parts back |
| JsText.SplitKeepsChars | backend/server.js:704 | every character of a part of a split comes from the string |
| JsText.SplitAround | backend/server.js:716 | splitting a join of separator-free parts between a first and a last one gives all of them back |
| JsSort.Insert | backend/server.js:609 | inserting one element adds exactly that element |
| JsSort.Sort | backend/server.js:609 | the sort is a permutation of its input |
| JsSort.InsertSorted | backend/server.js:609 | inserting into a key-sorted list with a key-difference comparator keeps it sorted |
| JsSort.SortSorts | backend/server.js:669-676 | with a comparator that is the difference of keys, the output is ascending by key |
| JsSort.SortKeepsOrder | backend/server.js:672 | when no element compares greater than another, the order is unchanged |
| JsSort.SortPair | backend/server.js:669-676 | two elements are swapped exactly when the comparator is positive |
| ChartText.FirstSeen | backend/server.js:595-606 | the `eventMap` entries in insertion order hold no tick twice |
| ChartText.FirstNameSnoc | backend/server.js:597-606 | one more line changes the first name for a tick only when no earlier line had that tick |
| ChartText.FirstSeenIsFirstNames | backend/server.js:597-606 | a tick is in the map exactly when some event line has it, and it holds the name of the first such line |
| ChartText.AddEventLine | backend/server.js:597-606 | one step of the `forEach` (`has`, then `set`) keeps the map and its key order equal to the first-seen entries of the lines so far |
| ChartText.DistinctTicksOnce | backend/server.js:608 | a list with distinct ticks holds each entry at most once |
| ChartText.DistinctTicksInjective | backend/server.js:608 | in a list with distinct ticks, two entries with the same tick are the same entry |
| ChartText.PermutationKeepsDistinctTicks | backend/server.js:608-609 | reordering the entries keeps their ticks distinct |
| ChartText.SortedFirstSeen | backend/server.js:608-609 | the sorted entries are ascending by `parseInt`, have distinct ticks, and are exactly the first event of each tick |
| ChartText.DedupEvents | backend/server.js:593-614 | the rebuilt section is the first-seen entries sorted by tick: ascending, with one entry per tick, and an entry is kept exactly when it is the first event line for its tick; later duplicates and non-event lines are dropped |
| ChartText.FirstNameFromLine | backend/server.js:597-605 | a tick with a first name comes from an event line with that tick and name |
| ChartText.DedupStrictlyAscending | backend/server.js:608-611 | when every tick is written without leading zeros, the rebuilt section is strictly ascending |
| ChartText.IsNoteLine | backend/server.js:661 | a line the note test accepts holds a number, the tick the note sort reads |
| ChartText.NoteLines | backend/server.js:660-666 | `noteLines` holds only lines the note test accepts |
| ChartText.OtherLines | backend/server.js:660-666 | `otherLines` holds only lines the note test rejects |
| ChartText.SplitIsPermutation | backend/server.js:657-666 | the two lists together are a permutation of the section's lines |
| ChartText.NoteCmpConsistent | backend/server.js:669-676 | on note lines the corrected comparator is the difference of the lines' ticks |
| ChartText.SortNoteSection | backend/server.js:655-680 | the section becomes its non-blank other lines in their order, then its note lines sorted by tick; the whole is a permutation of the non-blank lines |
| ChartText.NoteSectionFacts | backend/server.js:678 | the concatenation keeps the other lines as its prefix and only note lines after it |
| ChartText.AsWrittenSortsDigitLines | backend/server.js:669-676 | the comparator as written sorts by leading number when every line starts with a digit |
| ChartText.AsWrittenKeepsIndentedLines | backend/server.js:670-672 | the comparator as written leaves lines that do not start with a digit in their order |
| ChartText.NoteSortCounterexample | backend/server.js:669-676 | two indented note lines out of order stay out of order as written, and are swapped by the corrected sort |
| ChartText.InjectSustain | backend/server.js:683-689 | tick and fret are kept; the entry changes exactly when its sustain is 0 and its tick is a multiple of 10, and then gets sustain 192 |
| ChartText.InjectSustains | backend/server.js:683 | every entry is rewritten on its own |
| ChartText.InjectSustainsIdempotent | backend/server.js:683-689 | a second pass changes nothing |
| ChartText.FormatSongLine | backend/server.js:705-715 | a line without `=` is kept as it is |
| ChartText.FormatSongLines | backend/server.js:705 | the lines are formatted one by one |
| ChartText.NonBlank | backend/server.js:704 | the filter never adds lines, and keeps a single line exactly when its trim is non-empty |
| ChartText.NonBlankKeeps | backend/server.js:704 | exactly the lines whose trim is non-empty are kept |
| ChartText.NonBlankConcat | backend/server.js:704 | the filter works line by line: the kept lines of a concatenation are the kept lines of each part, in order |
| ChartText.FormatSongContent | backend/server.js:699-717 | a block holding both braces is returned unchanged; any other block comes out braced |
| ChartText.FormatSongContentLines | backend/server.js:699-717 | without both braces, the result's lines are `{`, the content's non-blank lines each formatted, in their order, and `}`; an empty line stands between the braces when no line is kept |
| ChartText.FormatSongLineOneLine | backend/server.js:705-715 | formatting a line adds no line break, so each formatted line stays one line of the block |
| ChartText.FormatSongContentIdempotent | backend/server.js:701-703 | formatting a formatted block changes nothing |
| ChartText.FormatSongLineReadsBack | backend/server.js:706-712 | reading a formatted line back gives the same key, and the trimmed value, quoted exactly for Name, Artist, Charter, Genre, MediaType and MusicStream |
| ChartText.TrimKeepsOnlyItsChars | backend/server.js:707 | a trimmed string holds only characters of the original |
| ChartText.KeyValueReadsBack | backend/server.js:709-711 | `key = text` splits back into that key and that text |
| ChartMetadata.CountMatches | backend/server.js:930-931 | no more matches are counted than there are positions |
| ChartMetadata.CountMatchesPositive | backend/server.js:930-932 | the count is positive exactly when the pattern matches at some position |
| ChartMetadata.DifficultyForCount | backend/server.js:933-937 | 1 exactly below 50 notes, 2 exactly from 50 below 100, 3 exactly from 100 below 200, 4 exactly from 200 below 300, 5 exactly from 300 |
| ChartMetadata.DifficultyMonotone | backend/server.js:933-937 | more notes never give a lower difficulty |
| ChartMetadata.EstimateDifficulty | backend/server.js:928-938 | the difficulty lies in 1..5; it stays 3 without an ExpertSingle section or without a marker in it, and is otherwise the bucket of the marker count |
| ChartMetadata.NoLeadNoMatches | backend/server.js:930-931 | without the lead character there is no match to count |
| ChartMetadata.DifficultyAsWrittenIgnoresNotes | backend/server.js:930-931 | as written, any section without a `\|` is rated 3 however many notes it has |
| ChartMetadata.DifficultyCounterexample | backend/server.js:928-938 | a section with one note line is rated 3 as written and 1 when corrected |
| ChartMetadata.MaxOf | backend/server.js:950-957 | the largest captured value bounds every value and is one of them, or 0 |
| ChartMetadata.Ticks | backend/server.js:951-955 | the ticks of the note entries, in order |
| ChartMetadata.Frets | backend/server.js:951-955 | the numbers after `N`, in order |
| ChartMetadata.MaxCaptured | backend/server.js:950-957 | the `forEach` loop ends with the maximum of the captured numbers |
| ChartMetadata.MaxTickCounterexample | backend/server.js:951-955 | one note at tick 768 on fret 1 gives a largest "tick" of 1 as written and 768 when corrected |
| ChartMetadata.MaxTickPositive | backend/server.js:959-962 | the length is re-estimated exactly when some note has a positive tick, from a tick that occurs and bounds all others |
| ChartMetadata.ParseChartMetadata | backend/server.js:895-962 | each field is its trimmed capture or its default; AI-generated unless a charter other than `Gemini` is named; difficulty in 1..5 from the note count; length re-estimated from the largest tick only when it is positive |
| SongLibrary.Keep | backend/server.js:1051 | deleting the unwanted characters leaves only allowed characters |
| SongLibrary.KeepConcat | backend/server.js:870 | deleting characters distributes over concatenation |
| SongLibrary.KeepAllowed | backend/server.js:1051 | a string of allowed characters is left alone |
| SongLibrary.CollapseSpaces | backend/server.js:1051 | after `\s+` becomes `_` no white space is left, and every character is from the input or `_` |
| SongLibrary.CollapseNoSpaces | backend/server.js:1051 | a string without white space is left alone |
| SongLibrary.CleanSongName | backend/server.js:1051 | `cleanSongName` holds only letters, digits, `-` and `_` |
| SongLibrary.CleanSongNameFixedPoints | backend/server.js:1085 | cleaning is idempotent, and it leaves a name unchanged exactly when the name is already clean |
| SongLibrary.KeepKeepsAlnums | backend/server.js:1051 | deleting characters keeps every letter and digit |
| SongLibrary.CollapseKeepsAlnums | backend/server.js:1051 | collapsing white space keeps every letter and digit |
| SongLibrary.NoAlnumInSpaces | backend/server.js:1051 | white space holds no letter or digit |
| SongLibrary.CleanSongNameKeepsAlnums | backend/server.js:1051 | no letter or digit of the song name is lost or reordered |
| SongLibrary.ChartFileName | backend/server.js:870 | the chart file name holds only letters, digits, white space, `-` and `.` |
| SongLibrary.ChartFileNameShape | backend/server.js:870-871 | the file name is the song name's allowed characters followed by `.chart`, and has no `/` |
| SongLibrary.AsciiUpper | backend/server.js:1111 | `toUpperCase` maps each letter on its own |
| SongLibrary.EntryFor | backend/server.js:1109-1114 | the id is the cleaned song name (so a clean name), the title the song name in upper case, bpm 120 and difficulty Medium |
| SongLibrary.FindIndex | backend/server.js:1107 | `findIndex` gives -1 or the first index with that id |
| SongLibrary.Upserted | backend/server.js:1106-1123 | the new entry is in the list; the list grows by one exactly when no entry had the id; entries with other ids keep their places |
| SongLibrary.Upsert | backend/server.js:1107-1123 | the first entry with the id is replaced and the length is kept, or the entry is appended; nothing else changes |
| SongLibrary.UpsertedFinds | backend/server.js:1107-1123 | after the upsert, the id is found at the new entry |
| SongLibrary.FindIndexFirst | backend/server.js:1107 | the first position holding the id is what `findIndex` returns |
| SongLibrary.UpsertedIdempotent | backend/server.js:1107-1123 | uploading the same song twice leaves the index as one upload did |
| SongLibrary.UpsertedKeepsOthers | backend/server.js:1108-1123 | entries with other ids are neither lost nor changed |
| Roster.FindId | frontend-game/src/screens/CharacterSelectScreen.tsx:28 | `findIndex` on the character table gives -1 or the first index with the id |
| Roster.CharIndex | frontend-game/src/screens/SongSelectScreen.tsx:29-32 | `getCharIndex` is in range, points at the id when the table has it, and is 0 otherwise |
| Roster.CycleIndex | frontend-game/src/screens/CharacterSelectScreen.tsx:34 | one step forward or back around the table, wrapping at both ends |
| Roster.CycleIndexInverse | frontend-game/src/screens/SongSelectScreen.tsx:35 | a step one way and a step back return to the start |
| Roster.SwapChar | frontend-game/src/screens/CharacterSelectScreen.tsx:32-36 | `swapChar` always selects a character of the table |
| Roster.SwapCharToggles | frontend-game/src/screens/SongSelectScreen.tsx:33-37 | either arrow switches bear and man, and an unset or unknown id becomes man |
| Roster.SwapCharRestores | frontend-game/src/screens/CharacterSelectScreen.tsx:32-36 | swapping and swapping back restores the character |
| Roster.PanelAvailable | frontend-game/src/screens/CharacterSelectScreen.tsx:41 | player 1's panel always shows its arrows; player 2's does exactly when player 2 is connected |
| Roster.NextEnabled | frontend-game/src/screens/CharacterSelectScreen.tsx:123 | NEXT is enabled exactly when player 1 has a character |
| Roster.IsMultiplayer | frontend-game/src/screens/GameScreen.tsx:76 | a match is multiplayer exactly when the lobby is not in solo mode or player 2 is connected |
| Roster.LocalPlayer | frontend-game/src/screens/GameScreen.tsx:76-81 | no local player in a multiplayer match without a side; player 2 exactly in a multiplayer match on the blue side; player 1 in solo play |
| SongSelect.CanStart | frontend-game/src/screens/SongSelectScreen.tsx:204-217 | solo: a song and a character for player 1; otherwise also player 2 connected with a character, and both ready |
| SongSelect.CanStartLobbyImpliesSolo | frontend-game/src/screens/SongSelectScreen.tsx:204-217 | whatever starts a lobby match would start a solo one |
| SongSelect.SongIndexUp | frontend-game/src/screens/SongSelectScreen.tsx:225 | ArrowUp moves to the previous song, from the first to the last |
| SongSelect.SongIndexDown | frontend-game/src/screens/SongSelectScreen.tsx:237 | ArrowDown moves to the next song, from the last to the first |
| SongSelect.SongIndexUpDown | frontend-game/src/screens/SongSelectScreen.tsx:222-245 | up then down, or down then up, returns to the same song |
| SongSelect.SongSelectScreen.constructor | frontend-game/src/screens/SongSelectScreen.tsx:21-23 | an empty list, the cursor on 0, the focus on the songs |
| SongSelect.SongSelectScreen.SetSongs | frontend-game/src/screens/SongSelectScreen.tsx:149-168 | the fetched list (empty when the fetch fails) replaces the songs; with no song selected, a non-empty list puts the cursor on its first song, selects it and previews it; nothing else changes |
| SongSelect.SongSelectScreen.ApplyDefaults | frontend-game/src/screens/SongSelectScreen.tsx:184-194 | with songs and no song selected, the first song is selected and previewed; player 1 without a character gets the first one; afterwards a solo match with songs can start |
| SongSelect.SongSelectScreen.KeyDown | frontend-game/src/screens/SongSelectScreen.tsx:219-281 | arrows move the cursor with wrap-around, select and preview the song when the song list has focus and is not empty, and cycle player 1's character otherwise; Tab switches focus; Enter and Space toggle readiness in a lobby; only Enter in solo play starts the match, and only when it can start; Escape leaves for mode select |
| SongSelect.SongSelectScreen.HandleFileUpload | frontend-game/src/screens/SongSelectScreen.tsx:291-298 | one of the four audio types is kept; anything else alerts and keeps the previous file |
| Gameplay.NewCombo | frontend-game/src/screens/GameScreen.tsx:85 | the combo drops to 0 exactly on a Miss |
| Gameplay.TrailingHits | frontend-game/src/screens/GameScreen.tsx:85 | the hits after the last miss, and a miss right before them |
| Gameplay.ComboIsStreak | frontend-game/src/screens/GameScreen.tsx:83-85 | after a run of judgments the combo counts the hits since the last miss, or adds every judgment to the starting combo when there was no miss |
| Gameplay.RefsOf | frontend-game/src/screens/GameScreen.tsx:31-35 | after a render the refs hold the store's scores and combos |
| Gameplay.ApplyNoteResult | frontend-game/src/screens/GameScreen.tsx:75-130 | dropped without a local player; the local player's combo (the ref's combo stepped by the judgment) and accuracy are written, and the score only in solo play, where it is the ref's score plus the judgment's; the other player's fields are untouched; a push of the ref's score plus the judgment's score happens exactly for a non-Miss in a multiplayer match with a connection and a lobby code |
| Gameplay.SoloTouchesOnlyP1 | frontend-game/src/screens/GameScreen.tsx:123-130 | in solo play player 1's score, combo and accuracy are all set from the refs, and player 2's are untouched |
| Gameplay.ResultsBetweenRendersOverwrite | frontend-game/src/screens/GameScreen.tsx:82-85 | in solo play, of two judgments before a render only the second counts |
| Gameplay.ResultsAcrossRendersAdd | frontend-game/src/screens/GameScreen.tsx:49-58 | in solo play, with a render between them both judgments count |
| Gameplay.Progress | frontend-game/src/screens/GameScreen.tsx:244-246 | the bar never exceeds 100, is non-negative for a non-negative score, and is full from 10000 points |
| Gameplay.ProgressMonotone | frontend-game/src/screens/GameScreen.tsx:245-246 | a higher score never shows less progress |
| Gameplay.OutcomeOf | frontend-game/src/screens/GameScreen.tsx:272 | only `bear_escaped` and `man_caught` are outcomes |
| Gameplay.OrUndefined | frontend-game/src/screens/GameScreen.tsx:269 | `gameResult \|\| undefined` keeps a non-empty result and drops an empty one |
| Gameplay.PlayerWon | frontend-game/src/screens/GameScreen.tsx:283-290 | with `bear_escaped` the local player wins exactly as the bear, with `man_caught` exactly as the man |
| Gameplay.OneWinner | frontend-game/src/screens/GameScreen.tsx:283-290 | of a bear and a man, exactly one wins |
| Gameplay.MatchEnded | frontend-game/src/screens/GameScreen.tsx:272 | a match has ended exactly when the game is over with `bear_escaped` or `man_caught` |
| Gameplay.SidePlayer | frontend-game/src/screens/GameScreen.tsx:281 | the blue side is player 2, anything else player 1 |
| Gameplay.SidePlayerIsLocal | frontend-game/src/screens/GameScreen.tsx:76-81 | in a multiplayer match with a side, the end handler's player is the one the note handler scores for |
| Gameplay.SyncCalls | frontend-game/src/screens/GameScreen.tsx:174-187 | at most one call, made exactly in a multiplayer match with a lobby code and a connection, carrying the engine's stats |
| Gameplay.GetRank | frontend-game/src/screens/GameScreen.tsx:402-408 | S exactly from 95, A exactly from 85 below 95, B exactly from 75 below 85, C exactly from 65 below 75, D exactly below 65 |
| Gameplay.RankMonotone | frontend-game/src/screens/GameScreen.tsx:402-408 | better accuracy never gives a lower rank |
| Gameplay.AddPopup | frontend-game/src/screens/GameScreen.tsx:134-138 | the popup gets the next id and goes to the end of its player's list; the other list is untouched; ids stay ordered |
| Gameplay.RemovePopup | frontend-game/src/screens/GameScreen.tsx:142 | the filter removes the popups with that id and keeps every other one |
| Gameplay.RemovePopupOrdered | frontend-game/src/screens/GameScreen.tsx:142 | the filter keeps the ids in increasing order |
| Gameplay.ExpirePopup | frontend-game/src/screens/GameScreen.tsx:139-144 | only the player's list changes; the ids stay ordered |
| Gameplay.InputDispatch | frontend-game/src/screens/GameScreen.tsx:148-172 | input is dropped while paused or in a multiplayer match without a side; otherwise a hit goes to the engine for the local player, or a release |
| Gameplay.GameSession.constructor | frontend-game/src/screens/GameScreen.tsx:205-332 | mounting creates an engine of the right kind, starts it on the song and starts the interval |
| Gameplay.GameSession.HandleNoteResult | frontend-game/src/screens/GameScreen.tsx:75-146 | the store is updated and the score pushed as ApplyNoteResult says from the current refs, and a scoring judgment adds a popup for the local player |
| Gameplay.GameSession.CommitRefs | frontend-game/src/screens/GameScreen.tsx:49-58 | after a render the refs catch up with the store |
| Gameplay.GameSession.ExpirePopupTimer | frontend-game/src/screens/GameScreen.tsx:139-144 | the popup leaves its list |
| Gameplay.GameSession.HandleInput | frontend-game/src/screens/GameScreen.tsx:148-172 | the event reaches the current engine as InputDispatch says |
| Gameplay.GameSession.RerunEffect | frontend-game/src/screens/GameScreen.tsx:334-361 | a re-run of the main effect stops the engine, reopens the latch, creates and starts a new engine, and makes the interval see the current record |
| Gameplay.PauseRestartsSong | frontend-game/src/screens/GameScreen.tsx:331-361 | after a pause a new engine starts the song from its beginning, and no call pauses that engine |
| Gameplay.GameSession.TogglePause | frontend-game/src/screens/GameScreen.tsx:61-73 | the flag flips, the engine pauses or resumes, and the effect re-runs: the calls are PauseCalls |
| Gameplay.GameSession.PauseInPlace | frontend-game/src/screens/GameScreen.tsx:61-73 | the flag flips and the current engine pauses or resumes; no engine is stopped or created |
| Gameplay.GameSession.UpdateProgress | frontend-game/src/screens/GameScreen.tsx:224-265 | multiplayer bars come from the scores the interval sees; solo bars from the engine |
| Gameplay.GameSession.SyncStats | frontend-game/src/screens/GameScreen.tsx:174-187 | the engine's stats are pushed exactly in a multiplayer match with a lobby code and a connection |
| Gameplay.GameSession.CheckEnd | frontend-game/src/screens/GameScreen.tsx:272-318 | the handler fires exactly on a finished match with a known outcome while the latch is open, and closes it; multiplayer attributes the win from the side's character and schedules a restart; solo stops the engine, records the outcome and requests the results screen |
| Gameplay.GameSession.StatsTick | frontend-game/src/screens/GameScreen.tsx:219-320 | one tick sets the bars and the boost, pushes the stats as SyncCalls says, and runs the end check of CheckEnd on the synchronized end state (multiplayer) or the engine's (solo): the handler fires exactly when the latch is open and that state shows a known outcome, with CheckEnd's multiplayer and solo effects |
| Gameplay.GameSession.FireRestartTimer | frontend-game/src/screens/GameScreen.tsx:305-311 | the latch reopens, the win state clears, and the captured engine starts the song again |
| Gameplay.GameSession.Unmount | frontend-game/src/screens/GameScreen.tsx:334-341 | the engine stops, the interval is cleared and the latch reopens |
| Gameplay.GameSession.RestartSong | frontend-game/src/screens/GameScreen.tsx:375-400 | the engine stops; scores, combos and accuracies are reset; with a song a new engine starts it; the latch is left alone |
| Gameplay.GameSession.MirrorLobbyRecord | frontend-game/src/screens/GameScreen.tsx:343-361 | mirrored scores do not re-run the effect; a changed synchronized end state does |
| Gameplay.TwoTicksFireOnce | frontend-game/src/screens/GameScreen.tsx:272-276 | of two ticks with nothing in between, at most one runs the end handler, and none does once it has run |
| GeminiApi.ErrorMessage | frontend-game/src/hooks/useGeminiApi.ts:25 | an `Error`'s own message, even an empty one, or the fallback text |
| GeminiApi.GeminiApiHook.constructor | frontend-game/src/hooks/useGeminiApi.ts:11-15 | idle, without error or result |
| GeminiApi.GeminiApiHook.Begin | frontend-game/src/hooks/useGeminiApi.ts:18 | loading, without error or result |
| GeminiApi.GeminiApiHook.Settle | frontend-game/src/hooks/useGeminiApi.ts:20-28 | not loading, and exactly one of the result and the error message is set; the value is returned or the thrown value re-thrown |
| GeminiApi.GeminiApiHook.GenerateChart | frontend-game/src/hooks/useGeminiApi.ts:17-29 | the chart text becomes the result, or the failure's message (default `Failed to generate chart`) the error |
| GeminiApi.GeminiApiHook.MakeRequest | frontend-game/src/hooks/useGeminiApi.ts:31-43 | the response becomes the result, or the failure's message (default `Failed to make Gemini request`) the error |
| GeminiApi.GeminiApiHook.Reset | frontend-game/src/hooks/useGeminiApi.ts:45-47 | back to idle, without error or result |

## Left out

- The rhythm engine, the input handler and the lobby service are not part of this model. Judgments, engine stats, the connection and the lobby record are inputs. The calls the screen makes on them are recorded in logs.
- The Gemini prompt and the calls into the Gemini library are external. `useGeminiApi` keeps only its state transitions, with the call's outcome as input.
- Express routes, file uploads, file reads and writes, sockets and server start-up are I/O.
- IndexedDB audio storage, the title screen and the Gemini example component are I/O and UI.
- Audio context and gain setup, the canvas, the keyboard listener for Escape and timer scheduling are UI and timers. A timer firing is a method call.
- The cosmetic regex rewrites of the chart text (blank lines, section spacing, SyncTrack indentation, event name underscores) do not change content in a way worth stating. Only the list-level steps are modelled.
- The regex helpers that extract fields from an analysis are never called.
- `generateSampleNotes` uses `Math.random`.
- The BPM conversion and the song-length estimate use floating point (`parseFloat`, `Math.round`, `Math.floor`). ChartMetadata.ParseChartMetadata records which largest tick the length is estimated from, not the number of seconds.
- Splitting the chart text into sections, and sections into event lines and note entries, is done by regexes. The parsed lines are inputs.
- ChartText.InjectSustain works on parsed entries. The textual match `(\d+ = N \d+) 0` also requires single spaces, and would rewrite a sustain written with a leading zero, such as `05`. Those textual details are not modelled.
- ChartText.FormatSongContent maps the text after the `[Song]` header. The header and the white space before the body are not modelled.
- JsText.DigitsValue: `parseInt` is unbounded here. JavaScript numbers lose precision above 2^53.
- SongLibrary.AsciiUpper: `toUpperCase` is modelled on ASCII letters only.
- ChartText.DedupEvents keeps ticks as the digit strings the map uses as keys. `01` and `1` are two keys with equal `parseInt`. Strict ascent is proved for ticks without leading zeros (ChartText.DedupStrictlyAscending).
- JsSort.Sort: engines may implement the sort differently when the comparator is not consistent. The model is one stable sort, and the lemmas about it hold for every stable sort with a consistent comparator.
- Gameplay.GameSession: `gameEngineRef` is set whenever the screen is mounted, so the `!engine` guards are not modelled. A throwing `setScore` or `updateGameState` is only logged by the source, so the call is recorded as made.
- Gameplay.Progress is stated on exact reals, not on JavaScript doubles.
- Gameplay.GameSession.MirrorLobbyRecord: the effect also re-runs on changes of the lobby, the characters, the song, the volume, and the store's `gameplay.bearProgress` and `gameplay.manProgress` (GameScreen.tsx:357-358). These values are fixed for one session here, so those re-runs are not modelled.

## Findings

| source | as written | input that shows it | evidently intended | confidence | as-written member | corrected member |
|---|---|---|---|---|---|---|
| backend/server.js:930 | the difficulty counts matches of `\|\s*N\s+\d+`, but the note lines of an ExpertSingle section read `tick = N fret length` and contain no `\|` | an ExpertSingle section holding the line `0 = N 0 0` is rated 3 (so is every section without a `\|`) | count the note markers `=\s*N\s+\d+`; one note gives difficulty 1 | not executed | ChartMetadata.DifficultyAsWritten (ChartMetadata.DifficultyAsWrittenIgnoresNotes, ChartMetadata.DifficultyCounterexample) | ChartMetadata.Difficulty (ChartMetadata.EstimateDifficulty, ChartMetadata.DifficultyMonotone, used by ChartMetadata.ParseChartMetadata) |
| backend/server.js:947-955 | the "tick" read from each match of `N\s+(\d+)\s+\d+` is the number after `N`, which is the fret | a chart with the single note `768 = N 1 0` gives a largest tick of 1 | the largest tick, the number before `= N`: 768 | not executed | ChartMetadata.MaxTickAsWritten (ChartMetadata.MaxTickCounterexample) | ChartMetadata.MaxTick (ChartMetadata.MaxTickPositive, used by ChartMetadata.ParseChartMetadata) |
| backend/server.js:670-672 | the comparator reads the tick with `^(\d+)` from the untrimmed line and returns 0 when either line does not start with a digit; the section lines of the chart format are indented | the note lines ` 192 = N 0 0` and ` 0 = N 1 0` are left in that order | sort the note lines by their tick: ` 0 = N 1 0` first | not executed | ChartText.NoteCmpAsWritten (ChartText.AsWrittenKeepsIndentedLines, ChartText.NoteSortCounterexample) | ChartText.NoteCmp (ChartText.NoteCmpConsistent, ChartText.SortNoteSection) |
| frontend-game/src/screens/GameScreen.tsx:61-73 | pausing flips `isPaused`; that changes `handleInput` and so re-runs the main effect, which stops the paused engine and starts a new, unpaused engine on the song from its beginning | press Escape during a song | the current engine pauses, and later resumes where it stopped | not executed | Gameplay.GameSession.TogglePause (Gameplay.PauseRestartsSong) | Gameplay.GameSession.PauseInPlace |
