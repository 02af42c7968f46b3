# Awesome-sound core in Dafny

This project models the non-graphical core of the Awesome-sound desktop
music player and proves properties of that model. The core is:

- the playlist cursor `Disk` and its older singleton twin `Song`, which step
  forward and back with wrap-around, jump to a picked index, and derive a
  display name from a file name;
- the playback state `MusicPlayer`: a play flag and a volume range-checked to
  0..100;
- the configuration store `Handler`, a JSON file of key/value pairs. It has
  strict `add` against `edit`, merges, equality, and a reconciliation of the
  stored keys against a default mapping;
- the window's glue actions: resuming the disk from the configuration, lyric
  delays, mute and volume, and the file-dialog filter;
- the lyric lookup `Renderer.get_line`, which scans the parsed subtitle lines
  for the one that covers a playback time;
- the lyrics-site and YouTube search-URL builders;
- the play-button and extension helpers;
- the interface message tables, with their load-time size check and report of
  differences.

Modules follow the source files. `Python` holds the runtime notions the code
relies on:
- optional values;
- exceptions as `Result`/`Outcome` values;
- JSON values and their truth value;
- sequence indexing with negative indices;
- dict subscripts.

`Text` holds the string built-ins on ASCII text: `[::-1]`, `index`, `strip`,
`split`, `join` and `title`.

`Cursor` holds the cursor arithmetic that `Disk` and `Song` share.

State that the source changes in place becomes a class:
- `Disk`, `Song` and the `Song` registry;
- `MusicPlayer`, and the muting player the glue actions use;
- `Handler`, whose file is `stored: Option<map<string, Json>>`, None while
  the file does not exist;
- the two search builders.

Pure code becomes functions and lemmas. Loops in the source are methods with
loop invariants:
- `_remove_entry` and `_add_entry`;
- the character loop of `song_name`;
- `make_file_types`;
- the two loops of `find_diff`;
- iterating a `Disk`.

### Behaviour as coded

The model keeps these behaviours of the code as they are written:

- `next()` resets the cursor to 0 whenever the stepped cursor is at or past
  the end, because the test is `index + 1 > len`. A cursor left past the end
  by `user_pick` is therefore repaired by the next `next()`. It is not only
  the cursor that is exactly one past the end (`Cursor.NextRepairs`).
- `_checkout` decides on the number of entries alone.
  - A store with more entries than the defaults loses every non-default key,
    including the per-song `<song>.delay` keys. It gains none of its missing
    defaults, so a second reconciliation changes it again
    (`JsonWrapper.ReconcileIsCountBased`).
  - The same number of entries under different keys is left alone.
  - Only when one key set contains the other does the result have exactly
    the keys of the defaults (`JsonWrapper.ReconcileMatchesSchema`).
- `handler | other` lets `other` win on shared keys. The test of `|`
  expects the opposite order, which agrees only because its key sets are
  disjoint.
- `get_line` takes no delay in the shown code, although its tests pass one.
- The assertions in `player/comps/tests.py` target a newer interface
  (`disk`, `mute`, `change_disk`, `playing`). The shown `Disk` and
  `MusicPlayer` are modelled instead.

## Model

| member | source | states |
|---|---|---|
| Text.IndexOf | player/comps/disk.py:26 | `tuple.index`: None iff the value is absent; otherwise a position holding it with no earlier occurrence |
| Text.StripExtension | player/actions/actions.py:27-28 | the reversed-slice idiom yields the string up to its last `.`: a prefix followed by `.` with no `.` after it; ValueError iff there is no `.` |
| Text.Reverse | player/actions/actions.py:27 | `s[::-1]` has the same length and holds at position `i` the character at `len - 1 - i` |
| Text.Strip | player/lyricshandler/search.py:64 | `strip()` returns a slice of the string outside which everything is whitespace, and which has no whitespace at either end: exactly the leading and trailing whitespace is removed |
| Text.StripIdempotent | player/lyricshandler/search.py:64 | stripping twice is stripping once |
| Text.Split | player/lyricshandler/search.py:68 | `split(c)` gives at least one piece and no piece contains `c` |
| Text.Join | player/lyricshandler/search.py:68 | `sep.join(parts)` starts with the first piece, is `""` for no pieces, and is as long as the pieces plus one separator between each two neighbours |
| Text.JoinSplit | player/lyricshandler/search.py:68 | joining the pieces of a split with the separator gives back the string |
| Text.JoinSplitReplace | player/lyricshandler/search.py:68 | `sep.join(s.split(c))` equals the character-by-character replacement of every `c` by `sep` |
| Text.ReplacedHasNo | player/lyricshandler/search.py:102 | after replacing `c` by a separator without `c`, no `c` is left |
| Text.Title | player/window/uiactions.py:64 | `title()` upper-cases each letter that starts a run of letters, lower-cases the others, and keeps the length |
| Text.TitleIdempotent | player/window/uiactions.py:64 | title-casing twice is title-casing once |
| Cursor.NextWraps | player/comps/disk.py:115-133 | from a valid cursor `c`, `next()` moves to `(c + 1) mod n`, from the last song to 0 |
| Cursor.PrevWraps | player/comps/disk.py:120-141 | from a valid cursor `c`, `prev()` moves to `(c - 1 + n) mod n`, from 0 to the last song |
| Cursor.NextRepairs | player/comps/disk.py:115-118 | from any cursor of -1 or more on a non-empty list, `next()` leaves a valid cursor; from the last song or beyond, it leaves 0 |
| Cursor.NextPrevRoundTrip | player/comps/disk.py:115-141 | `prev` after `next`, and `next` after `prev`, return to the starting cursor |
| Cursor.FullCycle | player/comps/disk.py:127-133 | `n` calls to `next()` on `n` songs return to the starting cursor |
| Disk.StartIndex | player/comps/disk.py:22-26 | a falsy `last_song` starts at 0; a value in the list starts at its first position; anything else raises ValueError |
| Disk.Disk.Create | player/comps/disk.py:18-26 | construction fails iff `StartIndex` does; otherwise the cursor is `StartIndex` and is valid on a non-empty list |
| Disk.Disk.GetItem | player/comps/disk.py:34-35 | `disk[i]` succeeds iff `-len <= i < len`, reading from the end for negative `i`; IndexError otherwise |
| Disk.Disk.Contains | player/comps/disk.py:37-38 | `song in disk` iff some valid subscript yields the song |
| Disk.Disk.Len | player/comps/disk.py:40-41 | the valid subscripts are exactly `-len .. len - 1` |
| Disk.Disk.SongMp3 | player/comps/disk.py:63-70 | the song under the cursor, read from the end for a negative cursor; IndexError outside `-len .. len - 1`, so on an empty disk always |
| Disk.Disk.SongName | player/comps/disk.py:89-103 | the current file name is the result, a `.`, and an extension without `.`; fails iff the lookup fails, with the lookup's error, or there is no `.`, with ValueError |
| Disk.Disk.MoveSongIndex | player/comps/disk.py:105-125 | the stepped cursor is corrected by `Cursor.Adjust` and returned |
| Disk.Disk.Next | player/comps/disk.py:127-133 | the cursor becomes `Cursor.Next` of the old one and the song there is returned; it stays valid, and becomes valid from -1 or more |
| Disk.Disk.Prev | player/comps/disk.py:135-141 | the cursor becomes `Cursor.Prev` of the old one; a valid cursor stays valid and its song is returned |
| Disk.Disk.UserPick | player/comps/disk.py:143-155 | a negative index raises IndexError with the cursor unchanged; other indices are stored, then looked up (IndexError past the end) |
| Disk.Disk.Iter | player/comps/disk.py:43-45 | restarts the iteration counter and returns the disk itself |
| Disk.Disk.IterNext | player/comps/disk.py:47-53 | yields the song at the counter and advances it; None (StopIteration) at the end, counter unchanged |
| Disk.Disk.Songs | player/comps/disk.py:43-53 | iterating a disk yields exactly its songs, in order |
| Song.Song.constructor | player/comps/song.py:17-22 | a new song list starts at index 0, which is valid on a non-empty list |
| Song.Song.CurrentSong | player/comps/song.py:43-45 | the song under the cursor, read from the end for a negative cursor; IndexError outside `-len .. len - 1`, so on an empty list always |
| Song.Song.ResetSongIndex | player/comps/song.py:55-75 | the stepped cursor is corrected by `Cursor.Adjust` and returned |
| Song.Song.Next | player/comps/song.py:77-83 | the cursor becomes `Cursor.Next` of the old one; from the last song it returns the first |
| Song.Song.Prev | player/comps/song.py:85-91 | the cursor becomes `Cursor.Prev` of the old one; from 0 it moves to and returns the last song |
| Song.Song.UserPick | player/comps/song.py:93-97 | negative raises IndexError with the cursor unchanged; otherwise the cursor is set and the element returned |
| Song.Song.WithoutExtension | player/comps/song.py:99-102 | the current song is the result, a `.`, and an extension without `.`; a failed lookup passes its error through, and a song without `.` gives ValueError |
| Song.SongRegistry.Call | player/comps/song.py:9-13 | the first construction creates and records the song list; later ones return the recorded object and ignore their argument |
| Song.SongRegistry.ConstructTwice | player/comps/song.py:9-13 | two constructions give the same object, holding the first list at index 0 |
| MusicPlayer.Liveness | player/comps/musicplayer.py:15 | the word is "Alive" exactly when playing |
| MusicPlayer.MusicPlayer.constructor | player/comps/musicplayer.py:8-12 | a new player is playing, at volume 100 and timestamp 0 |
| MusicPlayer.MusicPlayer.Bool | player/comps/musicplayer.py:20-21 | the truth value is the play flag |
| MusicPlayer.MusicPlayer.SetVolume | player/comps/musicplayer.py:35-45 | in 0..100 the volume is set and returned; outside it PlayerError and no change |
| MusicPlayer.MusicPlayer.SetTimestamp | player/comps/musicplayer.py:47-49 | returns its argument and changes no state |
| MusicPlayer.MusicPlayer.Play | player/comps/musicplayer.py:51-57 | negates the play flag and returns the new value; the volume stays in 0..100 |
| MusicPlayer.MusicPlayer.PlayTwice | player/comps/musicplayer.py:51-57 | two calls return opposite values and restore the play flag |
| MusicPlayer.MusicPlayer.Str | player/comps/musicplayer.py:14-15 | `<MusicPlayer(Playing - {current song} - Alive/Not alive)>`; fails iff the current-song lookup fails |
| Actions.PlayBtnSwitcher | player/actions/actions.py:18-23 | the play image iff the player was playing before the call; the play state toggles once |
| Actions.SwitchTwice | player/actions/actions.py:18-21 | two presses show different images and restore the play state |
| Actions.ClearSongExtension | player/actions/actions.py:26-28 | the song is the result, a `.`, and an extension without `.`; ValueError iff there is no `.` |
| Actions.ExtensionIsLast | player/actions/actions.py:26-28 | for every name and every extension without `.`, the result for `name.ext` is `name` |
| Actions.ClearSongExtensionExample | player/tests/test_actions.py:38-39 | `'Austronaut.in. the ocean.FLAC'` gives `'Austronaut.in. the ocean'` |
| JsonWrapper.ReconcileRemovesExtras | player/jsonwrapper/handler.py:88-101 | with more entries than the defaults, exactly the default keys among the stored ones remain, with their stored values |
| JsonWrapper.ReconcileAddsMissing | player/jsonwrapper/handler.py:94-103 | with fewer entries, every missing default is added with its default value and stored values are kept |
| JsonWrapper.ReconcileEqualCountKeepsAll | player/jsonwrapper/handler.py:99-103 | with as many entries as the defaults, the store is unchanged |
| JsonWrapper.ReconcileMatchesSchema | player/jsonwrapper/handler.py:99-103 | when one key set contains the other, reconciliation yields exactly the default keys |
| JsonWrapper.ReconcileIsCountBased | player/jsonwrapper/handler.py:99-103 | a store with extra keys and a missing default loses the extras without gaining the default, and is not a fixed point |
| JsonWrapper.Handler.constructor | player/jsonwrapper/handler.py:24-26 | records the path, the defaults and the file's current state |
| JsonWrapper.Handler.Write | player/jsonwrapper/handler.py:77-79 | the file then holds exactly the given mapping |
| JsonWrapper.Handler.Read | player/jsonwrapper/handler.py:81-86 | the whole stored mapping, or FileNotFoundError exactly when there is no file |
| JsonWrapper.Handler.Get | player/jsonwrapper/handler.py:119-121 | the stored value, or the default for a missing key; FileNotFoundError only without a file |
| JsonWrapper.Handler.GetItem | player/jsonwrapper/handler.py:61-62 | the stored value; KeyError for a missing key |
| JsonWrapper.Handler.Contains | player/jsonwrapper/handler.py:67-68 | whether the key is stored |
| JsonWrapper.Handler.Len | player/jsonwrapper/handler.py:55-56 | the number of stored entries |
| JsonWrapper.Handler.Bool | player/jsonwrapper/handler.py:58-59 | false exactly for an empty mapping |
| JsonWrapper.Handler.Edit | player/jsonwrapper/handler.py:128-134 | HandlerError and no change for a missing key; otherwise only that key's value is replaced |
| JsonWrapper.Handler.Add | player/jsonwrapper/handler.py:136-142 | HandlerError and no change for a present key; otherwise the key is inserted and the rest kept |
| JsonWrapper.Handler.SetItem | player/jsonwrapper/handler.py:64-65 | assignment behaves as `add`: assigning a present key raises HandlerError |
| JsonWrapper.Handler.RemoveKey | player/jsonwrapper/handler.py:123-126 | KeyError and no change for a missing key; otherwise exactly that entry is deleted |
| JsonWrapper.Handler.Clear | player/jsonwrapper/handler.py:163-164 | the file holds the empty mapping |
| JsonWrapper.Handler.Purge | player/jsonwrapper/handler.py:160-161 | the file is removed; FileNotFoundError when there is none |
| JsonWrapper.Handler.RemoveEntry | player/jsonwrapper/handler.py:88-92 | after the loop, exactly the stored entries with a default key remain |
| JsonWrapper.Handler.AddEntry | player/jsonwrapper/handler.py:94-97 | after the loop the store is the defaults overridden by the stored values; without a file it raises unless there are no defaults |
| JsonWrapper.Handler.Checkout | player/jsonwrapper/handler.py:99-103 | the store becomes `Reconciled(old store, defaults)` |
| JsonWrapper.Handler.Sync | player/jsonwrapper/handler.py:110-111 | the same reconciliation on demand |
| JsonWrapper.Handler.Init | player/jsonwrapper/handler.py:105-108 | without a file the store becomes exactly the defaults; otherwise it is reconciled |
| JsonWrapper.Handler.RestoreDefault | player/jsonwrapper/handler.py:144-146 | with a file, the contents afterwards equal the defaults; without one, FileNotFoundError and no change |
| JsonWrapper.Handler.Update | player/jsonwrapper/handler.py:148-158 | a dict or handler is merged in, its side winning, and written; anything else raises HandlerError with no change |
| JsonWrapper.Handler.Or | player/jsonwrapper/handler.py:35-47 | the same merge is written and returned, the result equal to the new contents; anything else raises TypeError |
| JsonWrapper.Handler.Eq | player/jsonwrapper/handler.py:28-33 | equal to a dict or handler iff the mappings have the same keys and Python-equal values (`DictEq`); never equal to anything else; only a missing file raises, with FileNotFoundError |
| JsonWrapper.EqualStoresCompareEqual | player/jsonwrapper/handler.py:28-33 | a mapping equals itself; a stored `0` equals `False`, while `2` does not equal `True` |
| Python.PyEqReflexive | player/jsonwrapper/handler.py:30 | Python's `==` on JSON values is reflexive, nested lists and dicts included |
| Python.PyEqSymmetric | player/jsonwrapper/handler.py:30-32 | Python's `==` on JSON values is symmetric, so `handler == d` agrees with `d == handler.read()` |
| UiActions.MutingPlayer.SetVolume | player/comps/musicplayer.py:42-45 | the range-checked volume setter of the player the actions drive |
| UiActions.GetDisk | player/window/uiactions.py:18-22 | the disk starts at `StartIndex(songs, last_song['song'])` when `last_song` is truthy and at 0 otherwise; the subscript's errors propagate |
| UiActions.SetLyricsDelay | player/window/uiactions.py:35-43 | a parsable delay is stored under the key, present or absent; an unparsable one changes nothing and raises nothing |
| UiActions.MuteSetup | player/window/uiactions.py:46-52 | the mute flag flips and the new flag is written to `is_muted` |
| UiActions.EditVolume | player/window/uiactions.py:71-74 | `volume` is always written first; the player's volume changes only when unmuted and in range; out of range, PlayerError after the write |
| UiActions.FileTypesFilterAppend | player/window/uiactions.py:61-68 | the filter of two lists one after the other is their filters one after the other |
| UiActions.MakeFileTypes | player/window/uiactions.py:61-68 | the loop's result is one `"<Title> files (*.<ext>);;"` per type, in order; `""` for no types |
| UiActions.FileTypesExample | player/window/tests.py:104-107 | `("srt", "py")` gives `"Srt files (*.srt);;Py files (*.py);;"` |
| Renderer.FirstMatch | player/lyricshandler/renderer.py:28-31 | None iff no line covers the time; otherwise a covering line with no covering line before it |
| Renderer.Renderer.GetLine | player/lyricshandler/renderer.py:26-31 | the content of the first line with `start <= t < end`; None iff there is none |
| Renderer.OrderedShowsCoveringLine | player/lyricshandler/renderer.py:28-30 | in time-ordered, non-overlapping lyrics, any line covering `t` is the one shown |
| Renderer.StartInclusiveEndExclusive | player/lyricshandler/renderer.py:29 | a line's start shows it; its end shows nothing unless another line starts there |
| Renderer.SampleLookups | player/lyricshandler/tests.py:45-70 | on the test lyrics, the start, inside, end and gap times give the expected line or None |
| Search.TakeUntil | player/lyricshandler/search.py:60-63 | a prefix of the title with no `(`, followed by `(` or the end |
| Search.NamePrefix | player/lyricshandler/search.py:59-63 | the character loop produces exactly `TakeUntil(title, '(')` |
| Search.SearchNameIdempotent | player/lyricshandler/search.py:58-64 | the derived name has no `(` and deriving it again changes nothing |
| Search.QueriesEncodeSpaces | player/lyricshandler/search.py:67-69 | a query has no space and is the name with each space replaced by `%20` (stripped) or `+` |
| Search.SpacelessNameIsItsQuery | player/lyricshandler/search.py:101-103 | a name without spaces is appended unchanged |
| Search.LyricsSearch.constructor | player/lyricshandler/search.py:42-46 | the URL starts as the lyrics site base; the name is empty |
| Search.LyricsSearch.Str | player/lyricshandler/search.py:48-49 | `str()` of a lyrics search is its title, whatever the derived name |
| Search.LyricsSearch.SongName | player/lyricshandler/search.py:58-65 | the name becomes `SearchName(title)`; `str()` stays the title; the URL is untouched; returns itself |
| Search.LyricsSearch.Query | player/lyricshandler/search.py:67-69 | the URL gets the `%20`-encoded name appended, once per call |
| Search.YoutubeSearch.constructor | player/lyricshandler/search.py:76-80 | the URL starts as the YouTube base; the name is empty |
| Search.YoutubeSearch.Str | player/lyricshandler/search.py:82-83 | `str()` of a YouTube search is the derived name, empty before `song_name()` |
| Search.YoutubeSearch.SongName | player/lyricshandler/search.py:92-99 | the name becomes `SearchName(title)`, which is also `str()`; returns itself |
| Search.YoutubeSearch.Query | player/lyricshandler/search.py:101-103 | the URL gets the `+`-encoded name appended, once per call |
| Search.SearchFor | player/lyricshandler/search.py:109-113 | `'youtube'` and `'lyrics'` give a fresh builder of that site for the title; any other site raises KeyError |
| Search.YoutubeChain | player/lyricshandler/search.py:92-103 | name then query gives base plus encoded name; a second query appends it again |
| Search.LyricsChain | player/lyricshandler/search.py:58-69 | name then query gives base plus encoded name |
| Search.QueryBeforeName | player/lyricshandler/search.py:45-68 | a query before `song_name()` appends nothing |
| Languages.Language | player/window/languages.py:15-127 | the table lists English then Greek, each code once |
| Languages.GetAvailableLanguages | player/window/languages.py:130-131 | the codes returned are exactly the table's languages |
| Languages.AvailableLanguagesAreEnglishAndGreek | player/window/languages.py:130-131 | the codes are `('en', 'gr')` in that order |
| Languages.GetMessage | player/window/languages.py:214-215 | KeyError iff the language or field is unknown; otherwise the message is the entry, one space, and the arguments joined by single spaces |
| Languages.GetMessageWithoutArgs | player/window/languages.py:214-215 | without arguments the message is the entry and exactly one trailing space |
| Languages.GetMessageArgsRecoverable | player/window/languages.py:214-215 | arguments without spaces are recovered by splitting the text after the entry |
| Languages.SplitJoin | player/window/languages.py:215 | splitting a space-joined list of space-free pieces gives the pieces back |
| Languages.LoadCheck | player/window/languages.py:153-155 | LanguageError exactly when two languages differ in entry count |
| Languages.Counts | player/window/languages.py:153 | every language's number of entries is among the counts the check compares |
| Languages.CountsAreSizes | player/window/languages.py:153 | and every count is the number of entries of some language |
| Languages.CountOnlyCheck | player/window/languages.py:153-155 | equal-size tables with different keys pass the check though their key sets differ |
| Languages.PairsMembers | player/window/languages.py:140 | `combinations(order, 2)` holds exactly the code pairs at positions `i < j` |
| Languages.Pairs | player/window/languages.py:140 | `combinations(order, 2)` has `n * (n - 1) / 2` pairs for `n` languages |
| Languages.SymDiff | player/window/languages.py:142 | the symmetric difference is empty iff the key sets are equal |
| Languages.DiffsEmpty | player/window/languages.py:141-145 | no diff entry is collected iff every pair has equal key sets |
| Languages.CollectDiffs | player/window/languages.py:141-145 | the first loop collects one entry per differing pair, in pair order |
| Languages.WriteDiffs | player/window/languages.py:147-150 | the second loop writes one block per entry; the text is empty iff there are no entries |
| Languages.FindDiff | player/window/languages.py:134-150 | the report is one block per differing pair, and is `""` iff all languages have the same keys |

## Left out

- File and process I/O: the JSON file is an optional mapping. Encoding, `os.path.exists`, `os.remove` and `open` are not modelled, and write failures are not modelled.
- The `setattr` of every key in `Handler._read`: dynamic attributes have no counterpart in Dafny.
- Dictionary iteration order: `_remove_entry` and `_add_entry` visit keys in an unspecified order. Their results do not depend on it.
- `Handler.__delitem__`, `keys`, `values`, `items`, `__str__` and `__repr__` are not modelled. `items()` is the mapping read by `RemoveEntry`.
- `__str__` and `__repr__` of `Disk` and `Song`, `Disk.full_song_list`, `Disk.song_path` and `Song.current_song_as_file` are not modelled: they are formatting and `os.path.join` over an external base directory.
- Calling `Disk.__next__` before any `__iter__` raises AttributeError in Python. The model's counter always exists, starting at 0.
- `srt.parse` and `Renderer._set_lyrics` are a foreign parser and file reading, so the parsed lines are an input. Times are integer milliseconds rather than `timedelta`.
- Renderer.GetLine: has no delay parameter, like the shown signature. The delay-shifted lookup the tests call is not modelled.
- `get_lyrics_file` and `manual_save_lyrics` are file writes; `creator.py` is not part of this model.
- `search()` opens a web browser and is not modelled.
- The Qt `setIcon` call in `play_btn_switcher`, and every widget, dialog, timer and media call of the window, are not modelled.
- UiActions.SetLyricsDelay: `float(delay)` is a parameter `parse: string -> Option<int>`. The stored number is an integer, not a float.
- Volumes and numbers in the configuration are integers. No floating point is modelled. JSON arrays are modelled as `Arr`, although the configuration never holds one.
- UiActions.MutingPlayer: the shown `MusicPlayer` has no mute API. The actions' player is this small class, whose `mute`/`unmute` set only the flag.
- Python.PyEq: JSON floats are not modelled, so `1.0 == 1` and `True == 1.0` do not arise.
- Text.Strip and Text.Title: ASCII only. `strip()` removes the ASCII characters `str.isspace()` accepts (`string.whitespace` and U+001C to U+001F), but not Unicode spaces such as U+00A0. `title()` knows only ASCII letters.
- Exception messages are not modelled, only the exception class. The LanguageError text built from `find_diff()` is therefore not modelled.
- Languages.DiffsText: Python's formatting of a diff entry (a dict holding a set, whose order is unspecified) is a parameter `show`.
- The message texts of the English and Greek tables are parameters, not the literal strings.
- Languages.GetMessage: the arguments arrive already converted by `str`. Callers that pass numbers, such as the frame rates, are modelled with their string forms, and the `map(str, args)` step is not.
- `SONGSLIST` is imported from the `actions` package, and its definition is not part of this model. It is a parameter of `UiActions.GetDisk`.
