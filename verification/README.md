# Music player core of blog-v3, in Dafny

This project models the music-player widget of the blog. It has two parts.

- **`musicTool.js`** holds the pure helpers: choosing the next track for a play order
  (RANDOM, LISTLOOP, SINGLECYCLE), rendering a `mm:ss` clock, and the loop that turns an
  LRC lyric text into a list of lines and a list of time stamps.
- **`useMusic.js`** holds the controller: one reactive state record that the setters update
  in place, driving a single audio element.

Files:

- `wrappers.dfy`: the `Option` type, standing for JavaScript's `undefined`.
- `js_text.dfy`: the JavaScript primitives the code relies on, with a one-character pattern:
  - `split`, and `replace` (which removes the first occurrence only);
  - `IndexOf`, a helper that specifies the first-occurrence search both of them perform;
  - `String(n)`;
  - `Number(s)` for the numeric forms a time tag uses.
- `music_tool.dfy`: `getNextMusic` with `returnRandomNoRepeat`, `addZero`, `calcMusicTime`,
  and the parsing loop of `getLyric`, written as a method with a loop.
- `use_music.dfy`: the state record `PlayerState` and the class `MusicPlayer`.
  - The class's fields are the state and a snapshot of the audio element (time, paused flag,
    duration, ended flag).
  - Each setter is a method that reassigns those fields; its `ensures` gives the whole new state.

## Conventions

- Times in the player are whole milliseconds, i.e. the audio element's `currentTime` in seconds
  times 1000.
- A lyric time stamp is `Ms(n)`, or `NaN` when the source's arithmetic meets a non-numeric field.
- `Math.random()` is a parameter `draw`, standing for `Math.floor(Math.random() * len)`.
- The progress value `calcMusicSchedule(...)` is a parameter `schedule` of the time-update handler.
- The converted time `calcMusicCurrentTime(...)` is a parameter `time` of `SetCurrentTime`.

## Behaviours of the code as written

The model keeps these behaviours exactly as the code has them. They are stated as lemmas
rather than corrected.

- **A random collision yields `undefined`.** When the draw in `returnRandomNoRepeat` hits the
  current index, the recursive retry is called without `len` and its result is discarded, so the
  function returns `undefined`. `getNextMusic`'s own retry runs only when the first call returned
  `index`, which happens only for a one-track list. `setNext` then reads `list[undefined].id`,
  which throws, so no track is loaded (`NoTrack`). See `MusicTool.RandomNeverRepeats` and
  `UseMusic.NextTrackMissing`.
- **The `|| 0` in the lyric lookup never clamps.** The lookup is `index - 1 || 0`, and 0 is the
  only falsy number it can meet. The result is therefore `findIndex - 1`:
  - -1 when the first stamp is already at or after the current time;
  - -2 when no stamp is;
  - never the last line.

  See `UseMusic.LyricIndexSteppedBack` and `UseMusic.LyricIndexMeaning`.
- **A line is kept only when the text after its first `]` is non-empty.** The kept text stops at
  the next `]`, if there is one. See `MusicTool.ParseLineKeeps`.

## Model

| member | source | states |
|---|---|---|
| `MusicTool.ReturnRandomNoRepeat` | blog-v3/src/components/Music/musicTool.js:121-132 | a one-track list gives back the index; otherwise a result comes back exactly when the draw differs from the index, and it is the draw |
| `MusicTool.GetNextMusic` | blog-v3/src/components/Music/musicTool.js:139-176 | no result only under random order over two or more tracks when the draw hits the index; outside random order an index inside the list gives one inside the list; with a draw inside the list every result is inside it |
| `MusicTool.AddZero` | blog-v3/src/components/Music/musicTool.js:183-188 | the text has at least two characters and starts with '0' exactly for 0 to 9 |
| `MusicTool.CalcMusicTime` | blog-v3/src/components/Music/musicTool.js:196-208 | the display is the padded minutes, ':' and the padded seconds, at least five characters, the zero branch included |
| `MusicTool.SingleCycleRepeats` | blog-v3/src/components/Music/musicTool.js:169-171 | repeat-one returns the current index |
| `MusicTool.ListLoopForward` | blog-v3/src/components/Music/musicTool.js:151-158 | list loop forward goes from the last index and from -1 to 0, and otherwise adds one; inside the list the result is the successor modulo the length |
| `MusicTool.ListLoopBackward` | blog-v3/src/components/Music/musicTool.js:159-167 | list loop backward goes from 0 to the last index and from -1 to 0, and otherwise subtracts one; inside the list the result is the predecessor modulo the length |
| `MusicTool.UnrecognisedOrderGivesZero` | blog-v3/src/components/Music/musicTool.js:139-176 | a play order outside the three known ones leaves `newIndex` at its initial 0 |
| `MusicTool.RandomSingleTrack` | blog-v3/src/components/Music/musicTool.js:121-124 | random order on a one-track list keeps the current index |
| `MusicTool.RandomNeverRepeats` | blog-v3/src/components/Music/musicTool.js:121-148 | random order on two or more tracks: an index comes back exactly when the draw differs from the current index; it is then the draw, a valid index other than the current one; a collision gives `undefined` |
| `MusicTool.AddZeroPads` | blog-v3/src/components/Music/musicTool.js:183-188 | 0 to 9 become two characters; a non-negative number becomes digits that read back as the number; a negative one becomes '-' and its magnitude's digits |
| `MusicTool.CalcMusicTimeRoundTrip` | blog-v3/src/components/Music/musicTool.js:196-208 | the display ends in ':' and two seconds digits 00-59; reading the display back gives the seconds rendered |
| `MusicTool.CalcMusicTimeExamples` | blog-v3/src/components/Music/musicTool.js:196-208 | 65 s renders "01:05" and 0 renders "00:00" |
| `MusicTool.LineStamp` | blog-v3/src/components/Music/musicTool.js:261-264 | a stamp that is a number is never negative |
| `MusicTool.ParseLine` | blog-v3/src/components/Music/musicTool.js:260-262 | a kept line has a non-empty text and a stamp that is NaN or not negative |
| `MusicTool.LyricLists` | blog-v3/src/components/Music/musicTool.js:259-267 | the two collected lists have the same length, at most the number of lines |
| `MusicTool.LineStampFields` | blog-v3/src/components/Music/musicTool.js:261-264 | the stamp of `[mm:sec` is mm·60000 plus the seconds field read as a number times 1000, or NaN when that field is not a number |
| `MusicTool.StampOfTimeTag` | blog-v3/src/components/Music/musicTool.js:261-264 | the stamp of `[mm:ss.xx` is minutes·60000 plus `ss.xx` in thousandths, the fraction of a second included |
| `MusicTool.LineStampNeedsColon` | blog-v3/src/components/Music/musicTool.js:261-264 | a head without ':' has no seconds field and gives NaN |
| `MusicTool.ParseLineKeeps` | blog-v3/src/components/Music/musicTool.js:260-265 | a line is kept iff its first `]` is not at the start and is followed by a character other than `]`; the kept text is the non-empty run after the first `]` and the stamp comes from what precedes it |
| `MusicTool.KeptIndices` | blog-v3/src/components/Music/musicTool.js:259-266 | the kept line positions are increasing and are exactly the lines the loop keeps |
| `MusicTool.LyricListsOfKept` | blog-v3/src/components/Music/musicTool.js:259-266 | entry k of the two collected lists is the text and the stamp of the k-th kept line, and there is one entry per kept line |
| `MusicTool.GetLyric` | blog-v3/src/components/Music/musicTool.js:256-267 | the loop builds exactly the collected lists of the split lines: one entry per kept line, in line order, entry k being the text and the stamp of the k-th kept line |
| `MusicTool.KeptTextsNonEmpty` | blog-v3/src/components/Music/musicTool.js:262 | every kept text is non-empty; a line without `]` is never kept |
| `MusicTool.LyricExample` | blog-v3/src/components/Music/musicTool.js:256-267 | "[00:01.00]Hello" and "[00:02.50]World" are both kept, at 1000 ms and 2500 ms |
| `MusicTool.TwoKeptLines` | blog-v3/src/components/Music/musicTool.js:256 | two kept lines joined by a line break split into those two lines, and both are kept in order |
| `MusicTool.LineOf` | blog-v3/src/components/Music/musicTool.js:260-265 | `[mm:ss.xx]text` with a non-empty, `]`-free text is kept with that text and the stamp minutes·60000 plus `ss.xx` in thousandths |
| `JsText.IndexOf` | blog-v3/src/components/Music/musicTool.js:261 | a position found holds the character, and the result is -1 or a position of the text |
| `JsText.IndexOfFirst` | blog-v3/src/components/Music/musicTool.js:261 | the result is -1 exactly when the character is absent, and otherwise no earlier position holds it |
| `JsText.Split` | blog-v3/src/components/Music/musicTool.js:256 | there is always at least one piece |
| `JsText.SplitPiecesFree` | blog-v3/src/components/Music/musicTool.js:260 | no piece of a split holds the separator |
| `JsText.SplitThenJoin` | blog-v3/src/components/Music/musicTool.js:256 | joining the pieces gives back the text |
| `JsText.JoinThenSplit` | blog-v3/src/components/Music/musicTool.js:260 | splitting a join of separator-free pieces gives back the pieces |
| `JsText.SplitAtFirst` | blog-v3/src/components/Music/musicTool.js:260 | the first piece is the text before the first separator; the rest is the split of the text after it |
| `JsText.SplitHead` | blog-v3/src/components/Music/musicTool.js:260 | the first piece is the longest separator-free prefix; it is empty iff the text is empty or starts with the separator |
| `JsText.SplitPrepend` | blog-v3/src/components/Music/musicTool.js:261 | a separator-free head only extends the first piece |
| `JsText.RemoveFirst` | blog-v3/src/components/Music/musicTool.js:261 | the result is the text or the text one character shorter |
| `JsText.RemoveFirstCutsFirst` | blog-v3/src/components/Music/musicTool.js:261 | `replace` with a one-character pattern removes the first occurrence only, and changes nothing when there is none |
| `JsText.Decimal` | blog-v3/src/components/Music/musicTool.js:205-207 | the decimal text of a natural number is digits without a leading zero that read back as the number |
| `JsText.NumberToString` | blog-v3/src/components/Music/musicTool.js:183-188 | a non-negative number renders as its decimal text, a negative one as '-' and the decimal text of its magnitude |
| `JsText.NumberThousandths` | blog-v3/src/components/Music/musicTool.js:264 | `Number("")` is 0 and `Number` of a non-empty run of digits is its value |
| `JsText.NumberOfFraction` | blog-v3/src/components/Music/musicTool.js:264 | `Number("w.f")` is w + f/1000·10^(3-\|f\|), in thousandths |
| `UseMusic.IndexOfId` | blog-v3/src/components/Music/useMusic.js:150 | the first position whose track has the id, or -1 when none has it |
| `UseMusic.FirstAtOrAfter` | blog-v3/src/components/Music/useMusic.js:54 | the first stamp at or after the current time (NaN never is), or -1 |
| `UseMusic.LyricIndex` | blog-v3/src/components/Music/useMusic.js:54-55 | the selected index lies between -2 and the second-to-last line |
| `UseMusic.LyricIndexSteppedBack` | blog-v3/src/components/Music/useMusic.js:54-55 | the lookup is the found position minus one in every case, so `\|\| 0` never clamps |
| `UseMusic.LyricIndexMeaning` | blog-v3/src/components/Music/useMusic.js:193-194 | every stamp up to the selected line is before the current time and the next one is not; -2 means no stamp is at or after it; the last line is never selected |
| `UseMusic.ActiveList` | blog-v3/src/components/Music/useMusic.js:138-148 | CUSTOM walks the customer list; TOP and any other play type walk the chart list |
| `UseMusic.StartPosition` | blog-v3/src/components/Music/useMusic.js:150-153 | a position inside a non-empty list; it holds the current id whenever some entry does, and is 0 when none does |
| `UseMusic.NextTrackId` | blog-v3/src/components/Music/useMusic.js:155-156 | an empty list gives no track; outside random order a non-empty list always gives one |
| `UseMusic.NextTrackMissing` | blog-v3/src/components/Music/useMusic.js:149-156 | no track is loaded exactly when the list is empty, or the order is random over two or more tracks and the draw hits the current position |
| `UseMusic.NextTrackChoice` | blog-v3/src/components/Music/useMusic.js:149-156 | the loaded id is always an id of the list. Repeat-one keeps the current track. List loop takes the neighbour with wrap-around. Random takes the drawn track. Any other order restarts from the first track |
| `UseMusic.DeleteById` | blog-v3/src/components/Music/useMusic.js:236-239 | an absent id leaves the list as it is; a present one makes it one entry shorter |
| `UseMusic.DeleteByIdRemovesFirst` | blog-v3/src/components/Music/useMusic.js:236-239 | deleting removes only the first entry with the id and keeps the others in order (a multiset with one fewer); an absent id changes nothing |
| `UseMusic.InitialState` | blog-v3/src/components/Music/useMusic.js:323-358 | paused at 0 in TOP and random order, with no lyrics and an empty active list, so that `setNext` finds no track for any draw |
| `UseMusic.MusicPlayer.constructor` | blog-v3/src/components/Music/useMusic.js:323-358 | the initial state record and a paused, empty audio element |
| `UseMusic.MusicPlayer.OnTimeUpdate` | blog-v3/src/components/Music/useMusic.js:40-64 | mirrors the element's non-zero time, its paused flag and its duration; keeps the lyric index during a lyric click and the progress during a drag; advances to the next track exactly when the element has ended |
| `UseMusic.MusicPlayer.Clear` | blog-v3/src/components/Music/useMusic.js:73-76 | only the duration and the lyric index are reset, to 0 |
| `UseMusic.MusicPlayer.SetPlay` | blog-v3/src/components/Music/useMusic.js:78-95 | at start-up restores the saved time to the element, otherwise rewinds both to 0; flags the image switch; at start-up pauses the element when the saved state is paused |
| `UseMusic.MusicPlayer.TogglePlay` | blog-v3/src/components/Music/useMusic.js:120-135 | always clears the image flag; when playing, pauses the element and records the pause; otherwise nothing else changes |
| `UseMusic.MusicPlayer.SetNext` | blog-v3/src/components/Music/useMusic.js:137-156 | the chosen track is `getNextMusic`'s pick in the active list, starting from the current track's position or 0 |
| `UseMusic.MusicPlayer.SetCurrentTime` | blog-v3/src/components/Music/useMusic.js:188-198 | moves the state and the element to the time and recomputes the lyric index; when the element is paused it calls `togglePlay`, which clears the image flag and, when the state was playing, records a pause (the element is already paused, so nothing restarts it) |
| `UseMusic.MusicPlayer.SetCurrentTimeByClickLyric` | blog-v3/src/components/Music/useMusic.js:204-211 | flags the click; moves to the clicked line's stamp exactly when the line exists and its stamp is a number; otherwise only the flag changes |
| `UseMusic.MusicPlayer.SetShowLyricBoard` | blog-v3/src/components/Music/useMusic.js:222-224 | sets the lyric-board flag and nothing else |
| `UseMusic.MusicPlayer.SetIsShow` | blog-v3/src/components/Music/useMusic.js:225-231 | a true flag shows the player; a false one toggles it |
| `UseMusic.MusicPlayer.SetCustomerMusicList` | blog-v3/src/components/Music/useMusic.js:232-244 | "add" appends; "delete" removes the first entry with the id and falls back to TOP when the list is left empty; any other kind changes nothing |
| `UseMusic.MusicPlayer.SetIsToggleImg` | blog-v3/src/components/Music/useMusic.js:245-247 | sets the image flag and nothing else |
| `UseMusic.MusicPlayer.SetLyricType` | blog-v3/src/components/Music/useMusic.js:248-250 | COMMON and SPECIAL are stored; any other name gives `undefined` |
| `UseMusic.MusicPlayer.SetPlayType` | blog-v3/src/components/Music/useMusic.js:251-253 | sets the play type and nothing else |
| `UseMusic.MusicPlayer.SetPlayModel` | blog-v3/src/components/Music/useMusic.js:254-256 | sets the play order and nothing else |
| `UseMusic.MusicPlayer.SetIsUseProgress` | blog-v3/src/components/Music/useMusic.js:257-259 | sets the dragging flag and nothing else |
| `UseMusic.MusicPlayer.SetMusicList` | blog-v3/src/components/Music/useMusic.js:184-186 | replaces the chart list and nothing else |

## Left out

- **Playback:** `audio.play()` and the state changes its promise makes when it settles
  (`isPaused`, `isToggleImg`) are asynchronous and depend on the browser. `SetPlay`,
  `TogglePlay`, `SetCurrentTime` and `SetCurrentTimeByClickLyric` stop at the request to play.
- **Delayed resets:** the `setTimeout` calls that clear `isUseProgress` (200 ms) and
  `isClickLyric` (100 ms) are not modelled. The flags are plain setters here.
- **Network and storage:**
  - `setMusicInfo`, `getMusicDetail`, `getMusicDescription` and the request part of `getLyric`
    are network calls. `SetNext` returns the chosen id instead of loading it, and `GetLyric`
    takes the lyric text as input.
  - `init`, the local-storage helpers, the Base64 encoding and the saved-state restore are not
    modelled.
- **Floating point:** `calcMusicSchedule`, `calcMusicCurrentTime` and `setVolume` work on
  floating point. Their results are parameters, and the volume and the track description are
  not part of the state.
- **Out of scope:** the Vue binding helpers, the getters and `main.js`.
- `JsText.NumberThousandths`: reads only these forms of `Number(...)`:
  - the empty string;
  - a run of digits;
  - digits, '.', and at most three digits.

  Every other text counts as NaN, although JavaScript also accepts surrounding spaces, signs,
  exponents, longer fractions, the `0x`/`0o`/`0b` prefixes and `Infinity`.
- `MusicTool.LineStamp`: stamps are whole milliseconds, so a fraction finer than a millisecond
  is not representable.
- `MusicTool.CalcMusicTime`: takes whole, non-negative seconds. A fractional time, whose
  seconds `Math.floor` truncates, is not modelled, and neither is an `undefined` input.
- `MusicTool.AddZero`: the source returns numbers of 10 and above unconverted; the model returns
  the decimal text that the calling template literal produces.
- `UseMusic.IndexOfId`: compares ids with strict equality, whereas the source's `==` would also
  equate a numeric id with its decimal text.
- `UseMusic.MusicPlayer.SetLyricType`: a name other than COMMON and SPECIAL gives `undefined`,
  whereas the source's `LYRICTYPE[val]` also returns the members every object inherits
  (`constructor`, `toString`, `valueOf`, `hasOwnProperty`, `__proto__` and the like).
- `UseMusic.MusicPlayer.SetIsShow`: takes a boolean, whereas the source accepts any truthy or
  falsy value.
- `UseMusic.MusicPlayer.SetCurrentTimeByClickLyric`: the assignment of NaN to the element throws;
  the model reports this as `ok == false` and leaves the rest of the state as it was.
