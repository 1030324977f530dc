# NCSSM Rotary presentation: navigation, narration and audio generation in Dafny

This project models the logic of a browser slide deck and proves properties about it. The deck has 24 slides in 8 chapters. It also has a narration mode that plays one audio clip per slide and moves on by itself when a clip finishes.

Three parts of the repository are modelled:

- **Navigation** (`app.js`, module `Navigation`, file `navigation.dfy`). The class `Deck` holds the slide position, the sidebar flag and the active/prev tag of every slide element. The function `Target` gives the position each command leads to. `KeyCommands`, `SlideClickCommands` and `ChapterClickCommands` map keyboard and click input to commands. `DeepLinkSlide` checks the address fragment read at start-up. The chapter table is the constant `Chapters`, and `FindChapter`/`ChapterOf` implement `getCurrentChapter`.
- **Narration** (`narration.js`, module `Narration`, file `narration.dfy`). The class `Narrator` holds the module's four variables: `isNarrating`, `autoAdvanceEnabled`, `isAutoAdvancing` and the `currentAudio` slot.
  - Timers and audio callbacks become event methods: `OnClipCallback`, `OnAdvanceTimerFired`, `OnSettleTimerFired` and `OnRestartTimerFired`. The environment may call each one once it has been scheduled. Pending timers are counted per kind.
  - Every audio handle ever created is kept in `clips` with its state (playing, paused, settled). This lets the model state the "at most one live handle" rule as the predicate `OneLive`.
  - The controller reads and drives the deck through `nav: Deck?`. In the shipped page no presentation object is ever published, so `nav` is `null` there. The method `NoPresentation` shows what that means: toggling reports `true`, but narration never starts.
- **Audio generation** (`generate-audio.js`, module `AudioGen`, file `audiogen.dfy`). This part covers the `.env` line parser and the loop that loads the `.env` file, the default voice, the `--slide` argument scan, the sorting and selection of slides, the output file name and the exit paths of `main`. The method `RegenerateOneSlide` runs `main` with `--slide 5` and scripts for slides 1 and 5, and shows that it requests `audio/slide-5.mp3` and nothing else.

`jstext.dfy` models the JavaScript built-ins the code relies on: `trim`, `split`/`join` with one separator character, `parseInt` without a radix (including white space, sign and the `0x` prefix), and decimal rendering in template literals. `clipnaming.dfy` ties the generator's file names to the files narration requests.

Behaviours of the code worth knowing, which the model keeps as written:

- **Clip completions are not guarded by handle identity.** The callbacks of `playAudio` clear the audio slot and run `onComplete` unconditionally.
  - A missing clip reports twice: once through its error event and once through the rejected `play()`. That schedules two advance timers, and the deck moves two slides. The verified method `MissingClipAdvancesTwice` shows this.
  - A superseded handle whose `play()` is rejected empties the slot while the newer handle keeps playing, which breaks `OneLive`. The ensures of `OnClipCallback` and the method `SupersededHandleReports` show this.
- **Timers are never cancelled.** They re-check the flags when they fire.
- **The public `stop` leaves the narration indicator request as it was.** Only toggling off and reaching the last slide ask to hide it.
- **`autoAdvanceEnabled` always equals `isNarrating`.** This is part of `Narrator.Valid`.
- **The `.env` parser tests the untrimmed key for emptiness.** So the parser accepts a line ` =x` with the empty name as its key. Node then drops an assignment to `process.env` under an empty name, and nothing the program reads is affected.
- **`ELEVENLABS_VOICE_ID` set to the empty string also selects the default voice.**

## Model

| member | source | states |
|---|---|---|
| `Navigation.FindChapter` | app.js:120-127 | result is the first chapter in key order whose range holds the slide, and chapter 1 when none does |
| `Navigation.ChaptersTileSlides` | app.js:16-25 | the chapter ranges are non-empty, laid end to end, and cover exactly slides 1..24 |
| `Navigation.TilingCovers` | app.js:16-25 | a table of ranges laid end to end covers every number between its ends |
| `Navigation.TilingDisjoint` | app.js:16-25 | ranges of such a table are ordered and do not overlap |
| `Navigation.SlideInOneChapter` | app.js:120-127 | every slide 1..24 lies in exactly one chapter, and `getCurrentChapter` returns that chapter |
| `Navigation.ChapterOfStart` | app.js:79-84 | the first slide of chapter c is a valid slide and belongs to chapter c |
| `Navigation.Target` | app.js:47-100 | every navigation command leaves the position within 1..totalSlides |
| `Navigation.NextChapterMoves` | app.js:86-91 | nextChapter in chapter 8 does nothing; otherwise it moves forward to the first slide of the next chapter |
| `Navigation.PrevChapterMoves` | app.js:93-100 | prevChapter in chapter 1 goes to slide 1; otherwise it moves back to the first slide of the previous chapter |
| `Navigation.GoToChapterLands` | app.js:79-84 | goToChapter(c) lands on the first slide of a known chapter c, inside c; an unknown c changes nothing |
| `Navigation.KeyCommandsAtMostOne` | app.js:144-189 | a key press runs at most one command; a named key runs exactly its `switch` command |
| `Navigation.DigitKeysPickChapters` | app.js:183-188 | keys 1 to 8 go to that chapter unless ctrl or meta is held or a text field has focus |
| `Navigation.TextFieldsIgnored` | app.js:146 | key presses in an input or a textarea run nothing |
| `Navigation.ChapterClickPicksChapter` | app.js:191-197 | clicking the item of chapter c asks for chapter c |
| `Navigation.DeepLinkSlide` | app.js:231-235 | a deep link selects only a slide within 1..totalSlides |
| `Navigation.DeepLinkRoundTrip` | app.js:231-235 | `#n` selects slide n for every slide number and nothing for any other integer |
| `Navigation.Deck.constructor` | app.js:212-236 | after start-up the deck is on the deep-linked slide, or on slide 1, with consistent tags and the sidebar shown |
| `Navigation.Deck.GoToSlide` | app.js:47-65 | an out-of-range n changes neither position nor tags; otherwise the position is n, exactly slide n is active, the slides below it are prev and the slides above it carry neither tag |
| `Navigation.Deck.NextSlide` | app.js:67-71 | moves to the next slide; no-op on the last slide |
| `Navigation.Deck.PrevSlide` | app.js:73-77 | moves to the previous slide; no-op on slide 1 |
| `Navigation.Deck.GoToChapter` | app.js:79-84 | moves to the first slide of a known chapter; no-op otherwise |
| `Navigation.Deck.NextChapter` | app.js:86-91 | position becomes the nextChapter target and the tags stay consistent |
| `Navigation.Deck.PrevChapter` | app.js:93-100 | position becomes the prevChapter target and the tags stay consistent |
| `Navigation.Deck.ToggleSidebar` | app.js:133-138 | flips the sidebar flag and leaves the position alone |
| `Navigation.Deck.Perform` | app.js:148-188 | runs one command; the position becomes its target; only the sidebar command touches the sidebar |
| `Navigation.Deck.HandleKeydown` | app.js:144-189 | keeps the deck valid; moves to the target of the key's command, or changes nothing; the sidebar flips exactly when the key's command is the sidebar toggle |
| `Navigation.Deck.HandleSlideClick` | app.js:199-206 | a click on or inside a link or a button changes nothing; any other click on the slide moves to the next slide; the sidebar is kept |
| `Navigation.Deck.HandleChapterClick` | app.js:191-197 | an item whose `data-chapter` reads as a number runs goToChapter on it; an item without one changes nothing; the sidebar is kept |
| `JsText.Split` | generate-audio.js:22-23 | the pieces of a split contain no separator and join back to the input |
| `JsText.SplitAtFirst` | generate-audio.js:23 | the head of a split is the text before the first separator, and the tail joined is the text after it |
| `JsText.TrimPadded` | generate-audio.js:24-25 | trim removes exactly the white-space padding around a string |
| `JsText.ParseIntRoundTrip` | app.js:232 | parseInt reads back every integer rendered in decimal |
| `JsText.IntToStringInjective` | narration.js:62 | distinct integers render to distinct decimal strings |
| `Narration.ClipFileInjective` | narration.js:61-65 | distinct slides request distinct clip files |
| `Narration.Narrator.IsActive` | narration.js:216-218 | reports `isNarrating`; when it is true, a presentation exists, auto-advance is on and the indicator was last asked to show |
| `Narration.Narrator.constructor` | narration.js:14-17 | narration starts off, with no handle, no clips and no pending timers |
| `Narration.Narrator.PlayAudio` | narration.js:23-48 | pauses and drops the slot's handle, then starts one new handle in the slot; keeps at most one live handle |
| `Narration.Narrator.StopAudio` | narration.js:50-55 | the slot ends empty with its handle paused; with an empty slot nothing changes |
| `Narration.Narrator.NarrateSlide` | narration.js:61-65 | requests the clip `audio/slide-{n}.mp3` |
| `Narration.Narrator.NarrateCurrentSlide` | narration.js:95-99 | while narrating, requests the current slide's clip with the auto-advance step; otherwise does nothing |
| `Narration.Narrator.StartAutoNarration` | narration.js:79-93 | without a presentation, or when already narrating, nothing changes; otherwise both flags and the indicator turn on and the current slide's clip is requested |
| `Narration.Narrator.StopNarration` | narration.js:142-146 | both flags turn off and the slot is emptied; the indicator is untouched |
| `Narration.Narrator.Toggle` | narration.js:191-202 | when inactive, returns true and starts narration (or not, without a presentation); when active, returns false, turns both flags off, empties the slot and hides the indicator |
| `Narration.Narrator.CompleteNarratedClip` | narration.js:99-117 | while narrating below the last slide, schedules exactly one advance timer; on the last slide, stops narration and hides the indicator; otherwise nothing |
| `Narration.Narrator.OnClipCallback` | narration.js:32-47 | ended, load error and play rejection all empty the slot and run the completion step; a callback from a superseded handle leaves the newer one playing outside the slot |
| `Narration.Narrator.AdvanceToNextSlide` | narration.js:120-140 | raises the suppression flag, moves the deck to the next slide and schedules one settle timer; the deck's sidebar is kept |
| `Narration.Narrator.OnAdvanceTimerFired` | narration.js:105-109 | advances only if narration is still on; otherwise only the timer is consumed and the deck's position and tags are kept; the deck's sidebar is kept in both cases |
| `Narration.Narrator.OnSettleTimerFired` | narration.js:133-139 | clears the suppression flag, then requests the new slide's clip only if narration is still on |
| `Narration.Narrator.OnSlideChange` | narration.js:227-237 | ignored while the suppression flag is set or narration is off; otherwise stops the clip and schedules one restart |
| `Narration.Narrator.OnRestartTimerFired` | narration.js:235 | requests the clip of the slide now shown, if still narrating |
| `AudioGen.EnvLineMeaning` | generate-audio.js:22-27 | a line sets a variable exactly when it has an `=` after a non-empty key that does not start with `#` once trimmed; the key is trimmed, and the value is everything after the first `=`, trimmed |
| `AudioGen.EnvLineExample` | generate-audio.js:23-25 | `A= b=c ` sets `A` to `b=c` |
| `AudioGen.EnvLineIgnored` | generate-audio.js:24 | a line without `=`, or a comment line, sets nothing |
| `AudioGen.EnvLastLineWins` | generate-audio.js:22-27 | a variable set by several lines takes the value of the last one |
| `AudioGen.EnvUntouchedKey` | generate-audio.js:22-27 | a variable no line sets keeps its earlier value, or stays unset |
| `AudioGen.LoadEnvFile` | generate-audio.js:19-28 | the environment after loading is that of applying every line in order |
| `AudioGen.VoiceId` | generate-audio.js:33 | the voice is the configured one when set and non-empty, and `HlMBBeKyCO8iSONO6L5i` otherwise; never empty |
| `AudioGen.LastSlideFlag` | generate-audio.js:135-137 | locates the last `--slide` that has a non-empty argument |
| `AudioGen.LastSlideArgumentWins` | generate-audio.js:135-137 | of two `--slide N` the last wins |
| `AudioGen.TrailingSlideFlagIgnored` | generate-audio.js:136 | a trailing `--slide` keeps the earlier choice |
| `AudioGen.ScanArgs` | generate-audio.js:130-142 | usage is shown exactly when a help flag appears anywhere; otherwise the result is parseInt of the argument after the last `--slide` that has a non-empty argument, and none without one |
| `AudioGen.SortAscending` | generate-audio.js:89 | the slide numbers come out ascending and are a permutation of the keys |
| `AudioGen.Selected` | generate-audio.js:91-92 | a slide is processed iff it has a script and matches `--slide` when given; order is kept |
| `AudioGen.OutputNameInjective` | generate-audio.js:95 | distinct slides are requested under distinct file names |
| `AudioGen.GenerateSlides` | generate-audio.js:86-105 | requests one output `audio/slide-{n}.mp3` per selected slide, in ascending order |
| `AudioGen.SingleSlideSelected` | generate-audio.js:89-92 | with `--slide n` for an existing slide, exactly slide n is processed |
| `AudioGen.RunGenerator` | generate-audio.js:130-187 | usage exactly when a help flag appears; otherwise a missing API key exactly when the key is unset or empty; otherwise "slide not found" exactly when `--slide` asked for a slide without a script, naming that slide; otherwise the run requests the clip paths of the selected slides in ascending order, each named after an existing slide |
| `ClipNaming.GeneratedClipIsRequested` | generate-audio.js:89-95 | a full run requests every scripted slide, under the exact name narration plays for that slide |

## Left out

- DOM work is left out: the counter text, the chapter-list highlighting, the sidebar classes, the narration indicator's element and its fade, `preventDefault`, and listener registration. Only the slide tags, the sidebar flag and an indicator flag remain.
- Time is left out. Timers and audio callbacks are events that the environment may deliver in any order once they are scheduled. Their durations (500, 300 and 100 ms) cannot be verified.
- The browser `Audio` object is an index into `clips` with a playing/paused/settled state. The model does not decide which callbacks a real browser would fire for a paused handle. `OnClipCallback` allows a callback for any created handle.
- `Narration.Narrator.PlayAudio`: a caller's own `onComplete` passed to the public `playAudio`/`narrateSlide` is code outside this model. It is recorded as `CallerCallback` and changes no narration state.
- The presentation object narration reads (`window.Presentation` with `getState` and `goToSlide`) is assumed to be the live deck. `app.js` never publishes it and never calls `onSlideChange`. Both are therefore modelled as inputs: the `nav` argument and the `OnSlideChange` event.
- The ElevenLabs request, `fs` reads and writes, `process.exit`, the loading of `scripts.js` through `new Function`, console output and the `voice_settings` constants are left out. `RunGenerator` takes the environment, the scripts and their keys as arguments. It returns how the run ends and which files it requests.
- `AudioGen.LoadEnvFile`: `process.env` is a plain map from names to strings, so the empty name is an ordinary key. A line ` =x` is recorded under the empty name, which Node would drop.
- `scripts.js` is data only and is not part of this model. A `scripts.js` that cannot be loaded (the `loadScripts` failure exits) is an I/O failure and is left out of `RunGenerator`.
- `JsText.ParseInt` treats a number as an exact integer. Precision loss past 2^53 and the sign of `-0` are not modelled.
- `JsText.IntToString` renders every integer in plain decimal. JavaScript renders a number of magnitude 10^21 or more in exponent form (`1e+21`, which `parseInt` reads as 1). So `ParseIntRoundTrip`, `ChapterClickPicksChapter` and `DeepLinkRoundTrip` hold in JavaScript only below that magnitude.
- `Narration.Narrator.indicatorShown` records the last show/hide request. A hide fades the element and removes it 300 ms later (narration.js:180-183). A show within that window reuses the element and does not cancel the removal (narration.js:153-156, 178). So turning narration back on within 300 ms leaves it on with no indicator.
- `AudioGen.GenerateSlides` returns the files the run requests from the speech service. A file is written only after a successful response (generate-audio.js:75-81). A failed request is logged and skipped (generate-audio.js:101-103), and the run still reports completion (generate-audio.js:186).
- `JsText.IsSpace` lists the Unicode white-space code points by hand. Code points that Unicode later adds to the space separators are not covered.
- `Navigation.Deck`: the number of `.slide` elements is a constructor argument, as the page decides it. The position bound is the constant 24 of the source.
