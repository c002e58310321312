# TTSPlayer playback and temp-file state machine, in Dafny

This project models the speech-playback core of the English multi-language
translator desktop app (`eng.py`). The core is the `TTSPlayer` class. It
synthesizes speech for a piece of text into a temporary audio file. It uses the
gTTS network engine when gTTS is installed. Only when gTTS is missing and the
language is English does it try the offline pyttsx3 engine. A gTTS MP3 is then
converted to WAV with pydub when pydub is available. It plays the file through `pygame.mixer.music` with
play, pause, resume, stop and replay. `cleanup` deletes the temporary files.
The model also covers `ensure_pygame`, the summary text the word-lookup tab
builds from a dictionary reply, and the truncation of the quick-sample button
labels.

The foreign libraries are modelled abstractly:

- **Filesystem** (`Storage`): a `FileSystem` object holding the set of existing
  paths. `mkstemp` hands out a path whose number no existing file has, and
  creates it. `os.remove` deletes a path if it exists.
- **Mixer** (`Audio`): a `Mixer` object with `initialized`, `loaded`, `busy` and
  `suspended` (paused). This follows pygame 2, where `get_busy()` is false while
  the music is paused. A failing `music.load` keeps the old music loaded.
- **Back-ends**: whether pyttsx3, gTTS, pydub's `AudioSegment` and pygame imported
  is a `Modules` value fixed at construction. Whether `mixer.init`, the pyttsx3
  engine, gTTS, the conversion, `music.load` and `music.play` succeed is a boolean argument of
  each operation, so every proof covers both outcomes.

`PlayerModel` describes each operation as a pure step on a `World`: the four
player fields, the mixer and the disk. It also proves the properties of those
steps and of any sequence of them. `Player.TTSPlayer` is the class itself. Its
methods update the fields in place and are proved to move the player, the mixer
and the disk exactly as the matching step says. The central invariant `Inv` says:

- `is_playing` and `paused` are never both set;
- a set flag means the mixer is initialized;
- a tracked raw MP3 is also the final file;
- tracked paths came from `mkstemp`.

The flags record what the player last asked the mixer to do, not what the
mixer is doing. Music that ends by itself leaves `is_playing` set. A failed
replay stops the music but leaves `paused` set (`FailedReplayThenResume`).

Some behaviour of eng.py that is easy to miss:

- The offline engine is tried only when gTTS is absent. When gTTS is present it
  is used even for English.
- A failed attempt does not remove every file it created. A failed pyttsx3 run and
  a failed conversion each leave their `mkstemp` WAV file behind
  (`OfflineFailureLeavesWav`, `ConversionFailureLeavesWav`). Only a failing gTTS
  removes its MP3.
- `cleanup` does not stop or release the mixer. `generate` does that first,
  through `_stop_and_cleanup_playback`.
- `pause` tests the mixer's `get_busy()` and the `paused` flag, not `is_playing`.
- `play` and `stop` call `ensure_pygame` first. So `play` without pygame reports
  the missing pygame before the missing file. `stop` resets the flags only when
  `ensure_pygame` succeeds, which it always does once a flag is set
  (`StopStep`).

## Model

| member | source | states |
|---|---|---|
| `Storage.MakeTemp` | eng.py:103-104 | mkstemp returns a path with the requested suffix that no existing file had; that path then exists and nothing else changes |
| `Storage.Removed` | eng.py:224-225 | after os.remove the path does not exist, every other file is as before, and a missing path is tolerated |
| `Storage.FileSystem.Mkstemp` | eng.py:103-104 | the object version of MakeTemp: its new state and returned path are those of MakeTemp, and the ids still stay below the counter |
| `Storage.FileSystem.Remove` | eng.py:224-225 | deletes the path when it exists; the new state is Removed of the old |
| `Audio.Ensure` | eng.py:51-59 | ensure_pygame succeeds iff pygame imported and the mixer is initialized or mixer.init succeeds; it fails with the missing-pygame error iff pygame is absent, and with the init error otherwise; it initializes only a mixer that was not initialized and changes nothing else |
| `Audio.EnsurePygame` | eng.py:51-59 | the method on the mixer object has exactly the effect and outcome of Ensure |
| `Audio.MusicStop` | eng.py:148 | music.stop silences the stream and drops a pause; the loaded music stays loaded and the mixer initialized |
| `Audio.MusicLoad` | eng.py:151 | music.load succeeds iff the file exists and decodes; on success exactly that file is loaded, stopped; on failure the mixer is unchanged |
| `Audio.MusicPlay` | eng.py:152 | music.play makes the loaded music busy and not paused, keeping what is loaded and the initialization |
| `Audio.MusicPause` | eng.py:162 | music.pause suspends busy music and otherwise does nothing |
| `Audio.MusicUnpause` | eng.py:172 | music.unpause resumes suspended music and otherwise does nothing |
| `Audio.MusicEnds` | eng.py:161 | music reaching its end makes get_busy() false and changes nothing else: loaded music, pause and initialization stay |
| `Audio.Mixer.Init` | eng.py:56-57 | mixer.init marks the mixer initialized and changes nothing else |
| `Audio.Mixer.Quit` | eng.py:209 | mixer.quit leaves the mixer uninitialized, with nothing loaded, busy or paused |
| `Audio.Mixer.Stop` | eng.py:148 | the object's new state is MusicStop of the old |
| `Audio.Mixer.Load` | eng.py:151 | the object's new state and the outcome are MusicLoad of the old state |
| `Audio.Mixer.Play` | eng.py:152 | the outcome is the given music.play outcome; on success the new state is MusicPlay of the old, on failure nothing changes |
| `Audio.Mixer.Pause` | eng.py:162 | the object's new state is MusicPause of the old |
| `Audio.Mixer.Unpause` | eng.py:172 | the object's new state is MusicUnpause of the old |
| `PlayerModel.Tracked` | eng.py:217-221 | the paths cleanup collects are exactly audio_file and _raw_mp3 when set |
| `PlayerModel.Initial` | eng.py:69-73 | a new player tracks no file, has both flags false and satisfies the invariant |
| `PlayerModel.OfflineChosen` | eng.py:86 | the offline engine is chosen iff pyttsx3 is present, gTTS is absent and the language code starts with `en` |
| `PlayerModel.StopAndCleanupPlayback` | eng.py:203-213 | from a valid state the mixer ends quit and unloaded and nothing else changes |
| `PlayerModel.Cleanup` | eng.py:215-231 | a file exists afterwards iff it existed before and is not tracked; both paths become None, both flags false, the mixer is untouched, and the invariant is kept |
| `PlayerModel.Synthesize` | eng.py:85-138 | on a disk of mkstemp names, every file it adds is fresh and no old file disappears; the offline success, a gTTS success with a working or no conversion add exactly the final file; a failed conversion adds the final MP3 and one other WAV; a gTTS failure adds nothing; gTTS unavailable adds one WAV when the offline path was tried and nothing otherwise |
| `PlayerModel.GenerateStep` | eng.py:76-138 | earlier tracked files are deleted and the mixer is quit first; the gTTS-unavailable error iff gTTS is absent and the offline path was not taken or failed; the gTTS error iff gTTS is present and fails, with no new file left and nothing tracked; a success tracks a fresh existing final file; the offline path and a working conversion give a WAV with no raw MP3 and no other new file; without conversion the MP3 is both raw and final; the new files are exactly: the MP3 alone without pydub, the MP3 and one other WAV after a failed conversion, one WAV after a failed offline attempt, and none when gTTS is unavailable and the offline path was not taken; the invariant is kept |
| `PlayerModel.PlayStep` | eng.py:140-156 | play succeeds iff pygame and the mixer are usable and audio_file is set, exists, loads and starts; a failing ensure_pygame raises its own error; the no-audio error iff the mixer is usable but audio_file is None or missing, raised before the music is stopped; the playback error iff the file exists but does not load or does not start, after the music is stopped, with the new file loaded when only music.play failed and the old music still loaded when music.load failed; only ensure_pygame's mixer.init changes the initialization; every failure leaves paths, flags and disk untouched; a success loads audio_file, plays it, sets is_playing and clears paused |
| `PlayerModel.PauseStep` | eng.py:158-166 | from a valid state with the mixer busy and paused false: paused set, is_playing cleared, music suspended; otherwise only the mixer's initialization can change; it is initialized afterwards iff ensure_pygame left it so |
| `PlayerModel.ResumeStep` | eng.py:168-176 | from a valid state with paused set: paused cleared, is_playing set, music unpaused; otherwise only the mixer's initialization can change; it is initialized afterwards iff ensure_pygame left it so |
| `PlayerModel.StopStep` | eng.py:178-185 | from a valid state both flags end false and the mixer neither busy nor paused; paths, disk and loaded file are untouched; the mixer is initialized afterwards iff ensure_pygame left it so; stop never raises |
| `PlayerModel.ReplayStep` | eng.py:187-201 | replay succeeds iff the mixer is usable and audio_file is set, exists, loads and starts; a failing ensure_pygame raises its own error; the load error iff the mixer is usable but audio_file is None, missing or does not load; the play error, unwrapped, iff the file loads but music.play fails, with that file loaded; after a load error the old music is still loaded; only ensure_pygame's mixer.init changes the initialization; a failure leaves paths, flags and disk untouched; after a load or play error the music is stopped; a success restarts audio_file from the start with is_playing set and paused clear |
| `PlayerModel.Apply` | eng.py:63-231 | every operation, the music ending, and an outside deletion keep the invariant |
| `PlayerModel.RunKeepsInv` | eng.py:63-231 | any sequence of operations from a valid state ends in a valid state |
| `PlayerModel.FlagsNeverBoth` | eng.py:72-231 | after any history from a new player, is_playing and paused are not both true |
| `PlayerModel.StopIdempotent` | eng.py:178-185 | stop twice gives the same state as stop once |
| `PlayerModel.CleanupIdempotent` | eng.py:215-231 | cleanup twice gives the same state as cleanup once |
| `PlayerModel.PauseThenResume` | eng.py:158-176 | pause then resume of busy playing music returns to exactly the same state, without reloading |
| `PlayerModel.GenerateThenPlay` | eng.py:117-156 | after a successful generate, WAV or MP3, a play whose init, load and start succeed plays the generated file |
| `PlayerModel.GenerateSupersedes` | eng.py:76-138 | a second generate deletes the first one's file, and a successful one tracks a different path |
| `PlayerModel.GttsPreferred` | eng.py:86-99 | with gTTS installed the outcome of the offline engine makes no difference to generate, English or not |
| `PlayerModel.ConversionFailureLeavesWav` | eng.py:117-138 | when gTTS succeeds and the conversion fails, a new untracked WAV file is left on disk |
| `PlayerModel.OfflineFailureLeavesWav` | eng.py:85-99 | when the offline path is taken and fails, generate raises the gTTS-unavailable error and leaves a new untracked WAV file |
| `PlayerModel.FailedReplayThenResume` | eng.py:168-201 | a paused player whose replay fails to load stays paused, and the following resume sets is_playing while nothing is busy |
| `Player.TTSPlayer.constructor` | eng.py:69-74 | the new player has no files tracked, both flags false, and is valid |
| `Player.TTSPlayer.Generate` | eng.py:76-138 | new fields, mixer and disk, and the returned path or error, are those of GenerateStep |
| `Player.TTSPlayer.Play` | eng.py:140-156 | new state and outcome are those of PlayStep |
| `Player.TTSPlayer.Pause` | eng.py:158-166 | new state is that of PauseStep |
| `Player.TTSPlayer.Resume` | eng.py:168-176 | new state is that of ResumeStep |
| `Player.TTSPlayer.Stop` | eng.py:178-185 | new state is that of StopStep |
| `Player.TTSPlayer.Replay` | eng.py:187-201 | new state and outcome are those of ReplayStep |
| `Player.TTSPlayer.StopAndCleanupPlayback` | eng.py:203-213 | new state is that of StopAndCleanupPlayback; the mixer ends quit |
| `Player.TTSPlayer.Cleanup` | eng.py:215-231 | the loop over the collected paths deletes each that exists; the new state is that of Cleanup and is valid |
| `Dictionary.SummaryLines` | eng.py:508-534 | a reply that is not a non-empty list gives the single not-found line; otherwise the first line is the Word line with the entry's word, or the looked-up word when the key is missing |
| `Dictionary.RenderAppend` | eng.py:508-534 | rendering lines one after another is the same as concatenating their texts, which is how short_text grows |
| `Dictionary.PronunciationShown` | eng.py:513-517 | a Pronunciation line with text t appears iff the first phonetics entry's text is t and t is non-empty |
| `Dictionary.PartOfSpeechShown` | eng.py:518-528 | a Part of speech line appears iff the first meaning has a definition, and it shows that meaning's part of speech or the empty string |
| `Dictionary.DefinitionShown` | eng.py:522-528 | a Definition line appears iff the first meaning has a definition, and it shows the first definition or the empty string |
| `Dictionary.ExampleShown` | eng.py:524-530 | an Example line with text t appears iff the first meaning has a definition whose example is t and t is non-empty |
| `Dictionary.NoMeaningsShown` | eng.py:518-532 | the No meanings line appears iff the entry's meanings list is empty |
| `Dictionary.NotFoundText` | eng.py:533-534 | with no entry to show, the text is exactly `No definition found for "<word>".` and a newline |
| `Dictionary.WordLineFirst` | eng.py:510-512 | with an entry, the text starts with `Word: <title>` and a newline |
| `Dictionary.NoMeaningsLast` | eng.py:531-532 | with an entry without meanings, the text ends with `No meanings found.` and a newline |
| `Dictionary.BuildSummary` | eng.py:508-534 | the string built by successive appends is the rendering of SummaryLines; hence exactly the not-found text when there is no entry, a leading Word line otherwise, and a trailing No meanings line when meanings is empty |
| `QuickSamples.Label` | eng.py:326 | a sample shorter than 35 characters is its own label; a longer one gives a 35-character label of its first 32 characters and `...` |

## Left out

- The Tk/ttkbootstrap interface is not modelled. That includes the widgets, the
  message boxes, the `on_play`/`on_pause`/`on_close` handlers and the notes
  save/load dialogs. This is user interface and file-dialog I/O.
- Threads, `self.after`, `self.lock` and the polling loop are not modelled. The
  model runs operations one at a time. In eng.py the lock covers only the
  stop, load and play part of `play` (eng.py:144-156) and the whole of `replay`.
  `ensure_pygame` and the existence test in `play` run outside it. `generate`,
  which runs on a worker thread, takes no lock, and neither do `pause`,
  `resume`, `stop` and `cleanup`. Interleavings of these are not covered.
- The text to speak and the language code passed to gTTS, and the audio they
  produce, are not modelled. Only `lang.startswith('en')` affects control flow,
  and only the success or failure of each back-end is an argument.
- Failures of `mkstemp` and `os.close` are not modelled. Both are taken to succeed.
- Failures of `os.remove` on an existing file are not modelled. The code
  swallows them, and the model takes deletion to succeed. On Windows the likely
  failure is this process's own mixer holding the loaded file open. That is why
  `_stop_and_cleanup_playback` runs before `cleanup` in `generate`. `on_close`
  calls `cleanup()` before `mixer.quit()` (eng.py:609-612), so there the file
  can survive. In the model, `CleanupFiles` deletes a loaded file all the same.
- Exceptions from `music.stop` and `mixer.quit` inside try/except blocks are
  not modelled. The model takes both to succeed when the mixer is initialized,
  which is when the code calls them.
- mkstemp's random names and the `tts_` prefix are reduced to a number and a
  suffix.
- Storage.MakeTemp: the real mkstemp only avoids names that exist right now.
  The model's counter never hands out a name any file has had, even one that
  was deleted. These claims rely on that:
  - `GenerateSupersedes`: `g2.1.value != g1.1.value` and `g1.1.value !in g2.0.disk.files`;
  - `GenerateStep`: that earlier tracked files are gone afterwards;
  - `GenerateStep`: `r.1.value !in w.disk.files` on success;
  - every `GenerateStep` clause about `Created(w, r.0)`;
  - `ConversionFailureLeavesWav` and `OfflineFailureLeavesWav`, which measure
    what is new against the world before `generate`.

  With name reuse, a file of the same generate could come back under an
  earlier, just-deleted name, which none of these would then count as new.
  `Synthesize` states the same created-file facts against the world after the
  two cleanup calls. There they do not depend on the counter, because
  `Synthesize` deletes no file before its last mkstemp call.
- The `print` logging of swallowed errors is not modelled. It has no effect
  on state.
- Translation (GoogleTranslator), the HTTP request of the word lookup, its
  status check and JSON decoding are network calls. The summary takes the
  decoded reply as input. A JSON `null` for a key is treated as a missing key.
