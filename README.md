# Speech generator desktop app: console classifier, generation window, voice import

This project models the logic at the centre of a PyQt text-to-speech desktop
application and proves properties about it in Dafny.

- **Console capture** (`console_capture.py`): an object replaces `sys.stdout` and
  `sys.stderr` while speech is generated. It strips each chunk of text the engine
  prints and splits it into lines. Each non-blank line becomes at most one signal:
  generation complete, a progress percentage (three regular expressions, tried in
  order), a warning, an error, or an important log line.
- **Generation window** (`generation_window.py`):
  - the worker thread `GenerationWorker`, which reports the milestones 5, 15, 25,
    85, 90, 95 and 100 and one outcome, and which can be stopped from the window;
  - the window's handlers: remapping console percentages onto the progress bar,
    the two-second "settling" timer that climbs from 80 to 100, the play/save
    checkboxes, the input checks in `start_generation`, the final outcome, and the
    device/language settings dialog.
- **Voice import** (`voice_manager.py`, with `audio_utils.py` for the accuracy
  number):
  - the import thread: convert to WAV unless the file already is one, measure it,
    then copy it under the first free name `name.wav`, `name_1.wav`, `name_2.wav`, …;
  - the manager window's guards, the grid of voice cards, and the label and colour
    that describe a voice's accuracy.

Modules:

- `Wrappers`, `Text` and `Decimal` give the Python built-ins the code uses:
  `str.strip`, `str.split('\n')`, the `in` substring test, `str.lower`/`str.upper` on ASCII letters,
  `int(digits)` and `str(n)`.
- `Console`, `Worker`, `Window` and `Voices` follow the source classes.

Regular expressions are modelled as leftmost-match searches. Each one is a
function `MatchAt` that says whether the pattern matches starting at a given
position, plus `Search`, which returns the first position that matches.

Everything outside the program is an input:

- **Engine and tools.** The speech engine, ffmpeg, the WAV reader and the file copy
  are oracles. Their outcomes are a `Call<T>`: either `Returned(value)` or
  `Raised(error)`.
- **File system.** It is reduced to the set of file names already in `voices/`.
- **Stopping the worker.** A `stop()` from the window is given by the number of the
  `is_running` read at which it takes effect.
- **Qt.** A delivered signal is a method call, and a message box is an entry
  appended to a list. The two-second timer is a flag, and each timeout is one call
  to `IncrementProgress`.

Where the code and its documentation differ, the model follows the code:

- The classifier does not clamp percentages: any run of digits is reported as its value, 100 and above included.
- `start_generation` resets the progress bar to 0 but not `current_progress`.
- `on_generation_complete` moves the bar back to 80 every time it fires.
- Only the console's progress and completion signals are connected to the window.

## Model

| member | source | states |
|---|---|---|
| Text.Strip | console_capture.py:85 | `str.strip()`: the result has no whitespace at either end, and it is empty exactly when the input is all whitespace |
| Text.StripOfPadded | generation_window.py:532 | stripping blank padding from around a string with no edge whitespace returns exactly that string |
| Text.StripIdempotent | generation_window.py:545 | stripping twice is the same as stripping once |
| Text.JoinSplit | console_capture.py:85 | `'\n'.join(s.split('\n')) == s`: splitting on newlines loses no character |
| Text.SplitJoin | console_capture.py:85 | splitting the join of newline-free lines gives the lines back |
| Text.Lower | voice_manager.py:65 | `lower()` on ASCII letters: the length is kept and each character is lowered in place |
| Text.Upper | generation_window.py:678 | `upper()` on ASCII letters: the length is kept and each character is raised in place |
| Decimal.ParseFormat | console_capture.py:121-124 | `int(str(n)) == n`: the number a label shows is the one extracted |
| Decimal.FormatParse | console_capture.py:121 | a digit string without a leading zero is the decimal form of its `int` value |
| Decimal.FormatInjective | voice_manager.py:87 | distinct counters are printed as distinct numerals |
| Console.Search | console_capture.py:119 | `pattern.search`: the result is a match, no position before it matches, and `None` means that no position matches |
| Console.SearchFindsLeftmost | console_capture.py:119 | a match with no match before it is the one `search` returns |
| Console.FetchingLine | console_capture.py:119-125 | a line on which `Fetching <d1> files: <d2>%` matches at a position, and at no earlier one, reports `int(d2)` labelled `Загрузка файлов: …%`, ahead of the other patterns |
| Console.PrefixedFetchingLine | console_capture.py:119-125 | text before the pattern does not hide it: `INFO Fetching 4 files: 50%\|█` reports 50 as a download |
| Console.SamplingLine | console_capture.py:128-134 | on a line where the Fetching pattern matches nowhere, `Sampling:`, optional whitespace and `<d>%` matching at a position, and at no earlier one, reports `int(d)` labelled `Генерация речи: …%` |
| Console.GeneralBarLine | console_capture.py:137-143 | on a line with `\|` and `█` where neither named pattern matches, a maximal digit run before a `%` at which the generic pattern matches, and at no earlier position, is reported with the label `Обработка: …%` |
| Console.GeneralNeedsBar | console_capture.py:138 | without `\|` or without `█`, only the Fetching or Sampling pattern can report progress |
| Console.GeneralMatchStartsRun | console_capture.py:13 | the generic match starts a maximal digit run: no digit comes just before it |
| Console.ProgressNeedsPercent | console_capture.py:11-13 | a line without `%` never reports progress |
| Console.AbsentLiteral | console_capture.py:11-12 | without its literal text (`Fetching ` or `Sampling:`), a named pattern never matches |
| Console.ProgressUnclamped | console_capture.py:130 | any number after `Sampling:` is reported as it is, 100 and above included |
| Console.SamplingNumeral | console_capture.py:130-133 | `Sampling: <d>%` on its own reports `int(d)` |
| Console.ClassifyPriority | console_capture.py:91-114 | each line gets at most one signal, in the order completion > progress > warning > error > log; a warning, error or log signal carries the line verbatim; the line gets none exactly when no check applies |
| Console.CompletionDominates | console_capture.py:92-94 | any line mentioning `alignment_stream_analyzer` is a completion signal, whatever else it contains |
| Console.EventsOfLine | console_capture.py:88-89 | a blank line emits nothing, and any other line emits at most one signal |
| Console.EventsOfLinesAppend | console_capture.py:87 | the signals of two blocks of lines are the signals of the first block followed by those of the second |
| Console.EventsHaveSource | console_capture.py:87-114 | every emitted signal comes from a non-blank line of the chunk that classifies to it |
| Console.BlankChunkSilent | console_capture.py:85-89 | a chunk that is all whitespace emits nothing |
| Console.ChunkOfLines | console_capture.py:85-87 | a chunk made of lines joined by newlines, without edge whitespace, emits the signals of those lines in order |
| Console.ChunkOfSplit | console_capture.py:85-87 | a chunk without edge whitespace is analysed as the lines it splits into |
| Console.ChunkOfTrimmed | console_capture.py:85-87 | a chunk without edge whitespace is classified line by line, as split |
| Console.ConsoleCapture.constructor | console_capture.py:54-58 | records the `sys.stdout` and `sys.stderr` in place at construction |
| Console.ConsoleCapture.StartCapture | console_capture.py:60-63 | both slots point at the capture object; the recorded streams are untouched |
| Console.ConsoleCapture.StopCapture | console_capture.py:65-68 | both slots get back the streams recorded at construction, however many captures came before |
| Console.ConsoleCapture.AnalyzeOutput | console_capture.py:83-114 | the emitted signals grow by exactly the chunk's signals: strip, split on `'\n'`, classify each line |
| Console.ConsoleCapture.AnalyzeLines | console_capture.py:87-114 | the loop emits the signals of its lines in line order |
| Console.ConsoleCapture.AnalyzeLine | console_capture.py:88-114 | one pass of the loop body emits that line's signal, or nothing for a blank line |
| Worker.RunShape | generation_window.py:279-349 | whatever the engine does and whenever `stop()` lands, the milestones are a leading part of 5, 15, 25, 85, 90 (play only), 95 (save only), 100, and a finish report can only be the last signal |
| Worker.MilestonesRise | generation_window.py:283-340 | the milestones rise strictly and come from that list; 90 appears only when playback was asked for, and 95 only when saving was |
| Worker.AllMilestonesIncrease | generation_window.py:283-340 | the full milestone list rises strictly |
| Worker.StopOnlyTruncates | generation_window.py:274-275 | a run stopped earlier emits a prefix of the signals of the same run stopped later |
| Worker.LateStopHarmless | generation_window.py:339 | a stop that lands after the last read of `is_running` changes nothing |
| Worker.ReportOnlyUnstopped | generation_window.py:339-346 | a run that ends with a success or exception report is the run in which `stop()` never took effect |
| Worker.NoAudioReportedAfterStop | generation_window.py:305-309 | a missing audio is reported even when `stop()` landed while `generate_speech` ran |
| Worker.RunPath | generation_window.py:341-342 | a success report names a file exactly when saving was asked for and `save_audio` succeeded, and it then names `output/<filename>.wav` |
| Worker.SaveEndsFinished | generation_window.py:327-342 | from the save check on, a run never stopped ends with a finish report, whether saving is skipped, succeeds, fails or raises |
| Worker.PlayEndsFinished | generation_window.py:315-342 | from the playback check on, a run never stopped ends with a finish report |
| Worker.GenerateEndsFinished | generation_window.py:295-342 | from `generate_speech` on, a run never stopped ends with a finish report, the missing-audio one included |
| Worker.UnstoppedEndsReported | generation_window.py:277-346 | a run that is never stopped always ends with a finish report: success, missing audio, or the exception of any stage |
| Worker.GenerationWorker.constructor | generation_window.py:263-272 | stores the job and sets `is_running` |
| Worker.GenerationWorker.Stop | generation_window.py:274-275 | `stop()` only clears `is_running` |
| Worker.GenerationWorker.Run | generation_window.py:277-349 | the emitted signals are exactly the trace of this job under these engine outcomes and this stop point; a run whose stop lands after the last read of `is_running`, or never, ends with a finish report; on every way out stdout and stderr are restored |
| Worker.GenerationWorker.HandleError | generation_window.py:344-346 | an exception is reported, with its message, only while the run is not stopped |
| Worker.GenerationWorker.Load | generation_window.py:283-292 | building the engine and the 15% milestone, each step guarded by its read of the flag |
| Worker.GenerationWorker.Generate | generation_window.py:295-313 | `generate_speech`, the missing-audio report before the flag is read, then the 85% milestone |
| Worker.GenerationWorker.PlayAndSave | generation_window.py:315-325 | playback only when asked for and not stopped, with its result message |
| Worker.GenerationWorker.Save | generation_window.py:327-336 | saving only when asked for and not stopped, with its result message |
| Worker.GenerationWorker.Finish | generation_window.py:339-342 | 100% and the success report with the stripped message, unless stopped |
| Window.RemapPercentage | generation_window.py:578-586 | a label containing `Загрузка файлов` gives ⌊p/4⌋, one containing `Генерация речи` gives 25 + ⌊3p/5⌋, and any other label gives p |
| Window.RemapRanges | generation_window.py:582-584 | for p ≤ 100 the download stretch stays within 0..25, the sampling stretch within 25..85, and every result within 0..100 |
| Window.RemapMonotone | generation_window.py:582-584 | under the same label, a larger console percentage never moves the bar back |
| Window.ConsoleLabelsRemap | generation_window.py:578-590 | the classifier's own labels take the right branch: a Fetching line gives p/4, a Sampling line 25 + 3p/5, a generic bar p |
| Window.TicksBounded | generation_window.py:604-614 | from at most 100, timeouts never move the counter back and never past 100 |
| Window.TicksClimb | generation_window.py:606-609 | below 100, each timeout adds exactly one and the timer keeps running |
| Window.TicksStop | generation_window.py:610-614 | at 100 or more, the next timeout stops the timer, and later ones change nothing |
| Window.TicksSettle | generation_window.py:595-614 | from p ≤ 100, the counter is 100 with the timer stopped after 101 − p timeouts |
| Window.ValidateStart | generation_window.py:532-545 | rejects exactly a blank text, then exactly a blank file name when saving; an accepted text and file name are stripped and the file name is empty exactly when not saving |
| Window.ValidateDropsPadding | generation_window.py:532-545 | padding typed around the text and the file name is dropped, and nothing else |
| Window.FinishDialog | generation_window.py:634-648 | success opens the success dialog, whose open-folder button appears only for a saved file; failure opens a critical box with the message |
| Window.SettingsDialog.constructor | generation_window.py:158-162 | the GPU is preselected exactly when CUDA is available, and the first language always |
| Window.SettingsDialog.SelectCpu | generation_window.py:182-185 | CPU is chosen |
| Window.SettingsDialog.SelectGpu | generation_window.py:187-191 | GPU is chosen only when CUDA is available; otherwise nothing changes |
| Window.SettingsDialog.OnLanguageChanged | generation_window.py:245-247 | the chosen language index is kept |
| Window.SettingsDialog.GetDevice | generation_window.py:249-251 | `cuda` exactly when the GPU tab is chosen, which needs CUDA |
| Window.SettingsDialog.GetLanguage | generation_window.py:253-255 | the code of the chosen entry of `["ru", "en"]` |
| Window.GenerationWindow.constructor | generation_window.py:353-363 | play on, save off, the file name box disabled, the bar hidden, no timer and no worker, the device by CUDA availability and the language `ru` |
| Window.GenerationWindow.SetBarValue | generation_window.py:575 | the bar takes a value only on its 0..100 scale; any other value is ignored |
| Window.GenerationWindow.ClickPlay | generation_window.py:519-522 | a click flips play; unchecking play with save off checks save; at least one output stays chosen and the file name box follows save |
| Window.GenerationWindow.ClickSave | generation_window.py:524-528 | a click flips save; unchecking save with play off checks play; at least one output stays chosen and the file name box follows save |
| Window.GenerationWindow.OnPlayToggled | generation_window.py:519-522 | unchecking play with save off checks save |
| Window.GenerationWindow.OnSaveToggled | generation_window.py:524-528 | the file name box follows save; unchecking save with play off checks play |
| Window.GenerationWindow.StartGeneration | generation_window.py:530-571 | a blank text or, when saving, a blank file name adds one warning and changes nothing else; otherwise the controls lock, the bar shows 0 with the neutral style, the console connects, and a fresh worker runs the stripped job with the window's device and language |
| Window.GenerationWindow.Launch | generation_window.py:547-571 | the controls and the file name box lock, the bar shows 0 with `Подготовка...`, the console connects, and a fresh running worker gets the job |
| Window.GenerationWindow.OnProgressUpdated | generation_window.py:573-576 | the worker's milestone and its message reach the bar |
| Window.GenerationWindow.OnConsoleProgress | generation_window.py:578-590 | `current_progress` becomes the remapped percentage, and the bar shows it with the message |
| Window.GenerationWindow.OnGenerationComplete | generation_window.py:592-602 | the counter and the bar go to 80 and the timer runs |
| Window.GenerationWindow.IncrementProgress | generation_window.py:604-614 | one timeout is one step of the settling counter: +1 below 100 shown on the bar, else the timer stops |
| Window.GenerationWindow.OnGenerationFinished | generation_window.py:616-648 | the console disconnects, the timer stops, the controls unlock, the bar is full with `Готово` or `Ошибка` and the outcome's style, and the outcome's dialog is added |
| Window.GenerationWindow.DeliverConsoleEvent | generation_window.py:367-375 | only progress and completion reach the window, and only while connected; warning, error and log signals change nothing |
| Window.GenerationWindow.DeliverWorkerSignal | generation_window.py:569-570 | milestones go to the bar, and the outcome finishes the generation |
| Window.GenerationWindow.OpenSettings | generation_window.py:650-666 | the dialog opens on the window's current device and language |
| Window.GenerationWindow.CloseSettings | generation_window.py:669-679 | accepted choices are kept and announced, and a cancelled dialog changes nothing |
| Voices.RFind | voice_manager.py:63 | the index of the last occurrence of the character, or −1 when there is none |
| Voices.PathName | voice_manager.py:63 | the name is the part of the path after its last separator |
| Voices.PathNameFlat | voice_manager.py:54 | a path without a separator is its own name |
| Voices.Suffix | voice_manager.py:65 | the suffix is empty or is a dot followed by at least one character, with no other dot and no separator; a non-empty suffix is a proper tail of the path's name; it is empty exactly when the name's last dot is missing, starts the name or ends it |
| Voices.ConvertToWav | voice_manager.py:62-78 | a `.wav` file of any case is used as it is; anything else is converted by ffmpeg to `converted_<name>.wav` in the temporary directory, and ffmpeg's failure escapes |
| Voices.ConvertedIsWav | voice_manager.py:69 | the file ffmpeg writes is itself taken for a WAV file |
| Voices.ConvertIdempotent | voice_manager.py:62-78 | converting the result a second time returns it unchanged, without ffmpeg |
| Voices.NumberedInjective | voice_manager.py:87 | different counters give different file names |
| Voices.FreeFromIsFirstFree | voice_manager.py:84-88 | the counter the search stops at is free, and every counter before it was taken |
| Voices.UniqueTargetFirstFree | voice_manager.py:80-88 | the target is not taken; it is `<name>.wav` when that is free, and otherwise `<name>_k.wav` for the smallest free k ≥ 1 |
| Voices.UniqueTargetFlat | voice_manager.py:82-87 | for a voice name without a separator, the chosen file name has none either |
| Voices.FlatTargetReported | voice_manager.py:51-54 | for a voice name without a separator, the reported `final_path.name` is the chosen file name itself |
| Voices.AudioImportThread.FreeTarget | voice_manager.py:82-88 | the loop ends, for any finite set of names, on the first free name |
| Voices.AudioImportThread.CopyToVoices | voice_manager.py:80-91 | the first free name, or the copy's exception |
| Voices.VoiceAccuracy | audio_utils.py:25-34 | 100 from the optimal duration on; below it, exactly the duration's share of the optimum in percent; never above 100 and not negative for a non-negative duration |
| Voices.StyleOf | voice_manager.py:400-401 | the label is `Точность` exactly when accuracy ≤ 100, otherwise `Превышение`; green from 90, amber from 70 to below 90, red below 70 |
| Voices.ExcessNeverShown | voice_manager.py:400 | because the accuracy is capped at 100, an imported voice is never labelled `Превышение` |
| Voices.ImportTraceCases | voice_manager.py:36-54 | every import emits one of five sequences: cut short after 10, after 30 or after 80; 10, 30 and a failure report; or 10, 30, 50, 80, 100 and one finish report carrying the chosen file's name |
| Voices.ZeroDurationFails | voice_manager.py:41-45 | a zero duration emits 10, 30 and the failure report, and no finish report |
| Voices.ImportSucceeds | voice_manager.py:47-54 | a successful import emits 10, 30, 50, 80, 100 and then one finish report with the duration, its accuracy and `final_path.name` of a target that was free; for a voice name without a separator that name itself was free |
| Voices.AudioImportThread.Run | voice_manager.py:36-54 | the signals emitted are exactly the import's trace for the file's conversion and the given outcomes |
| Voices.AudioImportThread.Measure | voice_manager.py:41-54 | from the duration check on: the zero-duration failure, or 50, 80, the copy, 100 and the finish report with the copied file's name |
| Voices.ImportRequest | voice_manager.py:366-377 | an import goes ahead exactly when a file is chosen, the dialog is confirmed and the name is not blank; the name is stripped |
| Voices.ImportNamePadding | voice_manager.py:374-377 | padding typed around a name is dropped, and nothing else |
| Voices.GridCell | voice_manager.py:438 | card i sits at row i // 4 and column i % 4, so the column is below 4 |
| Voices.GridCellInjective | voice_manager.py:438 | different cards get different cells |
| Voices.VoiceManagerWindow.LoadVoices | voice_manager.py:421-442 | the old cards are replaced by one card per voice file, in order, at its grid cell; an empty directory shows the empty message and `Нет голосов`, otherwise the status counts the voices |
| Voices.VoiceManagerWindow.ImportVoice | voice_manager.py:360-390 | a request the guards reject changes nothing; otherwise a fresh thread for the file and the stripped name is created and a progress dialog over 0..100 opens with no step shown yet (the bar at −1) |
| Voices.VoiceManagerWindow.OnImportProgress | voice_manager.py:392-394 | with a progress dialog, a value below 100 is shown; 100 resets the bar to −1 and hides the dialog (auto-reset and auto-close); a value above 100 is ignored; without a dialog nothing changes |
| Voices.VoiceManagerWindow.OnImportFinished | voice_manager.py:396-413 | the progress dialog closes, the summary carries the accuracy's label and colour, and the voices are reloaded |
| Voices.VoiceManagerWindow.OnImportFailed | voice_manager.py:415-419 | the progress dialog closes and the reason is shown under `Ошибка импорта` |

## Left out

- The forwarding of `write` to the real stdout, and `flush`: this is stream I/O. The `captured_output` buffer is created but never used by the source.
- Real threads, Qt's event loop, `QThread.start`, and `wait(1000)` in `go_back`. A signal is a method call, and the concurrent `stop()` is the read at which it lands.
- `go_back` and `start_generation` of the manager window: window navigation only. The loading screen and `main.py` are not part of this model either.
- Widget construction, style sheets, `update_device_tabs`, `VoiceCard` and its delete button, and `SuccessDialog.open_folder`: these are presentation and external processes.
- `voice.py` (the speech engine), ffmpeg, `shutil.copy2`, the directory listing and the WAV duration reader: their outcomes are inputs.
- The HTML of the import summary, and the `%.0f` / `%.1f` float formatting: the summary is modelled as its label, colour and fields.
- The `canceled → terminate` connection of the import progress dialog: killing a thread midway has no meaning in this model.
- What PyQt does with an exception that escapes `AudioImportThread.run`: the model stops emitting at that point.
- Python's Unicode definitions of `\d`: ASCII digits only. `\s` and `strip()` use Python's `str.isspace` set.
- pathlib normalisation (`.`/`..`, repeated or Windows separators): paths are `/`-separated strings.
- Window.RemapPercentage: `int(p*0.25)` and `int(p*0.6)` are modelled as ⌊p/4⌋ and ⌊3p/5⌋. The percentage arrives through `pyqtSignal(int, str)`, a 32-bit C++ `int`, so it is below 2^31. There the float forms equal the integer ones: the error in the double `0.6` is too small to move `p*0.6` across an integer. Above 2^31 they can differ, but such a value never reaches the window.
- Console.ConsoleCapture.AnalyzeLine: a percentage of 2^31 or more cannot be emitted through `pyqtSignal(int, str)`, and PyQt raises an error out of `write`. The model emits it as an unbounded integer and does not capture that error.
- Text.Lower: ASCII case mapping only. No non-ASCII character lowers into `.wav`, so the WAV test is unaffected.
- Text.Upper: ASCII case mapping only. The language codes it raises are ASCII.
- Voices.AudioImportThread.Run: a voice name containing `/` makes the target a path under a sub-directory of `voices/`. The name set models only the flat directory, so for such names the model states only that the chosen target was free, not that `final_path.name` was.
- The import progress dialog's minimum-duration timer and its forced show: presentation only.
- Voices.VoiceAccuracy: uses exact reals for Python floats, so rounding in the division is not modelled.
- Window.GenerationWindow.OnGenerationFinished: requires the console to be connected. In the source, `_disconnect_console_signals` on unconnected signals raises `TypeError`; this cannot happen, since the outcome comes from the one worker launched while connected.
- Window.GenerationWindow.OnConsoleProgress: the bar's text shows a percentage above 100 even though `setValue` ignores it. The model states both, and leaves out Qt's repaint.
- The window keeps the device and language as the strings `cuda`/`cpu` and `ru`/`en`. No other value occurs, so they are modelled as two-valued types whose names give the strings back.
- `update_device_tabs` colouring, and the GPU tab being disabled without CUDA: presentation. `SelectGpu` ignores the click, which is the effect.
