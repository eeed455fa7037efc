/**
 * generation_window.py, classes SettingsDialog and GenerationWindow: the
 * handlers that keep the progress bar, the settling timer, the two output
 * checkboxes and the device and language settings.
 *
 * Qt is reduced to the state the handlers touch. A signal delivered to a
 * slot is a method call; a message box is an entry appended to `dialogs`;
 * the two-second timer is a flag, and each of its timeouts is a call to
 * `IncrementProgress`.
 */
module Window {
  import opened Text
  import opened Decimal
  import opened Console
  import opened Worker

  // ---------------------------------------------------------------------------
  // From the console's percentage to the window's
  // ---------------------------------------------------------------------------

  /** The label fragments `on_console_progress` looks for. */
  const FetchingMark := "Загрузка файлов"
  const SamplingMark := "Генерация речи"

  /**
   * `on_console_progress`: file downloads fill the first quarter of the bar
   * (`int(percentage * 0.25)`), speech sampling the stretch from 25 to 85
   * (`25 + int(percentage * 0.6)`), and any other label is shown as it is.
   * Each product is truncated, so the result is the floor of the exact one.
   */
  function RemapPercentage(percentage: nat, message: string): (ui: nat)
    ensures Contains(message, FetchingMark) ==> 4 * ui <= percentage < 4 * ui + 4
    ensures !Contains(message, FetchingMark) && Contains(message, SamplingMark) ==>
      25 <= ui && 5 * (ui - 25) <= 3 * percentage < 5 * (ui - 25) + 5
    ensures !Contains(message, FetchingMark) && !Contains(message, SamplingMark) ==> ui == percentage
  {
    if Contains(message, FetchingMark) then percentage / 4
    else if Contains(message, SamplingMark) then 25 + 3 * percentage / 5
    else percentage
  }

  /** Console percentages up to 100 stay on the bar's scale, downloads below 25 and sampling within 25..85. */
  lemma {:induction false} RemapRanges(percentage: nat, message: string)
    requires percentage <= 100
    ensures RemapPercentage(percentage, message) <= 100
    ensures Contains(message, FetchingMark) ==> RemapPercentage(percentage, message) <= 25
    ensures !Contains(message, FetchingMark) && Contains(message, SamplingMark) ==>
      25 <= RemapPercentage(percentage, message) <= 85
  {
    var ui := RemapPercentage(percentage, message);
    if !Contains(message, FetchingMark) && Contains(message, SamplingMark) {
      assert 5 * (ui - 25) <= 300;
    }
  }

  /** A larger console percentage never moves the bar back, under the same label. */
  lemma {:induction false} RemapMonotone(p: nat, q: nat, message: string)
    requires p <= q
    ensures RemapPercentage(p, message) <= RemapPercentage(q, message)
  {
    var a := RemapPercentage(p, message);
    var b := RemapPercentage(q, message);
    if Contains(message, FetchingMark) {
      assert 4 * a < 4 * b + 4;
    } else if Contains(message, SamplingMark) {
      assert 5 * (a - 25) < 5 * (b - 25) + 5;
    }
  }

  /** None of the characters of a label's number and percent sign. */
  lemma {:induction false} LabelLacks(prefix: string, percentage: nat, c: char)
    requires c !in prefix && !IsDigit(c) && c != '%'
    ensures c !in ProgressLabel(prefix, percentage)
  {
  }

  /** `prefix` is `mark` followed by `": "`, so a label with that prefix mentions the mark. */
  lemma {:induction false} LabelContains(mark: string, percentage: nat)
    ensures Contains(ProgressLabel(mark + ": ", percentage), mark)
  {
    var rest := ": " + FormatDecimal(percentage) + "%";
    assert ProgressLabel(mark + ": ", percentage) == [] + mark + rest;
    ContainsWithin([], mark, rest);
  }

  /** A download label moves the bar to a quarter of its percentage. */
  lemma {:induction false} FetchingLabelRemap(percentage: nat)
    ensures RemapPercentage(percentage, ProgressLabel(FetchingPrefix, percentage)) == percentage / 4
  {
    assert FetchingPrefix == FetchingMark + ": ";
    LabelContains(FetchingMark, percentage);
  }

  /** A sampling label moves the bar into the 25..85 stretch. */
  lemma {:induction false} SamplingLabelRemap(percentage: nat)
    ensures RemapPercentage(percentage, ProgressLabel(SamplingPrefix, percentage)) == 25 + 3 * percentage / 5
  {
    var shown := ProgressLabel(SamplingPrefix, percentage);
    assert 'З' !in SamplingPrefix && 'З' in FetchingMark;
    LabelLacks(SamplingPrefix, percentage, 'З');
    MissingCharExcludes(shown, FetchingMark, 'З');
    assert SamplingPrefix == SamplingMark + ": ";
    LabelContains(SamplingMark, percentage);
  }

  /** The rendered-bar label shows its percentage unchanged. */
  lemma {:induction false} GeneralLabelRemap(percentage: nat)
    ensures RemapPercentage(percentage, ProgressLabel(GeneralPrefix, percentage)) == percentage
  {
    var shown := ProgressLabel(GeneralPrefix, percentage);
    assert 'З' !in GeneralPrefix && 'З' in FetchingMark;
    LabelLacks(GeneralPrefix, percentage, 'З');
    MissingCharExcludes(shown, FetchingMark, 'З');
    assert 'Г' !in GeneralPrefix && 'Г' in SamplingMark;
    LabelLacks(GeneralPrefix, percentage, 'Г');
    MissingCharExcludes(shown, SamplingMark, 'Г');
  }

  /**
   * The classifier's labels reach the right branch of the remap: a Fetching
   * line moves the bar to a quarter of its percentage, a Sampling line into
   * the 25..85 stretch, and a rendered bar shows its percentage unchanged.
   */
  lemma {:induction false} ConsoleLabelsRemap(line: string)
    requires ExtractProgress(line).Some?
    ensures var info := ExtractProgress(line).value;
      RemapPercentage(info.percentage, info.message) ==
        if Search(Fetching, line, 0).Some? then info.percentage / 4
        else if Search(Sampling, line, 0).Some? then 25 + 3 * info.percentage / 5
        else info.percentage
  {
    var p := ExtractProgress(line).value.percentage;
    if Search(Fetching, line, 0).Some? {
      FetchingLabelRemap(p);
    } else if Search(Sampling, line, 0).Some? {
      SamplingLabelRemap(p);
    } else {
      GeneralLabelRemap(p);
    }
  }

  // ---------------------------------------------------------------------------
  // The settling timer
  // ---------------------------------------------------------------------------

  /** The timer's view of the window: the current percentage and whether the timer still runs. */
  datatype Settle = Settle(progress: nat, running: bool)

  /** `increment_progress`: one more percent below 100, otherwise the timer is stopped and dropped. */
  function Tick(s: Settle): Settle {
    if s.progress < 100 then Settle(s.progress + 1, s.running) else Settle(s.progress, false)
  }

  /** The state after `n` timeouts. */
  function Ticks(s: Settle, n: nat): Settle
    decreases n
  {
    if n == 0 then s else Ticks(Tick(s), n - 1)
  }

  /** Ticking never carries the bar past 100, and never moves it back. */
  lemma {:induction false} TicksBounded(s: Settle, n: nat)
    requires s.progress <= 100
    ensures s.progress <= Ticks(s, n).progress <= 100
    decreases n
  {
    if n > 0 {
      TicksBounded(Tick(s), n - 1);
    }
  }

  /** Below 100, each of the first timeouts adds exactly one percent and leaves the timer running. */
  lemma {:induction false} TicksClimb(s: Settle, n: nat)
    requires s.progress + n <= 100
    ensures Ticks(s, n) == Settle(s.progress + n, s.running)
    decreases n
  {
    if n > 0 {
      TicksClimb(Tick(s), n - 1);
    }
  }

  /** From 100 or above, the next timeout stops the timer and later ones change nothing. */
  lemma {:induction false} TicksStop(s: Settle, n: nat)
    requires 100 <= s.progress && 0 < n
    ensures Ticks(s, n) == Settle(s.progress, false)
    decreases n
  {
    if n > 1 {
      TicksStop(Tick(s), n - 1);
    }
  }

  /** From `p` <= 100 the timer settles at 100 and stops after exactly 101 - p timeouts. */
  lemma {:induction false} TicksSettle(s: Settle, n: nat)
    requires s.progress <= 100 && 101 - s.progress <= n
    ensures Ticks(s, n) == Settle(100, false)
  {
    var climb := 100 - s.progress;
    TicksClimb(s, climb);
    TicksSplit(s, climb, n - climb);
    TicksStop(Ticks(s, climb), n - climb);
  }

  /** `n + m` timeouts are `n` timeouts followed by `m`. */
  lemma {:induction false} TicksSplit(s: Settle, n: nat, m: nat)
    ensures Ticks(s, n + m) == Ticks(Ticks(s, n), m)
    decreases n
  {
    if n > 0 {
      TicksSplit(Tick(s), n - 1, m);
    }
  }

  // ---------------------------------------------------------------------------
  // Checking the inputs of a generation
  // ---------------------------------------------------------------------------

  /** What `start_generation` decides about the text box and the file name box. */
  datatype StartCheck =
    | EmptyText
    | MissingFilename
    | Accepted(text: string, filename: string)

  /**
   * `start_generation`'s checks: the text must be non-blank; when saving, the
   * file name must be non-blank too. Both are passed on stripped, and the
   * file name is empty when nothing is saved.
   */
  function ValidateStart(rawText: string, rawFilename: string, save: bool): (r: StartCheck)
    ensures r == EmptyText <==> IsBlank(rawText)
    ensures r == MissingFilename <==> !IsBlank(rawText) && save && IsBlank(rawFilename)
    ensures r.Accepted? ==> r.text != [] && Trimmed(r.text) && Trimmed(r.filename)
    ensures r.Accepted? ==> (r.filename != [] <==> save)
  {
    var text := Strip(rawText);
    if text == [] then EmptyText
    else if save && Strip(rawFilename) == [] then MissingFilename
    else Accepted(text, if save then Strip(rawFilename) else "")
  }

  /** Blank padding around the text and the file name is dropped, and nothing else. */
  lemma {:induction false} ValidateDropsPadding(a: string, text: string, b: string, c: string, name: string, d: string)
    requires IsBlank(a) && IsBlank(b) && IsBlank(c) && IsBlank(d)
    requires Trimmed(text) && text != [] && Trimmed(name) && name != []
    ensures ValidateStart(a + text + b, c + name + d, true) == Accepted(text, name)
    ensures ValidateStart(a + text + b, c + name + d, false) == Accepted(text, "")
  {
    StripOfPadded(a, text, b);
    StripOfPadded(c, name, d);
  }

  // ---------------------------------------------------------------------------
  // The window's texts and message boxes
  // ---------------------------------------------------------------------------

  /** `f"{message} ({value}%)"`, the bar's text for a percentage. */
  function BarLabel(message: string, value: nat): string {
    message + " (" + FormatDecimal(value) + "%)"
  }

  const PreparingFormat := "Подготовка..."
  const SettlingMessage := "Подготовка к воспроизведению..."
  const DoneFormat := "Готово"
  const ErrorTitle := "Ошибка"
  const EmptyTextWarning := "Введите текст для генерации!"
  const MissingFilenameWarning := "Введите название файла!"
  const SettingsSavedTitle := "Настройки сохранены"

  /** The three style sheets the bar is given. */
  datatype BarStyle = Plain | SuccessStyle | ErrorStyle

  /** The modal boxes the window opens. */
  datatype Dialog =
    | Warning(title: string, text: string)
    | Critical(title: string, text: string)
    | Information(title: string, text: string)
    | SuccessBox(message: string, filePath: string)

  /** SuccessDialog offers its "open folder" button only for a saved file. */
  predicate OffersOpenFolder(d: Dialog) {
    d.SuccessBox? && d.filePath != ""
  }

  /** The notice `open_settings` shows once the settings are saved. */
  function SettingsNotice(device: Device, language: Language): string {
    "Устройство: " + Upper(device.Name()) + "\nЯзык: " + Upper(language.Code())
  }

  /** The finish handler's box: the success dialog, or a critical box with the worker's message. */
  function FinishDialog(success: bool, message: string, filePath: string): (d: Dialog)
    ensures OffersOpenFolder(d) <==> success && filePath != ""
    ensures d.SuccessBox? <==> success
    ensures !success ==> d.text == message
  {
    if success then SuccessBox(message, filePath) else Critical(ErrorTitle, message)
  }

  // ---------------------------------------------------------------------------
  // SettingsDialog
  // ---------------------------------------------------------------------------

  /** The window keeps the device as the string "cuda" or "cpu"; no other value ever occurs. */
  datatype Device = Cuda | Cpu {
    function Name(): string {
      if this == Cuda then "cuda" else "cpu"
    }
  }

  /** The language codes the dialog offers. */
  datatype Language = Ru | En {
    function Code(): string {
      if this == Ru then "ru" else "en"
    }
  }

  const Devices := ["GPU", "CPU"]
  const Languages := ["ru", "en"]

  /** The modal settings dialog: a GPU/CPU switch and a language box. */
  class SettingsDialog {
    const cudaAvailable: bool
    var deviceIndex: nat
    var languageIndex: nat

    /** Both indices point into their lists, and the GPU is chosen only when CUDA is there. */
    ghost predicate Valid()
      reads this
    {
      deviceIndex < |Devices| && languageIndex < |Languages| && (deviceIndex == 0 ==> cudaAvailable)
    }

    /** The GPU is preselected when CUDA is available, the first language always. */
    constructor(cudaAvailable: bool)
      ensures Valid() && this.cudaAvailable == cudaAvailable
      ensures deviceIndex == (if cudaAvailable then 0 else 1) && languageIndex == 0
    {
      this.cudaAvailable := cudaAvailable;
      deviceIndex := if cudaAvailable then 0 else 1;
      languageIndex := 0;
    }

    /** `select_cpu`. */
    method SelectCpu()
      requires Valid()
      modifies this`deviceIndex
      ensures Valid() && deviceIndex == 1
    {
      deviceIndex := 1;
    }

    /** `select_gpu`: ignored without CUDA. */
    method SelectGpu()
      requires Valid()
      modifies this`deviceIndex
      ensures Valid()
      ensures deviceIndex == if cudaAvailable then 0 else old(deviceIndex)
    {
      if cudaAvailable {
        deviceIndex := 0;
      }
    }

    /** `on_language_changed`: the combo box reports the index of one of its two entries. */
    method OnLanguageChanged(index: nat)
      requires Valid() && index < |Languages|
      modifies this`languageIndex
      ensures Valid() && languageIndex == index
    {
      languageIndex := index;
    }

    /** `get_device`: "cuda" exactly when the GPU tab is chosen, "cpu" otherwise. */
    function GetDevice(): (device: Device)
      reads this
      requires Valid()
      ensures device == Cuda <==> deviceIndex == 0
      ensures device == Cuda ==> cudaAvailable
    {
      if Devices[deviceIndex] == "GPU" then Cuda else Cpu
    }

    /** `get_language`: the chosen entry of the language list. */
    function GetLanguage(): (language: Language)
      reads this
      requires Valid()
      ensures language.Code() == Languages[languageIndex]
      ensures language == Ru <==> languageIndex == 0
    {
      if languageIndex == 0 then Ru else En
    }
  }

  // ---------------------------------------------------------------------------
  // GenerationWindow
  // ---------------------------------------------------------------------------

  class GenerationWindow {
    const voicePath: string
    const voiceName: string
    const cudaAvailable: bool
    const capture: ConsoleCapture

    var device: Device
    var language: Language

    var playChecked: bool
    var saveChecked: bool
    var filenameEnabled: bool
    /** The generate and back buttons, the text box and both checkboxes. */
    var controlsEnabled: bool

    var barVisible: bool
    var barValue: int
    var barFormat: string
    var barStyle: BarStyle

    var currentProgress: nat
    /** `progress_timer` is a running timer rather than None. */
    var timerActive: bool
    /** The console's progress and completion signals reach this window. */
    var consoleConnected: bool
    var generationThread: GenerationWorker?
    var dialogs: seq<Dialog>

    /**
     * At least one output is always chosen; the file name box is usable
     * exactly when saving is chosen and no generation runs; the console is
     * connected exactly while a generation runs; the bar stays on its scale
     * (-1 is Qt's "no value yet"); and the GPU is used only when CUDA is there.
     */
    ghost predicate Valid()
      reads this
    {
      && (playChecked || saveChecked)
      && filenameEnabled == (saveChecked && controlsEnabled)
      && consoleConnected == !controlsEnabled
      && -1 <= barValue <= 100
      && (device == Cuda ==> cudaAvailable)
    }

    /** `__init__` and `setup_ui`: play on, save off, the bar hidden and the settings at their defaults. */
    constructor(voicePath: string, voiceName: string, cudaAvailable: bool, capture: ConsoleCapture)
      ensures Valid()
      ensures this.voicePath == voicePath && this.voiceName == voiceName
      ensures this.cudaAvailable == cudaAvailable && this.capture == capture
      ensures device == (if cudaAvailable then Cuda else Cpu) && language == Ru
      ensures playChecked && !saveChecked && controlsEnabled
      ensures !barVisible && barValue == -1 && barStyle == Plain
      ensures currentProgress == 0 && !timerActive && generationThread == null && dialogs == []
    {
      this.voicePath := voicePath;
      this.voiceName := voiceName;
      this.cudaAvailable := cudaAvailable;
      this.capture := capture;
      device := if cudaAvailable then Cuda else Cpu;
      language := Ru;
      playChecked := true;
      saveChecked := false;
      filenameEnabled := false;
      controlsEnabled := true;
      barVisible := false;
      barValue := -1;
      barFormat := "";
      barStyle := Plain;
      currentProgress := 0;
      timerActive := false;
      consoleConnected := false;
      generationThread := null;
      dialogs := [];
    }

    /** QProgressBar.setValue: a value off the 0..100 scale is ignored. */
    method SetBarValue(value: int)
      modifies this`barValue
      ensures barValue == if 0 <= value <= 100 then value else old(barValue)
    {
      if 0 <= value <= 100 {
        barValue := value;
      }
    }

    // The checkboxes. `setChecked` notifies the slot only when the state changes.

    /** The user clicks the play checkbox. */
    method ClickPlay()
      requires Valid() && controlsEnabled
      modifies this`playChecked, this`saveChecked, this`filenameEnabled
      ensures Valid()
      ensures playChecked == !old(playChecked)
      ensures saveChecked == (old(saveChecked) || old(playChecked))
    {
      SetPlayChecked(!playChecked);
    }

    /** The user clicks the save checkbox. */
    method ClickSave()
      requires Valid() && controlsEnabled
      modifies this`playChecked, this`saveChecked, this`filenameEnabled
      ensures Valid()
      ensures saveChecked == !old(saveChecked)
      ensures playChecked == (old(playChecked) || old(saveChecked))
    {
      SetSaveChecked(!saveChecked);
    }

    method SetPlayChecked(checked: bool)
      requires controlsEnabled && filenameEnabled == saveChecked
      modifies this`playChecked, this`saveChecked, this`filenameEnabled
      ensures playChecked == checked && filenameEnabled == saveChecked
      ensures saveChecked == (old(saveChecked) || (old(playChecked) && !checked))
      decreases if checked then 1 else 3
    {
      if playChecked != checked {
        playChecked := checked;
        OnPlayToggled(checked);
      }
    }

    method SetSaveChecked(checked: bool)
      requires controlsEnabled && filenameEnabled == saveChecked
      modifies this`playChecked, this`saveChecked, this`filenameEnabled
      ensures saveChecked == checked && filenameEnabled == saveChecked
      ensures playChecked == (old(playChecked) || (old(saveChecked) && !checked))
      decreases if checked then 1 else 3
    {
      if saveChecked != checked {
        saveChecked := checked;
        OnSaveToggled(checked);
      }
    }

    /** `on_play_toggled`: unchecking play with save off checks save. */
    method OnPlayToggled(checked: bool)
      requires controlsEnabled && filenameEnabled == saveChecked && playChecked == checked
      modifies this`playChecked, this`saveChecked, this`filenameEnabled
      ensures playChecked == checked && filenameEnabled == saveChecked
      ensures saveChecked == (old(saveChecked) || !checked)
      decreases if checked then 0 else 2
    {
      if !checked && !saveChecked {
        SetSaveChecked(true);
      }
    }

    /** `on_save_toggled`: the file name box follows save; unchecking save with play off checks play. */
    method OnSaveToggled(checked: bool)
      requires controlsEnabled && saveChecked == checked
      modifies this`playChecked, this`saveChecked, this`filenameEnabled
      ensures saveChecked == checked && filenameEnabled == saveChecked
      ensures playChecked == (old(playChecked) || !checked)
      decreases if checked then 0 else 2
    {
      filenameEnabled := checked;
      if !checked && !playChecked {
        SetPlayChecked(true);
      }
    }

    /**
     * `start_generation`: a blank text or, when saving, a blank file name
     * only raises a warning; otherwise the generation is launched with the
     * stripped inputs.
     */
    method StartGeneration(rawText: string, rawFilename: string)
      requires Valid() && controlsEnabled
      modifies this`dialogs, this`controlsEnabled, this`filenameEnabled, this`barVisible, this`barValue
      modifies this`barFormat, this`barStyle, this`consoleConnected, this`generationThread
      ensures Valid()
      ensures Started(ValidateStart(rawText, rawFilename, saveChecked), old(dialogs))
    {
      var check := ValidateStart(rawText, rawFilename, saveChecked);
      Dispatch(check);
    }

    /** The window once `start_generation` has decided `check`. */
    twostate predicate Started(check: StartCheck, dialogsBefore: seq<Dialog>)
      reads this, generationThread
    {
      match check
      case EmptyText =>
        && dialogs == dialogsBefore + [Warning(ErrorTitle, EmptyTextWarning)]
        && unchanged(this`controlsEnabled, this`filenameEnabled, this`barVisible, this`barValue)
        && unchanged(this`barFormat, this`barStyle, this`consoleConnected, this`generationThread)
      case MissingFilename =>
        && dialogs == dialogsBefore + [Warning(ErrorTitle, MissingFilenameWarning)]
        && unchanged(this`controlsEnabled, this`filenameEnabled, this`barVisible, this`barValue)
        && unchanged(this`barFormat, this`barStyle, this`consoleConnected, this`generationThread)
      case Accepted(text, filename) =>
        && dialogs == dialogsBefore && fresh(generationThread)
        && Launched(Job(text, voicePath, playChecked, saveChecked, filename, device.Name(), language.Code()))
    }

    /** The three outcomes of `start_generation`'s checks. */
    method Dispatch(check: StartCheck)
      requires Valid() && controlsEnabled
      modifies this`dialogs, this`controlsEnabled, this`filenameEnabled, this`barVisible, this`barValue
      modifies this`barFormat, this`barStyle, this`consoleConnected, this`generationThread
      ensures Valid() && Started(check, old(dialogs))
    {
      match check
      case EmptyText =>
        dialogs := dialogs + [Warning(ErrorTitle, EmptyTextWarning)];
      case MissingFilename =>
        dialogs := dialogs + [Warning(ErrorTitle, MissingFilenameWarning)];
      case Accepted(text, filename) =>
        Launch(Job(text, voicePath, playChecked, saveChecked, filename, device.Name(), language.Code()));
    }

    /** The window while the generation of `job` runs: locked, connected, the bar at 0. */
    ghost predicate Launched(job: Job)
      reads this, generationThread
    {
      && !controlsEnabled && !filenameEnabled && consoleConnected
      && barVisible && barValue == 0 && barFormat == PreparingFormat && barStyle == Plain
      && generationThread != null
      && generationThread.job == job && generationThread.capture == capture
      && generationThread.isRunning && generationThread.emitted == []
    }

    /** The accepted branch of `start_generation`: lock the controls, reset the bar, connect, create the worker. */
    method Launch(job: Job)
      requires Valid() && controlsEnabled
      modifies this`controlsEnabled, this`filenameEnabled, this`barVisible, this`barValue
      modifies this`barFormat, this`barStyle, this`consoleConnected, this`generationThread
      ensures Valid() && Launched(job) && fresh(generationThread)
    {
      controlsEnabled := false;
      filenameEnabled := false;
      barVisible := true;
      SetBarValue(0);
      barFormat := PreparingFormat;
      barStyle := Plain;
      consoleConnected := true;
      generationThread := new GenerationWorker(job, capture);
    }

    /** `on_progress_updated`: the worker's milestone and message. */
    method OnProgressUpdated(value: nat, message: string)
      requires Valid()
      modifies this`barValue, this`barFormat
      ensures Valid()
      ensures barValue == (if value <= 100 then value else old(barValue))
      ensures barFormat == BarLabel(message, value)
    {
      SetBarValue(value);
      barFormat := BarLabel(message, value);
    }

    /** `on_console_progress`: the console's percentage, remapped onto the bar. */
    method OnConsoleProgress(percentage: nat, message: string)
      requires Valid()
      modifies this`barValue, this`barFormat, this`currentProgress
      ensures Valid()
      ensures currentProgress == RemapPercentage(percentage, message)
      ensures barValue == (if currentProgress <= 100 then currentProgress else old(barValue))
      ensures barFormat == BarLabel(message, currentProgress)
    {
      var ui := RemapPercentage(percentage, message);
      SetBarValue(ui);
      barFormat := BarLabel(message, ui);
      currentProgress := ui;
    }

    /**
     * `on_generation_complete`: the bar jumps to 80 and a fresh timer
     * starts. The previous timer, if any, lost its only reference and is
     * destroyed with it, so one timer at most ever runs.
     */
    method OnGenerationComplete()
      requires Valid()
      modifies this`barValue, this`barFormat, this`currentProgress, this`timerActive
      ensures Valid()
      ensures currentProgress == 80 && barValue == 80 && timerActive
      ensures barFormat == BarLabel(SettlingMessage, 80)
    {
      currentProgress := 80;
      SetBarValue(80);
      barFormat := BarLabel(SettlingMessage, 80);
      timerActive := true;
    }

    /** `increment_progress`, one timeout of the settling timer. */
    method IncrementProgress()
      requires Valid()
      modifies this`barValue, this`barFormat, this`currentProgress, this`timerActive
      ensures Valid()
      ensures Settle(currentProgress, timerActive) == Tick(Settle(old(currentProgress), old(timerActive)))
      ensures old(currentProgress) < 100 ==>
        barValue == currentProgress && barFormat == BarLabel(SettlingMessage, currentProgress)
      ensures 100 <= old(currentProgress) ==> unchanged(this`barValue, this`barFormat)
    {
      if currentProgress < 100 {
        currentProgress := currentProgress + 1;
        SetBarValue(currentProgress);
        barFormat := BarLabel(SettlingMessage, currentProgress);
      } else {
        timerActive := false;
      }
    }

    /**
     * `on_generation_finished`: the console is disconnected, the timer
     * stopped, the controls unlocked, and the bar full with the outcome's
     * text and colour; then the outcome's dialog is shown.
     */
    method OnGenerationFinished(success: bool, message: string, filePath: string)
      requires Valid() && consoleConnected
      modifies this`consoleConnected, this`timerActive, this`controlsEnabled, this`filenameEnabled
      modifies this`barValue, this`barFormat, this`barStyle, this`dialogs
      ensures Valid()
      ensures !consoleConnected && !timerActive && controlsEnabled && filenameEnabled == saveChecked
      ensures barValue == 100
      ensures barFormat == (if success then DoneFormat else ErrorTitle)
      ensures barStyle == (if success then SuccessStyle else ErrorStyle)
      ensures dialogs == old(dialogs) + [FinishDialog(success, message, filePath)]
    {
      consoleConnected, timerActive := false, false;
      controlsEnabled, filenameEnabled := true, saveChecked;
      SetBarValue(100);
      barFormat := if success then DoneFormat else ErrorTitle;
      barStyle := if success then SuccessStyle else ErrorStyle;
      dialogs := dialogs + [FinishDialog(success, message, filePath)];
    }

    /**
     * The console's signals while connected: progress goes to
     * `on_console_progress`, completion to `on_generation_complete`; the
     * log, warning and error signals have no slot in this window.
     */
    method DeliverConsoleEvent(e: Event)
      requires Valid()
      modifies this`barValue, this`barFormat, this`currentProgress, this`timerActive
      ensures Valid()
      ensures !old(consoleConnected) || !(e.ProgressDetected? || e.GenerationComplete?) ==>
        unchanged(this`barValue, this`barFormat, this`currentProgress, this`timerActive)
      ensures old(consoleConnected) && e.ProgressDetected? ==>
        currentProgress == RemapPercentage(e.percentage, e.message) && timerActive == old(timerActive)
      ensures old(consoleConnected) && e.GenerationComplete? ==> currentProgress == 80 && timerActive
    {
      if consoleConnected {
        match e
        case ProgressDetected(percentage, message) => OnConsoleProgress(percentage, message);
        case GenerationComplete => OnGenerationComplete();
        case _ =>
      }
    }

    /** The worker's signals: milestones to `on_progress_updated`, the outcome to `on_generation_finished`. */
    method DeliverWorkerSignal(signal: WorkerSignal)
      requires Valid() && consoleConnected
      modifies this`consoleConnected, this`timerActive, this`controlsEnabled, this`filenameEnabled
      modifies this`barValue, this`barFormat, this`barStyle, this`dialogs
      ensures Valid()
      ensures signal.Progress? ==>
        && barFormat == BarLabel(signal.message, signal.value)
        && unchanged(this`consoleConnected, this`timerActive, this`controlsEnabled, this`dialogs)
      ensures signal.Finished? ==>
        && !consoleConnected && !timerActive && controlsEnabled && barValue == 100
        && dialogs == old(dialogs) + [FinishDialog(signal.success, signal.message, signal.filePath)]
    {
      match signal
      case Progress(value, message) => OnProgressUpdated(value, message);
      case Finished(success, message, filePath) => OnGenerationFinished(success, message, filePath);
    }

    /** `open_settings`, up to showing the dialog: it opens on the window's current choices. */
    method OpenSettings() returns (dialog: SettingsDialog)
      requires Valid()
      ensures fresh(dialog) && dialog.Valid() && dialog.cudaAvailable == cudaAvailable
      ensures dialog.GetDevice() == device && dialog.GetLanguage() == language
    {
      dialog := new SettingsDialog(cudaAvailable);
      dialog.deviceIndex := if device == Cuda then 0 else 1;
      dialog.languageIndex := if language == Ru then 0 else 1;
    }

    /** `open_settings`, after the dialog closes: accepted choices are kept and announced. */
    method CloseSettings(dialog: SettingsDialog, accepted: bool)
      requires Valid() && dialog.Valid() && dialog.cudaAvailable == cudaAvailable
      modifies this`device, this`language, this`dialogs
      ensures Valid()
      ensures accepted ==>
        && device == dialog.GetDevice() && language == dialog.GetLanguage()
        && dialogs == old(dialogs) + [Information(SettingsSavedTitle, SettingsNotice(device, language))]
      ensures !accepted ==> unchanged(this`device, this`language, this`dialogs)
    {
      if accepted {
        device := dialog.GetDevice();
        language := dialog.GetLanguage();
        dialogs := dialogs + [Information(SettingsSavedTitle, SettingsNotice(device, language))];
      }
    }
  }
}
