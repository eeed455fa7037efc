/**
 * voice_manager.py: importing a voice sample (class AudioImportThread) and
 * the voice manager window's handlers around it (class VoiceManagerWindow).
 *
 * The file system is reduced to the set of file names already in the
 * `voices` directory; ffmpeg, the WAV duration reader and the file copy are
 * oracles whose outcomes are inputs.
 */
module Voices {
  import opened Wrappers
  import opened Text
  import opened Decimal
  import opened Worker
  import Console

  // ---------------------------------------------------------------------------
  // pathlib, on '/'-separated paths
  // ---------------------------------------------------------------------------

  /** `str.rfind` for one character: the index of its last occurrence, or -1. */
  function RFind(s: string, c: char): (i: int)
    ensures -1 <= i < |s|
    ensures 0 <= i ==> s[i] == c
    ensures forall j :: i < j < |s| ==> s[j] != c
  {
    if s == [] then -1
    else if s[|s| - 1] == c then |s| - 1
    else RFind(s[..|s| - 1], c)
  }

  /** The last `c` of `a + [c] + b` is the one between them when `b` has none. */
  lemma {:induction false} RFindAfter(a: string, c: char, b: string)
    requires c !in b
    ensures RFind(a + [c] + b, c) == |a|
    decreases |b|
  {
    var s := a + [c] + b;
    if b != [] {
      assert s[..|s| - 1] == a + [c] + b[..|b| - 1];
      assert b[|b| - 1] in b;
      RFindAfter(a, c, b[..|b| - 1]);
    }
  }

  /** `PurePath.name`: what follows the last separator. */
  function PathName(path: string): (name: string)
    ensures |name| <= |path| && '/' !in name && path == path[..|path| - |name|] + name
  {
    path[RFind(path, '/') + 1..]
  }

  /**
   * `PurePath.suffix`: the name from its last dot on, unless that dot
   * starts the name or ends it.
   */
  function Suffix(path: string): (suffix: string)
    ensures suffix == [] || (|suffix| >= 2 && suffix[0] == '.' && '.' !in suffix[1..] && '/' !in suffix)
    ensures suffix != [] ==>
      |suffix| < |PathName(path)| && suffix == PathName(path)[|PathName(path)| - |suffix|..]
    ensures suffix == [] <==> !(0 < RFind(PathName(path), '.') < |PathName(path)| - 1)
  {
    var name := PathName(path);
    var i := RFind(name, '.');
    if 0 < i < |name| - 1 then name[i..] else ""
  }

  /** The test `convert_to_wav` starts with: `suffix.lower() == '.wav'`. */
  predicate IsWav(path: string) {
    Lower(Suffix(path)) == ".wav"
  }

  /** The file ffmpeg writes: `converted_<voice name>.wav` in the temporary directory. */
  function ConvertedPath(tempDir: string, voiceName: string): string {
    tempDir + "/" + "converted_" + voiceName + ".wav"
  }

  /**
   * `convert_to_wav`: a WAV file is used as it is; anything else is run
   * through ffmpeg, whose failure escapes as an exception.
   */
  function ConvertToWav(inputPath: string, tempDir: string, voiceName: string, ffmpeg: Call<()>): (r: Call<string>)
    ensures IsWav(inputPath) ==> r == Returned(inputPath)
    ensures !IsWav(inputPath) ==>
      r == if ffmpeg.Raised? then Raised(ffmpeg.error) else Returned(ConvertedPath(tempDir, voiceName))
  {
    if IsWav(inputPath) then Returned(inputPath)
    else match ffmpeg
      case Raised(e) => Raised(e)
      case Returned(_) => Returned(ConvertedPath(tempDir, voiceName))
  }

  lemma {:induction false} WavSuffixLowered()
    ensures Lower(".wav") == ".wav"
  {
    var r := Lower(".wav");
    assert r[0] == '.' && r[1] == 'w' && r[2] == 'a' && r[3] == 'v';
  }

  /** What ffmpeg writes is itself taken for a WAV file, for a voice name without a separator. */
  lemma {:induction false} ConvertedIsWav(tempDir: string, voiceName: string)
    requires '/' !in voiceName
    ensures IsWav(ConvertedPath(tempDir, voiceName))
  {
    var base := "converted_" + voiceName;
    var name := base + ".wav";
    var path := ConvertedPath(tempDir, voiceName);
    assert path == tempDir + ['/'] + name;
    assert '/' !in name by {
      assert forall k :: 0 <= k < |name| ==> name[k] == (if k < 10 then "converted_"[k] else (voiceName + ".wav")[k - 10]);
    }
    RFindAfter(tempDir, '/', name);
    assert PathName(path) == name;
    assert name == base + ['.'] + "wav";
    RFindAfter(base, '.', "wav");
    assert name[|base|..] == ".wav";
    WavSuffixLowered();
  }

  /** Converting the result again changes nothing: the second call returns its input without ffmpeg. */
  lemma {:induction false} ConvertIdempotent(inputPath: string, tempDir: string, voiceName: string, first: Call<()>, second: Call<()>)
    requires '/' !in voiceName
    requires ConvertToWav(inputPath, tempDir, voiceName, first).Returned?
    ensures var path := ConvertToWav(inputPath, tempDir, voiceName, first).value;
      ConvertToWav(path, tempDir, voiceName, second) == Returned(path)
  {
    if !IsWav(inputPath) {
      ConvertedIsWav(tempDir, voiceName);
    }
  }

  // ---------------------------------------------------------------------------
  // Choosing a free file name in the voices directory
  // ---------------------------------------------------------------------------

  /** `<name>.wav`, the first choice. */
  function VoiceFile(name: string): string {
    name + ".wav"
  }

  /** `<name>_<k>.wav`, the k-th fallback. */
  function NumberedFile(name: string, k: nat): string {
    name + "_" + FormatDecimal(k) + ".wav"
  }

  /** Different counters give different file names. */
  lemma {:induction false} NumberedInjective(name: string, i: nat, j: nat)
    requires NumberedFile(name, i) == NumberedFile(name, j)
    ensures i == j
  {
    var a := NumberedFile(name, i);
    var di := FormatDecimal(i);
    var dj := FormatDecimal(j);
    assert |di| == |dj|;
    assert a[|name| + 1..|name| + 1 + |di|] == di;
    assert a[|name| + 1..|name| + 1 + |dj|] == dj;
    FormatInjective(i, j);
  }

  /**
   * The first counter from `k` on whose numbered name is not taken. Names
   * already passed over are dropped from the set, which keeps it shrinking.
   */
  function FreeFrom(existing: set<string>, name: string, k: nat): (free: nat)
    ensures k <= free
    decreases |existing|
  {
    if NumberedFile(name, k) in existing then
      FreeFrom(existing - {NumberedFile(name, k)}, name, k + 1)
    else
      k
  }

  /** The counter `FreeFrom` picks is free, and every one before it from `k` on is taken. */
  lemma {:induction false} FreeFromIsFirstFree(existing: set<string>, name: string, k: nat)
    ensures NumberedFile(name, FreeFrom(existing, name, k)) !in existing
    ensures forall j :: k <= j < FreeFrom(existing, name, k) ==> NumberedFile(name, j) in existing
    decreases |existing|
  {
    var taken := NumberedFile(name, k);
    if taken in existing {
      var rest := existing - {taken};
      FreeFromIsFirstFree(rest, name, k + 1);
      var free := FreeFrom(rest, name, k + 1);
      if NumberedFile(name, free) == taken {
        NumberedInjective(name, free, k);
      }
    }
  }

  /**
   * `copy_to_voices`' choice: `<name>.wav` when free, otherwise
   * `<name>_<k>.wav` for the smallest free counter k >= 1.
   */
  function UniqueTarget(existing: set<string>, name: string): string {
    if VoiceFile(name) !in existing then VoiceFile(name) else NumberedFile(name, FreeFrom(existing, name, 1))
  }

  /** The chosen name is free; a numbered one comes only after the plain name and every lower counter were found taken. */
  lemma {:induction false} UniqueTargetFirstFree(existing: set<string>, name: string)
    ensures UniqueTarget(existing, name) !in existing
    ensures VoiceFile(name) !in existing ==> UniqueTarget(existing, name) == VoiceFile(name)
    ensures VoiceFile(name) in existing ==>
      exists k :: 1 <= k && UniqueTarget(existing, name) == NumberedFile(name, k)
        && forall j :: 1 <= j < k ==> NumberedFile(name, j) in existing
  {
    FreeFromIsFirstFree(existing, name, 1);
  }

  /** A path without a separator is its own name. */
  lemma {:induction false} PathNameFlat(path: string)
    requires '/' !in path
    ensures PathName(path) == path
  {
    assert RFind(path, '/') == -1;
  }

  /** For a voice name without a separator, the chosen file name has none either. */
  lemma {:induction false} UniqueTargetFlat(existing: set<string>, name: string)
    requires '/' !in name
    ensures '/' !in UniqueTarget(existing, name)
  {
    var digits := FormatDecimal(FreeFrom(existing, name, 1));
    assert '/' !in digits by {
      forall i | 0 <= i < |digits| ensures digits[i] != '/' {
        assert IsDigit(digits[i]);
      }
    }
    assert '/' !in "_" && '/' !in ".wav";
  }

  // ---------------------------------------------------------------------------
  // Accuracy and its presentation
  // ---------------------------------------------------------------------------

  const OptimalDuration: real := 15.0

  /**
   * The number `calculate_voice_accuracy` returns: 100 from the optimal
   * duration on, otherwise the duration's share of it in percent, capped at 100.
   */
  function VoiceAccuracy(duration: real, optimal: real): (accuracy: real)
    requires optimal > 0.0
    ensures accuracy <= 100.0
    ensures optimal <= duration ==> accuracy == 100.0
    ensures 0.0 <= duration ==> 0.0 <= accuracy
    ensures duration < optimal ==> accuracy == (duration / optimal) * 100.0
  {
    if duration >= optimal then 100.0
    else
      var share := (duration / optimal) * 100.0;
      if share < 100.0 then share else 100.0
  }

  const AccuracyKind := "Точность"
  const ExcessKind := "Превышение"
  const Green := "#38A169"
  const Amber := "#D69E2E"
  const Red := "#E53E3E"

  datatype AccuracyStyle = AccuracyStyle(kind: string, color: string)

  /** `on_import_finished`'s label and colour: green from 90, amber from 70, red below. */
  function StyleOf(accuracy: real): (style: AccuracyStyle)
    ensures style.kind == AccuracyKind <==> accuracy <= 100.0
    ensures style.kind == ExcessKind <==> accuracy > 100.0
    ensures style.color == Green <==> 90.0 <= accuracy
    ensures style.color == Amber <==> 70.0 <= accuracy < 90.0
    ensures style.color == Red <==> accuracy < 70.0
  {
    AccuracyStyle(
      if accuracy <= 100.0 then AccuracyKind else ExcessKind,
      if accuracy >= 90.0 then Green else if accuracy >= 70.0 then Amber else Red)
  }

  /** An imported voice is never labelled as an excess: the accuracy it reports is capped at 100. */
  lemma {:induction false} ExcessNeverShown(duration: real)
    ensures StyleOf(VoiceAccuracy(duration, OptimalDuration)).kind == AccuracyKind
  {
  }

  // ---------------------------------------------------------------------------
  // AudioImportThread
  // ---------------------------------------------------------------------------

  /** The signals of the import thread. */
  datatype ImportSignal =
    | ImportProgress(value: nat)
    | ImportFinished(filename: string, duration: real, accuracy: real)
    | ImportFailed(message: string)

  /** The outcomes of the thread's calls into ffmpeg, the WAV reader and the file copy. */
  datatype ImportOutcomes = ImportOutcomes(ffmpeg: Call<()>, duration: Call<real>, copy: Call<()>)

  const DurationFailure := "Не удалось определить длительность аудио после конвертации"

  /**
   * The signals of `AudioImportThread.run`. An exception from ffmpeg, the
   * reader or the copy leaves `run` with nothing more emitted; a zero
   * duration is reported as a failure.
   */
  function ImportTrace(converted: Call<string>, voiceName: string, existing: set<string>,
                       o: ImportOutcomes): seq<ImportSignal>
  {
    [ImportProgress(10)] +
    match converted
    case Raised(_) => []
    case Returned(_) => [ImportProgress(30)] + MeasuredTrace(voiceName, existing, o)
  }

  /** The signals from the duration check on. */
  function MeasuredTrace(voiceName: string, existing: set<string>, o: ImportOutcomes): seq<ImportSignal> {
    match o.duration
    case Raised(_) => []
    case Returned(d) =>
      if d == 0.0 then [ImportFailed(DurationFailure)]
      else
        [ImportProgress(50)] + [ImportProgress(80)] +
        match o.copy
        case Raised(_) => []
        case Returned(_) =>
          [ImportProgress(100)] + [ImportFinished(PathName(UniqueTarget(existing, voiceName)), d, VoiceAccuracy(d, OptimalDuration))]
  }

  /**
   * Every run is one of five: cut short by an exception after 10, after 30
   * or after 80; a zero duration reported after 10 and 30; or the full
   * sequence 10, 30, 50, 80, 100 and one finish report.
   */
  lemma {:induction false} ImportTraceCases(converted: Call<string>, voiceName: string,
                                           existing: set<string>, o: ImportOutcomes)
    ensures var t := ImportTrace(converted, voiceName, existing, o);
      || t == [ImportProgress(10)]
      || t == [ImportProgress(10), ImportProgress(30)]
      || t == [ImportProgress(10), ImportProgress(30), ImportFailed(DurationFailure)]
      || t == [ImportProgress(10), ImportProgress(30), ImportProgress(50), ImportProgress(80)]
      || exists d: real :: t == [ImportProgress(10), ImportProgress(30), ImportProgress(50), ImportProgress(80),
           ImportProgress(100), ImportFinished(PathName(UniqueTarget(existing, voiceName)), d, VoiceAccuracy(d, OptimalDuration))]
  {
    if converted.Returned? && o.duration.Returned? && o.duration.value != 0.0 && o.copy.Returned? {
      ImportSucceeds(converted, voiceName, existing, o);
    }
  }

  /** A zero duration ends the import with a failure report after 10 and 30, and no finish report. */
  lemma {:induction false} ZeroDurationFails(converted: Call<string>, voiceName: string,
                                            existing: set<string>, o: ImportOutcomes)
    requires converted.Returned? && o.duration == Returned(0.0)
    ensures ImportTrace(converted, voiceName, existing, o) ==
      [ImportProgress(10), ImportProgress(30), ImportFailed(DurationFailure)]
  {
  }

  /**
   * A successful import reports 10, 30, 50, 80, 100 and then one finish
   * report carrying the name of a file that was free; for a voice name
   * without a separator that name itself was free.
   */
  lemma {:induction false} ImportSucceeds(converted: Call<string>, voiceName: string,
                                         existing: set<string>, o: ImportOutcomes)
    requires converted.Returned? && o.duration.Returned? && o.duration.value != 0.0 && o.copy.Returned?
    ensures ImportTrace(converted, voiceName, existing, o) ==
      [ImportProgress(10), ImportProgress(30), ImportProgress(50), ImportProgress(80), ImportProgress(100),
       ImportFinished(PathName(UniqueTarget(existing, voiceName)), o.duration.value, VoiceAccuracy(o.duration.value, OptimalDuration))]
    ensures UniqueTarget(existing, voiceName) !in existing
    ensures '/' !in voiceName ==> PathName(UniqueTarget(existing, voiceName)) !in existing
  {
    var d := o.duration.value;
    var finished := ImportFinished(PathName(UniqueTarget(existing, voiceName)), d, VoiceAccuracy(d, OptimalDuration));
    assert MeasuredTrace(voiceName, existing, o) == [ImportProgress(50), ImportProgress(80), ImportProgress(100), finished];
    UniqueTargetFirstFree(existing, voiceName);
    if '/' !in voiceName {
      FlatTargetReported(existing, voiceName);
    }
  }

  /** For a voice name without a separator, the reported name is the chosen file name itself. */
  lemma {:induction false} FlatTargetReported(existing: set<string>, name: string)
    requires '/' !in name
    ensures PathName(UniqueTarget(existing, name)) == UniqueTarget(existing, name)
  {
    UniqueTargetFlat(existing, name);
    PathNameFlat(UniqueTarget(existing, name));
  }

  /** The thread that converts, measures and copies one chosen audio file. */
  class AudioImportThread {
    const filePath: string
    const voiceName: string
    const optimalDuration: real
    var emitted: seq<ImportSignal>

    constructor(filePath: string, voiceName: string)
      ensures this.filePath == filePath && this.voiceName == voiceName
      ensures optimalDuration == OptimalDuration && emitted == []
    {
      this.filePath := filePath;
      this.voiceName := voiceName;
      optimalDuration := OptimalDuration;
      emitted := [];
    }

    /** `run`. */
    method Run(tempDir: string, existing: set<string>, o: ImportOutcomes)
      requires optimalDuration == OptimalDuration
      modifies this`emitted
      ensures emitted == old(emitted) + ImportTrace(ConvertToWav(filePath, tempDir, voiceName, o.ffmpeg), voiceName, existing, o)
    {
      emitted := emitted + [ImportProgress(10)];
      var converted := ConvertToWav(filePath, tempDir, voiceName, o.ffmpeg);
      if converted.Raised? {
        assert ImportTrace(converted, voiceName, existing, o) == [ImportProgress(10)];
        return;
      }
      emitted := emitted + [ImportProgress(30)];
      Measure(existing, o);
      Console.AppendAssoc(old(emitted), [ImportProgress(10)], [ImportProgress(30)] + MeasuredTrace(voiceName, existing, o));
      Console.AppendAssoc(old(emitted) + [ImportProgress(10)], [ImportProgress(30)], MeasuredTrace(voiceName, existing, o));
    }

    /** `run` from the duration check on. */
    method Measure(existing: set<string>, o: ImportOutcomes)
      requires optimalDuration == OptimalDuration
      modifies this`emitted
      ensures emitted == old(emitted) + MeasuredTrace(voiceName, existing, o)
    {
      if o.duration.Raised? {
        return;
      }
      var duration := o.duration.value;
      if duration == 0.0 {
        emitted := emitted + [ImportFailed(DurationFailure)];
        return;
      }
      emitted := emitted + [ImportProgress(50)];
      var accuracy := VoiceAccuracy(duration, optimalDuration);
      emitted := emitted + [ImportProgress(80)];
      var finalName := CopyToVoices(existing, o.copy);
      if finalName.Raised? {
        return;
      }
      var finalFile := PathName(finalName.value);
      emitted := emitted + [ImportProgress(100)];
      emitted := emitted + [ImportFinished(finalFile, duration, accuracy)];
      assert MeasuredTrace(voiceName, existing, o) ==
        [ImportProgress(50), ImportProgress(80), ImportProgress(100), ImportFinished(finalFile, duration, accuracy)];
    }

    /** `copy_to_voices`: pick a free name, then copy; the copy's exception escapes. */
    method CopyToVoices(existing: set<string>, copy: Call<()>) returns (r: Call<string>)
      ensures r == if copy.Raised? then Raised(copy.error) else Returned(UniqueTarget(existing, voiceName))
    {
      var target := FreeTarget(existing);
      if copy.Raised? {
        return Raised(copy.error);
      }
      return Returned(target);
    }

    /** The loop of `copy_to_voices`: try `<name>.wav`, then `<name>_1.wav`, `<name>_2.wav`, ... */
    method FreeTarget(existing: set<string>) returns (target: string)
      ensures target == UniqueTarget(existing, voiceName)
    {
      target := VoiceFile(voiceName);
      var counter: nat := 1;
      ghost var free := FreeFrom(existing, voiceName, 1);
      FreeFromIsFirstFree(existing, voiceName, 1);
      while target in existing
        invariant 1 <= counter <= free + 1
        invariant target == if counter == 1 then VoiceFile(voiceName) else NumberedFile(voiceName, counter - 1)
        invariant counter > 1 ==> VoiceFile(voiceName) in existing
        invariant forall j :: 1 <= j < counter - 1 ==> NumberedFile(voiceName, j) in existing
        decreases free + 1 - counter
      {
        target := NumberedFile(voiceName, counter);
        counter := counter + 1;
      }
    }
  }

  // ---------------------------------------------------------------------------
  // VoiceManagerWindow
  // ---------------------------------------------------------------------------

  /** `import_voice`'s guards: a chosen file, a confirmed name dialog and a non-blank name, which is stripped. */
  function ImportRequest(filePath: string, rawName: string, ok: bool): (name: Option<string>)
    ensures name.Some? <==> filePath != "" && ok && !IsBlank(rawName)
    ensures name.Some? ==> name.value != [] && Trimmed(name.value)
  {
    if filePath == "" || !ok || Strip(rawName) == [] then None else Some(Strip(rawName))
  }

  /** Blank padding typed around a name is dropped, and nothing else. */
  lemma {:induction false} ImportNamePadding(filePath: string, a: string, name: string, b: string)
    requires filePath != "" && IsBlank(a) && IsBlank(b) && Trimmed(name) && name != []
    ensures ImportRequest(filePath, a + name + b, true) == Some(name)
  {
    StripOfPadded(a, name, b);
  }

  /** The card of the i-th voice file, placed by `load_voices`. */
  datatype Card = Card(file: string, index: nat, row: nat, column: nat)

  /** `(i // 4, i % 4)`: four cards to a row, filled left to right. */
  function GridCell(i: nat): (cell: (nat, nat))
    ensures cell.1 < 4 && i == 4 * cell.0 + cell.1
  {
    (i / 4, i % 4)
  }

  /** Different cards get different cells. */
  lemma {:induction false} GridCellInjective(i: nat, j: nat)
    requires GridCell(i) == GridCell(j)
    ensures i == j
  {
  }

  function CardAt(files: seq<string>, i: nat): Card
    requires i < |files|
  {
    Card(files[i], i, GridCell(i).0, GridCell(i).1)
  }

  /** Status texts and titles of the manager window. */
  const NoVoicesStatus := "Нет голосов"
  const ImportFailedTitle := "Ошибка импорта"
  const ImportFailedPrefix := "Не удалось импортировать аудио:\n"

  function VoiceCountStatus(n: nat): string {
    "Голосов: " + FormatDecimal(n)
  }

  /** The boxes the manager window shows. */
  datatype Notice =
    | Imported(filename: string, duration: real, style: AccuracyStyle, accuracyText: string)
    | ImportError(title: string, text: string)

  /** The value of a progress bar before its first step and after a reset: one below its minimum 0. */
  const NoProgress: int := -1

  class VoiceManagerWindow {
    var cards: seq<Card>
    var emptyMessageShown: bool
    var statusText: string
    var importThread: AudioImportThread?
    /** `hasattr(self, 'progress_dialog')`: a progress dialog was ever created. */
    var hasProgressDialog: bool
    var progressDialogOpen: bool
    var progressValue: int
    var notices: seq<Notice>

    /** `load_voices`: the old cards are removed and the directory's voice files laid out anew. */
    method LoadVoices(voiceFiles: seq<string>)
      modifies this`cards, this`emptyMessageShown, this`statusText
      ensures |cards| == |voiceFiles|
      ensures forall i :: 0 <= i < |voiceFiles| ==> cards[i] == CardAt(voiceFiles, i)
      ensures emptyMessageShown <==> voiceFiles == []
      ensures statusText == if voiceFiles == [] then NoVoicesStatus else VoiceCountStatus(|voiceFiles|)
    {
      cards := [];
      emptyMessageShown := false;
      if voiceFiles == [] {
        emptyMessageShown := true;
        statusText := NoVoicesStatus;
        return;
      }
      var i := 0;
      while i < |voiceFiles|
        invariant 0 <= i <= |voiceFiles|
        invariant |cards| == i && !emptyMessageShown
        invariant forall k :: 0 <= k < i ==> cards[k] == CardAt(voiceFiles, k)
      {
        cards := cards + [CardAt(voiceFiles, i)];
        i := i + 1;
      }
      statusText := VoiceCountStatus(|voiceFiles|);
    }

    /**
     * `import_voice`: after the guards, a thread for the stripped name is
     * created and a progress dialog over 0 to 100 opened, its bar showing
     * no step yet.
     */
    method ImportVoice(filePath: string, rawName: string, ok: bool)
      modifies this`importThread, this`hasProgressDialog, this`progressDialogOpen, this`progressValue
      ensures ImportRequest(filePath, rawName, ok).None? ==>
        unchanged(this`importThread, this`hasProgressDialog, this`progressDialogOpen, this`progressValue)
      ensures ImportRequest(filePath, rawName, ok).Some? ==>
        && importThread != null && fresh(importThread)
        && importThread.filePath == filePath
        && importThread.voiceName == ImportRequest(filePath, rawName, ok).value
        && importThread.optimalDuration == OptimalDuration && importThread.emitted == []
        && hasProgressDialog && progressDialogOpen && progressValue == NoProgress
    {
      var request := ImportRequest(filePath, rawName, ok);
      if request.None? {
        return;
      }
      importThread := new AudioImportThread(filePath, request.value);
      hasProgressDialog := true;
      progressDialogOpen := true;
      progressValue := NoProgress;
    }

    /**
     * `on_import_progress`: `QProgressDialog.setValue` on the dialog's
     * 0..100 range. A value outside the range is ignored; reaching 100
     * resets the bar and, the dialog closing automatically, hides it.
     */
    method OnImportProgress(value: nat)
      modifies this`progressValue, this`progressDialogOpen
      ensures !hasProgressDialog || value > 100 ==>
        progressValue == old(progressValue) && progressDialogOpen == old(progressDialogOpen)
      ensures hasProgressDialog && value < 100 ==>
        progressValue == value && progressDialogOpen == old(progressDialogOpen)
      ensures hasProgressDialog && value == 100 ==> progressValue == NoProgress && !progressDialogOpen
    {
      if hasProgressDialog && value <= 100 {
        progressValue := value;
        if value == 100 {
          progressValue := NoProgress;
          progressDialogOpen := false;
        }
      }
    }

    /**
     * `on_import_finished`: the progress dialog closes, the summary shows
     * the accuracy's label and colour, and the voices are reloaded from the
     * directory listing `voiceFiles`.
     */
    method OnImportFinished(filename: string, duration: real, accuracy: real, accuracyText: string,
                            voiceFiles: seq<string>)
      modifies this`progressDialogOpen, this`notices, this`cards, this`emptyMessageShown, this`statusText
      ensures progressDialogOpen == (old(progressDialogOpen) && !hasProgressDialog)
      ensures notices == old(notices) + [Imported(filename, duration, StyleOf(accuracy), accuracyText)]
      ensures |cards| == |voiceFiles|
      ensures forall i :: 0 <= i < |voiceFiles| ==> cards[i] == CardAt(voiceFiles, i)
      ensures statusText == if voiceFiles == [] then NoVoicesStatus else VoiceCountStatus(|voiceFiles|)
    {
      if hasProgressDialog {
        progressDialogOpen := false;
      }
      notices := notices + [Imported(filename, duration, StyleOf(accuracy), accuracyText)];
      LoadVoices(voiceFiles);
    }

    /** `on_import_failed`: the progress dialog closes and the reason is shown. */
    method OnImportFailed(message: string)
      modifies this`progressDialogOpen, this`notices
      ensures progressDialogOpen == (old(progressDialogOpen) && !hasProgressDialog)
      ensures notices == old(notices) + [ImportError(ImportFailedTitle, ImportFailedPrefix + message)]
    {
      if hasProgressDialog {
        progressDialogOpen := false;
      }
      notices := notices + [ImportError(ImportFailedTitle, ImportFailedPrefix + message)];
    }
  }
}
