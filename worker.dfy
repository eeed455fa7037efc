/**
 * generation_window.py, class GenerationWorker: the thread that drives one
 * speech generation, reporting milestones and exactly one outcome.
 *
 * The engine (`VoiceGenerator`) is an oracle: what each call returns or
 * raises is an input. `stop()` runs on another thread; since it only ever
 * clears `is_running`, all that matters is which read of the flag is the
 * first to see it cleared. The run reads the flag at most `MaxReads` times,
 * and `stopAt` numbers the read at which a pending `stop()` has landed.
 */
module Worker {
  import opened Text
  import opened Console

  /** The arguments the window passes to the worker. */
  datatype Job = Job(
    text: string,
    voicePath: string,
    playAfter: bool,
    saveFile: bool,
    filename: string,
    device: string,
    language: string)

  /** What one engine call did: returned a value or raised an exception with a message. */
  datatype Call<T> = Returned(value: T) | Raised(error: string)

  /** The outcomes of the engine calls of one run. */
  datatype Engine = Engine(
    init: Call<()>,        // VoiceGenerator(device=..., language=...)
    generate: Call<bool>,  // generate_speech: true when audio came back, false for None
    play: Call<bool>,      // play_audio: its success flag
    save: Call<bool>)      // mkdir + save_audio: its success flag

  /** The two signals: progress_updated(int, str) and generation_finished(bool, str, str). */
  datatype WorkerSignal =
    | Progress(value: nat, message: string)
    | Finished(success: bool, message: string, filePath: string)

  const MsgLaunch := "Запуск программы..."
  const MsgLoadModel := "Загрузка модели TTS..."
  const MsgPrepareText := "Подготовка текста..."
  const MsgProcessing := "Обработка результатов..."
  const MsgPlaying := "Воспроизведение аудио..."
  const MsgSaving := "Сохранение файла..."
  const MsgDone := "Генерация завершена!"
  const ErrorPrefix := "Ошибка генерации: "
  const MsgNoAudio := "Ошибка генерации: не удалось сгенерировать аудио"
  const MsgPlayed := "Аудио воспроизведено. "
  const MsgPlayFailed := "Ошибка воспроизведения. "
  const MsgSaveFailed := "Ошибка сохранения файла."

  /** `str(Path("output") / f"{filename}.wav")`, with POSIX separators. */
  function OutputPath(filename: string): string {
    "output/" + filename + ".wav"
  }

  function SavedMessage(filename: string): string {
    "Файл сохранен как: " + filename + ".wav"
  }

  /** A run reads `is_running` at most this many times (reads 0 to 6). */
  const MaxReads: nat := 7

  // ---------------------------------------------------------------------------
  // The signals of one run. `s` is the number of reads of `is_running` that
  // still see it set: read `k` sees the flag set exactly when `k < s`.
  // ---------------------------------------------------------------------------

  /** The `except` handler, reached after `k` reads: a failure report unless stopped. */
  function Failure(error: string, k: nat, s: nat): seq<WorkerSignal> {
    if k < s then [Finished(false, ErrorPrefix + error, "")] else []
  }

  /** The body of the `try` block of `run`: launch milestone, then read 0. */
  function RunTrace(job: Job, engine: Engine, s: nat): seq<WorkerSignal> {
    [Progress(5, MsgLaunch)] + LoadTrace(job, engine, s)
  }

  /** Building the engine, the model-loading milestone, then read 1. */
  function LoadTrace(job: Job, engine: Engine, s: nat): seq<WorkerSignal> {
    if s <= 0 then []
    else
      match engine.init
      case Raised(e) => Failure(e, 1, s)
      case Returned(_) => [Progress(15, MsgLoadModel)] + PrepareTrace(job, engine, s)
  }

  /** The text-preparation milestone, then read 2. */
  function PrepareTrace(job: Job, engine: Engine, s: nat): seq<WorkerSignal> {
    if s <= 1 then [] else [Progress(25, MsgPrepareText)] + GenerateTrace(job, engine, s)
  }

  /**
   * generate_speech, then read 3. A missing audio is reported before that
   * read, so it is reported even when the run was stopped meanwhile.
   */
  function GenerateTrace(job: Job, engine: Engine, s: nat): seq<WorkerSignal> {
    if s <= 2 then []
    else
      match engine.generate
      case Raised(e) => Failure(e, 3, s)
      case Returned(audio) =>
        if !audio then [Finished(false, MsgNoAudio, "")]
        else if s <= 3 then []
        else [Progress(85, MsgProcessing)] + PlayTrace(job, engine, s)
  }

  /** From the playback check on: playback reads the flag only when it was requested. */
  function PlayTrace(job: Job, engine: Engine, s: nat): seq<WorkerSignal> {
    if job.playAfter && 4 < s then
      [Progress(90, MsgPlaying)] +
      match engine.play
      case Raised(e) => Failure(e, 5, s)
      case Returned(ok) => SaveTrace(job, engine, 5, s, if ok then MsgPlayed else MsgPlayFailed)
    else
      SaveTrace(job, engine, if job.playAfter then 5 else 4, s, "")
  }

  /** From the save check on, after `k` reads, with the result message so far. */
  function SaveTrace(job: Job, engine: Engine, k: nat, s: nat, message: string): seq<WorkerSignal> {
    if job.saveFile && k < s then
      [Progress(95, MsgSaving)] +
      match engine.save
      case Raised(e) => Failure(e, k + 1, s)
      case Returned(ok) =>
        FinalTrace(job, ok, k + 1, s, message + if ok then SavedMessage(job.filename) else MsgSaveFailed)
    else
      FinalTrace(job, false, if job.saveFile then k + 1 else k, s, message)
  }

  /** The closing check: 100% and the success report, unless stopped. */
  function FinalTrace(job: Job, saved: bool, k: nat, s: nat, message: string): seq<WorkerSignal> {
    if k < s then
      [Progress(100, MsgDone)] +
      [Finished(true, Strip(message), if job.saveFile && saved then OutputPath(job.filename) else "")]
    else
      []
  }

  // ---------------------------------------------------------------------------
  // Shape of the trace
  // ---------------------------------------------------------------------------

  /** The milestone percentages of a trace, in order. */
  function Milestones(t: seq<WorkerSignal>): (ms: seq<nat>)
    ensures |ms| <= |t|
  {
    if t == [] then []
    else (if t[0].Progress? then [t[0].value] else []) + Milestones(t[1..])
  }

  lemma {:induction false} MilestonesAppend(a: seq<WorkerSignal>, b: seq<WorkerSignal>)
    ensures Milestones(a + b) == Milestones(a) + Milestones(b)
    decreases |a|
  {
    if a != [] {
      assert (a + b)[1..] == a[1..] + b;
      MilestonesAppend(a[1..], b);
    } else {
      assert a + b == b;
    }
  }

  predicate StrictlyIncreasing(xs: seq<nat>) {
    forall i, j :: 0 <= i < j < |xs| ==> xs[i] < xs[j]
  }

  /** Only the last signal may be a finish report, so there is at most one. */
  predicate FinishedOnlyLast(t: seq<WorkerSignal>) {
    forall i :: 0 <= i < |t| - 1 ==> t[i].Progress?
  }

  predicate EndsFinished(t: seq<WorkerSignal>) {
    t != [] && t[|t| - 1].Finished?
  }

  /** `t` reports a leading part of the milestones `ms`, and a finish report only as its last signal. */
  predicate Shaped(t: seq<WorkerSignal>, ms: seq<nat>) {
    Milestones(t) <= ms && FinishedOnlyLast(t)
  }

  lemma {:induction false} ShapedEnd(t: seq<WorkerSignal>, ms: seq<nat>)
    requires |t| <= 1 && (t != [] ==> t[0].Finished?)
    ensures Shaped(t, ms)
  {
    if t != [] {
      assert t[1..] == [];
    }
  }

  lemma {:induction false} ShapedCons(v: nat, m: string, t: seq<WorkerSignal>, ms: seq<nat>)
    requires Shaped(t, ms)
    ensures Shaped([Progress(v, m)] + t, [v] + ms)
  {
    var t' := [Progress(v, m)] + t;
    assert t'[1..] == t;
    assert forall i :: 1 <= i < |t'| ==> t'[i] == t[i - 1];
  }

  lemma {:induction false} ShapedExtend(t: seq<WorkerSignal>, ms: seq<nat>, more: seq<nat>)
    requires Shaped(t, ms)
    ensures Shaped(t, ms + more)
  {
  }

  /** A stage after `k` reads is silent once the flag is cleared before read `k`. */
  lemma {:induction false} StoppedStagesSilent(job: Job, engine: Engine, k: nat, s: nat, message: string)
    requires s <= k
    ensures SaveTrace(job, engine, k, s, message) == []
    ensures forall saved: bool, k' :: k <= k' ==> FinalTrace(job, saved, k', s, message) == []
  {
  }

  lemma {:induction false} FinalShape(job: Job, saved: bool, k: nat, s: nat, message: string)
    ensures Shaped(FinalTrace(job, saved, k, s, message), [100])
  {
    var t := FinalTrace(job, saved, k, s, message);
    if k < s {
      ShapedEnd(t[1..], []);
      ShapedCons(100, MsgDone, t[1..], []);
      assert t == [t[0]] + t[1..];
    } else {
      ShapedEnd(t, [100]);
    }
  }

  /** The milestones from the save check on. */
  function SaveMilestones(job: Job): seq<nat> {
    (if job.saveFile then [95] else []) + [100]
  }

  lemma {:induction false} SaveShape(job: Job, engine: Engine, k: nat, s: nat, message: string)
    ensures Shaped(SaveTrace(job, engine, k, s, message), SaveMilestones(job))
  {
    var t := SaveTrace(job, engine, k, s, message);
    if job.saveFile && k < s {
      var rest := t[1..];
      match engine.save
      case Raised(e) => {
        ShapedEnd(rest, [100]);
      }
      case Returned(ok) => {
        FinalShape(job, ok, k + 1, s, message + if ok then SavedMessage(job.filename) else MsgSaveFailed);
      }
      ShapedCons(95, MsgSaving, rest, [100]);
      assert t == [Progress(95, MsgSaving)] + rest;
    } else if job.saveFile {
      StoppedStagesSilent(job, engine, k, s, message);
      ShapedEnd(t, SaveMilestones(job));
    } else {
      FinalShape(job, false, k, s, message);
      assert SaveMilestones(job) == [100];
    }
  }

  /** The milestones from the playback check on. */
  function PlayMilestones(job: Job): seq<nat> {
    (if job.playAfter then [90] else []) + SaveMilestones(job)
  }

  lemma {:induction false} PlayShape(job: Job, engine: Engine, s: nat)
    ensures Shaped(PlayTrace(job, engine, s), PlayMilestones(job))
  {
    var t := PlayTrace(job, engine, s);
    if job.playAfter && 4 < s {
      var rest := t[1..];
      match engine.play
      case Raised(e) => {
        ShapedEnd(rest, SaveMilestones(job));
      }
      case Returned(ok) => {
        SaveShape(job, engine, 5, s, if ok then MsgPlayed else MsgPlayFailed);
      }
      ShapedCons(90, MsgPlaying, rest, SaveMilestones(job));
      assert t == [Progress(90, MsgPlaying)] + rest;
    } else if job.playAfter {
      StoppedStagesSilent(job, engine, 5, s, "");
      ShapedEnd(t, PlayMilestones(job));
    } else {
      SaveShape(job, engine, 4, s, "");
      assert PlayMilestones(job) == SaveMilestones(job);
    }
  }

  /** Every milestone a run can report, in the order it reports them. */
  function AllMilestones(job: Job): seq<nat> {
    [5, 15, 25, 85] + PlayMilestones(job)
  }

  lemma {:induction false} GenerateShape(job: Job, engine: Engine, s: nat)
    ensures Shaped(GenerateTrace(job, engine, s), [85] + PlayMilestones(job))
  {
    var t := GenerateTrace(job, engine, s);
    if 3 < s && engine.generate == Returned(true) {
      PlayShape(job, engine, s);
      ShapedCons(85, MsgProcessing, PlayTrace(job, engine, s), PlayMilestones(job));
    } else {
      ShapedEnd(t, [85] + PlayMilestones(job));
    }
  }

  lemma {:induction false} LoadShape(job: Job, engine: Engine, s: nat)
    ensures Shaped(LoadTrace(job, engine, s), [15, 25, 85] + PlayMilestones(job))
  {
    var rest := [85] + PlayMilestones(job);
    var t := LoadTrace(job, engine, s);
    if 0 < s && engine.init.Returned? {
      var p := PrepareTrace(job, engine, s);
      if 1 < s {
        GenerateShape(job, engine, s);
        ShapedCons(25, MsgPrepareText, GenerateTrace(job, engine, s), rest);
      } else {
        ShapedEnd(p, [25] + rest);
      }
      ShapedCons(15, MsgLoadModel, p, [25] + rest);
      assert [15] + ([25] + rest) == [15, 25, 85] + PlayMilestones(job);
    } else {
      ShapedEnd(t, [15, 25, 85] + PlayMilestones(job));
    }
  }

  /**
   * The milestones of any run, however the engine behaves and whenever it is
   * stopped, are the first few of 5, 15, 25, 85, 90 (only when playing),
   * 95 (only when saving), 100; at most one finish report is sent and it is
   * the last signal.
   */
  lemma {:induction false} RunShape(job: Job, engine: Engine, s: nat)
    ensures Shaped(RunTrace(job, engine, s), AllMilestones(job))
  {
    LoadShape(job, engine, s);
    ShapedCons(5, MsgLaunch, LoadTrace(job, engine, s), [15, 25, 85] + PlayMilestones(job));
    assert [5] + ([15, 25, 85] + PlayMilestones(job)) == AllMilestones(job);
  }

  lemma {:induction false} AllMilestonesIncrease(job: Job)
    ensures StrictlyIncreasing(AllMilestones(job))
  {
    var all := AllMilestones(job);
    if job.playAfter && job.saveFile {
      assert all == [5, 15, 25, 85, 90, 95, 100];
    } else if job.playAfter {
      assert all == [5, 15, 25, 85, 90, 100];
    } else if job.saveFile {
      assert all == [5, 15, 25, 85, 95, 100];
    } else {
      assert all == [5, 15, 25, 85, 100];
    }
  }

  /**
   * The milestones of every run rise strictly and come from the list above;
   * 90 is reported only when playback was asked for and 95 only when saving was.
   */
  lemma {:induction false} MilestonesRise(job: Job, engine: Engine, s: nat)
    ensures StrictlyIncreasing(Milestones(RunTrace(job, engine, s)))
    ensures forall v :: v in Milestones(RunTrace(job, engine, s)) ==> v in AllMilestones(job)
    ensures 90 in Milestones(RunTrace(job, engine, s)) ==> job.playAfter
    ensures 95 in Milestones(RunTrace(job, engine, s)) ==> job.saveFile
  {
    var ms := Milestones(RunTrace(job, engine, s));
    var all := AllMilestones(job);
    RunShape(job, engine, s);
    AllMilestonesIncrease(job);
    assert ms == all[..|ms|];
    forall v | v in ms ensures v in all {
      var i :| 0 <= i < |ms| && ms[i] == v;
      assert all[i] == v;
    }
    assert 90 in all ==> job.playAfter;
    assert 95 in all ==> job.saveFile;
  }

  // ---------------------------------------------------------------------------
  // What stop() can do
  // ---------------------------------------------------------------------------

  lemma {:induction false} PrefixCons(x: WorkerSignal, a: seq<WorkerSignal>, b: seq<WorkerSignal>)
    requires a <= b
    ensures [x] + a <= [x] + b
  {
    assert ([x] + b)[..|[x] + a|] == [x] + b[..|a|];
  }

  lemma {:induction false} SavePrefix(job: Job, engine: Engine, k: nat, s1: nat, s2: nat, message: string)
    requires s1 <= s2
    ensures SaveTrace(job, engine, k, s1, message) <= SaveTrace(job, engine, k, s2, message)
  {
    if job.saveFile && k < s1 {
      var t1 := SaveTrace(job, engine, k, s1, message);
      var t2 := SaveTrace(job, engine, k, s2, message);
      PrefixCons(Progress(95, MsgSaving), t1[1..], t2[1..]);
      assert t1 == [t1[0]] + t1[1..] && t2 == [t2[0]] + t2[1..];
    }
  }

  lemma {:induction false} PlayPrefix(job: Job, engine: Engine, s1: nat, s2: nat)
    requires s1 <= s2
    ensures PlayTrace(job, engine, s1) <= PlayTrace(job, engine, s2)
  {
    var t1 := PlayTrace(job, engine, s1);
    var t2 := PlayTrace(job, engine, s2);
    if job.playAfter && 4 < s1 {
      if engine.play.Returned? {
        SavePrefix(job, engine, 5, s1, s2, if engine.play.value then MsgPlayed else MsgPlayFailed);
      }
      PrefixCons(Progress(90, MsgPlaying), t1[1..], t2[1..]);
      assert t1 == [t1[0]] + t1[1..] && t2 == [t2[0]] + t2[1..];
    } else if job.playAfter {
      StoppedStagesSilent(job, engine, 5, s1, "");
    } else {
      SavePrefix(job, engine, 4, s1, s2, "");
    }
  }

  lemma {:induction false} GeneratePrefix(job: Job, engine: Engine, s1: nat, s2: nat)
    requires s1 <= s2
    ensures GenerateTrace(job, engine, s1) <= GenerateTrace(job, engine, s2)
  {
    if 3 < s1 && engine.generate == Returned(true) {
      PlayPrefix(job, engine, s1, s2);
      PrefixCons(Progress(85, MsgProcessing), PlayTrace(job, engine, s1), PlayTrace(job, engine, s2));
    }
  }

  lemma {:induction false} LoadPrefix(job: Job, engine: Engine, s1: nat, s2: nat)
    requires s1 <= s2
    ensures LoadTrace(job, engine, s1) <= LoadTrace(job, engine, s2)
  {
    if 0 < s1 && engine.init.Returned? {
      if 1 < s1 {
        GeneratePrefix(job, engine, s1, s2);
        PrefixCons(Progress(25, MsgPrepareText), GenerateTrace(job, engine, s1), GenerateTrace(job, engine, s2));
      }
      PrefixCons(Progress(15, MsgLoadModel), PrepareTrace(job, engine, s1), PrepareTrace(job, engine, s2));
    }
  }

  /**
   * Stopping earlier only cuts a run short: the signals of a run stopped at
   * an earlier read are a prefix of those of the same run stopped later.
   */
  lemma {:induction false} StopOnlyTruncates(job: Job, engine: Engine, s1: nat, s2: nat)
    requires s1 <= s2
    ensures RunTrace(job, engine, s1) <= RunTrace(job, engine, s2)
  {
    LoadPrefix(job, engine, s1, s2);
    PrefixCons(Progress(5, MsgLaunch), LoadTrace(job, engine, s1), LoadTrace(job, engine, s2));
  }

  /** A stop that lands after the last read of the flag changes nothing. */
  lemma {:induction false} LateStopHarmless(job: Job, engine: Engine, s: nat)
    requires MaxReads <= s
    ensures RunTrace(job, engine, s) == RunTrace(job, engine, MaxReads)
  {
    if engine.init.Returned? && engine.generate == Returned(true) {
      var msg := if engine.play.Returned? && engine.play.value then MsgPlayed
        else if engine.play.Returned? then MsgPlayFailed else "";
      assert SaveTrace(job, engine, 5, s, msg) == SaveTrace(job, engine, 5, MaxReads, msg);
      assert SaveTrace(job, engine, 4, s, "") == SaveTrace(job, engine, 4, MaxReads, "");
      assert PlayTrace(job, engine, s) == PlayTrace(job, engine, MaxReads);
    }
  }

  /** From the save check on, a run that is never stopped ends with a finish report. */
  lemma {:induction false} SaveEndsFinished(job: Job, engine: Engine, k: nat, message: string)
    requires k <= 5
    ensures EndsFinished(SaveTrace(job, engine, k, MaxReads, message))
  {
    if job.saveFile {
      match engine.save
      case Raised(e) =>
        assert SaveTrace(job, engine, k, MaxReads, message) == [Progress(95, MsgSaving)] + Failure(e, k + 1, MaxReads);
      case Returned(ok) =>
        var m := message + if ok then SavedMessage(job.filename) else MsgSaveFailed;
        FinalEndsFinished(job, ok, k + 1, m);
        assert SaveTrace(job, engine, k, MaxReads, message) == [Progress(95, MsgSaving)] + FinalTrace(job, ok, k + 1, MaxReads, m);
    } else {
      FinalEndsFinished(job, false, k, message);
    }
  }

  /** The closing check of a run that is never stopped always reports. */
  lemma {:induction false} FinalEndsFinished(job: Job, saved: bool, k: nat, message: string)
    requires k < MaxReads
    ensures FinalTrace(job, saved, k, MaxReads, message) ==
      [Progress(100, MsgDone), Finished(true, Strip(message), if job.saveFile && saved then OutputPath(job.filename) else "")]
  {
  }

  /** From the playback check on, a run that is never stopped ends with a finish report. */
  lemma {:induction false} PlayEndsFinished(job: Job, engine: Engine)
    ensures EndsFinished(PlayTrace(job, engine, MaxReads))
  {
    if job.playAfter {
      match engine.play
      case Raised(e) =>
        assert PlayTrace(job, engine, MaxReads) == [Progress(90, MsgPlaying)] + Failure(e, 5, MaxReads);
      case Returned(ok) =>
        var msg := if ok then MsgPlayed else MsgPlayFailed;
        SaveEndsFinished(job, engine, 5, msg);
        assert PlayTrace(job, engine, MaxReads) == [Progress(90, MsgPlaying)] + SaveTrace(job, engine, 5, MaxReads, msg);
    } else {
      SaveEndsFinished(job, engine, 4, "");
    }
  }

  /** From `generate_speech` on, a run that is never stopped ends with a finish report. */
  lemma {:induction false} GenerateEndsFinished(job: Job, engine: Engine)
    ensures EndsFinished(GenerateTrace(job, engine, MaxReads))
  {
    if engine.generate == Returned(true) {
      PlayEndsFinished(job, engine);
      assert GenerateTrace(job, engine, MaxReads) == [Progress(85, MsgProcessing)] + PlayTrace(job, engine, MaxReads);
    }
  }

  /**
   * A run that is never stopped always ends with a finish report: every
   * outcome of every stage, success or exception, reaches one.
   */
  lemma {:induction false} UnstoppedEndsReported(job: Job, engine: Engine)
    ensures EndsFinished(RunTrace(job, engine, MaxReads))
  {
    var t := LoadTrace(job, engine, MaxReads);
    if engine.init.Returned? {
      GenerateEndsFinished(job, engine);
      assert t == [Progress(15, MsgLoadModel)] + ([Progress(25, MsgPrepareText)] + GenerateTrace(job, engine, MaxReads));
    }
    assert EndsFinished(t);
  }

  /** The run ends with a finish report other than the missing-audio one. */
  predicate Reported(t: seq<WorkerSignal>) {
    EndsFinished(t) && t[|t| - 1] != Finished(false, MsgNoAudio, "")
  }

  lemma {:induction false} ReportedCons(x: WorkerSignal, t: seq<WorkerSignal>)
    requires x.Progress? && Reported([x] + t)
    ensures Reported(t)
  {
    assert ([x] + t)[|[x] + t| - 1] == t[|t| - 1];
  }

  lemma {:induction false} SaveReported(job: Job, engine: Engine, k: nat, s: nat, message: string)
    requires k <= 5 && Reported(SaveTrace(job, engine, k, s, message))
    ensures SaveTrace(job, engine, k, s, message) == SaveTrace(job, engine, k, MaxReads, message)
  {
    var t := SaveTrace(job, engine, k, s, message);
    if job.saveFile && k < s {
      ReportedCons(Progress(95, MsgSaving), t[1..]);
      assert t == [Progress(95, MsgSaving)] + t[1..];
    }
  }

  lemma {:induction false} PlayReported(job: Job, engine: Engine, s: nat)
    requires Reported(PlayTrace(job, engine, s))
    ensures PlayTrace(job, engine, s) == PlayTrace(job, engine, MaxReads)
  {
    var t := PlayTrace(job, engine, s);
    if job.playAfter && 4 < s {
      ReportedCons(Progress(90, MsgPlaying), t[1..]);
      assert t == [Progress(90, MsgPlaying)] + t[1..];
      if engine.play.Returned? {
        SaveReported(job, engine, 5, s, if engine.play.value then MsgPlayed else MsgPlayFailed);
      }
    } else if job.playAfter {
      assert false;
    } else {
      SaveReported(job, engine, 4, s, "");
    }
  }

  lemma {:induction false} GenerateReported(job: Job, engine: Engine, s: nat)
    requires Reported(GenerateTrace(job, engine, s))
    ensures GenerateTrace(job, engine, s) == GenerateTrace(job, engine, MaxReads)
  {
    if 3 < s && engine.generate == Returned(true) {
      ReportedCons(Progress(85, MsgProcessing), PlayTrace(job, engine, s));
      PlayReported(job, engine, s);
    }
  }

  lemma {:induction false} LoadReported(job: Job, engine: Engine, s: nat)
    requires Reported(LoadTrace(job, engine, s))
    ensures LoadTrace(job, engine, s) == LoadTrace(job, engine, MaxReads)
  {
    if 0 < s && engine.init.Returned? {
      ReportedCons(Progress(15, MsgLoadModel), PrepareTrace(job, engine, s));
      if 1 < s {
        ReportedCons(Progress(25, MsgPrepareText), GenerateTrace(job, engine, s));
        GenerateReported(job, engine, s);
      }
    }
  }

  /**
   * No finish report after stop(): a run that ends with a success or an
   * exception report is the run in which stop() never took effect. The one
   * exception is the missing-audio report, sent without reading the flag.
   */
  lemma {:induction false} ReportOnlyUnstopped(job: Job, engine: Engine, s: nat)
    requires Reported(RunTrace(job, engine, s))
    ensures RunTrace(job, engine, s) == RunTrace(job, engine, MaxReads)
  {
    ReportedCons(Progress(5, MsgLaunch), LoadTrace(job, engine, s));
    LoadReported(job, engine, s);
  }

  /** A missing audio is reported even when stop() landed while generate_speech ran. */
  lemma {:induction false} NoAudioReportedAfterStop(job: Job, engine: Engine)
    requires engine.init.Returned? && engine.generate == Returned(false)
    ensures RunTrace(job, engine, 3) ==
      [Progress(5, MsgLaunch), Progress(15, MsgLoadModel), Progress(25, MsgPrepareText),
       Finished(false, MsgNoAudio, "")]
  {
  }

  // ---------------------------------------------------------------------------
  // The file path of a success report
  // ---------------------------------------------------------------------------

  /**
   * When the run ends with a success report, its file path is non-empty
   * exactly when saving was asked for and save_audio reported success, and
   * it is then the saved file's path.
   */
  predicate PathReported(job: Job, engine: Engine, t: seq<WorkerSignal>) {
    EndsFinished(t) && t[|t| - 1].success ==>
      var path := t[|t| - 1].filePath;
      (path != [] <==> job.saveFile && engine.save == Returned(true)) &&
      (path != [] ==> path == OutputPath(job.filename))
  }

  lemma {:induction false} PathReportedCons(job: Job, engine: Engine, x: WorkerSignal, t: seq<WorkerSignal>)
    requires x.Progress? && PathReported(job, engine, t)
    ensures PathReported(job, engine, [x] + t)
  {
    if t != [] {
      assert ([x] + t)[|[x] + t| - 1] == t[|t| - 1];
    }
  }

  lemma {:induction false} SavePath(job: Job, engine: Engine, k: nat, s: nat, message: string)
    ensures PathReported(job, engine, SaveTrace(job, engine, k, s, message))
  {
    var t := SaveTrace(job, engine, k, s, message);
    if job.saveFile && k < s {
      assert t == [Progress(95, MsgSaving)] + t[1..];
      assert OutputPath(job.filename)[0] == 'o';
      PathReportedCons(job, engine, Progress(95, MsgSaving), t[1..]);
    } else if job.saveFile {
      StoppedStagesSilent(job, engine, k, s, message);
    }
  }

  lemma {:induction false} PlayPath(job: Job, engine: Engine, s: nat)
    ensures PathReported(job, engine, PlayTrace(job, engine, s))
  {
    var t := PlayTrace(job, engine, s);
    if job.playAfter && 4 < s {
      assert t == [Progress(90, MsgPlaying)] + t[1..];
      if engine.play.Returned? {
        SavePath(job, engine, 5, s, if engine.play.value then MsgPlayed else MsgPlayFailed);
      }
      PathReportedCons(job, engine, Progress(90, MsgPlaying), t[1..]);
    } else {
      SavePath(job, engine, if job.playAfter then 5 else 4, s, "");
    }
  }

  lemma {:induction false} RunPath(job: Job, engine: Engine, s: nat)
    ensures PathReported(job, engine, RunTrace(job, engine, s))
  {
    if 3 < s && engine.init.Returned? && engine.generate == Returned(true) {
      PlayPath(job, engine, s);
      PathReportedCons(job, engine, Progress(85, MsgProcessing), PlayTrace(job, engine, s));
    }
    var g := GenerateTrace(job, engine, s);
    if 1 < s && engine.init.Returned? {
      PathReportedCons(job, engine, Progress(25, MsgPrepareText), g);
    }
    var p := PrepareTrace(job, engine, s);
    if 0 < s && engine.init.Returned? {
      PathReportedCons(job, engine, Progress(15, MsgLoadModel), p);
    }
    PathReportedCons(job, engine, Progress(5, MsgLaunch), LoadTrace(job, engine, s));
  }

  // ---------------------------------------------------------------------------
  // The thread object
  // ---------------------------------------------------------------------------

  /** GenerationWorker: the job, the shared console capture, the flag and the signals sent. */
  class GenerationWorker {
    const job: Job
    const capture: ConsoleCapture
    var isRunning: bool
    var emitted: seq<WorkerSignal>

    constructor(job: Job, capture: ConsoleCapture)
      ensures this.job == job && this.capture == capture
      ensures isRunning && emitted == []
    {
      this.job := job;
      this.capture := capture;
      isRunning := true;
      emitted := [];
    }

    /** `stop()`: only clears the flag; the run notices at its next read. */
    method Stop()
      modifies this`isRunning
      ensures !isRunning
    {
      isRunning := false;
    }

    /**
     * Reads `k` of the flag still see it set when `k < s`: before read `k`,
     * a set flag means the stop lands at read `s` at the earliest, and a
     * cleared one that it already landed.
     */
    ghost predicate Scheduled(k: nat, s: nat, stopAt: nat)
      reads this
    {
      (isRunning ==> k <= s && s == stopAt) && (!isRunning ==> s <= k)
    }

    /** Read `k` of `is_running`; a stop() pending since read `stopAt` lands here when `k == stopAt`. */
    method ReadRunning(k: nat, stopAt: nat, ghost s: nat) returns (running: bool)
      requires Scheduled(k, s, stopAt)
      modifies this`isRunning
      ensures running == isRunning && running == (k < s)
      ensures Scheduled(k + 1, s, stopAt)
    {
      if k == stopAt {
        Stop();
      }
      running := isRunning;
    }

    method Emit(signal: WorkerSignal)
      modifies this`emitted
      ensures emitted == old(emitted) + [signal]
    {
      emitted := emitted + [signal];
    }

    /** The `except Exception` handler, reached after `k` reads. */
    method HandleError(error: string, k: nat, stopAt: nat, ghost s: nat)
      requires Scheduled(k, s, stopAt)
      modifies this
      ensures emitted == old(emitted) + Failure(error, k, s)
    {
      var running := ReadRunning(k, stopAt, s);
      if running {
        Emit(Finished(false, ErrorPrefix + error, ""));
      }
    }

    /**
     * `run()`: capture the console, do the work, and release the capture on
     * every way out. `stopAt` is the read of `is_running` at which a stop()
     * from the window takes effect (one past the last read if it never does).
     */
    method Run(engine: Engine, stopAt: nat)
      modifies this, capture.sys
      ensures emitted == old(emitted) + RunTrace(job, engine, if old(isRunning) then stopAt else 0)
      ensures old(isRunning) && MaxReads <= stopAt ==> EndsFinished(emitted)
      ensures capture.sys.stdout == capture.originalStdout && capture.sys.stderr == capture.originalStderr
    {
      capture.StartCapture();
      RunBody(engine, stopAt);
      capture.StopCapture();
      if old(isRunning) && MaxReads <= stopAt {
        LateStopHarmless(job, engine, stopAt);
        UnstoppedEndsReported(job, engine);
      }
    }

    /** The `try` block of `run()`, one method per read of `is_running`. */
    method RunBody(engine: Engine, stopAt: nat)
      modifies this
      ensures emitted == old(emitted) + RunTrace(job, engine, if old(isRunning) then stopAt else 0)
    {
      ghost var s := if isRunning then stopAt else 0;
      Emit(Progress(5, MsgLaunch));
      Load(engine, stopAt, s);
      AppendAssoc(old(emitted), [Progress(5, MsgLaunch)], LoadTrace(job, engine, s));
    }

    /** Read 0, building the engine, the model-loading milestone. */
    method Load(engine: Engine, stopAt: nat, ghost s: nat)
      requires Scheduled(0, s, stopAt)
      modifies this
      ensures emitted == old(emitted) + LoadTrace(job, engine, s)
    {
      var running := ReadRunning(0, stopAt, s);
      if !running {
        return;
      }
      if engine.init.Raised? {
        HandleError(engine.init.error, 1, stopAt, s);
        return;
      }
      Emit(Progress(15, MsgLoadModel));
      Prepare(engine, stopAt, s);
      AppendAssoc(old(emitted), [Progress(15, MsgLoadModel)], PrepareTrace(job, engine, s));
    }

    /** Read 1 and the text-preparation milestone. */
    method Prepare(engine: Engine, stopAt: nat, ghost s: nat)
      requires Scheduled(1, s, stopAt)
      modifies this
      ensures emitted == old(emitted) + PrepareTrace(job, engine, s)
    {
      var running := ReadRunning(1, stopAt, s);
      if !running {
        return;
      }
      Emit(Progress(25, MsgPrepareText));
      Generate(engine, stopAt, s);
      AppendAssoc(old(emitted), [Progress(25, MsgPrepareText)], GenerateTrace(job, engine, s));
    }

    /** Read 2, generate_speech, the missing-audio check, read 3 and the processing milestone. */
    method Generate(engine: Engine, stopAt: nat, ghost s: nat)
      requires Scheduled(2, s, stopAt)
      modifies this
      ensures emitted == old(emitted) + GenerateTrace(job, engine, s)
    {
      var running := ReadRunning(2, stopAt, s);
      if !running {
        return;
      }
      if engine.generate.Raised? {
        HandleError(engine.generate.error, 3, stopAt, s);
        return;
      }
      if !engine.generate.value {
        Emit(Finished(false, MsgNoAudio, ""));
        return;
      }
      running := ReadRunning(3, stopAt, s);
      if !running {
        return;
      }
      Emit(Progress(85, MsgProcessing));
      PlayAndSave(engine, stopAt, s);
      AppendAssoc(old(emitted), [Progress(85, MsgProcessing)], PlayTrace(job, engine, s));
    }

    /** Playback (read 4 when asked for), then saving and the closing report. */
    method PlayAndSave(engine: Engine, stopAt: nat, ghost s: nat)
      requires Scheduled(4, s, stopAt)
      modifies this
      ensures emitted == old(emitted) + PlayTrace(job, engine, s)
    {
      var resultMessage := "";
      if !job.playAfter {
        Save(engine, stopAt, 4, resultMessage, s);
        return;
      }
      var playing := ReadRunning(4, stopAt, s);
      if !playing {
        Save(engine, stopAt, 5, resultMessage, s);
        return;
      }
      Emit(Progress(90, MsgPlaying));
      if engine.play.Raised? {
        HandleError(engine.play.error, 5, stopAt, s);
        AppendAssoc(old(emitted), [Progress(90, MsgPlaying)], Failure(engine.play.error, 5, s));
        return;
      }
      var played := if engine.play.value then MsgPlayed else MsgPlayFailed;
      resultMessage := resultMessage + played;
      assert resultMessage == played;
      Save(engine, stopAt, 5, resultMessage, s);
      AppendAssoc(old(emitted), [Progress(90, MsgPlaying)], SaveTrace(job, engine, 5, s, resultMessage));
    }

    /** Saving and the closing report, after `k` reads with the result message so far. */
    method Save(engine: Engine, stopAt: nat, k: nat, resultMessage: string, ghost s: nat)
      requires Scheduled(k, s, stopAt)
      modifies this
      ensures emitted == old(emitted) + SaveTrace(job, engine, k, s, resultMessage)
    {
      if !job.saveFile {
        Finish(false, stopAt, k, resultMessage, s);
        return;
      }
      var saving := ReadRunning(k, stopAt, s);
      if !saving {
        Finish(false, stopAt, k + 1, resultMessage, s);
        return;
      }
      Emit(Progress(95, MsgSaving));
      if engine.save.Raised? {
        HandleError(engine.save.error, k + 1, stopAt, s);
        AppendAssoc(old(emitted), [Progress(95, MsgSaving)], Failure(engine.save.error, k + 1, s));
        return;
      }
      var saveSuccess := engine.save.value;
      var message := resultMessage + if saveSuccess then SavedMessage(job.filename) else MsgSaveFailed;
      Finish(saveSuccess, stopAt, k + 1, message, s);
      AppendAssoc(old(emitted), [Progress(95, MsgSaving)], FinalTrace(job, saveSuccess, k + 1, s, message));
    }

    /** The closing check: 100% and the success report with the stripped message. */
    method Finish(saveSuccess: bool, stopAt: nat, k: nat, resultMessage: string, ghost s: nat)
      requires Scheduled(k, s, stopAt)
      modifies this
      ensures emitted == old(emitted) + FinalTrace(job, saveSuccess, k, s, resultMessage)
    {
      var running := ReadRunning(k, stopAt, s);
      if running {
        Emit(Progress(100, MsgDone));
        var filePath := if job.saveFile && saveSuccess then OutputPath(job.filename) else "";
        Emit(Finished(true, Strip(resultMessage), filePath));
        AppendAssoc(old(emitted), [Progress(100, MsgDone)], [Finished(true, Strip(resultMessage), filePath)]);
      }
    }
  }
}
