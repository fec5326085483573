/**
 * The recording session of the dictation application: the hotkey toggles
 * recording, the recorder thread collects audio chunks, and the processing
 * thread saves, transcribes, cleans and delivers the text.
 *
 * Each block the program runs under a lock is one atomic method, and each
 * thread body is its own method, called as a separate step.  Every outside
 * effect (the audio device, the clock, the temporary file, the recogniser,
 * the clipboard and the paste keystroke) is a parameter saying how it turns
 * out.  Every method is specified by a function on the abstract
 * `SessionState`, and the guarantees of the program are lemmas about those
 * functions.
 */
module Session {
  import opened Options
  import opened Text
  import opened Transcript
  import opened Ducking

  /** One buffer of raw 16-bit mono samples as read from the audio stream. */
  type Chunk = seq<bv8>

  /** Recording stops on its own after this many seconds. */
  const MaxRecordingTime: real := 120.0
  /** The size of the header `save_audio` writes in front of the samples. */
  const WavHeaderBytes: nat := 44
  /** Recordings whose file is smaller than this are rejected as empty. */
  const MinFileSize: nat := 1000
  /** The bytes of one stream read: 1024 frames of one 16-bit channel. */
  const ChunkBytes: nat := 2048

  /** The status messages the program shows; the wording of each is left out. */
  datatype NoticeKind =
    | Busy | RecordingStarted | CaptureFailed | Processing | AlreadyProcessing
    | SaveFailed | TooShort | ModelMissing | Transcribing | TranscribeFailed
    | SegmentsFailed | NoSpeech | Cleaning | CopyFailed | Pasted | PasteFailed | ClipboardOnly

  /** What the session does to the outside world, in the order it happens. */
  datatype Event =
    | Notice(kind: NoticeKind, isError: bool)  // a call of `show_notification`
    | ProgressShown(value: real)                // a call of `update_progress`
    | RecorderLaunched                          // the recorder thread is started
    | ProcessorLaunched                         // the processing thread is started
    | TranscribeCalled                          // the recogniser is asked to transcribe
    | PasteSent(text: string)                   // the paste keystroke, inserting `text`

  /**
   * What the session can observe: the two flags, the recorded chunks, whether
   * a stream is open, whether the temporary recording file exists, the
   * clipboard, the events so far, whether a model is loaded and the volume
   * controller's state.
   */
  datatype SessionState = SessionState(
    recording: bool, processing: bool, frames: seq<Chunk>, streamOpen: bool,
    tempFile: bool, clipboard: Option<string>, log: seq<Event>,
    modelLoaded: bool, duck: DuckState)

  /** How a volume restore turns out: whether the fade thread starts, and the direct write otherwise. */
  datatype RestoreEffects = RestoreEffects(spawnOk: bool, fallbackOk: bool)

  /**
   * How `start_recording` turns out: reading and lowering the volume, opening
   * the stream, starting the recorder thread, and the restore after a failure.
   */
  datatype StartEffects = StartEffects(readOk: bool, writeOk: bool, openOk: bool, spawnOk: bool,
                                       restore: RestoreEffects)

  /** How `stop_recording` turns out: the volume restore, closing the stream, and starting the processing thread. */
  datatype StopEffects = StopEffects(restore: RestoreEffects, closeOk: bool, launchOk: bool)

  /** One pass of the recorder loop: the read fails, or it returns a chunk at `elapsed` seconds. */
  datatype Tick = ReadFailed | ReadOk(data: Chunk, elapsed: real)

  /**
   * How one run of `process_audio` turns out: saving the file, the memory
   * probe run just before the recogniser, the transcription call, the segment list (`None` when iterating it fails),
   * the clipboard copy, whether auto-paste is installed and works, and
   * removing the file.
   */
  datatype Env = Env(saveOk: bool, probeOk: bool, transcribeOk: bool, segments: Option<seq<Segment>>,
                     copyOk: bool, pasteAvailable: bool, pasteOk: bool, removeOk: bool)

  function Emit(s: SessionState, ev: Event): SessionState {
    s.(log := s.log + [ev])
  }

  // ------------------------------------------------------------------
  // Recording
  // ------------------------------------------------------------------

  /** The failure path of `start_recording`: report, clear the flag, restore the volume. */
  function Abort(s: SessionState, r: RestoreEffects): SessionState {
    s.(log := s.log + [Notice(CaptureFailed, true)], recording := false,
       duck := RestoreStep(s.duck, r.spawnOk, r.fallbackOk))
  }

  /** The locked block of `start_recording`: refuse while recording or processing, otherwise arm. */
  function ArmStep(s: SessionState): SessionState {
    if s.recording then s
    else if s.processing then Emit(s, Notice(Busy, true))
    else s.(recording := true, frames := [])
  }

  /** The rest of `start_recording` once the volume is lowered: open the stream and start the recorder. */
  function OpenStep(s: SessionState, e: StartEffects): SessionState {
    if !e.openOk then Abort(s, e.restore)
    else
      var live := s.(streamOpen := true, log := s.log + [Notice(RecordingStarted, false), ProgressShown(0.0)]);
      if e.spawnOk then Emit(live, RecorderLaunched) else Abort(live, e.restore)
  }

  /** `start_recording`. */
  function StartStep(s: SessionState, e: StartEffects): SessionState {
    if s.recording || s.processing then ArmStep(s)
    else OpenStep(ArmStep(s).(duck := ReduceStep(s.duck, e.readOk, e.writeOk)), e)
  }

  /**
   * `stop_recording`: a stream that fails to close stays open.  Starting the
   * processing thread is not guarded: when it fails the exception leaves the
   * method after everything else is done, and no processing is launched.
   */
  function StopStep(s: SessionState, e: StopEffects): SessionState {
    if !s.recording then s
    else
      s.(recording := false,
         log := s.log + [Notice(Processing, false)] + (if e.launchOk then [ProcessorLaunched] else []),
         duck := RestoreStep(s.duck, e.restore.spawnOk, e.restore.fallbackOk),
         streamOpen := s.streamOpen && !e.closeOk)
  }

  /** The value the progress bar shows after `elapsed` seconds of recording. */
  function Progress(elapsed: real): (p: real)
    ensures p <= 100.0
    ensures p == 100.0 <==> elapsed >= MaxRecordingTime
  {
    var q := elapsed / MaxRecordingTime * 100.0;
    if q < 100.0 then q else 100.0
  }

  /**
   * The body of the recorder thread over the reads `ticks`: it runs while the
   * recording flag is set, stops at the first failed read (a closed stream
   * fails too), and stops the recording itself once the time limit is reached.
   * When `ticks` runs out the thread has not finished yet.
   */
  function RecordRun(s: SessionState, ticks: seq<Tick>, e: StopEffects): SessionState
    decreases |ticks|
  {
    if !s.recording || ticks == [] || ticks[0].ReadFailed? || !s.streamOpen then s
    else
      var t := ticks[0];
      var s1 := s.(frames := s.frames + [t.data], log := s.log + [ProgressShown(Progress(t.elapsed))]);
      if t.elapsed >= MaxRecordingTime then StopStep(s1, e) else RecordRun(s1, ticks[1..], e)
  }

  /** The reads end with one that reaches the time limit, with none failing before it. */
  predicate TimedOut(ticks: seq<Tick>)
    decreases |ticks|
  {
    ticks != [] && ticks[0].ReadOk? && (ticks[0].elapsed >= MaxRecordingTime || TimedOut(ticks[1..]))
  }

  /**
   * The chunks the recorder keeps from `ticks`: one per successful read, in
   * order, up to the first failed read or the read that reaches the limit.
   */
  function ReadData(ticks: seq<Tick>): (d: seq<Chunk>)
    decreases |ticks|
    ensures |d| <= |ticks|
    ensures forall k :: 0 <= k < |d| ==> ticks[k].ReadOk? && d[k] == ticks[k].data
    ensures forall k :: 0 <= k < |d| - 1 ==> ticks[k].elapsed < MaxRecordingTime
    ensures TimedOut(ticks) <==> d != [] && ticks[|d| - 1].elapsed >= MaxRecordingTime
    ensures |d| < |ticks| && !TimedOut(ticks) ==> ticks[|d|].ReadFailed?
  {
    if ticks == [] || ticks[0].ReadFailed? then []
    else if ticks[0].elapsed >= MaxRecordingTime then [ticks[0].data]
    else
      var rest := ReadData(ticks[1..]);
      assert forall k :: 0 < k < |ticks| ==> ticks[k] == ticks[1..][k - 1];
      [ticks[0].data] + rest
  }

  /** The progress values the recorder shows for `ticks`: one per chunk it keeps, from that read's time. */
  function ReadProgress(ticks: seq<Tick>): (p: seq<Event>)
    decreases |ticks|
    ensures |p| <= |ticks|
    ensures forall k :: 0 <= k < |p| ==> ticks[k].ReadOk? && p[k] == ProgressShown(Progress(ticks[k].elapsed))
  {
    if ticks == [] || ticks[0].ReadFailed? then []
    else
      var here := [ProgressShown(Progress(ticks[0].elapsed))];
      if ticks[0].elapsed >= MaxRecordingTime then here
      else
        var rest := ReadProgress(ticks[1..]);
        var p := here + rest;
        assert forall k :: 0 < k < |p| ==> p[k] == rest[k - 1] && ticks[k] == ticks[1..][k - 1];
        p
  }

  /** There is one progress value per kept chunk. */
  lemma {:induction false} ReadProgressLength(ticks: seq<Tick>)
    ensures |ReadProgress(ticks)| == |ReadData(ticks)|
    decreases |ticks|
  {
    if ticks != [] && ticks[0].ReadOk? && ticks[0].elapsed < MaxRecordingTime {
      ReadProgressLength(ticks[1..]);
      ReadsCons(ticks);
    }
  }

  // ------------------------------------------------------------------
  // Processing
  // ------------------------------------------------------------------

  /** The locked entry of `process_audio`: refuse when a run is in progress, otherwise claim the flag. */
  function EnterStep(s: SessionState): SessionState {
    if s.processing then Emit(s, Notice(AlreadyProcessing, true)) else s.(processing := true)
  }

  function TotalBytes(frames: seq<Chunk>): nat {
    if frames == [] then 0 else |frames[0]| + TotalBytes(frames[1..])
  }

  /** The size of the file `save_audio` writes: the header and every recorded byte. */
  function FileSize(frames: seq<Chunk>): nat {
    WavHeaderBytes + TotalBytes(frames)
  }

  /** The events of delivering `text` once it is on the clipboard: auto-paste when available, then the progress reset. */
  function Delivery(text: string, env: Env): seq<Event> {
    var paste :=
      if !env.pasteAvailable then [Notice(ClipboardOnly, false)]
      else if env.pasteOk then [PasteSent(text), Notice(Pasted, false)]
      else [Notice(PasteFailed, false)];
    paste + [ProgressShown(0.0)]
  }

  /** The body of the `try` in `process_audio`: save the recording, then go on. */
  function Body(s: SessionState, env: Env): SessionState {
    if !env.saveOk then Emit(s, Notice(SaveFailed, true))
    else Gate(s.(tempFile := true), env)
  }

  /** Reject a file that is too small or a missing model; otherwise announce the transcription. */
  function Gate(s: SessionState, env: Env): SessionState {
    if FileSize(s.frames) < MinFileSize then Emit(s, Notice(TooShort, true))
    else if !s.modelLoaded then Emit(s, Notice(ModelMissing, true))
    else Recognise(Emit(s, Notice(Transcribing, false)), env)
  }

  /**
   * The guarded block around the recogniser: the memory probe runs first, and
   * when it fails the recogniser is never called and the run reports a failed
   * transcription.
   */
  function Recognise(s: SessionState, env: Env): SessionState {
    if !env.probeOk then Emit(s, Notice(TranscribeFailed, true))
    else Transcribe(Emit(s, TranscribeCalled), env)
  }

  /** Collect the transcript; stop when the call or the segments fail or nothing was said; otherwise clean it. */
  function Transcribe(s: SessionState, env: Env): SessionState {
    if !env.transcribeOk then Emit(s, Notice(TranscribeFailed, true))
    else if env.segments.None? then Emit(s, Notice(SegmentsFailed, true))
    else Clean(s, RawTranscript(env.segments.value), env)
  }

  /** Stop when the transcript `raw` is empty; otherwise clean it and copy it. */
  function Clean(s: SessionState, raw: string, env: Env): SessionState {
    if raw == [] then Emit(s, Notice(NoSpeech, true))
    else Copy(Emit(s, Notice(Cleaning, false)), CleanText(raw), env)
  }

  /** Copy the cleaned text to the clipboard, then deliver it. */
  function Copy(s: SessionState, text: string, env: Env): SessionState {
    if !env.copyOk then Emit(s, Notice(CopyFailed, true))
    else s.(clipboard := Some(text), log := s.log + Delivery(text, env))
  }

  /** The `finally` of `process_audio`: release the flag and remove the file this run saved. */
  function Cleanup(s: SessionState, saved: bool, removeOk: bool): SessionState {
    s.(processing := false, tempFile := s.tempFile && !(saved && removeOk))
  }

  /** One run of `process_audio` after it has claimed the flag. */
  function PipelineStep(s: SessionState, env: Env): SessionState {
    Cleanup(Body(s, env), env.saveOk, env.removeOk)
  }

  /** A whole `process_audio`. */
  function ProcessStep(s: SessionState, env: Env): SessionState {
    if s.processing then EnterStep(s) else PipelineStep(EnterStep(s), env)
  }

  /** The run gets as far as copying text: the file is saved and large enough, a model is loaded, and speech is found. */
  predicate Delivered(s: SessionState, env: Env) {
    env.saveOk && FileSize(s.frames) >= MinFileSize && s.modelLoaded && env.probeOk && env.transcribeOk
    && env.segments.Some? && RawTranscript(env.segments.value) != [] && env.copyOk
  }

  // ------------------------------------------------------------------
  // Lemmas: recording
  // ------------------------------------------------------------------

  /** A second start while recording does nothing; a start while processing only warns. */
  lemma StartGuards(s: SessionState, e: StartEffects)
    ensures s.recording ==> StartStep(s, e) == s
    ensures !s.recording && s.processing ==> StartStep(s, e) == s.(log := s.log + [Notice(Busy, true)])
  {
  }

  /**
   * A start from idle empties the recorded chunks and lowers the volume; the
   * session is recording afterwards exactly when the stream opened and the
   * recorder thread started, and otherwise the failure is reported last and
   * the volume restore is requested.
   */
  lemma StartFromIdle(s: SessionState, e: StartEffects)
    requires !s.recording && !s.processing
    ensures var r := StartStep(s, e);
      && r.frames == []
      && r.processing == s.processing
      && (r.recording <==> e.openOk && e.spawnOk)
      && (r.recording ==> r.streamOpen && r.duck == ReduceStep(s.duck, e.readOk, e.writeOk)
                          && r.log == s.log + [Notice(RecordingStarted, false), ProgressShown(0.0), RecorderLaunched])
      && (!r.recording ==> r.duck == RestoreStep(ReduceStep(s.duck, e.readOk, e.writeOk), e.restore.spawnOk, e.restore.fallbackOk)
                           && r.log[|r.log| - 1] == Notice(CaptureFailed, true))
  {
  }

  /**
   * When the start fails after the volume was lowered, the mixer gets its
   * level back: through the fade-in when that thread starts, directly otherwise.
   */
  lemma FailedStartRestoresVolume(s: SessionState, e: StartEffects, stepOk: nat -> bool)
    requires !s.recording && !s.processing && !(e.openOk && e.spawnOk)
    requires s.duck.present && s.duck.original.None? && e.readOk && e.restore.fallbackOk
    ensures var d := StartStep(s, e).duck;
      var back := if e.restore.spawnOk then FadeStep(d, stepOk, true) else d;
      back.level == s.duck.level && back.original == None
  {
    StartFromIdle(s, e);
    if e.restore.spawnOk {
      DuckThenFade(s.duck, e.writeOk, stepOk);
    } else {
      DuckThenFallback(s.duck, e.writeOk);
    }
  }

  /** Stopping when not recording does nothing. */
  lemma StopWhenIdle(s: SessionState, e: StopEffects)
    requires !s.recording
    ensures StopStep(s, e) == s
  {
  }

  /**
   * Stopping a recording clears the flag, announces processing, requests the
   * volume restore, closes the stream unless closing fails, launches the
   * processing thread unless starting it fails, and keeps the recorded chunks.
   */
  lemma StopFromRecording(s: SessionState, e: StopEffects)
    requires s.recording
    ensures var r := StopStep(s, e);
      && !r.recording && r.processing == s.processing && r.frames == s.frames
      && (ProcessorLaunched in r.log[|s.log|..] <==> e.launchOk)
      && r.log == s.log + [Notice(Processing, false)] + (if e.launchOk then [ProcessorLaunched] else [])
      && r.duck == RestoreStep(s.duck, e.restore.spawnOk, e.restore.fallbackOk)
      && (r.streamOpen <==> s.streamOpen && !e.closeOk)
  {
    var r := StopStep(s, e);
    var added := [Notice(Processing, false)] + (if e.launchOk then [ProcessorLaunched] else []);
    assert r.log[|s.log|..] == added;
    assert e.launchOk ==> added[1] == ProcessorLaunched;
  }

  /**
   * A whole recording round: start from idle, record, stop.  With a mixer,
   * a successful read and restore, the fade-in brings back the level the
   * mixer had before.
   */
  lemma RecordingRestoresVolume(s: SessionState, e: StartEffects, stop: StopEffects, stepOk: nat -> bool)
    requires !s.recording && !s.processing && e.openOk && e.spawnOk && e.readOk
    requires s.duck.present && s.duck.original.None? && stop.restore.spawnOk
    ensures var d := StopStep(StartStep(s, e), stop).duck;
      FadeStep(d, stepOk, true).level == s.duck.level && FadeStep(d, stepOk, true).original == None
  {
    StartFromIdle(s, e);
    DuckThenFade(s.duck, e.writeOk, stepOk);
  }

  /** The recorder does nothing unless the session is recording with an open stream. */
  lemma RecordNeedsOpenStream(s: SessionState, ticks: seq<Tick>, e: StopEffects)
    requires !s.recording || !s.streamOpen
    ensures RecordRun(s, ticks, e) == s
  {
  }

  /** The session after the recorder has kept the chunks of `ticks` and shown their progress. */
  function AfterReads(s: SessionState, ticks: seq<Tick>): SessionState {
    s.(frames := s.frames + ReadData(ticks), log := s.log + ReadProgress(ticks))
  }

  /**
   * The recorder keeps one chunk per successful read, in order, up to the
   * first failed read or the read that reaches the time limit, and shows one
   * progress value for each; it stops the recording exactly when the limit is
   * reached, and otherwise changes nothing else.
   */
  lemma {:induction false} RecordOutcome(s: SessionState, ticks: seq<Tick>, e: StopEffects)
    requires s.recording && s.streamOpen
    decreases |ticks|
    ensures RecordRun(s, ticks, e) == if TimedOut(ticks) then StopStep(AfterReads(s, ticks), e) else AfterReads(s, ticks)
  {
    if ticks == [] || ticks[0].ReadFailed? {
      assert RecordRun(s, ticks, e) == s;
      assert !TimedOut(ticks) && ReadData(ticks) == [] && ReadProgress(ticks) == [];
      assert AfterReads(s, ticks) == s;
    } else if ticks[0].elapsed >= MaxRecordingTime {
      var t := ticks[0];
      var s1 := s.(frames := s.frames + [t.data], log := s.log + [ProgressShown(Progress(t.elapsed))]);
      assert RecordRun(s, ticks, e) == StopStep(s1, e);
      assert TimedOut(ticks) && ReadData(ticks) == [t.data] && ReadProgress(ticks) == [ProgressShown(Progress(t.elapsed))];
      assert AfterReads(s, ticks) == s1;
    } else {
      var t, rest := ticks[0], ticks[1..];
      var s1 := s.(frames := s.frames + [t.data], log := s.log + [ProgressShown(Progress(t.elapsed))]);
      assert RecordRun(s, ticks, e) == RecordRun(s1, rest, e);
      RecordOutcome(s1, rest, e);
      ReadsCons(ticks);
      Regroup(s.frames, [t.data], ReadData(rest));
      Regroup(s.log, [ProgressShown(Progress(t.elapsed))], ReadProgress(rest));
      assert AfterReads(s1, rest) == AfterReads(s, ticks);
    }
  }

  /** A read before the limit contributes its chunk and progress value ahead of the later reads'. */
  lemma ReadsCons(ticks: seq<Tick>)
    requires ticks != [] && ticks[0].ReadOk? && ticks[0].elapsed < MaxRecordingTime
    ensures ReadData(ticks) == [ticks[0].data] + ReadData(ticks[1..])
    ensures ReadProgress(ticks) == [ProgressShown(Progress(ticks[0].elapsed))] + ReadProgress(ticks[1..])
    ensures TimedOut(ticks) == TimedOut(ticks[1..])
  {
  }

  /** In particular the chunks kept are those of `ReadData`, and the session stays recording unless the limit was reached. */
  lemma RecordFrames(s: SessionState, ticks: seq<Tick>, e: StopEffects)
    requires s.recording && s.streamOpen
    ensures RecordRun(s, ticks, e).frames == s.frames + ReadData(ticks)
    ensures RecordRun(s, ticks, e).recording <==> !TimedOut(ticks)
  {
    RecordOutcome(s, ticks, e);
  }

  // ------------------------------------------------------------------
  // Lemmas: processing
  // ------------------------------------------------------------------

  /**
   * A second `process_audio` while one is running only warns and leaves the
   * flag to the running one; otherwise the flag is cleared again on every path.
   */
  lemma ProcessReleasesFlag(s: SessionState, env: Env)
    ensures s.processing ==> ProcessStep(s, env) == s.(log := s.log + [Notice(AlreadyProcessing, true)])
    ensures !s.processing ==> !ProcessStep(s, env).processing
  {
  }

  /** The recording side of the session, and the loaded model, are the same in `s` and `r`. */
  predicate Keeps(s: SessionState, r: SessionState) {
    r.recording == s.recording && r.frames == s.frames && r.streamOpen == s.streamOpen
    && r.duck == s.duck && r.modelLoaded == s.modelLoaded
  }

  /** The events a step added to the log, given that it only appended. */
  function New(s: SessionState, r: SessionState): (added: seq<Event>)
    requires s.log <= r.log
    ensures s.log + added == r.log
  {
    r.log[|s.log|..]
  }

  lemma NewSplit(a: seq<Event>, b: seq<Event>, c: seq<Event>)
    requires a <= b <= c
    ensures c[|a|..] == b[|a|..] + c[|b|..]
  {
  }

  /** The text the run would put on the clipboard: `clean_text` (`CleanText`) of the raw transcript. */
  function Cleaned(env: Env): string {
    if env.segments.Some? then CleanText(RawTranscript(env.segments.value)) else []
  }

  /**
   * How a stage from `s` to `r` ends: when `ok` the clipboard holds `text`;
   * otherwise the clipboard is untouched and the last event is an error
   * notice.  Any paste the stage sent inserts `text`, and only when `ok`.
   */
  ghost predicate Ends(s: SessionState, r: SessionState, ok: bool, text: string)
    requires s.log < r.log
  {
    && (ok ==> r.clipboard == Some(text))
    && (!ok ==> r.clipboard == s.clipboard && r.log[|r.log| - 1].Notice? && r.log[|r.log| - 1].isError)
    && (forall t :: PasteSent(t) in New(s, r) ==> ok && t == text)
  }

  /** Copying only appends, never calls the recogniser, and delivers `text` exactly when the copy works. */
  lemma CopyEnds(s: SessionState, text: string, env: Env)
    ensures var r := Copy(s, text, env);
      Keeps(s, r) && r.processing == s.processing && r.tempFile == s.tempFile && s.log < r.log
      && TranscribeCalled !in New(s, r) && Ends(s, r, env.copyOk, text)
  {
    var r := Copy(s, text, env);
    if env.copyOk {
      assert New(s, r) == Delivery(text, env);
    } else {
      assert New(s, r) == [Notice(CopyFailed, true)];
    }
  }

  /** Speech was recognised: the call and the segments worked and the transcript is not empty. */
  predicate Heard(env: Env) {
    env.transcribeOk && env.segments.Some? && RawTranscript(env.segments.value) != []
  }

  /** Cleaning only appends and delivers the cleaned text exactly when there is a transcript and it is copied. */
  lemma CleanEnds(s: SessionState, raw: string, env: Env)
    ensures var r := Clean(s, raw, env);
      Keeps(s, r) && r.processing == s.processing && r.tempFile == s.tempFile && s.log < r.log
      && TranscribeCalled !in New(s, r) && Ends(s, r, raw != [] && env.copyOk, CleanText(raw))
  {
    if raw != [] {
      CopyAfterCleaning(s, CleanText(raw), env);
    } else {
      assert New(s, Clean(s, raw, env)) == [Notice(NoSpeech, true)];
    }
  }

  /** Announcing the cleaning and then copying: the copy's guarantees, counted from before the announcement. */
  lemma CopyAfterCleaning(s: SessionState, text: string, env: Env)
    ensures var r := Copy(Emit(s, Notice(Cleaning, false)), text, env);
      Keeps(s, r) && r.processing == s.processing && r.tempFile == s.tempFile && s.log < r.log
      && TranscribeCalled !in New(s, r) && Ends(s, r, env.copyOk, text)
  {
    var s1 := Emit(s, Notice(Cleaning, false));
    var r := Copy(s1, text, env);
    CopyEnds(s1, text, env);
    NewSplit(s.log, s1.log, r.log);
    assert New(s, r) == [Notice(Cleaning, false)] + New(s1, r);
  }

  /** After the call: only appends, never calls the recogniser again, and delivers the cleaned text exactly when speech was heard and copied. */
  lemma TranscribeEnds(s: SessionState, env: Env)
    ensures var r := Transcribe(s, env);
      Keeps(s, r) && r.processing == s.processing && r.tempFile == s.tempFile && s.log < r.log
      && TranscribeCalled !in New(s, r) && Ends(s, r, Heard(env) && env.copyOk, Cleaned(env))
  {
    if env.transcribeOk && env.segments.Some? {
      CleanEnds(s, RawTranscript(env.segments.value), env);
    } else {
      var r := Transcribe(s, env);
      assert New(s, r) == [r.log[|s.log|]];
    }
  }

  /** The guarded block calls the recogniser exactly once when the memory probe works, and never otherwise. */
  lemma RecogniseEnds(s: SessionState, env: Env)
    ensures var r := Recognise(s, env);
      Keeps(s, r) && r.processing == s.processing && r.tempFile == s.tempFile && s.log < r.log
      && (TranscribeCalled in New(s, r) <==> env.probeOk)
      && Ends(s, r, env.probeOk && Heard(env) && env.copyOk, Cleaned(env))
  {
    if env.probeOk {
      var s1 := Emit(s, TranscribeCalled);
      var r := Transcribe(s1, env);
      TranscribeEnds(s1, env);
      NewSplit(s.log, s1.log, r.log);
      assert New(s, r) == [TranscribeCalled] + New(s1, r);
    } else {
      assert New(s, Recognise(s, env)) == [Notice(TranscribeFailed, true)];
    }
  }

  /** The checks before transcription: the recogniser is called exactly when they pass and the memory probe works. */
  lemma GateEnds(s: SessionState, env: Env)
    ensures var r := Gate(s, env);
      Keeps(s, r) && r.processing == s.processing && r.tempFile == s.tempFile && s.log < r.log
      && (TranscribeCalled in New(s, r) <==> FileSize(s.frames) >= MinFileSize && s.modelLoaded && env.probeOk)
      && Ends(s, r, FileSize(s.frames) >= MinFileSize && s.modelLoaded && env.probeOk && Heard(env) && env.copyOk, Cleaned(env))
  {
    if FileSize(s.frames) >= MinFileSize && s.modelLoaded {
      var s1 := Emit(s, Notice(Transcribing, false));
      var r := Recognise(s1, env);
      assert Gate(s, env) == r;
      RecogniseEnds(s1, env);
      NewSplit(s.log, s1.log, r.log);
      assert New(s, r) == [Notice(Transcribing, false)] + New(s1, r);
    } else {
      assert New(s, Gate(s, env)) == [Gate(s, env).log[|s.log|]];
    }
  }

  /** The body of `process_audio`: saving is the first check, and a saved file is marked as existing. */
  lemma BodyEnds(s: SessionState, env: Env)
    ensures var r := Body(s, env);
      Keeps(s, r) && r.processing == s.processing && r.tempFile == (env.saveOk || s.tempFile) && s.log < r.log
      && (TranscribeCalled in New(s, r) <==> env.saveOk && FileSize(s.frames) >= MinFileSize && s.modelLoaded && env.probeOk)
      && Ends(s, r, Delivered(s, env), Cleaned(env))
  {
    if env.saveOk {
      GateEnds(s.(tempFile := true), env);
    } else {
      assert New(s, Body(s, env)) == [Notice(SaveFailed, true)];
    }
  }

  /**
   * One run of the pipeline, after it has claimed the flag, leaves the
   * recording side alone, only appends events, and releases the flag.  The
   * recogniser is called exactly when the file was saved, is large enough, a
   * model is loaded and the memory probe before the call works.  The temporary file is gone afterwards when this run
   * saved it and removal worked, and only then.
   */
  lemma PipelineOutcome(s: SessionState, env: Env)
    ensures var r := PipelineStep(s, env);
      && Keeps(s, r) && !r.processing && s.log < r.log
      && (TranscribeCalled in New(s, r) <==> env.saveOk && FileSize(s.frames) >= MinFileSize && s.modelLoaded && env.probeOk)
      && r.tempFile == if env.saveOk then !env.removeOk else s.tempFile
  {
    var b, r := Body(s, env), PipelineStep(s, env);
    BodyEnds(s, env);
    assert r.log == b.log && r.clipboard == b.clipboard;
    assert New(s, r) == New(s, b);
  }

  /** On the delivered path the clipboard ends up holding the cleaned transcript. */
  lemma DeliveryGate(s: SessionState, env: Env)
    ensures var r := PipelineStep(s, env);
      Delivered(s, env) ==> r.clipboard == Some(CleanText(RawTranscript(env.segments.value)))
  {
    BodyEnds(s, env);
  }

  /** On every other path the clipboard is untouched and the run ends with an error notice. */
  lemma FailureReported(s: SessionState, env: Env)
    ensures var r := PipelineStep(s, env);
      !Delivered(s, env) ==> s.log < r.log && r.clipboard == s.clipboard && r.log[|r.log| - 1].Notice? && r.log[|r.log| - 1].isError
  {
    BodyEnds(s, env);
  }

  /** A paste is sent only on the delivered path, and it inserts the cleaned transcript. */
  lemma PasteOnlyDelivered(s: SessionState, env: Env)
    ensures var r := PipelineStep(s, env);
      s.log < r.log && forall t :: PasteSent(t) in New(s, r) ==> Delivered(s, env) && t == Cleaned(env)
  {
    var b, r := Body(s, env), PipelineStep(s, env);
    BodyEnds(s, env);
    assert r.log == b.log;
    assert New(s, r) == New(s, b);
  }

  /** No event of `events` is an error notice. */
  predicate Quiet(events: seq<Event>) {
    forall e :: e in events && e.Notice? ==> !e.isError
  }

  lemma QuietAppend(a: seq<Event>, b: seq<Event>)
    requires Quiet(a) && Quiet(b)
    ensures Quiet(a + b)
  {
    forall e | e in a + b && e.Notice?
      ensures !e.isError
    {
      assert e in a || e in b;
    }
  }

  /** Delivering a text never shows an error notice: a failed paste is only a warning. */
  lemma DeliveryQuiet(text: string, env: Env)
    ensures Quiet(Delivery(text, env))
  {
  }

  /**
   * On the delivered path the run adds exactly the announcements, the call,
   * and the delivery of the cleaned transcript, in that order.
   */
  lemma DeliveredLog(s: SessionState, env: Env)
    ensures var r := PipelineStep(s, env);
      Delivered(s, env) ==>
        r.log == s.log + [Notice(Transcribing, false), TranscribeCalled, Notice(Cleaning, false)] + Delivery(Cleaned(env), env)
  {
    if Delivered(s, env) {
      var s3 := DeliveredStages(s, env);
      assert PipelineStep(s, env).log == Body(s, env).log;
      assert Copy(s3, Cleaned(env), env).log == s3.log + Delivery(Cleaned(env), env);
    }
  }

  /** The stages the delivered path passes through before the copy, ending in the state `s3` that is copied from. */
  lemma DeliveredStages(s: SessionState, env: Env) returns (s3: SessionState)
    requires Delivered(s, env)
    ensures s3.log == s.log + [Notice(Transcribing, false), TranscribeCalled, Notice(Cleaning, false)]
    ensures Body(s, env) == Copy(s3, Cleaned(env), env)
  {
    var s0 := s.(tempFile := true);
    var s1 := Emit(s0, Notice(Transcribing, false));
    var s2 := Emit(s1, TranscribeCalled);
    s3 := s0.(log := s.log + [Notice(Transcribing, false), TranscribeCalled, Notice(Cleaning, false)]);
    assert Emit(s2, Notice(Cleaning, false)) == s3 by {
      assert s2.log + [Notice(Cleaning, false)] == s3.log;
    }
    assert Body(s, env) == Gate(s0, env);
    assert Gate(s0, env) == Recognise(s1, env) by { assert s0.frames == s.frames; }
    assert Recognise(s1, env) == Transcribe(s2, env);
    assert Transcribe(s2, env) == Clean(s2, RawTranscript(env.segments.value), env);
  }

  /**
   * On the delivered path an available, working paste inserts the cleaned
   * transcript, a failed paste is only reported as a warning, no error notice
   * is shown at all, and the run ends by resetting the progress display.
   */
  lemma PasteWhenDelivered(s: SessionState, env: Env)
    ensures var r := PipelineStep(s, env);
      && s.log < r.log
      && (Delivered(s, env) && env.pasteAvailable && env.pasteOk ==> PasteSent(Cleaned(env)) in New(s, r))
      && (Delivered(s, env) && env.pasteAvailable && !env.pasteOk ==> Notice(PasteFailed, false) in New(s, r))
      && (Delivered(s, env) ==> Quiet(New(s, r)))
      && (Delivered(s, env) ==> r.log[|r.log| - 1] == ProgressShown(0.0))
  {
    if Delivered(s, env) {
      DeliveredLog(s, env);
      DeliveryTail(s.log, PipelineStep(s, env).log, Cleaned(env), env);
    } else {
      PipelineOutcome(s, env);
    }
  }

  /** The facts of `PasteWhenDelivered` for any log that ends with the announcements and the delivery of `text`. */
  lemma DeliveryTail(before: seq<Event>, after: seq<Event>, text: string, env: Env)
    requires after == before + [Notice(Transcribing, false), TranscribeCalled, Notice(Cleaning, false)] + Delivery(text, env)
    ensures before < after && after[|after| - 1] == ProgressShown(0.0)
    ensures env.pasteAvailable && env.pasteOk ==> PasteSent(text) in after[|before|..]
    ensures env.pasteAvailable && !env.pasteOk ==> Notice(PasteFailed, false) in after[|before|..]
    ensures Quiet(after[|before|..])
  {
    var pre := [Notice(Transcribing, false), TranscribeCalled, Notice(Cleaning, false)];
    var d := Delivery(text, env);
    assert after[|before|..] == pre + d;
    DeliveryQuiet(text, env);
    QuietAppend(pre, d);
    if env.pasteAvailable {
      assert (pre + d)[3] == d[0];
    }
  }

  /** When no segment has text, nothing is cleaned, copied or pasted: the run ends with the no-speech notice. */
  lemma SilenceIsNotDelivered(s: SessionState, env: Env)
    requires env.saveOk && FileSize(s.frames) >= MinFileSize && s.modelLoaded && env.probeOk && env.transcribeOk
    requires env.segments.Some? && forall j :: 0 <= j < |env.segments.value| ==> !Speaks(env.segments.value[j])
    ensures !Delivered(s, env)
    ensures var r := PipelineStep(s, env); r.log[|r.log| - 1] == Notice(NoSpeech, true) && r.clipboard == s.clipboard
  {
    RawEmpty(env.segments.value);
  }

  /**
   * The two flags can both be set: a stop launches the processing thread, a
   * new start succeeds before that thread has claimed its flag, and then the
   * thread claims it while the new recording runs.
   */
  lemma BothFlagsReachable(s: SessionState, stop: StopEffects, start: StartEffects)
    requires s.recording && !s.processing && start.openOk && start.spawnOk
    ensures var r := EnterStep(StartStep(StopStep(s, stop), start));
      r.recording && r.processing
  {
  }

  // ------------------------------------------------------------------
  // The application object
  // ------------------------------------------------------------------

  class Session {
    var isRecording: bool
    var isProcessing: bool
    var audioFrames: seq<Chunk>
    var streamOpen: bool
    var tempFile: bool
    var clipboard: Option<string>
    var log: seq<Event>
    const modelLoaded: bool
    const ducker: Ducker

    constructor (modelLoaded: bool, ducker: Ducker)
      ensures Snap() == SessionState(false, false, [], false, false, None, [], modelLoaded, ducker.State())
    {
      isRecording, isProcessing, audioFrames, streamOpen := false, false, [], false;
      tempFile, clipboard, log := false, None, [];
      this.modelLoaded := modelLoaded;
      this.ducker := ducker;
    }

    function Snap(): SessionState
      reads this, ducker, ducker.mixer
    {
      SessionState(isRecording, isProcessing, audioFrames, streamOpen, tempFile, clipboard, log,
                   modelLoaded, ducker.State())
    }

    method StartRecording(e: StartEffects)
      modifies this, ducker, ducker.mixer
      ensures Snap() == StartStep(old(Snap()), e)
    {
      var armed := ArmRecording();
      if armed {
        ducker.Reduce(e.readOk, e.writeOk);
        OpenStream(e);
      }
    }

    /** The locked block of `start_recording`; `armed` says whether recording may go on. */
    method ArmRecording() returns (armed: bool)
      modifies this
      ensures armed == (!old(isRecording) && !old(isProcessing))
      ensures Snap() == ArmStep(old(Snap()))
    {
      if isRecording {
        return false;
      }
      if isProcessing {
        log := log + [Notice(Busy, true)];
        return false;
      }
      isRecording := true;
      audioFrames := [];
      return true;
    }

    method OpenStream(e: StartEffects)
      modifies this, ducker, ducker.mixer
      ensures Snap() == OpenStep(old(Snap()), e)
    {
      if e.openOk {
        streamOpen := true;
        log := log + [Notice(RecordingStarted, false), ProgressShown(0.0)];
        if e.spawnOk {
          log := log + [RecorderLaunched];
          return;
        }
      }
      log := log + [Notice(CaptureFailed, true)];
      isRecording := false;
      ducker.Restore(e.restore.spawnOk, e.restore.fallbackOk);
    }

    method StopRecording(e: StopEffects)
      modifies this, ducker, ducker.mixer
      ensures Snap() == StopStep(old(Snap()), e)
    {
      if !isRecording {
        return;
      }
      isRecording := false;
      log := log + [Notice(Processing, false)];
      ducker.Restore(e.restore.spawnOk, e.restore.fallbackOk);
      if streamOpen && e.closeOk {
        streamOpen := false;
      }
      if e.launchOk {
        log := log + [ProcessorLaunched];
      }
    }

    /** The hotkey handler: stop when recording, start otherwise. */
    method OnHotkey(start: StartEffects, stop: StopEffects)
      modifies this, ducker, ducker.mixer
      ensures old(isRecording) ==> Snap() == StopStep(old(Snap()), stop)
      ensures !old(isRecording) ==> Snap() == StartStep(old(Snap()), start)
    {
      if isRecording {
        StopRecording(stop);
      } else {
        StartRecording(start);
      }
    }

    /** The body of the recorder thread; `stop` says how its own `stop_recording` turns out. */
    method RecordAudio(ticks: seq<Tick>, stop: StopEffects)
      modifies this, ducker, ducker.mixer
      ensures Snap() == RecordRun(old(Snap()), ticks, stop)
    {
      var i := 0;
      while isRecording && i < |ticks|
        invariant 0 <= i <= |ticks|
        invariant RecordRun(Snap(), ticks[i..], stop) == RecordRun(old(Snap()), ticks, stop)
      {
        var t := ticks[i];
        if t.ReadFailed? || !streamOpen {
          break;
        }
        audioFrames := audioFrames + [t.data];
        log := log + [ProgressShown(Progress(t.elapsed))];
        if t.elapsed >= MaxRecordingTime {
          StopRecording(stop);
          break;
        }
        assert ticks[i..][1..] == ticks[i + 1..];
        i := i + 1;
      }
    }

    /** The locked entry of `process_audio`. */
    method EnterProcessing() returns (entered: bool)
      modifies this
      ensures entered == !old(isProcessing)
      ensures Snap() == EnterStep(old(Snap()))
    {
      if isProcessing {
        log := log + [Notice(AlreadyProcessing, true)];
        return false;
      }
      isProcessing := true;
      return true;
    }

    /** The body of the `try` in `process_audio`. */
    method PipelineBody(env: Env)
      modifies this
      ensures Snap() == Body(old(Snap()), env)
    {
      if !env.saveOk {
        log := log + [Notice(SaveFailed, true)];
        return;
      }
      tempFile := true;
      CheckAndTranscribe(env);
    }

    method CheckAndTranscribe(env: Env)
      modifies this
      ensures Snap() == Gate(old(Snap()), env)
    {
      if FileSize(audioFrames) < MinFileSize {
        log := log + [Notice(TooShort, true)];
        return;
      }
      if !modelLoaded {
        log := log + [Notice(ModelMissing, true)];
        return;
      }
      log := log + [Notice(Transcribing, false)];
      CallRecogniser(env);
    }

    /** The guarded block around the recogniser call. */
    method CallRecogniser(env: Env)
      modifies this
      ensures Snap() == Recognise(old(Snap()), env)
    {
      if !env.probeOk {
        log := log + [Notice(TranscribeFailed, true)];
        return;
      }
      log := log + [TranscribeCalled];
      CollectSegments(env);
    }

    method CollectSegments(env: Env)
      modifies this
      ensures Snap() == Transcribe(old(Snap()), env)
    {
      if !env.transcribeOk {
        log := log + [Notice(TranscribeFailed, true)];
        return;
      }
      if env.segments.None? {
        log := log + [Notice(SegmentsFailed, true)];
        return;
      }
      var raw := RawTranscript(env.segments.value);
      if raw == [] {
        log := log + [Notice(NoSpeech, true)];
        return;
      }
      log := log + [Notice(Cleaning, false)];
      CopyAndPaste(CleanText(raw), env);
    }

    method CopyAndPaste(text: string, env: Env)
      modifies this
      ensures Snap() == Copy(old(Snap()), text, env)
    {
      if !env.copyOk {
        log := log + [Notice(CopyFailed, true)];
        return;
      }
      clipboard := Some(text);
      if !env.pasteAvailable {
        log := log + [Notice(ClipboardOnly, false)];
      } else if env.pasteOk {
        log := log + [PasteSent(text), Notice(Pasted, false)];
      } else {
        log := log + [Notice(PasteFailed, false)];
      }
      log := log + [ProgressShown(0.0)];
    }

    /** `process_audio` once the flag is claimed: the body, then the cleanup on every path. */
    method RunPipeline(env: Env)
      modifies this
      ensures Snap() == PipelineStep(old(Snap()), env)
    {
      PipelineBody(env);
      isProcessing := false;
      if env.saveOk && tempFile && env.removeOk {
        tempFile := false;
      }
    }

    /** The body of the processing thread. */
    method ProcessAudio(env: Env)
      modifies this
      ensures Snap() == ProcessStep(old(Snap()), env)
    {
      var entered := EnterProcessing();
      if entered {
        RunPipeline(env);
      }
    }
  }
}
