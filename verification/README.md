# Dictation session model

A Dafny model of `OptimizedSpeechToTextApp` in `spracherkennung_faster.py`. The application is
a push-to-talk dictation tool. A hotkey starts and stops a microphone recording. While it
records, the AIMP music player is turned down. The recording is transcribed by a local Whisper
model, the transcript is cleaned of German filler words, and the result is copied to the
clipboard and pasted where the cursor is.

The project has six modules:

- `Options` (`options.dfy`): the `Option` datatype.
- `Text` (`text.dfy`): `clean_text` and the Python string primitives it uses. These are
  whitespace collapsing, `strip`, `split()`, `' '.join`, and one-character case maps.
  `CleanText` is the function as written, and the pipeline applies it. `NormalizeText` is the
  corrected version of the defect under "Findings"; the pipeline does not use it.
- `Transcript` (`transcript.dfy`): how `process_audio` joins the recogniser's segments into the
  raw transcript.
- `Ducking` (`ducking.dfy`): the volume controller.
  - The `Mixer` class is the player's volume interface. It logs every write and takes each
    write's success as a parameter.
  - The `Ducker` class is the optional mixer plus the stored original volume.
  - The methods `Reduce`, `Restore` and `FadeIn` are each proved against a step function on
    `DuckState`. `Ramp`, the fade loop, is proved against the write sequence `RampWrites` and
    the level `Applied` those writes leave.
- `Config` (`config.dfy`): the model-name mapping and compute type of `load_model`, and the
  clamped window position of `setup_gui`.
- `Session` (`session.dfy`): the `Session` class.
  - Its fields are the two flags, the recorded chunks, whether a stream is open, whether the
    temporary file exists, the clipboard and an event log.
  - Each lock-guarded block and each thread body is one method, specified by a step function
    on `SessionState`.
  - Every outside effect is a parameter of the method: the stream, the reads and their times,
    saving, the memory probe before the recogniser call, the recogniser's segments, the clipboard
    and the paste.
  - The lemmas state the guards, the gating of the processing pipeline and its cleanup path.

## Model

| member | source | states |
|---|---|---|
| Text.CaseMaps | spracherkennung_faster.py:644-645 | upper-casing never creates or removes whitespace, is stable, and lower-casing forgets it |
| Text.Strip | spracherkennung_faster.py:641 | the result has no whitespace at either end |
| Text.StripBounds | spracherkennung_faster.py:641 | `strip()` returns the slice between the leading and the trailing whitespace run: what it drops is whitespace, what it keeps starts and ends with non-whitespace, and it is empty exactly for an all-whitespace input |
| Text.LStripBounds | spracherkennung_faster.py:641 | the left half of `strip()` drops exactly a whitespace prefix |
| Text.RStripBounds | spracherkennung_faster.py:641 | the right half of `strip()` drops exactly a whitespace suffix |
| Text.Collapse | spracherkennung_faster.py:640 | replacing whitespace runs never lengthens the text, keeps it empty exactly when it was, and leaves ' ' as the only whitespace character |
| Text.Join | spracherkennung_faster.py:657 | the join starts with the first token and has at least one character per separator |
| Text.Split | spracherkennung_faster.py:648 | every token is non-empty and free of whitespace |
| Text.KeepWords | spracherkennung_faster.py:651-655 | the kept tokens are an order-preserving subsequence of the input, each passes the filler test, and tokens stay tokens |
| Text.Terminate | spracherkennung_faster.py:659-661 | empty stays empty; a text already ending in '.', '!' or '?' is unchanged; otherwise the one character added is '.'; a non-empty result ends a sentence |
| Text.CleanText | spracherkennung_faster.py:634-663 | an empty input gives "", and a non-empty result ends in '.', '!' or '?' |
| Text.NormalizeText | spracherkennung_faster.py:634-663 | the corrected cleaner: an empty input gives "", and a non-empty result ends in '.', '!' or '?' |
| Text.StripCollapse | spracherkennung_faster.py:640-648 | collapsing whitespace runs and stripping gives the `split()` tokens joined by single spaces |
| Text.JoinShape | spracherkennung_faster.py:657 | joined tokens are single-spaced, empty exactly for no tokens, and start and end with the outer tokens' characters |
| Text.SplitJoin | spracherkennung_faster.py:648-657 | splitting joined tokens gives the tokens back |
| Text.CapitalizeJoin | spracherkennung_faster.py:644-648 | capitalising the joined text capitalises only its first token |
| Text.TerminateLastWords | spracherkennung_faster.py:659-661 | the '.' lands on the last token, which keeps the filler test and the first character; the result ends a sentence |
| Text.SingleSpacedTerminate | spracherkennung_faster.py:659-661 | appending the '.' keeps the single-spaced shape |
| Text.KeepWordsMembers | spracherkennung_faster.py:651-655 | every kept token is an input token, and every input token that passes the test is kept |
| Text.KeepWordsAppend | spracherkennung_faster.py:651-655 | filtering a concatenation filters each part: every occurrence of a passing token is kept, in order |
| Text.KeepWordsOne | spracherkennung_faster.py:651-655 | one token is kept exactly when it passes the filler test |
| Text.KeepAll | spracherkennung_faster.py:651-655 | when every token passes, the filter keeps them all |
| Text.FillerCapitalised | spracherkennung_faster.py:653-654 | the filler test lower-cases first, so "Ähm" is dropped |
| Text.KelvinFiller | spracherkennung_faster.py:653-654 | the filler test's lower-casing maps the Kelvin sign to 'k', so "PRA\u212ATISCH" is the filler "praktisch" and is dropped |
| Text.SharpSFiller | spracherkennung_faster.py:653-654 | it maps the capital sharp s to 'ß', so "GEWISSERMA\u1E9EEN" is the filler "gewissermaßen" and is dropped |
| Text.KeptWords | spracherkennung_faster.py:653-654 | the test also strips punctuation: "das" and "Das." are kept |
| Text.CleanTextWords | spracherkennung_faster.py:634-663 | `clean_text` is: capitalise the first input token, filter, join, terminate |
| Text.CleanTextEmpty | spracherkennung_faster.py:636-661 | the result is "" exactly when every token is a filler word or pure punctuation, the empty input included |
| Text.CleanTextShape | spracherkennung_faster.py:640-661 | the result is single-spaced with no outer whitespace, and a non-empty result ends in '.', '!' or '?' |
| Text.CleanTextTokens | spracherkennung_faster.py:644-661 | the output tokens are the surviving tokens, unmodified and in order, each passing the filler test, with the '.' on the last |
| Text.CleanTextDropsFirst | spracherkennung_faster.py:644-655 | when the capitalised first of two tokens is dropped, the second comes out uncapitalised |
| Text.CleanTextKeepsOne | spracherkennung_faster.py:644-661 | a single kept token comes out capitalised and terminated |
| Text.CleanTextDropsCapital | spracherkennung_faster.py:644-661 | "ähm das" is cleaned to "das." |
| Text.CleanTextNotIdempotent | spracherkennung_faster.py:644-661 | cleaning "ähm das" twice gives "Das.", not "das." |
| Text.NormalizeWords | spracherkennung_faster.py:634-663 | the corrected cleaner filters first and then capitalises the first surviving token |
| Text.NormalizeAgreesWhenFirstKept | spracherkennung_faster.py:644-655 | the corrected cleaner equals `clean_text` whenever the first token survives |
| Text.NormalizeJoin | spracherkennung_faster.py:657-661 | the corrected result is the join of its normalised tokens |
| Text.NormalFixed | spracherkennung_faster.py:634-663 | cleaning an already normalised text changes nothing |
| Text.NormalizeIdempotent | spracherkennung_faster.py:634-663 | the corrected cleaner is idempotent; its result starts with an upper-case-stable character, ends a sentence and is single-spaced |
| Transcript.RawTranscript | spracherkennung_faster.py:760 | the joined and stripped transcript is empty or has no whitespace at either end |
| Transcript.SegmentTexts | spracherkennung_faster.py:752-758 | every collected text is non-empty with no whitespace at either end, and there are no more texts than segments |
| Transcript.SegmentTextSource | spracherkennung_faster.py:756-758 | the i-th collected text is the stripped text of a speaking segment at or after position i |
| Transcript.SegmentTextsSound | spracherkennung_faster.py:756-758 | every collected text is the stripped text of a speaking segment |
| Transcript.SegmentTextsComplete | spracherkennung_faster.py:756-758 | every speaking segment's stripped text is collected |
| Transcript.SegmentTextsAppend | spracherkennung_faster.py:756-758 | collecting from a concatenation collects from each part: every speaking segment contributes one text, in order, repeats included |
| Transcript.SegmentTextsOne | spracherkennung_faster.py:757-758 | one segment contributes its stripped text exactly when it has non-blank text |
| Transcript.SegmentTextsEmpty | spracherkennung_faster.py:756-758 | nothing is collected exactly when no segment has non-blank text |
| Transcript.JoinTrimmed | spracherkennung_faster.py:760 | joining trimmed texts gives a trimmed text, or "" for none |
| Transcript.RawIsJoin | spracherkennung_faster.py:760 | the final `strip()` changes nothing: the transcript is the texts joined by single spaces |
| Transcript.RawEmpty | spracherkennung_faster.py:750-760 | the transcript is empty exactly when no segment has non-blank text, and is trimmed otherwise |
| Ducking.Mixer.GetMasterVolume | spracherkennung_faster.py:400 | returns the current level, or nothing when the call fails |
| Ducking.Mixer.SetMasterVolume | spracherkennung_faster.py:404 | the write is logged; only a successful write changes the level |
| Ducking.Ducker.constructor | spracherkennung_faster.py:155-156 | no stored level and no fade launched |
| Ducking.Ducker.Reduce | spracherkennung_faster.py:394-411 | the new state is `ReduceStep` of the old: only with a mixer and a successful read, store the level and write 0.07 |
| Ducking.Ducker.Restore | spracherkennung_faster.py:413-436 | the new state is `RestoreStep` of the old: a no-op without a mixer or stored level; otherwise launch the fade, or fall back to a direct write that forgets the level only on success |
| Ducking.Ducker.FadeIn | spracherkennung_faster.py:438-476 | the new state is `FadeStep` of the old: the fade writes, then the stored level is cleared |
| Ducking.Ducker.Ramp | spracherkennung_faster.py:447-465 | the loop's writes are exactly `RampWrites`, and the mixer's level is what they leave |
| Ducking.StepsTriedShape | spracherkennung_faster.py:457-465 | the loop tries between 1 and 20 steps; every step before the last tried one succeeded; it stops early exactly after a failed step |
| Ducking.FadeWritesShape | spracherkennung_faster.py:447-469 | at most 20 intermediate writes on the line to the target, ending at the first failure, then always one write of the exact target |
| Ducking.LastWriteWins | spracherkennung_faster.py:467-469 | a successful final write decides the level, whatever came before |
| Ducking.LevelLine | spracherkennung_faster.py:448-458 | after k steps the level is the start plus k step sizes |
| Ducking.LevelReachesTarget | spracherkennung_faster.py:450 | 20 steps of the computed size reach the target exactly |
| Ducking.FadeEndsOnTarget | spracherkennung_faster.py:457-469 | when every step succeeds, the 20th intermediate write is already the target |
| Ducking.LevelRises | spracherkennung_faster.py:448-458 | with a non-negative step the levels never fall |
| Ducking.FadeRises | spracherkennung_faster.py:447-469 | fading up, every write lies between start and target, and the writes rise |
| Ducking.RestoreWithoutOriginal | spracherkennung_faster.py:416-445 | without a mixer or a stored level, restore and fade change nothing |
| Ducking.ReduceStores | spracherkennung_faster.py:394-411 | without a mixer or after a failed read, reducing changes nothing; otherwise it stores the level read and makes exactly one write, of 0.07 |
| Ducking.FadeForgets | spracherkennung_faster.py:476 | a fade-in clears the stored level even when its final write failed |
| Ducking.DuckThenFade | spracherkennung_faster.py:394-476 | reduce, restore, then fade brings the mixer back to its original level, clears the stored level, and launches one fade, whatever level an unfinished earlier fade had left stored |
| Ducking.DuckThenFallback | spracherkennung_faster.py:394-430 | the same through the direct fallback write when the fade thread cannot start |
| Ducking.DuckTwiceForgets | spracherkennung_faster.py:399-400 | reducing twice before a restore overwrites the original with 0.07 |
| Config.ComputeType | spracherkennung_faster.py:227-231 | the compute type is int8 for every size |
| Config.ActualModel | spracherkennung_faster.py:198-223 | an unknown size is used as the model name; a known size loads one of the plain multilingual models, the size itself or the size without its "-int8" suffix |
| Config.LoadModel | spracherkennung_faster.py:179-256 | a loaded model is the mapped name in int8; the size is kept unless the first load fails, and is then the tiny fallback; there is no model exactly when the library is missing or both loads fail |
| Config.WindowPosition | spracherkennung_faster.py:348-356 | the corner is never negative; each coordinate is 0 or puts the window the margin away from the screen edge |
| Session.Progress | spracherkennung_faster.py:564-566 | progress is at most 100, and is 100 exactly once the time limit is reached |
| Session.ReadData | spracherkennung_faster.py:558-578 | one chunk per successful read, in order; every chunk before the last comes before the limit; a timeout exactly when the last chunk reaches the limit; otherwise the reads stop at a failure |
| Session.ReadProgress | spracherkennung_faster.py:563-566 | the k-th progress value comes from the k-th read, which succeeded, and is computed from that read's time |
| Session.ReadProgressLength | spracherkennung_faster.py:558-566 | there is exactly one progress value per kept chunk |
| Session.StartGuards | spracherkennung_faster.py:507-517 | a start while recording does nothing; a start while processing only adds the busy error |
| Session.StartFromIdle | spracherkennung_faster.py:504-549 | a start from idle empties the chunks and lowers the volume; it stays recording exactly when the stream opens and the thread starts; otherwise the error is reported and a restore requested |
| Session.FailedStartRestoresVolume | spracherkennung_faster.py:544-549 | after a failed start the mixer gets its level back, by fade or by direct write |
| Session.StopWhenIdle | spracherkennung_faster.py:591-594 | stopping when not recording does nothing |
| Session.StopFromRecording | spracherkennung_faster.py:588-616 | a stop clears the flag, keeps the chunks, requests the restore, closes the stream unless closing fails, and launches processing exactly when starting the thread works |
| Session.RecordingRestoresVolume | spracherkennung_faster.py:524-602 | a start, stop and fade round brings the mixer back to its level before the recording |
| Session.RecordNeedsOpenStream | spracherkennung_faster.py:558-560 | the recorder changes nothing unless recording with an open stream |
| Session.RecordOutcome | spracherkennung_faster.py:558-578 | the recorder keeps `ReadData`'s chunks with one progress value each, and stops the recording exactly on a timeout |
| Session.RecordFrames | spracherkennung_faster.py:558-573 | the chunks appended are `ReadData`'s, and recording continues exactly when the limit was not reached |
| Session.ProcessReleasesFlag | spracherkennung_faster.py:667-671 | a second run while processing only warns; otherwise the flag is clear again afterwards |
| Session.CopyEnds | spracherkennung_faster.py:786-826 | the copy stage only appends and never calls the recogniser; the text reaches the clipboard exactly when the copy works; a paste only then |
| Session.CleanEnds | spracherkennung_faster.py:774-782 | an empty transcript ends with an error; otherwise `clean_text` of it is delivered exactly when the copy works |
| Session.TranscribeEnds | spracherkennung_faster.py:719-782 | after the recogniser call, `clean_text` of the transcript is delivered exactly when the call and the segments worked, speech was heard and the copy works; the clipboard is kept otherwise |
| Session.RecogniseEnds | spracherkennung_faster.py:708-746 | the guarded block calls the recogniser exactly when the memory probe before it works; a failed probe ends the run with the transcription error |
| Session.GateEnds | spracherkennung_faster.py:684-746 | the recogniser is called exactly when the file is large enough, a model is loaded and the memory probe works |
| Session.BodyEnds | spracherkennung_faster.py:676-682 | a failed save stops the run; a saved file is marked as existing; `clean_text` of the transcript is delivered exactly on the delivered path |
| Session.PipelineOutcome | spracherkennung_faster.py:676-850 | a run leaves the recording side alone, only appends, releases the flag, calls the recogniser exactly when saved, large enough, loaded and the probe works, and removes exactly the file it saved |
| Session.DeliveryGate | spracherkennung_faster.py:774-791 | on the delivered path the clipboard ends up holding `clean_text` of the transcript |
| Session.FailureReported | spracherkennung_faster.py:676-791 | on every other path the clipboard is untouched and the run's last event is an error notice |
| Session.PasteOnlyDelivered | spracherkennung_faster.py:793-826 | a paste is sent only on the delivered path, and it inserts `clean_text` of the transcript |
| Session.DeliveredLog | spracherkennung_faster.py:684-826 | on the delivered path the run adds exactly the transcription notice, the recogniser call, the cleaning notice and the delivery of `clean_text` of the transcript, in that order |
| Session.PasteWhenDelivered | spracherkennung_faster.py:795-824 | on the delivered path an available, working paste inserts `clean_text` of the transcript; a failed paste is reported only as a warning; no error notice is shown; the run ends by resetting the progress display |
| Session.DeliveryQuiet | spracherkennung_faster.py:795-822 | delivering a text never shows an error notice, whether the paste works, fails or is unavailable |
| Session.SilenceIsNotDelivered | spracherkennung_faster.py:774-777 | when no segment has text, nothing is delivered and the run ends with the no-speech error |
| Session.BothFlagsReachable | spracherkennung_faster.py:615-671 | a start between launching processing and its entry succeeds, so both flags end up set |
| Session.Session.constructor | spracherkennung_faster.py:136-148 | not recording, not processing, no chunks, no stream |
| Session.Session.StartRecording | spracherkennung_faster.py:504-549 | the new state is `StartStep` of the old |
| Session.Session.ArmRecording | spracherkennung_faster.py:507-520 | it arms exactly when neither flag was set, and the state follows `ArmStep` |
| Session.Session.OpenStream | spracherkennung_faster.py:528-549 | the new state is `OpenStep` of the old |
| Session.Session.StopRecording | spracherkennung_faster.py:588-616 | the new state is `StopStep` of the old |
| Session.Session.OnHotkey | spracherkennung_faster.py:869-874 | stop exactly when recording, start otherwise |
| Session.Session.RecordAudio | spracherkennung_faster.py:551-586 | the loop's final state is `RecordRun` of the initial one |
| Session.Session.EnterProcessing | spracherkennung_faster.py:667-671 | it enters exactly when the flag was clear, and the state follows `EnterStep` |
| Session.Session.PipelineBody | spracherkennung_faster.py:676-682 | the new state is `Body` of the old |
| Session.Session.CheckAndTranscribe | spracherkennung_faster.py:684-705 | the new state is `Gate` of the old |
| Session.Session.CallRecogniser | spracherkennung_faster.py:708-746 | the new state is `Recognise` of the old |
| Session.Session.CollectSegments | spracherkennung_faster.py:719-782 | the new state is `Transcribe` of the old |
| Session.Session.CopyAndPaste | spracherkennung_faster.py:786-826 | the new state is `Copy` of the old |
| Session.Session.RunPipeline | spracherkennung_faster.py:676-850 | the new state is `PipelineStep` of the old |
| Session.Session.ProcessAudio | spracherkennung_faster.py:665-860 | the new state is `ProcessStep` of the old |

## Left out

- The Tk window, `show_notification`, `update_progress`, `show_success_message` and the
  performance label. Notifications are logged by kind and error flag, without their wording.
  Progress updates are logged by value. The success-message thread is left out.
- Logging, `flush_logger` and `gc.collect`: they are diagnostics with no effect on the state.
- The psutil memory probe before the recogniser call (lines 710-712) is not diagnostic only: it
  runs inside the transcription `try`, so when psutil is missing or `memory_info()` fails, the
  run ends with the transcription error and `transcribe()` is never called. The model keeps this
  as the flag `probeOk`; what the probe reports is left out. The psutil calls in the `except`
  branch (lines 735-744) are wrapped in their own catch-all and change nothing.
- Hotkey registration, `find_aimp`'s session discovery, `main`, argument parsing and
  `shutdown`. The mixer is given to the `Ducker` as present or absent.
- Thread interleavings and locks. Each lock-guarded block is one atomic method, and each thread
  body is one method called as a separate step. `Session.RecordAudio` sees the reads one tick
  at a time, and a `stop_recording` from another thread happens between two of its calls.
- Floating point, `time.time` and `time.sleep`. Volumes and elapsed times are `real`, and
  elapsed times are inputs of the reads.
- The Whisper library. Loading is a success flag (`Config.LoadModel`). The transcription is a
  success flag and a segment list, or `None` when iterating the segments fails.
- The exception that leaves `stop_recording` when starting the processing thread fails (line
  616) is modelled only by its effect on the state: the flag, the restore and the stream are
  already handled and no processing is launched. What the hotkey library does with the
  exception is not modelled.
- The outer catch-all of `process_audio` (lines 832-835). Only the exceptions the code itself
  handles are modelled.
- Session.Session.constructor: the model-loaded bit and the mixer are taken as given rather
  than computed by `load_model` and `find_aimp`.
- `save_audio`'s file contents. A save is a success flag. The file size is the 44-byte WAV
  header plus the recorded bytes. A save that fails after `wave.open` created the file leaves a
  file the model does not track.
- `str.upper` is modelled as a one-character-to-one-character map that capitalises only 'a'-'z'
  and U+00E0-U+00FE (except U+00F7), and is the identity everywhere else. Python also
  capitalises 'ÿ' (to U+0178), 'µ' (to U+039C) and the lower-case letters beyond Latin-1 (so
  `clean_text` turns "łódź" into "Łódź", where the model leaves "łódź"), and
  `"ß".upper() == "SS"` changes the length; none of these is modelled. `str.isspace` is the list
  of Unicode whitespace code points.
- Text.Lower: `str.lower` is modelled as a one-character-to-one-character map of 'A'-'Z',
  U+00C0-U+00DE (except U+00D7), the Kelvin sign U+212A (to 'k') and the capital sharp s U+1E9E
  (to 'ß'); it is the identity everywhere else. Python also lowers Greek, Cyrillic and the
  other capitals beyond Latin-1, and `"İ".lower()` is two characters. None of these produces
  only letters of the filler words (a-z, 'ä', 'ß'), so the filler test at line 653 keeps and
  drops the same tokens as the model; the lowered word itself is never output.
- Config.LoadModel is a function of the load outcomes; the `model_info` texts are left out.

## Findings

| source | as written | input that shows it | evidently intended | confidence | as-written member | corrected member |
|---|---|---|---|---|---|---|
| spracherkennung_faster.py:644-655 | the first character is upper-cased before the filler words are removed, so when the first token is a filler the capital goes with it | "ähm das" is cleaned to "das."; cleaning that again gives "Das." | capitalise the first surviving token, so that the result starts with a capital and a second pass changes nothing | not executed | Text.CleanTextNotIdempotent | Text.NormalizeIdempotent |
