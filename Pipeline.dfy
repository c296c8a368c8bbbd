/**
 * The dictation pipeline (src-tauri/src/pipeline.rs) and the two hotkey
 * callbacks that drive it (src-tauri/src/hotkey.rs): on press the recorder
 * starts, on release the recording is stopped, transcribed, cleaned up by the
 * chat model, put on the clipboard (and pasted), and saved to the history,
 * while status events report each stage to the window.
 *
 * Everything outside the core is an input bundled in `Services`: the two
 * transcribers, the chat server's reply, the clipboard, the keyboard, the
 * history database's insert, and the record's id, timestamp and duration.
 */
module Pipeline {
  import opened Wrappers
  import opened Errors
  import opened Strings
  import opened Http
  import Audio
  import Settings
  import Llm
  import Output

  /** The stages the window is told about. */
  datatype Status = Recording | Transcribing | Cleaning | Done | Error

  /** `PipelineStatusEvent`: a stage and, depending on it, the texts or the error. */
  datatype StatusEvent = StatusEvent(status: Status, rawText: Option<string>, cleanedText: Option<string>, error: Option<string>)

  /** An event that carries only its stage. */
  function StatusOnly(status: Status): StatusEvent {
    StatusEvent(status, None, None, None)
  }

  /** An Error event with its message. */
  function ErrorEvent(message: string): StatusEvent {
    StatusEvent(Error, None, None, Some(message))
  }

  /** What a run that transcribes only whitespace reports. */
  const NoSpeech: StatusEvent := ErrorEvent("No speech detected")

  /** `TranscriptionRecord`: one saved dictation. */
  datatype TranscriptionRecord = TranscriptionRecord(
    id: string, rawText: string, cleanedText: string, createdAt: string, durationSecs: real, modelUsed: string)

  /**
   * The world outside the core during one run: the local and the remote
   * transcriber (functions of the arguments the pipeline passes), the chat
   * server's reply, a clipboard write failure, the keyboard and its stroke
   * failures, a history insert failure, and the fresh id, timestamp and
   * elapsed time of the record.
   */
  datatype Services = Services(
    transcribeLocal: (Audio.Wav, string) -> Res<string>,
    transcribeApi: (string, string, Audio.Wav, string) -> Res<string>,
    llmReply: Reply<Llm.ParsedReply>,
    clipboardError: Option<string>,
    keyboard: Result<(), string>,
    strokeError: Output.KeyAction -> Option<string>,
    insertError: Option<string>,
    id: string,
    createdAt: string,
    durationSecs: real)

  /** The transcription the configured mode asks for: the local model or the remote API, with the configured language. */
  function Transcript(wav: Audio.Wav, s: Settings.AppSettings, sv: Services): (r: Res<string>)
    ensures s.whisperMode == Settings.Local ==> r == sv.transcribeLocal(wav, s.whisperLanguage)
    ensures s.whisperMode == Settings.Api ==>
      r == sv.transcribeApi(s.whisperApiEndpoint, s.whisperApiKey, wav, s.whisperLanguage)
  {
    match s.whisperMode
    case Local => sv.transcribeLocal(wav, s.whisperLanguage)
    case Api => sv.transcribeApi(s.whisperApiEndpoint, s.whisperApiKey, wav, s.whisperLanguage)
  }

  /** The text that goes out: the cleaned text, or the raw text when cleanup failed. */
  function Cleaned(raw: string, cleanup: Res<string>): string {
    if cleanup.Ok? then cleanup.value else raw
  }

  /**
   * What one run does: the events it emits, the text it puts on the
   * clipboard, the keys it strokes, the record it saves, the history size it
   * prunes to, and its result.
   */
  datatype RunOutcome = RunOutcome(
    events: seq<StatusEvent>, clipboard: Option<string>, strokes: seq<Output.KeyAction>,
    saved: Option<TranscriptionRecord>, pruneTo: Option<nat>, r: Res<()>)

  /** A run that ends before anything is output, with the events so far and a result. */
  function Ended(events: seq<StatusEvent>, r: Res<()>): RunOutcome {
    RunOutcome(events, None, [], None, None, r)
  }

  /** The event that announces cleanup of a transcript, carrying it. */
  function CleaningEvent(raw: string): StatusEvent {
    StatusEvent(Cleaning, Some(raw), None, None)
  }

  /** What `cleanup_text` returns for the configured chat server's reply. */
  function Cleanup(s: Settings.AppSettings, sv: Services): Res<string>
    requires Llm.MatchesApi(s.llm.apiType, sv.llmReply)
  {
    Llm.CleanupResult(s.llm.apiType, sv.llmReply)
  }

  /** The keys `simulate_paste` strokes with the configured shortcut and the given keyboard. */
  function Pasted(s: Settings.AppSettings, sv: Services): seq<Output.KeyAction> {
    Output.PasteOutcome(s.pasteShortcut, sv.keyboard, sv.strokeError).0
  }

  /**
   * The output of a run with a transcript that is not blank and the text to
   * output, after cleanup was announced, given the keys a paste strokes: a
   * clipboard failure is the run's error; otherwise the text is on the
   * clipboard (and pasted when auto-paste is on), Done is announced with
   * both texts, and the record is saved, a failed save being ignored.
   */
  function Deliver(raw: string, cleaned: string, pasted: seq<Output.KeyAction>, s: Settings.AppSettings, sv: Services): RunOutcome {
    match Output.CopyToClipboard(sv.clipboardError)
    case Err(e) => Ended([], Err(e))
    case Ok(_) =>
      var record := TranscriptionRecord(sv.id, raw, cleaned, sv.createdAt, sv.durationSecs, s.whisperModel);
      RunOutcome(
        [StatusEvent(Done, Some(raw), Some(cleaned), None)], Some(cleaned), if s.autoPaste then pasted else [],
        if sv.insertError.None? then Some(record) else None, Some(s.historyMaxItems), Ok(()))
  }

  /** A failed clipboard write ends the output stage with that error and nothing else. */
  lemma DeliverFails(raw: string, cleaned: string, pasted: seq<Output.KeyAction>, s: Settings.AppSettings, sv: Services)
    requires sv.clipboardError.Some?
    ensures Deliver(raw, cleaned, pasted, s, sv) == Ended([], Output.CopyToClipboard(sv.clipboardError))
  {}

  /** A clipboard write that succeeds delivers the text, strokes the paste when auto-paste is on and records the run. */
  lemma DeliverCopies(raw: string, cleaned: string, pasted: seq<Output.KeyAction>, s: Settings.AppSettings, sv: Services)
    requires sv.clipboardError.None?
    ensures Deliver(raw, cleaned, pasted, s, sv) == RunOutcome(
      [StatusEvent(Done, Some(raw), Some(cleaned), None)], Some(cleaned), if s.autoPaste then pasted else [],
      if sv.insertError.None? then Some(TranscriptionRecord(sv.id, raw, cleaned, sv.createdAt, sv.durationSecs, s.whisperModel)) else None,
      Some(s.historyMaxItems), Ok(()))
  {}

  /**
   * A run after transcription, given what cleanup returns and the keys a
   * paste strokes: "No speech detected" for a blank transcript; otherwise
   * cleanup is announced with the raw text, and the cleaned text (the raw
   * text when cleanup fails) is delivered.
   */
  function Process(raw: string, cleanup: Res<string>, pasted: seq<Output.KeyAction>, s: Settings.AppSettings, sv: Services): RunOutcome {
    if Trim(raw) == [] then Ended([NoSpeech], Ok(()))
    else
      var d := Deliver(raw, Cleaned(raw, cleanup), pasted, s, sv);
      d.(events := [CleaningEvent(raw)] + d.events)
  }

  /** `Process` on a transcript that trims to nothing. */
  lemma ProcessBlank(raw: string, cleanup: Res<string>, pasted: seq<Output.KeyAction>, s: Settings.AppSettings, sv: Services)
    requires Trim(raw) == []
    ensures Process(raw, cleanup, pasted, s, sv) == Ended([NoSpeech], Ok(()))
  {
  }

  /**
   * A run after transcription was announced, given what stopping the
   * recorder returned: a recorder or transcription error ends it, and
   * otherwise it goes on with the transcript.
   */
  function AfterStop(stopped: Res<Audio.Wav>, s: Settings.AppSettings, sv: Services): RunOutcome
    requires Llm.MatchesApi(s.llm.apiType, sv.llmReply)
  {
    match stopped
    case Err(e) => Ended([], Err(e))
    case Ok(wav) =>
      match Transcript(wav, s, sv)
      case Err(e) => Ended([], Err(e))
      case Ok(raw) => Process(raw, Cleanup(s, sv), Pasted(s, sv), s, sv)
  }

  /** `run_pipeline`, given what stopping the recorder returned: transcription is announced first. */
  function Run(stopped: Res<Audio.Wav>, s: Settings.AppSettings, sv: Services): RunOutcome
    requires Llm.MatchesApi(s.llm.apiType, sv.llmReply)
  {
    var rest := AfterStop(stopped, s, sv);
    rest.(events := [StatusOnly(Transcribing)] + rest.events)
  }

  /** What the release callback emits: the run's events, then an Error event with the message of a failed run. */
  function ReleasedEvents(o: RunOutcome): seq<StatusEvent> {
    if o.r.Err? then o.events + [ErrorEvent(Display(o.r.error))] else o.events
  }

  /** The result `start_recording` gives for the recorder's buffer slot. */
  function StartResult(buffer: Option<Audio.RecordingBuffer>, deviceIndex: Option<nat>, host: Audio.Host): Res<()> {
    if buffer.Some? then Err(AppError.Audio("Already recording"))
    else match Audio.Probe(deviceIndex, host)
      case Err(e) => Err(e)
      case Ok(_) => Ok(())
  }

  /** What the press callback emits for the result of starting the recorder. */
  function PressedEvent(started: Res<()>): StatusEvent {
    if started.Err? then ErrorEvent("Failed to start recording: " + Display(started.error))
    else StatusOnly(Recording)
  }

  /** Concatenation is associative. */
  lemma AppendAssoc<T>(a: seq<T>, b: seq<T>, c: seq<T>)
    ensures a + (b + c) == (a + b) + c
  {
  }

  /** The items of an optional value, as a list. */
  function Items<T>(o: Option<T>): seq<T> {
    if o.Some? then [o.value] else []
  }

  /**
   * After a blank transcript, the "No speech detected" event is all a run
   * adds: the lists it extends stay as they were.
   */
  lemma BlankAddsOnlyNoSpeech(raw: string, cleanup: Res<string>, pasted: seq<Output.KeyAction>, s: Settings.AppSettings, sv: Services,
                              events0: seq<StatusEvent>, strokes0: seq<Output.KeyAction>, history0: seq<TranscriptionRecord>, prune0: seq<nat>)
    requires Trim(raw) == []
    ensures var o := Process(raw, cleanup, pasted, s, sv);
      o.r == Ok(()) && o.clipboard.None? && events0 + [NoSpeech] == events0 + o.events && strokes0 == strokes0 + o.strokes &&
      history0 == history0 + Items(o.saved) && prune0 == prune0 + Items(o.pruneTo)
  {
    ProcessBlank(raw, cleanup, pasted, s, sv);
    EndedAddsOnly(Process(raw, cleanup, pasted, s, sv), NoSpeech, events0, strokes0, history0, prune0);
  }

  /** A run that ends with one event and success adds that event and nothing else. */
  lemma EndedAddsOnly(o: RunOutcome, e: StatusEvent,
                      events0: seq<StatusEvent>, strokes0: seq<Output.KeyAction>, history0: seq<TranscriptionRecord>, prune0: seq<nat>)
    requires o == Ended([e], Ok(()))
    ensures o.r == Ok(()) && o.clipboard.None? && events0 + [e] == events0 + o.events && strokes0 == strokes0 + o.strokes &&
      history0 == history0 + Items(o.saved) && prune0 == prune0 + Items(o.pruneTo)
  {
    assert strokes0 + [] == strokes0 && history0 + [] == history0 && prune0 + [] == prune0;
  }

  // ---------------------------------------------------------------------------
  // The application state the callbacks change

  class App {
    var settings: Settings.AppSettings
    const recorder: Audio.AudioRecorder
    /** The status events emitted so far, in order. */
    var events: seq<StatusEvent>
    /** The text last put on the clipboard. */
    var clipboard: Option<string>
    /** The simulated key strokes issued so far. */
    var strokes: seq<Output.KeyAction>
    /** The saved records, oldest first. */
    var history: seq<TranscriptionRecord>
    /** The sizes the history was asked to be pruned to, in order. */
    var pruneRequests: seq<nat>

    ghost predicate Valid()
      reads this, recorder
    {
      recorder.Valid()
    }

    constructor (settings: Settings.AppSettings)
      ensures Valid() && !recorder.IsRecording() && fresh(recorder)
      ensures this.settings == settings && events == [] && clipboard == None && strokes == []
      ensures history == [] && pruneRequests == []
    {
      this.settings := settings;
      recorder := new Audio.AudioRecorder();
      events := [];
      clipboard := None;
      strokes := [];
      history := [];
      pruneRequests := [];
    }

    /**
     * `on_hotkey_pressed`: start recording from the configured device and
     * report Recording, or report the failure as an Error event.
     */
    method OnHotkeyPressed(host: Audio.Host)
      requires Valid()
      modifies this, recorder
      ensures Valid()
      ensures events == old(events) + [PressedEvent(StartResult(old(recorder.buffer), settings.audioDeviceIndex, host))]
      ensures recorder.IsRecording() <==>
        old(recorder.buffer).Some? || StartResult(old(recorder.buffer), settings.audioDeviceIndex, host).Ok?
      ensures old(recorder.buffer).Some? ==>
        recorder.buffer == old(recorder.buffer) && recorder.recordingThread == old(recorder.recordingThread)
      ensures old(recorder.buffer).None? && Audio.Probe(settings.audioDeviceIndex, host).Err? ==>
        recorder.buffer.None? && recorder.recordingThread.None?
      ensures old(recorder.buffer).None? && Audio.Probe(settings.audioDeviceIndex, host).Ok? ==>
        var (device, config) := Audio.Probe(settings.audioDeviceIndex, host).value;
        recorder.buffer == Some(Audio.RecordingBuffer([], config.sampleRate, config.channels)) &&
        recorder.recordingThread == Some(Audio.CaptureThread(device, config))
      ensures unchanged(this`settings, this`clipboard, this`strokes, this`history, this`pruneRequests)
    {
      var started := recorder.StartRecording(settings.audioDeviceIndex, host);
      if started.Err? {
        events := events + [ErrorEvent("Failed to start recording: " + Display(started.error))];
        return;
      }
      events := events + [StatusOnly(Recording)];
    }

    /** The state has grown by what `o` says, from the given earlier values. */
    predicate Applied(o: RunOutcome, events0: seq<StatusEvent>, clipboard0: Option<string>,
                      strokes0: seq<Output.KeyAction>, history0: seq<TranscriptionRecord>, prune0: seq<nat>)
      reads this
    {
      events == events0 + o.events &&
      clipboard == (if o.clipboard.Some? then o.clipboard else clipboard0) &&
      strokes == strokes0 + o.strokes &&
      history == history0 + Items(o.saved) &&
      pruneRequests == prune0 + Items(o.pruneTo)
    }

    /** After a blank transcript, adding the "No speech detected" event alone is what `Process` says. */
    lemma BlankIsApplied(raw: string, cleanup: Res<string>, pasted: seq<Output.KeyAction>, s: Settings.AppSettings, sv: Services,
                         events0: seq<StatusEvent>, clipboard0: Option<string>,
                         strokes0: seq<Output.KeyAction>, history0: seq<TranscriptionRecord>, prune0: seq<nat>)
      requires Trim(raw) == []
      requires events == events0 + [NoSpeech] && clipboard == clipboard0 && strokes == strokes0
      requires history == history0 && pruneRequests == prune0
      ensures Process(raw, cleanup, pasted, s, sv).r == Ok(())
      ensures Applied(Process(raw, cleanup, pasted, s, sv), events0, clipboard0, strokes0, history0, prune0)
    {
      BlankAddsOnlyNoSpeech(raw, cleanup, pasted, s, sv, events0, strokes0, history0, prune0);
    }

    /** An outcome that only ends the run leaves the state as it is. */
    lemma NothingApplied(o: RunOutcome)
      requires o == Ended([], o.r)
      ensures Applied(o, events, clipboard, strokes, history, pruneRequests)
    {
      assert events + [] == events && strokes + [] == strokes;
      assert history + [] == history && pruneRequests + [] == pruneRequests;
    }

    /** A delivered outcome is applied by storing its clipboard text and appending its other parts. */
    lemma DeliveredApplied(o: RunOutcome, events0: seq<StatusEvent>, clipboard0: Option<string>,
                           strokes0: seq<Output.KeyAction>, history0: seq<TranscriptionRecord>, prune0: seq<nat>)
      requires o.clipboard.Some? && clipboard == o.clipboard
      requires events == events0 + o.events && strokes == strokes0 + o.strokes
      requires history == history0 + Items(o.saved) && pruneRequests == prune0 + Items(o.pruneTo)
      ensures Applied(o, events0, clipboard0, strokes0, history0, prune0)
    {}

    /** The output stage of `run_pipeline`: what `Deliver` says. */
    method DeliverText(raw: string, cleaned: string, sv: Services) returns (r: Res<()>)
      modifies this
      ensures settings == old(settings)
      ensures var o := Deliver(raw, cleaned, Pasted(old(settings), sv), old(settings), sv);
        r == o.r && Applied(o, old(events), old(clipboard), old(strokes), old(history), old(pruneRequests))
    {
      var s := settings;
      ghost var o := Deliver(raw, cleaned, Pasted(s, sv), s, sv);
      var output, pasted := Output.CopyAndPaste(s.autoPaste, s.pasteShortcut, sv.clipboardError, sv.keyboard, sv.strokeError);
      if output.Err? {
        DeliverFails(raw, cleaned, Pasted(s, sv), s, sv);
        NothingApplied(o);
        return Err(output.error);
      }
      DeliverCopies(raw, cleaned, Pasted(s, sv), s, sv);
      assert pasted == o.strokes;
      StoreDelivered(raw, cleaned, pasted, sv);
      DeliveredApplied(o, old(events), old(clipboard), old(strokes), old(history), old(pruneRequests));
      return Ok(());
    }

    /** What a delivered transcript leaves behind: the Done event, the clipboard text, the strokes and the history requests. */
    method StoreDelivered(raw: string, cleaned: string, pasted: seq<Output.KeyAction>, sv: Services)
      modifies this`events, this`clipboard, this`strokes, this`history, this`pruneRequests
      ensures events == old(events) + [StatusEvent(Done, Some(raw), Some(cleaned), None)]
      ensures clipboard == Some(cleaned) && strokes == old(strokes) + pasted
      ensures history == old(history) +
        if sv.insertError.None? then [TranscriptionRecord(sv.id, raw, cleaned, sv.createdAt, sv.durationSecs, settings.whisperModel)] else []
      ensures pruneRequests == old(pruneRequests) + [settings.historyMaxItems]
    {
      events := events + [StatusEvent(Done, Some(raw), Some(cleaned), None)];
      clipboard := Some(cleaned);
      strokes := strokes + pasted;
      var record := TranscriptionRecord(sv.id, raw, cleaned, sv.createdAt, sv.durationSecs, settings.whisperModel);
      if sv.insertError.None? {
        history := history + [record];
      }
      pruneRequests := pruneRequests + [settings.historyMaxItems];
    }

    /** The cleanup stage of `run_pipeline`, for a transcript that is not blank: what `Process` says. */
    method CleanTranscript(raw: string, sv: Services) returns (r: Res<()>)
      requires Llm.MatchesApi(settings.llm.apiType, sv.llmReply) && Trim(raw) != []
      modifies this
      ensures settings == old(settings)
      ensures var o := Process(raw, Cleanup(old(settings), sv), Pasted(old(settings), sv), old(settings), sv);
        r == o.r && Applied(o, old(events), old(clipboard), old(strokes), old(history), old(pruneRequests))
    {
      ghost var events0 := events;
      events := events + [CleaningEvent(raw)];
      var _, cleanup := Llm.CleanupText(settings.llm, raw, sv.llmReply);
      var cleaned := if cleanup.Ok? then cleanup.value else raw;
      r := DeliverText(raw, cleaned, sv);
      AppendAssoc(events0, [CleaningEvent(raw)], Deliver(raw, cleaned, Pasted(settings, sv), settings, sv).events);
    }

    /** The "No speech detected" stage of `run_pipeline`: only the Error event is added. */
    method ReportNoSpeech() returns (r: Res<()>)
      modifies this`events
      ensures r == Ok(()) && events == old(events) + [NoSpeech]
    {
      events := events + [NoSpeech];
      r := Ok(());
    }

    /** The part of `run_pipeline` after transcription: what `Process` says. */
    method ProcessTranscript(raw: string, sv: Services) returns (r: Res<()>)
      requires Llm.MatchesApi(settings.llm.apiType, sv.llmReply)
      modifies this
      ensures settings == old(settings)
      ensures var o := Process(raw, Cleanup(old(settings), sv), Pasted(old(settings), sv), old(settings), sv);
        r == o.r && Applied(o, old(events), old(clipboard), old(strokes), old(history), old(pruneRequests))
    {
      if Trim(raw) == [] {
        r := ReportNoSpeech();
        BlankIsApplied(raw, Cleanup(settings, sv), Pasted(settings, sv), settings, sv,
                       old(events), old(clipboard), old(strokes), old(history), old(pruneRequests));
      } else {
        r := CleanTranscript(raw, sv);
      }
    }

    /** The stages of `run_pipeline` after the recorder was stopped: what `AfterStop` says. */
    method TranscribeAndProcess(stopped: Res<Audio.Wav>, sv: Services) returns (r: Res<()>)
      requires Llm.MatchesApi(settings.llm.apiType, sv.llmReply)
      modifies this
      ensures settings == old(settings)
      ensures var o := AfterStop(stopped, old(settings), sv);
        r == o.r && Applied(o, old(events), old(clipboard), old(strokes), old(history), old(pruneRequests))
    {
      if stopped.Err? {
        return Err(stopped.error);
      }
      var s := settings;
      var transcript :=
        if s.whisperMode == Settings.Local then sv.transcribeLocal(stopped.value, s.whisperLanguage)
        else sv.transcribeApi(s.whisperApiEndpoint, s.whisperApiKey, stopped.value, s.whisperLanguage);
      if transcript.Err? {
        return Err(transcript.error);
      }
      r := ProcessTranscript(transcript.value, sv);
    }

    /**
     * `run_pipeline`: the recorder is stopped, and the events, clipboard,
     * strokes, history and prune requests grow by what `Run` says for what
     * stopping returned.
     */
    method RunPipeline(sv: Services) returns (r: Res<()>)
      requires Valid() && Llm.MatchesApi(settings.llm.apiType, sv.llmReply)
      modifies this, recorder
      ensures Valid() && !recorder.IsRecording() && settings == old(settings)
      ensures var o := Run(Audio.StopOutcome(old(recorder.buffer)), old(settings), sv);
        r == o.r && Applied(o, old(events), old(clipboard), old(strokes), old(history), old(pruneRequests))
    {
      ghost var events0 := events;
      events := events + [StatusOnly(Transcribing)];
      var stopped := recorder.StopRecording();
      r := TranscribeAndProcess(stopped, sv);
      AppendAssoc(events0, [StatusOnly(Transcribing)], AfterStop(stopped, settings, sv).events);
    }

    /** `on_hotkey_released`: run the pipeline and report a failure as an Error event with its message. */
    method OnHotkeyReleased(sv: Services)
      requires Valid() && Llm.MatchesApi(settings.llm.apiType, sv.llmReply)
      modifies this, recorder
      ensures Valid() && !recorder.IsRecording() && settings == old(settings)
      ensures var o := Run(Audio.StopOutcome(old(recorder.buffer)), old(settings), sv);
        Applied(o.(events := ReleasedEvents(o)), old(events), old(clipboard), old(strokes), old(history), old(pruneRequests))
    {
      var r := RunPipeline(sv);
      if r.Err? {
        events := events + [ErrorEvent(Display(r.error))];
      }
    }
  }

  // ---------------------------------------------------------------------------
  // Properties of a run

  /** Every run first announces transcription, with no texts and no error. */
  lemma RunAnnouncesTranscription(stopped: Res<Audio.Wav>, s: Settings.AppSettings, sv: Services)
    requires Llm.MatchesApi(s.llm.apiType, sv.llmReply)
    ensures var o := Run(stopped, s, sv);
      |o.events| >= 1 && o.events[0] == StatusEvent(Transcribing, None, None, None)
  {
  }

  /**
   * A recorder or transcription failure ends the run with that error after
   * the first event: nothing is cleaned, output, announced as done or saved.
   */
  lemma RunAbortsOnCaptureFailure(stopped: Res<Audio.Wav>, s: Settings.AppSettings, sv: Services)
    requires Llm.MatchesApi(s.llm.apiType, sv.llmReply)
    requires stopped.Err? || Transcript(stopped.value, s, sv).Err?
    ensures var o := Run(stopped, s, sv);
      o.r == Err(if stopped.Err? then stopped.error else Transcript(stopped.value, s, sv).error) &&
      o == Ended([StatusOnly(Transcribing)], o.r)
  {
  }

  /** A run that gets a transcript goes on as `Process` says, after the announcement of transcription. */
  lemma RunTranscribed(wav: Audio.Wav, s: Settings.AppSettings, sv: Services, raw: string)
    requires Llm.MatchesApi(s.llm.apiType, sv.llmReply)
    requires Transcript(wav, s, sv) == Ok(raw)
    ensures var p := Process(raw, Cleanup(s, sv), Pasted(s, sv), s, sv);
      Run(Ok(wav), s, sv) == p.(events := [StatusOnly(Transcribing)] + p.events)
  {
  }

  /** An event put before the events of a run that ends early. */
  lemma PrependToEnded(o: RunOutcome, p: RunOutcome, e: StatusEvent, events: seq<StatusEvent>, r: Res<()>)
    requires p == Ended(events, r) && o == p.(events := [e] + p.events)
    ensures o == Ended([e] + events, r)
  {
  }

  /** A blank transcript is reported as "No speech detected", and the run succeeds without output or record. */
  lemma ProcessReportsNoSpeech(raw: string, cleanup: Res<string>, pasted: seq<Output.KeyAction>, s: Settings.AppSettings, sv: Services)
    requires IsBlank(raw)
    ensures Process(raw, cleanup, pasted, s, sv) == Ended([ErrorEvent("No speech detected")], Ok(()))
  {
    TrimEmptyIffBlank(raw);
  }

  /** The whole run with a blank transcript: Transcribing, then "No speech detected", and success. */
  lemma RunReportsNoSpeech(wav: Audio.Wav, s: Settings.AppSettings, sv: Services)
    requires Llm.MatchesApi(s.llm.apiType, sv.llmReply)
    requires Transcript(wav, s, sv).Ok? && IsBlank(Transcript(wav, s, sv).value)
    ensures Run(Ok(wav), s, sv) == Ended([StatusOnly(Transcribing)] + [ErrorEvent("No speech detected")], Ok(()))
  {
    var raw := Transcript(wav, s, sv).value;
    RunTranscribed(wav, s, sv, raw);
    ProcessReportsNoSpeech(raw, Cleanup(s, sv), Pasted(s, sv), s, sv);
    PrependToEnded(Run(Ok(wav), s, sv), Process(raw, Cleanup(s, sv), Pasted(s, sv), s, sv), StatusOnly(Transcribing), [NoSpeech], Ok(()));
  }

  /**
   * With a transcript that is not blank, cleanup is announced with the raw
   * text before anything is output, and what is output is the cleaned text,
   * or the raw text when cleanup failed.
   */
  lemma ProcessCleansOrKeepsRaw(raw: string, cleanup: Res<string>, pasted: seq<Output.KeyAction>, s: Settings.AppSettings, sv: Services)
    requires !IsBlank(raw)
    ensures var o := Process(raw, cleanup, pasted, s, sv);
      |o.events| >= 1 && o.events[0] == StatusEvent(Cleaning, Some(raw), None, None) &&
      (o.clipboard.Some? ==> o.clipboard.value == (if cleanup.Ok? then cleanup.value else raw))
  {
    TrimEmptyIffBlank(raw);
  }

  /**
   * After transcription, a run fails exactly when the transcript is not
   * blank and the clipboard fails; a failed run emits no Done event,
   * outputs nothing and saves nothing; a run that outputs announces Done
   * with both texts as its last event.
   */
  lemma ProcessFailsOnlyBeforeDone(raw: string, cleanup: Res<string>, pasted: seq<Output.KeyAction>, s: Settings.AppSettings, sv: Services)
    ensures var o := Process(raw, cleanup, pasted, s, sv);
      (o.r.Err? <==> !IsBlank(raw) && sv.clipboardError.Some?) &&
      (o.r.Err? ==> o.events == [CleaningEvent(raw)] && o == Ended(o.events, o.r)) &&
      (o.clipboard.Some? ==> o.r.Ok? && o.events == [CleaningEvent(raw), StatusEvent(Done, Some(raw), Some(o.clipboard.value), None)])
  {
    TrimEmptyIffBlank(raw);
  }

  /**
   * A run fails exactly when the recorder, the transcriber or the clipboard
   * fails, and a failed run outputs nothing and saves nothing.
   */
  lemma RunFailsOnlyBeforeOutput(stopped: Res<Audio.Wav>, s: Settings.AppSettings, sv: Services)
    requires Llm.MatchesApi(s.llm.apiType, sv.llmReply)
    ensures var o := Run(stopped, s, sv);
      (o.r.Err? <==> (stopped.Err? || Transcript(stopped.value, s, sv).Err? ||
        (!IsBlank(Transcript(stopped.value, s, sv).value) && sv.clipboardError.Some?))) &&
      (o.r.Err? ==> o.clipboard.None? && o.strokes == [] && o.saved.None? && o.pruneTo.None?)
  {
    if stopped.Ok? && Transcript(stopped.value, s, sv).Ok? {
      var raw := Transcript(stopped.value, s, sv).value;
      RunTranscribed(stopped.value, s, sv, raw);
      ProcessFailsOnlyBeforeDone(raw, Cleanup(s, sv), Pasted(s, sv), s, sv);
    }
  }

  /**
   * A run that outputs saves a record of the raw and the output text, the
   * configured model and the given id, time and duration, unless the insert
   * fails; either way the history is pruned to the configured size and the
   * run succeeds.
   */
  lemma ProcessSavesRecord(raw: string, cleanup: Res<string>, pasted: seq<Output.KeyAction>, s: Settings.AppSettings, sv: Services)
    requires Process(raw, cleanup, pasted, s, sv).clipboard.Some?
    ensures var o := Process(raw, cleanup, pasted, s, sv);
      o.r == Ok(()) && o.pruneTo == Some(s.historyMaxItems) &&
      (sv.insertError.None? <==> o.saved.Some?) &&
      (o.saved.Some? ==> (o.saved.value ==
        TranscriptionRecord(sv.id, raw, o.clipboard.value, sv.createdAt, sv.durationSecs, s.whisperModel)))
  {
  }

  /** A run pastes only with auto-paste on and the text on the clipboard, and then strokes what the paste strokes. */
  lemma ProcessPastesWhenAsked(raw: string, cleanup: Res<string>, pasted: seq<Output.KeyAction>, s: Settings.AppSettings, sv: Services)
    ensures var o := Process(raw, cleanup, pasted, s, sv);
      (o.strokes != [] ==> s.autoPaste && o.clipboard.Some?) &&
      (o.clipboard.Some? && s.autoPaste ==> o.strokes == pasted)
  {
    if Trim(raw) == [] {
      ProcessBlank(raw, cleanup, pasted, s, sv);
    } else if sv.clipboardError.None? {
      DeliverCopies(raw, Cleaned(raw, cleanup), pasted, s, sv);
    } else {
      DeliverFails(raw, Cleaned(raw, cleanup), pasted, s, sv);
    }
  }

  /** A status that ends a run as the window sees it. */
  predicate Final(e: StatusEvent) {
    e.status == Done || e.status == Error
  }

  /**
   * A list of events with none final but the last, which is final exactly
   * when `ok` holds.
   */
  predicate EndsOnce(events: seq<StatusEvent>, ok: bool) {
    |events| >= 1 && (forall i :: 0 <= i < |events| - 1 ==> !Final(events[i])) &&
    (ok <==> Final(events[|events| - 1]))
  }

  /** An event that is not final, put before such a list, keeps its shape. */
  lemma PrependNotFinal(e: StatusEvent, events: seq<StatusEvent>, ok: bool)
    requires !Final(e) && EndsOnce(events, ok)
    ensures EndsOnce([e] + events, ok)
  {
    var all := [e] + events;
    forall i | 0 <= i < |all| - 1
      ensures !Final(all[i])
    {
      if i > 0 {
        assert all[i] == events[i - 1];
      }
    }
  }

  /** The events after transcription are one of three short lists, and a blank transcript is a success. */
  lemma ProcessEventList(raw: string, cleanup: Res<string>, pasted: seq<Output.KeyAction>, s: Settings.AppSettings, sv: Services)
    ensures var o := Process(raw, cleanup, pasted, s, sv);
      (IsBlank(raw) ==> o.r.Ok?) &&
      o.events == (if IsBlank(raw) then [NoSpeech]
                   else if o.r.Ok? then [CleaningEvent(raw), StatusEvent(Done, Some(raw), Some(Cleaned(raw, cleanup)), None)]
                   else [CleaningEvent(raw)])
  {
    TrimEmptyIffBlank(raw);
  }

  /** Each of the three event lists after transcription ends once, with a final event exactly on success. */
  lemma ShortListEndsOnce(o: RunOutcome, raw: string, cleaned: string, blank: bool)
    requires blank ==> o.r.Ok?
    requires o.events == (if blank then [NoSpeech]
                          else if o.r.Ok? then [CleaningEvent(raw), StatusEvent(Done, Some(raw), Some(cleaned), None)]
                          else [CleaningEvent(raw)])
    ensures EndsOnce(o.events, o.r.Ok?)
  {
  }

  /** The events after transcription end once, with a final event exactly when the run succeeds. */
  lemma ProcessEventsShape(raw: string, cleanup: Res<string>, pasted: seq<Output.KeyAction>, s: Settings.AppSettings, sv: Services)
    ensures var o := Process(raw, cleanup, pasted, s, sv); EndsOnce(o.events, o.r.Ok?)
  {
    ProcessEventList(raw, cleanup, pasted, s, sv);
    ShortListEndsOnce(Process(raw, cleanup, pasted, s, sv), raw, Cleaned(raw, cleanup), IsBlank(raw));
  }

  /** The events of a run: Transcribing first, and a final event, last, exactly when the run succeeds. */
  lemma RunEventsShape(stopped: Res<Audio.Wav>, s: Settings.AppSettings, sv: Services)
    requires Llm.MatchesApi(s.llm.apiType, sv.llmReply)
    ensures var o := Run(stopped, s, sv);
      o.events[0] == StatusOnly(Transcribing) && EndsOnce(o.events, o.r.Ok?)
  {
    var rest := AfterStop(stopped, s, sv);
    if stopped.Ok? && Transcript(stopped.value, s, sv).Ok? {
      ProcessEventsShape(Transcript(stopped.value, s, sv).value, Cleanup(s, sv), Pasted(s, sv), s, sv);
      PrependNotFinal(StatusOnly(Transcribing), rest.events, rest.r.Ok?);
    } else {
      assert [StatusOnly(Transcribing)] + rest.events == [StatusOnly(Transcribing)];
    }
  }

  /**
   * Whatever happens, the release callback's events end with exactly one
   * final event (Done or Error), as the last one, after Transcribing.
   */
  lemma ReleaseEndsOnce(stopped: Res<Audio.Wav>, s: Settings.AppSettings, sv: Services)
    requires Llm.MatchesApi(s.llm.apiType, sv.llmReply)
    ensures var events := ReleasedEvents(Run(stopped, s, sv));
      |events| >= 2 && events[0] == StatusOnly(Transcribing) && Final(events[|events| - 1]) &&
      forall i :: 0 <= i < |events| - 1 ==> !Final(events[i])
  {
    RunEventsShape(stopped, s, sv);
    ReleasedShape(Run(stopped, s, sv));
  }

  /** A failed run's events followed by the Error event end once, and so do a successful run's own events. */
  lemma ReleasedShape(o: RunOutcome)
    requires |o.events| >= 1 && o.events[0] == StatusOnly(Transcribing) && EndsOnce(o.events, o.r.Ok?)
    ensures var events := ReleasedEvents(o);
      |events| >= 2 && events[0] == StatusOnly(Transcribing) && Final(events[|events| - 1]) &&
      forall i :: 0 <= i < |events| - 1 ==> !Final(events[i])
  {
    if o.r.Err? {
      var events := ReleasedEvents(o);
      assert events == o.events + [ErrorEvent(Display(o.r.error))];
      forall i | 0 <= i < |events| - 1
        ensures !Final(events[i])
      {
        assert events[i] == o.events[i];
      }
    }
  }
}
