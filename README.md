# Push-to-talk dictation core, modelled in Dafny

The application is a desktop push-to-talk dictation tool. Holding a global
hotkey starts capturing audio from an input device; releasing it stops the
capture, converts the samples to 16 kHz mono 16-bit WAV, transcribes them
(with a local Whisper model or an OpenAI-compatible HTTP API), lets a chat
model clean up the transcript, puts the result on the clipboard, optionally
pastes it by simulating the paste shortcut, and saves a history record.
Status events (Recording, Transcribing, Cleaning, Done, Error) tell the window
where a run is.

This project models the sequential core of that tool and proves its
properties:

- `Audio.dfy` (`audio.rs`): the input-device listing and its name filter, the
  device lookup, the recorder's Idle/Recording slot (`AudioRecorder`, a class
  whose `buffer` and `recordingThread` fields are set on start and taken on
  stop), and the conversion chain down-mix → resample → 16-bit quantisation.
- `Pipeline.dfy` (`pipeline.rs`, and the press and release callbacks of
  `hotkey.rs`): the stage machine of a run as an `App` class whose methods
  append to an event log, a clipboard slot, a key-stroke trace, a history list
  and a list of prune requests. Each method is proved against the
  specification function `Run`/`AfterStop`/`Process`/`Deliver`, and the
  lemmas state what a run promises.
- `Llm.dfy` (`llm.rs`): the unwrapping of an echoed XML-style tag, the chat
  message list, the endpoint URL, and the choice of the reply text.
- `Hotkey.dfy` (`hotkey.rs`): key-name parsing with its aliases, hotkey-string
  parsing, the legacy-format migration, the held-key set, and the combo latch
  of `HotkeyState`.
- `Output.dfy` (`output.rs`): paste-shortcut parsing, the key strokes of a
  simulated paste, and the error policy of copy-and-paste.
- `Settings.dfy` (`settings.rs`): the defaults, the serde defaults of fields
  older stores lack, and the load-time migrations.
- `Whisper.dfy` (`whisper.rs`): the model table, the download decision, the
  engine's loaded-model slot, segment concatenation, the HTTP transcription
  request and reply, and WAV decoding back to samples.
- Helpers: `Wrappers.dfy` (Option/Result), `Errors.dfy` (the error enum of
  `error.rs` and its display text), `Strings.dfy` (the `str` operations the
  code uses: split, join, trim, find, ASCII lower-casing, decimal printing),
  `Http.dfy` (reply outcome and endpoint URL), `Platform.dfy` (the target
  OS), `Arith.dfy` (integer and real arithmetic facts).

Floating-point values are modelled as exact `real`s. Casts are modelled as the
operations they perform: `as usize` on a non-negative value is the floor, and
`as i16` truncates toward zero after the clamp. Everything foreign becomes an
input: the audio host and its devices, the clipboard, the keyboard, the
file system (as the set of files that exist), the Whisper engine, HTTP
replies, the history database's insert outcome, and the record's id,
timestamp and duration.

Where the code differs from what its names, comments and call sites suggest,
the model follows the code:

- A listed device's `index` is its position in the UNFILTERED enumeration
  (`enumerate()` runs before the name filter), and `get_input_device` looks
  the index up in that same unfiltered enumeration (`Audio.ListedSelects`).
- The call sites in `pipeline.rs:59` and `pipeline.rs:61-66` pass a language
  argument that `whisper.rs:165` and `whisper.rs:203-207` do not take.
  Transcription inside a run is therefore a function of the arguments the
  pipeline passes (`Pipeline.Services`), and the two transcribers of
  `whisper.rs` are modelled separately.
- The default model name `large-v3-turbo-q5_0` and the names the settings
  migration writes (`tiny-q5_1`, `small-q5_1`) are not in the model table of
  `whisper.rs`. Loading any of them takes the "Unknown model" branch
  (`Settings.DefaultModelsUnknown`).

## Model

| member | source | states |
|---|---|---|
| Errors.Display | src-tauri/src/error.rs:3-31 | the displayed text is a subsystem prefix followed by the whole message; every variant except `Other` adds a non-empty prefix |
| Http.EndpointUrl | src-tauri/src/llm.rs:158 | the URL ends with the path, the part before it is a prefix of the endpoint, and it does not end with '/' |
| Http.EndpointSlashIgnored | src-tauri/src/whisper.rs:208-211 | a trailing '/' on the configured endpoint does not change the URL |
| Http.StatusTextInjective | src-tauri/src/whisper.rs:234-237 | the displayed status (code, space, reason phrase) determines the code: different codes never display alike |
| Http.StatusTextExamples | src-tauri/src/whisper.rs:234-237 | a registered code displays with its phrase ("404 Not Found"), an unregistered one with "<unknown status code>" |
| Audio.DeviceName | src-tauri/src/audio.rs:31 | a device's reported name, or "Device <index>" when the name cannot be read |
| Audio.ListedSound | src-tauri/src/audio.rs:26-54 | every listed device is shown by the filter, carries its own name and its enumeration index, and the indices strictly increase |
| Audio.ListedComplete | src-tauri/src/audio.rs:35-54 | every device whose lower-cased name starts with none of the hidden prefixes is listed |
| Audio.KeptSound | src-tauri/src/audio.rs:35-54 | after the first n devices of the enumeration, each kept entry passed the filter, carries its own name and an index below n, and indices increase |
| Audio.KeptComplete | src-tauri/src/audio.rs:35-54 | after the first n devices, every device before n that passed the filter has been kept |
| Audio.ListedSelects | src-tauri/src/audio.rs:60-68 | the index of a listed device selects that same device in `get_input_device` |
| Audio.GetInputDevice | src-tauri/src/audio.rs:60-73 | an index selects the device at that position of the enumeration; no index selects the default device; failures are audio errors |
| Audio.ListInputDevices | src-tauri/src/audio.rs:22-57 | an enumeration failure is an audio error; otherwise the result is the filtered listing |
| Audio.ToMono | src-tauri/src/audio.rs:217-226 | one channel is the identity; otherwise the length is the number of whole frames |
| Audio.AverageFrames | src-tauri/src/audio.rs:221-225 | one value per whole frame, the trailing partial frame dropped |
| Audio.ToMonoFrame | src-tauri/src/audio.rs:221-225 | the i-th mono sample is the mean of the i-th frame of consecutive samples |
| Audio.ToMonoWithin | src-tauri/src/audio.rs:217-226 | down-mixing keeps samples within any bounds the input keeps |
| Audio.ResampleLengthIsFloor | src-tauri/src/audio.rs:233-234 | the output length is the floor of len / (from / to) |
| Audio.SourcePositionSplit | src-tauri/src/audio.rs:238-240 | the source index is the floor of i·ratio and the fraction is the rest, in [0, 1) |
| Audio.SourceIndexInRange | src-tauri/src/audio.rs:237-248 | for every output index the source index is within the input |
| Audio.ResampleSameRate | src-tauri/src/audio.rs:228-231 | equal rates give the same length and each sample unchanged |
| Audio.ResampledWithin | src-tauri/src/audio.rs:228-253 | resampling keeps samples within any bounds the input keeps |
| Audio.ResampleHalving | src-tauri/src/audio.rs:228-253 | for every input, halving the rate gives |s|/2 samples, and output i is input sample 2i |
| Audio.Resample | src-tauri/src/audio.rs:228-253 | the loop produces exactly the specified resampled sequence |
| Audio.Clamp | src-tauri/src/audio.rs:268 | the clamped value is within the bounds and equals the input when it already was |
| Audio.TruncateTowardZero | src-tauri/src/audio.rs:268 | the `as i16` conversion rounds toward zero |
| Audio.Amplitude | src-tauri/src/audio.rs:268 | every amplitude fits in 16 bits, and samples in [-1, 1] stay within ±32767 |
| Audio.AmplitudeError | src-tauri/src/audio.rs:268 | for samples in [-1, 1] the amplitude is within one step of sample·32767 |
| Audio.AmplitudeSaturates | src-tauri/src/audio.rs:268 | samples at or beyond full scale saturate at 32767 and -32768 |
| Audio.EncodeWav | src-tauri/src/audio.rs:255-279 | a 16-bit integer WAV with the given rate and channels and one amplitude per input sample |
| Audio.RecordedWav | src-tauri/src/audio.rs:179-183 | the WAV of a recording is mono, 16 kHz, 16-bit, one sample per converted sample |
| Audio.StopYieldsRecording | src-tauri/src/audio.rs:165-184 | stopping while idle is "Not recording"; stopping a recording yields the quantised converted samples |
| Audio.Probe | src-tauri/src/audio.rs:107-116 | a probe succeeds with a device and the configuration it reports; failures are audio errors |
| Audio.AudioRecorder.constructor | src-tauri/src/audio.rs:95-100 | a new recorder is idle |
| Audio.AudioRecorder.StartRecording | src-tauri/src/audio.rs:102-163 | starting while recording is "Already recording" and changes nothing; a failed probe leaves the recorder idle; otherwise an empty buffer and a capture thread for the probed format are installed |
| Audio.AudioRecorder.Capture | src-tauri/src/audio.rs:200-205 | a captured chunk is appended to the buffer's samples |
| Audio.AudioRecorder.StopRecording | src-tauri/src/audio.rs:165-184 | every stop leaves the recorder idle, and its result is the stop outcome of the old buffer |
| Pipeline.Transcript | src-tauri/src/pipeline.rs:58-69 | the configured mode selects the local or the remote transcriber, with the configured language |
| Pipeline.ProcessBlank | src-tauri/src/pipeline.rs:71-84 | a blank transcript ends the run with "No speech detected" and success |
| Pipeline.BlankAddsOnlyNoSpeech | src-tauri/src/pipeline.rs:71-84 | after a blank transcript the run adds only the "No speech detected" event |
| Pipeline.App.constructor | src-tauri/src/lib.rs:24-31 | a new application state has an idle recorder and empty logs |
| Pipeline.App.OnHotkeyPressed | src-tauri/src/hotkey.rs:89-127 | Recording, or "Failed to start recording: " and the error, is reported; on "Already recording" the buffer and capture thread stay as they were, after a failed probe both are empty, and after a successful probe there is a fresh empty buffer at the probed rate and channel count and a capture thread on the probed device; settings, clipboard, strokes and history do not change |
| Pipeline.App.BlankIsApplied | src-tauri/src/pipeline.rs:71-84 | adding the "No speech detected" event alone is the state `Process` prescribes for a blank transcript |
| Pipeline.App.DeliverText | src-tauri/src/pipeline.rs:105-142 | the output stage changes the state exactly as `Deliver` says |
| Pipeline.App.CleanTranscript | src-tauri/src/pipeline.rs:86-142 | the cleanup stage changes the state exactly as `Process` says |
| Pipeline.App.ReportNoSpeech | src-tauri/src/pipeline.rs:71-84 | only the "No speech detected" event is added, and the result is Ok |
| Pipeline.App.ProcessTranscript | src-tauri/src/pipeline.rs:71-142 | the stages after transcription change the state exactly as `Process` says |
| Pipeline.App.TranscribeAndProcess | src-tauri/src/pipeline.rs:52-142 | the stages after stopping change the state exactly as `AfterStop` says |
| Pipeline.App.RunPipeline | src-tauri/src/pipeline.rs:35-143 | the recorder ends idle and the state grows by what `Run` says for the old buffer |
| Pipeline.App.OnHotkeyReleased | src-tauri/src/hotkey.rs:129-150 | the run's changes, plus an Error event with the message when the run failed |
| Pipeline.RunAnnouncesTranscription | src-tauri/src/pipeline.rs:39-52 | the first event of every run is Transcribing with no texts and no error |
| Pipeline.RunAbortsOnCaptureFailure | src-tauri/src/pipeline.rs:52-69 | a recorder or transcription failure ends the run with that error after Transcribing, with no output and no record |
| Pipeline.RunTranscribed | src-tauri/src/pipeline.rs:52-69 | with a transcript, the run is Transcribing followed by what `Process` says |
| Pipeline.ProcessReportsNoSpeech | src-tauri/src/pipeline.rs:71-84 | a blank transcript is reported as "No speech detected", with success and no output or record |
| Pipeline.RunReportsNoSpeech | src-tauri/src/pipeline.rs:39-84 | a whole run with a blank transcript emits Transcribing then "No speech detected" and succeeds |
| Pipeline.ProcessCleansOrKeepsRaw | src-tauri/src/pipeline.rs:86-106 | Cleaning with the raw text comes first; the output is the cleaned text, or the raw text when cleanup failed |
| Pipeline.ProcessFailsOnlyBeforeDone | src-tauri/src/pipeline.rs:106-117 | after transcription a run fails exactly on a clipboard failure, then with no Done, output or record; a run that outputs ends with Done carrying both texts |
| Pipeline.RunFailsOnlyBeforeOutput | src-tauri/src/pipeline.rs:52-106 | a run fails exactly when the recorder, the transcriber or the clipboard fails, and a failed run outputs and saves nothing |
| Pipeline.ProcessSavesRecord | src-tauri/src/pipeline.rs:127-142 | the record holds both texts, the configured model and the given id, time and duration; a failed insert is ignored, pruning to the configured size still happens, and the run succeeds |
| Pipeline.ProcessPastesWhenAsked | src-tauri/src/pipeline.rs:106 | keys are stroked only with auto-paste on, and then exactly the paste's strokes |
| Pipeline.ProcessEventsShape | src-tauri/src/pipeline.rs:71-117 | after transcription, no event is final except a last one, present exactly when the run succeeds |
| Pipeline.RunEventsShape | src-tauri/src/pipeline.rs:39-117 | Transcribing first, and a final event last exactly when the run succeeds |
| Pipeline.ReleaseEndsOnce | src-tauri/src/hotkey.rs:129-150 | whatever happens, the release callback's events end with exactly one final event (Done or Error) |
| Llm.TagName | src-tauri/src/llm.rs:15-18 | the name is the prefix of the tag content up to the first whitespace or '/' |
| Llm.OpeningTag | src-tauri/src/llm.rs:9-19 | an accepted opening tag ends inside the text and has a non-empty name |
| Llm.ExtractFromTags | src-tauri/src/llm.rs:8-30 | the result is never longer than the input |
| Llm.FromClose | src-tauri/src/llm.rs:20-24 | the result after the opening tag is never longer than the input |
| Llm.NoTagUnchanged | src-tauri/src/llm.rs:9-29 | text without '<' is returned unchanged |
| Llm.RefusedTagUnchanged | src-tauri/src/llm.rs:9-19 | only the first '<' is examined; no '>', an empty or closing tag, or an empty name returns the text unchanged |
| Llm.NoCloseUnchanged | src-tauri/src/llm.rs:20-29 | an accepted tag without its closing tag returns the text unchanged |
| Llm.ExtractAfterTag | src-tauri/src/llm.rs:9-24 | once the opening tag is accepted, the result is the search for its closing tag |
| Llm.ClosedSlice | src-tauri/src/llm.rs:20-24 | after the opening tag, the result is the text or a trimmed slice of it |
| Llm.ExtractIsSlice | src-tauri/src/llm.rs:8-30 | the result is the whole input or a trimmed slice of it |
| Llm.ClosedAt | src-tauri/src/llm.rs:20-24 | the result is the trimmed text between the opening tag and the first closing tag |
| Llm.OpeningTagWrapped | src-tauri/src/llm.rs:9-19 | the first tag of `pre<name>rest`, `pre` without '<', is accepted with its name |
| Llm.ExtractWrapped | src-tauri/src/llm.rs:8-30 | `pre<name>inner</name>post` gives the trimmed `inner` |
| Llm.WrappedUnwraps | src-tauri/src/llm.rs:142-153 | text wrapped in the transcription tags is unwrapped to itself, trimmed |
| Llm.DefaultLlmConfig | src-tauri/src/llm.rs:82-92 | the default configuration uses Ollama at http://localhost:11434 with the "mistral" model, so its chat URL ends in /api/chat |
| Llm.ExampleMessagesLayout | src-tauri/src/llm.rs:139-148 | each example becomes a user message with its wrapped input, then an assistant message with its output |
| Llm.ChatMessagesLayout | src-tauri/src/llm.rs:131-154 | 2k+2 messages: the system prompt, the examples in order, and the wrapped transcript last |
| Llm.BuildMessages | src-tauri/src/llm.rs:131-154 | the loop builds exactly the specified message list |
| Llm.ChatUrl | src-tauri/src/llm.rs:156-189 | the endpoint without trailing '/' plus /api/chat for Ollama or /v1/chat/completions for OpenAI |
| Llm.ChatUrlIgnoresTrailingSlash | src-tauri/src/llm.rs:158-188 | a trailing '/' on the endpoint does not change the URL |
| Llm.CleanupResult | src-tauri/src/llm.rs:165-217 | a failed send is "Request failed: ..."; a non-success status is "Ollama error" or "OpenAI error", then the displayed status (code and reason phrase), ": " and the body; a parse failure is "Parse error: ..."; OpenAI with no choices is an error; success is the first reply content, trimmed and unwrapped |
| Llm.NoChoicesIsNoResponse | src-tauri/src/llm.rs:213-217 | an OpenAI reply without choices is "No response from LLM" |
| Llm.CleanupText | src-tauri/src/llm.rs:128-220 | the request has the configured URL, model and message list, and the result is `CleanupResult` |
| Hotkey.ParseKeyName | src-tauri/src/hotkey.rs:177-292 | the key table: a name maps to at most one key, and the empty name maps to none |
| Hotkey.ModifierAliases | src-tauri/src/hotkey.rs:180-188 | modifier aliases name the same key |
| Hotkey.KeyAliases | src-tauri/src/hotkey.rs:190-193 | Enter/Return and Esc/Escape name the same key |
| Hotkey.LetterDigitAliases | src-tauri/src/hotkey.rs:221-232 | "KeyA"/"A" and "Digit0"/"0" name the same key |
| Hotkey.ParsePiece | src-tauri/src/hotkey.rs:171-172 | a piece gives at most one key |
| Hotkey.ParseHotkeyString | src-tauri/src/hotkey.rs:168-174 | a hotkey string yields at most one key per '+'-separated piece, and the empty string yields none |
| Hotkey.ParsePieces | src-tauri/src/hotkey.rs:168-174 | never more keys than pieces |
| Hotkey.ParsePiecesAppend | src-tauri/src/hotkey.rs:168-174 | pieces are parsed independently, in order |
| Hotkey.UnknownPieceDropped | src-tauri/src/hotkey.rs:168-173 | an unknown name is dropped silently, the rest kept in order |
| Hotkey.ParsePiecesMembers | src-tauri/src/hotkey.rs:168-174 | a key is parsed iff some non-empty piece, trimmed, names it |
| Hotkey.ParsePiecesAllKnown | src-tauri/src/hotkey.rs:168-174 | known non-empty pieces give their keys, one for one |
| Hotkey.ParseJoinedNames | src-tauri/src/hotkey.rs:168-174 | known names joined with '+' parse back to their keys |
| Hotkey.MigrateParts | src-tauri/src/hotkey.rs:296-319 | each part is migrated on its own, count and order kept |
| Hotkey.MigratePartFacts | src-tauri/src/hotkey.rs:300-316 | a migrated part is never a legacy name, migrating a part twice is migrating it once, and other parts pass through |
| Hotkey.MigratePartTargets | src-tauri/src/hotkey.rs:301-314 | legacy names migrate to the current names |
| Hotkey.MigratedNamesParse | src-tauri/src/hotkey.rs:180-187 | every name migration writes parses to a key |
| Hotkey.MigratedParts | src-tauri/src/hotkey.rs:296-318 | the parts of a migrated hotkey are its parts, migrated |
| Hotkey.MigrateHotkeyFormat | src-tauri/src/hotkey.rs:296-319 | each '+'-separated part is renamed on its own and the parts are rejoined; a hotkey without '+' is just its renamed part |
| Hotkey.NeedsMigration | src-tauri/src/hotkey.rs:322-336 | some '+'-separated part is exactly one of the ten older names; a hotkey without '+' needs migration iff it is one of them |
| Hotkey.MigrationClears | src-tauri/src/hotkey.rs:296-336 | a migrated hotkey needs no migration |
| Hotkey.MigrationIdempotent | src-tauri/src/hotkey.rs:296-319 | migrating twice is migrating once |
| Hotkey.MigrationKeepsCurrent | src-tauri/src/hotkey.rs:313 | a hotkey without legacy names is unchanged |
| Hotkey.UpdateHeld | src-tauri/src/hotkey.rs:41-54 | a press adds the key, a release removes it, other events change nothing |
| Hotkey.LatchFlips | src-tauri/src/hotkey.rs:65-87 | Pressed fires iff not paused, the combo is non-empty and held and the latch was off, and turns it on; Released is the mirror image |
| Hotkey.ReplayAlternates | src-tauri/src/hotkey.rs:40-87 | over any event sequence, Pressed and Released alternate |
| Hotkey.ReplayInert | src-tauri/src/hotkey.rs:66-73 | while paused or with an empty combo nothing fires |
| Hotkey.LastTouch | src-tauri/src/hotkey.rs:41-54 | the last event touching a key is a press or release of that key |
| Hotkey.ReplayHeld | src-tauri/src/hotkey.rs:41-54 | a key is held iff its last press or release was a press |
| Hotkey.HotkeyState.constructor | src-tauri/src/hotkey.rs:24-30 | a new state has the combo, latch off, not paused |
| Hotkey.HotkeyState.CheckCombo | src-tauri/src/hotkey.rs:65-87 | the latch moves as `Latch` says, combo and pause unchanged |
| Hotkey.HotkeyState.UpdateHotkey | src-tauri/src/hotkey.rs:153-157 | the combo is the parsed hotkey and the latch is reset |
| Hotkey.HotkeyState.SetPaused | src-tauri/src/hotkey.rs:160-165 | pausing resets the latch, resuming leaves it |
| Hotkey.Listen | src-tauri/src/hotkey.rs:40-60 | the listener's held set and fired changes are the replay of the events |
| Output.OneByteIffAscii | src-tauri/src/output.rs:59 | a part is one byte long iff it is a single ASCII char |
| Output.ShortcutParts | src-tauri/src/output.rs:36 | splitting always gives at least one part |
| Output.ParseModifiersMeaning | src-tauri/src/output.rs:41-56 | modifiers parse iff every part names one, in order; otherwise the error names the first part that does not |
| Output.ParseModifiersAccepted | src-tauri/src/output.rs:41-56 | the parts are accepted iff each names a modifier, and the result is those modifiers in the parts' order |
| Output.ParseModifiersRefused | src-tauri/src/output.rs:41-56 | a refused list reports the first part that names no modifier, every earlier part naming one |
| Output.PasteShortcutMeaning | src-tauri/src/output.rs:35-69 | accepted iff all parts but the last are modifiers and the last is one byte; the key is it lower-cased; otherwise "Invalid key" |
| Output.EmptyShortcutInvalid | src-tauri/src/output.rs:36-66 | the empty shortcut is an invalid key, so the "Empty paste shortcut" branch is never taken |
| Output.CollectModifiers | src-tauri/src/output.rs:41-56 | the loop with early return gives the specified modifier parse |
| Output.ParsePasteShortcut | src-tauri/src/output.rs:35-69 | the parse is the specified shortcut parse |
| Output.Presses | src-tauri/src/output.rs:85-89 | each modifier pressed, in order |
| Output.ReleasesReversed | src-tauri/src/output.rs:96-101 | each modifier released, last first |
| Output.PasteActionsNest | src-tauri/src/output.rs:84-101 | 2k+1 strokes: the i-th modifier pressed at i, released at 2k-i, the key clicked in the middle |
| Output.PlayAll | src-tauri/src/output.rs:84-101 | when no stroke fails, all are issued and the outcome is Ok |
| Output.PlayStops | src-tauri/src/output.rs:84-101 | the first failing stroke is the last issued and its failure is the outcome |
| Output.PasteSucceeds | src-tauri/src/output.rs:71-104 | a paste that goes through issues the four releases, the presses, the click and the reversed releases |
| Output.Issue | src-tauri/src/output.rs:85-101 | a stroke loop issues strokes up to and including the first failure |
| Output.PasteStrokes | src-tauri/src/output.rs:84-101 | the three loops together are the specified paste strokes |
| Output.SimulatePaste | src-tauri/src/output.rs:71-104 | a parse or keyboard failure issues nothing; otherwise the releases and then the paste strokes |
| Output.CopyToClipboard | src-tauri/src/output.rs:5-10 | Ok iff the clipboard write succeeds, otherwise an output error |
| Output.CopyAndPaste | src-tauri/src/output.rs:12-32 | a clipboard failure is the error with nothing pasted; otherwise Ok, pasting only with auto-paste on, a paste failure ignored |
| Settings.DefaultPasteShortcut | src-tauri/src/settings.rs:33-41 | Cmd+V on macOS, Ctrl+Shift+V on Linux, Ctrl+V elsewhere |
| Settings.DefaultSettings | src-tauri/src/settings.rs:43-62 | no device, the OS's default hotkey, local mode, English, empty API settings, the default LLM configuration, auto-paste on, 100 history items, the default model and shortcut |
| Settings.Decode | src-tauri/src/settings.rs:11-18 | missing language, paste shortcut and few-shot examples take their serde defaults |
| Settings.Migrate | src-tauri/src/settings.rs:71-82 | migration changes only the hotkey and the model name; afterwards the hotkey needs no migration and the model name is none of the older names |
| Settings.ModelNameTargets | src-tauri/src/settings.rs:77-82 | tiny/base → tiny-q5_1, small → small-q5_1, medium → large-v3-turbo-q5_0, others unchanged |
| Settings.LoadSettings | src-tauri/src/settings.rs:65-85 | a missing or unreadable store loads exactly the defaults; a loaded hotkey never needs migration and the model name is never one of the older names |
| Settings.DefaultsStay | src-tauri/src/settings.rs:65-85 | the defaults are already in the current format: both load-time migrations leave them unchanged |
| Settings.LoadSettingsMeaning | src-tauri/src/settings.rs:65-85 | missing settings load as the defaults; the hotkey changes only when it needs migration, after which it does not |
| Settings.MigrateIdempotent | src-tauri/src/settings.rs:71-82 | migrating migrated settings changes nothing |
| Settings.LoadIdempotent | src-tauri/src/settings.rs:65-98 | saving loaded settings and loading them back gives the same settings |
| Settings.Store | src-tauri/src/settings.rs:91 | a stored value has every field present |
| Settings.DefaultHotkeyParses | src-tauri/src/settings.rs:47-51 | the default hotkey needs no migration and parses to the command modifier, Shift and Space |
| Settings.DefaultPasteShortcutParses | src-tauri/src/settings.rs:33-41 | each default paste shortcut is accepted with its modifiers and 'v' |
| Settings.DefaultModelsUnknown | src-tauri/src/settings.rs:53-80 | the default model and the migration targets load as "Unknown model" |
| Whisper.FindEntry | src-tauri/src/whisper.rs:140-143 | the lookup finds an entry with that name iff the table has one |
| Whisper.KnownModels | src-tauri/src/whisper.rs:9-15 | each table name finds its own entry |
| Whisper.ModelFileNames | src-tauri/src/whisper.rs:9-15 | every model file is ggml-<name>.bin |
| Whisper.QuantisedNamesUnknown | src-tauri/src/whisper.rs:9-15 | the quantised names are not in the table |
| Whisper.HuggingfaceUrl | src-tauri/src/whisper.rs:17-22 | the download URL ends with the file name |
| Whisper.ListModels | src-tauri/src/whisper.rs:41-61 | one row per table entry, in order, downloaded iff its file exists, with its path exactly then |
| Whisper.PlanDownload | src-tauri/src/whisper.rs:63-76 | unknown names fail, an existing file means nothing to do, otherwise fetch from the model's URL to its path |
| Whisper.LoadOutcome | src-tauri/src/whisper.rs:139-159 | unknown name, missing file and load failure are the matching errors; success is the model's path |
| Whisper.ConcatReadableAppend | src-tauri/src/whisper.rs:191-197 | segment concatenation distributes over appending |
| Whisper.ConcatReadableAllRead | src-tauri/src/whisper.rs:191-197 | with every segment readable, all texts appear in order |
| Whisper.SkipsUnreadable | src-tauri/src/whisper.rs:194 | an unreadable segment contributes nothing |
| Whisper.CollectSegments | src-tauri/src/whisper.rs:191-197 | the loop concatenates the readable segments |
| Whisper.TranscriptOf | src-tauri/src/whisper.rs:173-199 | "Failed to create state: ", "Transcription failed: " and "Failed to get segments: " for the three inference failures, in that order; success is the readable segments, concatenated and trimmed |
| Whisper.WhisperEngine.constructor | src-tauri/src/whisper.rs:129-133 | a new engine has no model loaded |
| Whisper.WhisperEngine.LoadModel | src-tauri/src/whisper.rs:139-163 | a failure leaves the slot unchanged; success fills it and the model is loaded |
| Whisper.WhisperEngine.Transcribe | src-tauri/src/whisper.rs:165-200 | an empty slot is "No model loaded"; a bad WAV is its error; otherwise inference with English, greedy, one thread per CPU |
| Whisper.ApiRequest | src-tauri/src/whisper.rs:208-227 | URL with trailing '/' stripped plus the transcriptions path; bearer auth iff the key is non-empty; the WAV part and model whisper-1 |
| Whisper.ApiTranscript | src-tauri/src/whisper.rs:229-250 | a failed send is "API request failed: ..."; a non-success status is "API error ", the displayed status (code and reason phrase), ": " and the body; a parse failure is "Parse error: ..."; success is the text trimmed |
| Whisper.Present | src-tauri/src/whisper.rs:262-265 | keeping the successful reads never lengthens the list |
| Whisper.PresentAll | src-tauri/src/whisper.rs:262-265 | with every read successful, all values kept in order |
| Whisper.PresentSkipsFailed | src-tauri/src/whisper.rs:262-265 | a failed read is dropped |
| Whisper.Normalised | src-tauri/src/whisper.rs:263 | each integer sample is divided by 32767 |
| Whisper.DecodeWavToSamples | src-tauri/src/whisper.rs:253-269 | an unreadable file is "Invalid WAV"; integer samples normalised, float samples kept, failed reads dropped |
| Whisper.EncodeDecodeWithin | src-tauri/src/whisper.rs:253-269 | encoding then decoding returns every sample in [-1, 1] to within 1/32767 |

## Left out

- Hardware and threads: cpal enumeration and streams, the recording thread, its 50 ms poll and join, and the atomic/mutex sharing. The recorder keeps its two slots. A captured chunk is one `Capture` call. The samples are reals that the host's sample conversion has already produced.
- The RIFF/WAVE container bytes written and read by `hound`. Only the header fields (channels, rate, bit depth, format) and the per-sample values are modelled.
- Audio.EncodeWav and Audio.StopOutcome: `encode_wav` (`audio.rs:255-279`) returns hound's `WavWriter::new`, `write_sample` and `finalize` errors as audio errors, and `stop_recording` passes them on (`audio.rs:183`). The model's encoding cannot fail, so stopping a recording never fails once the buffer has been taken. The writer targets an in-memory cursor, where these errors are not expected.
- Floating-point rounding in down-mixing, resampling, scaling and normalisation: arithmetic is exact on reals. The download progress percentage is left out for the same reason.
- HTTP status display: `StatusText` uses the reason phrases of the `http` crate's `StatusCode` table as of its 1.x releases. Earlier releases leave 103 and 425 without a phrase.
- Foreign calls become inputs: whisper-rs inference, the model download stream and file rename, file-system existence checks, reqwest requests and JSON (de)serialisation, the clipboard plugin and enigo.
- The default system prompt and few-shot example strings are data; they are parameters of the defaults.
- `history.rs` (SQL executed by SQLite): an insert is an opaque call that may fail and prune is a request recorded with its size. The pruning itself is not modelled.
- `tray.rs`, `sounds.rs` and the tray, overlay and sound side effects of the callbacks; the 2-second delayed tray reset after Done.
- `lib.rs` command wiring and app setup, `save_settings`/`reset_settings` persistence, and `test_connection` in `llm.rs`, which is `cleanup_text` on a fixed text.
- The rdev listener thread: events arrive as a sequence.
- The spawned pipeline task: `hotkey.rs:133-148` starts `run_pipeline` as an async task and returns at once, while `Pipeline.App.OnHotkeyReleased` runs the whole pipeline inside the release callback. A run is therefore atomic with respect to later callbacks. In the program, a press that arrives before the task reaches `stop_recording` fails with "Already recording", and the event streams of overlapping runs may interleave. Neither can happen in the model.
- The uuid, the RFC 3339 timestamp and the elapsed duration of a record are inputs.
- The 100 ms and 50 ms sleeps in `output.rs`.
- Lower-casing is ASCII lower-casing. For every literal the code compares against, the results are the same: no compared literal contains 'k', so the Kelvin sign does not matter, and a multi-char lower-case expansion cannot equal an ASCII literal. Text that is quoted rather than compared does differ: `Output.UnknownModifier` quotes the ASCII-lower-cased part, where "Unknown modifier in paste shortcut" in `output.rs:43-51` quotes the Unicode `to_lowercase()` of it, so the two messages differ for a part with non-ASCII letters.
- A zero sample rate or channel count: the `SampleRate` and `ChannelCount` types exclude 0. The source does not guard against it: `chunks_exact(0)` panics in `audio.rs:223`, and a 0 Hz rate makes the ratio in `audio.rs:233-234` infinite. The model assumes hardware never reports either.
- Output.Play: the keyboard's answer to a stroke (`strokeError`) depends only on the key action. So when the same action appears twice, as in "Ctrl+Ctrl+V", the second press cannot fail once the first has succeeded, whereas the program's enigo calls are independent. No lemma relies on this.

