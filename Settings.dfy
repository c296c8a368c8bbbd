/**
 * The application settings (src-tauri/src/settings.rs): the defaults, the
 * serde defaults for fields older stores lack, and the two migrations applied
 * when settings are loaded (older hotkey names and older model names).
 */
module Settings {
  import opened Wrappers
  import opened Strings
  import opened Platform
  import opened Errors
  import Hotkey
  import Output
  import Whisper
  import Llm

  /** Where transcription runs: a local Whisper model or a remote API. */
  datatype WhisperMode = Local | Api

  /** `AppSettings`, field by field. */
  datatype AppSettings = AppSettings(
    audioDeviceIndex: Option<nat>,
    hotkey: string,
    whisperMode: WhisperMode,
    whisperModel: string,
    whisperLanguage: string,
    whisperApiEndpoint: string,
    whisperApiKey: string,
    llm: Llm.LlmConfig,
    autoPaste: bool,
    pasteShortcut: string,
    historyMaxItems: nat)

  /**
   * A stored settings value that deserialises: the fields that carry a serde
   * default may be missing (`None`), here and in the LLM configuration.
   */
  datatype StoredLlmConfig = StoredLlmConfig(
    endpoint: string, model: string, systemPrompt: string, apiType: Llm.ApiType,
    fewShotExamples: Option<seq<Llm.FewShotExample>>)

  datatype StoredSettings = StoredSettings(
    audioDeviceIndex: Option<nat>,
    hotkey: string,
    whisperMode: WhisperMode,
    whisperModel: string,
    whisperLanguage: Option<string>,
    whisperApiEndpoint: string,
    whisperApiKey: string,
    llm: StoredLlmConfig,
    autoPaste: bool,
    pasteShortcut: Option<string>,
    historyMaxItems: nat)

  /** `default_whisper_language`. */
  const DefaultWhisperLanguage: string := "en"

  /** `default_paste_shortcut`: the platform's usual paste keys. */
  function DefaultPasteShortcut(os: Os): (shortcut: string)
    ensures os == MacOs ==> shortcut == "Cmd+V"
    ensures os == Linux ==> shortcut == "Ctrl+Shift+V"
    ensures os == OtherOs ==> shortcut == "Ctrl+V"
  {
    match os
    case MacOs => "Cmd+V"
    case Linux => "Ctrl+Shift+V"
    case OtherOs => "Ctrl+V"
  }

  /** The default push-to-talk combo: the platform's command modifier, Shift and Space. */
  function DefaultHotkey(os: Os): string {
    if os == MacOs then "MetaLeft+ShiftLeft+Space" else "ControlLeft+ShiftLeft+Space"
  }

  /**
   * `AppSettings::default`. The default LLM system prompt and few-shot
   * examples are text, passed in.
   */
  function DefaultSettings(os: Os, systemPrompt: string, examples: seq<Llm.FewShotExample>): (s: AppSettings)
    ensures s.audioDeviceIndex == None && s.whisperMode == Local && s.whisperLanguage == "en"
    ensures s.whisperApiEndpoint == [] && s.whisperApiKey == [] && s.autoPaste && s.historyMaxItems == 100
    ensures s.whisperModel == "large-v3-turbo-q5_0"
    ensures s.llm.apiType == Llm.Ollama && s.llm.systemPrompt == systemPrompt && s.llm.fewShotExamples == examples
    ensures s.pasteShortcut == DefaultPasteShortcut(os)
    ensures s.hotkey == DefaultHotkey(os) && s.llm == Llm.DefaultLlmConfig(systemPrompt, examples)
  {
    AppSettings(
      None, DefaultHotkey(os), Local, "large-v3-turbo-q5_0", DefaultWhisperLanguage, "", "",
      Llm.DefaultLlmConfig(systemPrompt, examples), true, DefaultPasteShortcut(os), 100)
  }

  /** Deserialising a stored value: missing fields with a serde default take that default. */
  function Decode(stored: StoredSettings, os: Os, examples: seq<Llm.FewShotExample>): (s: AppSettings)
    ensures s.whisperLanguage == (if stored.whisperLanguage.Some? then stored.whisperLanguage.value else "en")
    ensures s.pasteShortcut == (if stored.pasteShortcut.Some? then stored.pasteShortcut.value else DefaultPasteShortcut(os))
    ensures s.llm.fewShotExamples ==
      (if stored.llm.fewShotExamples.Some? then stored.llm.fewShotExamples.value else examples)
    ensures s.hotkey == stored.hotkey && s.whisperModel == stored.whisperModel
  {
    var llm := stored.llm;
    AppSettings(
      stored.audioDeviceIndex, stored.hotkey, stored.whisperMode, stored.whisperModel,
      stored.whisperLanguage.GetOr(DefaultWhisperLanguage),
      stored.whisperApiEndpoint, stored.whisperApiKey,
      Llm.LlmConfig(llm.endpoint, llm.model, llm.systemPrompt, llm.apiType, llm.fewShotExamples.GetOr(examples)),
      stored.autoPaste, stored.pasteShortcut.GetOr(DefaultPasteShortcut(os)), stored.historyMaxItems)
  }

  /** The curated quantised model an older model name is moved to; any other name is kept. */
  function MigrateModelName(name: string): string {
    match name
    case "tiny" | "base" => "tiny-q5_1"
    case "small" => "small-q5_1"
    case "medium" => "large-v3-turbo-q5_0"
    case _ => name
  }

  /** The two load-time migrations: the hotkey only when it needs it, then the model name. */
  function Migrate(s: AppSettings, os: Os): (m: AppSettings)
    ensures m.(hotkey := s.hotkey, whisperModel := s.whisperModel) == s
    ensures !Hotkey.NeedsMigration(m.hotkey)
    ensures m.whisperModel !in {"tiny", "base", "small", "medium"}
  {
    var hotkey := if Hotkey.NeedsMigration(s.hotkey) then
      Hotkey.MigrationClears(s.hotkey, os); Hotkey.MigrateHotkeyFormat(s.hotkey, os)
    else s.hotkey;
    s.(hotkey := hotkey, whisperModel := MigrateModelName(s.whisperModel))
  }

  /**
   * `load_settings`: the stored value (`None` when it is missing or does not
   * deserialise) or else the defaults, migrated.
   */
  function LoadSettings(stored: Option<StoredSettings>, os: Os, systemPrompt: string,
                        examples: seq<Llm.FewShotExample>): (l: AppSettings)
    ensures !Hotkey.NeedsMigration(l.hotkey)
    ensures l.whisperModel !in {"tiny", "base", "small", "medium"}
    ensures stored.None? ==> l == DefaultSettings(os, systemPrompt, examples)
  {
    DefaultsStay(os, systemPrompt, examples, DefaultSettings(os, systemPrompt, examples));
    var s := match stored
      case Some(v) => Decode(v, os, examples)
      case None => DefaultSettings(os, systemPrompt, examples);
    Migrate(s, os)
  }

  /** The defaults are already in the current format: migrating them changes nothing. */
  lemma DefaultsStay(os: Os, systemPrompt: string, examples: seq<Llm.FewShotExample>, d: AppSettings)
    requires d == DefaultSettings(os, systemPrompt, examples)
    ensures Migrate(d, os) == d
  {
    DefaultHotkeyParses(os);
    ModelNameTargets(d.whisperModel);
  }

  // ---------------------------------------------------------------------------
  // Properties

  /** The older model names and where each goes; every other name is unchanged. */
  lemma ModelNameTargets(name: string)
    ensures name == "tiny" || name == "base" ==> MigrateModelName(name) == "tiny-q5_1"
    ensures name == "small" ==> MigrateModelName(name) == "small-q5_1"
    ensures name == "medium" ==> MigrateModelName(name) == "large-v3-turbo-q5_0"
    ensures name !in {"tiny", "base", "small", "medium"} ==> MigrateModelName(name) == name
    ensures MigrateModelName(MigrateModelName(name)) == MigrateModelName(name)
  {
  }

  /**
   * What loading does: a missing store gives the defaults, the hotkey changes
   * only when it needs migration and then no longer does, and the model name
   * is migrated.
   */
  lemma LoadSettingsMeaning(stored: Option<StoredSettings>, os: Os, systemPrompt: string,
                            examples: seq<Llm.FewShotExample>)
    ensures var s := if stored.Some? then Decode(stored.value, os, examples) else DefaultSettings(os, systemPrompt, examples);
      var l := LoadSettings(stored, os, systemPrompt, examples);
      l.(hotkey := s.hotkey, whisperModel := s.whisperModel) == s &&
      (Hotkey.NeedsMigration(s.hotkey) ==> l.hotkey == Hotkey.MigrateHotkeyFormat(s.hotkey, os)) &&
      (!Hotkey.NeedsMigration(s.hotkey) ==> l.hotkey == s.hotkey) &&
      !Hotkey.NeedsMigration(l.hotkey) &&
      l.whisperModel == MigrateModelName(s.whisperModel)
  {
    var s := if stored.Some? then Decode(stored.value, os, examples) else DefaultSettings(os, systemPrompt, examples);
    if Hotkey.NeedsMigration(s.hotkey) {
      Hotkey.MigrationClears(s.hotkey, os);
    }
  }

  /** Migrating settings that were already migrated changes nothing. */
  lemma MigrateIdempotent(s: AppSettings, os: Os)
    ensures Migrate(Migrate(s, os), os) == Migrate(s, os)
  {
    if Hotkey.NeedsMigration(s.hotkey) {
      Hotkey.MigrationClears(s.hotkey, os);
    }
    ModelNameTargets(s.whisperModel);
  }

  /** Saving loaded settings and loading them back gives the same settings. */
  lemma LoadIdempotent(stored: Option<StoredSettings>, os: Os, systemPrompt: string,
                       examples: seq<Llm.FewShotExample>)
    ensures var l := LoadSettings(stored, os, systemPrompt, examples);
      LoadSettings(Some(Store(l)), os, systemPrompt, examples) == l
  {
    var s := if stored.Some? then Decode(stored.value, os, examples) else DefaultSettings(os, systemPrompt, examples);
    var l := LoadSettings(stored, os, systemPrompt, examples);
    assert Decode(Store(l), os, examples) == l;
    MigrateIdempotent(s, os);
  }

  /** Serialising settings: every field present. */
  function Store(s: AppSettings): (stored: StoredSettings)
    ensures stored.whisperLanguage == Some(s.whisperLanguage) && stored.pasteShortcut == Some(s.pasteShortcut)
    ensures stored.llm.fewShotExamples == Some(s.llm.fewShotExamples)
    ensures stored.hotkey == s.hotkey && stored.whisperModel == s.whisperModel
  {
    StoredSettings(
      s.audioDeviceIndex, s.hotkey, s.whisperMode, s.whisperModel, Some(s.whisperLanguage),
      s.whisperApiEndpoint, s.whisperApiKey,
      StoredLlmConfig(s.llm.endpoint, s.llm.model, s.llm.systemPrompt, s.llm.apiType, Some(s.llm.fewShotExamples)),
      s.autoPaste, Some(s.pasteShortcut), s.historyMaxItems)
  }

  /** Three names joined with '+'. */
  lemma JoinThree(a: string, b: string, c: string)
    ensures Join([a, b, c], '+') == a + "+" + b + "+" + c
  {
    assert [a, b, c][1..] == [b, c];
    assert [b, c][1..] == [c];
    assert Join([b, c], '+') == b + "+" + c;
  }

  /** A combo of key names joined with '+' parses to the names' keys, in order. */
  lemma HotkeyOfNames(hotkey: string, names: seq<string>, keys: seq<Hotkey.Key>)
    requires hotkey == Join(names, '+') && |names| == |keys| >= 1
    requires forall i :: 0 <= i < |names| ==>
      names[i] != [] && '+' !in names[i] && Trimmed(names[i]) && Hotkey.ParseKeyName(names[i]) == Some(keys[i])
    ensures Hotkey.ParseHotkeyString(hotkey) == keys
  {
    forall i | 0 <= i < |names| ensures Trim(names[i]) == names[i] {
      TrimmedIsFixed(names[i]);
    }
    Hotkey.ParseJoinedNames(names, keys);
  }

  /** A combo of '+'-free names, none of them an older name, needs no migration. */
  lemma CurrentNamesNeedNoMigration(hotkey: string, names: seq<string>)
    requires hotkey == Join(names, '+') && |names| >= 1
    requires forall i :: 0 <= i < |names| ==> '+' !in names[i] && names[i] !in Hotkey.LegacyNames
    ensures !Hotkey.NeedsMigration(hotkey)
  {
    SplitJoin(names, '+');
  }

  /** The key names of the default combos. */
  lemma DefaultKeyNamesParse()
    ensures Hotkey.ParseKeyName("Space") == Some(Hotkey.Space)
    ensures Hotkey.ParseKeyName("MetaLeft") == Some(Hotkey.MetaLeft)
    ensures Hotkey.ParseKeyName("ControlLeft") == Some(Hotkey.ControlLeft)
    ensures Hotkey.ParseKeyName("ShiftLeft") == Some(Hotkey.ShiftLeft)
  {
    Hotkey.MigratedNamesParse();
  }

  /** The key names of the default combos are trimmed and free of '+'. */
  lemma DefaultKeyNamesPlain()
    ensures Trimmed("MetaLeft") && Trimmed("ControlLeft") && Trimmed("ShiftLeft") && Trimmed("Space")
    ensures '+' !in "MetaLeft" && '+' !in "ControlLeft" && '+' !in "ShiftLeft" && '+' !in "Space"
  {
  }

  /** The key names of the default combos are not older names. */
  lemma DefaultKeyNamesCurrent()
    ensures "MetaLeft" !in Hotkey.LegacyNames && "ControlLeft" !in Hotkey.LegacyNames
    ensures "ShiftLeft" !in Hotkey.LegacyNames && "Space" !in Hotkey.LegacyNames
  {
  }

  /** A combo spelled MetaLeft+ShiftLeft+Space or ControlLeft+ShiftLeft+Space. */
  lemma CommandShiftSpace(hotkey: string, first: string, key: Hotkey.Key)
    requires (first == "MetaLeft" && key == Hotkey.MetaLeft) || (first == "ControlLeft" && key == Hotkey.ControlLeft)
    requires hotkey == Join([first, "ShiftLeft", "Space"], '+')
    ensures !Hotkey.NeedsMigration(hotkey)
    ensures Hotkey.ParseHotkeyString(hotkey) == [key, Hotkey.ShiftLeft, Hotkey.Space]
  {
    DefaultKeyNamesParse();
    DefaultKeyNamesPlain();
    DefaultKeyNamesCurrent();
    HotkeyOfNames(hotkey, [first, "ShiftLeft", "Space"], [key, Hotkey.ShiftLeft, Hotkey.Space]);
    CurrentNamesNeedNoMigration(hotkey, [first, "ShiftLeft", "Space"]);
  }

  /** The default combo is three names joined with '+'. */
  lemma DefaultHotkeyJoined(os: Os)
    ensures DefaultHotkey(os) == Join([if os == MacOs then "MetaLeft" else "ControlLeft", "ShiftLeft", "Space"], '+')
  {
    JoinThree(if os == MacOs then "MetaLeft" else "ControlLeft", "ShiftLeft", "Space");
    DefaultHotkeySpelled();
  }

  /** The two default combos, spelled out. */
  lemma DefaultHotkeySpelled()
    ensures "MetaLeft" + "+" + "ShiftLeft" + "+" + "Space" == "MetaLeft+ShiftLeft+Space"
    ensures "ControlLeft" + "+" + "ShiftLeft" + "+" + "Space" == "ControlLeft+ShiftLeft+Space"
  {}

  /** The default combo needs no migration and names three keys: the command modifier, Shift and Space. */
  lemma DefaultHotkeyParses(os: Os)
    ensures !Hotkey.NeedsMigration(DefaultHotkey(os))
    ensures Hotkey.ParseHotkeyString(DefaultHotkey(os)) ==
      [if os == MacOs then Hotkey.MetaLeft else Hotkey.ControlLeft, Hotkey.ShiftLeft, Hotkey.Space]
  {
    DefaultHotkeyJoined(os);
    CommandShiftSpace(DefaultHotkey(os), if os == MacOs then "MetaLeft" else "ControlLeft",
      if os == MacOs then Hotkey.MetaLeft else Hotkey.ControlLeft);
  }

  /** The modifier words of the default shortcuts, lower-cased. */
  lemma LowerModifierWords()
    ensures ToLower("Cmd") == "cmd" && ToLower("Ctrl") == "ctrl" && ToLower("Shift") == "shift"
  {
    var cmd, ctrl, shift := ToLower("Cmd"), ToLower("Ctrl"), ToLower("Shift");
    assert cmd[0] == 'c' && cmd[1] == 'm' && cmd[2] == 'd';
    assert ctrl[0] == 'c' && ctrl[1] == 't' && ctrl[2] == 'r' && ctrl[3] == 'l';
    assert shift[0] == 's' && shift[1] == 'h' && shift[2] == 'i' && shift[3] == 'f' && shift[4] == 't';
  }

  /** The modifiers of the default paste shortcuts. */
  lemma DefaultModifiersParse()
    ensures Output.ParseModifiers(["Cmd"]) == Ok([Output.Meta])
    ensures Output.ParseModifiers(["Ctrl"]) == Ok([Output.Control])
    ensures Output.ParseModifiers(["Ctrl", "Shift"]) == Ok([Output.Control, Output.Shift])
  {
    LowerModifierWords();
    assert Output.ModifierNamed("cmd") == Some(Output.Meta);
    assert Output.ModifierNamed("ctrl") == Some(Output.Control);
    assert Output.ModifierNamed("shift") == Some(Output.Shift);
    assert Output.ParseModifiers([]) == Ok([]);
    assert [Output.Meta] + [] == [Output.Meta] && [Output.Control] + [] == [Output.Control];
    assert [Output.Shift] + [] == [Output.Shift];
    assert Output.ParseModifiers(["Cmd"]) == Ok([Output.Meta]);
    assert Output.ParseModifiers(["Ctrl"]) == Ok([Output.Control]);
    assert Output.ParseModifiers(["Shift"]) == Ok([Output.Shift]);
    assert ["Ctrl", "Shift"][1..] == ["Shift"] && ["Ctrl", "Shift"][0] == "Ctrl";
    assert [Output.Control] + [Output.Shift] == [Output.Control, Output.Shift];
  }

  /** The words of the default shortcuts are trimmed and free of '+'. */
  lemma ShortcutWords()
    ensures Trimmed("Cmd") && Trimmed("Ctrl") && Trimmed("Shift") && Trimmed("V")
    ensures '+' !in "Cmd" && '+' !in "Ctrl" && '+' !in "Shift" && '+' !in "V"
  {
  }

  /** Splitting a shortcut of trimmed, '+'-free parts joined with '+' gives the parts back. */
  lemma ShortcutPartsOfJoin(parts: seq<string>)
    requires |parts| >= 1
    requires forall i :: 0 <= i < |parts| ==> '+' !in parts[i] && Trimmed(parts[i])
    ensures Output.ShortcutParts(Join(parts, '+')) == parts
  {
    SplitJoin(parts, '+');
    forall i | 0 <= i < |parts| ensures Output.ShortcutParts(Join(parts, '+'))[i] == parts[i] {
      Output.TrimAllAt(parts, i);
      TrimmedIsFixed(parts[i]);
    }
  }

  /**
   * A shortcut of trimmed, '+'-free parts joined with '+', all but the last
   * naming modifiers and the last one ASCII char, is accepted as those
   * modifiers and that char lower-cased.
   */
  lemma ShortcutOfParts(shortcut: string, parts: seq<string>, modifiers: seq<Output.Modifier>, c: char)
    requires |parts| >= 1 && shortcut == Join(parts, '+')
    requires forall i :: 0 <= i < |parts| ==> '+' !in parts[i] && Trimmed(parts[i])
    requires Output.ParseModifiers(parts[..|parts| - 1]) == Ok(modifiers)
    requires parts[|parts| - 1] == [c] && c as int < 0x80
    ensures Output.PasteShortcut(shortcut) == Ok((modifiers, ToLowerChar(c)))
  {
    ShortcutPartsOfJoin(parts);
  }

  /** Cmd+V is Meta and 'v'. */
  lemma CmdV(shortcut: string)
    requires shortcut == Join(["Cmd", "V"], '+')
    ensures Output.PasteShortcut(shortcut) == Ok(([Output.Meta], 'v'))
  {
    ShortcutWords();
    DefaultModifiersParse();
    var parts := ["Cmd", "V"];
    assert parts[..1] == ["Cmd"];
    ShortcutOfParts(shortcut, parts, [Output.Meta], 'V');
  }

  /** Ctrl+Shift+V is Control, Shift and 'v'. */
  lemma CtrlShiftV(shortcut: string)
    requires shortcut == Join(["Ctrl", "Shift", "V"], '+')
    ensures Output.PasteShortcut(shortcut) == Ok(([Output.Control, Output.Shift], 'v'))
  {
    ShortcutWords();
    DefaultModifiersParse();
    var parts := ["Ctrl", "Shift", "V"];
    assert parts[..2] == ["Ctrl", "Shift"];
    ShortcutOfParts(shortcut, parts, [Output.Control, Output.Shift], 'V');
  }

  /** Ctrl+V is Control and 'v'. */
  lemma CtrlV(shortcut: string)
    requires shortcut == Join(["Ctrl", "V"], '+')
    ensures Output.PasteShortcut(shortcut) == Ok(([Output.Control], 'v'))
  {
    ShortcutWords();
    DefaultModifiersParse();
    var parts := ["Ctrl", "V"];
    assert parts[..1] == ["Ctrl"];
    ShortcutOfParts(shortcut, parts, [Output.Control], 'V');
  }

  /** Each platform's default paste shortcut is accepted. */
  lemma DefaultPasteShortcutParses(os: Os)
    ensures os == MacOs ==> Output.PasteShortcut(DefaultPasteShortcut(os)) == Ok(([Output.Meta], 'v'))
    ensures os == Linux ==> Output.PasteShortcut(DefaultPasteShortcut(os)) == Ok(([Output.Control, Output.Shift], 'v'))
    ensures os == OtherOs ==> Output.PasteShortcut(DefaultPasteShortcut(os)) == Ok(([Output.Control], 'v'))
  {
    match os
    case MacOs =>
      assert Join(["Cmd", "V"], '+') == "Cmd+V";
      CmdV(DefaultPasteShortcut(os));
    case Linux =>
      JoinThree("Ctrl", "Shift", "V");
      CtrlShiftV(DefaultPasteShortcut(os));
    case OtherOs =>
      assert Join(["Ctrl", "V"], '+') == "Ctrl+V";
      CtrlV(DefaultPasteShortcut(os));
  }

  /**
   * The default model and every model name migration writes are not in the
   * model table, so loading any of them fails with "Unknown model".
   */
  lemma DefaultModelsUnknown(name: string, modelsDir: Res<string>, files: set<string>, loadError: Option<string>)
    requires name in {"tiny", "base", "small", "medium"} || name == "large-v3-turbo-q5_0"
    ensures Whisper.LoadOutcome(MigrateModelName(name), modelsDir, files, loadError) ==
      Err(AppError.Whisper("Unknown model: " + MigrateModelName(name)))
  {
    Whisper.QuantisedNamesUnknown();
  }
}
