/**
 * The global push-to-talk hotkey (src-tauri/src/hotkey.rs): parsing the
 * configured combo, rewriting hotkeys saved in the older accelerator format,
 * the set of keys the listener sees held, and the latch that turns a held
 * combo into one "pressed" and one "released" notification.
 */
module Hotkey {
  import opened Wrappers
  import opened Strings
  import opened Platform

  /**
   * The keys a hotkey can name. Function keys, the digit row, letters and the
   * numeric keypad are grouped by their number or letter; `Unlisted` stands
   * for every other key the listener may report.
   */
  datatype Key =
    | ControlLeft | ShiftLeft | Alt | MetaLeft
    | ControlRight | ShiftRight | AltGr | MetaRight
    | Space | Return | Tab | Escape | Backspace | Delete | Insert
    | Home | End | PageUp | PageDown | CapsLock
    | UpArrow | DownArrow | LeftArrow | RightArrow
    | F(n: nat)
    | Num(digit: nat)
    | Letter(c: char)
    | Minus | Equal | LeftBracket | RightBracket | BackSlash | SemiColon
    | Quote | BackQuote | Comma | Dot | Slash
    | Kp(digit: nat)
    | KpDelete | KpPlus | KpMinus | KpMultiply | KpDivide | KpReturn
    | Unlisted(code: nat)

  // ---------------------------------------------------------------------------
  // Parsing

  /** `parse_key_name`: the key a name stands for; several keys have two accepted names. */
  function ParseKeyName(name: string): (k: Option<Key>)
    ensures name == [] ==> k.None?
  {
    match name
    case "ControlLeft" => Some(ControlLeft)
    case "ShiftLeft" => Some(ShiftLeft)
    case "AltLeft" | "Alt" => Some(Alt)
    case "MetaLeft" | "SuperLeft" => Some(MetaLeft)
    case "ControlRight" => Some(ControlRight)
    case "ShiftRight" => Some(ShiftRight)
    case "AltRight" | "AltGr" => Some(AltGr)
    case "MetaRight" | "SuperRight" => Some(MetaRight)
    case "Space" => Some(Space)
    case "Enter" | "Return" => Some(Return)
    case "Tab" => Some(Tab)
    case "Escape" | "Esc" => Some(Escape)
    case "Backspace" => Some(Backspace)
    case "Delete" => Some(Delete)
    case "Insert" => Some(Insert)
    case "Home" => Some(Home)
    case "End" => Some(End)
    case "PageUp" => Some(PageUp)
    case "PageDown" => Some(PageDown)
    case "CapsLock" => Some(CapsLock)
    case "ArrowUp" | "Up" => Some(UpArrow)
    case "ArrowDown" | "Down" => Some(DownArrow)
    case "ArrowLeft" | "Left" => Some(LeftArrow)
    case "ArrowRight" | "Right" => Some(RightArrow)
    case "F1" => Some(F(1))
    case "F2" => Some(F(2))
    case "F3" => Some(F(3))
    case "F4" => Some(F(4))
    case "F5" => Some(F(5))
    case "F6" => Some(F(6))
    case "F7" => Some(F(7))
    case "F8" => Some(F(8))
    case "F9" => Some(F(9))
    case "F10" => Some(F(10))
    case "F11" => Some(F(11))
    case "F12" => Some(F(12))
    case "Digit0" | "0" => Some(Num(0))
    case "Digit1" | "1" => Some(Num(1))
    case "Digit2" | "2" => Some(Num(2))
    case "Digit3" | "3" => Some(Num(3))
    case "Digit4" | "4" => Some(Num(4))
    case "Digit5" | "5" => Some(Num(5))
    case "Digit6" | "6" => Some(Num(6))
    case "Digit7" | "7" => Some(Num(7))
    case "Digit8" | "8" => Some(Num(8))
    case "Digit9" | "9" => Some(Num(9))
    case "KeyA" | "A" => Some(Letter('A'))
    case "KeyB" | "B" => Some(Letter('B'))
    case "KeyC" | "C" => Some(Letter('C'))
    case "KeyD" | "D" => Some(Letter('D'))
    case "KeyE" | "E" => Some(Letter('E'))
    case "KeyF" | "F" => Some(Letter('F'))
    case "KeyG" | "G" => Some(Letter('G'))
    case "KeyH" | "H" => Some(Letter('H'))
    case "KeyI" | "I" => Some(Letter('I'))
    case "KeyJ" | "J" => Some(Letter('J'))
    case "KeyK" | "K" => Some(Letter('K'))
    case "KeyL" | "L" => Some(Letter('L'))
    case "KeyM" | "M" => Some(Letter('M'))
    case "KeyN" | "N" => Some(Letter('N'))
    case "KeyO" | "O" => Some(Letter('O'))
    case "KeyP" | "P" => Some(Letter('P'))
    case "KeyQ" | "Q" => Some(Letter('Q'))
    case "KeyR" | "R" => Some(Letter('R'))
    case "KeyS" | "S" => Some(Letter('S'))
    case "KeyT" | "T" => Some(Letter('T'))
    case "KeyU" | "U" => Some(Letter('U'))
    case "KeyV" | "V" => Some(Letter('V'))
    case "KeyW" | "W" => Some(Letter('W'))
    case "KeyX" | "X" => Some(Letter('X'))
    case "KeyY" | "Y" => Some(Letter('Y'))
    case "KeyZ" | "Z" => Some(Letter('Z'))
    case "Minus" => Some(Minus)
    case "Equal" => Some(Equal)
    case "BracketLeft" => Some(LeftBracket)
    case "BracketRight" => Some(RightBracket)
    case "Backslash" => Some(BackSlash)
    case "Semicolon" => Some(SemiColon)
    case "Quote" => Some(Quote)
    case "Backquote" => Some(BackQuote)
    case "Comma" => Some(Comma)
    case "Period" => Some(Dot)
    case "Slash" => Some(Slash)
    case "Numpad0" => Some(Kp(0))
    case "Numpad1" => Some(Kp(1))
    case "Numpad2" => Some(Kp(2))
    case "Numpad3" => Some(Kp(3))
    case "Numpad4" => Some(Kp(4))
    case "Numpad5" => Some(Kp(5))
    case "Numpad6" => Some(Kp(6))
    case "Numpad7" => Some(Kp(7))
    case "Numpad8" => Some(Kp(8))
    case "Numpad9" => Some(Kp(9))
    case "NumpadDecimal" => Some(KpDelete)
    case "NumpadAdd" => Some(KpPlus)
    case "NumpadSubtract" => Some(KpMinus)
    case "NumpadMultiply" => Some(KpMultiply)
    case "NumpadDivide" => Some(KpDivide)
    case "NumpadEnter" => Some(KpReturn)
    case _ => None
  }

  /** The modifier keys' alternative names name the same key. */
  lemma ModifierAliases()
    ensures ParseKeyName("AltLeft") == ParseKeyName("Alt") == Some(Alt)
    ensures ParseKeyName("AltRight") == ParseKeyName("AltGr") == Some(AltGr)
    ensures ParseKeyName("SuperLeft") == ParseKeyName("MetaLeft") == Some(MetaLeft)
  {
  }

  /** "Enter" and "Return", "Esc" and "Escape" name the same keys. */
  lemma KeyAliases()
    ensures ParseKeyName("Enter") == ParseKeyName("Return") == Some(Return)
    ensures ParseKeyName("Escape") == ParseKeyName("Esc") == Some(Escape)
  {
  }

  /** Letters and digits may be named with or without their "Key"/"Digit" prefix. */
  lemma LetterDigitAliases()
    ensures ParseKeyName("KeyA") == ParseKeyName("A") == Some(Letter('A'))
    ensures ParseKeyName("Digit0") == ParseKeyName("0") == Some(Num(0))
  {
  }

  /**
   * The keys one '+'-separated piece contributes: none when it is empty or when
   * `parse` finds no key in it once trimmed. `parse` is `parse_key_name`
   * when a hotkey is parsed; the facts below hold for any such map.
   */
  function ParsePiece(piece: string, parse: string -> Option<Key>): (keys: seq<Key>)
    ensures |keys| <= 1
  {
    if piece == [] then []
    else
      match parse(Trim(piece))
      case None => []
      case Some(k) => [k]
  }

  /** The keys of the pieces, in order. */
  function ParsePieces(pieces: seq<string>, parse: string -> Option<Key>): (keys: seq<Key>)
    ensures |keys| <= |pieces|
  {
    if pieces == [] then [] else ParsePiece(pieces[0], parse) + ParsePieces(pieces[1..], parse)
  }

  /** `parse_hotkey_string`: split at '+', skip empty pieces, trim, keep the pieces that name a key. */
  function ParseHotkeyString(hotkey: string): (keys: seq<Key>)
    ensures |keys| <= |Split(hotkey, '+')|
    ensures hotkey == [] ==> keys == []
  {
    ParsePieces(Split(hotkey, '+'), ParseKeyName)
  }

  /** Parsing works piece by piece: the keys of two runs of pieces are the two lists of keys, in order. */
  lemma {:induction false} ParsePiecesAppend(a: seq<string>, b: seq<string>, parse: string -> Option<Key>)
    ensures ParsePieces(a + b, parse) == ParsePieces(a, parse) + ParsePieces(b, parse)
  {
    if a != [] {
      assert (a + b)[0] == a[0];
      assert (a + b)[1..] == a[1..] + b;
      ParsePiecesAppend(a[1..], b, parse);
      var head := ParsePiece(a[0], parse);
      assert ParsePieces(a + b, parse) == head + (ParsePieces(a[1..], parse) + ParsePieces(b, parse));
      assert head + (ParsePieces(a[1..], parse) + ParsePieces(b, parse)) ==
        (head + ParsePieces(a[1..], parse)) + ParsePieces(b, parse);
    } else {
      assert a + b == b;
    }
  }

  /** A piece that names no key is dropped without disturbing the others. */
  lemma UnknownPieceDropped(a: seq<string>, piece: string, b: seq<string>, parse: string -> Option<Key>)
    requires parse(Trim(piece)).None?
    ensures ParsePieces(a + [piece] + b, parse) == ParsePieces(a, parse) + ParsePieces(b, parse)
  {
    ParsePiecesAppend(a + [piece], b, parse);
    ParsePiecesAppend(a, [piece], parse);
    SkippedPiece(piece, parse);
  }

  /** A single piece that names no key parses to nothing. */
  lemma SkippedPiece(piece: string, parse: string -> Option<Key>)
    requires parse(Trim(piece)).None?
    ensures ParsePieces([piece], parse) == []
  {
    assert [piece][1..] == [];
  }

  /** A key is in the parse exactly when some non-empty piece names it. */
  lemma {:induction false} ParsePiecesMembers(pieces: seq<string>, parse: string -> Option<Key>, k: Key)
    ensures k in ParsePieces(pieces, parse) <==>
      exists i :: 0 <= i < |pieces| && pieces[i] != [] && parse(Trim(pieces[i])) == Some(k)
  {
    if pieces != [] {
      ParsePiecesMembers(pieces[1..], parse, k);
      if k in ParsePieces(pieces[1..], parse) {
        var i :| 0 <= i < |pieces[1..]| && pieces[1..][i] != [] && parse(Trim(pieces[1..][i])) == Some(k);
        assert pieces[i + 1] == pieces[1..][i];
      }
      if exists i :: 0 <= i < |pieces| && pieces[i] != [] && parse(Trim(pieces[i])) == Some(k) {
        var i :| 0 <= i < |pieces| && pieces[i] != [] && parse(Trim(pieces[i])) == Some(k);
        if i > 0 {
          assert pieces[1..][i - 1] == pieces[i];
        }
      }
    }
  }

  /** Pieces that each name a key parse to those keys, one per piece, in order. */
  lemma {:induction false} ParsePiecesAllKnown(pieces: seq<string>, parse: string -> Option<Key>, keys: seq<Key>)
    requires |pieces| == |keys|
    requires forall i :: 0 <= i < |pieces| ==> pieces[i] != [] && parse(Trim(pieces[i])) == Some(keys[i])
    ensures ParsePieces(pieces, parse) == keys
  {
    if pieces != [] {
      ParsePiecesAllKnown(pieces[1..], parse, keys[1..]);
      assert keys == [keys[0]] + keys[1..];
    }
  }

  /** Key names joined with '+' parse back to their keys, in order. */
  lemma ParseJoinedNames(names: seq<string>, keys: seq<Key>)
    requires |names| == |keys| >= 1
    requires forall i :: 0 <= i < |names| ==>
      names[i] != [] && '+' !in names[i] && ParseKeyName(Trim(names[i])) == Some(keys[i])
    ensures ParseHotkeyString(Join(names, '+')) == keys
  {
    SplitJoin(names, '+');
    ParsePiecesAllKnown(names, ParseKeyName, keys);
  }

  // ---------------------------------------------------------------------------
  // Migration from the accelerator format

  /** The part names of the older accelerator format. */
  const LegacyNames: seq<string> :=
    ["CmdOrCtrl", "CommandOrControl", "Ctrl", "Control", "Cmd", "Command", "Meta", "Super", "Shift", "Alt"]

  /** The current name for one part of an older hotkey; the "command or control" names depend on the OS. */
  function MigratePart(part: string, os: Os): string {
    match part
    case "CmdOrCtrl" | "CommandOrControl" | "Ctrl" | "Control" =>
      if os == MacOs then "MetaLeft" else "ControlLeft"
    case "Cmd" | "Command" | "Meta" | "Super" => "MetaLeft"
    case "Shift" => "ShiftLeft"
    case "Alt" => "AltLeft"
    case "AltGr" => "AltRight"
    case _ => part
  }

  /** Every part migrated on its own, in order. */
  function MigrateParts(parts: seq<string>, os: Os): (migrated: seq<string>)
    ensures |migrated| == |parts|
    ensures forall i :: 0 <= i < |parts| ==> migrated[i] == MigratePart(parts[i], os)
  {
    if parts == [] then [] else [MigratePart(parts[0], os)] + MigrateParts(parts[1..], os)
  }

  /** `migrate_hotkey_format`: split at '+', rename each part, join with '+'. */
  function MigrateHotkeyFormat(hotkey: string, os: Os): (migrated: string)
    ensures '+' !in hotkey ==> migrated == MigratePart(hotkey, os)
  {
    Join(MigrateParts(Split(hotkey, '+'), os), '+')
  }

  /** `needs_migration`: some '+'-separated part is exactly one of the older names. */
  predicate NeedsMigration(hotkey: string)
    ensures '+' !in hotkey ==> (NeedsMigration(hotkey) <==> hotkey in LegacyNames)
  {
    FindCharFirst(hotkey, '+');
    var parts := Split(hotkey, '+');
    assert '+' !in hotkey ==> parts == [hotkey] && parts[0] == hotkey;
    exists i :: 0 <= i < |parts| && parts[i] in LegacyNames
  }

  /**
   * What renaming one part does: it never yields an older name, it keeps
   * parts free of '+', renaming twice is renaming once, and a part that is
   * neither an older name nor "AltGr" is kept as it is.
   */
  lemma MigratePartFacts(part: string, os: Os)
    ensures MigratePart(part, os) !in LegacyNames
    ensures '+' !in part ==> '+' !in MigratePart(part, os)
    ensures MigratePart(MigratePart(part, os), os) == MigratePart(part, os)
    ensures part !in LegacyNames && part != "AltGr" ==> MigratePart(part, os) == part
  {
  }

  /** The names migration writes. */
  const MigratedNames: seq<string> := ["MetaLeft", "ControlLeft", "ShiftLeft", "AltLeft", "AltRight"]

  /** Every older name, and "AltGr", is renamed to one of the current modifier names. */
  lemma MigratePartTargets(part: string, os: Os)
    requires part in LegacyNames || part == "AltGr"
    ensures MigratePart(part, os) in MigratedNames
  {
  }

  /** The current modifier names that migration writes all name keys. */
  lemma MigratedNamesParse()
    ensures ParseKeyName("MetaLeft") == Some(MetaLeft) && ParseKeyName("ControlLeft") == Some(ControlLeft)
    ensures ParseKeyName("ShiftLeft") == Some(ShiftLeft)
    ensures ParseKeyName("AltLeft") == Some(Alt) && ParseKeyName("AltRight") == Some(AltGr)
  {
  }

  /** The migrated hotkey splits into the renamed parts: same count, same order. */
  lemma MigratedParts(hotkey: string, os: Os)
    ensures Split(MigrateHotkeyFormat(hotkey, os), '+') == MigrateParts(Split(hotkey, '+'), os)
  {
    var parts := Split(hotkey, '+');
    var migrated := MigrateParts(parts, os);
    SplitPiecesFree(hotkey, '+');
    forall i | 0 <= i < |migrated| ensures '+' !in migrated[i] {
      MigratePartFacts(parts[i], os);
    }
    SplitJoin(migrated, '+');
  }

  /** A migrated hotkey never needs migration again. */
  lemma MigrationClears(hotkey: string, os: Os)
    ensures !NeedsMigration(MigrateHotkeyFormat(hotkey, os))
  {
    MigratedParts(hotkey, os);
    var parts := Split(hotkey, '+');
    forall i | 0 <= i < |parts| ensures MigrateParts(parts, os)[i] !in LegacyNames {
      MigratePartFacts(parts[i], os);
    }
  }

  /** Migrating a migrated hotkey changes nothing. */
  lemma MigrationIdempotent(hotkey: string, os: Os)
    ensures MigrateHotkeyFormat(MigrateHotkeyFormat(hotkey, os), os) == MigrateHotkeyFormat(hotkey, os)
  {
    MigratedParts(hotkey, os);
    var parts := Split(hotkey, '+');
    var once := MigrateParts(parts, os);
    forall i | 0 <= i < |parts| ensures MigrateParts(once, os)[i] == once[i] {
      MigratePartFacts(parts[i], os);
    }
    assert MigrateParts(once, os) == once;
  }

  /** A hotkey with no older part and no "AltGr" part is left exactly as it is. */
  lemma MigrationKeepsCurrent(hotkey: string, os: Os)
    requires forall i :: 0 <= i < |Split(hotkey, '+')| ==>
      Split(hotkey, '+')[i] !in LegacyNames && Split(hotkey, '+')[i] != "AltGr"
    ensures MigrateHotkeyFormat(hotkey, os) == hotkey
  {
    var parts := Split(hotkey, '+');
    forall i | 0 <= i < |parts| ensures MigrateParts(parts, os)[i] == parts[i] {
      MigratePartFacts(parts[i], os);
    }
    assert MigrateParts(parts, os) == parts;
    JoinSplit(hotkey, '+');
  }

  // ---------------------------------------------------------------------------
  // Held keys and the combo latch

  /** What the global listener reports: a key going down, a key coming up, or anything else (mouse, wheel). */
  datatype KeyEvent = KeyPress(key: Key) | KeyRelease(key: Key) | OtherEvent

  /** What one check of the combo triggers. */
  datatype ComboChange = NoChange | Pressed | Released

  /** The held-key set after one event: a press adds the key, a release removes it. */
  function UpdateHeld(held: set<Key>, ev: KeyEvent): (after: set<Key>)
    ensures ev.KeyPress? ==> after == held + {ev.key}
    ensures ev.KeyRelease? ==> after == held - {ev.key}
    ensures ev.OtherEvent? ==> after == held
  {
    match ev
    case KeyPress(k) => held + {k}
    case KeyRelease(k) => held - {k}
    case OtherEvent => held
  }

  /** Every key of the combo is held. */
  predicate ComboHeld(combo: seq<Key>, held: set<Key>) {
    forall i :: 0 <= i < |combo| ==> combo[i] in held
  }

  /**
   * `check_combo` on a state: nothing while paused or with an empty combo;
   * otherwise "pressed" when the whole combo is held and the latch was open,
   * "released" when it is not and the latch was closed. Gives the new latch
   * and the change.
   */
  function Latch(active: bool, paused: bool, combo: seq<Key>, held: set<Key>): (bool, ComboChange) {
    if paused || combo == [] then (active, NoChange)
    else
      var allHeld := ComboHeld(combo, held);
      if allHeld && !active then (true, Pressed)
      else if !allHeld && active then (false, Released)
      else (active, NoChange)
  }

  /** A change always flips the latch: "pressed" closes an open latch, "released" opens a closed one. */
  lemma LatchFlips(active: bool, paused: bool, combo: seq<Key>, held: set<Key>)
    ensures var (after, change) := Latch(active, paused, combo, held);
      (change == NoChange ==> after == active) &&
      (change == Pressed ==> !active && after) &&
      (change == Released ==> active && !after) &&
      (change == Pressed <==> !paused && combo != [] && ComboHeld(combo, held) && !active) &&
      (change == Released <==> !paused && combo != [] && !ComboHeld(combo, held) && active)
  {
  }

  /** The listener's state after a run of events: the latch, the held keys, and the changes triggered. */
  datatype Outcome = Outcome(active: bool, held: set<Key>, changes: seq<ComboChange>)

  /**
   * The listener's callback over a run of events: a press or release updates
   * the held set and checks the combo, other events are ignored. Only real
   * changes are recorded.
   */
  function Replay(active: bool, paused: bool, combo: seq<Key>, held: set<Key>, events: seq<KeyEvent>): Outcome
    decreases |events|
  {
    if events == [] then Outcome(active, held, [])
    else if events[0].OtherEvent? then Replay(active, paused, combo, held, events[1..])
    else
      var h := UpdateHeld(held, events[0]);
      var (a, change) := Latch(active, paused, combo, h);
      var rest := Replay(a, paused, combo, h, events[1..]);
      Outcome(rest.active, rest.held, (if change == NoChange then [] else [change]) + rest.changes)
  }

  /** Changes alternate, starting with "released" when the latch starts closed and "pressed" otherwise. */
  predicate Alternates(changes: seq<ComboChange>, active: bool)
    decreases |changes|
  {
    changes == [] ||
    (changes[0] == (if active then Released else Pressed) && Alternates(changes[1..], !active))
  }

  /**
   * Presses and releases alternate, so each "pressed" is followed by at most
   * one "released" before the next; the final latch is the starting one,
   * flipped once per change.
   */
  lemma {:induction false} ReplayAlternates(active: bool, paused: bool, combo: seq<Key>, held: set<Key>, events: seq<KeyEvent>)
    ensures var out := Replay(active, paused, combo, held, events);
      Alternates(out.changes, active) && out.active == (if |out.changes| % 2 == 0 then active else !active)
    decreases |events|
  {
    if events != [] {
      if events[0].OtherEvent? {
        ReplayAlternates(active, paused, combo, held, events[1..]);
      } else {
        var h := UpdateHeld(held, events[0]);
        LatchFlips(active, paused, combo, h);
        var (a, change) := Latch(active, paused, combo, h);
        ReplayAlternates(a, paused, combo, h, events[1..]);
        var rest := Replay(a, paused, combo, h, events[1..]);
        if change != NoChange {
          var changes := [change] + rest.changes;
          assert Replay(active, paused, combo, held, events).changes == changes;
          assert changes[1..] == rest.changes;
          assert Alternates(changes, active);
        } else {
          assert a == active;
          assert Replay(active, paused, combo, held, events).changes == rest.changes;
        }
      }
    }
  }

  /** While paused, or with an empty combo, nothing is triggered and the latch stays as it is. */
  lemma {:induction false} ReplayInert(active: bool, paused: bool, combo: seq<Key>, held: set<Key>, events: seq<KeyEvent>)
    requires paused || combo == []
    ensures Replay(active, paused, combo, held, events).changes == []
    ensures Replay(active, paused, combo, held, events).active == active
    decreases |events|
  {
    if events != [] {
      ReplayInert(active, paused, combo, UpdateHeld(held, events[0]), events[1..]);
    }
  }

  /** The last press or release of `k` in a run of events, if any. */
  function LastTouch(events: seq<KeyEvent>, k: Key): (r: Option<KeyEvent>)
    ensures r.Some? ==> !r.value.OtherEvent? && r.value.key == k
    decreases |events|
  {
    if events == [] then None
    else
      match LastTouch(events[1..], k)
      case Some(e) => Some(e)
      case None => if !events[0].OtherEvent? && events[0].key == k then Some(events[0]) else None
  }

  /** A key is held after a run of events iff its last event was a press, or, untouched, it was held before. */
  lemma {:induction false} ReplayHeld(active: bool, paused: bool, combo: seq<Key>, held: set<Key>, events: seq<KeyEvent>, k: Key)
    ensures k in Replay(active, paused, combo, held, events).held <==>
      (if LastTouch(events, k).Some? then LastTouch(events, k).value.KeyPress? else k in held)
    decreases |events|
  {
    if events != [] {
      var h := UpdateHeld(held, events[0]);
      var (a, change) := Latch(active, paused, combo, h);
      if events[0].OtherEvent? {
        ReplayHeld(active, paused, combo, held, events[1..], k);
      } else {
        ReplayHeld(a, paused, combo, h, events[1..], k);
      }
    }
  }

  /**
   * The listener's shared state: the combo, the latch that is closed while the
   * combo is held, and the pause flag the settings page sets while it records
   * a new hotkey.
   */
  class HotkeyState {
    var combo: seq<Key>
    var comboActive: bool
    var paused: bool

    /** `HotkeyState::new`: the latch open, not paused. */
    constructor (combo: seq<Key>)
      ensures this.combo == combo && !comboActive && !paused
    {
      this.combo := combo;
      comboActive := false;
      paused := false;
    }

    /** `check_combo`: moves the latch as `Latch` says and reports the change; combo and pause flag stay. */
    method CheckCombo(held: set<Key>) returns (change: ComboChange)
      modifies this
      ensures (comboActive, change) == Latch(old(comboActive), paused, combo, held)
      ensures combo == old(combo) && paused == old(paused)
    {
      if paused || combo == [] {
        return NoChange;
      }
      var allHeld := ComboHeld(combo, held);
      if allHeld && !comboActive {
        comboActive := true;
        change := Pressed;
      } else if !allHeld && comboActive {
        comboActive := false;
        change := Released;
      } else {
        change := NoChange;
      }
    }

    /** `update_hotkey`: the combo parsed from the new hotkey, the latch opened. */
    method UpdateHotkey(hotkey: string)
      modifies this
      ensures combo == ParseHotkeyString(hotkey) && !comboActive && paused == old(paused)
    {
      combo := ParseHotkeyString(hotkey);
      comboActive := false;
    }

    /** `set_paused`: pausing also opens the latch; resuming leaves it as it was. */
    method SetPaused(pause: bool)
      modifies this
      ensures paused == pause && combo == old(combo)
      ensures comboActive == (if pause then false else old(comboActive))
    {
      paused := pause;
      if pause {
        comboActive := false;
      }
    }
  }

  /**
   * The listener thread's callback applied to each event in turn, starting
   * with no key held: the held set, the latch and the changes are those of
   * `Replay`.
   */
  method Listen(state: HotkeyState, events: seq<KeyEvent>) returns (held: set<Key>, changes: seq<ComboChange>)
    modifies state
    ensures state.combo == old(state.combo) && state.paused == old(state.paused)
    ensures Replay(old(state.comboActive), state.paused, state.combo, {}, events) ==
      Outcome(state.comboActive, held, changes)
  {
    held := {};
    changes := [];
    var i := 0;
    while i < |events|
      invariant 0 <= i <= |events|
      invariant state.combo == old(state.combo) && state.paused == old(state.paused)
      invariant var rest := Replay(state.comboActive, state.paused, state.combo, held, events[i..]);
        Replay(old(state.comboActive), state.paused, state.combo, {}, events) ==
          Outcome(rest.active, rest.held, changes + rest.changes)
    {
      var ev := events[i];
      assert events[i..][1..] == events[i + 1..];
      if !ev.OtherEvent? {
        held := UpdateHeld(held, ev);
        var change := state.CheckCombo(held);
        if change != NoChange {
          changes := changes + [change];
        }
      }
      i := i + 1;
    }
  }
}
