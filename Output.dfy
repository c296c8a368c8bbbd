/**
 * Delivering the cleaned text (src-tauri/src/output.rs): it is written to the
 * clipboard and, when auto-paste is on, pasted by simulating the configured
 * paste shortcut on the keyboard. The clipboard and the keyboard are foreign:
 * whether each call fails is an input.
 */
module Output {
  import opened Wrappers
  import opened Errors
  import opened Strings

  /** The modifier keys a paste shortcut may hold down. */
  datatype Modifier = Control | Shift | Alt | Meta

  /** A key of the simulated keyboard: a modifier, or the key that types a character. */
  datatype KeyboardKey = Mod(modifier: Modifier) | Unicode(c: char)

  datatype Direction = Press | Release | Click

  /** One call into the simulated keyboard. */
  datatype KeyAction = KeyAction(key: KeyboardKey, direction: Direction)

  // ---------------------------------------------------------------------------
  // Parsing the paste shortcut

  /** The modifier a lower-cased shortcut part names. */
  function ModifierNamed(lower: string): Option<Modifier> {
    match lower
    case "ctrl" | "control" => Some(Control)
    case "shift" => Some(Shift)
    case "alt" => Some(Alt)
    case "cmd" | "meta" | "super" => Some(Meta)
    case _ => None
  }

  /** How many bytes a char takes in UTF-8. */
  function Utf8Length(c: char): (n: nat)
    ensures 1 <= n <= 4
  {
    if c as int < 0x80 then 1 else if c as int < 0x800 then 2 else if c as int < 0x1_0000 then 3 else 4
  }

  /** `s.len()`: the length of a string in UTF-8 bytes. */
  function ByteLength(s: string): (n: nat)
    ensures n >= |s| && (n == 0 <==> s == [])
  {
    if s == [] then 0 else Utf8Length(s[0]) + ByteLength(s[1..])
  }

  /** A single ASCII char: the strings whose `len()` is 1. */
  predicate SingleByte(s: string) {
    |s| == 1 && s[0] as int < 0x80
  }

  /** A string is one byte long exactly when it is a single ASCII char. */
  lemma OneByteIffAscii(s: string)
    ensures ByteLength(s) == 1 <==> SingleByte(s)
  {
    if |s| >= 2 {
      assert ByteLength(s) == Utf8Length(s[0]) + ByteLength(s[1..]);
    }
  }

  /** Every piece of a string, trimmed. */
  function TrimAll(parts: seq<string>): (trimmed: seq<string>)
    ensures |trimmed| == |parts|
  {
    if parts == [] then [] else [Trim(parts[0])] + TrimAll(parts[1..])
  }

  /** Each trimmed piece is its piece trimmed. */
  lemma {:induction false} TrimAllAt(parts: seq<string>, i: nat)
    requires i < |parts|
    ensures TrimAll(parts)[i] == Trim(parts[i])
  {
    if i > 0 {
      TrimAllAt(parts[1..], i - 1);
      assert TrimAll(parts) == [Trim(parts[0])] + TrimAll(parts[1..]);
      assert parts[1..][i - 1] == parts[i];
    }
  }

  /** The '+'-separated parts of a shortcut, trimmed; there is always at least one. */
  function ShortcutParts(shortcut: string): (parts: seq<string>)
    ensures |parts| >= 1
  {
    TrimAll(Split(shortcut, '+'))
  }

  /** The error for a part that names no modifier: it quotes the part lower-cased. */
  function UnknownModifier(part: string): AppError {
    Output("Unknown modifier in paste shortcut: " + ToLower(part))
  }

  /** The modifiers named by `parts`, in order; the first part that names none is the error. */
  function ParseModifiers(parts: seq<string>): Res<seq<Modifier>> {
    if parts == [] then Ok([])
    else
      match ModifierNamed(ToLower(parts[0]))
      case None => Err(UnknownModifier(parts[0]))
      case Some(m) =>
        var rest :- ParseModifiers(parts[1..]);
        Ok([m] + rest)
  }

  /**
   * The modifiers are accepted iff every part names one; then they are the
   * parts' modifiers in order, and otherwise the error names the first part
   * that is not a modifier.
   */
  lemma ParseModifiersMeaning(parts: seq<string>)
    ensures var r := ParseModifiers(parts);
      (r.Ok? <==> forall i :: 0 <= i < |parts| ==> ModifierNamed(ToLower(parts[i])).Some?) &&
      (r.Ok? ==> (|r.value| == |parts| &&
        forall i :: 0 <= i < |parts| ==> ModifierNamed(ToLower(parts[i])) == Some(r.value[i]))) &&
      (r.Err? ==> exists i :: (0 <= i < |parts| && ModifierNamed(ToLower(parts[i])).None? &&
        (forall j :: 0 <= j < i ==> ModifierNamed(ToLower(parts[j])).Some?) &&
        r.error == UnknownModifier(parts[i])))
  {
    ParseModifiersAccepted(parts);
    ParseModifiersRefused(parts);
  }

  /** The modifiers are accepted iff every part names one, and then they are the parts' modifiers in order. */
  lemma {:induction false} ParseModifiersAccepted(parts: seq<string>)
    ensures var r := ParseModifiers(parts);
      (r.Ok? <==> forall i :: 0 <= i < |parts| ==> ModifierNamed(ToLower(parts[i])).Some?) &&
      (r.Ok? ==> (|r.value| == |parts| &&
        forall i :: 0 <= i < |parts| ==> ModifierNamed(ToLower(parts[i])) == Some(r.value[i])))
  {
    if parts != [] {
      ParseModifiersAccepted(parts[1..]);
      var r := ParseModifiers(parts);
      var first := ModifierNamed(ToLower(parts[0]));
      var rest := ParseModifiers(parts[1..]);
      if first.Some? {
        forall i | 1 <= i < |parts| ensures parts[i] == parts[1..][i - 1] {}
        if rest.Ok? {
          assert r.value == [first.value] + rest.value;
        }
      }
    }
  }

  /** A refused list is refused for its first part that names no modifier. */
  lemma {:induction false} ParseModifiersRefused(parts: seq<string>)
    ensures var r := ParseModifiers(parts);
      r.Err? ==> exists i :: (0 <= i < |parts| && ModifierNamed(ToLower(parts[i])).None? &&
        (forall j :: 0 <= j < i ==> ModifierNamed(ToLower(parts[j])).Some?) &&
        r.error == UnknownModifier(parts[i]))
  {
    if parts != [] {
      var first := ModifierNamed(ToLower(parts[0]));
      var rest := ParseModifiers(parts[1..]);
      if first.Some? && rest.Err? {
        ParseModifiersRefused(parts[1..]);
        var k :| 0 <= k < |parts[1..]| && ModifierNamed(ToLower(parts[1..][k])).None? &&
          (forall j :: 0 <= j < k ==> ModifierNamed(ToLower(parts[1..][j])).Some?) &&
          rest.error == UnknownModifier(parts[1..][k]);
        assert parts[1..][k] == parts[k + 1];
        forall j | 0 <= j < k + 1 ensures ModifierNamed(ToLower(parts[j])).Some? {
          if j > 0 {
            assert parts[j] == parts[1..][j - 1];
          }
        }
      }
    }
  }

  /**
   * `parse_paste_shortcut`: every part but the last must name a modifier, and
   * the last must be one byte long (`SingleByte`, see `OneByteIffAscii`); the
   * key is that char lower-cased.
   */
  function PasteShortcut(shortcut: string): Res<(seq<Modifier>, char)> {
    var parts := ShortcutParts(shortcut);
    var modifiers :- ParseModifiers(parts[..|parts| - 1]);
    var last := parts[|parts| - 1];
    if SingleByte(last) then Ok((modifiers, ToLowerChar(last[0])))
    else Err(Output("Invalid key in paste shortcut: " + last))
  }

  /**
   * A shortcut is accepted iff all parts but the last name modifiers and the
   * last is a single ASCII char; a last part of any other length is the
   * "Invalid key" error, unless an earlier part already failed.
   */
  lemma PasteShortcutMeaning(shortcut: string)
    ensures var parts := ShortcutParts(shortcut);
      var last := parts[|parts| - 1];
      var r := PasteShortcut(shortcut);
      (r.Ok? <==>
        (forall i :: 0 <= i < |parts| - 1 ==> ModifierNamed(ToLower(parts[i])).Some?) &&
        SingleByte(last)) &&
      (r.Ok? ==> |last| == 1 && r.value.1 == ToLowerChar(last[0]) && |r.value.0| == |parts| - 1) &&
      (ParseModifiers(parts[..|parts| - 1]).Ok? && !SingleByte(last) ==>
        r == Err(Output("Invalid key in paste shortcut: " + last)))
  {
    var parts := ShortcutParts(shortcut);
    var init := parts[..|parts| - 1];
    ParseModifiersMeaning(init);
    assert forall i :: 0 <= i < |parts| - 1 ==> parts[i] == init[i];
  }

  /** The "empty shortcut" case cannot arise: the empty string is one empty part, an invalid key. */
  lemma EmptyShortcutInvalid()
    ensures PasteShortcut("") == Err(Output("Invalid key in paste shortcut: "))
  {
    assert Split("", '+') == [""];
    assert Trim("") == "";
    assert TrimAll([""]) == [""];
    assert ShortcutParts("") == [""];
    assert ParseModifiers([]) == Ok([]);
    assert "Invalid key in paste shortcut: " + "" == "Invalid key in paste shortcut: ";
  }

  /**
   * The loop of `parse_paste_shortcut`: the modifiers are collected part by
   * part, with an early return on the first part that names none.
   */
  method CollectModifiers(init: seq<string>) returns (r: Res<seq<Modifier>>)
    ensures r == ParseModifiers(init)
  {
    var modifiers: seq<Modifier> := [];
    var i := 0;
    assert init[0..] == init;
    assert ParseModifiers(init).Ok? ==> [] + ParseModifiers(init).value == ParseModifiers(init).value;
    while i < |init|
      invariant 0 <= i <= |init|
      invariant ParseModifiers(init) == Prepend(modifiers, ParseModifiers(init[i..]))
    {
      assert init[i..][0] == init[i] && init[i..][1..] == init[i + 1..];
      var m := ModifierNamed(ToLower(init[i]));
      if m.None? {
        return Err(UnknownModifier(init[i]));
      }
      var later := ParseModifiers(init[i + 1..]);
      if later.Ok? {
        assert modifiers + ([m.value] + later.value) == (modifiers + [m.value]) + later.value;
      }
      modifiers := modifiers + [m.value];
      i := i + 1;
    }
    assert init[i..] == [];
    assert modifiers + [] == modifiers;
    return Ok(modifiers);
  }

  /** The modifiers collected so far in front of what the remaining parts give. */
  function Prepend(modifiers: seq<Modifier>, rest: Res<seq<Modifier>>): Res<seq<Modifier>> {
    if rest.Ok? then Ok(modifiers + rest.value) else rest
  }

  /** `parse_paste_shortcut`: the outcome is `PasteShortcut`. */
  method ParsePasteShortcut(shortcut: string) returns (r: Res<(seq<Modifier>, char)>)
    ensures r == PasteShortcut(shortcut)
  {
    var parts := ShortcutParts(shortcut);
    var modifiers :- CollectModifiers(parts[..|parts| - 1]);
    var last := parts[|parts| - 1];
    if SingleByte(last) {
      r := Ok((modifiers, ToLowerChar(last[0])));
    } else {
      r := Err(Output("Invalid key in paste shortcut: " + last));
    }
  }

  // ---------------------------------------------------------------------------
  // The simulated key strokes

  /** The modifiers released first, whatever the shortcut, so no key is left held from before. */
  const ReleaseAll: seq<KeyAction> := [
    KeyAction(Mod(Control), Release), KeyAction(Mod(Shift), Release),
    KeyAction(Mod(Alt), Release), KeyAction(Mod(Meta), Release)]

  /** Each modifier pressed, in order. */
  function Presses(modifiers: seq<Modifier>): (actions: seq<KeyAction>)
    ensures |actions| == |modifiers|
    ensures forall i :: 0 <= i < |modifiers| ==> actions[i] == KeyAction(Mod(modifiers[i]), Press)
  {
    if modifiers == [] then [] else [KeyAction(Mod(modifiers[0]), Press)] + Presses(modifiers[1..])
  }

  /** Each modifier released, the last one first. */
  function ReleasesReversed(modifiers: seq<Modifier>): (actions: seq<KeyAction>)
    ensures |actions| == |modifiers|
    ensures forall i :: 0 <= i < |modifiers| ==>
      actions[i] == KeyAction(Mod(modifiers[|modifiers| - 1 - i]), Release)
  {
    if modifiers == [] then []
    else [KeyAction(Mod(modifiers[|modifiers| - 1]), Release)] + ReleasesReversed(modifiers[..|modifiers| - 1])
  }

  /** The strokes of a paste after the initial releases: press the modifiers, click the key, release in reverse. */
  function PasteActions(modifiers: seq<Modifier>, c: char): seq<KeyAction> {
    Presses(modifiers) + [KeyAction(Unicode(c), Click)] + ReleasesReversed(modifiers)
  }

  /**
   * The strokes nest: with k modifiers there are 2k+1 strokes, the i-th
   * modifier is pressed at i and released at 2k-i, and the key is clicked in
   * the middle, while every modifier is down.
   */
  lemma PasteActionsNest(modifiers: seq<Modifier>, c: char)
    ensures var actions, k := PasteActions(modifiers, c), |modifiers|;
      |actions| == 2 * k + 1 &&
      actions[k] == KeyAction(Unicode(c), Click) &&
      forall i :: 0 <= i < k ==>
        actions[i] == KeyAction(Mod(modifiers[i]), Press) &&
        actions[2 * k - i] == KeyAction(Mod(modifiers[i]), Release)
  {
    var actions, k := PasteActions(modifiers, c), |modifiers|;
    forall i | 0 <= i < k
      ensures actions[2 * k - i] == KeyAction(Mod(modifiers[i]), Release)
    {
      assert actions[2 * k - i] == ReleasesReversed(modifiers)[k - 1 - i];
    }
  }

  /** The message for a failed stroke, by its kind. */
  function StrokeError(action: KeyAction, reason: string): AppError {
    match action.direction
    case Press => Output("Key press failed: " + reason)
    case Click => Output("Key click failed: " + reason)
    case Release => Output("Key release failed: " + reason)
  }

  /**
   * Strokes issued one after the other until one fails (`strokeError` is what
   * the keyboard answers to each): the strokes issued, the failing one
   * included, and the outcome.
   */
  function Play(actions: seq<KeyAction>, strokeError: KeyAction -> Option<string>): (seq<KeyAction>, Res<()>) {
    if actions == [] then ([], Ok(()))
    else
      match strokeError(actions[0])
      case Some(reason) => ([actions[0]], Err(StrokeError(actions[0], reason)))
      case None =>
        var (done, r) := Play(actions[1..], strokeError);
        ([actions[0]] + done, r)
  }

  /** When no stroke fails, all of them are issued and the outcome is Ok. */
  lemma {:induction false} PlayAll(actions: seq<KeyAction>, strokeError: KeyAction -> Option<string>)
    requires forall i :: 0 <= i < |actions| ==> strokeError(actions[i]).None?
    ensures Play(actions, strokeError) == (actions, Ok(()))
  {
    if actions != [] {
      PlayAll(actions[1..], strokeError);
      assert actions == [actions[0]] + actions[1..];
    }
  }

  /** The first failing stroke is the last one issued, and its failure is the outcome. */
  lemma {:induction false} PlayStops(actions: seq<KeyAction>, strokeError: KeyAction -> Option<string>, i: nat)
    requires i < |actions| && strokeError(actions[i]).Some?
    requires forall j :: 0 <= j < i ==> strokeError(actions[j]).None?
    ensures Play(actions, strokeError) == (actions[..i + 1], Err(StrokeError(actions[i], strokeError(actions[i]).value)))
  {
    if i > 0 {
      PlayStops(actions[1..], strokeError, i - 1);
      assert actions[..i + 1] == [actions[0]] + actions[1..][..i];
    } else {
      assert actions[..1] == [actions[0]];
    }
  }

  /** Playing two runs of strokes is playing the first and, if it succeeds, the second. */
  lemma {:induction false} PlayAppend(a: seq<KeyAction>, b: seq<KeyAction>, strokeError: KeyAction -> Option<string>)
    ensures Play(a + b, strokeError) ==
      (var (doneA, rA) := Play(a, strokeError);
       if rA.Err? then (doneA, rA)
       else var (doneB, rB) := Play(b, strokeError); (doneA + doneB, rB))
  {
    if a == [] {
      assert a + b == b;
      assert [] + Play(b, strokeError).0 == Play(b, strokeError).0;
    } else {
      assert (a + b)[0] == a[0] && (a + b)[1..] == a[1..] + b;
      PlayAppend(a[1..], b, strokeError);
      if strokeError(a[0]).None? && Play(a[1..], strokeError).1.Ok? {
        var doneA := Play(a[1..], strokeError).0;
        var doneB := Play(b, strokeError).0;
        assert [a[0]] + (doneA + doneB) == ([a[0]] + doneA) + doneB;
      }
    }
  }

  /**
   * What `simulate_paste` does: nothing when the shortcut does not parse or
   * the keyboard cannot be opened; otherwise the four releases (their
   * failures ignored) and then the paste strokes up to the first failure.
   */
  function PasteOutcome(shortcut: string, keyboard: Result<(), string>, strokeError: KeyAction -> Option<string>): (seq<KeyAction>, Res<()>) {
    match PasteShortcut(shortcut)
    case Err(e) => ([], Err(e))
    case Ok((modifiers, c)) =>
      if keyboard.Err? then ([], Err(Output("Failed to create enigo: " + keyboard.error)))
      else
        var (done, r) := Play(PasteActions(modifiers, c), strokeError);
        (ReleaseAll + done, r)
  }

  /** A paste that goes through issues exactly the releases, the modifier presses, the click and the reversed releases. */
  lemma PasteSucceeds(shortcut: string, strokeError: KeyAction -> Option<string>)
    requires PasteShortcut(shortcut).Ok?
    requires forall a :: strokeError(a).None?
    ensures var (modifiers, c) := PasteShortcut(shortcut).value;
      PasteOutcome(shortcut, Ok(()), strokeError) == (ReleaseAll + PasteActions(modifiers, c), Ok(()))
  {
    var (modifiers, c) := PasteShortcut(shortcut).value;
    var actions := PasteActions(modifiers, c);
    PlayAll(actions, strokeError);
    PastedAll(shortcut, Ok(()), strokeError, modifiers, c);
  }

  /** Once the shortcut parses and the keyboard opens, the paste issues the releases and then plays the paste strokes. */
  lemma PastedAll(shortcut: string, keyboard: Result<(), string>, strokeError: KeyAction -> Option<string>,
                  modifiers: seq<Modifier>, c: char)
    requires PasteShortcut(shortcut) == Ok((modifiers, c)) && keyboard.Ok?
    ensures PasteOutcome(shortcut, keyboard, strokeError) ==
      (ReleaseAll + Play(PasteActions(modifiers, c), strokeError).0, Play(PasteActions(modifiers, c), strokeError).1)
  {
  }

  /** Playing the paste strokes is playing the presses, then the click, then the releases, up to the first failure. */
  lemma PlayPhases(presses: seq<KeyAction>, click: seq<KeyAction>, releases: seq<KeyAction>,
                   strokeError: KeyAction -> Option<string>)
    ensures Play(presses + click + releases, strokeError) ==
      (var (d1, r1) := Play(presses, strokeError);
       if r1.Err? then (d1, r1)
       else var (d2, r2) := Play(click, strokeError);
         if r2.Err? then (d1 + d2, r2)
         else var (d3, r3) := Play(releases, strokeError); (d1 + d2 + d3, r3))
  {
    PlayAppend(presses, click, strokeError);
    PlayAppend(presses + click, releases, strokeError);
  }

  /**
   * One stroke loop of `simulate_paste`: issue the strokes in order and return
   * at the first failure; what is issued and the outcome are `Play`.
   */
  method Issue(actions: seq<KeyAction>, strokeError: KeyAction -> Option<string>)
    returns (done: seq<KeyAction>, r: Res<()>)
    ensures (done, r) == Play(actions, strokeError)
  {
    done := [];
    var i := 0;
    while i < |actions|
      invariant 0 <= i <= |actions|
      invariant done == actions[..i]
      invariant forall j :: 0 <= j < i ==> strokeError(actions[j]).None?
    {
      done := done + [actions[i]];
      assert actions[..i + 1] == actions[..i] + [actions[i]];
      if strokeError(actions[i]).Some? {
        PlayStops(actions, strokeError, i);
        return done, Err(StrokeError(actions[i], strokeError(actions[i]).value));
      }
      i := i + 1;
    }
    assert actions[..i] == actions;
    PlayAll(actions, strokeError);
    r := Ok(());
  }

  /**
   * The strokes of `simulate_paste` after the initial releases: press the
   * modifiers, click the key, release the modifiers in reverse, stopping at the
   * first failure; what is issued and the outcome are `Play` of the paste
   * strokes.
   */
  method PasteStrokes(modifiers: seq<Modifier>, c: char, strokeError: KeyAction -> Option<string>)
    returns (strokes: seq<KeyAction>, r: Res<()>)
    ensures (strokes, r) == Play(PasteActions(modifiers, c), strokeError)
  {
    var presses := Presses(modifiers);
    var click := [KeyAction(Unicode(c), Click)];
    var releases := ReleasesReversed(modifiers);
    PlayPhases(presses, click, releases, strokeError);
    var done;
    strokes, r := Issue(presses, strokeError);
    if r.Err? {
      return;
    }
    done, r := Issue(click, strokeError);
    strokes := strokes + done;
    if r.Err? {
      return;
    }
    done, r := Issue(releases, strokeError);
    strokes := strokes + done;
  }

  /**
   * `simulate_paste`: parse the shortcut, open the keyboard, release the four
   * modifiers ignoring failures, then issue the paste strokes; what is issued
   * and the outcome are `PasteOutcome`.
   */
  method SimulatePaste(shortcut: string, keyboard: Result<(), string>, strokeError: KeyAction -> Option<string>)
    returns (strokes: seq<KeyAction>, r: Res<()>)
    ensures (strokes, r) == PasteOutcome(shortcut, keyboard, strokeError)
  {
    var parsed := ParsePasteShortcut(shortcut);
    if parsed.Err? {
      return [], Err(parsed.error);
    }
    var (modifiers, c) := parsed.value;
    if keyboard.Err? {
      return [], Err(Output("Failed to create enigo: " + keyboard.error));
    }
    var done;
    done, r := PasteStrokes(modifiers, c, strokeError);
    strokes := ReleaseAll + done;
  }

  // ---------------------------------------------------------------------------
  // Clipboard and paste

  /** `copy_to_clipboard`: the clipboard write's failure, if any, is an output error. */
  function CopyToClipboard(writeError: Option<string>): (r: Res<()>)
    ensures r.Ok? <==> writeError.None?
    ensures r.Err? ==> r.error == Output("Clipboard write failed: " + writeError.value)
  {
    if writeError.Some? then Err(Output("Clipboard write failed: " + writeError.value)) else Ok(())
  }

  /**
   * `copy_and_paste`: a failed clipboard write is the error and nothing is
   * pasted; otherwise the text stays in the clipboard, it is pasted only when
   * auto-paste is on, and a failed paste is only logged: the result is Ok.
   */
  method CopyAndPaste(autoPaste: bool, shortcut: string, writeError: Option<string>,
                      keyboard: Result<(), string>, strokeError: KeyAction -> Option<string>)
    returns (r: Res<()>, strokes: seq<KeyAction>)
    ensures writeError.Some? ==> r == CopyToClipboard(writeError) && strokes == []
    ensures writeError.None? ==> r == Ok(())
    ensures writeError.None? && !autoPaste ==> strokes == []
    ensures writeError.None? && autoPaste ==> strokes == PasteOutcome(shortcut, keyboard, strokeError).0
  {
    strokes := [];
    r := CopyToClipboard(writeError);
    if r.Err? {
      return;
    }
    if autoPaste {
      var pasted;
      strokes, pasted := SimulatePaste(shortcut, keyboard, strokeError);
    }
  }
}
