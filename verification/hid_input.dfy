/**
 The key branch of `process_keyboard` in `hidinput.py`: translation of a
 Linux input event into a `key_down` / `key_up` callback, with the shift
 and alt modifier list and the key-name tables, and `Listener._callback`,
 which turns those callbacks into pynput-style `on_press` / `on_release`
 calls.
 */
module HidInput {
  import opened Wrappers
  import Seqs

  /** Linux input event type of key and button events. */
  const EV_KEY := 0x01

  /** The names of a key: one name, or the name without and with shift. */
  datatype Names = One(name: string) | Two(plain: string, shifted: string) {
    /** `names[0]` */
    function First(): string
    {
      match this
      case One(n) => n
      case Two(p, _) => p
    }
    /** `names[-1]` */
    function Last(): string
    {
      match this
      case One(n) => n
      case Two(_, s) => s
    }
  }

  /** `keyboard_keys.get(code)`: the names of a key code, or None when the table has no entry. */
  function KeyboardKeys(code: int): (r: Option<Names>)
    ensures r.Some? ==> 0x01 <= code <= 0xff
    ensures r.Some? ==> r.value.First() != "" && r.value.Last() != ""
    ensures r.Some? && r.value.Two? ==> r.value.plain != r.value.shifted
  {
    match code
    case 0x29 => Some(Two("`", "~"))
    case 0x02 => Some(Two("1", "!"))
    case 0x03 => Some(Two("2", "@"))
    case 0x04 => Some(Two("3", "#"))
    case 0x05 => Some(Two("4", "$"))
    case 0x06 => Some(Two("5", "%"))
    case 0x07 => Some(Two("6", "^"))
    case 0x08 => Some(Two("7", "&"))
    case 0x09 => Some(Two("8", "*"))
    case 0x0a => Some(Two("9", "("))
    case 0x0b => Some(Two("0", ")"))
    case 0x0c => Some(Two("-", "_"))
    case 0x0d => Some(Two("=", "+"))
    case 0x0e => Some(One("backspace"))
    case 0x0f => Some(One("tab"))
    case 0x10 => Some(Two("q", "Q"))
    case 0x11 => Some(Two("w", "W"))
    case 0x12 => Some(Two("e", "E"))
    case 0x13 => Some(Two("r", "R"))
    case 0x14 => Some(Two("t", "T"))
    case 0x15 => Some(Two("y", "Y"))
    case 0x16 => Some(Two("u", "U"))
    case 0x17 => Some(Two("i", "I"))
    case 0x18 => Some(Two("o", "O"))
    case 0x19 => Some(Two("p", "P"))
    case 0x1a => Some(Two("[", "{"))
    case 0x1b => Some(Two("]", "}"))
    case 0x2b => Some(Two("\\", "|"))
    case 0x3a => Some(One("caps_lock"))
    case 0x1e => Some(Two("a", "A"))
    case 0x1f => Some(Two("s", "S"))
    case 0x20 => Some(Two("d", "D"))
    case 0x21 => Some(Two("f", "F"))
    case 0x22 => Some(Two("g", "G"))
    case 0x23 => Some(Two("h", "H"))
    case 0x24 => Some(Two("j", "J"))
    case 0x25 => Some(Two("k", "K"))
    case 0x26 => Some(Two("l", "L"))
    case 0x27 => Some(Two(";", ":"))
    case 0x28 => Some(Two("'", "\""))
    case 0xff => Some(One("non-US-1"))
    case 0x1c => Some(One("enter"))
    case 0x2a => Some(One("shift"))
    case 0x2c => Some(Two("z", "Z"))
    case 0x2d => Some(Two("x", "X"))
    case 0x2e => Some(Two("c", "C"))
    case 0x2f => Some(Two("v", "V"))
    case 0x30 => Some(Two("b", "B"))
    case 0x31 => Some(Two("n", "N"))
    case 0x32 => Some(Two("m", "M"))
    case 0x33 => Some(Two(",", "<"))
    case 0x34 => Some(Two(".", ">"))
    case 0x35 => Some(Two("/", "?"))
    case 0x36 => Some(One("shift"))
    case 0x56 => Some(One("pipe"))
    case 0x1d => Some(One("ctrl"))
    case 0x7d => Some(One("super"))
    case 0x38 => Some(One("alt"))
    case 0x39 => Some(One("space"))
    case 0x64 => Some(One("alt-gr"))
    case 0x7e => Some(One("super"))
    case 0x7f => Some(One("compose"))
    case 0x61 => Some(One("ctrl"))
    case 0x45 => Some(One("numlock"))
    case 0x47 => Some(Two("numpad7", "home"))
    case 0x4b => Some(Two("numpad4", "left"))
    case 0x4f => Some(Two("numpad1", "end"))
    case 0x48 => Some(Two("numpad8", "up"))
    case 0x4c => Some(One("numpad5"))
    case 0x50 => Some(Two("numpad2", "down"))
    case 0x52 => Some(Two("numpad0", "insert"))
    case 0x37 => Some(One("numpadmul"))
    case 0x62 => Some(One("numpaddivide"))
    case 0x49 => Some(Two("numpad9", "page_up"))
    case 0x4d => Some(Two("numpad6", "right"))
    case 0x51 => Some(Two("numpad3", "pagedown"))
    case 0x53 => Some(Two("numpaddecimal", "delete"))
    case 0x4a => Some(One("numpadsubstract"))
    case 0x4e => Some(One("numpadadd"))
    case 0x60 => Some(One("numpadenter"))
    case 0x01 => Some(One("esc"))
    case 0x3b => Some(One("f1"))
    case 0x3c => Some(One("f2"))
    case 0x3d => Some(One("f3"))
    case 0x3e => Some(One("f4"))
    case 0x3f => Some(One("f5"))
    case 0x40 => Some(One("f6"))
    case 0x41 => Some(One("f7"))
    case 0x42 => Some(One("f8"))
    case 0x43 => Some(One("f9"))
    case 0x44 => Some(One("f10"))
    case 0x57 => Some(One("f11"))
    case 0x58 => Some(One("f12"))
    case 0x54 => Some(One("Alt+SysRq"))
    case 0x46 => Some(One("Screenlock"))
    case 0x67 => Some(One("up"))
    case 0x6c => Some(One("down"))
    case 0x69 => Some(One("left"))
    case 0x6a => Some(One("right"))
    case 0x6e => Some(One("insert"))
    case 0x6f => Some(One("delete"))
    case 0x66 => Some(One("home"))
    case 0x6b => Some(One("end"))
    case 0x68 => Some(One("page_up"))
    case 0x6d => Some(One("page_down"))
    case 0x63 => Some(One("print"))
    case 0x77 => Some(One("pause"))
    case _ => None
  }

  /** `keys_str`: the text a key name stands for, where it is not the name itself. */
  const KEYS_STR: map<string, string> := map[
    "space" := " ",
    "tab" := "\t",
    "shift" := "",
    "alt" := "",
    "ctrl" := "",
    "escape" := "",
    "numpad1" := "1",
    "numpad2" := "2",
    "numpad3" := "3",
    "numpad4" := "4",
    "numpad5" := "5",
    "numpad6" := "6",
    "numpad7" := "7",
    "numpad8" := "8",
    "numpad9" := "9",
    "numpad0" := "0",
    "numpadmul" := "*",
    "numpaddivide" := "/",
    "numpadadd" := "+",
    "numpadsubstract" := "-"
  ]

  /** The mouse and pen button codes, handled by the mouse branch instead. */
  const BUTTONS: set<int> := {272, 273, 274, 275, 276, 277, 278, 279, 330, 320}

  /** The ten mouse and pen buttons have no key name, so the button branch never hides a key. */
  lemma ButtonsAreNotKeys()
    ensures |BUTTONS| == 10
    ensures forall code :: code in BUTTONS ==> KeyboardKeys(code).None?
  {
  }

  /** Every text `keys_str` gives is at most one character, and it blanks exactly the modifiers and "escape". */
  lemma KeysStrTexts()
    ensures forall z :: z in KEYS_STR ==> |KEYS_STR[z]| <= 1
    ensures forall z :: z in KEYS_STR ==> (KEYS_STR[z] == "" <==> z in {"shift", "alt", "ctrl", "escape"})
  {
  }

  /**
   The key table calls the Esc key "esc", not "escape": no key ever gets
   the blank "escape" entry of `keys_str`, and Esc keeps its name as text.
   */
  lemma EscapeEntryUnreachable(code: int, modifiers: seq<string>)
    requires KeyboardKeys(code).Some?
    ensures KeyName(code, modifiers) != "escape"
    ensures KeyText(KeyName(0x01, modifiers)) == "esc"
  {
  }

  /** Python's `str.lower()` on the ASCII names of the table. */
  function LowerChar(c: char): (r: char)
    ensures 'A' <= c <= 'Z' ==> 'a' <= r <= 'z' && r as int == c as int + 32
    ensures !('A' <= c <= 'Z') ==> r == c
  {
    if 'A' <= c <= 'Z' then (c as int + 32) as char else c
  }

  function Lower(s: string): (r: string)
    ensures |r| == |s|
    ensures forall i :: 0 <= i < |s| ==> r[i] == LowerChar(s[i])
  {
    if |s| == 0 then "" else [LowerChar(s[0])] + Lower(s[1..])
  }

  /** A name without capital letters is its own lower-case form. */
  lemma LowerNoCapitals(s: string)
    requires forall i :: 0 <= i < |s| ==> !('A' <= s[i] <= 'Z')
    ensures Lower(s) == s
  {
    assert forall i :: 0 <= i < |s| ==> Lower(s)[i] == s[i];
  }

  /** `keyboard_keys[code][-1 if 'shift' in modifiers else 0]`. */
  function KeyName(code: int, modifiers: seq<string>): (z: string)
    requires KeyboardKeys(code).Some?
    ensures z == KeyboardKeys(code).value.First() || z == KeyboardKeys(code).value.Last()
    ensures "shift" !in modifiers ==> z == KeyboardKeys(code).value.First()
    ensures "shift" in modifiers ==> z == KeyboardKeys(code).value.Last()
    ensures KeyboardKeys(code).value.One? ==> z == KeyboardKeys(code).value.name
  {
    var names := KeyboardKeys(code).value;
    if "shift" in modifiers then names.Last() else names.First()
  }

  /** `keys_str.get(z, z)`. */
  function KeyText(z: string): (text: string)
    ensures z in KEYS_STR ==> text == KEYS_STR[z]
    ensures z !in KEYS_STR ==> text == z
  {
    if z in KEYS_STR then KEYS_STR[z] else z
  }

  datatype Direction = KeyDown | KeyUp

  /**
   One `callback(name, (key, code, text, modifiers))` call. The modifier
   list is the one at the time of the call.
   */
  datatype Callback = Callback(direction: Direction, key: string, code: int, text: string, modifiers: seq<string>)

  /**
   What processing one event did: the modifier list afterwards, the
   callback fired (if any) and the exception raised (if any), which ends
   the reading thread.
   */
  datatype Outcome = Outcome(modifiers: seq<string>, callback: Option<Callback>, error: Option<PyError>)

  /**
   `process_keyboard` for one input event. Non-key events and key values
   other than 0 and 1 do nothing. A button press raises KeyError because
   the mouse record has no `id` yet (and a button release finds no
   button held). An unknown key code raises KeyError. A key press fires
   `key_down` after recording shift or alt; a key release fires `key_up`,
   then a shift release removes one shift, raising ValueError when none is
   recorded.
   */
  function ProcessKeyboard(modifiers: seq<string>, evType: int, code: int, value: int): (r: Outcome)
    ensures evType != EV_KEY ==> r == Outcome(modifiers, None, None)
    ensures evType == EV_KEY && code in BUTTONS ==>
              r.callback.None? && r.modifiers == modifiers
              && (value != 0 ==> r.error == Some(KeyError))
              && (value == 0 ==> r.error.None?)
    ensures evType == EV_KEY && code !in BUTTONS && value != 0 && value != 1 ==>
              r == Outcome(modifiers, None, None)
    ensures evType == EV_KEY && code !in BUTTONS && (value == 0 || value == 1) && KeyboardKeys(code).None? ==>
              r == Outcome(modifiers, None, Some(KeyError))
    ensures evType == EV_KEY && code !in BUTTONS && value == 1 && KeyboardKeys(code).Some? ==>
              var z := KeyName(code, modifiers);
              && r.error.None?
              && r.callback == Some(Callback(KeyDown, Lower(z), code, KeyText(z), r.modifiers))
              && r.modifiers == modifiers + (if z == "shift" || z == "alt" then [z] else [])
    ensures evType == EV_KEY && code !in BUTTONS && value == 0 && KeyboardKeys(code).Some? ==>
              var z := KeyName(code, modifiers);
              && r.callback == Some(Callback(KeyUp, Lower(z), code, KeyText(z), modifiers))
              && (z != "shift" ==> r.modifiers == modifiers && r.error.None?)
              && (z == "shift" && "shift" in modifiers ==>
                    && r.error.None?
                    && r.modifiers == Seqs.RemoveFirst(modifiers, "shift")
                    && multiset(r.modifiers) == multiset(modifiers) - multiset{"shift"})
              && (z == "shift" && "shift" !in modifiers ==>
                    r.error == Some(ValueError) && r.modifiers == modifiers)
  {
    if evType != EV_KEY then Outcome(modifiers, None, None)
    else if code in BUTTONS then
      if value != 0 then Outcome(modifiers, None, Some(KeyError))
      else Outcome(modifiers, None, None)
    else if value == 1 then
      if KeyboardKeys(code).None? then Outcome(modifiers, None, Some(KeyError))
      else
        var z := KeyName(code, modifiers);
        var modifiers1 := if z == "shift" || z == "alt" then modifiers + [z] else modifiers;
        Outcome(modifiers1, Some(Callback(KeyDown, Lower(z), code, KeyText(z), modifiers1)), None)
    else if value == 0 then
      if KeyboardKeys(code).None? then Outcome(modifiers, None, Some(KeyError))
      else
        var z := KeyName(code, modifiers);
        var cb := Callback(KeyUp, Lower(z), code, KeyText(z), modifiers);
        if z == "shift" then
          if "shift" in modifiers then Outcome(Seqs.RemoveFirst(modifiers, "shift"), Some(cb), None)
          else Outcome(modifiers, Some(cb), Some(ValueError))
        else Outcome(modifiers, Some(cb), None)
    else Outcome(modifiers, None, None)
  }

  /** Alt is recorded on press and never removed: no event lowers the number of alts. */
  lemma AltNeverRemoved(modifiers: seq<string>, evType: int, code: int, value: int)
    ensures multiset(ProcessKeyboard(modifiers, evType, code, value).modifiers)["alt"] >= multiset(modifiers)["alt"]
  {
    if evType == EV_KEY && code !in BUTTONS && value == 0 && KeyboardKeys(code).Some?
       && KeyName(code, modifiers) == "shift" && "shift" in modifiers {
      assert multiset{"shift"}["alt"] == 0;
    }
  }

  /** The key codes of the letters a to z. */
  const LETTER_CODES: set<int> := {
    0x10, 0x11, 0x12, 0x13, 0x14, 0x15, 0x16, 0x17, 0x18, 0x19,
    0x1e, 0x1f, 0x20, 0x21, 0x22, 0x23, 0x24, 0x25, 0x26,
    0x2c, 0x2d, 0x2e, 0x2f, 0x30, 0x31, 0x32}

  /** A letter key reports the same lower-case name whether shift is held or not. */
  lemma LetterNamesIgnoreShift(code: int, modifiers: seq<string>)
    requires code in LETTER_CODES
    ensures KeyboardKeys(code).Some?
    ensures Lower(KeyName(code, modifiers)) == KeyboardKeys(code).value.First()
    ensures |KeyboardKeys(code).value.First()| == 1 && 'a' <= KeyboardKeys(code).value.First()[0] <= 'z'
  {
    if code == 0x10 { LetterKey(code, modifiers); }
    else if code == 0x11 { LetterKey(code, modifiers); }
    else if code == 0x12 { LetterKey(code, modifiers); }
    else if code == 0x13 { LetterKey(code, modifiers); }
    else if code == 0x14 { LetterKey(code, modifiers); }
    else if code == 0x15 { LetterKey(code, modifiers); }
    else if code == 0x16 { LetterKey(code, modifiers); }
    else if code == 0x17 { LetterKey(code, modifiers); }
    else if code == 0x18 { LetterKey(code, modifiers); }
    else if code == 0x19 { LetterKey(code, modifiers); }
    else if code == 0x1e { LetterKey(code, modifiers); }
    else if code == 0x1f { LetterKey(code, modifiers); }
    else if code == 0x20 { LetterKey(code, modifiers); }
    else if code == 0x21 { LetterKey(code, modifiers); }
    else if code == 0x22 { LetterKey(code, modifiers); }
    else if code == 0x23 { LetterKey(code, modifiers); }
    else if code == 0x24 { LetterKey(code, modifiers); }
    else if code == 0x25 { LetterKey(code, modifiers); }
    else if code == 0x26 { LetterKey(code, modifiers); }
    else if code == 0x2c { LetterKey(code, modifiers); }
    else if code == 0x2d { LetterKey(code, modifiers); }
    else if code == 0x2e { LetterKey(code, modifiers); }
    else if code == 0x2f { LetterKey(code, modifiers); }
    else if code == 0x30 { LetterKey(code, modifiers); }
    else if code == 0x31 { LetterKey(code, modifiers); }
    else { LetterKey(code, modifiers); }
  }

  /** A key whose names are a lower-case letter and its capital. */
  lemma LetterKey(code: int, modifiers: seq<string>)
    requires KeyboardKeys(code).Some? && KeyboardKeys(code).value.Two?
    requires var names := KeyboardKeys(code).value;
             && |names.plain| == 1 && |names.shifted| == 1
             && 'a' <= names.plain[0] <= 'z' && 'A' <= names.shifted[0] <= 'Z'
             && names.shifted[0] as int + 32 == names.plain[0] as int
    ensures Lower(KeyName(code, modifiers)) == KeyboardKeys(code).value.First()
    ensures |KeyboardKeys(code).value.First()| == 1 && 'a' <= KeyboardKeys(code).value.First()[0] <= 'z'
  {
  }

  // --------------------------------------------------------------------- listener

  /** The pynput-style call `Listener._callback` makes. */
  datatype ListenerCall = OnPress(key: string) | OnRelease(key: string)

  /** `Listener._callback`: only the key name is passed on. */
  function ListenerCallback(cb: Callback): (r: ListenerCall)
    ensures r.key == cb.key
    ensures r.OnPress? <==> cb.direction == KeyDown
  {
    match cb.direction
    case KeyUp => OnRelease(cb.key)
    case KeyDown => OnPress(cb.key)
  }

  /** A raw input event as read from the device. */
  datatype InputEvent = InputEvent(evType: int, code: int, value: int)

  /** What reading a run did: the modifier list afterwards, the listener calls made, and the exception raised (if any). */
  type Reading = (seq<string>, seq<ListenerCall>, Option<PyError>)

  /**
   The reading thread over a run of events: each event is processed in
   turn and its callback delivered to the listener; the first exception
   ends the thread, after any callback fired before it.
   */
  function Listen(modifiers: seq<string>, events: seq<InputEvent>): (r: Reading)
    ensures |r.1| <= |events|
    ensures (forall i :: 0 <= i < |events| ==> !Relevant(events[i])) ==> r == (modifiers, [], None)
    ensures |events| == 1 ==> r == ListenOne(modifiers, events[0])
  {
    ListenFacts(modifiers, events);
    ReadAll(ListenOne, modifiers, events)
  }

  /** The reading loop, for any way `step` of handling one event. */
  function ReadAll(step: (seq<string>, InputEvent) -> Reading, modifiers: seq<string>, events: seq<InputEvent>): Reading
    decreases |events|
  {
    if |events| == 0 then (modifiers, [], None)
    else
      var first := step(modifiers, events[0]);
      if first.2.Some? then first
      else
        var rest := ReadAll(step, first.0, events[1..]);
        (rest.0, first.1 + rest.1, rest.2)
  }

  /** The reader makes at most one call per event and ignores runs of irrelevant events. */
  lemma {:induction false} ListenFacts(modifiers: seq<string>, events: seq<InputEvent>)
    ensures var r := ReadAll(ListenOne, modifiers, events);
            && |r.1| <= |events|
            && ((forall i :: 0 <= i < |events| ==> !Relevant(events[i])) ==> r == (modifiers, [], None))
            && (|events| == 1 ==> r == ListenOne(modifiers, events[0]))
    decreases |events|
  {
    if |events| > 0 {
      var first := ListenOne(modifiers, events[0]);
      assert forall i :: 1 <= i < |events| ==> events[i] == events[1..][i - 1];
      if first.2.None? {
        ListenFacts(first.0, events[1..]);
        var rest := ReadAll(ListenOne, first.0, events[1..]);
        assert |events| == 1 ==> first.1 + rest.1 == first.1;
      }
    }
  }

  /**
   One event through the reader: `process_keyboard`, with the callback it
   fires handed to the listener as `on_press` / `on_release`.
   */
  function ListenOne(modifiers: seq<string>, ev: InputEvent): (r: Reading)
    ensures var out := ProcessKeyboard(modifiers, ev.evType, ev.code, ev.value);
            && r.0 == out.modifiers && r.2 == out.error
            && (out.callback.None? ==> r.1 == [])
            && (out.callback.Some? ==> r.1 == [ListenerCallback(out.callback.value)])
    ensures !Relevant(ev) ==> r == (modifiers, [], None)
  {
    var out := ProcessKeyboard(modifiers, ev.evType, ev.code, ev.value);
    (out.modifiers, if out.callback.Some? then [ListenerCallback(out.callback.value)] else [], out.error)
  }

  /** The events that can fire a callback or raise: key and button events of the values that matter. */
  predicate Relevant(ev: InputEvent)
  {
    ev.evType == EV_KEY && (if ev.code in BUTTONS then ev.value != 0 else ev.value == 0 || ev.value == 1)
  }

  /**
   Dropping every other event beforehand (non-key events, auto-repeats)
   changes nothing the listener sees.
   */
  lemma {:induction false} IrrelevantEventsIgnored(modifiers: seq<string>, events: seq<InputEvent>)
    ensures Listen(modifiers, events) == Listen(modifiers, Seqs.Filter(events, Relevant))
    decreases |events|
  {
    if |events| > 0 {
      var ev, rest := events[0], events[1..];
      var kept := Seqs.Filter(rest, Relevant);
      assert events == [ev] + rest;
      if Relevant(ev) {
        assert Seqs.Filter(events, Relevant) == [ev] + kept;
        var one := Listen(modifiers, [ev]);
        if one.2.None? {
          IrrelevantEventsIgnored(one.0, rest);
        }
        SameAfterHead(modifiers, ev, rest, kept);
      } else {
        assert Seqs.Filter(events, Relevant) == kept;
        IrrelevantHead(modifiers, ev, rest);
        IrrelevantEventsIgnored(modifiers, rest);
      }
    }
  }

  /** An irrelevant first event can be dropped. */
  lemma IrrelevantHead(modifiers: seq<string>, ev: InputEvent, rest: seq<InputEvent>)
    requires !Relevant(ev)
    ensures Listen(modifiers, [ev] + rest) == Listen(modifiers, rest)
  {
    var one := Listen(modifiers, [ev]);
    assert one == ListenOne(modifiers, ev);
    ListenAppend(modifiers, [ev], rest);
    var r := Listen(modifiers, rest);
    assert [] + r.1 == r.1;
  }

  /** Two runs the listener reads alike after a common first event are read alike with it. */
  lemma SameAfterHead(modifiers: seq<string>, ev: InputEvent, a: seq<InputEvent>, b: seq<InputEvent>)
    requires var one := Listen(modifiers, [ev]); one.2.None? ==> Listen(one.0, a) == Listen(one.0, b)
    ensures Listen(modifiers, [ev] + a) == Listen(modifiers, [ev] + b)
  {
    ListenAppend(modifiers, [ev], a);
    ListenAppend(modifiers, [ev], b);
  }

  /** An event that is not relevant leaves everything as it was. */
  lemma IrrelevantStep(modifiers: seq<string>, ev: InputEvent)
    requires !Relevant(ev)
    ensures ProcessKeyboard(modifiers, ev.evType, ev.code, ev.value) == Outcome(modifiers, None, None)
  {
  }

  /**
   Listening to two runs back to back: the second run starts from the
   modifiers the first one left, unless the first one raised, in which
   case the thread has ended and the second run is never read.
   */
  lemma ListenAppend(modifiers: seq<string>, a: seq<InputEvent>, b: seq<InputEvent>)
    ensures var ra := Listen(modifiers, a);
            ra.2.Some? ==> Listen(modifiers, a + b) == ra
    ensures var ra := Listen(modifiers, a);
            var rb := Listen(ra.0, b);
            ra.2.None? ==> Listen(modifiers, a + b) == (rb.0, ra.1 + rb.1, rb.2)
  {
    ReadAllAppend(ListenOne, modifiers, a, b);
  }

  /** The reading loop over `a + b` is the loop over `a`, then (unless it raised) the loop over `b`. */
  lemma {:induction false} ReadAllAppend(step: (seq<string>, InputEvent) -> Reading, modifiers: seq<string>,
                                         a: seq<InputEvent>, b: seq<InputEvent>)
    ensures var ra := ReadAll(step, modifiers, a);
            ra.2.Some? ==> ReadAll(step, modifiers, a + b) == ra
    ensures var ra := ReadAll(step, modifiers, a);
            var rb := ReadAll(step, ra.0, b);
            ra.2.None? ==> ReadAll(step, modifiers, a + b) == (rb.0, ra.1 + rb.1, rb.2)
    decreases |a|
  {
    if |a| == 0 {
      assert a + b == b;
      assert [] + ReadAll(step, modifiers, b).1 == ReadAll(step, modifiers, b).1;
    } else {
      assert (a + b)[0] == a[0] && (a + b)[1..] == a[1..] + b;
      var first := step(modifiers, a[0]);
      if first.2.None? {
        ReadAllAppend(step, first.0, a[1..], b);
        var r1 := ReadAll(step, first.0, a[1..]);
        var r2 := ReadAll(step, r1.0, b);
        assert first.1 + (r1.1 + r2.1) == (first.1 + r1.1) + r2.1;
      }
    }
  }
}
