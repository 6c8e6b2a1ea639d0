/**
 The `Looper` of the Python prototype (`looper.py`): the lazily filled
 track dictionary, the key-to-command tables with the shift/ctrl
 selection and the `_after` variants, and the "dispatch once while held"
 bookkeeping of pressed keys. A key is modelled by its name, which is what
 the `KeyCode.from_char` and `Key` shims of `hidinput.py` turn `Char("w")`
 and `Key.space` into.
 */
module PyLooper {
  import opened Wrappers
  import opened PyTrack
  import Seqs

  type Key = string

  /** A command name with its positional arguments. */
  datatype Command = Command(name: string, args: seq<int>)

  /** `Looper.commands`: a bare name takes no arguments, a tuple carries its argument list. */
  const COMMANDS: map<Key, Command> := map[
    "r" := Command("reset", []),
    "w" := Command("record", [1]),
    "x" := Command("record", [2]),
    "c" := Command("record", [3]),
    "v" := Command("record", [4]),
    "b" := Command("record", [5]),
    "n" := Command("record", [6]),
    "," := Command("record", [7]),
    ";" := Command("record", [8]),
    "q" := Command("mute", [1]),
    "s" := Command("mute", [2]),
    "d" := Command("mute", [3]),
    "f" := Command("mute", [4]),
    "g" := Command("mute", [5]),
    "h" := Command("mute", [6]),
    "j" := Command("mute", [7]),
    "k" := Command("mute", [8]),
    "space" := Command("toggle_play", []),
    "esc" := Command("panic", []),
    "caps_lock" := Command("toggle_record_on_first_note", [])
  ]

  /**
   The plain command table binds six commands; `record` and `mute` take
   one track number from 1 to 8, the others no argument, and no two keys
   run the same command with the same arguments.
   */
  lemma CommandsTable()
    ensures forall k :: k in COMMANDS ==>
              COMMANDS[k].name in {"reset", "record", "mute", "toggle_play", "panic", "toggle_record_on_first_note"}
    ensures forall k :: k in COMMANDS ==> (COMMANDS[k].name in {"record", "mute"} <==> |COMMANDS[k].args| == 1)
    ensures forall k :: k in COMMANDS && |COMMANDS[k].args| == 1 ==> 1 <= COMMANDS[k].args[0] <= 8
    ensures forall k :: k in COMMANDS ==> BoundKey(COMMANDS[k]) == Some(k)
    ensures forall k1, k2 :: k1 in COMMANDS && k2 in COMMANDS && COMMANDS[k1] == COMMANDS[k2] ==> k1 == k2
  {
    forall k | k in COMMANDS
      ensures BoundKey(COMMANDS[k]) == Some(k)
    {
      BoundKeyOf(k);
    }
  }

  /** One key of the plain table, read back. */
  lemma BoundKeyOf(k: Key)
    requires k in COMMANDS
    ensures BoundKey(COMMANDS[k]) == Some(k)
  {
    if k in {"w", "x", "c", "v", "b", "n", ",", ";"} {
    } else if k in {"q", "s", "d", "f", "g", "h", "j", "k"} {
    } else {
    }
  }

  /** The plain table read backwards: the key that runs a command, if any. */
  function BoundKey(c: Command): Option<Key>
  {
    if c.name == "record" && |c.args| == 1 && 1 <= c.args[0] <= 8 then
      Some(["w", "x", "c", "v", "b", "n", ",", ";"][c.args[0] - 1])
    else if c.name == "mute" && |c.args| == 1 && 1 <= c.args[0] <= 8 then
      Some(["q", "s", "d", "f", "g", "h", "j", "k"][c.args[0] - 1])
    else if c.args != [] then None
    else if c.name == "reset" then Some("r")
    else if c.name == "toggle_play" then Some("space")
    else if c.name == "panic" then Some("esc")
    else if c.name == "toggle_record_on_first_note" then Some("caps_lock")
    else None
  }

  /** `Looper.shift_commands` and `Looper.ctrl_commands` are empty. */
  const SHIFT_COMMANDS: map<Key, Command> := map[]
  const CTRL_COMMANDS: map<Key, Command> := map[]

  /** The names `hasattr(looper, name)` accepts: the methods and the attributes of a `Looper`. */
  const LOOPER_ATTRIBUTES: set<string> := {
    "reset", "panic", "toggle_play", "play", "stop", "toggle_record_on_first_note",
    "record", "mute", "record_after", "midi_in_callback", "get_track",
    "dispatch_command", "get_command", "on_key_pressed", "on_key_released",
    "commands", "shift_commands", "ctrl_commands",
    "tracks", "shift", "ctrl", "length", "_key_pressed", "_record_to_track",
    "record_on_first_note", "player"
  }

  /** The modifier flags and the keys held down and already dispatched, in press order. */
  datatype KeyState = KeyState(shift: bool, ctrl: bool, pressed: seq<Key>)

  // ----------------------------------------------------------------- track store

  /** `get_track`: the track under `index`, created first when missing; nothing else changes. */
  function GetTrack(tracks: map<int, Track>, index: int): (r: (map<int, Track>, Track))
    ensures index in r.0 && r.0[index] == r.1
    ensures index in tracks ==> r.0 == tracks
    ensures index !in tracks ==> r.1 == NewTrack(index)
    ensures r.0.Keys == tracks.Keys + {index}
    ensures forall k :: k in tracks ==> r.0[k] == tracks[k]
  {
    if index !in tracks then
      var t := NewTrack(index);
      (tracks[index := t], t)
    else (tracks, tracks[index])
  }

  /** Repeated `get_track` calls with the same index return the same track and change nothing more. */
  lemma GetTrackIdempotent(tracks: map<int, Track>, index: int)
    ensures GetTrack(GetTrack(tracks, index).0, index) == GetTrack(tracks, index)
  {
  }

  /** `Looper.mute(index)`: toggles mute on the (possibly new) track; muting sends its note-offs. */
  function Mute(tracks: map<int, Track>, index: int): (r: (map<int, Track>, seq<Message>))
    ensures index in r.0 && r.0.Keys == tracks.Keys + {index}
    ensures forall k :: k in tracks && k != index ==> r.0[k] == tracks[k]
    ensures index in tracks ==> r.0[index].mute == !tracks[index].mute
    ensures index !in tracks ==> r.0[index].mute && |r.1| == 0
    ensures r.0[index].mute ==> |r.0[index].on| == 0
    ensures var t := if index in tracks then tracks[index] else NewTrack(index);
            && r.0[index].index == t.index && r.0[index].notes == t.notes && r.0[index].record == t.record
            && r.0[index].mute == !t.mute
            && (r.0[index].mute ==> |r.1| == |t.on| && forall i :: 0 <= i < |t.on| ==> r.1[i] == NoteOff(t.on[i]))
            && (!r.0[index].mute ==> r.0[index].on == t.on && r.1 == [])
  {
    var (tracks1, t) := GetTrack(tracks, index);
    var (t1, sent) := ToggleMute(t);
    (tracks1[index := t1], sent)
  }

  // ------------------------------------------------------------------- commands

  /** The command name, with `_after` appended for a key release. */
  function Variant(name: string, after: bool): string
  {
    if after then name + "_after" else name
  }

  /**
   `get_command`: look the key up in the shift table when shift is held,
   else in the ctrl table when ctrl is held, else in the plain table; a
   release asks for the `_after` variant; a name the looper has no
   attribute for yields no command.
   */
  function GetCommand(ks: KeyState, key: Key, after: bool): (r: Option<Command>)
    ensures ks.shift || ks.ctrl ==> r == None
    ensures key !in COMMANDS ==> r == None
    ensures r.Some? ==> r.value.name in LOOPER_ATTRIBUTES
    ensures !ks.shift && !ks.ctrl && key in COMMANDS ==>
              (r.Some? <==> Variant(COMMANDS[key].name, after) in LOOPER_ATTRIBUTES)
    ensures r.Some? ==>
              && key in COMMANDS
              && r.value == Command(Variant(COMMANDS[key].name, after), COMMANDS[key].args)
  {
    var commands := if ks.shift then SHIFT_COMMANDS else if ks.ctrl then CTRL_COMMANDS else COMMANDS;
    if key !in commands then None
    else
      var cmd := commands[key];
      var name := Variant(cmd.name, after);
      if name in LOOPER_ATTRIBUTES then Some(Command(name, cmd.args)) else None
  }

  /** Only `record` has an `_after` variant: releasing a record key runs `record_after`, the others nothing. */
  lemma AfterVariants(ks: KeyState, key: Key)
    requires !ks.shift && !ks.ctrl && key in COMMANDS
    ensures COMMANDS[key].name == "record" ==>
              GetCommand(ks, key, true) == Some(Command("record_after", COMMANDS[key].args))
    ensures COMMANDS[key].name != "record" ==> GetCommand(ks, key, true) == None
  {
    var name := COMMANDS[key].name;
    assert name in {"reset", "record", "mute", "toggle_play", "panic", "toggle_record_on_first_note"};
    if name == "record" {
      assert Variant(name, true) == "record_after";
    } else if name == "reset" {
      assert Variant(name, true) == "reset_after";
    } else if name == "mute" {
      assert Variant(name, true) == "mute_after";
    } else if name == "toggle_play" {
      assert Variant(name, true) == "toggle_play_after";
    } else if name == "panic" {
      assert Variant(name, true) == "panic_after";
    } else {
      assert Variant(name, true) == "toggle_record_on_first_note_after";
    }
  }

  /** Without modifiers every key of the table maps to an existing method. */
  lemma PlainCommandsExist(ks: KeyState, key: Key)
    requires !ks.shift && !ks.ctrl && key in COMMANDS
    ensures GetCommand(ks, key, false) == Some(COMMANDS[key])
  {
  }

  // ------------------------------------------------------------ key press dedup

  predicate IsModifier(key: Key)
  {
    key == "shift" || key == "ctrl"
  }

  /** No key is recorded twice as pressed. */
  predicate Distinct(keys: seq<Key>)
  {
    forall i, j :: 0 <= i < j < |keys| ==> keys[i] != keys[j]
  }

  /**
   `on_key_pressed`: shift and ctrl only set their flag; another key is
   dispatched once, when it is not already held, and recorded as held.
   */
  function OnKeyPressed(ks: KeyState, key: Key): (r: (KeyState, Option<Command>))
    ensures key == "shift" ==> r == (ks.(shift := true), None)
    ensures key == "ctrl" ==> r == (ks.(ctrl := true), None)
    ensures !IsModifier(key) && key in ks.pressed ==> r == (ks, None)
    ensures !IsModifier(key) && key !in ks.pressed ==>
              && r.0 == ks.(pressed := ks.pressed + [key])
              && r.1 == GetCommand(ks, key, false)
    ensures Distinct(ks.pressed) ==> Distinct(r.0.pressed)
  {
    if key == "shift" then (ks.(shift := true), None)
    else if key == "ctrl" then (ks.(ctrl := true), None)
    else if key in ks.pressed then (ks, None)
    else
      var ks1 := ks.(pressed := ks.pressed + [key]);
      (ks1, GetCommand(ks1, key, false))
  }

  /** Removing a key from a duplicate-free list removes it entirely and keeps the rest distinct. */
  lemma RemoveKeyDistinct(keys: seq<Key>, key: Key)
    requires key in keys && Distinct(keys)
    ensures Distinct(Seqs.RemoveFirst(keys, key)) && key !in Seqs.RemoveFirst(keys, key)
  {
    var i := Seqs.IndexOf(keys, key);
    var r := Seqs.RemoveFirst(keys, key);
    assert forall j :: 0 <= j < |r| ==> r[j] == if j < i then keys[j] else keys[j + 1];
  }

  /**
   `on_key_released`: shift and ctrl clear their flag; a key recorded as
   held is forgotten and its `after` command dispatched; any other key is
   ignored.
   */
  function OnKeyReleased(ks: KeyState, key: Key): (r: (KeyState, Option<Command>))
    ensures key == "shift" ==> r == (ks.(shift := false), None)
    ensures key == "ctrl" ==> r == (ks.(ctrl := false), None)
    ensures !IsModifier(key) && key !in ks.pressed ==> r == (ks, None)
    ensures !IsModifier(key) && key in ks.pressed ==>
              && r.0.shift == ks.shift && r.0.ctrl == ks.ctrl
              && r.0.pressed == Seqs.RemoveFirst(ks.pressed, key)
              && multiset(r.0.pressed) == multiset(ks.pressed) - multiset{key}
              && r.1 == GetCommand(ks, key, true)
    ensures Distinct(ks.pressed) ==> Distinct(r.0.pressed) && (!IsModifier(key) ==> key !in r.0.pressed)
  {
    if key == "shift" then (ks.(shift := false), None)
    else if key == "ctrl" then (ks.(ctrl := false), None)
    else if key in ks.pressed then
      if Distinct(ks.pressed) then RemoveKeyDistinct(ks.pressed, key); ReleaseHeld(ks, key)
      else ReleaseHeld(ks, key)
    else (ks, None)
  }

  function ReleaseHeld(ks: KeyState, key: Key): (r: (KeyState, Option<Command>))
    requires key in ks.pressed
  {
    var ks1 := ks.(pressed := Seqs.RemoveFirst(ks.pressed, key));
    (ks1, GetCommand(ks1, key, true))
  }

  /** Holding a key dispatches it once: a second press before the release dispatches nothing. */
  lemma PressDispatchesOnce(ks: KeyState, key: Key)
    requires !IsModifier(key)
    ensures OnKeyPressed(OnKeyPressed(ks, key).0, key).1 == None
  {
  }

  /** Press then release of a record key with no modifier: `record(n)` then `record_after(n)`. */
  lemma RecordKeyRoundTrip(ks: KeyState)
    requires !ks.shift && !ks.ctrl && "w" !in ks.pressed && Distinct(ks.pressed)
    ensures var (ks1, down) := OnKeyPressed(ks, "w");
            var (ks2, up) := OnKeyReleased(ks1, "w");
            && down == Some(Command("record", [1]))
            && up == Some(Command("record_after", [1]))
            && multiset(ks2.pressed) == multiset(ks.pressed)
  {
    var (ks1, down) := OnKeyPressed(ks, "w");
    assert ks1.pressed == ks.pressed + ["w"];
    assert multiset(ks1.pressed) == multiset(ks.pressed) + multiset{"w"};
    AfterVariants(ks1, "w");
  }

  // ------------------------------------------------------------------ play notes

  /**
   `Player.play_notes`: every track, in dictionary order, sends its window;
   an IndexError aborts the remaining tracks, which stay in the store as
   they were.
   */
  function PlayNotes(tracks: seq<Track>, start: real, end: real): (r: (seq<Track>, seq<Message>, Option<PyError>))
    ensures SameRecordings(r.0, tracks)
    ensures r.2.None? ==> r.1 == Scheduled(tracks, start, end)
    ensures r.2.None? <==> Sendable(Scheduled(tracks, start, end))
    ensures r.2.Some? ==>
              && r.2 == Some(IndexError)
              && |r.1| < |Scheduled(tracks, start, end)|
              && r.1 == Scheduled(tracks, start, end)[..|r.1|]
              && |Scheduled(tracks, start, end)[|r.1|]| < 2
    decreases |tracks|
  {
    if |tracks| == 0 then ([], [], None)
    else
      var (t, sent) := SendNotesBetween(tracks[0], start, end);
      if sent.error.Some? then
        PlayNotesStops(tracks, start, end);
        ([t] + tracks[1..], sent.sent, sent.error)
      else
        var rest := PlayNotes(tracks[1..], start, end);
        PlayNotesGoesOn(tracks, start, end, rest);
        ([t] + rest.0, sent.sent + rest.1, rest.2)
  }

  /** What `PlayNotes` promises, as one predicate for its two recursive cases. */
  predicate PlayOutcome(tracks: seq<Track>, start: real, end: real, r: (seq<Track>, seq<Message>, Option<PyError>))
  {
    var scheduled := Scheduled(tracks, start, end);
    && SameRecordings(r.0, tracks)
    && (r.2.None? ==> r.1 == scheduled)
    && (r.2.None? <==> Sendable(scheduled))
    && (r.2.Some? ==>
          && r.2 == Some(IndexError)
          && |r.1| < |scheduled| && r.1 == scheduled[..|r.1|] && |scheduled[|r.1|]| < 2)
  }

  /** The first track raises: what it sent is all that is sent, and the other tracks stay as they were. */
  lemma PlayNotesStops(tracks: seq<Track>, start: real, end: real)
    requires |tracks| > 0 && SendNotesBetween(tracks[0], start, end).1.error.Some?
    ensures var (t, sent) := SendNotesBetween(tracks[0], start, end);
            PlayOutcome(tracks, start, end, ([t] + tracks[1..], sent.sent, sent.error))
  {
    var (t, sent) := SendNotesBetween(tracks[0], start, end);
    var window := GetNotesBetween(tracks[0], start, end);
    var later := Scheduled(tracks[1..], start, end);
    assert Scheduled(tracks, start, end) == window + later;
    SendableAppend(window, later);
    SameRecordingsCons(t, tracks[1..], tracks);
    PrefixOfFirst(window, later, sent.sent);
  }

  /** The first track sends its whole window; the rest of the run follows it. */
  lemma PlayNotesGoesOn(tracks: seq<Track>, start: real, end: real, rest: (seq<Track>, seq<Message>, Option<PyError>))
    requires |tracks| > 0 && SendNotesBetween(tracks[0], start, end).1.error.None?
    requires PlayOutcome(tracks[1..], start, end, rest)
    ensures var (t, sent) := SendNotesBetween(tracks[0], start, end);
            PlayOutcome(tracks, start, end, ([t] + rest.0, sent.sent + rest.1, rest.2))
  {
    var (t, sent) := SendNotesBetween(tracks[0], start, end);
    var window := GetNotesBetween(tracks[0], start, end);
    var later := Scheduled(tracks[1..], start, end);
    assert Scheduled(tracks, start, end) == window + later;
    SendableAppend(window, later);
    SameRecordingsCons(t, rest.0, tracks);
    PrefixOfSecond(window, later, rest.1);
  }

  /**
   Track by track, what `play_notes` leaves in the store: without an error
   every track as its own `send_notes_between` leaves it; with one, the
   tracks up to and including the first that raises played, every later
   track untouched.
   */
  lemma {:induction false} PlayNotesTracks(tracks: seq<Track>, start: real, end: real)
    ensures var r := PlayNotes(tracks, start, end); PlayedTracks(tracks, start, end, r.0, r.2)
    decreases |tracks|
  {
    if |tracks| > 0 {
      var (t, sent) := SendNotesBetween(tracks[0], start, end);
      var r := PlayNotes(tracks, start, end);
      if sent.error.Some? {
        assert r.0 == [t] + tracks[1..] && r.2 == sent.error;
        PlayedUpToCons(t, tracks[1..], tracks, start, end, 0);
        assert FirstRaising(tracks, start, end, 0);
      } else {
        var rest := PlayNotes(tracks[1..], start, end);
        assert r.0 == [t] + rest.0 && r.2 == rest.2;
        PlayNotesTracks(tracks[1..], start, end);
        PlayedTracksCons(t, tracks, start, end, rest.0, rest.2);
      }
    }
  }

  /** How each track comes out of `PlayNotes`: which were played, and which were left alone. */
  predicate PlayedTracks(tracks: seq<Track>, start: real, end: real, played: seq<Track>, error: Option<PyError>)
  {
    && |played| == |tracks|
    && (error.None? ==> PlayedUpTo(tracks, start, end, played, |tracks|))
    && (error.Some? ==> exists k :: 0 <= k < |tracks| && FirstRaising(tracks, start, end, k) && PlayedUpTo(tracks, start, end, played, k + 1))
  }

  /** A first track that sends its whole window goes in front of the others' outcome. */
  lemma PlayedTracksCons(t: Track, tracks: seq<Track>, start: real, end: real, rest: seq<Track>, error: Option<PyError>)
    requires |tracks| > 0 && SendNotesBetween(tracks[0], start, end).1.error.None?
    requires t == SendNotesBetween(tracks[0], start, end).0
    requires PlayedTracks(tracks[1..], start, end, rest, error)
    ensures PlayedTracks(tracks, start, end, [t] + rest, error)
  {
    if error.None? {
      PlayedUpToCons(t, rest, tracks, start, end, |tracks| - 1);
    } else {
      var k :| 0 <= k < |tracks[1..]| && FirstRaising(tracks[1..], start, end, k) && PlayedUpTo(tracks[1..], start, end, rest, k + 1);
      PlayedUpToCons(t, rest, tracks, start, end, k + 1);
      FirstRaisingCons(tracks, start, end, k);
    }
  }

  /** The first `k` tracks as `SendNotesBetween` leaves them, the others as they were. */
  predicate PlayedUpTo(tracks: seq<Track>, start: real, end: real, played: seq<Track>, k: nat)
  {
    MappedUpTo(t => SendNotesBetween(t, start, end).0, tracks, played, k)
  }

  /** Up to position `k`, `after` holds `f` of `before`; from there on, `before` unchanged. */
  predicate MappedUpTo(f: Track -> Track, before: seq<Track>, after: seq<Track>, k: nat)
  {
    && |after| == |before| && k <= |before|
    && (forall i :: 0 <= i < k ==> after[i] == f(before[i]))
    && (forall i :: k <= i < |before| ==> after[i] == before[i])
  }

  /** Track `k` is the first whose window holds a short message. */
  predicate FirstRaising(tracks: seq<Track>, start: real, end: real, k: nat)
  {
    && k < |tracks|
    && SendNotesBetween(tracks[k], start, end).1.error.Some?
    && forall i :: 0 <= i < k ==> SendNotesBetween(tracks[i], start, end).1.error.None?
  }

  /** Putting the first track, played, in front of the others played up to `k` plays them up to `k + 1`. */
  lemma PlayedUpToCons(t: Track, rest: seq<Track>, tracks: seq<Track>, start: real, end: real, k: nat)
    requires |tracks| > 0 && t == SendNotesBetween(tracks[0], start, end).0
    requires PlayedUpTo(tracks[1..], start, end, rest, k)
    ensures PlayedUpTo(tracks, start, end, [t] + rest, k + 1)
  {
    MappedUpToCons(t => SendNotesBetween(t, start, end).0, t, rest, tracks, k);
  }

  /** Putting `f` of the first track in front of the others mapped up to `k` maps them up to `k + 1`. */
  lemma MappedUpToCons(f: Track -> Track, t: Track, rest: seq<Track>, tracks: seq<Track>, k: nat)
    requires |tracks| > 0 && t == f(tracks[0])
    requires MappedUpTo(f, tracks[1..], rest, k)
    ensures MappedUpTo(f, tracks, [t] + rest, k + 1)
  {
    assert forall i :: 1 <= i < |tracks| ==> ([t] + rest)[i] == rest[i - 1] && tracks[i] == tracks[1..][i - 1];
  }

  /** A first track that sends its whole window moves the first raising track one place on. */
  lemma FirstRaisingCons(tracks: seq<Track>, start: real, end: real, k: nat)
    requires |tracks| > 0 && SendNotesBetween(tracks[0], start, end).1.error.None?
    requires FirstRaising(tracks[1..], start, end, k)
    ensures FirstRaising(tracks, start, end, k + 1)
  {
    assert forall i :: 1 <= i < |tracks| ==> tracks[i] == tracks[1..][i - 1];
  }

  /** What `play_notes` sends when no message is short: each track's window, track after track. */
  function Scheduled(tracks: seq<Track>, start: real, end: real): (msgs: seq<Message>)
    decreases |tracks|
  {
    if |tracks| == 0 then [] else GetNotesBetween(tracks[0], start, end) + Scheduled(tracks[1..], start, end)
  }

  /** A proper prefix of the first part is a proper prefix of the whole. */
  lemma PrefixOfFirst(a: seq<Message>, b: seq<Message>, p: seq<Message>)
    requires |p| < |a| && p == a[..|p|]
    ensures |p| < |a + b| && p == (a + b)[..|p|] && (a + b)[|p|] == a[|p|]
  {
    assert (a + b)[..|p|] == a[..|p|];
  }

  /** The first part followed by a (proper) prefix of the second is a (proper) prefix of the whole. */
  lemma PrefixOfSecond(a: seq<Message>, b: seq<Message>, p: seq<Message>)
    requires |p| <= |b| && p == b[..|p|]
    ensures a + p == (a + b)[..|a| + |p|]
    ensures |p| < |b| ==> (a + b)[|a| + |p|] == b[|p|]
  {
    assert (a + b)[..|a| + |p|] == a + b[..|p|];
  }

  /** Position by position, the same index, notes, recording flag and mute flag; only `on` may differ. */
  predicate SameRecordings(a: seq<Track>, b: seq<Track>)
  {
    |a| == |b| &&
    forall i :: 0 <= i < |a| ==>
      a[i].index == b[i].index && a[i].notes == b[i].notes && a[i].record == b[i].record && a[i].mute == b[i].mute
  }

  /** Putting a track with the same recordings in front keeps two runs alike. */
  lemma SameRecordingsCons(t: Track, rest: seq<Track>, tracks: seq<Track>)
    requires |tracks| > 0 && SameRecordings(rest, tracks[1..])
    requires t.index == tracks[0].index && t.notes == tracks[0].notes && t.record == tracks[0].record && t.mute == tracks[0].mute
    ensures SameRecordings([t] + rest, tracks)
  {
    assert forall i :: 1 <= i < |tracks| ==> ([t] + rest)[i] == rest[i - 1] && tracks[i] == tracks[1..][i - 1];
  }

  /** When every track is recording or muted, playing sends nothing and changes nothing. */
  lemma {:induction false} SilentTracksPlayNothing(tracks: seq<Track>, start: real, end: real)
    requires forall i :: 0 <= i < |tracks| ==> tracks[i].record || tracks[i].mute
    ensures PlayNotes(tracks, start, end) == (tracks, [], None)
    decreases |tracks|
  {
    if |tracks| > 0 {
      assert forall i :: 1 <= i < |tracks| ==> tracks[i] == tracks[1..][i - 1];
      SilentTracksPlayNothing(tracks[1..], start, end);
      var first := SendNotesBetween(tracks[0], start, end);
      assert first.1 == Sent(tracks[0].on, [], None);
      assert first.0 == tracks[0];
      assert [tracks[0]] + tracks[1..] == tracks;
      assert first.1.sent + [] == [];
      assert PlayNotes(tracks, start, end) == ([first.0] + tracks[1..], first.1.sent + [], None);
    }
  }
}
