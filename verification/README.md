# MIDI looper: a Dafny model

This project models the core of a small hardware MIDI looper. The looper
takes live MIDI input and keyboard commands, records notes into numbered
tracks, and plays the tracks back around a loop. The repository holds two
implementations, and the model covers both.

- **The Go engine** (`track.go`, `looper.go`):
  - the MIDI event record and the split of a status byte into message kind
    and channel;
  - append-only tracks and the lazily filled track map;
  - the F1-driven pattern mode and the pattern recorder it gates;
  - the two input filters (MIDI clock, key auto-repeat);
  - the rule that picks the MIDI device;
  - one iteration of the player loop, with its restart test-and-clear and
    its beat tick.
- **The Python prototype** (`looper.py`):
  - the per-track recording filter;
  - the half-open playback window with record/mute suppression;
  - the list of notes left sounding, and the `off()` flush;
  - the split of a playback interval at the loop end;
  - key-to-command lookup (shift/ctrl tables, the `_after` variant, the
    fallback for a missing method);
  - dispatching a key only once while it is held.
- **The Python key reader** (`hidinput.py`):
  - the translation of evdev key events into `key_down` / `key_up`
    callbacks, including shift/alt tracking and the key-name tables;
  - the listener that forwards key names to the looper.

Every operation is a pure function over immutable datatypes; the loops
of the source are loop methods or recursive functions. Threads and
channels become sequential steps. Each step receives the value it would
have read from a channel, a clock or a device as a parameter.

## Layout

| file | module | models |
|---|---|---|
| `wrappers.dfy` | `Wrappers` | `Option`, `Result`, and the Python exceptions the model raises |
| `bitwise.dfy` | `Bitwise` | `&` and `\|` on integers with a non-negative mask, as two's complement (Go `int64`, Python `int`) |
| `seqs.dfy` | `Seqs` | order-preserving filter; Python's `list.remove` |
| `go_track.dfy` | `GoTrack` | `track.go` |
| `go_looper.dfy` | `GoLooper` | `looper.go` |
| `py_track.dfy` | `PyTrack` | `Track` and the `Player.run` split of `looper.py` |
| `py_looper.dfy` | `PyLooper` | `Looper` and `Player.play_notes` of `looper.py` |
| `hid_input.dfy` | `HidInput` | `process_keyboard`, the key tables and `Listener._callback` of `hidinput.py` |
| `key_pipeline.dfy` | `KeyPipeline` | a key event all the way to a looper command (`hidinput.py` feeding `looper.py`) |

## Modelling decisions

- **Integers.**
  - Go `uint64` and `int32` are subset types.
  - `now - tick` in the player loop is unsigned 64-bit subtraction, so it
    wraps around below zero. `GoLooper.Sub64` writes the wrap out.
- **Bitwise masks.**
  - `Status & 0xF0` and `Status & 0x0F` are computed bit by bit
    (`Bitwise.And`, `Bitwise.Or`).
  - Lemmas then prove them equal to `x % 256 - x % 16` and `x % 16`.
  - Both equalities hold for negative values too: Dafny's `%` with a
    positive divisor agrees with two's-complement masking.
- **Clocks.** Python clocks are exact `real`s, not IEEE doubles.
- **Python exceptions.** Exceptions the source can raise are error values
  (`Wrappers.PyError`):
  - `IndexError` on an empty message;
  - `KeyError` on an unknown key code;
  - `ValueError` when a `shift` key-up arrives with no `shift` held.
- **Key names.** A key is a string: the name that the `KeyCode.from_char`
  and `Key` stand-ins of `hidinput.py` (lines 347-357) evaluate to.
  - `Char("w")` is `"w"`.
  - `Key.space` is `"space"`.
  - `looper.py` itself imports `Listener`, `Key` and `KeyCode` from pynput
    (`looper.py:7`, `:343`) and never imports `hidinput.py`. Using the
    `hidinput.py` names, and composing its reader with the looper's key
    handlers in `KeyPipeline`, is a modelling choice: `config.py` selects
    `"hidinput"` or `"pynput"` as the keyboard method on different
    platforms, and the two modules expose the same `Listener` interface.
- **Modifiers.**
  - `process_keyboard` passes its `modifiers` list to the callback by
    reference. The model passes the value the list holds when the callback
    fires.
  - After a key-down, that value includes the modifier just appended.
  - For a key-up, it is the list before any `shift` is removed.
- **Mouse-button events.** The first button event with a non-zero value
  raises `KeyError`, because `point['id']` is read before anything stores
  it (`hidinput.py:250`, `:271`).
  - The exception ends the reader thread, so the model stops there.
  - A button event with value 0 does nothing, because `point` never holds
    a button.

### Behaviour of the code worth knowing

- **Pattern recorder ignores the triggering note.** In pattern mode an
  audible note-on appends a fixed pair, note 60 on channel 1 (velocity 127,
  then velocity 0). The triggering note, velocity and channel are ignored,
  and no timestamp is stored (`looper.go:244-247`, `track.go:28-33`).
  `GoLooper.PatternMidiIn` and `GoLooper.RecordingIgnoresTrigger` state this.
- **Tick after a restart.** `tick` is set to 0 and then compared in the same
  iteration, so after a restart the tick is 0 only when `now <= BeatLength`;
  otherwise it is already `now` (`looper.go:294-307`).
  `GoLooper.RestartThenTick` states this.
- **Restart stores merge.** Two stores of 1 into `Restart` with no player
  iteration between them give one reset. `GoLooper.RestartsMerge` shows two
  requests giving one reset. `GoLooper.EachRestartConsumedOnce` proves one
  reset per request when requests are separated by an iteration, and
  `GoLooper.ResetsNeverExceedRequests` proves that no trace has more resets
  than requests.
- **The "escape" text entry is never used.** `keys_str` blanks the name
  "escape", but the key table calls the Esc key "esc" (`hidinput.py:146`,
  `hidinput.py:207`). No key name is ever "escape", so Esc's text is "esc".
  `HidInput.EscapeEntryUnreachable` states this.

## Model

| member | source | states |
|---|---|---|
| GoTrack.NewTrack | track.go:23-26 | a new track has no events |
| GoTrack.GetStatus | track.go:36-38 | the kind has a zero low nibble, lies in 0x00..0xF0, and is the status byte with its channel nibble cleared |
| GoTrack.GetChannel | track.go:40-42 | the channel is the low nibble of the status, in 0..15 |
| GoTrack.StatusChannelDecompose | track.go:36-42 | for a byte status, kind + channel == status |
| GoTrack.StatusChannelDetermineStatus | track.go:36-42 | two byte statuses are equal iff their kinds and channels are equal |
| GoTrack.AddNote | track.go:28-33 | exactly one event is appended at the end, earlier events are unchanged, data1/data2 are note/velocity, and its status is `NOTE_ON \| channel` for every channel; for a channel in 0..15 its kind is NOTE_ON and its channel the argument, whatever the velocity |
| GoTrack.NoteOnStatus | track.go:30 | a status built as `NOTE_ON \| channel` decodes back to NOTE_ON and the channel |
| GoTrack.StatusOfByte | track.go:36-42 | a status written as kind + channel decodes to that kind and that channel |
| GoTrack.AddNoteIgnoresTimestamp | track.go:28-32 | the track after AddNote does not depend on the timestamp argument |
| GoTrack.AddNoteStatusByte | track.go:30-31 | the appended event is exactly `(0x90 + channel, note, velocity)` |
| GoLooper.InitialLooper | looper.go:361-365 | the looper starts outside pattern mode, with no restart pending, no tracks, and loop and beat length 0 |
| GoLooper.GetTrack | looper.go:254-261 | returns the stored track and leaves the looper unchanged if present; otherwise stores a fresh empty track under that index only; no other entry or field changes |
| GoLooper.GetTrackIdempotent | looper.go:254-261 | a second GetTrack with the same index changes nothing and returns the same track |
| GoLooper.GetTrackDistinct | looper.go:254-261 | fetching two different indices creates both entries, and the first keeps its track |
| GoLooper.StartPattern | looper.go:225-228 | pattern mode on, nothing else changes |
| GoLooper.EndPattern | looper.go:231-234 | pattern mode off, nothing else changes |
| GoLooper.PatternMidiIn | looper.go:237-251 | track 0 always exists afterwards; an audible note-on appends exactly the fixed pair (0x91,60,127),(0x91,60,0); every other event appends nothing; other tracks and fields are untouched |
| GoLooper.RecordPair | looper.go:246-247 | the two `AddNote` calls of the recorder append exactly `(0x91,60,127)` then `(0x91,60,0)` |
| GoLooper.SustainAddsNothing | looper.go:248-250 | the sustain pedal on channel 0 appends nothing to track 0 |
| GoLooper.RecordingIgnoresTrigger | looper.go:244-247 | any two audible note-ons produce the same looper, whatever their note, velocity or channel |
| GoLooper.RecordedPairShape | looper.go:246-247 | the recorded pair is a note-on of velocity 127 then one of velocity 0, both kind NOTE_ON on channel 1 |
| GoLooper.ProcessKeyboardEvent | looper.go:264-276 | for F1, pattern mode is on iff the value is 1; any other key leaves the looper unchanged; only the mode can change |
| GoLooper.KeyboardEventIdempotent | looper.go:264-276 | repeating a keyboard event has no further effect |
| GoLooper.ProcessMidiInEvent | looper.go:279-285 | outside pattern mode a MIDI event changes nothing; in pattern mode it goes to the recorder; the mode is kept |
| GoLooper.ForwardMidiIn | looper.go:182-188 | forwards exactly the events whose status is not 248, in order, and never forwards 248 |
| GoLooper.ForwardKeyboard | looper.go:344-353 | forwards exactly the EV_KEY events whose value is not 2, in order |
| GoLooper.SelectInputDevice | looper.go:155-172 | -1 iff no device is input-capable with a name free of "Through"; otherwise the lowest such index |
| GoLooper.SelectOutputDevice | looper.go:193-210 | -1 iff no device is output-capable with a name free of "Through"; otherwise the lowest such index |
| GoLooper.Sub64 | looper.go:305 | unsigned 64-bit `now - tick`: plain difference when no borrow, difference + 2^64 otherwise |
| GoLooper.PlayerStep | looper.go:293-327 | a pending restart (flag 1) is cleared and zeroes tick and deltas; the tick moves to `now` iff more than a beat elapsed since it; a received MIDI or key event goes to its handler; length and beat length are untouched |
| GoLooper.TickStaysBetween | looper.go:304-307 | with a monotonic clock the tick never moves backwards or past `now` |
| GoLooper.RestartThenTick | looper.go:294-307 | after a restart and one iteration the flag is clear, and the tick is 0 unless `now` exceeds the beat length, in which case it is `now` |
| GoLooper.Run | looper.go:293-327 | over a trace of iterations and restart requests, at most one reset per iteration, and length/beat length are kept |
| GoLooper.EachRestartConsumedOnce | looper.go:294-298 | for traces where every request is separated from the previous one (or from a pending flag) by an iteration: resets performed plus the flag left pending equal the requests made plus the flag pending at the start |
| GoLooper.ResetsNeverExceedRequests | looper.go:294-298 | in every trace, resets performed plus the flag left pending never exceed the requests made plus the flag pending at the start |
| GoLooper.RestartsMerge | looper.go:294-298 | two requests with no iteration between them, then one iteration: one reset for two requests, nothing left pending |
| GoLooper.ZeroBeatFollowsClock | looper.go:304-307 | with the beat length at its initial 0 and no restart pending, each iteration moves the tick to `now` |
| GoLooper.PatternSessionScenario | looper.go:264-285 | F1 down, note-on, F1 up, note-on: two events recorded in track 0, the last note-on dropped |
| PyTrack.NewTrack | looper.py:17-22 | a new track keeps its index, holds no notes, is neither recording nor muted and has nothing sounding |
| PyTrack.Kind | looper.py:28 | `byte & 0xF0` equals the byte mod 256 with its low nibble cleared |
| PyTrack.Channel | looper.py:55 | `byte & 0x0F` is the low nibble, in 0..15 |
| PyTrack.KindOfByte | looper.py:54-55 | a byte `kind + channel` decodes back to that kind and channel |
| PyTrack.MidiInCallback | looper.py:24-30 | not recording: unchanged; recording: appends `(clock, m, data)` iff m's kind is NOTE_ON or NOTE_OFF, nothing else changes; an empty message raises IndexError |
| PyTrack.NoteOff | looper.py:65 | the note-off for a pair is three bytes `[0x80 + channel, note, 0]` |
| PyTrack.NoteOffDecodes | looper.py:65 | a note-off decodes to kind NOTE_OFF and the pair's channel |
| PyTrack.NoteOffs | looper.py:64-65 | one note-off per sounding pair, position by position |
| PyTrack.Off | looper.py:63-66 | `off()` emits one note-off per `on` entry, in order, and leaves `on` empty; nothing else changes |
| PyTrack.OffDecodes | looper.py:63-66 | each message `off()` sends is a NOTE_OFF on the channel and note of the matching pair |
| PyTrack.StartRecording | looper.py:32-35 | recording on, notes emptied, `on` emptied by the same messages `off()` sends; index and mute kept |
| PyTrack.StopRecording | looper.py:37-38 | recording off, nothing else changes |
| PyTrack.ToggleMute | looper.py:40-43 | mute is negated; muting empties `on` with `off()`'s messages; unmuting keeps `on` and sends nothing |
| PyTrack.Window | looper.py:48-50 | yields only messages of notes with `start <= clock < end`, and every such message |
| PyTrack.WindowAppend | looper.py:48-50 | the window of a concatenation is the concatenation of windows, so stored order is kept |
| PyTrack.GetNotesBetween | looper.py:45-50 | nothing while recording or muted; otherwise the window of the stored notes |
| PyTrack.TrackSounding | looper.py:54-60 | a note-on appends its pair; a note-off removes the first equal pair if present (order of the rest kept), else nothing; other kinds leave `on` alone |
| PyTrack.TrackSoundingKeepsChannels | looper.py:54-60 | the `on` list only ever holds channels in 0..15 |
| PyTrack.SendAll | looper.py:53-61 | sends a prefix of the messages in order, every one of them at least two bytes long; no error iff every message is at least two bytes long, and then all are sent; otherwise IndexError stops the loop at the first short message, before sending it; the resulting `on` list is the one obtained by tracking the sent messages one by one (`Sounded`) |
| PyTrack.SendAllStep | looper.py:53-61 | tracking and sending a two-byte message first, then the rest, keeps every promise of `SendAll`, including the `on` list |
| PyTrack.SendableAppend | looper.py:53-56 | a batch of messages concatenated from two is free of short messages exactly when both parts are |
| PyTrack.SendAllKeepsChannels | looper.py:53-61 | sending any batch keeps every channel of `on` in 0..15 |
| PyTrack.SendNotesBetween | looper.py:52-61 | no error iff every message in the window has two bytes, and then exactly the window is sent; otherwise IndexError after a proper prefix, at the first short message; the track's `on` is the tracking of what was sent; a recording or muted track sends nothing and keeps `on` |
| PyTrack.NoteOnThenOffBalanced | looper.py:56-60 | a note-on followed by its note-off leaves the same multiset of sounding pairs |
| PyTrack.OffSilencesWhatWasSent | looper.py:56-66 | after a note-on is sent, `off()` ends with the matching note-off |
| PyTrack.WrapSplit | looper.py:103-107 | one interval `[prev, delta)` iff delta > prev; otherwise `[prev, length)` then `[0, delta)` |
| PyTrack.PlayedOverSplit | looper.py:103-107 | what the split plays is the forward window, or the tail window followed by the head window |
| PyTrack.WrapSplitCovers | looper.py:103-107 | the split plays every note of the cyclic window exactly once (multiset equality) |
| PyTrack.ForwardCovers | looper.py:103-104 | a forward move plays exactly the cyclic window |
| PyTrack.WrappedCovers | looper.py:105-107 | the two halves of a wrapped split together play the cyclic window, nothing twice |
| PyTrack.WrappedStep | looper.py:105-107 | the covering of the cyclic window by the two halves survives putting one more note in front |
| PyTrack.WrappedOne | looper.py:105-107 | a single note is played by exactly one half of a wrapped split iff it lies in the cyclic window |
| PyTrack.WholeLoopReplay | looper.py:103-107 | when the position did not move, the whole loop `[0, length)` is replayed |
| PyTrack.CyclicWholeLoop | looper.py:105-107 | the cyclic window from a position back to itself is the whole loop |
| PyTrack.RunStep | looper.py:95-107 | a pending restart zeroes the positions and is cleared; the intervals played are the wrap split from the previous position to the new one: one interval iff the new position is past the previous one, otherwise the tail up to `length` then the head from 0 |
| PyTrack.RunStepsChain | looper.py:100-107 | consecutive passes play contiguous stretches: each starts where the previous ended |
| Seqs.RemoveFirst | looper.py:60 | `list.remove` drops exactly the first occurrence: length minus one, one fewer in the multiset, the rest in order |
| PyLooper.GetTrack | looper.py:247-250 | returns the stored track, else stores `Track(index)` under that index only; other entries are unchanged |
| PyLooper.GetTrackIdempotent | looper.py:247-250 | a second `get_track` with the same index changes nothing |
| PyLooper.Mute | looper.py:222-223 | toggles mute on the possibly new track, keeping its index, notes and recording flag; other tracks are untouched; muting sends one note-off per sounding pair, in order, and empties `on`; unmuting sends nothing and keeps `on` |
| PyLooper.GetCommand | looper.py:259-279 | shift or ctrl held gives no command (both tables are empty); an unknown key gives none; otherwise the command name, with `_after` on release, iff the looper has that method, with the table's arguments |
| PyLooper.AfterVariants | looper.py:273-278 | releasing a plain key yields `record_after(n)` for a record key and nothing for every other key |
| PyLooper.PlainCommandsExist | looper.py:149-173 | with no modifier every table key names an existing method |
| PyLooper.OnKeyPressed | looper.py:281-290 | shift/ctrl set their flag; a key already held dispatches nothing; otherwise it is recorded as held and dispatched once; the held list stays duplicate-free |
| PyLooper.RemoveKeyDistinct | looper.py:297-298 | removing a key from a duplicate-free held list removes it completely |
| PyLooper.OnKeyReleased | looper.py:292-299 | shift/ctrl clear their flag; a held key has its first occurrence removed (order of the rest kept) and its `after` command looked up; an unheld key is ignored |
| PyLooper.PressDispatchesOnce | looper.py:287-288 | a second press of a held key dispatches nothing |
| PyLooper.RecordKeyRoundTrip | looper.py:281-299 | press then release of `w`: `record(1)` then `record_after(1)`, and the held keys are as before |
| PyLooper.PlayNotes | looper.py:109-112 | the store keeps every track, each with its index, notes, recording and mute flags, position by position, also when IndexError stops the loop; no error iff every scheduled message (each track's window in turn, `Scheduled`) has two bytes, and then exactly `Scheduled` is sent; otherwise IndexError after a proper prefix of `Scheduled`, at its first short message |
| PyLooper.PlayNotesStops | looper.py:109-112 | when the first track raises, only its sent prefix goes out, all tracks stay, and the error sits at the first short scheduled message |
| PyLooper.PlayNotesGoesOn | looper.py:109-112 | when the first track sends its whole window, the rest of the run follows it and the promises of `PlayNotes` carry over |
| PyLooper.PlayNotesTracks | looper.py:109-112 | without an error every track ends as its own `send_notes_between` leaves it (its `on` included); with an error, the tracks before the first raising one and that track itself end so, and every later track is unchanged |
| PyLooper.CommandsTable | looper.py:149-173 | the plain table binds `reset`, `record`, `mute`, `toggle_play`, `panic` and `toggle_record_on_first_note`; `record` and `mute` carry one track number in 1..8, the others none; each key is the only one bound to its command (`BoundKey` reads the table backwards) |
| PyLooper.SilentTracksPlayNothing | looper.py:109-112 | if every track is recording or muted, playing sends nothing and changes no track |
| HidInput.KeyboardKeys | hidinput.py:65-199 | only codes 0x01..0xff have names; every entry has one or two non-empty names, and a shifted name differs from its plain one |
| HidInput.ButtonsAreNotKeys | hidinput.py:255-267 | there are ten button codes and none of them has a key name, so the button branch never hides a key |
| HidInput.KeysStrTexts | hidinput.py:201-222 | every text `keys_str` gives is at most one character, and it is empty exactly for `shift`, `alt`, `ctrl` and `escape` |
| HidInput.EscapeEntryUnreachable | hidinput.py:281-287 | no key name from the table is `escape`, so Esc's text is `esc` itself |
| HidInput.KeyName | hidinput.py:281-282 | the last name of the table entry when `shift` is held, the first otherwise |
| HidInput.KeyText | hidinput.py:287 | `keys_str.get(z, z)`: the mapped string if the name is in the table, else the name |
| HidInput.ProcessKeyboard | hidinput.py:253-295 | non-key events and values other than 0/1 change nothing; a button press raises KeyError and a button release does nothing; an unknown code raises KeyError; key-down fires one `key_down` and appends shift/alt; key-up fires one `key_up` and removes the first recorded shift (ValueError after the callback if none is held) |
| HidInput.AltNeverRemoved | hidinput.py:283-295 | no event ever removes an `alt` from the modifiers |
| HidInput.LetterNamesIgnoreShift | hidinput.py:81-118 | a letter key reports the same lower-case single letter with or without shift |
| HidInput.ListenerCallback | hidinput.py:339-344 | `key_up` becomes `on_release(name)`, `key_down` becomes `on_press(name)` |
| HidInput.Listen | hidinput.py:307-318 | at most one listener call per event; a single event gives exactly `process_keyboard`'s outcome, its callback handed to the listener (`ListenOne`); a run with no key event of value 0/1 (and no pressed button) makes no call, raises nothing and leaves the modifiers as they were |
| HidInput.ListenOne | hidinput.py:253-295 | one event: the modifiers and error of `process_keyboard`, and the listener call for its callback if it fired one; an irrelevant event changes nothing |
| HidInput.ListenAppend | hidinput.py:307-318 | reading two runs back to back: the second starts from the modifiers the first left and its calls follow the first's; if the first raised, the second is never read |
| HidInput.ReadAllAppend | hidinput.py:307-318 | for any per-event step, the reading loop over `a + b` is the loop over `a` then, unless it raised, the loop over `b` from where `a` left the modifiers |
| HidInput.ListenFacts | hidinput.py:307-318 | the reading loop with `process_keyboard` as its step makes at most one call per event, leaves everything unchanged over irrelevant events, and on one event is exactly that event's outcome |
| HidInput.IrrelevantEventsIgnored | hidinput.py:254-293 | dropping non-key events and auto-repeats beforehand changes nothing the listener sees |
| HidInput.IrrelevantStep | hidinput.py:254-293 | an irrelevant event yields no callback, no error and no modifier change |
| KeyPipeline.Feed | looper.py:281-299 | a call reaches `on_key_pressed` or `on_key_released`; a command is only dispatched for a non-modifier key on its first press (it is then held) or on the release of a held key; the held list stays duplicate-free and a released key is no longer held |
| KeyPipeline.Deliver | looper.py:315-322 | a single call is one `on_key_pressed` / `on_key_released` and yields the command it dispatches, if any; with `DeliverAppend`, calls reach the handlers in order; the held list stays duplicate-free |
| KeyPipeline.DeliverTwo | looper.py:315-322 | two calls in a row: the second handler sees the key state the first left, and the dispatched commands come in call order |
| KeyPipeline.DeliverAppend | looper.py:315-322 | delivering two runs in turn is delivering their concatenation |
| KeyPipeline.TapWListens | hidinput.py:280-293 | a tap of the W key yields `on_press("w")` then `on_release("w")`, modifiers unchanged |
| KeyPipeline.ShiftWListens | hidinput.py:280-287 | shift then W yields `on_press("shift")` then `on_press("w")`, with `shift` held |
| KeyPipeline.TapWRecordsTrackOne | looper.py:281-299 | a tap of W with no modifier dispatches `record(1)` then `record_after(1)` |
| KeyPipeline.DeliverTapW | looper.py:281-299 | the looper side of a W tap: `record(1)`, `record_after(1)`, held keys restored |
| KeyPipeline.ShiftWDispatchesNothing | looper.py:259-266 | W pressed with shift held dispatches nothing, because the shift table is empty |

## Left out

- Goroutines, channels, `select` and `sync/atomic` (`looper.go:288-328`, `357-376`) are modelled as sequential steps. The compare-and-swap is a test-and-clear inside `GoLooper.PlayerStep`.
- No code in `looper.go` ever sets `Restart`, `Length` or `BeatLength` (declared at `looper.go:142-144`). `Restart` is only tested and cleared by the compare-and-swap at `:294`; `Length` is read at `:300` and `BeatLength` at `:304`. In the file as it stands the compare-and-swap never succeeds and the beat length stays 0, so the tick follows the clock (`GoLooper.ZeroBeatFollowsClock`). The `RequestRestart` action of a trace models a writer the source does not have.
- pynput's own key objects are not modelled. Under pynput a key is a `Key`/`KeyCode` object, and a right shift arrives as `Key.shift_r`, which `on_key_pressed` does not treat as shift. The model uses the string names of `hidinput.py` throughout.
- portmidi, monotime, keylogger and logging calls, and opening and writing streams (`looper.go:169-188`, `212-221`, `331-343`), are foreign I/O. The device list, the clock reading and the received events are parameters. The `log.Fatal` taken when no device is found is the -1 result.
- `MidiOutRoutine`'s writing loop (`looper.go:218-221`) only forwards events to the device, so it is not modelled.
- The Python `time()` calls and the `% length` in `Player.run` and `Looper.midi_in_callback` are floating-point clock arithmetic. `PyTrack.RunStep` takes the new loop position as a parameter instead.
- The command bodies `reset`, `record`, `record_after`, `play`, `stop`, `toggle_play`, `panic`, `notes_off` and `toggle_record_on_first_note` (`looper.py:114-145`, `189-245`) are left out. They set `_record_time` from the clock, and they call into threads and rtmidi. Only `mute` is modelled, as `PyLooper.Mute`. `PyLooper.GetCommand` stops at the looked-up command instead of calling it.
- rtmidi and pynput wiring, `threading.Event`, `stty` and module start-up (`looper.py:69-80`, `86-93`, `302-347`) are I/O and threading.
- Python's `looper.tracks.values()` order is the order of a `seq<Track>` passed to `PyLooper.PlayNotes`.
- Object identity is left out. A Go `*Track` and a Python `Track` are values; the updated track is stored back into the map.
- The device read loop of `hidinput.py` (`hidinput.py:297-320`) is left out. That covers the `ioctl`, `struct.unpack` and the thread body. The `Listen` function takes the decoded events instead.
- The mouse/button branch (`hidinput.py:267-278`) is modelled only up to the `KeyError` it raises on the first button press. The `point` dictionary is not modelled.
- `config.py` is not part of this model. It probes the platform from `/sys`.
- `GoLooper.PlayerStep`: the deltatime comparison in the Go loop (`looper.go:311-317`) has no effect. The `length` it loads is discarded. Both are carried only as unchanged fields.
- `PyLooper.GetCommand`: `_record_time` is not among the attribute names, because it only exists after `record` has run. No command is named after it, so the lookup is unaffected.
- `HidInput.Listen`: the modifier list passed to a callback is the value at the time of the call. In the source it is a shared, later-mutated reference.
