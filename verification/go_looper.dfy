/**
 The Go looper engine of `looper.go`, as pure transitions over a state
 record. The goroutines, channels and `select` of `looper.go` become
 sequential step functions; what a channel delivers becomes an argument.
 */
module GoLooper {
  import Seqs
  import opened GoTrack

  /** Linux input key code of F1, the pattern-mode key. */
  const KEY_F1 := 59
  /** Linux input event type of key events. */
  const EV_KEY := 1
  /** Key event value of an auto-repeat. */
  const KEY_REPEAT := 2
  /** Status byte of the MIDI realtime clock message. */
  const MIDI_CLOCK := 248

  const TWO_TO_64 := 0x1_0000_0000_0000_0000

  type u64 = x: int | 0 <= x < TWO_TO_64
  type i32 = x: int | -0x8000_0000 <= x < 0x8000_0000

  /** A keylogger input event (its timestamp is not read by the looper). */
  datatype InputEvent = InputEvent(evType: int, code: int, value: int)

  /**
   The looper state: loop and beat length, the restart flag, the pattern
   mode, and the track store. Nothing in `looper.go` stores into `length`,
   `beatLength` or `restart`; they keep the zero `main` gives them unless a
   writer outside the file (modelled by `RequestRestart`) sets the flag.
   */
  datatype Looper = Looper(
    length: u64,
    beatLength: u64,
    restart: i32,
    patternMode: bool,
    tracks: map<int, Track>)

  /** The looper as `main` builds it: zero fields and an empty track map. */
  function InitialLooper(): (l: Looper)
    ensures !l.patternMode && l.restart == 0 && l.tracks == map[]
    ensures l.length == 0 && l.beatLength == 0
  {
    Looper(0, 0, 0, false, map[])
  }

  // ---------------------------------------------------------------- track store

  /**
   The track stored under `index`; a fresh empty track is stored there
   first when there is none. No other entry is touched.
   */
  function GetTrack(l: Looper, index: int): (r: (Looper, Track))
    ensures index in r.0.tracks && r.0.tracks[index] == r.1
    ensures index in l.tracks ==> r.0 == l
    ensures index !in l.tracks ==> |r.1.notes| == 0
    ensures r.0.tracks.Keys == l.tracks.Keys + {index}
    ensures forall k :: k in l.tracks ==> r.0.tracks[k] == l.tracks[k]
    ensures r.0.(tracks := l.tracks) == l
  {
    if index in l.tracks then (l, l.tracks[index])
    else
      var track := NewTrack();
      (l.(tracks := l.tracks[index := track]), track)
  }

  /** Fetching the same index twice changes nothing the second time. */
  lemma GetTrackIdempotent(l: Looper, index: int)
    ensures GetTrack(GetTrack(l, index).0, index) == GetTrack(l, index)
  {
  }

  /** Fetching two different indices creates two separate entries. */
  lemma GetTrackDistinct(l: Looper, i: int, j: int)
    requires i != j
    ensures var l2 := GetTrack(GetTrack(l, i).0, j).0;
            && l2.tracks.Keys == l.tracks.Keys + {i, j}
            && l2.tracks[i] == GetTrack(l, i).1
  {
  }

  // ------------------------------------------------------------ pattern recorder

  function StartPattern(l: Looper): (r: Looper)
    ensures r.patternMode && r.(patternMode := l.patternMode) == l
  {
    l.(patternMode := true)
  }

  function EndPattern(l: Looper): (r: Looper)
    ensures !r.patternMode && r.(patternMode := l.patternMode) == l
  {
    l.(patternMode := false)
  }

  /** A note-on with a non-zero velocity: the only event the recorder records. */
  predicate IsAudibleNoteOn(ev: Event)
  {
    GetStatus(ev) == NOTE_ON && ev.data2 != 0
  }

  /** The sustain pedal fully pressed on channel 0. */
  predicate IsSustainOn(ev: Event)
  {
    GetStatus(ev) == CONTROL_CHANGE && GetChannel(ev) == 0 && ev.data1 == 64 && ev.data2 == 127
  }

  /** The events of track `index`, or none when the track does not exist yet. */
  function NotesOf(l: Looper, index: int): seq<Event>
  {
    if index in l.tracks then l.tracks[index].notes else []
  }

  /** The fixed pair the recorder appends: note 60 on channel 1, on at velocity 127, then off. */
  const RECORDED_PAIR := [Event(0x91, 60, 127), Event(0x91, 60, 0)]

  /**
   The pattern recorder. Track 0 is always created; an audible note-on
   appends the fixed pair (the triggering note and channel are not used);
   every other event, the sustain pedal included, appends nothing.
   */
  function PatternMidiIn(l: Looper, ev: Event): (r: Looper)
    ensures 0 in r.tracks
    ensures r.tracks.Keys == l.tracks.Keys + {0}
    ensures forall k :: k in l.tracks && k != 0 ==> r.tracks[k] == l.tracks[k]
    ensures r.(tracks := l.tracks) == l
    ensures IsAudibleNoteOn(ev) ==> r.tracks[0].notes == NotesOf(l, 0) + RECORDED_PAIR
    ensures !IsAudibleNoteOn(ev) ==> r.tracks[0].notes == NotesOf(l, 0)
  {
    var (l1, track) := GetTrack(l, 0);
    var status := GetStatus(ev);
    var channel := GetChannel(ev);
    if status == NOTE_ON && ev.data2 != 0 then
      var t2 := AddNote(AddNote(track, 0, 1, 60, 127), 0, 1, 60, 0);
      RecordPair(track);
      l1.(tracks := l1.tracks[0 := t2])
    else if status == CONTROL_CHANGE && channel == 0 && ev.data1 == 64 && ev.data2 == 127 then
      // the sustain pedal is recognised and adds nothing
      l1
    else
      l1
  }

  /** The two `AddNote` calls of the recorder append exactly the fixed pair. */
  lemma RecordPair(track: Track)
    ensures AddNote(AddNote(track, 0, 1, 60, 127), 0, 1, 60, 0).notes == track.notes + RECORDED_PAIR
  {
    var t1 := AddNote(track, 0, 1, 60, 127);
    AddNoteStatusByte(track, 0, 1, 60, 127);
    AddNoteStatusByte(t1, 0, 1, 60, 0);
    assert t1.notes == track.notes + [RECORDED_PAIR[0]];
  }

  /** The sustain pedal appends nothing to track 0. */
  lemma SustainAddsNothing(l: Looper, ev: Event)
    requires IsSustainOn(ev)
    ensures PatternMidiIn(l, ev).tracks[0].notes == NotesOf(l, 0)
  {
  }

  /** What is recorded does not depend on the triggering note, velocity or channel. */
  lemma RecordingIgnoresTrigger(l: Looper, a: Event, b: Event)
    requires IsAudibleNoteOn(a) && IsAudibleNoteOn(b)
    ensures PatternMidiIn(l, a) == PatternMidiIn(l, b)
  {
  }

  /** Of the recorded pair the first is a note-on and the second a silent note-on, both channel 1. */
  lemma RecordedPairShape()
    ensures GetStatus(RECORDED_PAIR[0]) == NOTE_ON && GetChannel(RECORDED_PAIR[0]) == 1
    ensures GetStatus(RECORDED_PAIR[1]) == NOTE_ON && GetChannel(RECORDED_PAIR[1]) == 1
    ensures RECORDED_PAIR[0].data2 == 127 && RECORDED_PAIR[1].data2 == 0
  {
    StatusOfByte(RECORDED_PAIR[0], NOTE_ON, 1);
    StatusOfByte(RECORDED_PAIR[1], NOTE_ON, 1);
  }

  /** F1 down enters pattern mode, any other F1 value leaves it, other keys are ignored. */
  function ProcessKeyboardEvent(l: Looper, ev: InputEvent): (r: Looper)
    ensures ev.code == KEY_F1 ==> (r.patternMode <==> ev.value == 1)
    ensures r.(patternMode := l.patternMode) == l
    ensures ev.code != KEY_F1 ==> r == l
  {
    if ev.code == KEY_F1 then
      if ev.value == 1 then StartPattern(l) else EndPattern(l)
    else
      l
  }

  /** Repeating the same keyboard event has no further effect. */
  lemma KeyboardEventIdempotent(l: Looper, ev: InputEvent)
    ensures ProcessKeyboardEvent(ProcessKeyboardEvent(l, ev), ev) == ProcessKeyboardEvent(l, ev)
  {
  }

  /** MIDI input reaches the recorder only in pattern mode; otherwise it is dropped. */
  function ProcessMidiInEvent(l: Looper, ev: Event): (r: Looper)
    ensures !l.patternMode ==> r == l
    ensures l.patternMode ==> r == PatternMidiIn(l, ev)
    ensures r.patternMode == l.patternMode
  {
    if l.patternMode then PatternMidiIn(l, ev) else l
  }

  // ------------------------------------------------------------------ input filters

  predicate IsForwardedMidi(ev: Event)
  {
    ev.status != MIDI_CLOCK
  }

  predicate IsForwardedKey(ev: InputEvent)
  {
    ev.evType == EV_KEY && ev.value != KEY_REPEAT
  }

  /**
   The MIDI-in routine's loop over what the input stream delivered: every
   event but the clock message is passed on, in order.
   */
  method ForwardMidiIn(events: seq<Event>) returns (sent: seq<Event>)
    ensures sent == Seqs.Filter(events, IsForwardedMidi)
    ensures forall i :: 0 <= i < |sent| ==> sent[i].status != MIDI_CLOCK
    ensures forall ev :: ev in events && ev.status != MIDI_CLOCK ==> ev in sent
  {
    sent := [];
    var i := 0;
    while i < |events|
      invariant 0 <= i <= |events|
      invariant sent == Seqs.Filter(events[..i], IsForwardedMidi)
    {
      var ev := events[i];
      Seqs.FilterSnoc(events[..i], ev, IsForwardedMidi);
      assert events[..i + 1] == events[..i] + [ev];
      if ev.status == MIDI_CLOCK {
        i := i + 1;
        continue;
      }
      sent := sent + [ev];
      i := i + 1;
    }
    assert events[..i] == events;
  }

  /**
   The keyboard routine's loop: key events other than auto-repeats are
   passed on, in order; every other event type is dropped.
   */
  method ForwardKeyboard(events: seq<InputEvent>) returns (sent: seq<InputEvent>)
    ensures sent == Seqs.Filter(events, IsForwardedKey)
    ensures forall i :: 0 <= i < |sent| ==> sent[i].evType == EV_KEY && sent[i].value != KEY_REPEAT
    ensures forall ev :: ev in events && IsForwardedKey(ev) ==> ev in sent
  {
    sent := [];
    var i := 0;
    while i < |events|
      invariant 0 <= i <= |events|
      invariant sent == Seqs.Filter(events[..i], IsForwardedKey)
    {
      var ev := events[i];
      Seqs.FilterSnoc(events[..i], ev, IsForwardedKey);
      assert events[..i + 1] == events[..i] + [ev];
      if ev.evType == EV_KEY {
        if ev.value != KEY_REPEAT {
          sent := sent + [ev];
        }
      }
      i := i + 1;
    }
    assert events[..i] == events;
  }

  // --------------------------------------------------------------- device selection

  /** A portmidi device descriptor, as far as the selection reads it. */
  datatype DeviceInfo = DeviceInfo(name: string, isInputAvailable: bool, isOutputAvailable: bool)

  /** `sub` occurs in `s` starting at position `i`. */
  predicate OccursAt(s: string, sub: string, i: int)
  {
    0 <= i <= |s| - |sub| && s[i..i + |sub|] == sub
  }

  /** Go's `strings.Contains`. */
  predicate Contains(s: string, sub: string)
  {
    exists i :: 0 <= i <= |s| - |sub| && OccursAt(s, sub, i)
  }

  predicate UsableInput(d: DeviceInfo)
  {
    d.isInputAvailable && !Contains(d.name, "Through")
  }

  predicate UsableOutput(d: DeviceInfo)
  {
    d.isOutputAvailable && !Contains(d.name, "Through")
  }

  /** The first input-capable device whose name lacks "Through", or -1 when there is none. */
  method SelectInputDevice(devices: seq<DeviceInfo>) returns (device: int)
    ensures -1 <= device < |devices|
    ensures device == -1 <==> forall i :: 0 <= i < |devices| ==> !UsableInput(devices[i])
    ensures device >= 0 ==> UsableInput(devices[device])
    ensures device >= 0 ==> forall i :: 0 <= i < device ==> !UsableInput(devices[i])
  {
    device := -1;
    var i := 0;
    while i < |devices|
      invariant 0 <= i <= |devices|
      invariant forall j :: 0 <= j < i ==> !UsableInput(devices[j])
    {
      var info := devices[i];
      if !info.isInputAvailable {
        i := i + 1;
        continue;
      }
      if Contains(info.name, "Through") {
        i := i + 1;
        continue;
      }
      device := i;
      break;
    }
  }

  /** The first output-capable device whose name lacks "Through", or -1 when there is none. */
  method SelectOutputDevice(devices: seq<DeviceInfo>) returns (device: int)
    ensures -1 <= device < |devices|
    ensures device == -1 <==> forall i :: 0 <= i < |devices| ==> !UsableOutput(devices[i])
    ensures device >= 0 ==> UsableOutput(devices[device])
    ensures device >= 0 ==> forall i :: 0 <= i < device ==> !UsableOutput(devices[i])
  {
    device := -1;
    var i := 0;
    while i < |devices|
      invariant 0 <= i <= |devices|
      invariant forall j :: 0 <= j < i ==> !UsableOutput(devices[j])
    {
      var info := devices[i];
      if !info.isOutputAvailable {
        i := i + 1;
        continue;
      }
      if Contains(info.name, "Through") {
        i := i + 1;
        continue;
      }
      device := i;
      break;
    }
  }

  // ------------------------------------------------------------------- player loop

  /**
   The player goroutine's local variables. `deltatime` is only ever reset
   to 0, so the play-notes branch that compares it is without effect.
   */
  datatype Player = Player(tick: u64, prevDelta: int, delta: int)

  /** What the `select` at the end of an iteration received, if anything. */
  datatype Received = NothingReceived | FromMidiIn(ev: Event) | FromKeyboard(kev: InputEvent)

  /** Unsigned 64-bit subtraction, wrapping around below zero. */
  function Sub64(a: u64, b: u64): (d: u64)
    ensures a >= b ==> d == a - b
    ensures a < b ==> d == a - b + TWO_TO_64
  {
    (a - b) % TWO_TO_64
  }

  /**
   One iteration of the player loop at monotonic time `now`: consume a
   pending restart (clearing the flag and zeroing the clock), move `tick`
   to `now` once more than a beat has elapsed, then hand what `select`
   received to the MIDI or keyboard handler.
   */
  function PlayerStep(l: Looper, p: Player, now: u64, received: Received): (r: (Looper, Player))
    ensures l.restart == 1 ==> r.0.restart == 0
    ensures l.restart != 1 ==> r.0.restart == l.restart
    ensures var base := if l.restart == 1 then 0 else p.tick;
            && (Sub64(now, base) > l.beatLength ==> r.1.tick == now)
            && (Sub64(now, base) <= l.beatLength ==> r.1.tick == base)
    ensures r.1.prevDelta == r.1.delta
    ensures r.1.delta == if l.restart == 1 then 0 else p.delta
    ensures r.0.length == l.length && r.0.beatLength == l.beatLength
    ensures received.NothingReceived? ==> r.0.tracks == l.tracks && r.0.patternMode == l.patternMode
    ensures received.FromMidiIn? ==>
              && r.0.tracks == ProcessMidiInEvent(l, received.ev).tracks
              && r.0.patternMode == l.patternMode
    ensures received.FromKeyboard? ==>
              && r.0.tracks == l.tracks
              && r.0.patternMode == ProcessKeyboardEvent(l, received.kev).patternMode
  {
    var (l1, p1) := if l.restart == 1 then (l.(restart := 0), Player(0, 0, 0)) else (l, p);
    var length := l1.length;
    var p2 := p1.(prevDelta := p1.delta);
    var interval := l1.beatLength;
    var p3 := if Sub64(now, p2.tick) > interval then p2.(tick := now) else p2;
    var l2 := match received
      case NothingReceived => l1
      case FromMidiIn(ev) => ProcessMidiInEvent(l1, ev)
      case FromKeyboard(kev) => ProcessKeyboardEvent(l1, kev);
    (l2, p3)
  }

  /**
   With a monotonic clock (`now` not behind `tick`) and no restart, the
   tick never moves backwards nor past `now`.
   */
  lemma TickStaysBetween(l: Looper, p: Player, now: u64, received: Received)
    requires l.restart != 1 && p.tick <= now
    ensures p.tick <= PlayerStep(l, p, now, received).1.tick <= now
  {
  }

  /**
   A restart followed by one iteration leaves the flag clear and the tick
   at 0, unless more than a beat separates `now` from 0, in which case the
   same iteration already moves the tick to `now`.
   */
  lemma RestartThenTick(l: Looper, p: Player, now: u64, received: Received)
    requires l.restart == 1
    ensures var r := PlayerStep(l, p, now, received);
            && r.0.restart == 0
            && r.1.tick == (if now > l.beatLength then now else 0)
  {
  }

  /**
   With the beat length left at the zero `main` gives it and no restart
   pending, every iteration moves the tick to `now`: either more than zero
   time has elapsed since the tick, or the tick already is `now`.
   */
  lemma ZeroBeatFollowsClock(l: Looper, p: Player, now: u64, received: Received)
    requires l.beatLength == 0 && l.restart != 1
    ensures PlayerStep(l, p, now, received).1.tick == now
  {
  }

  /**
   What happens between iterations: the player iterates, or 1 is stored in
   the restart flag. No code in `looper.go` performs that store; the action
   stands for a writer outside the file.
   */
  datatype Action = RequestRestart | Cycle(now: u64, received: Received)

  /** The number of restart requests in a trace. */
  function Requests(trace: seq<Action>): (n: nat)
    ensures n <= |trace|
  {
    if |trace| == 0 then 0
    else (if trace[0].RequestRestart? then 1 else 0) + Requests(trace[1..])
  }

  /** The number of player iterations in a trace. */
  function Cycles(trace: seq<Action>): (n: nat)
    ensures n + Requests(trace) == |trace|
  {
    if |trace| == 0 then 0
    else (if trace[0].Cycle? then 1 else 0) + Cycles(trace[1..])
  }

  /** Runs a trace; the third component counts the iterations that reset the clock. */
  function Run(l: Looper, p: Player, trace: seq<Action>): (r: (Looper, Player, nat))
    ensures r.2 <= Cycles(trace)
    ensures r.0.length == l.length && r.0.beatLength == l.beatLength
    decreases |trace|
  {
    if |trace| == 0 then (l, p, 0)
    else match trace[0]
      case RequestRestart => Run(l.(restart := 1), p, trace[1..])
      case Cycle(now, received) =>
        var (l1, p1) := PlayerStep(l, p, now, received);
        var (l2, p2, resets) := Run(l1, p1, trace[1..]);
        (l2, p2, resets + (if l.restart == 1 then 1 else 0))
  }

  /**
   No request arrives while an earlier one is still pending: between two
   requests (and between a pending flag and the next request) the player
   iterates at least once.
   */
  predicate Separated(pending: bool, trace: seq<Action>)
    decreases |trace|
  {
    |trace| == 0 ||
    match trace[0]
      case RequestRestart => !pending && Separated(true, trace[1..])
      case Cycle(_, _) => Separated(false, trace[1..])
  }

  /**
   Every restart request is consumed exactly once: the resets performed,
   plus the one still pending at the end, equal the requests made plus the
   one pending at the start.
   */
  lemma {:induction false} EachRestartConsumedOnce(l: Looper, p: Player, trace: seq<Action>)
    requires l.restart == 0 || l.restart == 1
    requires Separated(l.restart == 1, trace)
    ensures var r := Run(l, p, trace);
            && (r.0.restart == 0 || r.0.restart == 1)
            && r.2 + (if r.0.restart == 1 then 1 else 0)
               == Requests(trace) + (if l.restart == 1 then 1 else 0)
    decreases |trace|
  {
    if |trace| > 0 {
      match trace[0]
      case RequestRestart =>
        EachRestartConsumedOnce(l.(restart := 1), p, trace[1..]);
      case Cycle(now, received) =>
        var (l1, p1) := PlayerStep(l, p, now, received);
        EachRestartConsumedOnce(l1, p1, trace[1..]);
    }
  }

  /**
   In any trace, however requests and iterations interleave, the resets
   performed plus the one left pending never exceed the requests made plus
   the one pending at the start: a request is consumed at most once.
   */
  lemma {:induction false} ResetsNeverExceedRequests(l: Looper, p: Player, trace: seq<Action>)
    ensures var r := Run(l, p, trace);
            r.2 + (if r.0.restart == 1 then 1 else 0)
              <= Requests(trace) + (if l.restart == 1 then 1 else 0)
    decreases |trace|
  {
    if |trace| > 0 {
      match trace[0]
      case RequestRestart =>
        ResetsNeverExceedRequests(l.(restart := 1), p, trace[1..]);
      case Cycle(now, received) =>
        var (l1, p1) := PlayerStep(l, p, now, received);
        ResetsNeverExceedRequests(l1, p1, trace[1..]);
    }
  }

  /**
   Two requests with no iteration between them merge: the flag is already
   1 when the second store lands, so the next iteration performs one reset
   for the two requests and leaves nothing pending.
   */
  lemma RestartsMerge(l: Looper, p: Player, now: u64)
    requires l.restart == 0
    ensures var trace := [RequestRestart, RequestRestart, Cycle(now, NothingReceived)];
            var r := Run(l, p, trace);
            && Requests(trace) == 2
            && r.2 == 1
            && r.0.restart == 0
  {
    var trace := [RequestRestart, RequestRestart, Cycle(now, NothingReceived)];
    assert trace[1..] == [RequestRestart, Cycle(now, NothingReceived)];
    assert trace[1..][1..] == [Cycle(now, NothingReceived)];
    assert trace[1..][1..][1..] == [];
    var l1 := l.(restart := 1);
    var (l2, p2) := PlayerStep(l1, p, now, NothingReceived);
    assert Run(l2, p2, []) == (l2, p2, 0);
    assert Run(l1, p, [Cycle(now, NothingReceived)]) == (l2, p2, 1);
    assert Run(l1, p, trace[1..]) == (l2, p2, 1);
  }

  // ------------------------------------------------------------------- scenario

  /**
   F1 down, a note-on, F1 up, another note-on: the first note-on records
   two events into track 0, the second is dropped.
   */
  lemma PatternSessionScenario()
    ensures var l0 := InitialLooper();
            var l1 := ProcessKeyboardEvent(l0, InputEvent(EV_KEY, KEY_F1, 1));
            var l2 := ProcessMidiInEvent(l1, Event(0x90, 64, 100));
            var l3 := ProcessKeyboardEvent(l2, InputEvent(EV_KEY, KEY_F1, 0));
            var l4 := ProcessMidiInEvent(l3, Event(0x90, 67, 100));
            && l1.patternMode && !l3.patternMode
            && |l2.tracks[0].notes| == 2
            && l4.tracks == l3.tracks
  {
    StatusOfByte(Event(0x90, 64, 100), NOTE_ON, 0);
  }
}
