/**
 The per-track engine of the Python prototype (`Track` in `looper.py`):
 the recording filter, the half-open playback window with record/mute
 suppression, the bookkeeping of notes left sounding, and `off()`.
 Clocks are seconds since the loop start; they are modelled as exact
 `real`s rather than floating point.
 */
module PyTrack {
  import opened Wrappers
  import Bitwise
  import Seqs

  const NOTE_ON := 0x90
  const NOTE_OFF := 0x80

  /** A MIDI message as the list of bytes rtmidi delivers. */
  type Message = seq<int>

  /** One recorded `(clock, message, data)` triple; `data` is the opaque callback argument. */
  datatype Recorded = Recorded(clock: real, message: Message, data: int)

  /** A `(channel, note)` pair of the `on` list: a note sent on and not yet off. */
  datatype Sounding = Sounding(channel: int, note: int)

  datatype Track = Track(index: int, notes: seq<Recorded>, record: bool, mute: bool, on: seq<Sounding>)

  /** `Track(index)`: nothing recorded, not recording, not muted, nothing sounding. */
  function NewTrack(index: int): (t: Track)
    ensures t.index == index && |t.notes| == 0 && !t.record && !t.mute && |t.on| == 0
  {
    Track(index, [], false, false, [])
  }

  /** `byte & 0xF0`: the message kind. */
  function Kind(byte: int): (k: int)
    ensures k == byte % 256 - byte % 16
  {
    Bitwise.AndHighNibble(byte);
    Bitwise.And(byte, 0xF0)
  }

  /** `byte & 0x0F`: the channel. */
  function Channel(byte: int): (c: int)
    ensures 0 <= c < 16 && c == byte % 16
  {
    Bitwise.AndLowNibble(byte);
    Bitwise.And(byte, 0x0F)
  }

  /** A status byte `kind + channel` has that kind and that channel. */
  lemma KindOfByte(kind: int, channel: int)
    requires kind % 16 == 0 && 0 <= kind < 256 && 0 <= channel < 16
    ensures Kind(kind + channel) == kind && Channel(kind + channel) == channel
  {
    Bitwise.DivModUnique(kind + channel, 16, kind / 16, channel);
    Bitwise.DivModUnique(kind + channel, 256, 0, kind + channel);
  }

  predicate IsNoteMessage(m: Message)
    requires |m| > 0
  {
    Kind(m[0]) == NOTE_ON || Kind(m[0]) == NOTE_OFF
  }

  /**
   `midi_in_callback`: while recording, note-on and note-off messages are
   appended with their clock; everything else is ignored. Reading the
   status of an empty message raises IndexError.
   */
  function MidiInCallback(t: Track, clock: real, m: Message, data: int): (r: Result<Track>)
    ensures !t.record ==> r == Ok(t)
    ensures t.record && |m| == 0 ==> r == Err(IndexError)
    ensures t.record && |m| > 0 ==> r.Ok? && r.value.(notes := t.notes) == t
    ensures t.record && |m| > 0 && IsNoteMessage(m) ==> r.value.notes == t.notes + [Recorded(clock, m, data)]
    ensures t.record && |m| > 0 && !IsNoteMessage(m) ==> r.value.notes == t.notes
  {
    if !t.record then Ok(t)
    else if |m| == 0 then Err(IndexError)
    else
      var status := Kind(m[0]);
      if status == NOTE_ON || status == NOTE_OFF then
        Ok(t.(notes := t.notes + [Recorded(clock, m, data)]))
      else
        Ok(t)
  }

  // ------------------------------------------------------------------ notes off

  /** `[NOTE_OFF | chn, note, 0]`: the note-off that silences a sounding pair. */
  function NoteOff(s: Sounding): (m: Message)
    ensures |m| == 3 && m[1] == s.note && m[2] == 0
    ensures 0 <= s.channel < 16 ==> m[0] == NOTE_OFF + s.channel
  {
    var status := Bitwise.Or(s.channel, NOTE_OFF);
    NoteOffByte(s.channel);
    [status, s.note, 0]
  }

  /** For a channel number, the note-off has kind NOTE_OFF and the pair's channel. */
  lemma NoteOffDecodes(s: Sounding)
    requires 0 <= s.channel < 16
    ensures Kind(NoteOff(s)[0]) == NOTE_OFF && Channel(NoteOff(s)[0]) == s.channel
  {
    NoteOffByte(s.channel);
  }

  lemma NoteOffByte(channel: int)
    ensures 0 <= channel < 16 ==>
              && Bitwise.Or(channel, NOTE_OFF) == NOTE_OFF + channel
              && Kind(NOTE_OFF + channel) == NOTE_OFF
              && Channel(NOTE_OFF + channel) == channel
  {
    if 0 <= channel < 16 {
      Bitwise.OrChannel(channel);
      assert NOTE_OFF % 16 == 0;
      KindOfByte(NOTE_OFF, channel);
    }
  }

  /** The note-offs for a list of sounding pairs, in order. */
  function NoteOffs(on: seq<Sounding>): (msgs: seq<Message>)
    ensures |msgs| == |on|
    ensures forall i :: 0 <= i < |on| ==> msgs[i] == NoteOff(on[i])
  {
    if |on| == 0 then []
    else [NoteOff(on[0])] + NoteOffs(on[1..])
  }

  /** The channels of the `on` list are channel numbers (they come from `status & 0x0F`). */
  predicate ChannelsInRange(on: seq<Sounding>)
  {
    forall s :: s in on ==> 0 <= s.channel < 16
  }

  /** `off()`: a note-off for every sounding note, in order, then nothing is sounding. */
  function Off(t: Track): (r: (Track, seq<Message>))
    ensures r.0 == t.(on := [])
    ensures |r.1| == |t.on|
    ensures forall i :: 0 <= i < |t.on| ==> r.1[i] == NoteOff(t.on[i])
  {
    (t.(on := []), NoteOffs(t.on))
  }

  /** `start_recording`: recording on, the recorded notes dropped, sounding notes turned off. */
  function StartRecording(t: Track): (r: (Track, seq<Message>))
    ensures r.0.record && |r.0.notes| == 0 && |r.0.on| == 0
    ensures r.0.index == t.index && r.0.mute == t.mute
    ensures r.1 == Off(t).1
  {
    var t1 := t.(record := true, notes := []);
    Off(t1)
  }

  /** `stop_recording`. */
  function StopRecording(t: Track): (r: Track)
    ensures !r.record && r.(record := t.record) == t
  {
    t.(record := false)
  }

  /** `toggle_mute`: flips mute; muting also turns every sounding note off. */
  function ToggleMute(t: Track): (r: (Track, seq<Message>))
    ensures r.0.mute == !t.mute
    ensures r.0.notes == t.notes && r.0.record == t.record && r.0.index == t.index
    ensures r.0.mute ==> |r.0.on| == 0 && r.1 == Off(t).1
    ensures !r.0.mute ==> r.0.on == t.on && |r.1| == 0
  {
    var t1 := t.(mute := !t.mute);
    if t1.mute then Off(t1) else (t1, [])
  }

  // ------------------------------------------------------------ playback window

  /** The messages of the notes whose clock lies in `[start, end)`, in stored order. */
  function Window(notes: seq<Recorded>, start: real, end: real): (msgs: seq<Message>)
    ensures |msgs| <= |notes|
    ensures forall m :: m in msgs ==>
              exists i :: 0 <= i < |notes| && notes[i].message == m && start <= notes[i].clock < end
    ensures forall i :: 0 <= i < |notes| && start <= notes[i].clock < end ==> notes[i].message in msgs
  {
    if |notes| == 0 then []
    else
      var rest := Window(notes[1..], start, end);
      assert forall i :: 1 <= i < |notes| ==> notes[i] == notes[1..][i - 1];
      if start <= notes[0].clock < end then [notes[0].message] + rest else rest
  }

  /** The window distributes over concatenation, so stored order is kept. */
  lemma {:induction false} WindowAppend(a: seq<Recorded>, b: seq<Recorded>, start: real, end: real)
    ensures Window(a + b, start, end) == Window(a, start, end) + Window(b, start, end)
  {
    if |a| > 0 {
      assert (a + b)[1..] == a[1..] + b;
      WindowAppend(a[1..], b, start, end);
    } else {
      assert a + b == b;
    }
  }

  /** `get_notes_between`: the window, or nothing while recording or muted. */
  function GetNotesBetween(t: Track, start: real, end: real): (msgs: seq<Message>)
    ensures t.record || t.mute ==> |msgs| == 0
    ensures !t.record && !t.mute ==> msgs == Window(t.notes, start, end)
  {
    if t.record || t.mute then [] else Window(t.notes, start, end)
  }

  // --------------------------------------------------------- sounding bookkeeping

  /**
   The effect of sending one message on the `on` list: a note-on adds its
   pair, a note-off removes the first equal pair if there is one.
   */
  function TrackSounding(on: seq<Sounding>, m: Message): (r: seq<Sounding>)
    requires |m| >= 2
    ensures Kind(m[0]) == NOTE_ON ==> r == on + [Sounding(Channel(m[0]), m[1])]
    ensures Kind(m[0]) == NOTE_OFF && Sounding(Channel(m[0]), m[1]) in on ==>
              && r == Seqs.RemoveFirst(on, Sounding(Channel(m[0]), m[1]))
              && |r| == |on| - 1
              && multiset(r) == multiset(on) - multiset{Sounding(Channel(m[0]), m[1])}
    ensures Kind(m[0]) == NOTE_OFF && Sounding(Channel(m[0]), m[1]) !in on ==> r == on
    ensures Kind(m[0]) != NOTE_ON && Kind(m[0]) != NOTE_OFF ==> r == on
  {
    var kind := Kind(m[0]);
    var s := Sounding(Channel(m[0]), m[1]);
    if kind == NOTE_ON then on + [s]
    else if kind == NOTE_OFF then
      if s in on then Seqs.RemoveFirst(on, s) else on
    else on
  }

  /** Every message has the two bytes `send_notes_between` reads. */
  predicate Sendable(msgs: seq<Message>)
  {
    forall i :: 0 <= i < |msgs| ==> |msgs[i]| >= 2
  }

  /** A concatenation is sendable exactly when both parts are. */
  lemma SendableAppend(a: seq<Message>, b: seq<Message>)
    ensures Sendable(a + b) <==> Sendable(a) && Sendable(b)
  {
    assert forall i :: 0 <= i < |a| ==> (a + b)[i] == a[i];
    assert forall i :: 0 <= i < |b| ==> (a + b)[|a| + i] == b[i];
  }

  /** The `on` list after tracking each of `msgs` in order, message by message. */
  function Sounded(on: seq<Sounding>, msgs: seq<Message>): seq<Sounding>
    requires Sendable(msgs)
    decreases |msgs|
  {
    if |msgs| == 0 then on else Sounded(TrackSounding(on, msgs[0]), msgs[1..])
  }

  /** What sending a batch of messages did: the `on` list, what was sent, and the error if one was raised. */
  datatype Sent = Sent(on: seq<Sounding>, sent: seq<Message>, error: Option<PyError>)

  /**
   The loop of `send_notes_between` over the yielded messages: each is
   tracked and sent in order; one shorter than two bytes raises IndexError
   before it is sent, and the loop stops there.
   */
  function SendAll(on: seq<Sounding>, msgs: seq<Message>): (r: Sent)
    ensures |r.sent| <= |msgs| && r.sent == msgs[..|r.sent|]
    ensures r.error.None? ==> r.sent == msgs
    ensures r.error.Some? ==> r.error == Some(IndexError) && |r.sent| < |msgs| && |msgs[|r.sent|]| < 2
    ensures Sendable(r.sent)
    ensures r.error.None? <==> Sendable(msgs)
    ensures r.on == Sounded(on, r.sent)
    decreases |msgs|
  {
    if |msgs| == 0 then Sent(on, [], None)
    else if |msgs[0]| < 2 then Sent(on, [], Some(IndexError))
    else
      var rest := SendAll(TrackSounding(on, msgs[0]), msgs[1..]);
      SendAllStep(on, msgs, rest);
      Sent(rest.on, [msgs[0]] + rest.sent, rest.error)
  }

  /** What `SendAll` promises, as one predicate for the inductive step. */
  predicate SendAllOutcome(on: seq<Sounding>, msgs: seq<Message>, r: Sent)
  {
    && |r.sent| <= |msgs| && r.sent == msgs[..|r.sent|]
    && (r.error.None? ==> r.sent == msgs)
    && (r.error.Some? ==> r.error == Some(IndexError) && |r.sent| < |msgs| && |msgs[|r.sent|]| < 2)
    && Sendable(r.sent)
    && (r.error.None? <==> Sendable(msgs))
    && r.on == Sounded(on, r.sent)
  }

  /** Sending a two-byte message first, then the rest, keeps every promise of `SendAll`. */
  lemma SendAllStep(on: seq<Sounding>, msgs: seq<Message>, rest: Sent)
    requires |msgs| > 0 && |msgs[0]| >= 2
    requires SendAllOutcome(TrackSounding(on, msgs[0]), msgs[1..], rest)
    ensures SendAllOutcome(on, msgs, Sent(rest.on, [msgs[0]] + rest.sent, rest.error))
  {
    var n := |rest.sent|;
    var sent := [msgs[0]] + rest.sent;
    assert msgs[1..][..n] == msgs[1..n + 1];
    assert [msgs[0]] + msgs[1..n + 1] == msgs[..n + 1];
    assert rest.error.Some? ==> msgs[1..][n] == msgs[n + 1];
    assert rest.error.None? ==> [msgs[0]] + msgs[1..] == msgs;
    assert sent[0] == msgs[0] && sent[1..] == rest.sent;
    assert Sendable(msgs) <==> Sendable(msgs[1..]) by {
      assert forall i :: 1 <= i < |msgs| ==> msgs[i] == msgs[1..][i - 1];
    }
  }

  /**
   `send_notes_between`: play the window, keeping `on` up to date. The
   window is sent whole exactly when every message in it has two bytes;
   otherwise IndexError stops it at the first short one.
   */
  function SendNotesBetween(t: Track, start: real, end: real): (r: (Track, Sent))
    ensures r.0 == t.(on := r.1.on)
    ensures r.1.error.None? <==> Sendable(GetNotesBetween(t, start, end))
    ensures r.1.error.None? ==> r.1.sent == GetNotesBetween(t, start, end)
    ensures var w := GetNotesBetween(t, start, end);
            r.1.error.Some? ==>
              && r.1.error == Some(IndexError)
              && |r.1.sent| < |w| && r.1.sent == w[..|r.1.sent|] && |w[|r.1.sent|]| < 2
    ensures Sendable(r.1.sent) && r.1.on == Sounded(t.on, r.1.sent)
    ensures t.record || t.mute ==> r.1 == Sent(t.on, [], None)
  {
    var result := SendAll(t.on, GetNotesBetween(t, start, end));
    (t.(on := result.on), result)
  }

  /** A note-on followed by the matching note-off leaves the same notes sounding. */
  lemma NoteOnThenOffBalanced(on: seq<Sounding>, channel: int, note: int, velocity: int)
    requires 0 <= channel < 16
    ensures var on1 := TrackSounding(on, [NOTE_ON + channel, note, velocity]);
            multiset(TrackSounding(on1, [NOTE_OFF + channel, note, 0])) == multiset(on)
  {
    KindOfByte(NOTE_ON, channel);
    KindOfByte(NOTE_OFF, channel);
    var s := Sounding(channel, note);
    var on1 := TrackSounding(on, [NOTE_ON + channel, note, velocity]);
    assert on1 == on + [s];
    assert s in on1;
  }

  /** Every pair `TrackSounding` adds carries a channel number, so the `on` list only ever holds those. */
  lemma TrackSoundingKeepsChannels(on: seq<Sounding>, m: Message)
    requires |m| >= 2 && ChannelsInRange(on)
    ensures ChannelsInRange(TrackSounding(on, m))
  {
    var r := TrackSounding(on, m);
    forall s | s in r
      ensures 0 <= s.channel < 16
    {
      if Kind(m[0]) == NOTE_OFF && Sounding(Channel(m[0]), m[1]) in on {
        assert multiset(r)[s] <= multiset(on)[s];
        assert s in on;
      }
    }
  }

  /** Whatever batch is sent, the `on` list keeps holding channel numbers only. */
  lemma {:induction false} SendAllKeepsChannels(on: seq<Sounding>, msgs: seq<Message>)
    requires ChannelsInRange(on)
    ensures ChannelsInRange(SendAll(on, msgs).on)
    decreases |msgs|
  {
    if |msgs| > 0 && |msgs[0]| >= 2 {
      TrackSoundingKeepsChannels(on, msgs[0]);
      SendAllKeepsChannels(TrackSounding(on, msgs[0]), msgs[1..]);
    }
  }

  /** Every message `off()` sends is a note-off for the channel and note of its sounding pair. */
  lemma OffDecodes(t: Track)
    requires ChannelsInRange(t.on)
    ensures forall i :: 0 <= i < |t.on| ==>
              && Kind(Off(t).1[i][0]) == NOTE_OFF
              && Channel(Off(t).1[i][0]) == t.on[i].channel
              && Off(t).1[i][1] == t.on[i].note
  {
    forall i | 0 <= i < |t.on|
      ensures Kind(Off(t).1[i][0]) == NOTE_OFF && Channel(Off(t).1[i][0]) == t.on[i].channel
    {
      assert t.on[i] in t.on;
      NoteOffDecodes(t.on[i]);
    }
  }

  /** Sending a channel's note-on and then calling `off()` ends with a note-off for that note. */
  lemma OffSilencesWhatWasSent(t: Track, channel: int, note: int, velocity: int)
    requires 0 <= channel < 16
    ensures var t1 := t.(on := TrackSounding(t.on, [NOTE_ON + channel, note, velocity]));
            var offs := Off(t1).1;
            && |offs| == |t.on| + 1
            && offs[|t.on|] == [NOTE_OFF + channel, note, 0]
  {
    KindOfByte(NOTE_ON, channel);
    var s := Sounding(channel, note);
    var on1 := TrackSounding(t.on, [NOTE_ON + channel, note, velocity]);
    assert on1 == t.on + [s];
    assert on1[|t.on|] == s;
    NoteOffByte(channel);
  }

  // ------------------------------------------------------------------ loop wrap

  /** A half-open interval `[start, end)` of loop time. */
  datatype Interval = Interval(start: real, end: real)

  /**
   The intervals `Player.run` plays after the loop position moved from
   `prev` to `delta`: one when it moved forward, two around the loop end
   when it wrapped (or did not move).
   */
  function WrapSplit(prev: real, delta: real, length: real): (r: seq<Interval>)
    ensures |r| == 1 <==> delta > prev
    ensures |r| == 1 || |r| == 2
    ensures r[0].start == prev && r[|r| - 1].end == delta
    ensures |r| == 2 ==> r[0].end == length && r[1].start == 0.0
  {
    if delta > prev then [Interval(prev, delta)]
    else [Interval(prev, length), Interval(0.0, delta)]
  }

  /** Whether a clock falls in the part of the loop between `prev` and `delta`, wrapping at `length`. */
  predicate InCyclicWindow(c: real, prev: real, delta: real, length: real)
  {
    if delta > prev then prev <= c < delta
    else prev <= c < length || 0.0 <= c < delta
  }

  /** The messages of the notes in the cyclic window, in stored order. */
  function CyclicWindow(notes: seq<Recorded>, prev: real, delta: real, length: real): (msgs: seq<Message>)
    ensures |msgs| <= |notes|
  {
    if |notes| == 0 then []
    else
      (if InCyclicWindow(notes[0].clock, prev, delta, length) then [notes[0].message] else [])
      + CyclicWindow(notes[1..], prev, delta, length)
  }

  /** The messages played over the intervals of a split, interval by interval. */
  function PlayedOver(notes: seq<Recorded>, intervals: seq<Interval>): seq<Message>
  {
    if |intervals| == 0 then []
    else Window(notes, intervals[0].start, intervals[0].end) + PlayedOver(notes, intervals[1..])
  }

  lemma PlayedOverSplit(notes: seq<Recorded>, prev: real, delta: real, length: real)
    ensures delta > prev ==> PlayedOver(notes, WrapSplit(prev, delta, length)) == Window(notes, prev, delta)
    ensures delta <= prev ==> PlayedOver(notes, WrapSplit(prev, delta, length))
                               == Window(notes, prev, length) + Window(notes, 0.0, delta)
  {
    var split := WrapSplit(prev, delta, length);
    if delta > prev {
      assert PlayedOver(notes, split[1..]) == [];
    } else {
      assert split[1..][1..] == [];
      assert PlayedOver(notes, split[1..]) == Window(notes, 0.0, delta) + PlayedOver(notes, split[1..][1..]);
    }
  }

  /**
   The split plays every note of the cyclic window exactly once: the two
   halves of a wrapped split do not overlap and miss nothing.
   */
  lemma {:induction false} WrapSplitCovers(notes: seq<Recorded>, prev: real, delta: real, length: real)
    requires delta <= prev ==> delta <= prev <= length
    ensures multiset(PlayedOver(notes, WrapSplit(prev, delta, length)))
            == multiset(CyclicWindow(notes, prev, delta, length))
  {
    PlayedOverSplit(notes, prev, delta, length);
    if delta > prev {
      ForwardCovers(notes, prev, delta, length);
    } else {
      WrappedCovers(notes, prev, delta, length);
    }
  }

  lemma {:induction false} ForwardCovers(notes: seq<Recorded>, prev: real, delta: real, length: real)
    requires delta > prev
    ensures Window(notes, prev, delta) == CyclicWindow(notes, prev, delta, length)
  {
    if |notes| > 0 {
      ForwardCovers(notes[1..], prev, delta, length);
    }
  }

  lemma {:induction false} WrappedCovers(notes: seq<Recorded>, prev: real, delta: real, length: real)
    requires delta <= prev <= length
    ensures multiset(Window(notes, prev, length)) + multiset(Window(notes, 0.0, delta))
            == multiset(CyclicWindow(notes, prev, delta, length))
  {
    if |notes| > 0 {
      WrappedCovers(notes[1..], prev, delta, length);
      WrappedStep(notes, prev, delta, length);
    }
  }

  /** One note more on the front of the stored notes keeps the two halves covering the cyclic window. */
  lemma WrappedStep(notes: seq<Recorded>, prev: real, delta: real, length: real)
    requires |notes| > 0 && delta <= prev <= length
    requires multiset(Window(notes[1..], prev, length)) + multiset(Window(notes[1..], 0.0, delta))
             == multiset(CyclicWindow(notes[1..], prev, delta, length))
    ensures multiset(Window(notes, prev, length)) + multiset(Window(notes, 0.0, delta))
            == multiset(CyclicWindow(notes, prev, delta, length))
  {
    var n := notes[0];
    var here := if InCyclicWindow(n.clock, prev, delta, length) then [n.message] else [];
    var hi := if prev <= n.clock < length then [n.message] else [];
    var lo := if 0.0 <= n.clock < delta then [n.message] else [];
    var w1, w2 := Window(notes[1..], prev, length), Window(notes[1..], 0.0, delta);
    var c := CyclicWindow(notes[1..], prev, delta, length);
    assert CyclicWindow(notes, prev, delta, length) == here + c;
    assert Window(notes, prev, length) == hi + w1;
    assert Window(notes, 0.0, delta) == lo + w2;
    WrappedOne(n, prev, delta, length);
    assert multiset(hi + w1) == multiset(hi) + multiset(w1);
    assert multiset(lo + w2) == multiset(lo) + multiset(w2);
    assert multiset(here + c) == multiset(here) + multiset(c);
    SumsRegroup(multiset(hi), multiset(w1), multiset(lo), multiset(w2), multiset(here), multiset(c));
  }

  /** Regrouping two sums of multisets whose parts add up pairwise. */
  lemma SumsRegroup(a: multiset<Message>, b: multiset<Message>, c: multiset<Message>, d: multiset<Message>,
                    e: multiset<Message>, f: multiset<Message>)
    requires a + c == e && b + d == f
    ensures (a + b) + (c + d) == e + f
  {
  }

  /** A single note lies in at most one half of a wrapped split, and in one iff it is in the cyclic window. */
  lemma WrappedOne(n: Recorded, prev: real, delta: real, length: real)
    requires delta <= prev <= length
    ensures var here := if InCyclicWindow(n.clock, prev, delta, length) then [n.message] else [];
            var hi := if prev <= n.clock < length then [n.message] else [];
            var lo := if 0.0 <= n.clock < delta then [n.message] else [];
            multiset(hi) + multiset(lo) == multiset(here)
  {
  }

  /** When the position did not move, the split replays the whole loop `[0, length)`. */
  lemma WholeLoopReplay(notes: seq<Recorded>, prev: real, length: real)
    requires 0.0 <= prev <= length
    ensures multiset(PlayedOver(notes, WrapSplit(prev, prev, length)))
            == multiset(Window(notes, 0.0, length))
  {
    WrapSplitCovers(notes, prev, prev, length);
    CyclicWholeLoop(notes, prev, length);
  }

  lemma {:induction false} CyclicWholeLoop(notes: seq<Recorded>, prev: real, length: real)
    requires 0.0 <= prev <= length
    ensures CyclicWindow(notes, prev, prev, length) == Window(notes, 0.0, length)
  {
    if |notes| > 0 {
      CyclicWholeLoop(notes[1..], prev, length);
    }
  }

  // --------------------------------------------------------------- player loop

  /** The player thread's loop variables and the restart flag `play()` sets. */
  datatype RunState = RunState(prevDelta: real, delta: real, restart: bool)

  /**
   One pass of `Player.run` while playing, with the new loop position
   `delta` (the clock modulo the loop length) given: a pending restart
   zeroes the positions first, then the split from the previous position
   to the new one is played.
   */
  function RunStep(s: RunState, delta: real, length: real): (r: (RunState, seq<Interval>))
    ensures 1 <= |r.1| <= 2
    ensures !r.0.restart && r.0.delta == delta
    ensures r.0.prevDelta == if s.restart then 0.0 else s.delta
    ensures r.1[0].start == r.0.prevDelta && r.1[|r.1| - 1].end == delta
    ensures |r.1| == 2 ==> r.1[0].end == length && r.1[1].start == 0.0
    ensures |r.1| == 1 <==> delta > r.0.prevDelta
    ensures r.1 == WrapSplit(r.0.prevDelta, delta, length)
  {
    var s1 := if s.restart then RunState(0.0, 0.0, false) else s;
    var s2 := RunState(s1.delta, delta, false);
    (s2, WrapSplit(s2.prevDelta, s2.delta, length))
  }

  /** Successive passes play contiguous stretches: each starts where the previous one ended. */
  lemma RunStepsChain(s: RunState, d1: real, d2: real, length: real)
    ensures var (s1, played1) := RunStep(s, d1, length);
            var (s2, played2) := RunStep(s1, d2, length);
            played2[0].start == played1[|played1| - 1].end
  {
  }
}
