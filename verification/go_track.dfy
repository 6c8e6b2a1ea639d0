/**
 The Go event model and track store of `track.go`: a MIDI message as the
 portmidi event record, the status-byte decomposition into message kind and
 channel, and an append-only track of events.
 */
module GoTrack {
  import Bitwise

  /** Status-byte message kinds (high nibble), as in MIDI 1.0 "Channel Voice Messages". */
  const NOTE_ON := 0x90
  const NOTE_OFF := 0x80
  const POLY_PRESSURE := 0xA0
  const CONTROL_CHANGE := 0xB0
  const PROGRAM_CHANGE := 0xC0
  const CHANNEL_PRESSURE := 0xD0
  const PITCH_BEND := 0xE0

  /** A portmidi event: the three int64 fields the looper reads and writes. */
  datatype Event = Event(status: int, data1: int, data2: int)

  /** A track owns its events in insertion order. */
  datatype Track = Track(notes: seq<Event>)

  /** A freshly created track holds no events. */
  function NewTrack(): (t: Track)
    ensures |t.notes| == 0
  {
    Track([])
  }

  /** The message kind of an event: `Status & 0xF0`. */
  function GetStatus(ev: Event): (s: int)
    ensures s % 16 == 0 && 0 <= s <= 0xF0
    ensures s == ev.status % 256 - ev.status % 16
  {
    Bitwise.AndHighNibble(ev.status);
    var nibble := (ev.status / 16) % 16;
    assert (16 * nibble) % 16 == 0 by {
      Bitwise.DivModUnique(16 * nibble, 16, nibble, 0);
    }
    Bitwise.And(ev.status, 0xF0)
  }

  /** The channel of an event: `Status & 0x0F`. */
  function GetChannel(ev: Event): (c: int)
    ensures 0 <= c < 16
    ensures c == ev.status % 16
  {
    Bitwise.AndLowNibble(ev.status);
    Bitwise.And(ev.status, 0x0F)
  }

  /** A status byte is the sum of its message kind and its channel. */
  lemma StatusChannelDecompose(ev: Event)
    requires 0 <= ev.status < 256
    ensures GetStatus(ev) + GetChannel(ev) == ev.status
    ensures GetStatus(ev) / 16 == ev.status / 16
  {
    var q, r := ev.status / 16, ev.status % 16;
    Bitwise.DivModUnique(ev.status, 256, 0, ev.status);
    assert GetStatus(ev) == ev.status - r;
    assert ev.status - r == 16 * q;
    Bitwise.DivModUnique(16 * q, 16, q, 0);
  }

  /** Events with the same message kind and channel byte-range status are equal in status. */
  lemma StatusChannelDetermineStatus(a: Event, b: Event)
    requires 0 <= a.status < 256 && 0 <= b.status < 256
    ensures a.status == b.status <==> GetStatus(a) == GetStatus(b) && GetChannel(a) == GetChannel(b)
  {
    StatusChannelDecompose(a);
    StatusChannelDecompose(b);
  }

  /**
   Appends one note-on event for `channel` to the track. The timestamp is
   accepted and dropped: the stored event does not carry it.
   */
  function AddNote(track: Track, ts: int, channel: int, note: int, velocity: int): (r: Track)
    ensures |r.notes| == |track.notes| + 1
    ensures r.notes[..|track.notes|] == track.notes
    ensures r.notes[|track.notes|].data1 == note && r.notes[|track.notes|].data2 == velocity
    ensures r.notes[|track.notes|].status == Bitwise.Or(channel, NOTE_ON)
    ensures 0 <= channel < 16 ==>
              && GetStatus(r.notes[|track.notes|]) == NOTE_ON
              && GetChannel(r.notes[|track.notes|]) == channel
  {
    var ev := Event(Bitwise.Or(channel, NOTE_ON), note, velocity);
    NoteOnStatus(ev, channel);
    Track(track.notes + [ev])
  }

  /** A status byte `NOTE_ON | channel` decomposes back into NOTE_ON and the channel. */
  lemma NoteOnStatus(ev: Event, channel: int)
    requires ev.status == Bitwise.Or(channel, NOTE_ON)
    ensures 0 <= channel < 16 ==> GetStatus(ev) == NOTE_ON && GetChannel(ev) == channel
  {
    if 0 <= channel < 16 {
      Bitwise.OrChannel(channel);
      assert ev.status == 0x90 + channel;
      assert NOTE_ON % 16 == 0;
      StatusOfByte(ev, NOTE_ON, channel);
    }
  }

  /** The kind and channel of a status byte built as `kind + channel`. */
  lemma StatusOfByte(ev: Event, kind: int, channel: int)
    requires kind % 16 == 0 && 0 <= kind < 256 && 0 <= channel < 16
    requires ev.status == kind + channel
    ensures GetStatus(ev) == kind && GetChannel(ev) == channel
  {
    Bitwise.DivModUnique(ev.status, 16, kind / 16, channel);
    Bitwise.DivModUnique(ev.status, 256, 0, ev.status);
  }

  /** Nothing in the track depends on the timestamp argument of AddNote. */
  lemma AddNoteIgnoresTimestamp(track: Track, ts1: int, ts2: int, channel: int, note: int, velocity: int)
    ensures AddNote(track, ts1, channel, note, velocity) == AddNote(track, ts2, channel, note, velocity)
  {
  }

  /** For a channel in range the stored status byte is `0x90 + channel`, whatever the velocity. */
  lemma AddNoteStatusByte(track: Track, ts: int, channel: int, note: int, velocity: int)
    requires 0 <= channel < 16
    ensures AddNote(track, ts, channel, note, velocity).notes[|track.notes|]
              == Event(NOTE_ON + channel, note, velocity)
  {
    Bitwise.OrChannel(channel);
  }
}
