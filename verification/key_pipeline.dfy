/**
 The key path of the Python prototype end to end, with the `hidinput.py`
 reader standing in for pynput's `Listener` (`looper.py` imports pynput;
 `hidinput.py` offers the same `Listener` interface for platforms without
 it): raw key events are translated into listener calls, and the listener
 calls drive `Looper.on_key_pressed` / `on_key_released` of `looper.py`,
 which dispatch commands.
 */
module KeyPipeline {
  import opened Wrappers
  import HidInput
  import PyLooper

  /**
   The listener's `on_press` / `on_release`, bound to the looper's key
   handlers: a key dispatches on its first press and on the release of a
   held key, never on a repeat press or a stray release, and the held keys
   stay free of duplicates.
   */
  function Feed(ks: PyLooper.KeyState, call: HidInput.ListenerCall): (r: (PyLooper.KeyState, Option<PyLooper.Command>))
    ensures call.OnPress? ==> r == PyLooper.OnKeyPressed(ks, call.key)
    ensures call.OnRelease? ==> r == PyLooper.OnKeyReleased(ks, call.key)
    ensures r.1.Some? ==> !PyLooper.IsModifier(call.key)
    ensures r.1.Some? && call.OnPress? ==> call.key !in ks.pressed && call.key in r.0.pressed
    ensures r.1.Some? && call.OnRelease? ==> call.key in ks.pressed
    ensures PyLooper.Distinct(ks.pressed) ==> PyLooper.Distinct(r.0.pressed)
    ensures PyLooper.Distinct(ks.pressed) && call.OnRelease? && !PyLooper.IsModifier(call.key) ==>
              call.key !in r.0.pressed
  {
    match call
    case OnPress(key) => PyLooper.OnKeyPressed(ks, key)
    case OnRelease(key) => PyLooper.OnKeyReleased(ks, key)
  }

  /** Feeds listener calls to the looper in order, collecting the commands it dispatches. */
  function Deliver(ks: PyLooper.KeyState, calls: seq<HidInput.ListenerCall>): (r: (PyLooper.KeyState, seq<PyLooper.Command>))
    ensures |r.1| <= |calls|
    ensures PyLooper.Distinct(ks.pressed) ==> PyLooper.Distinct(r.0.pressed)
    ensures |calls| == 1 ==>
              var step := Feed(ks, calls[0]);
              r == (step.0, if step.1.Some? then [step.1.value] else [])
    decreases |calls|
  {
    if |calls| == 0 then (ks, [])
    else
      var step := Feed(ks, calls[0]);
      var rest := Deliver(step.0, calls[1..]);
      var head := if step.1.Some? then [step.1.value] else [];
      assert |calls| == 1 ==> calls[1..] == [] && rest == (step.0, []) && head + rest.1 == head;
      (rest.0, head + rest.1)
  }

  /** Delivering two runs one after the other is delivering their concatenation. */
  lemma {:induction false} DeliverAppend(ks: PyLooper.KeyState, a: seq<HidInput.ListenerCall>, b: seq<HidInput.ListenerCall>)
    ensures var (ks1, c1) := Deliver(ks, a);
            var (ks2, c2) := Deliver(ks1, b);
            Deliver(ks, a + b) == (ks2, c1 + c2)
    decreases |a|
  {
    if |a| > 0 {
      assert (a + b)[0] == a[0] && (a + b)[1..] == a[1..] + b;
      var step := Feed(ks, a[0]);
      var head := if step.1.Some? then [step.1.value] else [];
      DeliverAppend(step.0, a[1..], b);
      var r1 := Deliver(step.0, a[1..]);
      var r2 := Deliver(r1.0, b);
      assert head + (r1.1 + r2.1) == (head + r1.1) + r2.1;
    } else {
      assert a + b == b;
      assert [] + Deliver(ks, b).1 == Deliver(ks, b).1;
    }
  }

  const PRESS_W := HidInput.InputEvent(HidInput.EV_KEY, 0x11, 1)
  const RELEASE_W := HidInput.InputEvent(HidInput.EV_KEY, 0x11, 0)
  const PRESS_SHIFT := HidInput.InputEvent(HidInput.EV_KEY, 0x2a, 1)

  /** The reader turns a tap of the W key into a press and a release of `"w"`. */
  lemma TapWListens()
    ensures HidInput.Listen([], [PRESS_W, RELEASE_W])
              == ([], [HidInput.OnPress("w"), HidInput.OnRelease("w")], None)
  {
    PressW([]);
    ReleaseW([]);
    assert HidInput.Listen([], [PRESS_W]) == ([], [HidInput.OnPress("w")], None);
    assert HidInput.Listen([], [RELEASE_W]) == ([], [HidInput.OnRelease("w")], None);
    HidInput.ListenAppend([], [PRESS_W], [RELEASE_W]);
    assert [PRESS_W] + [RELEASE_W] == [PRESS_W, RELEASE_W];
    assert [HidInput.OnPress("w")] + [HidInput.OnRelease("w")] == [HidInput.OnPress("w"), HidInput.OnRelease("w")];
  }

  /** With left shift held, the reader still names the key `"w"`, after a press of `"shift"`. */
  lemma ShiftWListens()
    ensures HidInput.Listen([], [PRESS_SHIFT, PRESS_W])
              == (["shift"], [HidInput.OnPress("shift"), HidInput.OnPress("w")], None)
  {
    PressShift();
    PressW(["shift"]);
    assert HidInput.Listen([], [PRESS_SHIFT]) == (["shift"], [HidInput.OnPress("shift")], None);
    assert HidInput.Listen(["shift"], [PRESS_W]) == (["shift"], [HidInput.OnPress("w")], None);
    HidInput.ListenAppend([], [PRESS_SHIFT], [PRESS_W]);
    assert [PRESS_SHIFT] + [PRESS_W] == [PRESS_SHIFT, PRESS_W];
    assert [HidInput.OnPress("shift")] + [HidInput.OnPress("w")] == [HidInput.OnPress("shift"), HidInput.OnPress("w")];
  }

  /** Pressing W reports `"w"` with or without shift, and leaves the modifiers alone. */
  lemma PressW(modifiers: seq<string>)
    requires modifiers == [] || modifiers == ["shift"]
    ensures var out := HidInput.ProcessKeyboard(modifiers, HidInput.EV_KEY, 0x11, 1);
            && out.error.None? && out.modifiers == modifiers
            && out.callback.Some? && HidInput.ListenerCallback(out.callback.value) == HidInput.OnPress("w")
  {
    var z := HidInput.KeyName(0x11, modifiers);
    assert z == "w" || z == "W";
    HidInput.LowerNoCapitals("w");
    assert HidInput.Lower("W") == "w";
    assert z != "shift" && z != "alt";
  }

  /** Releasing W without shift reports `"w"`. */
  lemma ReleaseW(modifiers: seq<string>)
    requires modifiers == []
    ensures var out := HidInput.ProcessKeyboard(modifiers, HidInput.EV_KEY, 0x11, 0);
            && out.error.None? && out.modifiers == modifiers
            && out.callback.Some? && HidInput.ListenerCallback(out.callback.value) == HidInput.OnRelease("w")
  {
    var z := HidInput.KeyName(0x11, modifiers);
    assert z == "w";
    HidInput.LowerNoCapitals("w");
  }

  /** Pressing left shift reports `"shift"` and records it as a held modifier. */
  lemma PressShift()
    ensures var out := HidInput.ProcessKeyboard([], HidInput.EV_KEY, 0x2a, 1);
            && out.error.None? && out.modifiers == ["shift"]
            && out.callback.Some? && HidInput.ListenerCallback(out.callback.value) == HidInput.OnPress("shift")
  {
    var z := HidInput.KeyName(0x2a, []);
    assert z == "shift";
    HidInput.LowerNoCapitals("shift");
    assert [] + ["shift"] == ["shift"];
  }

  /**
   A tap of W with no modifier held starts recording track 1 on the press
   and runs `record_after(1)` on the release, leaving the held keys as they were.
   */
  lemma TapWRecordsTrackOne(ks: PyLooper.KeyState)
    requires !ks.shift && !ks.ctrl && "w" !in ks.pressed && PyLooper.Distinct(ks.pressed)
    ensures var calls := HidInput.Listen([], [PRESS_W, RELEASE_W]).1;
            var (ks1, cmds) := Deliver(ks, calls);
            && cmds == [PyLooper.Command("record", [1]), PyLooper.Command("record_after", [1])]
            && multiset(ks1.pressed) == multiset(ks.pressed)
  {
    TapWListens();
    DeliverTapW(ks);
  }

  /** The looper's side of a W tap: `record(1)` on the press, `record_after(1)` on the release. */
  lemma DeliverTapW(ks: PyLooper.KeyState)
    requires !ks.shift && !ks.ctrl && "w" !in ks.pressed && PyLooper.Distinct(ks.pressed)
    ensures var (ks1, cmds) := Deliver(ks, [HidInput.OnPress("w"), HidInput.OnRelease("w")]);
            && cmds == [PyLooper.Command("record", [1]), PyLooper.Command("record_after", [1])]
            && multiset(ks1.pressed) == multiset(ks.pressed)
  {
    PyLooper.RecordKeyRoundTrip(ks);
    var (ks1, down) := PyLooper.OnKeyPressed(ks, "w");
    var (ks2, up) := PyLooper.OnKeyReleased(ks1, "w");
    DeliverTwo(ks, HidInput.OnPress("w"), HidInput.OnRelease("w"));
    assert Feed(ks, HidInput.OnPress("w")) == (ks1, down);
    assert Feed(ks1, HidInput.OnRelease("w")) == (ks2, up);
  }

  /** Two calls in a row: the second is fed the state the first left, and their commands follow each other. */
  lemma DeliverTwo(ks: PyLooper.KeyState, a: HidInput.ListenerCall, b: HidInput.ListenerCall)
    ensures var (ks1, c1) := Feed(ks, a);
            var (ks2, c2) := Feed(ks1, b);
            Deliver(ks, [a, b]) == (ks2, (if c1.Some? then [c1.value] else []) + (if c2.Some? then [c2.value] else []))
  {
    DeliverAppend(ks, [a], [b]);
    assert [a] + [b] == [a, b];
  }

  /** Holding shift while pressing W dispatches nothing: the shift table is empty. */
  lemma ShiftWDispatchesNothing(ks: PyLooper.KeyState)
    requires !ks.ctrl && ks.pressed == []
    ensures var calls := HidInput.Listen([], [PRESS_SHIFT, PRESS_W]).1;
            Deliver(ks, calls).1 == []
  {
    ShiftWListens();
    var calls := [HidInput.OnPress("shift"), HidInput.OnPress("w")];
    var ks1 := ks.(shift := true);
    assert calls[1..] == [HidInput.OnPress("w")];
    assert calls[1..][1..] == [];
    assert PyLooper.OnKeyPressed(ks1, "w").1 == None;
  }
}
