/**
 * The host firmware's behavior queue, seen from the battery print behavior:
 * an ordered list of key press and release entries that only grows, and
 * the entries a tap of one key or of a run of keys adds to it.
 */
module BehaviorQueue {
  import opened Keycodes

  /** The event that triggered the behavior; it is copied into every queued entry. */
  datatype BindingEvent = BindingEvent(layer: nat, position: nat, timestamp: int)

  /** A binding to another behavior: its device name and two parameters. */
  datatype Binding = Binding(behaviorDev: string, param1: Keycode, param2: nat)

  /** One queued entry: the binding to invoke, press or release, and the wait after it. */
  datatype QueueEntry = QueueEntry(event: BindingEvent, binding: Binding, press: bool, wait: nat)

  /** The device name of the built-in key press behavior. */
  const KeyPressDevice: string := "key_press"

  /** Milliseconds the queue waits after each entry, so the host sees every key. */
  const TapDelay: nat := 20

  /** The key press binding for one key. */
  function KeyPress(keycode: Keycode): Binding {
    Binding(KeyPressDevice, keycode, 0)
  }

  /** The two entries that tap one key: its press, then its release. */
  function Tap(event: BindingEvent, keycode: Keycode): (r: seq<QueueEntry>)
    ensures |r| == 2 && r[0].press && !r[1].press
    ensures r[0].binding == r[1].binding == KeyPress(keycode)
    ensures r[0].wait == r[1].wait == TapDelay
    ensures r[0].event == r[1].event == event
    ensures PressedKeys(r) == [keycode]
  {
    var r := [QueueEntry(event, KeyPress(keycode), true, TapDelay),
              QueueEntry(event, KeyPress(keycode), false, TapDelay)];
    assert PressedKeys(r[1..]) == [] by {
      assert r[1..][1..] == [];
    }
    r
  }

  /** The entries that tap each key of keys in turn. */
  function TapAll(event: BindingEvent, keys: seq<Keycode>): seq<QueueEntry> {
    if keys == [] then [] else Tap(event, keys[0]) + TapAll(event, keys[1..])
  }

  /** The keys pressed by a run of entries, in order: what the host types. */
  function PressedKeys(entries: seq<QueueEntry>): seq<Keycode> {
    if entries == [] then []
    else (if entries[0].press then [entries[0].binding.param1] else [])
         + PressedKeys(entries[1..])
  }

  /**
   * Every tap is a press immediately followed by the release of the same
   * key, both for the triggering event and with the fixed delay.
   */
  lemma {:induction false} TapAllShape(event: BindingEvent, keys: seq<Keycode>)
    ensures |TapAll(event, keys)| == 2 * |keys|
    ensures forall i :: 0 <= i < |keys| ==>
      TapAll(event, keys)[2 * i] == QueueEntry(event, KeyPress(keys[i]), true, TapDelay) &&
      TapAll(event, keys)[2 * i + 1] == QueueEntry(event, KeyPress(keys[i]), false, TapDelay)
  {
    if keys != [] {
      TapAllShape(event, keys[1..]);
      forall i | 1 <= i < |keys|
        ensures TapAll(event, keys)[2 * i] == TapAll(event, keys[1..])[2 * (i - 1)]
        ensures TapAll(event, keys)[2 * i + 1] == TapAll(event, keys[1..])[2 * (i - 1) + 1]
      {
      }
    }
  }

  /** Tapping two runs one after the other is tapping their concatenation. */
  lemma {:induction false} TapAllAppend(event: BindingEvent, a: seq<Keycode>, b: seq<Keycode>)
    ensures TapAll(event, a + b) == TapAll(event, a) + TapAll(event, b)
  {
    if a == [] {
      assert a + b == b;
    } else {
      assert (a + b)[1..] == a[1..] + b;
      TapAllAppend(event, a[1..], b);
    }
  }

  /** The host types exactly the keys that were tapped: PressedKeys undoes TapAll. */
  lemma {:induction false} TapAllPressedKeys(event: BindingEvent, keys: seq<Keycode>)
    ensures PressedKeys(TapAll(event, keys)) == keys
  {
    if keys != [] {
      var t := TapAll(event, keys);
      assert t[1..] == [t[1]] + TapAll(event, keys[1..]);
      assert t[1..][1..] == TapAll(event, keys[1..]);
      TapAllPressedKeys(event, keys[1..]);
    }
  }

  /**
   * The queue the behavior appends to. Only the host firmware removes
   * entries; this model has only the append the behavior uses.
   */
  class Queue {
    var entries: seq<QueueEntry>

    constructor ()
      ensures entries == []
    {
      entries := [];
    }

    /** zmk_behavior_queue_add: appends one entry and changes nothing already queued. */
    method Add(event: BindingEvent, binding: Binding, press: bool, wait: nat)
      modifies this
      ensures entries == old(entries) + [QueueEntry(event, binding, press, wait)]
    {
      entries := entries + [QueueEntry(event, binding, press, wait)];
    }
  }
}
