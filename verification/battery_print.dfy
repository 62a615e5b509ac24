/**
 * The battery print behavior: on press it types the split peripherals'
 * battery levels as `l:NN% r:NN%` by appending key taps to the behavior
 * queue; on release it does nothing.
 */
module BatteryPrint {
  import opened Keycodes
  import opened Rendering
  import opened BehaviorQueue

  /** The build options the behavior is compiled against. */
  datatype BuildConfig = BuildConfig(split: bool, splitRoleCentral: bool, centralBatteryLevelFetching: bool)
  {
    /** The build has a behavior queue (and HID output): not a split peripheral. */
    predicate HasBehaviorQueue() {
      !split || splitRoleCentral
    }

    /** The build can ask the split peripherals for their battery levels. */
    predicate FetchesBatteryLevels()
      ensures FetchesBatteryLevels() ==> HasBehaviorQueue()
    {
      split && splitRoleCentral && centralBatteryLevelFetching
    }
  }

  /** What a behavior handler reports: the event is consumed, or passed on. */
  datatype BehaviorStatus = Transparent | Opaque

  /**
   * The reading the press handler works with for one side: what the
   * peripheral reported if the build fetches levels, none otherwise.
   * `fetched` is None when the peripheral's level could not be read.
   */
  function Reading(config: BuildConfig, fetched: Option<uint8>): Option<uint8> {
    if config.FetchesBatteryLevels() then fetched else None
  }

  /** The entries a press appends to the queue. */
  function PressedEvents(config: BuildConfig, event: BindingEvent,
                         leftFetched: Option<uint8>, rightFetched: Option<uint8>): (r: seq<QueueEntry>)
    ensures |r| % 2 == 0
    ensures config.HasBehaviorQueue() <==> r != []
    ensures config.HasBehaviorQueue() ==> 18 <= |r| <= 26
  {
    if config.HasBehaviorQueue() then
      var line := LineKeys(Reading(config, leftFetched), Reading(config, rightFetched));
      TapAllShape(event, line);
      TapAll(event, line)
    else []
  }

  /** tap_key: queues a press of keycode and then its release, each followed by the tap delay. */
  method TapKey(queue: Queue, event: BindingEvent, keycode: Keycode)
    modifies queue
    ensures queue.entries == old(queue.entries) + Tap(event, keycode)
  {
    queue.Add(event, KeyPress(keycode), true, TapDelay);
    queue.Add(event, KeyPress(keycode), false, TapDelay);
  }

  /** Taps of `a` queued after e0, then taps of `b`, are the taps of `a + b` after e0. */
  lemma TapsChain(event: BindingEvent, e0: seq<QueueEntry>, a: seq<Keycode>, e1: seq<QueueEntry>,
                  b: seq<Keycode>, e2: seq<QueueEntry>)
    requires e1 == e0 + TapAll(event, a)
    requires e2 == e1 + TapAll(event, b)
    ensures e2 == e0 + TapAll(event, a + b)
  {
    TapAllAppend(event, a, b);
  }

  /** One tap queued is the taps of a one-key run. */
  lemma TapOne(event: BindingEvent, a: Keycode, before: seq<QueueEntry>, after: seq<QueueEntry>)
    requires after == before + Tap(event, a)
    ensures after == before + TapAll(event, [a])
  {
  }

  /** Two taps queued one after the other are the taps of a two-key run. */
  lemma TapPair(event: BindingEvent, a: Keycode, b: Keycode, before: seq<QueueEntry>, after: seq<QueueEntry>)
    requires after == before + Tap(event, a) + Tap(event, b)
    ensures after == before + TapAll(event, [a, b])
  {
    var mid := before + Tap(event, a);
    TapOne(event, a, before, mid);
    TapOne(event, b, mid, after);
    TapsChain(event, before, [a], mid, [b], after);
  }

  /** Three taps queued one after the other are the taps of a three-key run. */
  lemma TapTriple(event: BindingEvent, a: Keycode, b: Keycode, c: Keycode,
                  before: seq<QueueEntry>, after: seq<QueueEntry>)
    requires after == before + Tap(event, a) + Tap(event, b) + Tap(event, c)
    ensures after == before + TapAll(event, [a, b, c])
  {
    var mid := before + Tap(event, a) + Tap(event, b);
    TapPair(event, a, b, before, mid);
    TapOne(event, c, mid, after);
    TapsChain(event, before, [a, b], mid, [c], after);
    assert [a, b] + [c] == [a, b, c];
  }

  /** The taps the press handler queues part by part add up to the taps of the line. */
  lemma LineQueued(event: BindingEvent, lk: seq<Keycode>, rk: seq<Keycode>,
                   e0: seq<QueueEntry>, e1: seq<QueueEntry>, e2: seq<QueueEntry>,
                   e3: seq<QueueEntry>, e4: seq<QueueEntry>, e5: seq<QueueEntry>,
                   e6: seq<QueueEntry>, e7: seq<QueueEntry>, e8: seq<QueueEntry>,
                   e9: seq<QueueEntry>)
    requires e1 == e0 + Tap(event, L) && e2 == e1 + Tap(event, Colon)
    requires e3 == e2 + TapAll(event, lk)
    requires e4 == e3 + Tap(event, Prcnt) && e5 == e4 + Tap(event, Space)
    requires e6 == e5 + Tap(event, R) && e7 == e6 + Tap(event, Colon)
    requires e8 == e7 + TapAll(event, rk)
    requires e9 == e8 + Tap(event, Prcnt)
    ensures e9 == e0 + TapAll(event, [L, Colon] + lk + [Prcnt, Space, R, Colon] + rk + [Prcnt])
  {
    var head, middle := [L, Colon], [Prcnt, Space, R, Colon];
    TapPair(event, L, Colon, e0, e2);
    TapPair(event, Prcnt, Space, e3, e5);
    TapPair(event, R, Colon, e5, e7);
    TapsChain(event, e3, [Prcnt, Space], e5, [R, Colon], e7);
    assert [Prcnt, Space] + [R, Colon] == middle;
    TapOne(event, Prcnt, e8, e9);
    TapsChain(event, e0, head, e2, lk, e3);
    TapsChain(event, e0, head + lk, e3, middle, e7);
    TapsChain(event, e0, head + lk + middle, e7, rk, e8);
    TapsChain(event, e0, head + lk + middle + rk, e8, [Prcnt], e9);
  }

  /**
   * tap_u8_dec_0_100: taps v in decimal for 0..100, `??` above 100;
   * DecimalKeysCases and DecimalRoundTrip say what that sequence is.
   */
  method TapDecimal(queue: Queue, event: BindingEvent, v: uint8)
    modifies queue
    ensures queue.entries == old(queue.entries) + TapAll(event, DecimalKeys(v))
  {
    ghost var start := queue.entries;
    if v > 100 {
      TapKey(queue, event, Question);
      TapKey(queue, event, Question);
      TapPair(event, Question, Question, start, queue.entries);
      return;
    }

    if v == 100 {
      TapKey(queue, event, N1);
      TapKey(queue, event, N0);
      TapKey(queue, event, N0);
      TapTriple(event, N1, N0, N0, start, queue.entries);
      return;
    }

    if v >= 10 {
      TapKey(queue, event, DigitKeycode(v / 10));
      TapKey(queue, event, DigitKeycode(v % 10));
      TapPair(event, DigitKeycode(v / 10), DigitKeycode(v % 10), start, queue.entries);
      return;
    }

    TapKey(queue, event, DigitKeycode(v));
    TapOne(event, DigitKeycode(v), start, queue.entries);
  }

  /**
   * on_keymap_binding_pressed. Without a behavior queue it is a no-op;
   * otherwise it fetches both levels if the build can, and taps the line.
   * `leftFetched` and `rightFetched` stand for what the peripherals report.
   */
  method OnKeymapBindingPressed(config: BuildConfig, queue: Queue, event: BindingEvent,
                                leftFetched: Option<uint8>, rightFetched: Option<uint8>)
    returns (status: BehaviorStatus)
    modifies queue
    ensures status == Opaque
    ensures queue.entries == old(queue.entries) + PressedEvents(config, event, leftFetched, rightFetched)
  {
    if !config.HasBehaviorQueue() {
      return Opaque;
    }

    var left: uint8, right: uint8 := 0, 0;
    var haveLeft, haveRight := false, false;
    if config.FetchesBatteryLevels() {
      haveLeft := leftFetched.Some?;
      if haveLeft {
        left := leftFetched.value;
      }
      haveRight := rightFetched.Some?;
      if haveRight {
        right := rightFetched.value;
      }
    }

    ghost var lk := ReadingKeys(Reading(config, leftFetched));
    ghost var rk := ReadingKeys(Reading(config, rightFetched));

    // e0..e9 are the queue before and after each part of the line.
    ghost var e0 := queue.entries;
    TapKey(queue, event, L);
    ghost var e1 := queue.entries;
    TapKey(queue, event, Colon);
    ghost var e2 := queue.entries;
    if haveLeft {
      TapDecimal(queue, event, left);
    } else {
      TapKey(queue, event, Question);
      TapKey(queue, event, Question);
      TapPair(event, Question, Question, e2, queue.entries);
    }
    ghost var e3 := queue.entries;
    assert e3 == e2 + TapAll(event, lk);
    TapKey(queue, event, Prcnt);
    ghost var e4 := queue.entries;
    TapKey(queue, event, Space);
    ghost var e5 := queue.entries;

    TapKey(queue, event, R);
    ghost var e6 := queue.entries;
    TapKey(queue, event, Colon);
    ghost var e7 := queue.entries;
    if haveRight {
      TapDecimal(queue, event, right);
    } else {
      TapKey(queue, event, Question);
      TapKey(queue, event, Question);
      TapPair(event, Question, Question, e7, queue.entries);
    }
    ghost var e8 := queue.entries;
    assert e8 == e7 + TapAll(event, rk);
    TapKey(queue, event, Prcnt);
    LineQueued(event, lk, rk, e0, e1, e2, e3, e4, e5, e6, e7, e8, queue.entries);
    return Opaque;
  }

  /** on_keymap_binding_released: consumes the event and queues nothing (no modifies clause). */
  method OnKeymapBindingReleased(config: BuildConfig, queue: Queue, event: BindingEvent)
    returns (status: BehaviorStatus)
    ensures status == Opaque
  {
    return Opaque;
  }

  // ---------------------------------------------------------------------------
  // What a press appends
  // ---------------------------------------------------------------------------

  /**
   * A press queues nothing exactly on a split peripheral (a split build
   * that is not the central); every other build types the line.
   */
  lemma PressedWithoutQueue(config: BuildConfig, event: BindingEvent,
                            leftFetched: Option<uint8>, rightFetched: Option<uint8>)
    ensures PressedEvents(config, event, leftFetched, rightFetched) == [] <==>
      config.split && !config.splitRoleCentral
  {
  }

  /**
   * With a behavior queue, a press appends two entries per key of the line,
   * each press immediately followed by its release, and the keys it presses
   * read back as the two shown values.
   */
  lemma PressedEventsLine(config: BuildConfig, event: BindingEvent,
                          leftFetched: Option<uint8>, rightFetched: Option<uint8>)
    requires config.HasBehaviorQueue()
    ensures var line := LineKeys(Reading(config, leftFetched), Reading(config, rightFetched));
      var events := PressedEvents(config, event, leftFetched, rightFetched);
      && |events| == 2 * |line|
      && (forall i :: 0 <= i < |line| ==>
            events[2 * i] == QueueEntry(event, KeyPress(line[i]), true, TapDelay) &&
            events[2 * i + 1] == QueueEntry(event, KeyPress(line[i]), false, TapDelay))
      && PressedKeys(events) == line
      && ParseLine(PressedKeys(events)) ==
           Some((Shown(Reading(config, leftFetched)), Shown(Reading(config, rightFetched))))
  {
    var left, right := Reading(config, leftFetched), Reading(config, rightFetched);
    TapAllShape(event, LineKeys(left, right));
    TapAllPressedKeys(event, LineKeys(left, right));
    LineRoundTrip(left, right);
  }

  /** With both levels fetched, the host reads back each level that is 0..100. */
  lemma PressedShowsLevels(config: BuildConfig, event: BindingEvent, left: uint8, right: uint8)
    requires config.FetchesBatteryLevels()
    ensures ParseLine(PressedKeys(PressedEvents(config, event, Some(left), Some(right)))) ==
      Some((if left <= 100 then Some(left as nat) else None,
            if right <= 100 then Some(right as nat) else None))
  {
    PressedEventsLine(config, event, Some(left), Some(right));
  }

  /**
   * A central that does not fetch battery levels, or whose peripherals do
   * not answer, types `l:??% r:??%`.
   */
  lemma PressedWithoutLevels(config: BuildConfig, event: BindingEvent,
                             leftFetched: Option<uint8>, rightFetched: Option<uint8>)
    requires config.HasBehaviorQueue()
    requires !config.FetchesBatteryLevels() || (leftFetched == None && rightFetched == None)
    ensures Text(PressedKeys(PressedEvents(config, event, leftFetched, rightFetched))) == "l:??% r:??%"
  {
    assert Reading(config, leftFetched) == None && Reading(config, rightFetched) == None;
    TapAllPressedKeys(event, LineKeys(None, None));
    LineText(None, None);
  }
}
