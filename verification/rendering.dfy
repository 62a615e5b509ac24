/**
 * What the battery print behavior types, as pure functions on key symbols:
 * a reading rendered in decimal (tap_u8_dec_0_100), the `l:NN% r:NN%`
 * line, and the decoders that read both back.
 */
module Rendering {
  import opened Keycodes

  /**
   * The keys tap_u8_dec_0_100 taps for v: 0..100 in decimal without
   * leading zeros, `??` above 100.
   */
  function DecimalKeys(v: uint8): (r: seq<Keycode>)
    ensures 1 <= |r| <= 3
    ensures Prcnt !in r
    ensures Question in r <==> v > 100
  {
    if v > 100 then [Question, Question]
    else if v == 100 then [N1, N0, N0]
    else if v >= 10 then [DigitKeycode(v / 10), DigitKeycode(v % 10)]
    else [DigitKeycode(v)]
  }

  /** The keys typed for one side: a missing reading prints `??`. */
  function ReadingKeys(reading: Option<uint8>): (r: seq<Keycode>)
    ensures 1 <= |r| <= 3 && Prcnt !in r
    ensures Question in r <==> Shown(reading).None?
  {
    match reading
    case None => [Question, Question]
    case Some(v) => DecimalKeys(v)
  }

  /** The whole line `l:<left>% r:<right>%`, key by key. */
  function LineKeys(left: Option<uint8>, right: Option<uint8>): (r: seq<Keycode>)
    ensures 9 <= |r| <= 13
    ensures r[..2] == [L, Colon] && r[|r| - 1] == Prcnt
    ensures |r| == 7 + |ReadingKeys(left)| + |ReadingKeys(right)|
  {
    [L, Colon] + ReadingKeys(left) + [Prcnt, Space, R, Colon] + ReadingKeys(right) + [Prcnt]
  }

  /** The value a reader of the line can recover: the reading if it is 0..100. */
  function Shown(reading: Option<uint8>): Option<nat>
  {
    if reading.Some? && reading.value <= 100 then Some(reading.value) else None
  }

  /** Reads a run of digit keys as a decimal number; None if any key is not a digit. */
  function DecodeDecimal(keys: seq<Keycode>): (r: Option<nat>)
    ensures r.Some? <==> keys != [] && forall i :: 0 <= i < |keys| ==> IsDigitKey(keys[i])
    decreases |keys|
  {
    if keys == [] then None
    else
      var init := keys[..|keys| - 1];
      var last := DigitValue(keys[|keys| - 1]);
      if last.None? then None
      else if init == [] then last
      else match DecodeDecimal(init)
        case None => None
        case Some(high) => Some(10 * high + last.value)
  }

  /** Splits s at the first occurrence of k, dropping that occurrence. */
  function SplitAtFirst(s: seq<Keycode>, k: Keycode): Option<(seq<Keycode>, seq<Keycode>)>
  {
    if s == [] then None
    else if s[0] == k then Some(([], s[1..]))
    else match SplitAtFirst(s[1..], k)
      case None => None
      case Some((before, after)) => Some(([s[0]] + before, after))
  }

  /** Reads one side of the line: `??` is "no value", digits are the value. */
  function ParseField(field: seq<Keycode>): Option<Option<nat>>
  {
    if field == [Question, Question] then Some(None)
    else match DecodeDecimal(field)
      case None => None
      case Some(v) => Some(Some(v))
  }

  /** Reads a typed line back into the two values it shows; None if it is not such a line. */
  function ParseLine(keys: seq<Keycode>): Option<(Option<nat>, Option<nat>)>
  {
    if |keys| < 2 || keys[..2] != [L, Colon] then None else ParseSides(keys[2..])
  }

  /** Reads `<left>% r:<right>%`. */
  function ParseSides(s: seq<Keycode>): Option<(Option<nat>, Option<nat>)>
  {
    match SplitAtFirst(s, Prcnt)
    case None => None
    case Some((leftField, rest)) =>
      if |rest| < 3 || rest[..3] != [Space, R, Colon] then None
      else ParseRightSide(ParseField(leftField), rest[3..])
  }

  /** Reads `<right>%` to the end, given what the left side read as. */
  function ParseRightSide(left: Option<Option<nat>>, s: seq<Keycode>): Option<(Option<nat>, Option<nat>)>
  {
    match SplitAtFirst(s, Prcnt)
    case None => None
    case Some((rightField, tail)) =>
      if tail != [] || left.None? || ParseField(rightField).None? then None
      else Some((left.value, ParseField(rightField).value))
  }

  /** Reference decimal notation of a natural number, without leading zeros. */
  function DecimalString(n: nat): string
  {
    if n < 10 then [DigitChar(n)] else DecimalString(n / 10) + [DigitChar(n % 10)]
  }

  /** The text one side of the line shows. */
  function ReadingText(reading: Option<uint8>): string
  {
    match Shown(reading)
    case None => "??"
    case Some(v) => DecimalString(v)
  }

  // ---------------------------------------------------------------------------
  // Rendering of one value
  // ---------------------------------------------------------------------------

  /** Each branch of tap_u8_dec_0_100, and what they add up to for 0..100. */
  lemma DecimalKeysCases(v: uint8)
    ensures v > 100 <==> DecimalKeys(v) == [Question, Question]
    ensures v == 100 ==> DecimalKeys(v) == [N1, N0, N0]
    ensures 10 <= v <= 99 ==> DecimalKeys(v) == [DigitKeys[v / 10], DigitKeys[v % 10]]
    ensures v < 10 ==> DecimalKeys(v) == [DigitKeys[v]]
    ensures v <= 100 ==> Question !in DecimalKeys(v) && Prcnt !in DecimalKeys(v)
    ensures v <= 100 ==> (|DecimalKeys(v)| == 1 <==> v < 10)
    ensures v <= 100 ==> (|DecimalKeys(v)| == 3 <==> v == 100)
  {
  }

  /** For 0..100 only digit keys are typed, and there is no leading zero. */
  lemma DecimalKeysNoLeadingZero(v: uint8)
    requires v <= 100
    ensures forall i :: 0 <= i < |DecimalKeys(v)| ==> IsDigitKey(DecimalKeys(v)[i])
    ensures |DecimalKeys(v)| > 1 ==> DecimalKeys(v)[0] != N0
  {
  }

  /** Reading the taps of a value 0..100 back as decimal gives the value. */
  lemma DecimalRoundTrip(v: uint8)
    requires v <= 100
    ensures DecodeDecimal(DecimalKeys(v)) == Some(v)
  {
    var keys := DecimalKeys(v);
    if v == 100 {
      assert keys[..2] == [N1, N0] && [N1, N0][..1] == [N1];
    } else if v >= 10 {
      assert keys[..1] == [DigitKeycode(v / 10)];
    }
  }

  /** The taps of a value 0..100 type its reference decimal notation. */
  lemma DecimalText(v: uint8)
    requires v <= 100
    ensures Text(DecimalKeys(v)) == DecimalString(v)
  {
    if v == 100 {
      var keys := [N1, N0, N0];
      assert keys[1..] == [N0, N0] && keys[1..][1..] == [N0] && [N0][1..] == [];
      assert Text(keys) == "100";
      assert DecimalString(10) == DecimalString(1) + "0";
      assert DecimalString(100) == DecimalString(10) + "0";
    } else if v >= 10 {
      DigitKeyChar(v / 10);
      DigitKeyChar(v % 10);
      assert DecimalString(v) == DecimalString(v / 10) + [DigitChar(v % 10)];
    } else {
      DigitKeyChar(v);
    }
  }

  // ---------------------------------------------------------------------------
  // Rendering of one side and of the whole line
  // ---------------------------------------------------------------------------

  /** One side reads back as the value it shows, and never contains `%`. */
  lemma ReadingRoundTrip(reading: Option<uint8>)
    ensures Prcnt !in ReadingKeys(reading)
    ensures ParseField(ReadingKeys(reading)) == Some(Shown(reading))
  {
    match reading
    case None =>
    case Some(v) =>
      DecimalKeysCases(v);
      if v <= 100 {
        DecimalRoundTrip(v);
      }
  }

  lemma {:induction false} SplitAtFirstConcat(a: seq<Keycode>, k: Keycode, b: seq<Keycode>)
    requires k !in a
    ensures SplitAtFirst(a + [k] + b, k) == Some((a, b))
  {
    if a == [] {
      assert a + [k] + b == [k] + b;
    } else {
      assert (a + [k] + b)[1..] == a[1..] + [k] + b;
      SplitAtFirstConcat(a[1..], k, b);
      assert [a[0]] + a[1..] == a;
    }
  }

  lemma ParseRightSideOf(left: Option<Option<nat>>, rk: seq<Keycode>)
    requires Prcnt !in rk && left.Some? && ParseField(rk).Some?
    ensures ParseRightSide(left, rk + [Prcnt]) == Some((left.value, ParseField(rk).value))
  {
    SplitAtFirstConcat(rk, Prcnt, []);
    assert rk + [Prcnt] + [] == rk + [Prcnt];
  }

  lemma ParseSidesOf(lk: seq<Keycode>, rk: seq<Keycode>)
    requires Prcnt !in lk
    ensures ParseSides(lk + [Prcnt] + ([Space, R, Colon] + rk + [Prcnt])) ==
      ParseRightSide(ParseField(lk), rk + [Prcnt])
  {
    var rest := [Space, R, Colon] + rk + [Prcnt];
    SplitAtFirstConcat(lk, Prcnt, rest);
    assert rest[..3] == [Space, R, Colon] && rest[3..] == rk + [Prcnt];
  }

  /** The line template around any two fields without `%` parses back field by field. */
  lemma ParseTemplate(lk: seq<Keycode>, rk: seq<Keycode>)
    requires Prcnt !in lk && Prcnt !in rk
    requires ParseField(lk).Some? && ParseField(rk).Some?
    ensures ParseLine([L, Colon] + lk + [Prcnt, Space, R, Colon] + rk + [Prcnt]) ==
      Some((ParseField(lk).value, ParseField(rk).value))
  {
    ParseRightSideOf(ParseField(lk), rk);
    ParseSidesOf(lk, rk);
    TemplateAfterLabel(lk, rk);
  }

  /** The line template, split after its `l:` label. */
  lemma TemplateAfterLabel(lk: seq<Keycode>, rk: seq<Keycode>)
    ensures var keys := [L, Colon] + lk + [Prcnt, Space, R, Colon] + rk + [Prcnt];
      |keys| >= 2 && keys[..2] == [L, Colon] &&
      keys[2..] == lk + [Prcnt] + ([Space, R, Colon] + rk + [Prcnt])
  {
  }

  /**
   * The line is unambiguous: reading it back recovers, for each side, the
   * value if it is 0..100 and "no value" otherwise (missing and out of range
   * both print `??`).
   */
  lemma LineRoundTrip(left: Option<uint8>, right: Option<uint8>)
    ensures ParseLine(LineKeys(left, right)) == Some((Shown(left), Shown(right)))
  {
    ReadingRoundTrip(left);
    ReadingRoundTrip(right);
    ParseTemplate(ReadingKeys(left), ReadingKeys(right));
  }

  /** The text of the line template around any two fields. */
  lemma TemplateText(lk: seq<Keycode>, rk: seq<Keycode>)
    ensures Text([L, Colon] + lk + [Prcnt, Space, R, Colon] + rk + [Prcnt]) ==
      "l:" + Text(lk) + "% r:" + Text(rk) + "%"
  {
    TextAppend([L, Colon] + lk + [Prcnt, Space, R, Colon] + rk, [Prcnt]);
    TextAppend([L, Colon] + lk + [Prcnt, Space, R, Colon], rk);
    TextAppend([L, Colon] + lk, [Prcnt, Space, R, Colon]);
    TextAppend([L, Colon], lk);
  }

  /** The line typed is `l:<left>% r:<right>%` with each side in decimal or `??`. */
  lemma LineText(left: Option<uint8>, right: Option<uint8>)
    ensures Text(LineKeys(left, right)) == "l:" + ReadingText(left) + "% r:" + ReadingText(right) + "%"
  {
    ReadingTextOf(left);
    ReadingTextOf(right);
    TemplateText(ReadingKeys(left), ReadingKeys(right));
  }

  lemma ReadingTextOf(reading: Option<uint8>)
    ensures Text(ReadingKeys(reading)) == ReadingText(reading)
  {
    match reading
    case None =>
    case Some(v) =>
      if v <= 100 {
        DecimalText(v);
      }
  }

  /** A line with both readings present. */
  lemma SampleLineBothPresent()
    ensures Text(LineKeys(Some(87), Some(92))) == "l:87% r:92%"
  {
    assert ReadingText(Some(87)) == "87" by {
      assert DigitChar(8) == '8' && DigitChar(7) == '7';
      assert DecimalString(87) == DecimalString(8) + "7";
    }
    assert ReadingText(Some(92)) == "92" by {
      assert DigitChar(9) == '9' && DigitChar(2) == '2';
      assert DecimalString(92) == DecimalString(9) + "2";
    }
    calc {
      Text(LineKeys(Some(87), Some(92)));
      == { LineText(Some(87), Some(92)); }
      "l:" + ReadingText(Some(87)) + "% r:" + ReadingText(Some(92)) + "%";
      ==
      "l:87% r:92%";
    }
  }

  /** A line whose left reading is missing. */
  lemma SampleLineLeftMissing()
    ensures Text(LineKeys(None, Some(5))) == "l:??% r:5%"
  {
    LineText(None, Some(5));
  }

  /** A line whose left reading is out of range and whose right one is missing. */
  lemma SampleLineOutOfRange()
    ensures Text(LineKeys(Some(101), None)) == "l:??% r:??%"
  {
    LineText(Some(101), None);
  }
}
