/**
 * Key symbols typed by the battery print behavior, and the mapping from a
 * decimal digit to its key (digit_keycode).
 */
module Keycodes {

  datatype Option<+T> = None | Some(value: T)

  /** The C type uint8_t. */
  type uint8 = x: int | 0 <= x < 256

  /**
   * The HID key symbols the behavior types. Their numeric values come from
   * the keyboard firmware's key table and are not modelled; only their
   * identity matters here.
   */
  datatype Keycode =
    | N0 | N1 | N2 | N3 | N4 | N5 | N6 | N7 | N8 | N9
    | L | R | Colon | Prcnt | Space | Question

  /** The ten digit keys, indexed by the digit they type. */
  const DigitKeys: seq<Keycode> := [N0, N1, N2, N3, N4, N5, N6, N7, N8, N9]

  predicate IsDigitKey(k: Keycode) {
    k in DigitKeys
  }

  /**
   * digit_keycode: the key for a decimal digit; anything that is not a
   * digit (10..255) falls back to the question mark.
   */
  function DigitKeycode(d: uint8): (k: Keycode)
    ensures d < 10 ==> k == DigitKeys[d]
    ensures d >= 10 ==> k == Question
    ensures IsDigitKey(k) <==> d < 10
    ensures d < 10 ==> DigitValue(k) == Some(d)
  {
    match d
    case 0 => N0
    case 1 => N1
    case 2 => N2
    case 3 => N3
    case 4 => N4
    case 5 => N5
    case 6 => N6
    case 7 => N7
    case 8 => N8
    case 9 => N9
    case _ => Question
  }

  /** The digit a key types, if it is a digit key: the inverse of DigitKeycode. */
  function DigitValue(k: Keycode): (r: Option<nat>)
    ensures r.Some? <==> IsDigitKey(k)
    ensures r.Some? ==> r.value < 10 && DigitKeys[r.value] == k
  {
    match k
    case N0 => Some(0)
    case N1 => Some(1)
    case N2 => Some(2)
    case N3 => Some(3)
    case N4 => Some(4)
    case N5 => Some(5)
    case N6 => Some(6)
    case N7 => Some(7)
    case N8 => Some(8)
    case N9 => Some(9)
    case _ => None
  }

  /** The character the host receives for each key (L and R are unshifted). */
  function KeyChar(k: Keycode): char {
    match k
    case N0 => '0'
    case N1 => '1'
    case N2 => '2'
    case N3 => '3'
    case N4 => '4'
    case N5 => '5'
    case N6 => '6'
    case N7 => '7'
    case N8 => '8'
    case N9 => '9'
    case L => 'l'
    case R => 'r'
    case Colon => ':'
    case Prcnt => '%'
    case Space => ' '
    case Question => '?'
  }

  /** The character of a decimal digit. */
  function DigitChar(d: nat): char
    requires d < 10
  {
    "0123456789"[d]
  }

  /** The text the host receives for a sequence of taps. */
  function Text(keys: seq<Keycode>): (s: string)
    ensures |s| == |keys|
  {
    if keys == [] then "" else [KeyChar(keys[0])] + Text(keys[1..])
  }

  lemma {:induction false} TextAppend(a: seq<Keycode>, b: seq<Keycode>)
    ensures Text(a + b) == Text(a) + Text(b)
  {
    if a == [] {
      assert a + b == b;
    } else {
      assert (a + b)[1..] == a[1..] + b;
      TextAppend(a[1..], b);
    }
  }

  /** A digit key is typed as the character of its digit. */
  lemma DigitKeyChar(d: uint8)
    requires d < 10
    ensures KeyChar(DigitKeycode(d)) == DigitChar(d)
  {
  }
}
