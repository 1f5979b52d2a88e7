/**
 * The text that `RecordingWebElement.send_keys(*value)` records (webdriver_recorder.py:106-113):
 * each value is turned into text (an `int`, and so also a `bool`, through `__str__`; a string
 * as it is) and the pieces are concatenated in order.
 */
module Keys {
  import opened Wrappers

  /** One argument of send_keys. */
  datatype KeyValue = Text(chars: string) | Integer(n: int) | Boolean(b: bool)

  predicate IsDigit(c: char) {
    '0' <= c <= '9'
  }

  function DigitChar(d: nat): (c: char)
    requires d < 10
    ensures IsDigit(c) && c as int - '0' as int == d
  {
    ('0' as int + d) as char
  }

  function DigitValue(c: char): (d: nat)
    requires IsDigit(c)
    ensures d < 10 && DigitChar(d) == c
  {
    c as int - '0' as int
  }

  /** Python's `str(n)` for a non-negative int: decimal digits, most significant first. */
  function NatDecimal(n: nat): (s: string)
    decreases n
  {
    (if n < 10 then "" else NatDecimal(n / 10)) + [DigitChar(n % 10)]
  }

  /** `str(n)` is made of decimal digits only, and there is at least one. */
  lemma {:induction false} NatDecimalDigits(n: nat)
    ensures |NatDecimal(n)| > 0
    ensures forall i :: 0 <= i < |NatDecimal(n)| ==> IsDigit(NatDecimal(n)[i])
    decreases n
  {
    if n >= 10 {
      NatDecimalDigits(n / 10);
    }
  }

  /** Python's `int.__str__`: a minus sign before the digits of a negative number. */
  function IntDecimal(i: int): string
  {
    if i < 0 then "-" + NatDecimal(-i) else NatDecimal(i)
  }

  /** Reading back a string of decimal digits, as Python's `int(s)` does for such strings. */
  function ParseNat(s: string): Option<nat>
    decreases |s|
  {
    if |s| == 0 || !IsDigit(s[|s| - 1]) then None
    else if |s| == 1 then Some(DigitValue(s[0]))
    else match ParseNat(s[..|s| - 1])
      case None => None
      case Some(p) => Some(10 * p + DigitValue(s[|s| - 1]))
  }

  function ParseInt(s: string): Option<int>
  {
    var digits := if |s| > 0 && s[0] == '-' then s[1..] else s;
    match ParseNat(digits)
    case None => None
    case Some(n) => Some(if digits == s then n as int else -(n as int))
  }

  lemma {:induction false} NatDecimalRoundTrip(n: nat)
    ensures ParseNat(NatDecimal(n)) == Some(n)
    decreases n
  {
    var s := NatDecimal(n);
    if n >= 10 {
      assert s[..|s| - 1] == NatDecimal(n / 10);
      NatDecimalRoundTrip(n / 10);
    }
  }

  /** The decimal rendering of an int is read back as that same int: rendering loses nothing. */
  lemma {:induction false} IntDecimalRoundTrip(i: int)
    ensures ParseInt(IntDecimal(i)) == Some(i)
  {
    NatDecimalDigits(if i < 0 then -i else i);
    if i < 0 {
      var s := IntDecimal(i);
      assert s[1..] == NatDecimal(-i);
      NatDecimalRoundTrip(-i);
    } else {
      NatDecimalRoundTrip(i);
    }
  }

  /** The text one send_keys argument contributes. */
  function Render(v: KeyValue): string
  {
    match v
    case Text(s) => s
    case Integer(n) => IntDecimal(n)
    case Boolean(b) => if b then "True" else "False"
  }

  /** The in-order concatenation of the rendered arguments. */
  function TypedText(values: seq<KeyValue>): string
    decreases |values|
  {
    if values == [] then "" else Render(values[0]) + TypedText(values[1..])
  }

  /** The text is made of the rendered arguments, one after the other, in call order. */
  lemma {:induction false} TypedTextAppend(values: seq<KeyValue>, more: seq<KeyValue>)
    ensures TypedText(values + more) == TypedText(values) + TypedText(more)
    decreases |values|
  {
    if values == [] {
      assert values + more == more;
    } else {
      assert (values + more)[1..] == values[1..] + more;
      TypedTextAppend(values[1..], more);
      var a, b, c := Render(values[0]), TypedText(values[1..]), TypedText(more);
      assert (a + b) + c == a + (b + c);
    }
  }

  /** Example: the arguments ("a", 3, "b") are recorded as "a3b". */
  lemma TypedTextExample()
    ensures TypedText([Text("a"), Integer(3), Text("b")]) == "a3b"
  {
    var vs := [Text("a"), Integer(3), Text("b")];
    assert IntDecimal(3) == "3";
    assert vs[1..] == [Integer(3), Text("b")] && vs[1..][1..] == [Text("b")] && [Text("b")][1..] == [];
    assert TypedText([Text("b")]) == "b";
    assert TypedText(vs[1..]) == "3b";
  }

  /** The text-building loop of send_keys. */
  method BuildTypedText(values: seq<KeyValue>) returns (text: string)
    ensures text == TypedText(values)
  {
    text := "";
    for i := 0 to |values|
      invariant text == TypedText(values[..i])
    {
      var piece := Render(values[i]);
      assert values[..i + 1] == values[..i] + [values[i]];
      TypedTextAppend(values[..i], [values[i]]);
      text := text + piece;
    }
    assert values[..|values|] == values;
  }
}
