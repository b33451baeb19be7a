/** Decimal text of event and request numbers, as three library calls see it:
    Go's `%d` and `strconv.ParseUint(s, 10, 64)`, and Python's `int` and `str`. */
module Decimal {
  import opened Wrappers

  predicate IsDigit(c: char) {
    '0' <= c <= '9'
  }

  predicate AllDigits(s: string) {
    forall i :: 0 <= i < |s| ==> IsDigit(s[i])
  }

  function DigitChar(d: nat): (c: char)
    requires d < 10
    ensures IsDigit(c) && DigitValue(c) == d
  {
    (d + '0' as int) as char
  }

  function DigitValue(c: char): nat
    requires IsDigit(c)
  {
    c as int - '0' as int
  }

  /** Go's `%d` (and Python's `str`) on a natural number. */
  function Render(n: nat): (s: string)
    ensures |s| > 0 && AllDigits(s)
  {
    if n < 10 then [DigitChar(n)] else Render(n / 10) + [DigitChar(n % 10)]
  }

  function Value(s: string): nat
    requires AllDigits(s)
  {
    if s == "" then 0 else Value(s[..|s| - 1]) * 10 + DigitValue(s[|s| - 1])
  }

  lemma {:induction false} ValueOfRender(n: nat)
    ensures Value(Render(n)) == n
  {
    if n >= 10 {
      ValueOfRender(n / 10);
      var s := Render(n);
      assert s[..|s| - 1] == Render(n / 10);
    }
  }

  lemma RenderInjective(a: nat, b: nat)
    ensures Render(a) == Render(b) <==> a == b
  {
    ValueOfRender(a);
    ValueOfRender(b);
  }

  const UINT64_LIMIT: nat := 0x1_0000_0000_0000_0000

  /** `strconv.ParseUint(s, 10, 64)`: digits only, and no value above 64 bits. */
  function ParseUint64(s: string): Option<nat> {
    if s == "" || !AllDigits(s) || Value(s) >= UINT64_LIMIT then None else Some(Value(s))
  }

  /** Python's `str` on any integer. */
  function RenderInt(i: int): string {
    if i < 0 then "-" + Render(-i) else Render(i)
  }

  predicate IsSpace(c: char) {
    c in " \t\n\r" || c == '\U{0B}' || c == '\U{0C}'
  }

  function StripLeft(s: string): string {
    if s != "" && IsSpace(s[0]) then StripLeft(s[1..]) else s
  }

  function StripRight(s: string): string {
    if s != "" && IsSpace(s[|s| - 1]) then StripRight(s[..|s| - 1]) else s
  }

  /** The digits of a Python integer literal: single underscores may separate digits. */
  function UnderscoredDigits(s: string, afterDigit: bool): (r: Option<string>)
    ensures r.Some? ==> AllDigits(r.value)
  {
    if s == "" then (if afterDigit then Some("") else None)
    else if IsDigit(s[0]) then
      match UnderscoredDigits(s[1..], true)
      case None => None
      case Some(rest) => Some([s[0]] + rest)
    else if s[0] == '_' && afterDigit then UnderscoredDigits(s[1..], false)
    else None
  }

  lemma {:induction false} PlainDigits(s: string, afterDigit: bool)
    requires AllDigits(s) && (s != "" || afterDigit)
    ensures UnderscoredDigits(s, afterDigit) == Some(s)
  {
    if s != "" {
      PlainDigits(s[1..], true);
      assert s == [s[0]] + s[1..];
    }
  }

  /** Python's `int(s)` on ASCII text; None is its ValueError. */
  function PyInt(s: string): Option<int> {
    var body := StripRight(StripLeft(s));
    var signed := body != "" && (body[0] == '-' || body[0] == '+');
    match UnderscoredDigits(if signed then body[1..] else body, false)
    case None => None
    case Some(digits) =>
      Some(if signed && body[0] == '-' then -(Value(digits) as int) else Value(digits))
  }

  /** What one side prints, the other side reads back. */
  lemma DecimalRoundTrip(n: nat)
    ensures PyInt(Render(n)) == Some(n)
    ensures n < UINT64_LIMIT ==> ParseUint64(Render(n)) == Some(n)
    ensures RenderInt(n) == Render(n)
  {
    var s := Render(n);
    ValueOfRender(n);
    assert IsDigit(s[0]) && IsDigit(s[|s| - 1]);
    PlainDigits(s, false);
  }

  /** Python's `str` of a number reads back as that number. */
  lemma IntRoundTrip(i: int)
    ensures PyInt(RenderInt(i)) == Some(i)
  {
    if i >= 0 {
      DecimalRoundTrip(i);
    } else {
      NegativeRoundTrip(-i);
    }
  }

  lemma NegativeRoundTrip(n: nat)
    requires n > 0
    ensures PyInt("-" + Render(n)) == Some(-(n as int))
  {
    hide Render, Value, UnderscoredDigits;
    var s := "-" + Render(n);
    assert s[0] == '-' && s[1..] == Render(n);
    assert IsDigit(s[|s| - 1]);
    assert StripLeft(s) == s && StripRight(s) == s;
    PlainDigits(Render(n), false);
    ValueOfRender(n);
  }
}
