/** The `callback_data` strings carried by the grid's buttons, and how the
    callback handler reads them back.

    A cell button carries `tap:<index>` with the index in decimal, the
    cash-out button carries `cashout`.  The handler tests `startswith("tap:")`
    first, then equality with `cashout`; any other payload is ignored.  For a
    tap it takes the text between the first and the second colon and converts
    it with `int()`, which raises on anything that is not an integer.
 */
module Callback {

  /** What a callback payload asks the handler to do. */
  datatype Action =
    | TapAt(index: int)   // `tap:<n>` with a readable integer n
    | CashOut             // exactly `cashout`
    | Ignored             // any other payload: nothing happens
    | Malformed           // `tap:` followed by text `int()` rejects

  const TAP_PREFIX: string := "tap:"
  const CASHOUT_DATA: string := "cashout"

  predicate IsDigit(c: char) {
    '0' <= c <= '9'
  }

  predicate AllDigits(s: string) {
    forall i :: 0 <= i < |s| ==> IsDigit(s[i])
  }

  function DigitChar(d: nat): (c: char)
    requires d < 10
    ensures IsDigit(c) && c as int - '0' as int == d
  {
    ('0' as int + d) as char
  }

  /** The decimal text of `n`, as Python's `str` writes a non-negative int:
      no sign and no leading zeros. */
  function Decimal(n: nat): (s: string)
    ensures |s| > 0 && AllDigits(s)
    ensures s[0] == '0' ==> n == 0
  {
    if n < 10 then [DigitChar(n)] else Decimal(n / 10) + [DigitChar(n % 10)]
  }

  /** The value of a string of decimal digits. */
  function DigitsValue(s: string): nat
    requires AllDigits(s)
  {
    if s == [] then 0 else 10 * DigitsValue(s[..|s| - 1]) + (s[|s| - 1] as int - '0' as int)
  }

  /** Reading back the decimal text of `n` gives `n`. */
  lemma {:induction false} DecimalRoundTrip(n: nat)
    ensures DigitsValue(Decimal(n)) == n
  {
    if n >= 10 {
      DecimalRoundTrip(n / 10);
      var s := Decimal(n);
      assert s[..|s| - 1] == Decimal(n / 10);
    }
  }

  /** The payload of the button for cell `index`: the prefix `tap:` followed
      by the decimal digits of the index. */
  function TapData(index: nat): (d: string)
    ensures |d| > |TAP_PREFIX| && d[..4] == TAP_PREFIX
    ensures AllDigits(d[4..]) && DigitsValue(d[4..]) == index
  {
    DecimalRoundTrip(index);
    assert (TAP_PREFIX + Decimal(index))[4..] == Decimal(index);
    TAP_PREFIX + Decimal(index)
  }

  /** The text before the first `:` of `s`, i.e. `s.split(":")[0]`. */
  function Field(s: string): (f: string)
    ensures |f| <= |s| && f == s[..|f|]
    ensures ':' !in f
    ensures |f| < |s| ==> s[|f|] == ':'
  {
    if s == [] || s[0] == ':' then [] else [s[0]] + Field(s[1..])
  }

  /** The integers `int()` is modelled to accept: an optional sign followed by
      at least one ASCII digit. */
  function ParseInt(s: string): (r: Option<int>)
    ensures r.Some? <==> (|s| > 0 && AllDigits(s)) || (|s| > 1 && (s[0] == '+' || s[0] == '-') && AllDigits(s[1..]))
    ensures r.Some? && AllDigits(s) ==> r.value == DigitsValue(s)
    ensures r.Some? && |s| > 0 && s[0] == '-' ==> r.value == 0 - DigitsValue(s[1..]) as int
    ensures r.Some? && |s| > 0 && s[0] == '+' ==> r.value == DigitsValue(s[1..])
  {
    if |s| > 0 && (s[0] == '+' || s[0] == '-') then
      var digits := s[1..];
      if |digits| > 0 && AllDigits(digits) then
        var magnitude: int := DigitsValue(digits);
        Some(if s[0] == '-' then -magnitude else magnitude)
      else None
    else if |s| > 0 && AllDigits(s) then Some(DigitsValue(s))
    else None
  }

  /** Every integer, written in decimal with an optional sign, reads back as
      itself. */
  lemma ParseIntRoundTrip(n: nat)
    ensures ParseInt(Decimal(n)) == Some(n)
    ensures ParseInt("+" + Decimal(n)) == Some(n)
    ensures ParseInt("-" + Decimal(n)) == Some(0 - n as int)
  {
    DecimalRoundTrip(n);
    var d := Decimal(n);
    assert IsDigit(d[0]);
    assert ("+" + d)[1..] == d && ("-" + d)[1..] == d;
  }

  /** How the callback handler classifies a payload. */
  function Parse(data: string): (a: Action)
    ensures a.CashOut? <==> data == CASHOUT_DATA
    ensures a.TapAt? ==> |data| >= 4 && ParseInt(Field(data[4..])) == Some(a.index)
    ensures a.Malformed? ==> |data| >= 4 && ParseInt(Field(data[4..])).None?
    ensures a.Ignored? <==> !(|data| >= 4 && data[..4] == TAP_PREFIX) && data != CASHOUT_DATA
  {
    if |data| >= 4 && data[..4] == TAP_PREFIX then
      assert data[0] == 't' != CASHOUT_DATA[0];
      match ParseInt(Field(data[4..]))
      case Some(v) => TapAt(v)
      case None => Malformed
    else if data == CASHOUT_DATA then CashOut
    else Ignored
  }

  /** The payload of every cell button reads back as a tap on that cell. */
  lemma ParseTapData(index: nat)
    ensures Parse(TapData(index)) == TapAt(index)
  {
    var data := TapData(index);
    var digits := Decimal(index);
    assert data[..4] == TAP_PREFIX;
    assert data[4..] == digits;
    FieldOfDigits(digits);
    DecimalRoundTrip(index);
    assert IsDigit(digits[0]);
  }

  /** A digit string has no colon, so it is its own first field. */
  lemma FieldOfDigits(s: string)
    requires AllDigits(s)
    ensures Field(s) == s
  {
  }

  /** Text after a second colon is not looked at: `tap:7:x` is a tap on cell 7. */
  lemma ParseIgnoresLaterFields()
    ensures Parse("tap:7:x") == TapAt(7)
    ensures Parse("tap:-3") == TapAt(-3)
    ensures Parse("tap:") == Malformed
    ensures Parse("tap:x") == Malformed
  {
  }

  datatype Option<T> = None | Some(value: T)
}
