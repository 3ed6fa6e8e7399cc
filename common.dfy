/** Shared vocabulary of the plugin model: optional values (C#'s nullable
    references), `String.IsNullOrEmpty`, and the `Int32.TryParse` /
    `Int32.ToString` pair that the actions use to read and write the numeric
    settings they keep as strings. */
module Common {

  /** A C# reference that may be null: `None` is null. */
  datatype Option<T> = None | Some(value: T)

  /** `String.IsNullOrEmpty`. */
  predicate IsNullOrEmpty(s: Option<string>)
  {
    s.None? || s.value == ""
  }

  const Int32Min: int := -0x8000_0000
  const Int32Max: int := 0x7FFF_FFFF

  predicate IsInt32(x: int)
  {
    Int32Min <= x <= Int32Max
  }

  predicate IsDigit(c: char)
  {
    '0' <= c <= '9'
  }

  /** The white space `NumberStyles.Integer` lets around a number:
      U+0009 to U+000D and U+0020. */
  predicate IsWhite(c: char)
  {
    c == ' ' || ('\t' <= c <= '\r')
  }

  predicate AllDigits(s: string)
  {
    forall i :: 0 <= i < |s| ==> IsDigit(s[i])
  }

  function DigitValue(c: char): (d: nat)
    requires IsDigit(c)
    ensures d < 10
  {
    c as int - '0' as int
  }

  function DigitChar(d: nat): (c: char)
    requires d < 10
    ensures IsDigit(c) && DigitValue(c) == d
  {
    ('0' as int + d) as char
  }

  /** The value of a string of decimal digits, most significant first. */
  function DigitsValue(s: string): nat
    requires AllDigits(s)
  {
    if s == [] then 0 else DigitsValue(s[..|s| - 1]) * 10 + DigitValue(s[|s| - 1])
  }

  function TrimStartWhite(s: string): (r: string)
    ensures |r| <= |s| && r == s[|s| - |r|..]
    ensures r == [] || !IsWhite(r[0])
  {
    if s != [] && IsWhite(s[0]) then TrimStartWhite(s[1..]) else s
  }

  function TrimEndWhite(s: string): (r: string)
    ensures |r| <= |s| && r == s[..|r|]
    ensures r == [] || !IsWhite(r[|r| - 1])
  {
    if s != [] && IsWhite(s[|s| - 1]) then TrimEndWhite(s[..|s| - 1]) else s
  }

  /** .NET accepts trailing NUL characters after a number. */
  function TrimEndNul(s: string): (r: string)
    ensures |r| <= |s| && r == s[..|r|]
    ensures r == [] || r[|r| - 1] != '\0'
  {
    if s != [] && s[|s| - 1] == '\0' then TrimEndNul(s[..|s| - 1]) else s
  }

  /** The unbounded value of `[ws][sign]digits[ws][NUL...]`, or None when the
      text has another shape. */
  function ParseInteger(s: string): Option<int>
  {
    var t := TrimStartWhite(TrimEndWhite(TrimEndNul(s)));
    var negative := t != [] && t[0] == '-';
    var digits := if t != [] && (t[0] == '-' || t[0] == '+') then t[1..] else t;
    if digits != [] && AllDigits(digits) then
      Some(if negative then -(DigitsValue(digits) as int) else DigitsValue(digits))
    else
      None
  }

  /** `Int32.TryParse(s, out v)` with the invariant culture: `Some(v)` when it
      returns true. A null string, an empty one, a malformed one and one out of
      the Int32 range all fail. */
  function TryParseInt32(s: Option<string>): (r: Option<int>)
    ensures r.Some? ==> IsInt32(r.value)
    ensures IsNullOrEmpty(s) ==> r.None?
  {
    if s.None? then None
    else match ParseInteger(s.value)
      case Some(v) => if IsInt32(v) then Some(v) else None
      case None => None
  }

  /** What `Int32.TryParse` leaves in its out-parameter: 0 when it fails. */
  function TryParseOut(s: Option<string>): (v: int)
    ensures TryParseInt32(s).None? ==> v == 0
    ensures TryParseInt32(s).Some? ==> v == TryParseInt32(s).value
  {
    match TryParseInt32(s)
    case Some(v) => v
    case None => 0
  }

  /** Decimal digits of a natural number, without leading zeros. */
  function NatToDigits(n: nat): (s: string)
    ensures s != [] && AllDigits(s)
  {
    if n < 10 then [DigitChar(n)] else NatToDigits(n / 10) + [DigitChar(n % 10)]
  }

  /** `Int32.ToString()`: an optional minus sign and the decimal digits. */
  function IntToString(x: int): (s: string)
    ensures s != [] && !IsWhite(s[0]) && IsDigit(s[|s| - 1])
  {
    if x < 0 then "-" + NatToDigits(-x) else NatToDigits(x)
  }

  lemma {:induction false} DigitsRoundTrip(n: nat)
    ensures DigitsValue(NatToDigits(n)) == n
  {
    var s := NatToDigits(n);
    if n >= 10 {
      DigitsRoundTrip(n / 10);
      assert s[..|s| - 1] == NatToDigits(n / 10);
    }
  }

  /** Every Int32 written by `ToString` is read back by `TryParse`. */
  lemma IntToStringRoundTrip(x: int)
    requires IsInt32(x)
    ensures TryParseInt32(Some(IntToString(x))) == Some(x)
  {
    ParseIntegerOfString(x);
  }

  /** Reading back the text `ToString` writes gives the number itself. */
  lemma {:induction false} ParseIntegerOfString(x: int)
    ensures ParseInteger(IntToString(x)) == Some(x)
  {
    var s := IntToString(x);
    TrimsKeep(s);
    if x < 0 {
      var ds := NatToDigits(-x);
      assert s == "-" + ds;
      DigitsRoundTrip(-x);
      SignedDigits(s, ds, true);
    } else {
      DigitsRoundTrip(x);
      SignedDigits(s, s, false);
    }
  }

  /** Reading `[-]digits` with nothing around it. */
  lemma {:induction false} SignedDigits(s: string, ds: string, negative: bool)
    requires TrimStartWhite(TrimEndWhite(TrimEndNul(s))) == s
    requires ds != [] && AllDigits(ds)
    requires s == if negative then "-" + ds else ds
    ensures ParseInteger(s) == Some(if negative then -(DigitsValue(ds) as int) else DigitsValue(ds))
  {
  }

  /** The three trims leave a string alone that starts and ends with
      neither white space nor NUL. */
  lemma {:induction false} TrimsKeep(s: string)
    requires s != [] && !IsWhite(s[0]) && IsDigit(s[|s| - 1])
    ensures TrimStartWhite(TrimEndWhite(TrimEndNul(s))) == s
  {
    assert TrimEndNul(s) == s;
    assert TrimEndWhite(s) == s;
    assert TrimStartWhite(s) == s;
  }
}
