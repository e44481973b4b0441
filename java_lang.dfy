/*
 * The few pieces of the Java platform the handler's decisions depend on:
 * nullable values, exceptions as results, 32-bit `int` arithmetic,
 * `String.trim`, `Integer.parseInt` (radix 10) and `Integer.toString`.
 */
module JavaLang {

  /** A Java reference that may be `null`. */
  datatype Option<+T> = None | Some(value: T) {
    /** The value, or `default` when `null`. */
    function GetOr(default: T): T {
      match this
      case Some(v) => v
      case None => default
    }
  }

  /** A call that either returns a value or throws an exception carrying a message. */
  datatype Result<+T> = Success(value: T) | Failure(error: string)

  // ---------------------------------------------------------------------------
  // 32-bit int

  const Int32Min: int := -0x8000_0000
  const Int32Max: int := 0x7FFF_FFFF

  predicate IsInt32(n: int) {
    Int32Min <= n <= Int32Max
  }

  /** Two's-complement wrap-around of Java `int` arithmetic. */
  function WrapInt32(n: int): (r: int)
    ensures IsInt32(r)
    ensures (r - n) % 0x1_0000_0000 == 0
    ensures IsInt32(n) ==> r == n
  {
    (n - Int32Min) % 0x1_0000_0000 + Int32Min
  }

  // ---------------------------------------------------------------------------
  // String.trim: strips every leading and trailing character up to U+0020

  predicate IsTrimmed(c: char) {
    c <= ' '
  }

  /** The first scan of `trim`: from `st`, step over the characters <= U+0020. */
  function SkipLeading(s: string, st: nat): (r: nat)
    requires st <= |s|
    ensures st <= r <= |s|
    ensures forall k :: st <= k < r ==> IsTrimmed(s[k])
    ensures r == |s| || !IsTrimmed(s[r])
    decreases |s| - st
  {
    if st < |s| && IsTrimmed(s[st]) then SkipLeading(s, st + 1) else st
  }

  /** The second scan of `trim`: from `len`, step back over the characters <= U+0020, not below `st`. */
  function SkipTrailing(s: string, st: nat, len: nat): (r: nat)
    requires st <= len <= |s|
    ensures st <= r <= len
    ensures forall k :: r <= k < len ==> IsTrimmed(s[k])
    ensures r == st || !IsTrimmed(s[r - 1])
  {
    if st < len && IsTrimmed(s[len - 1]) then SkipTrailing(s, st, len - 1) else len
  }

  /** `r` is `s[i..j]`, and only characters <= U+0020 were cut off on either side. */
  predicate TrimmedSlice(s: string, r: string, i: int, j: int) {
    0 <= i <= j <= |s| && r == s[i..j]
    && (forall k :: 0 <= k < i ==> IsTrimmed(s[k]))
    && (forall k :: j <= k < |s| ==> IsTrimmed(s[k]))
  }

  /**
   * `s.trim()`: drops the characters <= U+0020 at both ends; the result is
   * empty exactly when the whole string consists of such characters.
   */
  function Trim(s: string): (r: string)
    ensures |r| <= |s|
    ensures r == [] || (!IsTrimmed(r[0]) && !IsTrimmed(r[|r| - 1]))
    ensures r == [] <==> forall k :: 0 <= k < |s| ==> IsTrimmed(s[k])
    ensures exists i, j :: TrimmedSlice(s, r, i, j)
  {
    var st := SkipLeading(s, 0);
    var len := SkipTrailing(s, st, |s|);
    assert st < len ==> s[st..len][0] == s[st] && s[st..len][len - st - 1] == s[len - 1];
    assert TrimmedSlice(s, s[st..len], st, len);
    s[st..len]
  }

  /** `s.trim().isEmpty()` */
  predicate IsBlank(s: string) {
    Trim(s) == []
  }

  // ---------------------------------------------------------------------------
  // Decimal digits

  /** Regex `\d` and the digits `Integer.parseInt` is modelled to accept: ASCII 0-9. */
  predicate IsDigit(c: char) {
    '0' <= c <= '9'
  }

  predicate AllDigits(s: string) {
    forall k :: 0 <= k < |s| ==> IsDigit(s[k])
  }

  function DigitValue(c: char): (d: nat)
    requires IsDigit(c)
    ensures d < 10
  {
    (c - '0') as int
  }

  function DigitChar(d: nat): (c: char)
    requires d < 10
    ensures IsDigit(c) && DigitValue(c) == d
  {
    ('0' as int + d) as char
  }

  /** The value of a string of decimal digits, most significant first. */
  function DigitsValue(s: string): nat
    requires AllDigits(s)
  {
    if s == [] then 0 else DigitsValue(s[..|s| - 1]) * 10 + DigitValue(s[|s| - 1])
  }

  /** Leading zeros do not change the value of a digit string. */
  lemma {:induction false} DigitsValueLeadingZero(s: string)
    requires AllDigits(s)
    ensures AllDigits("0" + s) && DigitsValue("0" + s) == DigitsValue(s)
  {
    if s != [] {
      assert ("0" + s)[..|"0" + s| - 1] == "0" + s[..|s| - 1];
      DigitsValueLeadingZero(s[..|s| - 1]);
    } else {
      assert ("0" + s)[..0] == [];
    }
  }

  // ---------------------------------------------------------------------------
  // Integer.toString / string concatenation of an int

  /** The decimal digits of `n`, without leading zeros. */
  function NatText(n: nat): (r: string)
    ensures r != [] && AllDigits(r) && DigitsValue(r) == n
    ensures r[0] == '0' ==> r == "0"
  {
    if n < 10 then [DigitChar(n)]
    else
      var front := NatText(n / 10);
      var r := front + [DigitChar(n % 10)];
      assert r[..|r| - 1] == front;
      r
  }

  /** `Integer.toString(n)`, which is also what `"..." + n` appends. */
  function IntText(n: int): (r: string)
    ensures r != []
    ensures n < 0 <==> r[0] == '-'
  {
    if n < 0 then "-" + NatText(-n) else NatText(n)
  }

  /** Distinct ints have distinct decimal texts. */
  lemma IntTextInjective(n: int, m: int)
    requires IntText(n) == IntText(m)
    ensures n == m
  {
    if n < 0 {
      assert NatText(-n) == IntText(n)[1..] == IntText(m)[1..] == NatText(-m);
    } else {
      assert NatText(n) == NatText(m);
    }
  }

  // ---------------------------------------------------------------------------
  // Integer.parseInt(s) with radix 10

  /** The message of the NumberFormatException thrown for a string that does not parse. */
  function ForInputString(s: string): string {
    "For input string: \"" + s + "\""
  }

  /** The message thrown for a `null` argument (that of JDK 17 and later). */
  const NullStringMessage: string := "Cannot parse null string: null"

  /** The shape `Integer.parseInt` accepts: an optional sign, then at least one digit. */
  predicate IsIntLiteral(s: string) {
    var digits := if s != [] && (s[0] == '-' || s[0] == '+') then s[1..] else s;
    digits != [] && AllDigits(digits)
  }

  /** The mathematical value of a string of the accepted shape. */
  function LiteralValue(s: string): int
    requires IsIntLiteral(s)
  {
    if s[0] == '-' then 0 - DigitsValue(s[1..])
    else if s[0] == '+' then DigitsValue(s[1..])
    else DigitsValue(s)
  }

  /**
   * `Integer.parseInt(s)`: throws for `null`, for a string that is not an
   * optional sign followed by digits, and for a value outside the 32-bit range.
   */
  function ParseInt(s: Option<string>): (r: Result<int>)
    ensures r.Success? <==> s.Some? && IsIntLiteral(s.value) && IsInt32(LiteralValue(s.value))
    ensures r.Success? ==> r.value == LiteralValue(s.value)
    ensures r.Failure? && s.Some? ==> r.error == ForInputString(s.value)
    ensures s.None? ==> r == Failure(NullStringMessage)
  {
    match s
    case None => Failure(NullStringMessage)
    case Some(t) =>
      if t == [] then Failure(ForInputString(t))
      else
        var negative := t[0] == '-';
        var digits := if t[0] == '-' || t[0] == '+' then t[1..] else t;
        if digits == [] || !AllDigits(digits) then Failure(ForInputString(t))
        else
          var v := if negative then 0 - DigitsValue(digits) else DigitsValue(digits);
          if IsInt32(v) then Success(v) else Failure(ForInputString(t))
  }

  /** Every 32-bit int survives `Integer.parseInt(Integer.toString(n))`. */
  lemma ParseIntText(n: int)
    requires IsInt32(n)
    ensures ParseInt(Some(IntText(n))) == Success(n)
  {
    var t := IntText(n);
    if n < 0 {
      assert t[1..] == NatText(-n);
    }
  }

  /** `Integer.parseInt` ignores leading zeros in an unsigned literal. */
  lemma ParseIntLeadingZero(s: string)
    requires s != [] && AllDigits(s)
    ensures ParseInt(Some("0" + s)).Success? <==> ParseInt(Some(s)).Success?
    ensures ParseInt(Some(s)).Success? ==> ParseInt(Some("0" + s)) == ParseInt(Some(s))
  {
    DigitsValueLeadingZero(s);
  }
}
