/** JavaScript's `parseInt(string)` on query-string values, and `String(n)` on naturals. */
module JsParse {
  import opened Wrappers
  import opened Text

  /** The digit value of `c` in base 10 or 16 (either case), if it is a digit of that base. */
  function DigitValue(c: char, radix: nat): Option<nat> {
    var d: int :=
      if '0' <= c <= '9' then c as int - '0' as int
      else if 'a' <= c <= 'z' then c as int - 'a' as int + 10
      else if 'A' <= c <= 'Z' then c as int - 'A' as int + 10
      else -1;
    if 0 <= d < radix then Some(d) else None
  }

  /** The number of leading characters of `s` that are digits of the base. */
  function LeadingDigits(s: string, radix: nat): (k: nat)
    ensures k <= |s|
    ensures forall i :: 0 <= i < k ==> DigitValue(s[i], radix).Some?
    ensures k < |s| ==> DigitValue(s[k], radix).None?
    decreases |s|
  {
    if s == [] || DigitValue(s[0], radix).None? then 0
    else
      var k := LeadingDigits(s[1..], radix);
      assert forall i :: 1 <= i < |s| ==> s[i] == s[1..][i - 1];
      1 + k
  }

  /** The value of a string of digits, most significant first. */
  function DigitsValue(s: string, radix: nat): nat
    requires forall i :: 0 <= i < |s| ==> DigitValue(s[i], radix).Some?
    decreases |s|
  {
    if s == [] then 0
    else DigitsValue(s[..|s| - 1], radix) * radix + DigitValue(s[|s| - 1], radix).value
  }

  /** `s` with its leading whitespace removed (`parseInt` skips it). */
  function TrimStart(s: string): string
    decreases |s|
  {
    if s != [] && IsWhitespace(s[0]) then TrimStart(s[1..]) else s
  }

  /** The longest run of leading digits of the base, read as a number; `None` when there is
      no digit at all. */
  function ParseDigits(body: string, radix: nat): Option<nat> {
    var k := LeadingDigits(body, radix);
    if k == 0 then None else Some(DigitsValue(body[..k], radix))
  }

  predicate HexPrefix(u: string) {
    |u| >= 2 && u[0] == '0' && (u[1] == 'x' || u[1] == 'X')
  }

  /** An unsigned number: a `0x`/`0X` prefix selects base 16, otherwise base 10. */
  function ParseUnsigned(u: string): Option<nat> {
    if HexPrefix(u) then ParseDigits(u[2..], 16) else ParseDigits(u, 10)
  }

  /** `parseInt(s)` with no radix: leading whitespace skipped, an optional sign, then an
      unsigned number; the rest of the string is ignored. `None` stands for `NaN`. */
  function ParseInt(s: string): Option<int> {
    var t := TrimStart(s);
    if t != [] && (t[0] == '-' || t[0] == '+') then
      match ParseUnsigned(t[1..])
      case None => None
      case Some(n) => Some(if t[0] == '-' then -(n as int) else n as int)
    else
      match ParseUnsigned(t)
      case None => None
      case Some(n) => Some(n)
  }

  function DigitChar(d: nat): char
    requires d < 10
  {
    ('0' as int + d) as char
  }

  /** `String(n)` for a natural number: its decimal digits, no leading zero. */
  function DecimalString(n: nat): (s: string)
    ensures s != [] && forall i :: 0 <= i < |s| ==> '0' <= s[i] <= '9'
    decreases n
  {
    if n < 10 then [DigitChar(n)] else DecimalString(n / 10) + [DigitChar(n % 10)]
  }

  lemma {:induction false} DecimalDigitsValue(n: nat)
    ensures LeadingDigits(DecimalString(n), 10) == |DecimalString(n)|
    ensures DigitsValue(DecimalString(n), 10) == n
    decreases n
  {
    var s := DecimalString(n);
    AllDigitsLeading(s);
    if n >= 10 {
      DecimalDigitsValue(n / 10);
      assert s[..|s| - 1] == DecimalString(n / 10);
    }
  }

  lemma {:induction false} AllDigitsLeading(s: string)
    requires forall i :: 0 <= i < |s| ==> '0' <= s[i] <= '9'
    ensures LeadingDigits(s, 10) == |s|
    decreases |s|
  {
    if s != [] {
      AllDigitsLeading(s[1..]);
    }
  }

  /** Reading back a natural number written in decimal gives the number. */
  lemma ParseUnsignedDecimal(n: nat)
    ensures ParseUnsigned(DecimalString(n)) == Some(n)
  {
    var s := DecimalString(n);
    DecimalDigitsValue(n);
    assert !HexPrefix(s) by {
      if |s| >= 2 {
        assert '0' <= s[1] <= '9';
      }
    }
    assert s[..|s|] == s;
  }

  /** `parseInt(String(n)) == n`. */
  lemma ParseDecimal(n: nat)
    ensures ParseInt(DecimalString(n)) == Some(n)
  {
    var s := DecimalString(n);
    ParseUnsignedDecimal(n);
    assert TrimStart(s) == s by {
      assert !IsWhitespace(s[0]);
    }
  }

  /** `parseInt("-" + String(n)) == -n`. */
  lemma ParseNegativeDecimal(n: nat)
    ensures ParseInt("-" + DecimalString(n)) == Some(-(n as int))
  {
    var s := DecimalString(n);
    ParseUnsignedDecimal(n);
    var m := "-" + s;
    assert TrimStart(m) == m;
    assert m[1..] == s;
  }

  /** A string with no digit after its sign is `NaN`. */
  lemma ParseIntNaN()
    ensures ParseInt("") == None && ParseInt("abc") == None && ParseInt("-") == None
  {
    assert LeadingDigits("abc", 10) == 0;
    assert "-"[1..] == "";
  }
}
