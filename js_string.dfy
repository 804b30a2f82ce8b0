/**
 * The two JavaScript built-ins the RGB LED server parses colours with:
 * `String.prototype.split` with a one-character separator, and global
 * `parseInt` without a radix. `NaN` is `None`.
 */
module JsString {
  import opened Wrappers

  /** The parts of `s` between occurrences of `sep`, as `s.split(sep)`. */
  function Split(s: string, sep: char): (parts: seq<string>)
    ensures |parts| >= 1
    ensures forall i :: 0 <= i < |parts| ==> sep !in parts[i]
    decreases |s|
  {
    if s == [] then [[]]
    else
      var rest := Split(s[1..], sep);
      if s[0] == sep then [[]] + rest
      else [[s[0]] + rest[0]] + rest[1..]
  }

  /** `parts.join(sep)`. */
  function Join(parts: seq<string>, sep: char): string
    requires |parts| >= 1
    decreases |parts|
  {
    if |parts| == 1 then parts[0] else parts[0] + [sep] + Join(parts[1..], sep)
  }

  /** Joining the parts of a split gives back the string. */
  lemma {:induction false} JoinSplit(s: string, sep: char)
    ensures Join(Split(s, sep), sep) == s
    decreases |s|
  {
    if s != [] {
      JoinSplit(s[1..], sep);
      var rest := Split(s[1..], sep);
      if s[0] != sep && |rest| > 1 {
        assert Join(rest, sep) == rest[0] + [sep] + Join(rest[1..], sep);
        assert [s[0]] + rest[0] + [sep] + Join(rest[1..], sep) == [s[0]] + Join(rest, sep);
      }
    }
  }

  /** A part free of the separator splits off whole in front of the rest. */
  lemma {:induction false} SplitPrefix(p: string, t: string, sep: char)
    requires sep !in p
    ensures Split(p + t, sep) == [p + Split(t, sep)[0]] + Split(t, sep)[1..]
    decreases |p|
  {
    var rest := Split(t, sep);
    if p == [] {
      assert p + t == t && p + rest[0] == rest[0];
    } else {
      assert (p + t)[0] == p[0] && (p + t)[1..] == p[1..] + t;
      SplitPrefix(p[1..], t, sep);
      assert [p[0]] + (p[1..] + rest[0]) == p + rest[0];
    }
  }

  /** Splitting a join of separator-free parts gives back the parts. */
  lemma {:induction false} SplitJoin(parts: seq<string>, sep: char)
    requires |parts| >= 1
    requires forall i :: 0 <= i < |parts| ==> sep !in parts[i]
    ensures Split(Join(parts, sep), sep) == parts
    decreases |parts|
  {
    if |parts| == 1 {
      SplitPrefix(parts[0], [], sep);
      assert parts[0] + [] == parts[0];
    } else {
      var tail := Join(parts[1..], sep);
      SplitJoin(parts[1..], sep);
      assert parts[0] + [sep] + tail == parts[0] + ([sep] + tail);
      SplitPrefix(parts[0], [sep] + tail, sep);
      assert ([sep] + tail)[1..] == tail;
      assert parts[0] + [] == parts[0];
    }
  }

  /** The white space and line terminators `parseInt` skips before the number. */
  predicate IsSpace(c: char) {
    var n := c as int;
    n == 0x09 || n == 0x0A || n == 0x0B || n == 0x0C || n == 0x0D || n == 0x20
    || n == 0xA0 || n == 0x1680 || (0x2000 <= n <= 0x200A) || n == 0x2028
    || n == 0x2029 || n == 0x202F || n == 0x205F || n == 0x3000 || n == 0xFEFF
  }

  /** `s` without its leading white space. */
  function TrimStart(s: string): (t: string)
    ensures |t| <= |s| && t == s[|s| - |t|..]
    ensures t == [] || !IsSpace(t[0])
    ensures forall i :: 0 <= i < |s| - |t| ==> IsSpace(s[i])
    decreases |s|
  {
    if s != [] && IsSpace(s[0]) then TrimStart(s[1..]) else s
  }

  /** The value of `c` as a digit of radix up to 36, or 36 when it is none. */
  function DigitValue(c: char): (d: nat)
    ensures d <= 36
  {
    if '0' <= c <= '9' then c as int - '0' as int
    else if 'a' <= c <= 'z' then c as int - 'a' as int + 10
    else if 'A' <= c <= 'Z' then c as int - 'A' as int + 10
    else 36
  }

  predicate IsDigit(c: char, radix: nat) {
    DigitValue(c) < radix
  }

  /** The length of the longest prefix of `s` made of digits of `radix`. */
  function DigitRun(s: string, radix: nat): (n: nat)
    ensures n <= |s|
    ensures forall i :: 0 <= i < n ==> IsDigit(s[i], radix)
    ensures n < |s| ==> !IsDigit(s[n], radix)
    decreases |s|
  {
    if s != [] && IsDigit(s[0], radix) then 1 + DigitRun(s[1..], radix) else 0
  }

  /** The value of the digit string `s` in `radix`, most significant digit first. */
  function DigitsValue(s: string, radix: nat): nat
    decreases |s|
  {
    if s == [] then 0 else DigitsValue(s[..|s| - 1], radix) * radix + DigitValue(s[|s| - 1])
  }

  /**
   * `parseInt(s)`: leading white space is skipped, then an optional sign,
   * and what follows is read as an unsigned number.
   */
  function ParseInt(s: string): Option<int> {
    var t := TrimStart(s);
    if t != [] && t[0] == '-' then
      match ParseUnsigned(t[1..])
      case None => None
      case Some(v) => Some(-v)
    else if t != [] && t[0] == '+' then ParseUnsigned(t[1..])
    else ParseUnsigned(t)
  }

  /**
   * `parseInt` yields a number only when, after the white space, a sign or
   * a decimal digit comes first, and a negative one only after a minus.
   */
  lemma ParseIntShape(s: string)
    ensures var t := TrimStart(s);
      ParseInt(s).Some? ==> t != [] && (t[0] == '-' || t[0] == '+' || IsDigit(t[0], 10))
    ensures ParseInt(s).Some? && ParseInt(s).value < 0 ==> TrimStart(s)[0] == '-'
  {
    var t := TrimStart(s);
    if t != [] && (t[0] == '-' || t[0] == '+') {
      UnsignedShape(t[1..]);
    } else {
      UnsignedShape(t);
    }
  }

  /** What follows the sign is a number only if it starts with a decimal digit, and is never negative. */
  lemma UnsignedShape(u: string)
    ensures ParseUnsigned(u).Some? ==> u != [] && IsDigit(u[0], 10) && ParseUnsigned(u).value >= 0
  {
    if |u| >= 2 && u[0] == '0' && (u[1] == 'x' || u[1] == 'X') {
      assert IsDigit(u[0], 10);
    } else {
      assert DigitRun(u, 10) > 0 ==> IsDigit(u[0], 10);
    }
  }

  /** A `0x` or `0X` prefix selects radix 16, otherwise the radix is 10. */
  function ParseUnsigned(u: string): Option<int> {
    if |u| >= 2 && u[0] == '0' && (u[1] == 'x' || u[1] == 'X') then ParseRadix(u[2..], 16)
    else ParseRadix(u, 10)
  }

  /** The longest run of digits in front of `v` is the number; without one it is `NaN`. */
  function ParseRadix(v: string, radix: nat): Option<int> {
    var n := DigitRun(v, radix);
    if n == 0 then None else Some(DigitsValue(v[..n], radix))
  }

  /** The decimal numeral of `n`, as `String(n)` writes it. */
  function Decimal(n: nat): (s: string)
    ensures s != []
    ensures forall i :: 0 <= i < |s| ==> '0' <= s[i] <= '9'
    ensures n > 0 ==> s[0] != '0'
  {
    if n < 10 then ["0123456789"[n]] else Decimal(n / 10) + ["0123456789"[n % 10]]
  }

  lemma {:induction false} DecimalValue(n: nat)
    ensures DigitsValue(Decimal(n), 10) == n
  {
    var d := "0123456789"[n % 10];
    DigitOf(n % 10);
    var s := Decimal(n);
    if n >= 10 {
      assert s == Decimal(n / 10) + [d];
      assert s[..|s| - 1] == Decimal(n / 10) && s[|s| - 1] == d;
      DecimalValue(n / 10);
      assert DigitsValue(s, 10) == n / 10 * 10 + n % 10;
    } else {
      assert s[..|s| - 1] == [] && s[|s| - 1] == d;
    }
  }

  /** The numeral `Decimal` writes for a digit has that digit's value. */
  lemma DigitOf(k: nat)
    requires k < 10
    ensures DigitValue("0123456789"[k]) == k
  {
  }

  /** `parseInt` reads back every decimal numeral. */
  lemma ParseDecimal(n: nat)
    ensures ParseInt(Decimal(n)) == Some(n)
  {
    ParseDigits(Decimal(n));
    DecimalValue(n);
  }

  /** `parseInt` of a string of decimal digits is their value. */
  lemma ParseDigits(s: string)
    requires s != [] && forall i :: 0 <= i < |s| ==> '0' <= s[i] <= '9'
    ensures ParseInt(s) == Some(DigitsValue(s, 10))
  {
    assert !IsSpace(s[0]);
    assert TrimStart(s) == s;
    assert |s| >= 2 ==> s[1] != 'x' && s[1] != 'X';
    DecimalRun(s);
    assert s[..|s|] == s;
    assert ParseRadix(s, 10) == Some(DigitsValue(s, 10));
  }

  /** A string of decimal digits is one whole run of digits. */
  lemma DecimalRun(s: string)
    requires forall i :: 0 <= i < |s| ==> '0' <= s[i] <= '9'
    ensures DigitRun(s, 10) == |s|
  {
    var n := DigitRun(s, 10);
    if n < |s| {
      assert IsDigit(s[n], 10);
    }
  }

  /**
   * A numeral with a `0x` prefix is read in radix 16: `parseInt` of `0x`
   * followed by hexadecimal digits is their value.
   */
  lemma ParseHex(h: string)
    requires h != [] && forall i :: 0 <= i < |h| ==> IsDigit(h[i], 16)
    ensures ParseInt("0x" + h) == Some(DigitsValue(h, 16))
  {
    var t := "0x" + h;
    assert !IsSpace(t[0]) && TrimStart(t) == t;
    assert t[2..] == h;
    RadixRun(h, 16);
    assert h[..|h|] == h;
  }

  /** The lower-case hexadecimal numeral of `n`, as `n.toString(16)` writes it. */
  function Hex(n: nat): (s: string)
    ensures s != []
    ensures forall i :: 0 <= i < |s| ==> IsDigit(s[i], 16)
  {
    HexDigit(n % 16);
    if n < 16 then ["0123456789abcdef"[n]] else Hex(n / 16) + ["0123456789abcdef"[n % 16]]
  }

  /** The hexadecimal digit written for `k` has value `k`. */
  lemma HexDigit(k: nat)
    requires k < 16
    ensures DigitValue("0123456789abcdef"[k]) == k
  {
  }

  lemma {:induction false} HexValue(n: nat)
    ensures DigitsValue(Hex(n), 16) == n
  {
    var d := "0123456789abcdef"[n % 16];
    HexDigit(n % 16);
    if n >= 16 {
      HexValue(n / 16);
      DigitsSnoc(Hex(n / 16), d, 16);
    } else {
      DigitsSnoc([], d, 16);
      assert [] + [d] == Hex(n);
    }
  }

  /** Appending a digit multiplies the value by the radix and adds the digit. */
  lemma DigitsSnoc(p: string, c: char, radix: nat)
    ensures DigitsValue(p + [c], radix) == DigitsValue(p, radix) * radix + DigitValue(c)
  {
    assert (p + [c])[..|p|] == p;
  }

  /** `parseInt` reads back every `0x`-prefixed hexadecimal numeral. */
  lemma ParseHexNumeral(n: nat)
    ensures ParseInt("0x" + Hex(n)) == Some(n)
  {
    ParseHex(Hex(n));
    HexValue(n);
  }

  /** A string of digits of `radix` is one whole run of digits. */
  lemma {:induction false} RadixRun(s: string, radix: nat)
    requires forall i :: 0 <= i < |s| ==> IsDigit(s[i], radix)
    ensures DigitRun(s, radix) == |s|
    decreases |s|
  {
    if s != [] {
      RadixRun(s[1..], radix);
    }
  }

  /** `parseInt(undefined)` reads the string "undefined" and yields `NaN`. */
  lemma ParseUndefined()
    ensures ParseInt("undefined") == None
  {
    var u := "undefined";
    assert u[0] == 'u' && DigitValue('u') == 30;
    ParseNonNumeral(u);
  }

  /** A string that starts with neither white space, a sign nor a digit is `NaN`. */
  lemma ParseNonNumeral(s: string)
    requires s != [] && !IsSpace(s[0]) && s[0] != '-' && s[0] != '+' && !IsDigit(s[0], 10)
    ensures ParseInt(s) == None
  {
    assert TrimStart(s) == s;
    assert DigitRun(s, 10) == 0;
  }
}
