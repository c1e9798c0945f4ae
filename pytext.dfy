/**
 * The part of Python's built-in string and number behaviour that the core relies on:
 * `str.split` and `str.join` with a one-character separator, `str.strip`, `int()` on a
 * string, `float()` on a plain decimal literal, `int()` on a float, the `in` operator and
 * `str.replace(p, "")` on strings, and printf-style `%` formatting with str arguments.
 */
module PyText {
  import opened Wrappers

  predicate IsDigit(c: char) { '0' <= c <= '9' }

  predicate IsLower(c: char) { 'a' <= c <= 'z' }

  /** The ASCII characters that `str.strip`, `int()` and `float()` treat as whitespace. */
  predicate IsSpace(c: char) { c == ' ' || '\t' <= c <= '\r' || '\U{1C}' <= c <= '\U{1F}' }

  predicate AllDigits(s: string) { forall i :: 0 <= i < |s| ==> IsDigit(s[i]) }

  predicate AllSpaces(s: string) { forall i :: 0 <= i < |s| ==> IsSpace(s[i]) }

  /** No whitespace at either end, as `str.strip` leaves a string. */
  predicate Stripped(s: string) { s == [] || (!IsSpace(s[0]) && !IsSpace(s[|s| - 1])) }

  // ---------------------------------------------------------------------------------------
  // s.split(sep) and sep.join(parts)
  // ---------------------------------------------------------------------------------------

  /** `s.split(sep)`: the pieces between the occurrences of sep; always at least one piece. */
  function Split(s: string, sep: char): (parts: seq<string>)
    ensures |parts| >= 1
    ensures forall i :: 0 <= i < |parts| ==> sep !in parts[i]
    decreases |s|
  {
    if |s| == 0 then [""]
    else
      var rest := Split(s[1..], sep);
      if s[0] == sep then [""] + rest
      else [[s[0]] + rest[0]] + rest[1..]
  }

  /** `sep.join(parts)`. */
  function Join(parts: seq<string>, sep: char): string
    requires |parts| >= 1
    decreases |parts|
  {
    if |parts| == 1 then parts[0] else parts[0] + [sep] + Join(parts[1..], sep)
  }

  /** Joining the pieces of a split gives back the original string. */
  lemma {:induction false} JoinOfSplit(s: string, sep: char)
    ensures Join(Split(s, sep), sep) == s
    decreases |s|
  {
    if |s| > 0 {
      JoinOfSplit(s[1..], sep);
      var rest := Split(s[1..], sep);
      if s[0] == sep {
        assert ([""] + rest)[1..] == rest;
      } else {
        var parts := [[s[0]] + rest[0]] + rest[1..];
        assert parts[1..] == rest[1..];
        if |rest| > 1 {
          assert Join(rest, sep) == rest[0] + [sep] + Join(rest[1..], sep);
        }
      }
      assert [s[0]] + s[1..] == s;
    }
  }

  lemma {:induction false} SplitOfPiece(a: string, sep: char)
    requires sep !in a
    ensures Split(a, sep) == [a]
    decreases |a|
  {
    if |a| > 0 {
      SplitOfPiece(a[1..], sep);
      assert [a[0]] + a[1..] == a;
    }
  }

  lemma {:induction false} SplitAfterPiece(a: string, r: string, sep: char)
    requires sep !in a
    ensures Split(a + [sep] + r, sep) == [a] + Split(r, sep)
    decreases |a|
  {
    if |a| == 0 {
      assert a + [sep] + r == [sep] + r;
      assert ([sep] + r)[1..] == r;
    } else {
      SplitAfterPiece(a[1..], r, sep);
      assert (a + [sep] + r)[1..] == a[1..] + [sep] + r;
      assert [a[0]] + a[1..] == a;
    }
  }

  /** Splitting a join of separator-free pieces gives back exactly those pieces. */
  lemma {:induction false} SplitOfJoin(parts: seq<string>, sep: char)
    requires |parts| >= 1
    requires forall i :: 0 <= i < |parts| ==> sep !in parts[i]
    ensures Split(Join(parts, sep), sep) == parts
    decreases |parts|
  {
    if |parts| == 1 {
      SplitOfPiece(parts[0], sep);
    } else {
      SplitOfJoin(parts[1..], sep);
      SplitAfterPiece(parts[0], Join(parts[1..], sep), sep);
      assert [parts[0]] + parts[1..] == parts;
    }
  }

  // ---------------------------------------------------------------------------------------
  // s.strip()
  // ---------------------------------------------------------------------------------------

  /** `s.strip()`: s without its leading and trailing whitespace. */
  function Strip(s: string): (r: string)
    ensures |r| <= |s|
    ensures Stripped(r)
    decreases |s|
  {
    if |s| > 0 && IsSpace(s[0]) then Strip(s[1..])
    else if |s| > 0 && IsSpace(s[|s| - 1]) then Strip(s[..|s| - 1])
    else s
  }

  /** Stripping removes exactly the whitespace padding around a stripped core. */
  lemma {:induction false} StripPadded(before: string, t: string, after: string)
    requires AllSpaces(before) && AllSpaces(after) && Stripped(t)
    ensures Strip(before + t + after) == t
    decreases |before| + |after|
  {
    var s := before + t + after;
    if |before| > 0 {
      assert s[0] == before[0];
      assert s[1..] == before[1..] + t + after;
      StripPadded(before[1..], t, after);
    } else if |after| > 0 {
      if t == [] {
        assert s == after;
        assert s[1..] == [] + [] + after[1..];
        StripPadded([], [], after[1..]);
      } else {
        assert s[0] == t[0];
        assert s[|s| - 1] == after[|after| - 1];
        assert s[..|s| - 1] == [] + t + after[..|after| - 1];
        StripPadded([], t, after[..|after| - 1]);
      }
    } else {
      assert s == t;
    }
  }

  // ---------------------------------------------------------------------------------------
  // Decimal digits
  // ---------------------------------------------------------------------------------------

  function DigitValue(c: char): nat
    requires IsDigit(c)
  {
    c as int - '0' as int
  }

  /** The number a run of decimal digits denotes (most significant digit first). */
  function DigitsValue(s: string): nat
    requires AllDigits(s)
    decreases |s|
  {
    if |s| == 0 then 0 else DigitsValue(s[..|s| - 1]) * 10 + DigitValue(s[|s| - 1])
  }

  function Pow10(k: nat): (p: nat)
    ensures p >= 1
  {
    if k == 0 then 1 else 10 * Pow10(k - 1)
  }

  /** k digits denote a number below 10^k. */
  lemma {:induction false} DigitsBelowPow10(s: string)
    requires AllDigits(s)
    ensures DigitsValue(s) < Pow10(|s|)
    decreases |s|
  {
    if |s| > 0 {
      DigitsBelowPow10(s[..|s| - 1]);
    }
  }

  function DigitChar(d: nat): (c: char)
    requires d < 10
    ensures IsDigit(c) && DigitValue(c) == d
  {
    ('0' as int + d) as char
  }

  /** `str(n)` for a natural number: its canonical decimal digits. */
  function NatToString(n: nat): (s: string)
    ensures |s| >= 1 && AllDigits(s)
    ensures DigitsValue(s) == n
    ensures |s| == 1 || s[0] != '0'
    decreases n
  {
    if n < 10 then [DigitChar(n)]
    else
      var prefix := NatToString(n / 10);
      var s := prefix + [DigitChar(n % 10)];
      assert s[..|s| - 1] == prefix;
      s
  }

  /** `str(i)` for an integer. */
  function IntToString(i: int): string
  {
    if i < 0 then "-" + NatToString(-i) else NatToString(i)
  }

  /** An optional leading sign: whether it is '-' and what follows it. */
  function SplitSign(t: string): (bool, string)
  {
    if |t| > 0 && (t[0] == '+' || t[0] == '-') then (t[0] == '-', t[1..]) else (false, t)
  }

  function Signed(negative: bool, v: int): int { if negative then -v else v }

  function SignedReal(negative: bool, v: real): real { if negative then -v else v }

  // ---------------------------------------------------------------------------------------
  // int(s) and float(s)
  // ---------------------------------------------------------------------------------------

  /**
   * `int(s)` on a str: surrounding whitespace, an optional sign and one or more decimal
   * digits. None stands for the ValueError Python raises on anything else.
   */
  function ParseInt(s: string): Option<int>
  {
    var sd := SplitSign(Strip(s));
    if |sd.1| > 0 && AllDigits(sd.1) then Some(Signed(sd.0, DigitsValue(sd.1))) else None
  }

  /** The exact value of the plain decimal literal `ip.fp`. */
  function DecimalValue(ip: string, fp: string): real
    requires AllDigits(ip) && AllDigits(fp)
  {
    DigitsValue(ip) as real + DigitsValue(fp) as real / Pow10(|fp|) as real
  }

  /**
   * `float(s)` on a plain decimal literal: surrounding whitespace, an optional sign, digits
   * with at most one '.', and at least one digit. The result is the literal's exact value.
   * None stands for the ValueError Python raises on anything this model does not accept.
   */
  function ParseDecimal(s: string): Option<real>
  {
    var sd := SplitSign(Strip(s));
    var parts := Split(sd.1, '.');
    if |parts| == 1 && |sd.1| > 0 && AllDigits(sd.1) then
      Some(SignedReal(sd.0, DigitsValue(sd.1) as real))
    else if |parts| == 2 && AllDigits(parts[0]) && AllDigits(parts[1]) && |parts[0]| + |parts[1]| > 0 then
      Some(SignedReal(sd.0, DecimalValue(parts[0], parts[1])))
    else
      None
  }

  /** `int(x)` on a float: truncation toward zero. */
  function TruncToInt(x: real): (n: int)
    ensures 0.0 <= x ==> n as real <= x < n as real + 1.0
    ensures x < 0.0 ==> n as real - 1.0 < x <= n as real
  {
    if x >= 0.0 then x.Floor else -((-x).Floor)
  }

  lemma NatToStringStripped(n: nat)
    ensures Stripped(NatToString(n)) && Stripped(IntToString(n)) && Stripped(IntToString(-(n as int)))
    ensures '.' !in NatToString(n)
  {
    var s := NatToString(n);
    assert IsDigit(s[0]) && IsDigit(s[|s| - 1]);
    DigitsAvoid(s, '.');
  }

  lemma DigitsAvoid(s: string, c: char)
    requires AllDigits(s) && !IsDigit(c)
    ensures c !in s
  {
    forall i | 0 <= i < |s|
      ensures s[i] != c
    {
      assert IsDigit(s[i]);
    }
  }

  /** int() reads back what str() writes, whatever whitespace surrounds it. */
  lemma ParseIntOfIntToString(before: string, i: int, after: string)
    requires AllSpaces(before) && AllSpaces(after)
    ensures ParseInt(before + IntToString(i) + after) == Some(i)
  {
    var n: nat := if i < 0 then -i else i;
    NatToStringStripped(n);
    StripPadded(before, IntToString(i), after);
    if i < 0 {
      assert ("-" + NatToString(n))[1..] == NatToString(n);
    }
  }

  /** float() reads back the integer that str() writes. */
  lemma ParseDecimalOfIntToString(i: int)
    ensures ParseDecimal(IntToString(i)) == Some(i as real)
  {
    var n: nat := if i < 0 then -i else i;
    NatToStringStripped(n);
    StripPadded("", IntToString(i), "");
    assert "" + IntToString(i) + "" == IntToString(i);
    if i < 0 {
      assert ("-" + NatToString(n))[1..] == NatToString(n);
    }
    SplitOfPiece(NatToString(n), '.');
  }

  /** The fractional part of a decimal literal is below one. */
  lemma FractionBelowOne(fp: string)
    requires AllDigits(fp)
    ensures 0.0 <= DigitsValue(fp) as real / Pow10(|fp|) as real < 1.0
  {
    DigitsBelowPow10(fp);
    var a := DigitsValue(fp) as real;
    var b := Pow10(|fp|) as real;
    assert 0.0 <= a < b;
    QuotientBelowOne(a, b);
  }

  lemma QuotientBelowOne(a: real, b: real)
    requires 0.0 <= a < b
    ensures 0.0 <= a / b < 1.0
  {
  }

  /** float() of a literal `[-]ip.fp` is its exact value. */
  lemma ParseDecimalLiteral(negative: bool, ip: string, fp: string)
    requires AllDigits(ip) && AllDigits(fp) && |ip| + |fp| > 0
    ensures ParseDecimal((if negative then "-" else "") + ip + "." + fp)
            == Some(SignedReal(negative, DecimalValue(ip, fp)))
  {
    var body := ip + "." + fp;
    var s := (if negative then "-" else "") + body;
    assert (if negative then "-" else "") + ip + "." + fp == s;
    assert Stripped(s) by {
      assert |s| > 0;
      assert s[0] == '-' || s[0] == '.' || IsDigit(s[0]);
      assert s[|s| - 1] == '.' || IsDigit(s[|s| - 1]);
    }
    StripPadded("", s, "");
    assert "" + s + "" == s;
    if negative {
      assert s[0] == '-' && s[1..] == body;
    } else {
      assert s == body;
      assert body[0] == '.' || IsDigit(body[0]);
    }
    DigitsAvoid(ip, '.');
    DigitsAvoid(fp, '.');
    assert Join([ip, fp], '.') == body;
    SplitOfJoin([ip, fp], '.');
    ParseDecimalOfParts(s, negative, body, ip, fp);
  }

  lemma ParseDecimalOfParts(s: string, negative: bool, body: string, ip: string, fp: string)
    requires Strip(s) == s && SplitSign(s) == (negative, body) && Split(body, '.') == [ip, fp]
    requires AllDigits(ip) && AllDigits(fp) && |ip| + |fp| > 0
    ensures ParseDecimal(s) == Some(SignedReal(negative, DecimalValue(ip, fp)))
  {
  }

  /** int() of the value of a literal `[-]ip.fp` is the integer part with the literal's sign. */
  lemma TruncateDecimalValue(negative: bool, ip: string, fp: string)
    requires AllDigits(ip) && AllDigits(fp)
    ensures TruncToInt(SignedReal(negative, DecimalValue(ip, fp))) == Signed(negative, DigitsValue(ip))
  {
    FractionBelowOne(fp);
    var v := DigitsValue(ip);
    var f := DigitsValue(fp) as real / Pow10(|fp|) as real;
    assert DecimalValue(ip, fp) == v as real + f;
    var n := TruncToInt(SignedReal(negative, v as real + f));
    if negative {
      if v == 0 && f == 0.0 {
        assert n == 0;
      } else {
        assert n as real - 1.0 < -(v as real + f) <= n as real;
      }
    }
  }

  /**
   * int(float(t)) for a literal `[-]ip.fp`: the fraction is truncated toward zero.
   */
  lemma TruncateDecimalLiteral(negative: bool, ip: string, fp: string)
    requires AllDigits(ip) && AllDigits(fp) && |ip| + |fp| > 0
    ensures ParseDecimal((if negative then "-" else "") + ip + "." + fp).Some?
    ensures TruncToInt(ParseDecimal((if negative then "-" else "") + ip + "." + fp).value)
            == Signed(negative, DigitsValue(ip))
  {
    ParseDecimalLiteral(negative, ip, fp);
    TruncateDecimalValue(negative, ip, fp);
  }

  // ---------------------------------------------------------------------------------------
  // p in s, and s.replace(p, "")
  // ---------------------------------------------------------------------------------------

  predicate StartsWith(s: string, p: string) { |p| <= |s| && s[..|p|] == p }

  /** Python's `p in s` for strings. */
  predicate Contains(s: string, p: string)
  {
    exists i :: 0 <= i <= |s| && StartsWith(s[i..], p)
  }

  /** `s.replace(p, "")`: the non-overlapping occurrences of p, found left to right, removed. */
  function RemoveAll(s: string, p: string): (r: string)
    requires |p| > 0
    ensures |r| <= |s|
    decreases |s|
  {
    if |s| == 0 then s
    else if StartsWith(s, p) then RemoveAll(s[|p|..], p)
    else [s[0]] + RemoveAll(s[1..], p)
  }

  lemma ContainsOfTail(s: string, p: string)
    requires |s| > 0 && Contains(s[1..], p)
    ensures Contains(s, p)
  {
    var i :| 0 <= i <= |s[1..]| && StartsWith(s[1..][i..], p);
    assert s[1..][i..] == s[i + 1..];
  }

  /** Removing a pattern that does not occur changes nothing. */
  lemma {:induction false} RemoveAllAbsent(s: string, p: string)
    requires |p| > 0 && !Contains(s, p)
    ensures RemoveAll(s, p) == s
    decreases |s|
  {
    if |s| > 0 {
      assert !StartsWith(s[0..], p);
      assert s[0..] == s;
      if Contains(s[1..], p) { ContainsOfTail(s, p); }
      RemoveAllAbsent(s[1..], p);
      assert [s[0]] + s[1..] == s;
    }
  }

  /** Removing p from p + t, where t has no occurrence of p, leaves t. */
  lemma RemoveAllPrefix(p: string, t: string)
    requires |p| > 0 && !Contains(t, p)
    ensures RemoveAll(p + t, p) == t
  {
    assert (p + t)[..|p|] == p;
    assert (p + t)[|p|..] == t;
    RemoveAllAbsent(t, p);
  }

  /** A string where the first three characters of p never appear in a row does not contain p. */
  lemma NoOccurrence(t: string, p: string)
    requires |p| >= 3
    requires forall i :: 0 <= i < |t| - 2 ==> !(t[i] == p[0] && t[i + 1] == p[1] && t[i + 2] == p[2])
    ensures !Contains(t, p)
  {
    forall i | 0 <= i <= |t|
      ensures !StartsWith(t[i..], p)
    {
      if i < |t| - 2 {
        assert t[i..][0] == t[i] && t[i..][1] == t[i + 1] && t[i..][2] == t[i + 2];
      }
    }
  }

  // ---------------------------------------------------------------------------------------
  // fmt % args
  // ---------------------------------------------------------------------------------------

  function Prepend(a: string, r: Result<string, Exception>): Result<string, Exception>
  {
    match r
    case Ok(s) => Ok(a + s)
    case Err(e) => Err(e)
  }

  function LeadingDigits(s: string): (k: nat)
    ensures k <= |s|
    decreases |s|
  {
    if |s| > 0 && IsDigit(s[0]) then 1 + LeadingDigits(s[1..]) else 0
  }

  /**
   * Python's `fmt % args` when every argument is a str, for the conversions `%s`, `%%` and
   * `%d` preceded by flag and width digits. A `%d` conversion raises TypeError whether an
   * argument is left (a str is not a number) or not; too few or too many arguments raise
   * TypeError; a trailing `%` raises ValueError. Other conversions (`%r`, `%x`, a `-` flag
   * as in `%-5d`, ...) are outside the model: the ValueError they yield here only marks
   * that, where Python would format them or raise TypeError for a str argument. The only
   * format strings the model applies are the frame patterns of generate_images.
   */
  function PercentFormat(fmt: string, args: seq<string>): Result<string, Exception>
    decreases |fmt|
  {
    if |fmt| == 0 then
      if |args| == 0 then Ok("") else Err(TypeError)
    else if fmt[0] != '%' then Prepend([fmt[0]], PercentFormat(fmt[1..], args))
    else if |fmt| == 1 then Err(ValueError)
    else if fmt[1] == '%' then Prepend("%", PercentFormat(fmt[2..], args))
    else if fmt[1] == 's' then
      if |args| == 0 then Err(TypeError) else Prepend(args[0], PercentFormat(fmt[2..], args[1..]))
    else
      var k := 1 + LeadingDigits(fmt[1..]);
      if k == |fmt| then Err(ValueError)
      else if fmt[k] == 'd' then Err(TypeError)
      else Err(ValueError)
  }

  /** Text without '%' is copied to the output unchanged. */
  lemma {:induction false} PercentFormatLiteral(lit: string, rest: string, args: seq<string>)
    requires '%' !in lit
    ensures PercentFormat(lit + rest, args) == Prepend(lit, PercentFormat(rest, args))
    decreases |lit|
  {
    if |lit| == 0 {
      assert lit + rest == rest;
      match PercentFormat(rest, args)
      case Ok(s) => assert lit + s == s;
      case Err(_) =>
    } else {
      var f := lit + rest;
      assert f[0] == lit[0];
      assert f[1..] == lit[1..] + rest;
      PercentFormatLiteral(lit[1..], rest, args);
      match PercentFormat(rest, args)
      case Ok(s) => assert [lit[0]] + (lit[1..] + s) == lit + s;
      case Err(_) =>
    }
  }

  /** `%s` takes the next argument. */
  lemma PercentFormatString(rest: string, a: string, args: seq<string>)
    ensures PercentFormat("%s" + rest, [a] + args) == Prepend(a, PercentFormat(rest, args))
  {
    var f := "%s" + rest;
    assert f[0] == '%' && f[1] == 's' && f[2..] == rest;
    assert ([a] + args)[0] == a && ([a] + args)[1..] == args;
  }

  /** `%%` is a literal percent sign. */
  lemma PercentFormatPercent(rest: string, args: seq<string>)
    ensures PercentFormat("%%" + rest, args) == Prepend("%", PercentFormat(rest, args))
  {
    var f := "%%" + rest;
    assert f[0] == '%' && f[1] == '%' && f[2..] == rest;
  }

  /** A `%d` conversion raises TypeError when the arguments are strs or used up. */
  lemma PercentFormatNumber(width: string, rest: string, args: seq<string>)
    requires AllDigits(width)
    ensures PercentFormat("%" + width + "d" + rest, args) == Err(TypeError)
  {
    var f := "%" + width + "d" + rest;
    assert f[1..] == width + ("d" + rest);
    LeadingDigitsOf(width, "d" + rest);
    assert f[1 + |width|] == 'd';
  }

  lemma {:induction false} LeadingDigitsOf(width: string, rest: string)
    requires AllDigits(width) && (rest == [] || !IsDigit(rest[0]))
    ensures LeadingDigits(width + rest) == |width|
    decreases |width|
  {
    if |width| == 0 {
      assert width + rest == rest;
    } else {
      assert (width + rest)[0] == width[0];
      assert (width + rest)[1..] == width[1..] + rest;
      LeadingDigitsOf(width[1..], rest);
    }
  }
}
