/** The fragments of JavaScript value semantics that the three pages rely on:
    truthiness of strings, the `Number(s)` conversion, the decimal rendering of an
    integer inside a template literal, and the relational operator `>`. */
module Js {

  /** A value that may be missing: JavaScript's `undefined` and `null` are `None`. */
  datatype Option<+T> = None | Some(value: T)

  /** A property read that yields a string or `undefined`. */
  datatype Primitive = Undefined | Str(s: string)

  /** `s ? … : …` on a string: only the empty string is falsy. */
  predicate StringTruthy(s: string)
  {
    s != ""
  }

  // ---------------------------------------------------------------------------
  // Decimal digits
  // ---------------------------------------------------------------------------

  predicate IsDigit(c: char)
  {
    '0' <= c <= '9'
  }

  predicate AllDigits(s: string)
  {
    forall i :: 0 <= i < |s| ==> IsDigit(s[i])
  }

  function DigitValue(c: char): nat
    requires IsDigit(c)
  {
    (c as int) - ('0' as int)
  }

  function DigitChar(d: nat): (c: char)
    requires d < 10
    ensures IsDigit(c) && DigitValue(c) == d
  {
    ('0' as int + d) as char
  }

  /** The value of a string of decimal digits, most significant digit first. */
  function DigitsValue(s: string): nat
    requires AllDigits(s)
  {
    if |s| == 0 then 0 else DigitsValue(s[..|s| - 1]) * 10 + DigitValue(s[|s| - 1])
  }

  /** The shortest decimal rendering of a natural number. */
  function NatToString(n: nat): string
  {
    if n < 10 then [DigitChar(n)] else NatToString(n / 10) + [DigitChar(n % 10)]
  }

  /** `${n}` for an integer-valued number: an optional minus sign and the
      shortest decimal digits. */
  function IntToString(n: int): string
  {
    if n < 0 then "-" + NatToString(-n) else NatToString(n)
  }

  lemma {:induction false} NatToStringDigits(n: nat)
    ensures |NatToString(n)| > 0
    ensures AllDigits(NatToString(n))
    ensures DigitsValue(NatToString(n)) == n
  {
    if n >= 10 {
      NatToStringDigits(n / 10);
      var s := NatToString(n);
      assert s[..|s| - 1] == NatToString(n / 10);
    }
  }

  // ---------------------------------------------------------------------------
  // Number(s)
  // ---------------------------------------------------------------------------

  /** The characters that StringToNumber strips from both ends of its argument:
      WhiteSpace (tab, vertical tab, form feed, zero-width no-break space and every
      space separator of Unicode category Zs) and LineTerminator (line feed,
      carriage return, line and paragraph separators), sections 12.2 and 12.3 of
      ECMA-262. */
  predicate IsStrWhiteSpace(c: char)
  {
    || c == '\t' || c == '\U{000B}' || c == '\U{000C}' || c == '\U{FEFF}'
    || c == ' ' || c == '\U{00A0}' || c == '\U{1680}'
    || ('\U{2000}' <= c <= '\U{200A}')
    || c == '\U{202F}' || c == '\U{205F}' || c == '\U{3000}'
    || c == '\n' || c == '\r' || c == '\U{2028}' || c == '\U{2029}'
  }

  function TrimStart(s: string): (t: string)
    ensures |t| <= |s|
    ensures t == s[|s| - |t|..]
    ensures |t| > 0 ==> !IsStrWhiteSpace(t[0])
  {
    if |s| > 0 && IsStrWhiteSpace(s[0]) then TrimStart(s[1..]) else s
  }

  function TrimEnd(s: string): (t: string)
    ensures |t| <= |s|
    ensures t == s[..|t|]
    ensures |t| > 0 ==> !IsStrWhiteSpace(t[|t| - 1])
  {
    if |s| > 0 && IsStrWhiteSpace(s[|s| - 1]) then TrimEnd(s[..|s| - 1]) else s
  }

  function Trim(s: string): string
  {
    TrimEnd(TrimStart(s))
  }

  /** `Number(s)` for the forms an identifier in a query string takes: after
      trimming white space, the empty string is 0 and an optional sign followed by
      decimal digits is that integer. Every other string is `None`, which stands for
      NaN (a number equal to no station identifier). */
  function NumberOf(s: string): Option<int>
  {
    NumberOfTrimmed(Trim(s))
  }

  function NumberOfTrimmed(t: string): Option<int>
  {
    if t == "" then Some(0)
    else if t[0] == '-' && |t| > 1 && AllDigits(t[1..]) then Some(-(DigitsValue(t[1..]) as int))
    else if t[0] == '+' && |t| > 1 && AllDigits(t[1..]) then Some(DigitsValue(t[1..]))
    else if AllDigits(t) then Some(DigitsValue(t))
    else None
  }

  /** A string with no white space at either end is its own trimming. */
  lemma TrimUnpadded(s: string)
    requires |s| > 0 && !IsStrWhiteSpace(s[0]) && !IsStrWhiteSpace(s[|s| - 1])
    ensures Trim(s) == s
  {
    assert TrimStart(s) == s;
  }

  /** `Number` of a string of decimal digits is their value. */
  lemma NumberOfDigits(d: string)
    requires |d| > 0 && AllDigits(d)
    ensures NumberOf(d) == Some(DigitsValue(d))
  {
    assert IsDigit(d[0]) && IsDigit(d[|d| - 1]);
    TrimUnpadded(d);
    assert NumberOfTrimmed(d) == Some(DigitsValue(d));
  }

  /** `Number` of a minus sign and decimal digits is their negated value. */
  lemma NumberOfNegative(d: string)
    requires |d| > 0 && AllDigits(d)
    ensures NumberOf("-" + d) == Some(-(DigitsValue(d) as int))
  {
    var m := "-" + d;
    assert m[1..] == d;
    assert IsDigit(d[|d| - 1]) && m[|m| - 1] == d[|d| - 1];
    TrimUnpadded(m);
    NumberOfTrimmedNegative(d);
  }

  /** Before trimming is taken into account: a minus sign and digits reads as
      the negated value. */
  lemma NumberOfTrimmedNegative(d: string)
    requires |d| > 0 && AllDigits(d)
    ensures NumberOfTrimmed("-" + d) == Some(-(DigitsValue(d) as int))
  {
    assert ("-" + d)[1..] == d;
  }

  /** Reading back what a template literal wrote: `Number(`${n}`) === n`. */
  lemma IntToStringRoundTrip(n: int)
    ensures NumberOf(IntToString(n)) == Some(n)
  {
    if n < 0 {
      NatToStringDigits(-n);
      NumberOfNegative(NatToString(-n));
    } else {
      NatToStringDigits(n);
      NumberOfDigits(NatToString(n));
    }
  }

  /** Distinct integers are rendered differently. */
  lemma IntToStringInjective(m: int, n: int)
    requires IntToString(m) == IntToString(n)
    ensures m == n
  {
    IntToStringRoundTrip(m);
    IntToStringRoundTrip(n);
  }

  // ---------------------------------------------------------------------------
  // Relational comparison
  // ---------------------------------------------------------------------------

  /** `a < b` on two strings: lexicographic order of the characters, a proper
      prefix coming first. */
  predicate StringLess(a: string, b: string)
  {
    if |a| == 0 then |b| > 0
    else if |b| == 0 then false
    else if a[0] != b[0] then a[0] < b[0]
    else StringLess(a[1..], b[1..])
  }

  lemma {:induction false} StringLessIrreflexive(a: string)
    ensures !StringLess(a, a)
  {
    if |a| > 0 {
      StringLessIrreflexive(a[1..]);
    }
  }

  lemma {:induction false} StringLessAsymmetric(a: string, b: string)
    requires StringLess(a, b)
    ensures !StringLess(b, a)
  {
    if |a| > 0 && |b| > 0 && a[0] == b[0] {
      StringLessAsymmetric(a[1..], b[1..]);
    }
  }

  lemma {:induction false} StringLessTransitive(a: string, b: string, c: string)
    requires StringLess(a, b) && StringLess(b, c)
    ensures StringLess(a, c)
  {
    if |a| > 0 && |b| > 0 && |c| > 0 && a[0] == b[0] && b[0] == c[0] {
      StringLessTransitive(a[1..], b[1..], c[1..]);
    }
  }

  /** Any two distinct strings are ordered one way or the other. */
  lemma {:induction false} StringLessTotal(a: string, b: string)
    requires a != b
    ensures StringLess(a, b) || StringLess(b, a)
  {
    if |a| > 0 && |b| > 0 && a[0] == b[0] {
      assert a == [a[0]] + a[1..] && b == [b[0]] + b[1..];
      StringLessTotal(a[1..], b[1..]);
    }
  }

  /** "Not less than" is transitive, so a list with no adjacent inversion has
      none at all. */
  lemma NotLessTransitive(a: string, b: string, c: string)
    requires !StringLess(a, b) && !StringLess(b, c)
    ensures !StringLess(a, c)
  {
    if StringLess(a, c) {
      if a == b {
        assert false;
      } else if b == c {
        assert false;
      } else {
        StringLessTotal(a, b);
        StringLessTotal(b, c);
        StringLessTransitive(c, b, a);
        StringLessAsymmetric(a, c);
      }
    }
  }

  /** `x > y` (section 7.2.13 of ECMA-262, IsLessThan with the operands swapped):
      two strings compare lexicographically; once either side is `undefined` it
      converts to NaN and the comparison is false. */
  predicate GreaterThan(x: Primitive, y: Primitive)
  {
    x.Str? && y.Str? && StringLess(y.s, x.s)
  }

  lemma GreaterThanUndefined(x: Primitive)
    ensures !GreaterThan(x, Undefined) && !GreaterThan(Undefined, x)
  {
  }
}
