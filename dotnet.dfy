/**
 * The behaviour of the .NET library calls the core leans on, written out
 * where the core depends on it: `String.Split`, `int.Parse` and
 * `int.ToString`, LINQ `Take`/`Skip`, `ToUpperInvariant` on ASCII text.
 */
module DotNet {

  const Int32Max: int := 0x7fff_ffff
  const Int32Min: int := -0x8000_0000

  // ---------------------------------------------------------------- Split

  /** `s.Split(new[] { d })`: every piece between delimiters, empty pieces included. */
  function Split(s: string, d: char): (parts: seq<string>)
    ensures |parts| >= 1
    ensures forall i :: 0 <= i < |parts| ==> d !in parts[i]
    decreases |s|
  {
    if |s| == 0 then [""]
    else
      var rest := Split(s[1..], d);
      if s[0] == d then [""] + rest
      else [[s[0]] + rest[0]] + rest[1..]
  }

  /** `String.Join(d, parts)`. */
  function Join(parts: seq<string>, d: char): string
    requires |parts| >= 1
    decreases |parts|
  {
    if |parts| == 1 then parts[0] else parts[0] + [d] + Join(parts[1..], d)
  }

  /** A string without the delimiter splits into itself. */
  lemma {:induction false} SplitNoDelimiter(a: string, d: char)
    requires d !in a
    ensures Split(a, d) == [a]
    decreases |a|
  {
    if |a| > 0 {
      SplitNoDelimiter(a[1..], d);
      assert [a[0]] + a[1..] == a;
    }
  }

  /** Splitting at the first delimiter: the piece before it comes first. */
  lemma {:induction false} SplitAtDelimiter(a: string, b: string, d: char)
    requires d !in a
    ensures Split(a + [d] + b, d) == [a] + Split(b, d)
    decreases |a|
  {
    var s := a + [d] + b;
    if |a| == 0 {
      assert s[1..] == b;
    } else {
      assert s[1..] == a[1..] + [d] + b;
      SplitAtDelimiter(a[1..], b, d);
      assert [a[0]] + a[1..] == a;
    }
  }

  /** Split undoes Join when no piece holds the delimiter. */
  lemma {:induction false} SplitJoin(parts: seq<string>, d: char)
    requires |parts| >= 1
    requires forall i :: 0 <= i < |parts| ==> d !in parts[i]
    ensures Split(Join(parts, d), d) == parts
    decreases |parts|
  {
    if |parts| == 1 {
      SplitNoDelimiter(parts[0], d);
    } else {
      SplitJoin(parts[1..], d);
      SplitAtDelimiter(parts[0], Join(parts[1..], d), d);
      assert [parts[0]] + parts[1..] == parts;
    }
  }

  /** Joining two lists of pieces is joining their joins with one delimiter between. */
  lemma {:induction false} JoinAppend(a: seq<string>, b: seq<string>, d: char)
    requires |a| >= 1 && |b| >= 1
    ensures Join(a + b, d) == Join(a, d) + [d] + Join(b, d)
    decreases |a|
  {
    if |a| == 1 {
      assert (a + b)[1..] == b;
    } else {
      JoinAppend(a[1..], b, d);
      assert (a + b)[1..] == a[1..] + b;
    }
  }

  /** Splitting two texts joined by the delimiter splits each of them. */
  lemma SplitAppend(s: string, tail: string, d: char)
    ensures Split(s + [d] + tail, d) == Split(s, d) + Split(tail, d)
  {
    var whole := Split(s, d) + Split(tail, d);
    JoinSplit(s, d);
    JoinSplit(tail, d);
    JoinAppend(Split(s, d), Split(tail, d), d);
    SplitJoin(whole, d);
  }

  /** Join undoes Split: no character is lost or added. */
  lemma {:induction false} JoinSplit(s: string, d: char)
    ensures Join(Split(s, d), d) == s
    decreases |s|
  {
    if |s| > 0 {
      JoinSplit(s[1..], d);
      var rest := Split(s[1..], d);
      if s[0] == d {
        assert ([""] + rest)[1..] == rest;
      } else {
        var parts := [[s[0]] + rest[0]] + rest[1..];
        if |rest| == 1 {
          assert Join(rest, d) == rest[0];
        } else {
          assert parts[1..] == rest[1..];
          assert Join(rest, d) == rest[0] + [d] + Join(rest[1..], d);
        }
      }
    }
  }

  // ----------------------------------------------------- decimal integers

  predicate IsDigit(c: char) {
    '0' <= c <= '9'
  }

  predicate AllDigits(s: string) {
    forall i :: 0 <= i < |s| ==> IsDigit(s[i])
  }

  function DigitChar(n: nat): (c: char)
    requires n < 10
    ensures IsDigit(c) && c as int - '0' as int == n
  {
    ('0' as int + n) as char
  }

  /** `n.ToString()` for a non-negative `n`: its decimal digits, most significant first. */
  function DecimalString(n: nat): (s: string)
    ensures |s| >= 1 && AllDigits(s)
    decreases n
  {
    if n < 10 then [DigitChar(n)] else DecimalString(n / 10) + [DigitChar(n % 10)]
  }

  /** The value of a string of decimal digits. */
  function DigitsValue(s: string): nat
    requires AllDigits(s)
    decreases |s|
  {
    if |s| == 0 then 0
    else DigitsValue(s[..|s| - 1]) * 10 + (s[|s| - 1] as int - '0' as int)
  }

  /** Reading back the decimal rendering gives the number. */
  lemma {:induction false} DecimalRoundTrip(n: nat)
    ensures DigitsValue(DecimalString(n)) == n
    decreases n
  {
    if n >= 10 {
      DecimalRoundTrip(n / 10);
      var s := DecimalString(n);
      assert s[..|s| - 1] == DecimalString(n / 10);
    }
  }

  datatype ParseError = BadFormat | Overflow

  /**
   * `int.Parse(s)` under the default number style, restricted to ASCII:
   * an optional sign, then one or more digits; a value outside the 32-bit
   * range is an overflow.
   */
  function ParseInt32(s: string): (r: ParseErrorOr)
    ensures r.Value? ==> Int32Min <= r.value <= Int32Max
  {
    var negative := |s| > 0 && s[0] == '-';
    var digits := if |s| > 0 && (s[0] == '-' || s[0] == '+') then s[1..] else s;
    if |digits| == 0 || !AllDigits(digits) then Error(BadFormat)
    else
      var magnitude: int := DigitsValue(digits);
      var v := if negative then -magnitude else magnitude;
      if v < Int32Min || v > Int32Max then Error(Overflow) else Value(v)
  }

  datatype ParseErrorOr = Value(value: int) | Error(error: ParseError)

  /** `int.Parse(n.ToString()) == n` for every non-negative 32-bit value. */
  lemma ParseDecimal(n: nat)
    requires n <= Int32Max
    ensures ParseInt32(DecimalString(n)) == Value(n)
  {
    DecimalRoundTrip(n);
  }

  // ------------------------------------------------ bitwise xor and or

  /** The bitwise xor of two non-negative integers (C# `^` on values that fit a `uint`). */
  function BitXor(x: nat, y: nat): nat
    decreases x + y
  {
    if x == 0 && y == 0 then 0
    else 2 * BitXor(x / 2, y / 2) + (x % 2 + y % 2) % 2
  }

  /** The bitwise or of two non-negative integers (C# `|` on values that fit a `uint`). */
  function BitOr(x: nat, y: nat): nat
    decreases x + y
  {
    if x == 0 && y == 0 then 0
    else 2 * BitOr(x / 2, y / 2) + (if x % 2 == 1 || y % 2 == 1 then 1 else 0)
  }

  /** `x ^ y == 0` exactly when `x == y`. */
  lemma {:induction false} BitXorZero(x: nat, y: nat)
    ensures BitXor(x, y) == 0 <==> x == y
    decreases x + y
  {
    if x != 0 || y != 0 {
      BitXorZero(x / 2, y / 2);
    }
  }

  /** `x | y == 0` exactly when both are zero. */
  lemma {:induction false} BitOrZero(x: nat, y: nat)
    ensures BitOr(x, y) == 0 <==> x == 0 && y == 0
    decreases x + y
  {
    if x != 0 || y != 0 {
      BitOrZero(x / 2, y / 2);
    }
  }

  // ----------------------------------------------------------- Take, Skip

  /** LINQ `Take(n)`: the first `n` elements, all of them if fewer, none if `n <= 0`. */
  function Take<T>(s: seq<T>, n: int): (r: seq<T>)
    ensures |r| == if n <= 0 then 0 else if n < |s| then n else |s|
    ensures r == s[..|r|]
  {
    if n <= 0 then [] else if n >= |s| then s else s[..n]
  }

  /** LINQ `Skip(n)`: everything after the first `n` elements. */
  function Skip<T>(s: seq<T>, n: int): (r: seq<T>)
    ensures |r| == if n <= 0 then |s| else if n < |s| then |s| - n else 0
    ensures r == s[|s| - |r|..]
  {
    if n <= 0 then s else if n >= |s| then [] else s[n..]
  }

  // ------------------------------------------------------ upper-casing

  function UpperChar(c: char): (u: char)
    ensures !('a' <= u <= 'z')
    ensures !('a' <= c <= 'z') ==> u == c
  {
    if 'a' <= c <= 'z' then (c as int - 32) as char else c
  }

  /**
   * `ToUpperInvariant` on text whose letters are ASCII: each lower-case
   * letter becomes its capital, every other character is kept, and no
   * lower-case letter is left.
   */
  function ToUpperAscii(s: string): (u: string)
    ensures |u| == |s|
    ensures forall i :: 0 <= i < |s| && 'a' <= s[i] <= 'z' ==> u[i] as int == s[i] as int - 32
    ensures forall i :: 0 <= i < |s| && !('a' <= s[i] <= 'z') ==> u[i] == s[i]
    ensures forall i :: 0 <= i < |s| ==> !('a' <= u[i] <= 'z')
  {
    seq(|s|, i requires 0 <= i < |s| => UpperChar(s[i]))
  }

  /** Upper-casing a concatenation upper-cases each part. */
  lemma UpperConcat(a: string, b: string)
    ensures ToUpperAscii(a + b) == ToUpperAscii(a) + ToUpperAscii(b)
  {
    var l, r, c := ToUpperAscii(a), ToUpperAscii(b), ToUpperAscii(a + b);
    assert forall i | 0 <= i < |c| :: c[i] == (l + r)[i];
  }
}
