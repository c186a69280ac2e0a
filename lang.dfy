/**
 * The parts of the Java platform that the modelled program leans on:
 * null as `Option`, thrown exceptions as `Result`, 32-bit `int` arithmetic,
 * and the few `String` operations whose exact behaviour matters
 * (`split`, `join`, `equalsIgnoreCase`, `isBlank`, `endsWith`, decimal printing).
 */
module Lang {

  /** A Java reference that may be null. */
  datatype Option<+T> = None | Some(value: T)

  /** A value returned, or an exception thrown. */
  datatype Result<+T, +E> = Success(value: T) | Failure(error: E)

  /** What string concatenation prints for a possibly null string. */
  function StringOf(s: Option<string>): string
  {
    if s.Some? then s.value else "null"
  }

  /** The exceptions the program throws or receives from its libraries. */
  datatype Exception =
    | IOError(message: string)                 // java.io.IOException
    | ParseError                               // org.apache.hc.core5.http.ParseException
    | Unauthorized                             // HTTP 401 from the Web API
    | TooManyRequests(retryAfter: int)         // HTTP 429 with its Retry-After seconds
    | NotFound                                 // HTTP 404
    | BadRequest                               // HTTP 400
    | Forbidden                                // HTTP 403
    | WebApiError(status: int)                 // any other failure reported by the Web API
    | ApiException(nested: Exception)          // spotify.api.SpotifyApiException
    | IllegalState(message: string)
    | IllegalArgument(message: string)
    | NullPointer
    | IndexOutOfBounds
    | NumberFormat(input: string)

  // ---------------------------------------------------------------------------
  // 32-bit int

  const INT_MIN: int := -0x8000_0000
  const INT_MAX: int := 0x7fff_ffff

  predicate IsInt(x: int) { INT_MIN <= x <= INT_MAX }

  /** Java `int` arithmetic: the mathematical result reduced to 32 bits. */
  function WrapInt(x: int): int
  {
    (x - INT_MIN) % 0x1_0000_0000 + INT_MIN
  }

  /**
   * The wrapped value is an `int` congruent to the mathematical one modulo
   * 2^32, and equal to it when no overflow happens.
   */
  lemma WrapIntIsJavaInt(x: int)
    ensures IsInt(WrapInt(x))
    ensures (x - WrapInt(x)) % 0x1_0000_0000 == 0
    ensures IsInt(x) ==> WrapInt(x) == x
  {
  }

  /** Java `/` on integers: the quotient rounded toward zero. */
  function TruncDiv(a: int, b: int): (q: int)
    requires b > 0
    ensures a >= 0 ==> q == a / b
  {
    if a >= 0 then a / b else -((-a) / b)
  }

  /** Java `%` on integers: the remainder takes the sign of the dividend. */
  function TruncMod(a: int, b: int): (m: int)
    requires b > 0
    ensures a == TruncDiv(a, b) * b + m
    ensures -b < m < b && (a >= 0 ==> m == a % b)
  {
    a - TruncDiv(a, b) * b
  }

  // ---------------------------------------------------------------------------
  // Sequences

  function Sum(xs: seq<int>): int
  {
    if |xs| == 0 then 0 else xs[0] + Sum(xs[1..])
  }

  /** `n` copies of `x`; on characters, `Strings.repeat`. */
  function Copies<T>(x: T, n: nat): (r: seq<T>)
    ensures |r| == n && forall i :: 0 <= i < n ==> r[i] == x
  {
    if n == 0 then [] else [x] + Copies(x, n - 1)
  }

  /** What `Collection.removeIf(drop)` leaves: the other elements, in order. */
  function RemoveWhere<T>(xs: seq<T>, drop: T -> bool): (r: seq<T>)
    ensures |r| <= |xs|
    ensures forall i :: 0 <= i < |r| ==> !drop(r[i])
  {
    if |xs| == 0 then []
    else (if drop(xs[0]) then [] else [xs[0]]) + RemoveWhere(xs[1..], drop)
  }

  /** Removal works piecewise, so the kept elements stay in their order. */
  lemma {:induction false} RemoveWhereAppend<T>(a: seq<T>, b: seq<T>, drop: T -> bool)
    ensures RemoveWhere(a + b, drop) == RemoveWhere(a, drop) + RemoveWhere(b, drop)
  {
    if |a| == 0 {
      assert a + b == b;
    } else {
      assert (a + b)[0] == a[0];
      assert (a + b)[1..] == a[1..] + b;
      RemoveWhereAppend(a[1..], b, drop);
    }
  }

  /** Each kept value occurs as often as before; each dropped one not at all. */
  lemma {:induction false} RemoveWhereCounts<T>(xs: seq<T>, drop: T -> bool, x: T)
    ensures multiset(RemoveWhere(xs, drop))[x] == if drop(x) then 0 else multiset(xs)[x]
  {
    if |xs| > 0 {
      RemoveWhereCounts(xs[1..], drop, x);
      assert xs == [xs[0]] + xs[1..];
      assert multiset(xs) == multiset([xs[0]]) + multiset(xs[1..]);
    }
  }

  /** The concatenation of a sequence of sequences. */
  function Flatten<T>(parts: seq<seq<T>>): seq<T>
  {
    if |parts| == 0 then [] else parts[0] + Flatten(parts[1..])
  }

  lemma {:induction false} FlattenAppend<T>(a: seq<seq<T>>, b: seq<seq<T>>)
    ensures Flatten(a + b) == Flatten(a) + Flatten(b)
  {
    if |a| == 0 {
      assert a + b == b;
    } else {
      assert (a + b)[1..] == a[1..] + b;
      FlattenAppend(a[1..], b);
    }
  }

  /** A `java.util.List` that is changed in place. */
  class JavaList<T> {
    var elements: seq<T>

    constructor ()
      ensures elements == []
    {
      elements := [];
    }

    /** `Collection.removeIf`: removes every element `drop` holds for. */
    method RemoveIf(drop: T -> bool)
      modifies this
      ensures elements == RemoveWhere(old(elements), drop)
    {
      elements := RemoveWhere(elements, drop);
    }

    /** `List.addAll`: appends the given elements in order. */
    method AddAll(xs: seq<T>)
      modifies this
      ensures elements == old(elements) + xs
    {
      elements := elements + xs;
    }
  }

  // ---------------------------------------------------------------------------
  // Strings

  /** `String.join(sep, parts)`. */
  function Join(sep: string, parts: seq<string>): string
  {
    if |parts| == 0 then ""
    else if |parts| == 1 then parts[0]
    else parts[0] + sep + Join(sep, parts[1..])
  }

  lemma {:induction false} JoinSnoc(sep: string, parts: seq<string>, x: string)
    ensures Join(sep, parts + [x]) == if |parts| == 0 then x else Join(sep, parts) + sep + x
  {
    if |parts| > 1 {
      assert (parts + [x])[1..] == parts[1..] + [x];
      JoinSnoc(sep, parts[1..], x);
    } else if |parts| == 1 {
      assert (parts + [x])[1..] == [x];
    }
  }

  /**
   * The pieces of `s` between occurrences of `c`, empty pieces included;
   * there is always one more piece than there are separators.
   */
  function SplitAll(s: string, c: char): (r: seq<string>)
    ensures |r| >= 1
  {
    if |s| == 0 then [""]
    else
      var rest := SplitAll(s[1..], c);
      if s[0] == c then [""] + rest else [[s[0]] + rest[0]] + rest[1..]
  }

  /** Removes the empty pieces at the end. */
  function DropTrailingEmpty(xs: seq<string>): (r: seq<string>)
    ensures |r| <= |xs| && r == xs[..|r|]
    ensures |r| > 0 ==> r[|r| - 1] != ""
    ensures forall i :: |r| <= i < |xs| ==> xs[i] == ""
  {
    if |xs| > 0 && xs[|xs| - 1] == "" then DropTrailingEmpty(xs[..|xs| - 1]) else xs
  }

  /**
   * `s.split(String.valueOf(c))` for a separator that is not a regular
   * expression metacharacter: without a match the whole string, otherwise
   * every piece with the trailing empty ones removed.
   */
  function JavaSplit(s: string, c: char): seq<string>
  {
    if c in s then DropTrailingEmpty(SplitAll(s, c)) else [s]
  }

  lemma {:induction false} SplitAllNoSeparator(s: string, c: char)
    requires c !in s
    ensures SplitAll(s, c) == [s]
  {
    if |s| > 0 {
      assert c !in s[1..] by {
        forall i | 0 <= i < |s[1..]| ensures s[1..][i] != c { assert s[1..][i] == s[i + 1]; }
      }
      SplitAllNoSeparator(s[1..], c);
      assert [s[0]] + s[1..] == s;
    }
  }

  lemma {:induction false} SplitAllSeparated(a: string, c: char, b: string)
    ensures SplitAll(a + [c] + b, c) == SplitAll(a, c) + SplitAll(b, c)
  {
    if |a| == 0 {
      assert a + [c] + b == [c] + b;
      assert ([c] + b)[1..] == b;
    } else {
      assert (a + [c] + b)[0] == a[0];
      assert (a + [c] + b)[1..] == a[1..] + [c] + b;
      SplitAllSeparated(a[1..], c, b);
    }
  }

  /** Splitting a join on the same one-character separator gives the parts back. */
  lemma {:induction false} SplitJoin(parts: seq<string>, c: char)
    requires |parts| > 0
    requires forall i :: 0 <= i < |parts| ==> c !in parts[i]
    ensures SplitAll(Join([c], parts), c) == parts
  {
    if |parts| == 1 {
      SplitAllNoSeparator(parts[0], c);
    } else {
      SplitJoin(parts[1..], c);
      SplitAllNoSeparator(parts[0], c);
      SplitAllSeparated(parts[0], c, Join([c], parts[1..]));
      assert parts == [parts[0]] + parts[1..];
    }
  }

  /**
   * ASCII case folding. Comparing with an all-ASCII word such as "null"
   * this way agrees with `equalsIgnoreCase` as long as no other character
   * changes case into one of the word's letters.
   */
  function FoldCase(c: char): char
  {
    if 'A' <= c <= 'Z' then (c as int + 32) as char else c
  }

  /** `a.equalsIgnoreCase(b)` restricted to ASCII folding. */
  predicate EqualsIgnoreAsciiCase(a: string, b: string)
  {
    |a| == |b| && forall i :: 0 <= i < |a| ==> FoldCase(a[i]) == FoldCase(b[i])
  }

  /**
   * `Character.toUpperCase` and `Character.toLowerCase`: the Unicode case
   * tables, taken as given rather than written out.
   */
  datatype CaseTables = CaseTables(upper: char -> char, lower: char -> char)

  /**
   * The character test of `equalsIgnoreCase`: equal, or equal upper-cased,
   * or equal once the upper-cased characters are lower-cased.
   */
  predicate CharsEqualIgnoreCase(cases: CaseTables, a: char, b: char)
  {
    a == b || cases.upper(a) == cases.upper(b) || cases.lower(cases.upper(a)) == cases.lower(cases.upper(b))
  }

  /** `a.equalsIgnoreCase(b)` for non-null strings, under the given case tables. */
  predicate EqualsIgnoreCase(cases: CaseTables, a: string, b: string)
  {
    |a| == |b| && forall i :: 0 <= i < |a| ==> CharsEqualIgnoreCase(cases, a[i], b[i])
  }

  /** Whatever the tables, `equalsIgnoreCase` is reflexive and symmetric. */
  lemma EqualsIgnoreCaseReflexiveSymmetric(cases: CaseTables, a: string, b: string)
    ensures EqualsIgnoreCase(cases, a, a)
    ensures EqualsIgnoreCase(cases, a, b) <==> EqualsIgnoreCase(cases, b, a)
  {
  }

  /** `Character.isWhitespace`. */
  predicate IsWhitespace(c: char)
  {
    || c == ' ' || ('\t' <= c <= '\r') || ('\U{1C}' <= c <= '\U{1F}')
    || c == '\U{1680}' || ('\U{2000}' <= c <= '\U{2006}') || ('\U{2008}' <= c <= '\U{200A}')
    || c == '\U{2028}' || c == '\U{2029}' || c == '\U{205F}' || c == '\U{3000}'
  }

  /** `String.isBlank`: empty or white space only. */
  predicate IsBlank(s: string)
  {
    forall i :: 0 <= i < |s| ==> IsWhitespace(s[i])
  }

  /** `String.length()`: characters above U+FFFF take two UTF-16 units. */
  function Utf16Length(s: string): nat
  {
    if |s| == 0 then 0
    else Utf16Length(s[..|s| - 1]) + (if s[|s| - 1] as int > 0xFFFF then 2 else 1)
  }

  /** For text within the Basic Multilingual Plane, Java's length is the number of characters. */
  lemma {:induction false} Utf16LengthOfBmp(s: string)
    requires forall i :: 0 <= i < |s| ==> s[i] as int <= 0xFFFF
    ensures Utf16Length(s) == |s|
  {
    if |s| > 0 {
      Utf16LengthOfBmp(s[..|s| - 1]);
    }
  }

  /** `String.endsWith`. */
  predicate EndsWith(s: string, suffix: string)
  {
    |suffix| <= |s| && s[|s| - |suffix|..] == suffix
  }

  // ---------------------------------------------------------------------------
  // Decimal numbers

  function Digit(d: nat): char
    requires d < 10
  {
    (48 + d) as char
  }

  predicate IsDigit(c: char) { '0' <= c <= '9' }

  function DigitValue(c: char): nat
    requires IsDigit(c)
  {
    c as int - 48
  }

  /** The decimal digits of `n`, without leading zeros. */
  function NatToString(n: nat): (r: string)
    ensures |r| > 0 && forall i :: 0 <= i < |r| ==> IsDigit(r[i])
  {
    if n < 10 then [Digit(n)] else NatToString(n / 10) + [Digit(n % 10)]
  }

  /** `Integer.toString` / `%d`. */
  function IntToString(n: int): string
  {
    if n < 0 then "-" + NatToString(-n) else NatToString(n)
  }

  predicate IsDigits(s: string)
  {
    forall i :: 0 <= i < |s| ==> IsDigit(s[i])
  }

  /** The value of a string of decimal digits. */
  function DigitsValue(s: string): nat
    requires IsDigits(s)
  {
    if |s| == 0 then 0 else DigitsValue(s[..|s| - 1]) * 10 + DigitValue(s[|s| - 1])
  }

  /** Printing a number and reading its digits back gives the number. */
  lemma {:induction false} DigitsOfNat(n: nat)
    ensures DigitsValue(NatToString(n)) == n
  {
    if n >= 10 {
      var s := NatToString(n);
      assert s[..|s| - 1] == NatToString(n / 10);
      DigitsOfNat(n / 10);
    }
  }

  /**
   * `Integer.parseInt(s)` for ASCII digits: an optional sign, at least one
   * digit, and a value an `int` can hold; anything else throws
   * `NumberFormatException`.
   */
  function ParseInt(s: string): (r: Result<int, Exception>)
    ensures r.Success? ==> IsInt(r.value)
    ensures r.Failure? ==> r.error == NumberFormat(s)
    ensures |s| == 0 ==> r.Failure?
  {
    var negative := |s| > 0 && s[0] == '-';
    var digits := if |s| > 0 && (s[0] == '-' || s[0] == '+') then s[1..] else s;
    if |digits| == 0 || !IsDigits(digits) then Failure(NumberFormat(s))
    else
      var magnitude: int := DigitsValue(digits);
      var value: int := if negative then -magnitude else magnitude;
      if IsInt(value) then Success(value) else Failure(NumberFormat(s))
  }

  /** `Integer.toString` and `Integer.parseInt` are inverse on every `int`. */
  lemma ParseIntToString(n: int)
    requires IsInt(n)
    ensures ParseInt(IntToString(n)) == Success(n)
  {
    var s := IntToString(n);
    if n < 0 {
      assert s[1..] == NatToString(-n);
      DigitsOfNat(-n);
    } else {
      assert IsDigit(s[0]);
      DigitsOfNat(n);
    }
  }
}
