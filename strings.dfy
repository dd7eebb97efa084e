/** The Python string built-ins the text formatter relies on: repetition with
    `*`, `str.ljust`, `str.rjust`, `str.join`, `reversed` and `str(int)`. */
module Strings {

  function Max(a: int, b: int): int
  {
    if a < b then b else a
  }

  /** `c * n`: the character `c` repeated `n` times. */
  function Repeat(c: char, n: nat): (r: string)
    ensures |r| == n
    ensures forall i :: 0 <= i < n ==> r[i] == c
  {
    if n == 0 then [] else [c] + Repeat(c, n - 1)
  }

  predicate AllSpaces(s: string)
  {
    forall i :: 0 <= i < |s| ==> s[i] == ' '
  }

  /** `s.ljust(n)`: `s` followed by as many spaces as make it `n` long; `s` itself when it is already that long. */
  function LJust(s: string, n: int): (r: string)
    ensures |r| == Max(n, |s|)
    ensures r[..|s|] == s
    ensures AllSpaces(r[|s|..])
  {
    if n <= |s| then s else s + Repeat(' ', n - |s|)
  }

  /** `s.rjust(n)`: as many spaces as make `s` `n` long, then `s`. */
  function RJust(s: string, n: int): (r: string)
    ensures |r| == Max(n, |s|)
    ensures r[|r| - |s|..] == s
    ensures AllSpaces(r[..|r| - |s|])
  {
    if n <= |s| then s else Repeat(' ', n - |s|) + s
  }

  /** `sep.join(parts)`. */
  function Join(parts: seq<string>, sep: string): string
  {
    if |parts| == 0 then ""
    else if |parts| == 1 then parts[0]
    else parts[0] + sep + Join(parts[1..], sep)
  }

  /** Total length of the parts. */
  function SumLen(parts: seq<string>): nat
  {
    if |parts| == 0 then 0 else |parts[0]| + SumLen(parts[1..])
  }

  /** Joining k parts inserts exactly k - 1 separators. */
  lemma {:induction false} JoinLength(parts: seq<string>, sep: string)
    requires |parts| > 0
    ensures |Join(parts, sep)| == SumLen(parts) + |sep| * (|parts| - 1)
  {
    if |parts| > 1 {
      JoinLength(parts[1..], sep);
      assert |sep| * (|parts| - 1) == |sep| + |sep| * (|parts[1..]| - 1);
    }
  }

  /** With a non-empty separator, the join is empty exactly when there is nothing to join but empty text. */
  lemma JoinEmptyIff(parts: seq<string>, sep: string)
    requires sep != ""
    ensures Join(parts, sep) == "" <==> parts == [] || parts == [""]
  {
    if |parts| >= 2 {
      assert |Join(parts, sep)| >= |sep|;
    }
  }

  /** The first part, then either nothing or a separator: how a join begins. */
  lemma JoinHead(parts: seq<string>, sep: string)
    requires |parts| > 0
    ensures |Join(parts, sep)| >= |parts[0]|
    ensures Join(parts, sep)[..|parts[0]|] == parts[0]
    ensures |parts| == 1 ==> Join(parts, sep) == parts[0]
    ensures |parts| > 1 ==> Join(parts, sep)[|parts[0]|..][..|sep|] == sep
  {
    if |parts| > 1 {
      var rest := Join(parts[1..], sep);
      assert Join(parts, sep) == parts[0] + (sep + rest);
    }
  }

  /** Appending in two steps is appending the two pieces at once. */
  lemma AppendAssoc<T>(a: seq<T>, b: seq<T>, c: seq<T>)
    ensures (a + b) + c == a + (b + c)
  {
  }

  /** Where the pieces of `[h0, h1] + body + r1 + r2` land, for pieces `r1`, `r2` of at most one element. */
  lemma FrontIndices<T>(h0: T, h1: T, body: seq<T>, r1: seq<T>, r2: seq<T>)
    requires |r1| <= 1 && |r2| <= 1
    ensures var f := [h0, h1] + body + r1 + r2;
      && |f| == 2 + |body| + |r1| + |r2|
      && f[0] == h0 && f[1] == h1
      && f[2..2 + |body|] == body
      && (|r1| == 1 ==> f[2 + |body|] == r1[0])
      && (|r2| == 1 ==> f[2 + |body| + |r1|] == r2[0])
  {
    var f := [h0, h1] + body + r1 + r2;
    assert f == [h0, h1] + (body + (r1 + r2));
  }

  /** Where the pieces of `front + body + [last]` land. */
  lemma BackIndices<T>(front: seq<T>, body: seq<T>, last: T)
    ensures var b := front + body + [last];
      && |b| == |front| + |body| + 1
      && b[..|front|] == front
      && b[|front|..|front| + |body|] == body
      && b[|b| - 1] == last
  {
    var b := front + body + [last];
    assert b == front + (body + [last]);
  }

  /** `reversed(s)`. */
  function Reverse<T>(s: seq<T>): seq<T>
  {
    seq(|s|, i requires 0 <= i < |s| => s[|s| - 1 - i])
  }

  function DigitChar(d: int): char
    requires 0 <= d < 10
  {
    "0123456789"[d]
  }

  function DigitValue(c: char): int
  {
    if '0' <= c <= '9' then c as int - '0' as int else 0
  }

  /** Decimal digits of a natural number, most significant first. */
  function NatDecimal(n: nat): (r: string)
    ensures |r| > 0
    ensures forall i :: 0 <= i < |r| ==> '0' <= r[i] <= '9'
    ensures n > 0 ==> r[0] != '0'
  {
    if n < 10 then [DigitChar(n)] else NatDecimal(n / 10) + [DigitChar(n % 10)]
  }

  /** `str(n)` of a Python int. */
  function Decimal(n: int): string
  {
    if n < 0 then "-" + NatDecimal(-n) else NatDecimal(n)
  }

  /** The number a string of decimal digits denotes. */
  function DecimalValue(s: string): int
  {
    if s == [] then 0 else 10 * DecimalValue(s[..|s| - 1]) + DigitValue(s[|s| - 1])
  }

  /** Reading the digits back gives the number that was written. */
  lemma {:induction false} NatDecimalRoundTrip(n: nat)
    ensures DecimalValue(NatDecimal(n)) == n
  {
    if n >= 10 {
      NatDecimalRoundTrip(n / 10);
      var s := NatDecimal(n);
      assert s[..|s| - 1] == NatDecimal(n / 10);
    }
  }
}
