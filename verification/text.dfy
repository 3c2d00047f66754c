/** The JavaScript string operations the application relies on, as Dafny functions
    over `string` (a sequence of code points): `replace(/\D/g, '')`, `trim`,
    `includes`, `startsWith`, `split` on one character, `padStart(2, '0')`,
    `replace` of the first occurrence of a literal, ASCII `toLowerCase`/`toUpperCase`,
    integer-to-string and `parseInt`. */
module Text {
  import opened Wrappers

  predicate IsDigit(c: char) { '0' <= c <= '9' }

  predicate AllDigits(s: string) { forall i :: 0 <= i < |s| ==> IsDigit(s[i]) }

  /** The ECMAScript WhiteSpace and LineTerminator code points: what `\s` matches
      and what `trim()` removes. */
  predicate IsSpace(c: char) {
    var n := c as int;
    n == 0x09 || n == 0x0A || n == 0x0B || n == 0x0C || n == 0x0D || n == 0x20
    || n == 0xA0 || n == 0x1680 || (0x2000 <= n <= 0x200A) || n == 0x2028
    || n == 0x2029 || n == 0x202F || n == 0x205F || n == 0x3000 || n == 0xFEFF
  }

  /** `!s.trim()`: nothing is left once surrounding whitespace is removed. */
  predicate IsBlank(s: string) { forall i :: 0 <= i < |s| ==> IsSpace(s[i]) }

  predicate IsLowerAscii(c: char) { 'a' <= c <= 'z' }
  predicate IsUpperAscii(c: char) { 'A' <= c <= 'Z' }

  function ToLowerChar(c: char): char {
    if IsUpperAscii(c) then (c as int + 32) as char else c
  }

  function ToUpperChar(c: char): char {
    if IsLowerAscii(c) then (c as int - 32) as char else c
  }

  /** `toLowerCase()`, restricted to the ASCII letters. */
  function Lower(s: string): (r: string)
    ensures |r| == |s|
    ensures forall i :: 0 <= i < |s| ==> r[i] == ToLowerChar(s[i])
  {
    seq(|s|, i requires 0 <= i < |s| => ToLowerChar(s[i]))
  }

  /** `toUpperCase()`, restricted to the ASCII letters. */
  function Upper(s: string): (r: string)
    ensures |r| == |s|
    ensures forall i :: 0 <= i < |s| ==> r[i] == ToUpperChar(s[i])
  {
    seq(|s|, i requires 0 <= i < |s| => ToUpperChar(s[i]))
  }

  // ---------------------------------------------------------------------------
  // replace(/\D/g, '')

  /** The ASCII digits of `s`, in order: `s.replace(/\D/g, '')`. */
  function Digits(s: string): (r: string)
    ensures |r| <= |s|
    ensures AllDigits(r)
    decreases |s|
  {
    if s == [] then []
    else if IsDigit(s[0]) then [s[0]] + Digits(s[1..])
    else Digits(s[1..])
  }

  lemma {:induction false} DigitsAppend(a: string, b: string)
    ensures Digits(a + b) == Digits(a) + Digits(b)
    decreases |a|
  {
    if a == [] {
      assert a + b == b;
    } else {
      assert (a + b)[0] == a[0];
      assert (a + b)[1..] == a[1..] + b;
      DigitsAppend(a[1..], b);
    }
  }

  /** A string made only of digits is its own digit string. */
  lemma {:induction false} DigitsOfAllDigits(s: string)
    requires AllDigits(s)
    ensures Digits(s) == s
    decreases |s|
  {
    if s != [] {
      DigitsOfAllDigits(s[1..]);
    }
  }

  /** Cutting a digit string in three gives three digit strings. */
  lemma CutDigits(d: string, i: nat, j: nat)
    requires i <= j <= |d| && AllDigits(d)
    ensures AllDigits(d[..i]) && AllDigits(d[i..j]) && AllDigits(d[j..])
    ensures d == d[..i] + d[i..j] + d[j..]
  {
    assert forall k :: 0 <= k < j - i ==> d[i..j][k] == d[i + k];
    assert forall k :: 0 <= k < |d| - j ==> d[j..][k] == d[j + k];
  }

  /** Digits placed between separators without digits are exactly what
      `Digits` recovers. */
  lemma DigitsOfGroups(p1: string, a: string, p2: string, b: string, p3: string, c: string)
    requires NoDigits(p1) && NoDigits(p2) && NoDigits(p3)
    requires AllDigits(a) && AllDigits(b) && AllDigits(c)
    ensures Digits(p1 + a + p2 + b + p3 + c) == a + b + c
  {
    var x := p1 + a;
    assert Digits(x) == a by {
      DigitsAppend(p1, a);
      NoDigitsIsEmpty(p1);
      DigitsOfAllDigits(a);
      assert [] + a == a;
    }
    var y := x + p2 + b;
    assert Digits(y) == a + b by {
      DigitsAround(x, p2, b);
      DigitsOfAllDigits(b);
    }
    DigitsAround(y, p3, c);
    DigitsOfAllDigits(c);
  }

  /** Cleaning is idempotent. */
  lemma DigitsIdempotent(s: string)
    ensures Digits(Digits(s)) == Digits(s)
  {
    DigitsOfAllDigits(Digits(s));
  }

  /** `Digits(s)` keeps every digit of `s` and nothing else: each digit occurs in
      it exactly as often as in `s`, every other character not at all. */
  lemma {:induction false} DigitsCounts(s: string, c: char)
    ensures multiset(Digits(s))[c] == if IsDigit(c) then multiset(s)[c] else 0
    decreases |s|
  {
    if s != [] {
      DigitsCounts(s[1..], c);
      assert s == [s[0]] + s[1..];
      assert multiset(s) == multiset([s[0]]) + multiset(s[1..]);
    }
  }

  /** Appending a string without digits does not change the digits. */
  lemma NoDigitsSuffix(a: string, sep: string)
    requires forall i :: 0 <= i < |sep| ==> !IsDigit(sep[i])
    ensures Digits(a + sep) == Digits(a)
  {
    DigitsAppend(a, sep);
    NoDigitsIsEmpty(sep);
  }

  lemma {:induction false} NoDigitsIsEmpty(s: string)
    requires forall i :: 0 <= i < |s| ==> !IsDigit(s[i])
    ensures Digits(s) == []
    decreases |s|
  {
    if s != [] {
      NoDigitsIsEmpty(s[1..]);
    }
  }

  predicate NoDigits(s: string) { forall i :: 0 <= i < |s| ==> !IsDigit(s[i]) }

  /** Inserting a separator without digits between two strings keeps exactly their digits. */
  lemma DigitsAround(a: string, sep: string, b: string)
    requires NoDigits(sep)
    ensures Digits(a + sep + b) == Digits(a) + Digits(b)
  {
    var x := a + sep;
    DigitsAppend(a, sep);
    NoDigitsIsEmpty(sep);
    assert Digits(x) == Digits(a) + [];
    assert Digits(a) + [] == Digits(a);
    DigitsAppend(x, b);
  }

  /** A blank string has no digits. */
  lemma BlankHasNoDigits(s: string)
    requires IsBlank(s)
    ensures Digits(s) == []
  {
    NoDigitsIsEmpty(s);
  }

  // ---------------------------------------------------------------------------
  // includes, startsWith, indexOf, replace(literal, literal)

  predicate StartsWith(s: string, p: string) {
    |p| <= |s| && s[..|p|] == p
  }

  /** `s.includes(p)` */
  predicate Contains(s: string, p: string)
    decreases |s|
  {
    StartsWith(s, p) || (s != [] && Contains(s[1..], p))
  }

  /** `s.indexOf(p)`, with -1 as None. */
  function IndexOf(s: string, p: string): (r: Option<nat>)
    ensures r.Some? ==> r.value + |p| <= |s| && s[r.value..r.value + |p|] == p
    decreases |s|
  {
    if StartsWith(s, p) then Some(0)
    else if s == [] then None
    else match IndexOf(s[1..], p)
      case None => None
      case Some(k) => Some(k + 1)
  }

  /** `s.replace(p, rep)` with a literal pattern: only the first occurrence. */
  function ReplaceFirst(s: string, p: string, rep: string): string {
    match IndexOf(s, p)
    case None => s
    case Some(k) => s[..k] + rep + s[k + |p|..]
  }

  /** The first occurrence of `p` in `a + p + t` is right after `a` when the first
      character of `p` does not occur in `a`. */
  lemma {:induction false} IndexOfAfter(a: string, p: string, t: string)
    requires p != [] && forall i :: 0 <= i < |a| ==> a[i] != p[0]
    ensures IndexOf(a + p + t, p) == Some(|a|)
    decreases |a|
  {
    var s := a + p + t;
    if a == [] {
      assert s[..|p|] == p;
    } else {
      assert s[0] == a[0];
      assert !StartsWith(s, p);
      assert s[1..] == a[1..] + p + t;
      IndexOfAfter(a[1..], p, t);
    }
  }

  // ---------------------------------------------------------------------------
  // split on one character

  /** `s.split(c)` for a one-character separator. */
  function Split(s: string, c: char): (parts: seq<string>)
    ensures |parts| >= 1
    decreases |s|
  {
    if s == [] then [[]]
    else if s[0] == c then [[]] + Split(s[1..], c)
    else
      var rest := Split(s[1..], c);
      [[s[0]] + rest[0]] + rest[1..]
  }

  lemma {:induction false} SplitNoSeparator(a: string, c: char)
    requires c !in a
    ensures Split(a, c) == [a]
    decreases |a|
  {
    if a != [] {
      assert a[0] != c;
      SplitNoSeparator(a[1..], c);
      assert [a[0]] + a[1..] == a;
    }
  }

  lemma {:induction false} SplitAtFirst(a: string, c: char, b: string)
    requires c !in a
    ensures Split(a + [c] + b, c) == [a] + Split(b, c)
    decreases |a|
  {
    var s := a + [c] + b;
    if a == [] {
      assert s[1..] == b;
    } else {
      assert s[0] == a[0] && a[0] != c;
      assert s[1..] == a[1..] + [c] + b;
      SplitAtFirst(a[1..], c, b);
      assert [a[0]] + a[1..] == a;
    }
  }

  /** Splitting three separator-free parts joined by the separator gives them back. */
  lemma SplitThree(x: string, y: string, z: string, c: char)
    requires c !in x && c !in y && c !in z
    ensures Split(x + [c] + y + [c] + z, c) == [x, y, z]
  {
    assert x + [c] + y + [c] + z == x + [c] + (y + [c] + z);
    SplitAtFirst(x, c, y + [c] + z);
    SplitAtFirst(y, c, z);
    SplitNoSeparator(z, c);
  }

  // ---------------------------------------------------------------------------
  // padStart(2, '0')

  function PadStart2(s: string): (r: string)
    ensures |r| == if |s| >= 2 then |s| else 2
    ensures |s| >= 2 ==> r == s
    ensures |s| == 1 ==> r == "0" + s
    ensures s == "" ==> r == "00"
  {
    if |s| >= 2 then s else if |s| == 1 then "0" + s else "00"
  }

  // ---------------------------------------------------------------------------
  // numbers as text: `${n}` and parseInt

  function DigitChar(d: nat): (c: char)
    requires d < 10
    ensures IsDigit(c)
  {
    ('0' as int + d) as char
  }

  function DigitValue(c: char): int {
    c as int - '0' as int
  }

  /** Decimal rendering of a natural number, as `${n}` does. */
  function NatToString(n: nat): (r: string)
    ensures |r| >= 1 && AllDigits(r)
    decreases n
  {
    if n < 10 then [DigitChar(n)] else NatToString(n / 10) + [DigitChar(n % 10)]
  }

  /** Decimal rendering of an integer, with a leading '-' when negative. */
  function IntToString(i: int): (r: string)
    ensures |r| >= 1
    ensures i >= 0 ==> AllDigits(r)
    ensures i < 0 ==> r[0] == '-' && AllDigits(r[1..])
  {
    if i < 0 then "-" + NatToString(-i) else NatToString(i)
  }

  /** The value of a run of decimal digits, most significant first. */
  function DigitsValue(s: string): nat
    requires AllDigits(s)
    decreases |s|
  {
    if s == [] then 0 else DigitsValue(s[..|s| - 1]) * 10 + DigitValue(s[|s| - 1])
  }

  /** The longest prefix of `s` made of digits. */
  function LeadingDigits(s: string): (r: string)
    ensures StartsWith(s, r) && AllDigits(r)
    decreases |s|
  {
    if s != [] && IsDigit(s[0]) then [s[0]] + LeadingDigits(s[1..]) else []
  }

  function TrimStart(s: string): (r: string)
    decreases |s|
  {
    if s != [] && IsSpace(s[0]) then TrimStart(s[1..]) else s
  }

  /** `parseInt(s)` in base 10: leading whitespace, an optional sign, then the
      longest run of digits; None stands for NaN. */
  function ParseInt(s: string): (r: Option<int>)
    ensures r.None? <==> LeadingDigits(SignFree(TrimStart(s))) == []
  {
    var t := TrimStart(s);
    var ds := LeadingDigits(SignFree(t));
    if ds == [] then None
    else
      var v: int := DigitsValue(ds);
      if t[0] == '-' then Some(-v) else Some(v)
  }

  function SignFree(t: string): string {
    if t != [] && (t[0] == '-' || t[0] == '+') then t[1..] else t
  }

  lemma {:induction false} LeadingDigitsOfAllDigits(s: string)
    requires AllDigits(s)
    ensures LeadingDigits(s) == s
    decreases |s|
  {
    if s != [] {
      LeadingDigitsOfAllDigits(s[1..]);
    }
  }

  lemma {:induction false} NatToStringValue(n: nat)
    ensures DigitsValue(NatToString(n)) == n
    decreases n
  {
    if n >= 10 {
      NatToStringValue(n / 10);
      var s := NatToString(n);
      assert s[..|s| - 1] == NatToString(n / 10);
    }
  }

  /** parseInt reads back what `${i}` wrote. */
  lemma ParseIntOfIntToString(i: int)
    ensures ParseInt(IntToString(i)) == Some(i)
  {
    var s := IntToString(i);
    var n: nat := if i < 0 then -i else i;
    assert !IsSpace(s[0]);
    assert TrimStart(s) == s;
    assert SignFree(s) == NatToString(n);
    LeadingDigitsOfAllDigits(NatToString(n));
    NatToStringValue(n);
  }
}
