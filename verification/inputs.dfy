/** The input helpers the form screens share: the masks applied while typing
    (phone, date, CEP; the CPF mask is the one of the CPF utilities), the e-mail
    and phone patterns, and the blank test. Each screen declares its own copy of
    these helpers; the copies are identical and are defined once here. A mask
    keeps only the digits and groups the leading ones; digits beyond the groups
    follow unchanged, and too few digits come back bare. */
module Inputs {
  import opened Text
  import opened FormatUtils
  import opened CpfUtils

  /** `!s.trim()` */
  predicate Blank(s: string) { IsBlank(s) }

  // ---------------------------------------------------------------------------
  // masks

  /** `formatPhone`: exactly ten digits as (DD) DDDD-DDDD, eleven or more with the
      first eleven as (DD) DDDDD-DDDD. */
  function MaskPhone(phone: string): (r: string)
    ensures Digits(r) == Digits(phone)
    ensures |Digits(phone)| < 10 ==> r == Digits(phone)
    ensures |Digits(phone)| == 10 ==> r == PhoneMask(Digits(phone)) && |r| == 14
    ensures |Digits(phone)| >= 11 ==>
      r == PhoneMask(Digits(phone)[..11]) + Digits(phone)[11..] && |r| == |Digits(phone)| + 4
  {
    var n := Digits(phone);
    if |n| < 10 then
      DigitsOfAllDigits(n);
      n
    else if |n| == 10 then
      PhoneMaskDigits(n);
      PhoneMask(n)
    else
      PhoneMaskDigits(n[..11]);
      DigitsAppend(PhoneMask(n[..11]), n[11..]);
      DigitsOfAllDigits(n[11..]);
      assert n == n[..11] + n[11..];
      PhoneMask(n[..11]) + n[11..]
  }

  /** `formatDate`: the first eight digits as DD/MM/YYYY. */
  function MaskDate(date: string): (r: string)
    ensures Digits(r) == Digits(date)
    ensures |Digits(date)| < 8 ==> r == Digits(date)
    ensures |Digits(date)| >= 8 ==> |r| == |Digits(date)| + 2 && r[2] == '/' && r[5] == '/'
  {
    var n := Digits(date);
    if |n| < 8 then
      DigitsOfAllDigits(n);
      n
    else
      GroupedDigits(n, 2, 4, "/");
      n[..2] + "/" + n[2..4] + "/" + n[4..]
  }

  /** Only the separators are not digits: two separators placed at `i` and `j`
      leave the digits as they were. */
  lemma GroupedDigits(n: string, i: nat, j: nat, sep: string)
    requires i <= j <= |n| && AllDigits(n) && NoDigits(sep)
    ensures Digits(n[..i] + sep + n[i..j] + sep + n[j..]) == n
  {
    CutDigits(n, i, j);
    DigitsOfGroups([], n[..i], sep, n[i..j], sep, n[j..]);
    assert [] + n[..i] == n[..i];
  }

  /** The CEP mask of the address and profile screens: the first eight digits as
      DDDDD-DDD. */
  function MaskCep(cep: string): (r: string)
    ensures Digits(r) == Digits(cep)
    ensures |Digits(cep)| < 8 ==> r == Digits(cep)
    ensures |Digits(cep)| >= 8 ==> |r| == |Digits(cep)| + 1 && r[5] == '-'
  {
    var n := Digits(cep);
    if |n| < 8 then
      DigitsOfAllDigits(n);
      n
    else
      CepMaskDigits(n);
      n[..5] + "-" + n[5..]
  }

  /** Masking what a mask produced changes nothing. */
  lemma MasksIdempotent(s: string)
    ensures MaskPhone(MaskPhone(s)) == MaskPhone(s)
    ensures MaskDate(MaskDate(s)) == MaskDate(s)
    ensures MaskCep(MaskCep(s)) == MaskCep(s)
    ensures FormatCPF(FormatCPF(s)) == FormatCPF(s)
  {
  }

  /** A masked date has the ten characters the forms ask for exactly when eight
      digits were typed, and a masked CEP the nine that start the lookup exactly
      when eight digits were typed. */
  lemma MaskLengths(s: string)
    ensures |MaskDate(s)| == 10 <==> |Digits(s)| == 8
    ensures |MaskCep(s)| == 9 <==> |Digits(s)| == 8
  {
  }

  // ---------------------------------------------------------------------------
  // patterns

  /** Neither whitespace nor '@': the class `[^\s@]`. */
  predicate PlainChars(s: string) {
    forall i :: 0 <= i < |s| ==> !IsSpace(s[i]) && s[i] != '@'
  }

  /** `/^[^\s@]+@[^\s@]+\.[^\s@]+$/`: a non-empty part, '@', a non-empty part, '.',
      a non-empty part, none of them holding whitespace or '@'. */
  predicate EmailPattern(s: string) {
    exists a, b :: 0 < a && a + 1 < b && b + 1 < |s| && s[a] == '@' && s[b] == '.'
      && PlainChars(s[..a]) && PlainChars(s[a + 1..b]) && PlainChars(s[b + 1..])
  }

  /** What the e-mail pattern accepts, said plainly: exactly one '@', not first; no
      whitespace; and a '.' in the domain that is neither its first nor its last
      character. */
  predicate EmailShape(s: string) {
    (forall i :: 0 <= i < |s| ==> !IsSpace(s[i]))
    && exists a :: 0 < a < |s| && s[a] == '@'
         && (forall j :: 0 <= j < |s| && s[j] == '@' ==> j == a)
         && exists b :: a + 1 < b < |s| - 1 && s[b] == '.'
  }

  lemma EmailPatternIsShape(s: string)
    ensures EmailPattern(s) <==> EmailShape(s)
  {
    if EmailPattern(s) {
      PatternGivesShape(s);
    }
    if EmailShape(s) {
      ShapeGivesPattern(s);
    }
  }

  lemma PatternGivesShape(s: string)
    requires EmailPattern(s)
    ensures EmailShape(s)
  {
    var a, b :| 0 < a && a + 1 < b && b + 1 < |s| && s[a] == '@' && s[b] == '.'
      && PlainChars(s[..a]) && PlainChars(s[a + 1..b]) && PlainChars(s[b + 1..]);
    var local, domain, top := s[..a], s[a + 1..b], s[b + 1..];
    forall i | 0 <= i < |s|
      ensures !IsSpace(s[i]) && (s[i] == '@' ==> i == a)
    {
      if i < a {
        assert local[i] == s[i];
      } else if a < i < b {
        assert domain[i - a - 1] == s[i];
      } else if b < i {
        assert top[i - b - 1] == s[i];
      }
    }
    assert a + 1 < b < |s| - 1 && s[b] == '.';
  }

  lemma ShapeGivesPattern(s: string)
    requires EmailShape(s)
    ensures EmailPattern(s)
  {
    var a :| 0 < a < |s| && s[a] == '@'
      && (forall j :: 0 <= j < |s| && s[j] == '@' ==> j == a)
      && exists b :: a + 1 < b < |s| - 1 && s[b] == '.';
    var b :| a + 1 < b < |s| - 1 && s[b] == '.';
    var local, domain, top := s[..a], s[a + 1..b], s[b + 1..];
    assert PlainChars(local) by {
      forall i | 0 <= i < |local| ensures !IsSpace(local[i]) && local[i] != '@' {
        assert local[i] == s[i];
      }
    }
    assert PlainChars(domain) by {
      forall i | 0 <= i < |domain| ensures !IsSpace(domain[i]) && domain[i] != '@' {
        assert domain[i] == s[a + 1 + i];
      }
    }
    assert PlainChars(top) by {
      forall i | 0 <= i < |top| ensures !IsSpace(top[i]) && top[i] != '@' {
        assert top[i] == s[b + 1 + i];
      }
    }
  }

  /** A character at a known place is contained. */
  lemma {:induction false} ContainsAt(s: string, i: nat, c: char)
    requires i < |s| && s[i] == c
    ensures Contains(s, [c])
    decreases i
  {
    if i == 0 {
      assert s[..1] == [c];
    } else {
      ContainsAt(s[1..], i - 1, c);
    }
  }

  /** Every address the pattern accepts contains an '@'. */
  lemma EmailPatternHasAt(s: string)
    requires EmailPattern(s)
    ensures Contains(s, "@")
  {
    var a, b :| 0 < a && a + 1 < b && b + 1 < |s| && s[a] == '@' && s[b] == '.'
      && PlainChars(s[..a]) && PlainChars(s[a + 1..b]) && PlainChars(s[b + 1..]);
    ContainsAt(s, a, '@');
  }

  /** `/^\(\d{2}\)\s\d{4,5}-\d{4}$/`: the masked phone. */
  predicate PhonePattern(p: string) {
    (|p| == 14 || |p| == 15)
    && p[0] == '(' && AllDigits(p[1..3]) && p[3] == ')' && IsSpace(p[4])
    && AllDigits(p[5..|p| - 5]) && p[|p| - 5] == '-' && AllDigits(p[|p| - 4..])
  }

  /** `validatePhone`: the masked form, or any text of ten or more characters. */
  predicate ValidatePhone(p: string) {
    PhonePattern(p) || |p| >= 10
  }

  /** The masked form is always at least ten characters long, so the phone check
      comes down to the length alone; every mask of ten or more digits passes it. */
  lemma ValidatePhoneIsLength(p: string)
    ensures ValidatePhone(p) <==> |p| >= 10
    ensures |Digits(p)| >= 10 ==> ValidatePhone(MaskPhone(p))
  {
  }
}
