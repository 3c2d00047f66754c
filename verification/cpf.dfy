/** CPF numbers (the Brazilian individual taxpayer identifier): cleaning, the
    XXX.XXX.XXX-XX mask, the Receita Federal mod-11 check digits, and generation
    of a valid number from nine leading digits. */
module CpfUtils {
  import opened Wrappers
  import opened Text

  /** `cleanCPF`: strip everything but the digits. */
  function CleanCPF(cpf: string): (r: string)
    ensures AllDigits(r) && |r| <= |cpf|
    ensures forall c :: IsDigit(c) ==> multiset(r)[c] == multiset(cpf)[c]
  {
    var r := Digits(cpf);
    assert forall c :: IsDigit(c) ==> multiset(r)[c] == multiset(cpf)[c] by {
      forall c | IsDigit(c) ensures multiset(r)[c] == multiset(cpf)[c] {
        DigitsCounts(cpf, c);
      }
    }
    r
  }

  lemma CleanCPFIdempotent(cpf: string)
    ensures CleanCPF(CleanCPF(cpf)) == CleanCPF(cpf)
  {
    DigitsIdempotent(cpf);
  }

  /** `formatCPF`: the first eleven digits grouped as XXX.XXX.XXX-XX (any further
      digits follow unchanged); fewer than eleven digits come back bare. Only
      separators are inserted. */
  function FormatCPF(cpf: string): (r: string)
    ensures Digits(r) == CleanCPF(cpf)
    ensures |CleanCPF(cpf)| < 11 ==> r == CleanCPF(cpf)
    ensures |CleanCPF(cpf)| == 11 ==>
      |r| == 14 && r[3] == '.' && r[7] == '.' && r[11] == '-'
      && r[..3] == CleanCPF(cpf)[..3] && r[4..7] == CleanCPF(cpf)[3..6]
      && r[8..11] == CleanCPF(cpf)[6..9] && r[12..] == CleanCPF(cpf)[9..]
  {
    var n := CleanCPF(cpf);
    if |n| < 11 then
      DigitsOfAllDigits(n);
      n
    else
      MaskedDigits(n);
      n[..3] + "." + n[3..6] + "." + n[6..9] + "-" + n[9..]
  }

  lemma MaskedDigits(n: string)
    requires |n| >= 11 && AllDigits(n)
    ensures Digits(n[..3] + "." + n[3..6] + "." + n[6..9] + "-" + n[9..]) == n
  {
    var a, b, c, d := n[..3], n[3..6], n[6..9], n[9..];
    CutDigits(n, 3, 6);
    CutDigits(n, 6, 9);
    var dot, dash := ".", "-";
    assert NoDigits(dot) && NoDigits(dash);
    var x := a + dot + b + dot + c;
    assert Digits(x) == a + b + c by {
      DigitsOfGroups([], a, dot, b, dot, c);
      assert [] + a == a;
    }
    DigitsAround(x, dash, d);
    DigitsOfAllDigits(d);
    assert n[..6] == a + b;
    assert n == a + b + c + d;
  }

  /** Cleaning a formatted CPF gives back the cleaned input. */
  lemma CleanFormatRoundTrip(cpf: string)
    ensures CleanCPF(FormatCPF(cpf)) == CleanCPF(cpf)
  {
  }

  // ---------------------------------------------------------------------------
  // check digits

  /** The digit values of a digit string (`parseInt(numbers[i])`). */
  function Values(s: string): (v: seq<int>)
    ensures |v| == |s|
    ensures forall i :: 0 <= i < |s| ==> v[i] == DigitValue(s[i])
  {
    seq(|s|, i requires 0 <= i < |s| => DigitValue(s[i]))
  }

  /** `sum of ds[i] * (top - i)` for `i < n`: weights top, top-1, ... */
  function WeightedSum(ds: seq<int>, n: nat, top: int): int
    requires n <= |ds|
  {
    if n == 0 then 0 else WeightedSum(ds, n - 1, top) + ds[n - 1] * (top - (n - 1))
  }

  /** `((sum * 10) % 11) % 10`; the sums are never negative, so Dafny's `%` agrees
      with JavaScript's. */
  function CheckDigit(sum: int): int {
    ((sum * 10) % 11) % 10
  }

  /** `/^(\d)\1{10}$/` on an eleven-digit string: one digit repeated. */
  predicate AllSame(s: string) {
    forall i :: 0 <= i < |s| ==> s[i] == s[0]
  }

  /** Digit 10 and digit 11 are the mod-11 check digits of what precedes them,
      with weights 10..2 and 11..2. */
  predicate HasCheckDigits(n: string)
    requires |n| == 11
  {
    DigitValue(n[9]) == CheckDigit(WeightedSum(Values(n), 9, 10))
    && DigitValue(n[10]) == CheckDigit(WeightedSum(Values(n), 10, 11))
  }

  /** What `validateCPF` accepts. */
  predicate IsValidCpf(cpf: string) {
    var n := CleanCPF(cpf);
    |n| == 11 && !AllSame(n) && HasCheckDigits(n)
  }

  /** `validateCPF`: two accumulating loops compute the check digits. */
  method ValidateCPF(cpf: string) returns (valid: bool)
    ensures valid == IsValidCpf(cpf)
  {
    var numbers := CleanCPF(cpf);
    if |numbers| != 11 {
      return false;
    }
    if AllSame(numbers) {
      return false;
    }
    ghost var values := Values(numbers);
    var sum := 0;
    for i := 0 to 9
      invariant sum == WeightedSum(values, i, 10)
    {
      assert values[i] == DigitValue(numbers[i]);
      sum := sum + DigitValue(numbers[i]) * (10 - i);
    }
    var digit1 := CheckDigit(sum);
    sum := 0;
    for i := 0 to 10
      invariant sum == WeightedSum(values, i, 11)
    {
      assert values[i] == DigitValue(numbers[i]);
      sum := sum + DigitValue(numbers[i]) * (11 - i);
    }
    var digit2 := CheckDigit(sum);
    return DigitValue(numbers[9]) == digit1 && DigitValue(numbers[10]) == digit2;
  }

  /** Anything that does not clean to exactly eleven digits is rejected. */
  lemma WrongLengthRejected(cpf: string)
    requires |CleanCPF(cpf)| != 11
    ensures !IsValidCpf(cpf)
  {
  }

  /** The ten strings made of one digit repeated eleven times are rejected. */
  lemma RepeatedDigitRejected(d: char)
    requires IsDigit(d)
    ensures !IsValidCpf(seq(11, _ => d))
  {
    var s: string := seq(11, _ => d);
    DigitsOfAllDigits(s);
    assert CleanCPF(s) == s;
  }

  /** Otherwise validity is exactly the two check digits. */
  lemma ValidIffCheckDigits(cpf: string)
    requires |CleanCPF(cpf)| == 11 && !AllSame(CleanCPF(cpf))
    ensures IsValidCpf(cpf) <==> HasCheckDigits(CleanCPF(cpf))
  {
  }

  // ---------------------------------------------------------------------------
  // generation

  /** `numbers.join('')` for single-digit numbers. */
  function JoinDigits(ns: seq<int>): (s: string)
    requires forall i :: 0 <= i < |ns| ==> 0 <= ns[i] <= 9
    ensures |s| == |ns| && AllDigits(s) && Values(s) == ns
  {
    seq(|ns|, i requires 0 <= i < |ns| => DigitChar(ns[i]))
  }

  lemma {:induction false} WeightedSumPrefix(a: seq<int>, b: seq<int>, n: nat, top: int)
    requires n <= |a| && n <= |b| && a[..n] == b[..n]
    ensures WeightedSum(a, n, top) == WeightedSum(b, n, top)
  {
    if n > 0 {
      assert a[n - 1] == a[..n][n - 1] == b[..n][n - 1] == b[n - 1];
      assert a[..n - 1] == a[..n][..n - 1];
      assert b[..n - 1] == b[..n][..n - 1];
      WeightedSumPrefix(a, b, n - 1, top);
    }
  }

  /** The sum of the weights top, top-1, ... of the first `n` positions. */
  function Weights(n: nat, top: int): int {
    if n == 0 then 0 else Weights(n - 1, top) + (top - (n - 1))
  }

  /** The weighted sum of a repeated value is that value times the sum of the weights. */
  lemma {:induction false} WeightedSumConstant(ds: seq<int>, n: nat, top: int, d: int)
    requires n <= |ds| && forall i :: 0 <= i < n ==> ds[i] == d
    ensures WeightedSum(ds, n, top) == d * Weights(n, top)
  {
    if n > 0 {
      WeightedSumConstant(ds, n - 1, top, d);
      var w := Weights(n - 1, top);
      assert d * w + d * (top - (n - 1)) == d * (w + (top - (n - 1)));
    }
  }

  /** For a repeated digit d both check digits are d again: 540 and 650 are 1 modulo 11. */
  lemma RepeatedCheckDigits(d: int)
    requires 0 <= d <= 9
    ensures CheckDigit(d * 54) == d && CheckDigit(d * 65) == d
  {
    if d == 0 {} else if d == 1 {} else if d == 2 {} else if d == 3 {} else if d == 4 {}
    else if d == 5 {} else if d == 6 {} else if d == 7 {} else if d == 8 {} else {}
  }

  /** `generateValidCPF` with its nine random leading digits passed in. The result
      is the nine digits followed by their two check digits, and it is accepted by
      `validateCPF` exactly when the nine digits are not all equal. */
  method GenerateValidCPF(nine: seq<int>) returns (cpf: string)
    requires |nine| == 9 && forall i :: 0 <= i < 9 ==> 0 <= nine[i] <= 9
    ensures |cpf| == 11 && AllDigits(cpf) && Values(cpf)[..9] == nine
    ensures HasCheckDigits(cpf)
    ensures IsValidCpf(cpf) <==> !(forall i :: 0 <= i < 9 ==> nine[i] == nine[0])
  {
    var numbers := nine;
    var sum := 0;
    for i := 0 to 9
      invariant sum == WeightedSum(numbers, i, 10)
    {
      sum := sum + numbers[i] * (10 - i);
    }
    var digit1 := CheckDigit(sum);
    numbers := numbers + [digit1];
    sum := 0;
    for i := 0 to 10
      invariant sum == WeightedSum(numbers, i, 11)
    {
      sum := sum + numbers[i] * (11 - i);
    }
    var digit2 := CheckDigit(sum);
    numbers := numbers + [digit2];
    cpf := JoinDigits(numbers);
    assert Values(cpf) == nine + [digit1, digit2];
    GeneratedChecks(cpf, nine, digit1, digit2);
    DigitsOfAllDigits(cpf);
    GeneratedAllSame(cpf, nine, digit1, digit2);
  }

  /** Nine digits followed by the two check digits computed from them pass the checksum. */
  lemma GeneratedChecks(cpf: string, nine: seq<int>, digit1: int, digit2: int)
    requires |nine| == 9 && |cpf| == 11 && Values(cpf) == nine + [digit1, digit2]
    requires digit1 == CheckDigit(WeightedSum(nine, 9, 10))
    requires digit2 == CheckDigit(WeightedSum(nine + [digit1], 10, 11))
    ensures HasCheckDigits(cpf)
  {
    var numbers := Values(cpf);
    assert numbers[..9] == nine[..9];
    assert numbers[..10] == (nine + [digit1])[..10];
    WeightedSumPrefix(numbers, nine, 9, 10);
    WeightedSumPrefix(numbers, nine + [digit1], 10, 11);
    assert DigitValue(cpf[9]) == numbers[9] == digit1;
    assert DigitValue(cpf[10]) == numbers[10] == digit2;
  }

  /** ... and they are one repeated digit exactly when the nine are. */
  lemma GeneratedAllSame(cpf: string, nine: seq<int>, digit1: int, digit2: int)
    requires |nine| == 9 && forall i :: 0 <= i < 9 ==> 0 <= nine[i] <= 9
    requires |cpf| == 11 && Values(cpf) == nine + [digit1, digit2]
    requires digit1 == CheckDigit(WeightedSum(nine, 9, 10))
    requires digit2 == CheckDigit(WeightedSum(nine + [digit1], 10, 11))
    ensures AllSame(cpf) <==> forall i :: 0 <= i < 9 ==> nine[i] == nine[0]
  {
    var numbers := Values(cpf);
    if forall i :: 0 <= i < 9 ==> nine[i] == nine[0] {
      var d := nine[0];
      WeightedSumConstant(nine, 9, 10, d);
      assert Weights(9, 10) == 54;
      RepeatedCheckDigits(d);
      assert digit1 == d;
      WeightedSumConstant(nine + [digit1], 10, 11, d);
      assert Weights(10, 11) == 65;
      assert digit2 == d;
      forall i | 0 <= i < 11 ensures cpf[i] == cpf[0] {
        assert DigitValue(cpf[i]) == numbers[i] == d == DigitValue(cpf[0]);
      }
    } else {
      var j :| 0 <= j < 9 && nine[j] != nine[0];
      assert DigitValue(cpf[j]) != DigitValue(cpf[0]);
    }
  }

  // ---------------------------------------------------------------------------

  /** The `{ valid, formatted, error? }` record of `validateAndFormatCPF`. */
  datatype CpfCheck = CpfCheck(valid: bool, formatted: string, error: Option<string>)

  /** `validateAndFormatCPF`: blank input, wrong length and a failed checksum each
      give their own message; success gives the masked number. */
  function ValidateAndFormatCPF(cpf: string): (r: CpfCheck)
    ensures r.valid == IsValidCpf(cpf)
    ensures IsBlank(cpf) ==> r == CpfCheck(false, "", Some("CPF é obrigatório"))
    ensures !IsBlank(cpf) && |CleanCPF(cpf)| != 11 ==>
      r == CpfCheck(false, cpf, Some("CPF deve ter 11 dígitos"))
    ensures !IsBlank(cpf) && |CleanCPF(cpf)| == 11 && !r.valid ==>
      r == CpfCheck(false, cpf, Some("CPF inválido"))
    ensures r.valid ==> r.formatted == FormatCPF(CleanCPF(cpf)) && r.error == None
  {
    if IsBlank(cpf) then
      BlankHasNoDigits(cpf);
      CpfCheck(false, "", Some("CPF é obrigatório"))
    else
      var cleaned := CleanCPF(cpf);
      if |cleaned| != 11 then CpfCheck(false, cpf, Some("CPF deve ter 11 dígitos"))
      else
        CleanCPFIdempotent(cpf);
        if !IsValidCpf(cleaned) then CpfCheck(false, cpf, Some("CPF inválido"))
        else CpfCheck(true, FormatCPF(cleaned), None)
  }
}
