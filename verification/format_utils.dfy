/** CEP (Brazilian postal code, eight digits) and telephone masks shared by the
    application: `formatCEP`, `unformatCEP`, `validateCEP`, `formatTelefone`,
    `unformatTelefone`. */
module FormatUtils {
  import opened Text

  /** `formatCEP`: eight digits become DDDDD-DDD; any other input comes back as given. */
  function FormatCEP(cep: string): (r: string)
    ensures cep == [] ==> r == []
    ensures |Digits(cep)| != 8 ==> r == cep
    ensures |Digits(cep)| == 8 ==>
      |r| == 9 && r[5] == '-' && r[..5] == Digits(cep)[..5] && r[6..] == Digits(cep)[5..]
    ensures Digits(r) == Digits(cep)
  {
    if cep == [] then []
    else
      var clean := Digits(cep);
      if |clean| != 8 then cep
      else
        CepMaskDigits(clean);
        clean[..5] + "-" + clean[5..]
  }

  lemma CepMaskDigits(d: string)
    requires |d| >= 5 && AllDigits(d)
    ensures Digits(d[..5] + "-" + d[5..]) == d
  {
    DigitsAround(d[..5], "-", d[5..]);
    DigitsOfAllDigits(d[..5]);
    DigitsOfAllDigits(d[5..]);
    assert d == d[..5] + d[5..];
  }

  /** Formatting a formatted CEP changes nothing. */
  lemma FormatCEPIdempotent(cep: string)
    ensures FormatCEP(FormatCEP(cep)) == FormatCEP(cep)
  {
    var r := FormatCEP(cep);
    if |Digits(cep)| == 8 {
      assert r == Digits(cep)[..5] + "-" + Digits(cep)[5..];
    }
  }

  /** `unformatCEP`: only the digits. */
  function UnformatCEP(cep: string): (r: string)
    ensures AllDigits(r)
    ensures r == Digits(cep)
  {
    if cep == [] then [] else Digits(cep)
  }

  lemma UnformatCEPIdempotent(cep: string)
    ensures UnformatCEP(UnformatCEP(cep)) == UnformatCEP(cep)
  {
    DigitsIdempotent(cep);
  }

  /** Formatting the bare digits of an eight-digit CEP gives the same mask as
      formatting the CEP itself. */
  lemma FormatOfUnformat(cep: string)
    requires |Digits(cep)| == 8
    ensures FormatCEP(UnformatCEP(cep)) == FormatCEP(cep)
  {
    DigitsIdempotent(cep);
  }

  /** `validateCEP`: a non-empty input whose digits, once separated out, are exactly eight. */
  function ValidateCEP(cep: string): (ok: bool)
    ensures ok <==> |Digits(cep)| == 8
    ensures cep == [] ==> !ok
  {
    if cep == [] then false
    else
      var clean := UnformatCEP(cep);
      |clean| == 8 && AllDigits(clean)
  }

  /** A CEP the validator accepts is masked by `FormatCEP`. */
  lemma ValidCEPIsMasked(cep: string)
    requires ValidateCEP(cep)
    ensures |FormatCEP(cep)| == 9 && FormatCEP(cep)[5] == '-'
  {
  }

  // ---------------------------------------------------------------------------

  /** (DD) DDDDD-DDDD for eleven digits, (DD) DDDD-DDDD for ten. */
  function PhoneMask(d: string): (r: string)
    requires |d| == 10 || |d| == 11
  {
    var split := |d| - 4;
    "(" + d[..2] + ") " + d[2..split] + "-" + d[split..]
  }

  lemma PhoneMaskDigits(d: string)
    requires (|d| == 10 || |d| == 11) && AllDigits(d)
    ensures Digits(PhoneMask(d)) == d
  {
    var split := |d| - 4;
    CutDigits(d, 2, split);
    var open, close, dash := "(", ") ", "-";
    assert NoDigits(open) && NoDigits(close) && NoDigits(dash);
    DigitsOfGroups(open, d[..2], close, d[2..split], dash, d[split..]);
  }

  /** `formatTelefone`: ten or eleven digits are masked, anything else is returned as given. */
  function FormatTelefone(telefone: string): (r: string)
    ensures telefone == [] ==> r == []
    ensures var n := |Digits(telefone)|; n < 10 || n > 11 ==> r == telefone
    ensures |Digits(telefone)| == 11 ==>
      var d := Digits(telefone);
      |r| == 15 && r[0] == '(' && r[1..3] == d[..2] && r[3..5] == ") "
      && r[5..10] == d[2..7] && r[10] == '-' && r[11..] == d[7..]
    ensures |Digits(telefone)| == 10 ==>
      var d := Digits(telefone);
      |r| == 14 && r[0] == '(' && r[1..3] == d[..2] && r[3..5] == ") "
      && r[5..9] == d[2..6] && r[9] == '-' && r[10..] == d[6..]
    ensures Digits(r) == Digits(telefone)
  {
    if telefone == [] then []
    else
      var clean := Digits(telefone);
      if |clean| < 10 || |clean| > 11 then telefone
      else
        PhoneMaskDigits(clean);
        PhoneMask(clean)
  }

  /** `unformatTelefone`: only the digits. */
  function UnformatTelefone(telefone: string): (r: string)
    ensures AllDigits(r)
    ensures r == Digits(telefone)
  {
    if telefone == [] then [] else Digits(telefone)
  }

  lemma UnformatTelefoneIdempotent(telefone: string)
    ensures UnformatTelefone(UnformatTelefone(telefone)) == UnformatTelefone(telefone)
  {
    DigitsIdempotent(telefone);
  }

  /** Unformatting undoes formatting. */
  lemma UnformatFormatTelefone(telefone: string)
    ensures UnformatTelefone(FormatTelefone(telefone)) == UnformatTelefone(telefone)
  {
  }

  /** Formatting a formatted telephone changes nothing. */
  lemma FormatTelefoneIdempotent(telefone: string)
    ensures FormatTelefone(FormatTelefone(telefone)) == FormatTelefone(telefone)
  {
    var d := Digits(telefone);
    if 10 <= |d| <= 11 {
      assert FormatTelefone(telefone) == PhoneMask(d);
    }
  }
}
