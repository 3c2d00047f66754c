/** The address step of registration: the CEP mask and pattern, the form check
    that stops at the first failure, the date conversion and the request body sent
    when registration finishes, the merge of a CEP lookup into the form, and the
    state suggestions. The lookup itself is a network call; its outcome is a
    parameter. */
module CadastroEndereco {
  import opened Wrappers
  import opened Text
  import opened Inputs
  import opened KeyValue
  import opened AuthContext
  import opened CadastroDadosPessoais

  datatype Endereco = Endereco(
    logradouro: string,
    bairro: string,
    cep: string,
    numero: string,
    complemento: string,
    cidade: string,
    uf: string)

  const EmptyEndereco := Endereco("", "", "", "", "", "", "")

  datatype Field = Logradouro | Bairro | Cep | Numero | Complemento | Cidade | Uf

  /** `endereco[field]` */
  function FieldOf(e: Endereco, field: Field): string {
    match field
    case Logradouro => e.logradouro
    case Bairro => e.bairro
    case Cep => e.cep
    case Numero => e.numero
    case Complemento => e.complemento
    case Cidade => e.cidade
    case Uf => e.uf
  }

  /** `{ ...endereco, [field]: value }`: the named field takes the value and every
      other field keeps its own. */
  function WithField(e: Endereco, field: Field, value: string): (r: Endereco)
    ensures FieldOf(r, field) == value
    ensures forall g :: g != field ==> FieldOf(r, g) == FieldOf(e, g)
  {
    match field
    case Logradouro => e.(logradouro := value)
    case Bairro => e.(bairro := value)
    case Cep => e.(cep := value)
    case Numero => e.(numero := value)
    case Complemento => e.(complemento := value)
    case Cidade => e.(cidade := value)
    case Uf => e.(uf := value)
  }

  /** An address is its seven fields: writing back a field's own value changes
      nothing, and the last write to a field wins. */
  lemma WithFieldLaws(e: Endereco, field: Field, v: string, w: string)
    ensures WithField(e, field, FieldOf(e, field)) == e
    ensures WithField(WithField(e, field, v), field, w) == WithField(e, field, w)
  {
  }

  /** `/^\d{5}-?\d{3}$/`, tested on the text as it is. */
  predicate ValidateCepPattern(cep: string) {
    (|cep| == 8 && AllDigits(cep))
    || (|cep| == 9 && AllDigits(cep[..5]) && cep[5] == '-' && AllDigits(cep[6..]))
  }

  /** The pattern accepts exactly the masked form of eight digits and the eight
      digits alone; whatever it accepts holds eight digits. */
  lemma CepPatternAndMask(s: string, cep: string)
    ensures ValidateCepPattern(MaskCep(s)) <==> |Digits(s)| == 8
    ensures ValidateCepPattern(cep) ==> |Digits(cep)| == 8
  {
    var n := Digits(s);
    if |n| == 8 {
      var m := MaskCep(s);
      assert m == n[..5] + "-" + n[5..];
      assert m[..5] == n[..5] && m[6..] == n[5..];
    }
    if |n| > 8 {
      assert |MaskCep(s)| > 9;
    }
    if ValidateCepPattern(cep) {
      if |cep| == 8 {
        DigitsOfAllDigits(cep);
      } else {
        assert cep == cep[..5] + "-" + cep[6..];
        DigitsAround(cep[..5], "-", cep[6..]);
        DigitsOfAllDigits(cep[..5]);
        DigitsOfAllDigits(cep[6..]);
      }
    }
  }

  /** The lookup starts only when the masked CEP has nine characters, which is
      exactly when eight digits were typed, and then the lookup's own pattern check
      passes. */
  lemma LookupTrigger(s: string)
    ensures |MaskCep(s)| == 9 <==> |Digits(s)| == 8
    ensures |MaskCep(s)| == 9 ==> ValidateCepPattern(MaskCep(s))
  {
    MaskLengths(s);
    CepPatternAndMask(s, MaskCep(s));
  }

  /** The first failing check of `validateForm`, with the message it shows. */
  function ValidateForm(e: Endereco): (error: Option<string>)
    ensures error.None? <==>
      !Blank(e.logradouro) && !Blank(e.bairro) && ValidateCepPattern(e.cep)
      && !Blank(e.numero) && !Blank(e.cidade) && !Blank(e.uf) && |e.uf| == 2
    ensures Blank(e.logradouro) ==> error == Some("Por favor, insira o logradouro")
    ensures !Blank(e.logradouro) && Blank(e.bairro) ==> error == Some("Por favor, insira o bairro")
    ensures !Blank(e.logradouro) && !Blank(e.bairro) && !ValidateCepPattern(e.cep) ==>
      error == Some("Por favor, insira um CEP válido")
    ensures !Blank(e.logradouro) && !Blank(e.bairro) && ValidateCepPattern(e.cep) && Blank(e.numero) ==>
      error == Some("Por favor, insira o número")
    ensures !Blank(e.logradouro) && !Blank(e.bairro) && ValidateCepPattern(e.cep) && !Blank(e.numero) && Blank(e.cidade) ==>
      error == Some("Por favor, insira a cidade")
    ensures !Blank(e.logradouro) && !Blank(e.bairro) && ValidateCepPattern(e.cep) && !Blank(e.numero) && !Blank(e.cidade) && (Blank(e.uf) || |e.uf| != 2) ==>
      error == Some("Por favor, insira um UF válido (2 caracteres)")
  {
    if Blank(e.logradouro) then Some("Por favor, insira o logradouro")
    else if Blank(e.bairro) then Some("Por favor, insira o bairro")
    else if !ValidateCepPattern(e.cep) then Some("Por favor, insira um CEP válido")
    else if Blank(e.numero) then Some("Por favor, insira o número")
    else if Blank(e.cidade) then Some("Por favor, insira a cidade")
    else if Blank(e.uf) || |e.uf| != 2 then Some("Por favor, insira um UF válido (2 caracteres)")
    else None
  }

  // ---------------------------------------------------------------------------
  // the request body

  /** `convertDateToAPI`: "D/M/Y" to "Y-MM-DD", day and month padded to two
      characters, no calendar check. A text without '/' has no month and makes the
      source throw (None); a missing year prints as "undefined". */
  function ConvertDateToAPI(date: string): (r: Option<string>)
    ensures |Split(date, '/')| < 2 <==> r.None?
    ensures var parts := Split(date, '/');
      |parts| >= 3 ==> r == Some(parts[2] + "-" + PadStart2(parts[1]) + "-" + PadStart2(parts[0]))
    ensures var parts := Split(date, '/');
      |parts| == 2 ==> r == Some("undefined" + "-" + PadStart2(parts[1]) + "-" + PadStart2(parts[0]))
  {
    var parts := Split(date, '/');
    if |parts| < 2 then None
    else
      var year := if |parts| >= 3 then parts[2] else "undefined";
      Some(year + "-" + PadStart2(parts[1]) + "-" + PadStart2(parts[0]))
  }

  /** A date D/M/Y, whatever the lengths of its parts, converts to Y-MM-DD with day
      and month padded: "5/1/1990" becomes "1990-01-05". */
  lemma ConvertDateParts(d: string, m: string, y: string)
    requires '/' !in d && '/' !in m && '/' !in y
    ensures ConvertDateToAPI(d + "/" + m + "/" + y) == Some(y + "-" + PadStart2(m) + "-" + PadStart2(d))
  {
    assert d + "/" + m + "/" + y == d + ['/'] + m + ['/'] + y;
    SplitThree(d, m, y, '/');
  }

  /** A date with a day and a month but no year converts with the year "undefined". */
  lemma ConvertDateWithoutYear(d: string, m: string)
    requires '/' !in d && '/' !in m
    ensures ConvertDateToAPI(d + "/" + m) == Some("undefined-" + PadStart2(m) + "-" + PadStart2(d))
  {
    assert d + "/" + m == d + ['/'] + m;
    SplitAtFirst(d, '/', m);
    SplitNoSeparator(m, '/');
    assert Split(d + ['/'] + m, '/') == [d, m];
    assert "undefined" + "-" == "undefined-";
  }

  /** The example of a one-character day and month. */
  lemma ConvertDateExample()
    ensures ConvertDateToAPI("5/1/1990") == Some("1990-01-05")
  {
    var d, m, y := "5", "1", "1990";
    assert '/' !in d && '/' !in m && '/' !in y;
    ConvertDateParts(d, m, y);
    assert d + "/" + m + "/" + y == "5/1/1990";
    var month, day := PadStart2(m), PadStart2(d);
    assert month == "01" && day == "05";
    assert y + "-" + month + "-" + day == "1990-01-05";
  }

  /** A date typed through the date mask with eight digits, DD/MM/YYYY, converts to
      YYYY-MM-DD. */
  lemma ConvertMaskedDate(typed: string)
    requires |Digits(typed)| == 8
    ensures ConvertDateToAPI(MaskDate(typed))
         == Some(Digits(typed)[4..] + "-" + Digits(typed)[2..4] + "-" + Digits(typed)[..2])
  {
    var n := Digits(typed);
    var d, m, y := n[..2], n[2..4], n[4..];
    assert MaskDate(typed) == d + "/" + m + "/" + y;
    assert forall i :: 0 <= i < |n| ==> n[i] != '/';
    assert '/' !in d && '/' !in m && '/' !in y;
    SplitThree(d, m, y, '/');
  }

  datatype Credenciais = Credenciais(username: string, password: string)

  datatype RegistrationRequest = RegistrationRequest(
    nome: string,
    sobrenome: string,
    cpf: string,
    email: string,
    credenciais: Credenciais,
    telefone: string,
    dataNascimento: string,
    sexo: string,
    altura: Option<real>,
    peso: Option<real>,
    endereco: Endereco)

  /** The request body of `handleFinish`: CPF and CEP stripped to digits, the state
      upper-cased, the credentials nested, the date converted; `parseFloat` is a
      parameter (None for NaN). None when the date conversion throws. */
  function RequestBody(dados: DadosPessoais, credenciais: Credenciais, e: Endereco,
                       parseFloat: string -> Option<real>): (r: Option<RegistrationRequest>)
    ensures r.Some? <==> ConvertDateToAPI(dados.dataNascimento).Some?
    ensures r.Some? ==>
      var b := r.value;
      b.cpf == Digits(dados.cpf) && b.endereco.cep == Digits(e.cep)
      && b.endereco.uf == Upper(e.uf) && b.credenciais == credenciais
      && b.dataNascimento == ConvertDateToAPI(dados.dataNascimento).value
      && b.nome == dados.nome && b.sobrenome == dados.sobrenome && b.email == dados.email
      && b.telefone == dados.telefone && b.sexo == dados.sexo
      && b.altura == parseFloat(dados.altura) && b.peso == parseFloat(dados.peso)
      && b.endereco == e.(cep := Digits(e.cep), uf := Upper(e.uf))
  {
    var date := ConvertDateToAPI(dados.dataNascimento);
    if date.None? then None
    else Some(RegistrationRequest(
      dados.nome, dados.sobrenome, Digits(dados.cpf), dados.email, credenciais, dados.telefone,
      date.value, dados.sexo, parseFloat(dados.altura), parseFloat(dados.peso),
      e.(cep := Digits(e.cep), uf := Upper(e.uf))))
  }

  /** Once the address form passes, the CEP sent is eight digits and the state two
      upper-case-mapped characters. */
  lemma ValidFormSendsCleanAddress(dados: DadosPessoais, credenciais: Credenciais, e: Endereco,
                                   parseFloat: string -> Option<real>)
    requires ValidateForm(e).None?
    requires RequestBody(dados, credenciais, e, parseFloat).Some?
    ensures var b := RequestBody(dados, credenciais, e, parseFloat).value;
      |b.endereco.cep| == 8 && AllDigits(b.endereco.cep) && |b.endereco.uf| == 2
  {
    CepPatternAndMask(e.cep, e.cep);
  }

  /** A birth date that came through the personal-data step's date mask and passed
      its check never makes the body throw: it reaches the request as YYYY-MM-DD. */
  lemma CheckedDateConverts(dados: DadosPessoais, typed: string, credenciais: Credenciais, e: Endereco,
                            parseFloat: string -> Option<real>)
    requires CadastroDadosPessoais.ValidateForm(dados, parseFloat).None?
    requires dados.dataNascimento == MaskDate(typed)
    ensures RequestBody(dados, credenciais, e, parseFloat).Some?
    ensures var n := Digits(typed);
      RequestBody(dados, credenciais, e, parseFloat).value.dataNascimento == n[4..] + "-" + n[2..4] + "-" + n[..2]
  {
    MaskLengths(typed);
    ConvertMaskedDate(typed);
  }

  /** What `register` reads from the body: its name, e-mail, phone and converted
      birth date. The body has no top-level password, and registration does not
      use one. */
  function Registration(b: RegistrationRequest): (d: RegisterData)
    ensures d.nome == b.nome && d.email == b.email && d.telefone == b.telefone
    ensures d.dataNascimento == b.dataNascimento
  {
    RegisterData(b.nome, b.email, b.telefone, b.dataNascimento, "")
  }

  /** How `handleFinish` ends. */
  datatype FinishOutcome =
    | FormError(message: string)  // the address form failed a check
    | Incomplete                  // the earlier steps' data did not arrive
    | DateThrows                  // the birth date had no '/', and building the body threw
    | Registered

  /** `handleFinish`: the address form is checked first, then the presence of the
      earlier steps' data; the body is built and registration runs. Only a
      registration changes the session. */
  method HandleFinish(auth: AuthProvider, e: Endereco, dados: Option<DadosPessoais>,
                      credenciais: Option<Credenciais>, parseFloat: string -> Option<real>,
                      idNow: nat, tokenNow: nat, random: string) returns (outcome: FinishOutcome)
    requires auth.Valid()
    modifies auth
    ensures auth.Valid()
    ensures ValidateForm(e).Some? ==> outcome == FormError(ValidateForm(e).value)
    ensures ValidateForm(e).None? && (dados.None? || credenciais.None?) ==> outcome == Incomplete
    ensures outcome == Registered <==>
      ValidateForm(e).None? && dados.Some? && credenciais.Some?
      && RequestBody(dados.value, credenciais.value, e, parseFloat).Some?
    ensures outcome == Registered ==>
      var u := NewUser(Registration(RequestBody(dados.value, credenciais.value, e, parseFloat).value), idNow);
      auth.user == Some(u) && auth.isAuthenticated
      && auth.store == WithSession(old(auth.store), u, FakeToken(tokenNow, random))
    ensures outcome != Registered ==> unchanged(auth)
  {
    var error := ValidateForm(e);
    if error.Some? {
      return FormError(error.value);
    }
    if dados.None? || credenciais.None? {
      return Incomplete;
    }
    var body := RequestBody(dados.value, credenciais.value, e, parseFloat);
    if body.None? {
      return DateThrows;
    }
    var ok := auth.Register(Registration(body.value), idNow, tokenNow, random);
    outcome := Registered;
  }

  // ---------------------------------------------------------------------------
  // the CEP lookup

  /** What the lookup service answers: `erro` set for an unknown CEP; each address
      field may be missing or empty. */
  datatype LookupData = LookupData(
    erro: bool,
    logradouro: Option<string>,
    bairro: Option<string>,
    localidade: Option<string>,
    uf: Option<string>)

  /** `value || previous` */
  function NonEmptyOr(v: Option<string>, previous: string): string {
    if v.Some? && v.value != "" then v.value else previous
  }

  /** The lookup merge: street, district, city and state take the answer's
      non-empty values; an unknown CEP changes nothing. */
  function MergeLookup(prev: Endereco, data: LookupData): (r: Endereco)
    ensures r.numero == prev.numero && r.complemento == prev.complemento && r.cep == prev.cep
    ensures data.erro ==> r == prev
    ensures !data.erro && data.logradouro.Some? && data.logradouro.value != "" ==>
      r.logradouro == data.logradouro.value
    ensures r.logradouro != prev.logradouro ==>
      !data.erro && data.logradouro.Some? && data.logradouro.value == r.logradouro != ""
    ensures r.bairro != prev.bairro ==> !data.erro && data.bairro.Some? && data.bairro.value == r.bairro != ""
    ensures r.cidade != prev.cidade ==>
      !data.erro && data.localidade.Some? && data.localidade.value == r.cidade != ""
    ensures r.uf != prev.uf ==> !data.erro && data.uf.Some? && data.uf.value == r.uf != ""
    ensures !data.erro && data.bairro.Some? && data.bairro.value != "" ==> r.bairro == data.bairro.value
    ensures !data.erro && data.localidade.Some? && data.localidade.value != "" ==> r.cidade == data.localidade.value
    ensures !data.erro && data.uf.Some? && data.uf.value != "" ==> r.uf == data.uf.value
  {
    if data.erro then prev
    else prev.(logradouro := NonEmptyOr(data.logradouro, prev.logradouro),
               bairro := NonEmptyOr(data.bairro, prev.bairro),
               cidade := NonEmptyOr(data.localidade, prev.cidade),
               uf := NonEmptyOr(data.uf, prev.uf))
  }

  /** A lookup answer with every field empty leaves the form as it was, and
      merging the same answer twice is merging it once. */
  lemma MergeLookupStable(prev: Endereco, data: LookupData)
    ensures MergeLookup(prev, LookupData(false, None, Some(""), None, Some(""))) == prev
    ensures MergeLookup(MergeLookup(prev, data), data) == MergeLookup(prev, data)
  {
  }

  /** The outcome of the lookup call. */
  datatype LookupOutcome = Answered(data: LookupData) | Failed

  // ---------------------------------------------------------------------------
  // state suggestions

  const Ufs: seq<string> := [
    "AC", "AL", "AP", "AM", "BA", "CE", "DF", "ES", "GO", "MA",
    "MT", "MS", "MG", "PA", "PB", "PR", "PE", "PI", "RJ", "RN",
    "RS", "RO", "RR", "SC", "SP", "SE", "TO"
  ]

  /** `list.filter(uf => uf.startsWith(prefix))` */
  function StartingWith(list: seq<string>, prefix: string): (r: seq<string>)
    ensures |r| <= |list|
  {
    if list == [] then []
    else (if StartsWith(list[0], prefix) then [list[0]] else []) + StartingWith(list[1..], prefix)
  }

  /** The filter keeps exactly the entries with the prefix, in list order. */
  lemma {:induction false} StartingWithMembers(list: seq<string>, prefix: string)
    ensures forall x :: x in StartingWith(list, prefix) <==> x in list && StartsWith(x, prefix)
    ensures IsSubsequence(StartingWith(list, prefix), list)
  {
    if list != [] {
      StartingWithMembers(list[1..], prefix);
      assert list == [list[0]] + list[1..];
      var rest := StartingWith(list[1..], prefix);
      if StartsWith(list[0], prefix) {
        assert StartingWith(list, prefix) == [list[0]] + rest;
        assert ([list[0]] + rest)[1..] == rest;
      } else {
        assert StartingWith(list, prefix) == rest;
        SubsequenceOfTail(rest, list);
      }
    }
  }

  /** Dropping the head of the longer list keeps a subsequence one. */
  lemma SubsequenceOfTail<T>(a: seq<T>, b: seq<T>)
    requires b != [] && IsSubsequence(a, b[1..])
    ensures IsSubsequence(a, b)
  {
  }

  /** The filter distributes over concatenation. */
  lemma {:induction false} StartingWithAppend(a: seq<string>, b: seq<string>, prefix: string)
    ensures StartingWith(a + b, prefix) == StartingWith(a, prefix) + StartingWith(b, prefix)
  {
    if a != [] {
      assert (a + b)[1..] == a[1..] + b;
      StartingWithAppend(a[1..], b, prefix);
    } else {
      assert a + b == b;
    }
  }

  /** `a` is `b` with some entries dropped, the rest in order. */
  predicate IsSubsequence<T(==)>(a: seq<T>, b: seq<T>)
    decreases |b|
  {
    a == [] || (b != [] && ((a[0] == b[0] && IsSubsequence(a[1..], b[1..])) || IsSubsequence(a, b[1..])))
  }

  /** The suggestions, shown while one character is typed: at most six states
      starting with that character, upper-cased, in list order. */
  function UfSuggestions(typed: string): (r: seq<string>)
    ensures |typed| != 1 ==> r == []
    ensures |r| <= 6
    ensures |typed| == 1 ==> r <= StartingWith(Ufs, Upper(typed))
    ensures |typed| == 1 ==> |r| == if |StartingWith(Ufs, Upper(typed))| <= 6 then |StartingWith(Ufs, Upper(typed))| else 6
  {
    if |typed| != 1 then []
    else
      var matching := StartingWith(Ufs, Upper(typed));
      if |matching| <= 6 then matching else matching[..6]
  }

  /** Every suggestion is a state that starts with the typed letter. */
  lemma SuggestionsAreStates(typed: string)
    ensures forall x :: x in UfSuggestions(typed) ==> x in Ufs && StartsWith(x, Upper(typed))
  {
    StartingWithMembers(Ufs, Upper(typed));
  }

  /** Typing "m" suggests the four states starting with M, in list order. */
  lemma SuggestionsForM()
    ensures UfSuggestions("m") == ["MA", "MT", "MS", "MG"]
  {
    assert Upper("m") == "M";
    var before := ["AC", "AL", "AP", "AM", "BA", "CE", "DF", "ES", "GO"];
    var block := ["MA", "MT", "MS", "MG"];
    var after := ["PA", "PB", "PR", "PE", "PI", "RJ", "RN", "RS", "RO", "RR", "SC", "SP", "SE", "TO"];
    assert Ufs == before + block + after;
    LetterBlock(before, block, after, 'M');
  }

  /** The filter on a letter picks out the block of entries starting with it when
      the entries before and after it start otherwise. */
  lemma {:induction false} LetterBlock(before: seq<string>, block: seq<string>, after: seq<string>, c: char)
    requires forall i :: 0 <= i < |before| ==> |before[i]| >= 1 && before[i][0] != c
    requires forall i :: 0 <= i < |block| ==> |block[i]| >= 1 && block[i][0] == c
    requires forall i :: 0 <= i < |after| ==> |after[i]| >= 1 && after[i][0] != c
    ensures StartingWith(before + block + after, [c]) == block
  {
    StartingWithAppend(before + block, after, [c]);
    StartingWithAppend(before, block, [c]);
    NoneStartWith(before, c);
    AllStartWith(block, c);
    NoneStartWith(after, c);
  }

  /** A one-letter prefix is a test of the first character. */
  lemma StartsWithLetter(x: string, c: char)
    ensures StartsWith(x, [c]) <==> |x| >= 1 && x[0] == c
  {
    if |x| >= 1 {
      assert x[..1] == [x[0]];
    }
  }

  lemma {:induction false} AllStartWith(list: seq<string>, c: char)
    requires forall i :: 0 <= i < |list| ==> |list[i]| >= 1 && list[i][0] == c
    ensures StartingWith(list, [c]) == list
  {
    if list != [] {
      StartsWithLetter(list[0], c);
      AllStartWith(list[1..], c);
    }
  }

  lemma {:induction false} NoneStartWith(list: seq<string>, c: char)
    requires forall i :: 0 <= i < |list| ==> |list[i]| >= 1 && list[i][0] != c
    ensures StartingWith(list, [c]) == []
  {
    if list != [] {
      StartsWithLetter(list[0], c);
      NoneStartWith(list[1..], c);
    }
  }

  // ---------------------------------------------------------------------------
  // the form

  class AddressForm {
    var form: Endereco
    var loadingCep: bool

    constructor ()
      ensures form == EmptyEndereco && !loadingCep
    {
      form := EmptyEndereco;
      loadingCep := false;
    }

    /** `updateField` */
    method UpdateField(field: Field, value: string)
      modifies this
      ensures form == WithField(old(form), field, value)
      ensures loadingCep == old(loadingCep)
    {
      form := WithField(form, field, value);
    }

    /** The CEP input: the typed text is masked and stored; with nine characters the
        lookup runs and its answer is merged. */
    method TypeCep(typed: string, outcome: LookupOutcome)
      modifies this
      ensures form.cep == MaskCep(typed)
      ensures |MaskCep(typed)| == 9 && outcome.Answered? ==>
        form == MergeLookup(old(form).(cep := MaskCep(typed)), outcome.data)
      ensures !(|MaskCep(typed)| == 9 && outcome.Answered?) ==> form == old(form).(cep := MaskCep(typed))
      ensures !loadingCep
    {
      var formatted := MaskCep(typed);
      UpdateField(Cep, formatted);
      if |formatted| == 9 {
        LookupTrigger(typed);
        loadingCep := true;
        if outcome.Answered? {
          form := MergeLookup(form, outcome.data);
        }
      }
      loadingCep := false;
    }

    /** The state input stores what is typed upper-cased. */
    method TypeUf(typed: string)
      modifies this
      ensures form == old(form).(uf := Upper(typed)) && loadingCep == old(loadingCep)
    {
      UpdateField(Uf, Upper(typed));
    }
  }
}
