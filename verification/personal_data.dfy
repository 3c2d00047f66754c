/** The personal-data step of registration: the record it fills, the masks its
    inputs apply, and the form check that stops at the first failure. `parseFloat`
    is a parameter that answers None for NaN; as written, a height or weight that
    does not read as a number is not rejected, because NaN is not below zero. */
module CadastroDadosPessoais {
  import opened Wrappers
  import opened Text
  import opened CpfUtils
  import opened Inputs

  /** `sexo` is one of "MASCULINO", "FEMININO", "OUTRO", or "" before a choice. */
  datatype DadosPessoais = DadosPessoais(
    nome: string,
    sobrenome: string,
    cpf: string,
    email: string,
    telefone: string,
    dataNascimento: string,
    sexo: string,
    altura: string,
    peso: string)

  const EmptyDados := DadosPessoais("", "", "", "", "", "", "", "", "")

  /** `validateCPF` of this screen: eleven digits, the check digits are not looked at. */
  predicate ValidateCpfLength(cpf: string) {
    |Digits(cpf)| == 11
  }

  /** `!value || parseFloat(value) <= 0` fails; anything else passes, NaN included. */
  predicate PositiveMeasure(value: string, parseFloat: string -> Option<real>) {
    value != "" && !(parseFloat(value).Some? && parseFloat(value).value <= 0.0)
  }

  /** A name of two characters or more that is not all whitespace. */
  predicate NameOk(s: string) {
    !Blank(s) && |s| >= 2
  }

  /** The name, surname and CPF checks, which come first. */
  predicate IdentityOk(d: DadosPessoais) {
    NameOk(d.nome) && NameOk(d.sobrenome) && ValidateCpfLength(d.cpf)
  }

  /** The e-mail, phone and birth-date checks, which come next. */
  predicate ContactOk(d: DadosPessoais) {
    EmailPattern(d.email) && ValidatePhone(d.telefone) && |d.dataNascimento| == 10
  }

  /** The first failing check of `validateForm`, with the message it shows. */
  function ValidateForm(d: DadosPessoais, parseFloat: string -> Option<real>): (error: Option<string>)
    ensures error.None? <==>
      NameOk(d.nome) && NameOk(d.sobrenome) && ValidateCpfLength(d.cpf) && EmailPattern(d.email)
      && ValidatePhone(d.telefone) && |d.dataNascimento| == 10 && d.sexo != ""
      && PositiveMeasure(d.altura, parseFloat) && PositiveMeasure(d.peso, parseFloat)
    ensures !NameOk(d.nome) ==> error == Some("Nome deve ter pelo menos 2 caracteres")
    ensures NameOk(d.nome) && !NameOk(d.sobrenome) ==> error == Some("Sobrenome deve ter pelo menos 2 caracteres")
    ensures NameOk(d.nome) && NameOk(d.sobrenome) && !ValidateCpfLength(d.cpf) ==>
      error == Some("Por favor, insira um CPF válido")
    ensures IdentityOk(d) && !EmailPattern(d.email) ==> error == Some("Por favor, insira um email válido")
    ensures IdentityOk(d) && EmailPattern(d.email) && !ValidatePhone(d.telefone) ==>
      error == Some("Por favor, insira um telefone válido")
    ensures IdentityOk(d) && EmailPattern(d.email) && ValidatePhone(d.telefone) && |d.dataNascimento| != 10 ==>
      error == Some("Por favor, insira uma data de nascimento válida")
    ensures IdentityOk(d) && ContactOk(d) && d.sexo == "" ==> error == Some("Por favor, selecione o sexo")
    ensures IdentityOk(d) && ContactOk(d) && d.sexo != "" && !PositiveMeasure(d.altura, parseFloat) ==>
      error == Some("Por favor, insira uma altura válida")
    ensures IdentityOk(d) && ContactOk(d) && d.sexo != "" && PositiveMeasure(d.altura, parseFloat) && !PositiveMeasure(d.peso, parseFloat) ==>
      error == Some("Por favor, insira um peso válido")
  {
    if !NameOk(d.nome) then Some("Nome deve ter pelo menos 2 caracteres")
    else if !NameOk(d.sobrenome) then Some("Sobrenome deve ter pelo menos 2 caracteres")
    else if !ValidateCpfLength(d.cpf) then Some("Por favor, insira um CPF válido")
    else if !EmailPattern(d.email) then Some("Por favor, insira um email válido")
    else if !ValidatePhone(d.telefone) then Some("Por favor, insira um telefone válido")
    else if |d.dataNascimento| != 10 then Some("Por favor, insira uma data de nascimento válida")
    else if d.sexo == "" then Some("Por favor, selecione o sexo")
    else if !PositiveMeasure(d.altura, parseFloat) then Some("Por favor, insira uma altura válida")
    else if !PositiveMeasure(d.peso, parseFloat) then Some("Por favor, insira um peso válido")
    else None
  }

  /** The screen's CPF check counts digits only: eleven equal digits pass it,
      though the check-digit validation rejects them. */
  lemma RepeatedDigitsPassLengthCheck(d: char)
    requires IsDigit(d)
    ensures ValidateCpfLength(seq(11, _ => d))
    ensures !IsValidCpf(seq(11, _ => d))
  {
    var s: string := seq(11, _ => d);
    DigitsOfAllDigits(s);
    RepeatedDigitRejected(d);
  }

  /** A text that does not read as a number passes the measure check; zero and
      negative readings, and the empty text, do not. */
  lemma MeasureCheck(value: string, parseFloat: string -> Option<real>)
    ensures value != "" && parseFloat(value).None? ==> PositiveMeasure(value, parseFloat)
    ensures parseFloat(value).Some? && parseFloat(value).value <= 0.0 ==> !PositiveMeasure(value, parseFloat)
    ensures value == "" ==> !PositiveMeasure(value, parseFloat)
  {
  }

  /** Typed through their masks, the CPF passes exactly when eleven digits were
      typed and the date has its ten characters exactly when eight were. */
  lemma MaskedInputsPass(typedCpf: string, typedDate: string)
    ensures ValidateCpfLength(FormatCPF(typedCpf)) <==> |Digits(typedCpf)| == 11
    ensures |MaskDate(typedDate)| == 10 <==> |Digits(typedDate)| == 8
  {
    MaskLengths(typedDate);
  }

  datatype Field = Nome | Sobrenome | Cpf | Email | Telefone | DataNascimento | Sexo | Altura | Peso

  class PersonalDataForm {
    var form: DadosPessoais

    constructor ()
      ensures form == EmptyDados
    {
      form := EmptyDados;
    }

    /** `updateField`: one field takes the value, the others keep theirs. */
    method UpdateField(field: Field, value: string)
      modifies this
      ensures form == match field
        case Nome => old(form).(nome := value)
        case Sobrenome => old(form).(sobrenome := value)
        case Cpf => old(form).(cpf := value)
        case Email => old(form).(email := value)
        case Telefone => old(form).(telefone := value)
        case DataNascimento => old(form).(dataNascimento := value)
        case Sexo => old(form).(sexo := value)
        case Altura => old(form).(altura := value)
        case Peso => old(form).(peso := value)
    {
      match field
      case Nome => form := form.(nome := value);
      case Sobrenome => form := form.(sobrenome := value);
      case Cpf => form := form.(cpf := value);
      case Email => form := form.(email := value);
      case Telefone => form := form.(telefone := value);
      case DataNascimento => form := form.(dataNascimento := value);
      case Sexo => form := form.(sexo := value);
      case Altura => form := form.(altura := value);
      case Peso => form := form.(peso := value);
    }

    /** The masked inputs: CPF, phone and date are stored masked. */
    method TypeMasked(field: Field, typed: string)
      requires field in {Cpf, Telefone, DataNascimento}
      modifies this
      ensures field == Cpf ==> form == old(form).(cpf := FormatCPF(typed))
      ensures field == Telefone ==> form == old(form).(telefone := MaskPhone(typed))
      ensures field == DataNascimento ==> form == old(form).(dataNascimento := MaskDate(typed))
    {
      var masked := if field == Cpf then FormatCPF(typed)
                    else if field == Telefone then MaskPhone(typed)
                    else MaskDate(typed);
      UpdateField(field, masked);
    }

    /** `handleNext`: the data moves on to the next step only when the form passes. */
    method HandleNext(parseFloat: string -> Option<real>) returns (next: Option<DadosPessoais>, error: Option<string>)
      ensures next.Some? <==> ValidateForm(form, parseFloat).None?
      ensures next.Some? ==> next.value == form
      ensures error == ValidateForm(form, parseFloat)
    {
      error := ValidateForm(form, parseFloat);
      next := if error.None? then Some(form) else None;
    }
  }
}
