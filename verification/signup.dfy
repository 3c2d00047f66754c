/** The single-page sign-up screen: its form, the check that stops at the first
    failure, and the registration it starts when the form passes. */
module Cadastro {
  import opened Wrappers
  import opened Text
  import opened KeyValue
  import opened Inputs
  import opened AuthContext
  import LoginScreen

  datatype SignUpData = SignUpData(
    nome: string,
    email: string,
    telefone: string,
    dataNascimento: string,
    password: string,
    confirmPassword: string)

  const EmptySignUp := SignUpData("", "", "", "", "", "")

  /** The name check, which comes first. */
  predicate NameOk(f: SignUpData) {
    !Blank(f.nome) && |f.nome| >= 2
  }

  /** The name, e-mail, phone and birth-date checks, which come before the password. */
  predicate ContactOk(f: SignUpData) {
    NameOk(f) && EmailPattern(f.email) && ValidatePhone(f.telefone) && |f.dataNascimento| == 10
  }

  /** The first failing check of `validateForm`, with the message it shows. */
  function ValidateForm(f: SignUpData, acceptTerms: bool): (error: Option<string>)
    ensures error.None? <==>
      !Blank(f.nome) && |f.nome| >= 2 && EmailPattern(f.email) && ValidatePhone(f.telefone)
      && |f.dataNascimento| == 10 && |f.password| >= 6 && f.password == f.confirmPassword && acceptTerms
    ensures (Blank(f.nome) || |f.nome| < 2) ==> error == Some("Nome deve ter pelo menos 2 caracteres")
    ensures NameOk(f) && !EmailPattern(f.email) ==> error == Some("Por favor, insira um email válido")
    ensures NameOk(f) && EmailPattern(f.email) && !ValidatePhone(f.telefone) ==>
      error == Some("Por favor, insira um telefone válido")
    ensures NameOk(f) && EmailPattern(f.email) && ValidatePhone(f.telefone) && |f.dataNascimento| != 10 ==>
      error == Some("Por favor, insira uma data de nascimento válida")
    ensures ContactOk(f) && |f.password| < 6 ==> error == Some("A senha deve ter pelo menos 6 caracteres")
    ensures ContactOk(f) && |f.password| >= 6 && f.password != f.confirmPassword ==>
      error == Some("As senhas não coincidem")
    ensures error.Some? && !acceptTerms && |f.password| >= 6 && f.password == f.confirmPassword ==>
      error != Some("A senha deve ter pelo menos 6 caracteres") && error != Some("As senhas não coincidem")
    ensures error == Some("Você deve aceitar os termos de uso") <==>
      !Blank(f.nome) && |f.nome| >= 2 && EmailPattern(f.email) && ValidatePhone(f.telefone)
      && |f.dataNascimento| == 10 && |f.password| >= 6 && f.password == f.confirmPassword && !acceptTerms
  {
    if Blank(f.nome) || |f.nome| < 2 then Some("Nome deve ter pelo menos 2 caracteres")
    else if !EmailPattern(f.email) then Some("Por favor, insira um email válido")
    else if !ValidatePhone(f.telefone) then Some("Por favor, insira um telefone válido")
    else if |f.dataNascimento| != 10 then Some("Por favor, insira uma data de nascimento válida")
    else if |f.password| < 6 then Some("A senha deve ter pelo menos 6 caracteres")
    else if f.password != f.confirmPassword then Some("As senhas não coincidem")
    else if !acceptTerms then Some("Você deve aceitar os termos de uso")
    else None
  }

  /** What `register` receives from the form. */
  function Registration(f: SignUpData): (d: RegisterData)
    ensures d.nome == f.nome && d.email == f.email && d.telefone == f.telefone
    ensures d.dataNascimento == f.dataNascimento && d.password == f.password
  {
    RegisterData(f.nome, f.email, f.telefone, f.dataNascimento, f.password)
  }

  /** Credentials that pass sign-up pass the login screen too, unless the password
      is all whitespace: sign-up counts its characters, login trims it first. */
  lemma SignedUpCanLogIn(f: SignUpData)
    requires ValidateForm(f, true).None?
    ensures LoginScreen.PreCheck(f.email, f.password).None? <==> !Blank(f.password)
  {
    if EmailPattern(f.email) {
      EmailPatternHasAt(f.email);
      assert !Blank(f.email) by {
        var a, b :| 0 < a && a + 1 < b && b + 1 < |f.email| && f.email[a] == '@' && f.email[b] == '.'
          && PlainChars(f.email[..a]) && PlainChars(f.email[a + 1..b]) && PlainChars(f.email[b + 1..]);
        assert f.email[..a][0] == f.email[0];
      }
    }
  }

  /** Six spaces are a password sign-up accepts and the login screen refuses. */
  lemma BlankPasswordSignsUpButCannotLogIn()
    ensures var f := SignUpData("Ana", "ana@x.com", "(11) 99999-9999", "01/01/1990", "      ", "      ");
      ValidateForm(f, true).None?
      && LoginScreen.PreCheck(f.email, f.password) == Some("Por favor, preencha todos os campos")
  {
    SampleName();
    SampleEmail();
    SixSpaces();
    BlankPasswordCase(SignUpData("Ana", "ana@x.com", "(11) 99999-9999", "01/01/1990", "      ", "      "));
  }

  lemma SampleName()
    ensures !Blank("Ana") && |"Ana"| >= 2
  {
    assert "Ana"[0] == 'A' && !IsSpace('A');
  }

  lemma SixSpaces()
    ensures Blank("      ") && |"      "| >= 6
  {
    var pw := "      ";
    assert forall i :: 0 <= i < |pw| ==> pw[i] == ' ';
  }

  /** The general case: a form that passes on every other field, with a password of
      six or more whitespace characters. */
  lemma BlankPasswordCase(f: SignUpData)
    requires !Blank(f.nome) && |f.nome| >= 2 && EmailPattern(f.email) && !Blank(f.email)
    requires |f.telefone| >= 10 && |f.dataNascimento| == 10
    requires f.password == f.confirmPassword && |f.password| >= 6 && Blank(f.password)
    ensures ValidateForm(f, true).None?
    ensures LoginScreen.PreCheck(f.email, f.password) == Some("Por favor, preencha todos os campos")
  {
  }

  lemma SampleEmail()
    ensures EmailPattern("ana@x.com") && !Blank("ana@x.com")
  {
    var email := "ana@x.com";
    assert email[0] == 'a' && !IsSpace('a');
    assert email[3] == '@' && email[5] == '.';
    assert PlainChars(email[..3]) && PlainChars(email[4..5]) && PlainChars(email[6..]);
  }

  datatype SignUpOutcome =
    | Rejected(message: string)
    | Registered

  /** `handleSignUp`: registration runs only when the form passes, and then the new
      user is logged in; otherwise the session is left alone. */
  method HandleSignUp(auth: AuthProvider, f: SignUpData, acceptTerms: bool,
                      idNow: nat, tokenNow: nat, random: string) returns (outcome: SignUpOutcome)
    requires auth.Valid()
    modifies auth
    ensures auth.Valid()
    ensures outcome == Registered <==> ValidateForm(f, acceptTerms).None?
    ensures outcome.Rejected? ==> outcome.message == ValidateForm(f, acceptTerms).value && unchanged(auth)
    ensures outcome == Registered ==>
      auth.user == Some(NewUser(Registration(f), idNow)) && auth.isAuthenticated
      && auth.store == WithSession(old(auth.store), NewUser(Registration(f), idNow), FakeToken(tokenNow, random))
  {
    var error := ValidateForm(f, acceptTerms);
    if error.Some? {
      return Rejected(error.value);
    }
    var ok := auth.Register(Registration(f), idNow, tokenNow, random);
    outcome := Registered;
  }

  datatype Field = Nome | Email | Telefone | DataNascimento | Password | ConfirmPassword

  class SignUpForm {
    var data: SignUpData
    var acceptTerms: bool

    constructor ()
      ensures data == EmptySignUp && !acceptTerms
    {
      data := EmptySignUp;
      acceptTerms := false;
    }

    /** `updateField`: one field takes the value, the others keep theirs. */
    method UpdateField(field: Field, value: string)
      modifies this
      ensures data == match field
        case Nome => old(data).(nome := value)
        case Email => old(data).(email := value)
        case Telefone => old(data).(telefone := value)
        case DataNascimento => old(data).(dataNascimento := value)
        case Password => old(data).(password := value)
        case ConfirmPassword => old(data).(confirmPassword := value)
      ensures acceptTerms == old(acceptTerms)
    {
      match field
      case Nome => data := data.(nome := value);
      case Email => data := data.(email := value);
      case Telefone => data := data.(telefone := value);
      case DataNascimento => data := data.(dataNascimento := value);
      case Password => data := data.(password := value);
      case ConfirmPassword => data := data.(confirmPassword := value);
    }

    /** The phone and date inputs store what is typed masked. */
    method TypeMasked(field: Field, typed: string)
      requires field == Telefone || field == DataNascimento
      modifies this
      ensures field == Telefone ==> data == old(data).(telefone := MaskPhone(typed))
      ensures field == DataNascimento ==> data == old(data).(dataNascimento := MaskDate(typed))
      ensures acceptTerms == old(acceptTerms)
    {
      UpdateField(field, if field == Telefone then MaskPhone(typed) else MaskDate(typed));
    }

    /** The terms checkbox flips. */
    method ToggleTerms()
      modifies this
      ensures acceptTerms == !old(acceptTerms) && data == old(data)
    {
      acceptTerms := !acceptTerms;
    }
  }
}
