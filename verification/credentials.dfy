/** The credentials step of registration: the username and password rules, the
    password-strength meter, the form check that stops at the first failure, and
    the form record the inputs update. */
module CadastroCredenciais {
  import opened Wrappers
  import opened Text
  import opened Inputs

  predicate IsAsciiLetter(c: char) { IsLowerAscii(c) || IsUpperAscii(c) }

  /** `[a-zA-Z0-9_]` */
  predicate IsWordChar(c: char) { IsAsciiLetter(c) || IsDigit(c) || c == '_' }

  /** `[@$!%*?&]` */
  predicate IsPasswordSymbol(c: char) { c in "@$!%*?&" }

  /** `/^[a-zA-Z0-9_]{3,20}$/` */
  predicate ValidateUsername(u: string) {
    3 <= |u| <= 20 && forall i :: 0 <= i < |u| ==> IsWordChar(u[i])
  }

  predicate HasLower(p: string) { exists i :: 0 <= i < |p| && IsLowerAscii(p[i]) }
  predicate HasUpper(p: string) { exists i :: 0 <= i < |p| && IsUpperAscii(p[i]) }
  predicate HasDigit(p: string) { exists i :: 0 <= i < |p| && IsDigit(p[i]) }
  predicate HasSymbol(p: string) { exists i :: 0 <= i < |p| && IsPasswordSymbol(p[i]) }

  /** `/^(?=.*[a-z])(?=.*[A-Z])(?=.*\d)[a-zA-Z\d@$!%*?&]{8,}$/`: eight or more
      characters from the letters, digits and the seven symbols, with at least one
      lower-case letter, one upper-case letter and one digit. */
  predicate ValidatePassword(p: string) {
    |p| >= 8
    && (forall i :: 0 <= i < |p| ==> IsAsciiLetter(p[i]) || IsDigit(p[i]) || IsPasswordSymbol(p[i]))
    && HasLower(p) && HasUpper(p) && HasDigit(p)
  }

  function Score(b: bool): nat { if b then 1 else 0 }

  /** How many of the six strength checks pass. */
  function StrengthCount(p: string): (n: nat)
    ensures n <= 6
  {
    Score(|p| >= 8) + Score(HasLower(p)) + Score(HasUpper(p)) + Score(HasDigit(p))
    + Score(HasSymbol(p)) + Score(|p| >= 12)
  }

  datatype Strength = Strength(level: string, color: string, widthPercent: nat)

  /** `getPasswordStrength`: two checks or fewer is weak, three or four medium, five
      or six strong. */
  function PasswordStrength(p: string): (s: Strength)
    ensures StrengthCount(p) <= 2 <==> s == Strength("Fraca", "#F44336", 33)
    ensures 3 <= StrengthCount(p) <= 4 <==> s == Strength("Média", "#FF9800", 66)
    ensures StrengthCount(p) >= 5 <==> s == Strength("Forte", "#4CAF50", 100)
  {
    var n := StrengthCount(p);
    if n <= 2 then Strength("Fraca", "#F44336", 33)
    else if n <= 4 then Strength("Média", "#FF9800", 66)
    else Strength("Forte", "#4CAF50", 100)
  }

  /** A password the form accepts scores at least four, so it is never shown as
      weak; with a symbol and twelve characters it is strong. */
  lemma AcceptedPasswordNotWeak(p: string)
    requires ValidatePassword(p)
    ensures StrengthCount(p) >= 4
    ensures PasswordStrength(p).level != "Fraca"
    ensures HasSymbol(p) && |p| >= 12 ==> PasswordStrength(p).level == "Forte"
  {
  }

  /** The first failing check of `validateForm`, with the message it shows. */
  function ValidateForm(username: string, password: string, confirmPassword: string): (error: Option<string>)
    ensures Blank(username) ==> error == Some("Por favor, insira um nome de usuário")
    ensures !Blank(username) && !ValidateUsername(username) ==>
      error == Some("Nome de usuário deve ter entre 3-20 caracteres e conter apenas letras, números e underscore")
    ensures ValidateUsername(username) && password == "" ==> error == Some("Por favor, insira uma senha")
    ensures ValidateUsername(username) && password != "" && !ValidatePassword(password) ==>
      error == Some("A senha deve ter pelo menos 8 caracteres, incluindo uma letra maiúscula, uma minúscula e um número")
    ensures ValidateUsername(username) && ValidatePassword(password) && password != confirmPassword ==>
      error == Some("As senhas não coincidem")
  {
    ValidUsernameNotBlank(username);
    if Blank(username) then Some("Por favor, insira um nome de usuário")
    else if !ValidateUsername(username) then
      Some("Nome de usuário deve ter entre 3-20 caracteres e conter apenas letras, números e underscore")
    else if password == "" then Some("Por favor, insira uma senha")
    else if !ValidatePassword(password) then
      Some("A senha deve ter pelo menos 8 caracteres, incluindo uma letra maiúscula, uma minúscula e um número")
    else if password != confirmPassword then Some("As senhas não coincidem")
    else None
  }

  /** A valid username starts with a word character, so it is not blank. */
  lemma ValidUsernameNotBlank(u: string)
    ensures ValidateUsername(u) ==> !Blank(u)
  {
    if ValidateUsername(u) {
      assert !IsSpace(u[0]);
    }
  }

  /** The next button is enabled when both rules hold and the passwords match. */
  predicate NextEnabled(username: string, password: string, confirmPassword: string) {
    ValidateUsername(username) && ValidatePassword(password) && password == confirmPassword
  }

  /** The form passes exactly when the next button is enabled: the blank and empty
      checks are implied by the two rules. */
  lemma FormPassesIffNextEnabled(username: string, password: string, confirmPassword: string)
    ensures ValidateForm(username, password, confirmPassword).None?
        <==> NextEnabled(username, password, confirmPassword)
  {
    ValidUsernameNotBlank(username);
  }

  /** The username field stores what is typed in lower case; lowering keeps a
      username valid or invalid as it was. */
  lemma LoweredUsername(typed: string)
    ensures forall i :: 0 <= i < |Lower(typed)| ==> !IsUpperAscii(Lower(typed)[i])
    ensures ValidateUsername(Lower(typed)) <==> ValidateUsername(typed)
  {
    var low := Lower(typed);
    assert forall i :: 0 <= i < |typed| ==> (IsWordChar(low[i]) <==> IsWordChar(typed[i]));
  }

  datatype Field = Username | Password | ConfirmPassword

  class CredentialsForm {
    var username: string
    var password: string
    var confirmPassword: string

    constructor ()
      ensures username == "" && password == "" && confirmPassword == ""
    {
      username := "";
      password := "";
      confirmPassword := "";
    }

    /** `updateField`: one field takes the value, the others keep theirs. */
    method UpdateField(field: Field, value: string)
      modifies this
      ensures username == (if field == Username then value else old(username))
      ensures password == (if field == Password then value else old(password))
      ensures confirmPassword == (if field == ConfirmPassword then value else old(confirmPassword))
    {
      match field
      case Username => username := value;
      case Password => password := value;
      case ConfirmPassword => confirmPassword := value;
    }

    /** The username input: what is typed is stored lower-cased. */
    method TypeUsername(typed: string)
      modifies this
      ensures username == Lower(typed)
      ensures password == old(password) && confirmPassword == old(confirmPassword)
    {
      UpdateField(Username, Lower(typed));
    }

    /** `validateForm` over the current fields. */
    method Validate() returns (ok: bool)
      ensures ok <==> ValidateForm(username, password, confirmPassword).None?
      ensures ok <==> NextEnabled(username, password, confirmPassword)
    {
      FormPassesIffNextEnabled(username, password, confirmPassword);
      ok := ValidateForm(username, password, confirmPassword).None?;
    }
  }
}
