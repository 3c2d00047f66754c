/** The login screen: the checks made before the session manager is asked, and
    the remember-me choice saved once the login has gone through. */
module LoginScreen {
  import opened Wrappers
  import opened Text
  import opened KeyValue
  import opened Inputs
  import opened AuthContext

  /** The checks of `handleLogin` that come before `login`, with the message of the
      first one that fails. */
  function PreCheck(email: string, password: string): (error: Option<string>)
    ensures error.None? <==> !Blank(email) && !Blank(password) && EmailPattern(email) && |password| >= 6
    ensures Blank(email) || Blank(password) ==> error == Some("Por favor, preencha todos os campos")
    ensures !Blank(email) && !Blank(password) && !EmailPattern(email) ==>
      error == Some("Por favor, insira um email válido")
    ensures !Blank(email) && !Blank(password) && EmailPattern(email) && |password| < 6 ==>
      error == Some("A senha deve ter pelo menos 6 caracteres")
  {
    if Blank(email) || Blank(password) then Some("Por favor, preencha todos os campos")
    else if !EmailPattern(email) then Some("Por favor, insira um email válido")
    else if |password| < 6 then Some("A senha deve ter pelo menos 6 caracteres")
    else None
  }

  /** The screen is stricter than the session manager: whatever passes the screen's
      checks is accepted by `login`, so "Email ou senha incorretos" is never shown. */
  lemma PreCheckImpliesAccepted(email: string, password: string)
    requires PreCheck(email, password).None?
    ensures AcceptsCredentials(email, password)
  {
    EmailPatternHasAt(email);
  }

  /** ... and strictly so: "a@b" with a six-letter password is accepted by `login`
      but stopped by the screen, which wants a dot in the domain. */
  lemma ScreenStricterThanLogin()
    ensures AcceptsCredentials("a@b", "secret")
    ensures PreCheck("a@b", "secret") == Some("Por favor, insira um email válido")
  {
    ContainsAt("a@b", 1, '@');
    assert "a@b"[0] == 'a' && !IsSpace('a');
    assert "secret"[0] == 's' && !IsSpace('s');
    assert !EmailPattern("a@b");
  }

  datatype LoginOutcome =
    | Rejected(message: string)  // a check of the screen failed; `login` was not called
    | WrongCredentials           // `login` answered false
    | LoggedIn

  /** `handleLogin`: the screen's checks, then `login`; after a successful login the
      remember-me choice is saved, and only then. */
  method HandleLogin(auth: AuthProvider, email: string, password: string, rememberMe: bool,
                     now: nat, random: string) returns (outcome: LoginOutcome)
    requires auth.Valid()
    modifies auth
    ensures auth.Valid()
    ensures PreCheck(email, password).Some? ==> outcome == Rejected(PreCheck(email, password).value)
    ensures outcome == LoggedIn <==> PreCheck(email, password).None?
    ensures outcome != WrongCredentials
    ensures outcome == LoggedIn ==>
      auth.user == Some(TestUser(email)) && auth.isAuthenticated
      && auth.store == WithSession(old(auth.store), TestUser(email), FakeToken(now, random))
                         [REMEMBER_ME := Serialized(BoolDoc(rememberMe))]
      && RememberMeOf(auth.store) == rememberMe
    ensures outcome != LoggedIn ==> unchanged(auth)
  {
    var error := PreCheck(email, password);
    if error.Some? {
      return Rejected(error.value);
    }
    PreCheckImpliesAccepted(email, password);
    var ok := auth.Login(email, password, now, random);
    if !ok {
      return WrongCredentials;
    }
    auth.SetRememberMe(rememberMe);
    outcome := LoggedIn;
  }
}
