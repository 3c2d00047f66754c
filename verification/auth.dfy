/** The session manager (`AuthProvider`). It is a simulated one: any e-mail with
    an '@' and any password of six or more characters log in as a fixed test
    user; registration always succeeds and logs the new user in; a stored token
    is judged only by its length. The clock and the random part of the tokens
    are parameters; delays are not modelled, so every operation is atomic. */
module AuthContext {
  import opened Wrappers
  import opened Text
  import opened KeyValue

  datatype RegisterData = RegisterData(
    nome: string,
    email: string,
    telefone: string,
    dataNascimento: string,
    password: string)

  /** The keys `clearUserData` removes. */
  const SessionKeys: seq<string> := [USER_DATA, USER_TOKEN, REMEMBER_ME]

  /** `validateToken`: a token is accepted unless it is empty or shorter than ten characters. */
  function ValidateToken(token: string): (ok: bool)
    ensures ok <==> !(token == [] || |token| < 10)
    ensures ok ==> token != []
  {
    |token| >= 10
  }

  /** The credential check of the simulated `login`. */
  predicate AcceptsCredentials(email: string, password: string) {
    Contains(email, "@") && |password| >= 6
  }

  /** The fixed user every successful login yields. */
  function TestUser(email: string): (u: UserData)
    ensures u.id == "12345" && u.nome == "Usuário Teste" && u.email == email
    ensures u.telefone == Some("(11) 99999-9999") && u.dataNascimento == Some("01/01/1990")
  {
    UserData("12345", "Usuário Teste", email, Some("(11) 99999-9999"), Some("01/01/1990"), None)
  }

  /** `fake_token_${now}_${random}` */
  function FakeToken(now: nat, random: string): (t: string)
    ensures StartsWith(t, "fake_token_")
    ensures ValidateToken(t)
  {
    "fake_token_" + NatToString(now) + "_" + random
  }

  /** The user registration creates from the submitted data. */
  function NewUser(data: RegisterData, now: nat): (u: UserData)
    ensures u.id == "user_" + NatToString(now)
    ensures u.nome == data.nome && u.email == data.email
    ensures u.telefone == Some(data.telefone) && u.dataNascimento == Some(data.dataNascimento)
  {
    UserData("user_" + NatToString(now), data.nome, data.email, Some(data.telefone), Some(data.dataNascimento), None)
  }

  /** `token || null`: what `loadUserData` finds under the token key. */
  function LoadedToken(s: Store): (t: Option<string>)
    ensures t.Some? ==> t.value != [] && StoredText(s, USER_TOKEN) == t
    ensures StoredText(s, USER_TOKEN) == Some([]) ==> t == None
  {
    var raw := StoredText(s, USER_TOKEN);
    if raw.Some? && raw.value != [] then raw else None
  }

  class AuthProvider {
    var user: Option<UserData>
    var isLoading: bool
    var isAuthenticated: bool
    var store: Store

    /** The session invariant: authenticated exactly when there is a user, and then
        that user and a token that validates are what the store holds. */
    predicate Valid()
      reads this
    {
      (isAuthenticated <==> user.Some?)
      && (isAuthenticated ==>
            StoredUser(store) == user
            && LoadedToken(store).Some? && ValidateToken(LoadedToken(store).value))
    }

    /** Mounting: no user, loading, not authenticated, over the device store as it is. */
    constructor (device: Store)
      ensures Valid()
      ensures user == None && isLoading && !isAuthenticated && store == device
    {
      user := None;
      isLoading := true;
      isAuthenticated := false;
      store := device;
    }

    /** `saveUserData` */
    method SaveUserData(u: UserData, token: string)
      modifies this`store
      ensures store == WithSession(old(store), u, token)
    {
      store := store[USER_DATA := Serialized(UserDoc(u))];
      store := store[USER_TOKEN := Raw(token)];
    }

    /** `loadUserData`: the stored user, and the stored token unless it is empty. */
    method LoadUserData() returns (savedUser: Option<UserData>, token: Option<string>)
      ensures savedUser == StoredUser(store) && token == LoadedToken(store)
    {
      savedUser := StoredUser(store);
      var raw := StoredText(store, USER_TOKEN);
      token := if raw.Some? && raw.value != [] then raw else None;
    }

    /** `clearUserData`: removes the user, the token and the remember-me flag. */
    method ClearUserData()
      modifies this`store
      ensures store == WithoutKeys(old(store), SessionKeys)
    {
      store := WithoutKeys(store, SessionKeys);
    }

    /** `login`, with the clock and the random draw passed in. */
    method Login(email: string, password: string, now: nat, random: string) returns (ok: bool)
      requires Valid()
      modifies this
      ensures Valid() && !isLoading
      ensures ok <==> AcceptsCredentials(email, password)
      ensures ok ==> user == Some(TestUser(email)) && isAuthenticated
                     && store == WithSession(old(store), TestUser(email), FakeToken(now, random))
      ensures !ok ==> user == old(user) && isAuthenticated == old(isAuthenticated) && store == old(store)
    {
      isLoading := true;
      if Contains(email, "@") && |password| >= 6 {
        var userData := TestUser(email);
        var token := FakeToken(now, random);
        SaveUserData(userData, token);
        user := Some(userData);
        isAuthenticated := true;
        ok := true;
      } else {
        ok := false;
      }
      isLoading := false;
    }

    /** `register`: always succeeds and logs the new user in. */
    method Register(data: RegisterData, idNow: nat, tokenNow: nat, random: string) returns (ok: bool)
      requires Valid()
      modifies this
      ensures Valid() && !isLoading
      ensures ok && isAuthenticated && user == Some(NewUser(data, idNow))
      ensures store == WithSession(old(store), NewUser(data, idNow), FakeToken(tokenNow, random))
    {
      isLoading := true;
      var newUser := NewUser(data, idNow);
      var token := FakeToken(tokenNow, random);
      SaveUserData(newUser, token);
      user := Some(newUser);
      isAuthenticated := true;
      isLoading := false;
      ok := true;
    }

    /** `logout` */
    method Logout()
      requires Valid()
      modifies this
      ensures Valid() && !isLoading
      ensures user == None && !isAuthenticated
      ensures store == WithoutKeys(old(store), SessionKeys)
    {
      isLoading := true;
      ClearUserData();
      user := None;
      isAuthenticated := false;
      isLoading := false;
    }

    /** `checkAuthState`: restore a stored session whose token validates, clear one
        whose token does not, and otherwise change nothing. */
    method CheckAuthState()
      requires Valid()
      modifies this
      ensures Valid() && !isLoading
      ensures var saved, token := StoredUser(old(store)), LoadedToken(old(store));
        if saved.Some? && token.Some? && ValidateToken(token.value) then
          user == saved && isAuthenticated && store == old(store)
        else if saved.Some? && token.Some? then
          user == old(user) && isAuthenticated == old(isAuthenticated)
          && store == WithoutKeys(old(store), SessionKeys)
        else
          user == old(user) && isAuthenticated == old(isAuthenticated) && store == old(store)
    {
      isLoading := true;
      var savedUser, token := LoadUserData();
      if savedUser.Some? && token.Some? {
        if ValidateToken(token.value) {
          user := savedUser;
          isAuthenticated := true;
        } else {
          ClearUserData();
        }
      }
      isLoading := false;
    }

    /** `setRememberMe` */
    method SetRememberMe(remember: bool)
      modifies this`store
      ensures store == old(store)[REMEMBER_ME := Serialized(BoolDoc(remember))]
    {
      store := store[REMEMBER_ME := Serialized(BoolDoc(remember))];
    }

    /** `getRememberMe`: false when nothing is stored. */
    method GetRememberMe() returns (remember: bool)
      ensures remember == RememberMeOf(store)
      ensures REMEMBER_ME !in store ==> !remember
    {
      remember := REMEMBER_ME in store && store[REMEMBER_ME] == Serialized(BoolDoc(true));
    }
  }

  /** Logging out twice leaves the store as logging out once. */
  lemma LogoutIdempotent(s: Store)
    ensures WithoutKeys(WithoutKeys(s, SessionKeys), SessionKeys) == WithoutKeys(s, SessionKeys)
  {
  }

  /** After logout nothing of the session can be restored. */
  lemma LogoutLeavesNoSession(s: Store)
    ensures StoredUser(WithoutKeys(s, SessionKeys)) == None
    ensures LoadedToken(WithoutKeys(s, SessionKeys)) == None
    ensures !RememberMeOf(WithoutKeys(s, SessionKeys))
  {
    SessionGone(s, SessionKeys);
  }

  /** A login survives a restart: a new provider over the store the login left
      behind restores the same user once it checks the stored session. */
  method LoginSurvivesRestart(device: Store, email: string, password: string, now: nat, random: string)
    returns (loggedIn: Option<UserData>, restored: Option<UserData>, authenticated: bool)
    requires AcceptsCredentials(email, password)
    ensures loggedIn == restored == Some(TestUser(email)) && authenticated
  {
    var first := new AuthProvider(device);
    var ok := first.Login(email, password, now, random);
    loggedIn := first.user;
    var second := new AuthProvider(first.store);
    second.CheckAuthState();
    restored := second.user;
    authenticated := second.isAuthenticated;
  }

  /** After logout a restart restores nobody. */
  method LogoutSurvivesRestart(device: Store) returns (restored: Option<UserData>, authenticated: bool)
    ensures restored == None && !authenticated
  {
    var first := new AuthProvider(device);
    first.Logout();
    var second := new AuthProvider(first.store);
    LogoutLeavesNoSession(device);
    second.CheckAuthState();
    restored := second.user;
    authenticated := second.isAuthenticated;
  }
}
