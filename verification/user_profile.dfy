/** The profile hook (`useUserProfile`): completeness of the signed-in user's
    profile, the display texts with their fallbacks, and the refresh flag. The user
    record is untyped in the source, so every field may be missing; JavaScript
    truthiness makes an empty string and the number 0 count as missing too. */
module UserProfile {
  import opened Wrappers

  /** The profile fields the hook reads. */
  datatype ProfileUser = ProfileUser(
    id: Option<string>,
    nome: Option<string>,
    sobrenome: Option<string>,
    email: Option<string>,
    telefone: Option<string>,
    sexo: Option<string>,
    altura: Option<real>,
    peso: Option<real>,
    dataNascimento: Option<string>)

  /** A string field is truthy when present and non-empty. */
  predicate Truthy(s: Option<string>) { s.Some? && s.value != "" }

  /** A number field is truthy when present and non-zero. */
  predicate TruthyNumber(x: Option<real>) { x.Some? && x.value != 0.0 }

  /** `user?.field` reads a missing field when there is no user. */
  const NoUser := ProfileUser(None, None, None, None, None, None, None, None, None)

  function Fields(user: Option<ProfileUser>): ProfileUser {
    user.GetOr(NoUser)
  }

  /** `value || fallback` on a string field. */
  function OrElse(s: Option<string>, fallback: string): (r: string)
    ensures Truthy(s) ==> r == s.value
    ensures !Truthy(s) ==> r == fallback
  {
    if Truthy(s) then s.value else fallback
  }

  /** A template literal prints a missing field as "undefined". */
  function Interpolate(s: Option<string>): string {
    if s.Some? then s.value else "undefined"
  }

  /** `isProfileComplete`: the seven profile fields are all truthy. */
  predicate IsProfileComplete(user: Option<ProfileUser>) {
    user.Some?
    && Truthy(user.value.nome) && Truthy(user.value.sobrenome) && Truthy(user.value.email)
    && Truthy(user.value.telefone) && Truthy(user.value.sexo)
    && TruthyNumber(user.value.altura) && TruthyNumber(user.value.peso)
  }

  /** `getFullName`: "nome sobrenome" when there is a surname, else the first name,
      else a fallback; the text is never empty. */
  function GetFullName(user: Option<ProfileUser>): (r: string)
    ensures r != ""
    ensures Truthy(Fields(user).sobrenome) ==>
      r == Interpolate(Fields(user).nome) + " " + Fields(user).sobrenome.value
    ensures !Truthy(Fields(user).sobrenome) && Truthy(Fields(user).nome) ==>
      r == Fields(user).nome.value
    ensures !Truthy(Fields(user).sobrenome) && !Truthy(Fields(user).nome) ==>
      r == "Nome não informado"
  {
    var sobrenome := Fields(user).sobrenome;
    if Truthy(sobrenome) then Interpolate(Fields(user).nome) + " " + sobrenome.value
    else OrElse(Fields(user).nome, "Nome não informado")
  }

  /** `formatSexo`: the three stored codes have a display word; anything else,
      including a missing value, is "Não informado". */
  function FormatSexo(sexo: Option<string>): (r: string)
    ensures r in {"Masculino", "Feminino", "Outro", "Não informado"}
    ensures r != "Não informado" <==> sexo in {Some("MASCULINO"), Some("FEMININO"), Some("OUTRO")}
    ensures sexo == Some("MASCULINO") ==> r == "Masculino"
    ensures sexo == Some("FEMININO") ==> r == "Feminino"
    ensures sexo == Some("OUTRO") ==> r == "Outro"
  {
    if sexo == Some("MASCULINO") then "Masculino"
    else if sexo == Some("FEMININO") then "Feminino"
    else if sexo == Some("OUTRO") then "Outro"
    else "Não informado"
  }

  /** The display record `profileData` (the birth date, formatted by the device
      locale, is not part of it). */
  datatype ProfileData = ProfileData(
    fullName: string,
    firstName: string,
    email: string,
    telefone: string,
    sexo: string,
    altura: string,
    peso: string,
    isComplete: bool)

  /** A number shown with its unit, `${value} unit`, or the fallback when falsy;
      `render` is the number's decimal text. */
  function Measure(x: Option<real>, unit: string, render: real -> string): (r: string)
    ensures TruthyNumber(x) ==> r == render(x.value) + " " + unit
    ensures !TruthyNumber(x) ==> r == "Não informado"
  {
    if TruthyNumber(x) then render(x.value) + " " + unit else "Não informado"
  }

  /** `profileData`, with the decimal rendering of numbers as a parameter. */
  function Profile(user: Option<ProfileUser>, render: real -> string): (p: ProfileData)
    ensures p.isComplete == IsProfileComplete(user)
    ensures p.fullName == GetFullName(user)
    ensures p.firstName == OrElse(Fields(user).nome, "Usuário")
    ensures p.email == OrElse(Fields(user).email, "Email não informado")
    ensures p.telefone == OrElse(Fields(user).telefone, "Não informado")
    ensures p.sexo == FormatSexo(Fields(user).sexo)
    ensures p.altura == Measure(Fields(user).altura, "m", render)
    ensures p.peso == Measure(Fields(user).peso, "kg", render)
  {
    ProfileData(
      GetFullName(user),
      OrElse(Fields(user).nome, "Usuário"),
      OrElse(Fields(user).email, "Email não informado"),
      OrElse(Fields(user).telefone, "Não informado"),
      FormatSexo(Fields(user).sexo),
      Measure(Fields(user).altura, "m", render),
      Measure(Fields(user).peso, "kg", render),
      IsProfileComplete(user))
  }

  /** With no user every text is its fallback. */
  lemma NoUserShowsFallbacks(render: real -> string)
    ensures Profile(None, render)
         == ProfileData("Nome não informado", "Usuário", "Email não informado", "Não informado",
                        "Não informado", "Não informado", "Não informado", false)
  {
  }

  /** A complete profile shows the user's own values and no fallback, except that a
      sexo outside the three codes still reads "Não informado". */
  lemma CompleteProfileShowsOwnValues(u: ProfileUser, render: real -> string)
    requires IsProfileComplete(Some(u))
    ensures var p := Profile(Some(u), render);
      p.isComplete
      && p.fullName == u.nome.value + " " + u.sobrenome.value
      && p.firstName == u.nome.value && p.email == u.email.value && p.telefone == u.telefone.value
      && p.altura == render(u.altura.value) + " m" && p.peso == render(u.peso.value) + " kg"
  {
  }

  /** Each field that keeps a profile from being complete is shown by its fallback. */
  lemma MissingFieldsShowFallbacks(u: ProfileUser, render: real -> string)
    ensures var p := Profile(Some(u), render);
      (!IsProfileComplete(Some(u)) <==> !p.isComplete)
      && (!Truthy(u.nome) ==> p.firstName == "Usuário")
      && (!Truthy(u.email) ==> p.email == "Email não informado")
      && (!Truthy(u.telefone) ==> p.telefone == "Não informado")
      && (!Truthy(u.sexo) ==> p.sexo == "Não informado")
      && (!TruthyNumber(u.altura) ==> p.altura == "Não informado")
      && (!TruthyNumber(u.peso) ==> p.peso == "Não informado")
      && (!Truthy(u.nome) && !Truthy(u.sobrenome) ==> p.fullName == "Nome não informado")
  {
  }

  /** The effect that refreshes the profile runs only for a present, incomplete profile. */
  predicate ShouldAutoRefresh(user: Option<ProfileUser>) {
    user.Some? && !IsProfileComplete(user)
  }

  /** A complete profile, or no user at all, never triggers a refresh; a profile with
      an empty first name always does. */
  lemma AutoRefreshTrigger(user: Option<ProfileUser>)
    ensures IsProfileComplete(user) ==> !ShouldAutoRefresh(user)
    ensures user.None? ==> !ShouldAutoRefresh(user)
    ensures user.Some? && !Truthy(user.value.nome) ==> ShouldAutoRefresh(user)
  {
  }

  /** The hook's own state: the refresh flag. The refresh itself (`refreshUserProfile`)
      is an external call; whether it throws is a parameter. */
  class UserProfileHook {
    var isRefreshing: bool

    constructor ()
      ensures !isRefreshing
    {
      isRefreshing := false;
    }

    /** The loading flag the hook reports. */
    function IsLoading(authLoading: bool): (b: bool)
      reads this
      ensures b <==> authLoading || isRefreshing
    {
      authLoading || isRefreshing
    }

    /** `handleRefreshProfile`: true when the refresh completes, false when it throws;
        the flag is down again either way. */
    method HandleRefreshProfile(refreshThrows: bool) returns (ok: bool)
      modifies this
      ensures ok == !refreshThrows
      ensures !isRefreshing
    {
      isRefreshing := true;
      if refreshThrows {
        ok := false;
      } else {
        ok := true;
      }
      isRefreshing := false;
    }

    /** The effect run when the user changes: it refreshes exactly when the profile
        is present and incomplete. */
    method OnUserChanged(user: Option<ProfileUser>, refreshThrows: bool) returns (refreshed: bool)
      modifies this
      ensures refreshed <==> ShouldAutoRefresh(user)
      ensures refreshed ==> !isRefreshing
      ensures !ShouldAutoRefresh(user) ==> isRefreshing == old(isRefreshing)
    {
      refreshed := false;
      if user.Some? && !IsProfileComplete(user) {
        var _ := HandleRefreshProfile(refreshThrows);
        refreshed := true;
      }
    }
  }
}
