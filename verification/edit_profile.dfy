/** The profile editor: the form it fills from the stored profile, the date
    conversions between the API's YYYY-MM-DD and the displayed DD/MM/YYYY, the
    masked inputs, and the checks made before the update is sent. The update call
    itself belongs to the profile hook and its outcome is a parameter here. */
module EditProfile {
  import opened Wrappers
  import opened Text
  import opened CpfUtils
  import opened Inputs
  import CadastroEndereco

  type Endereco = CadastroEndereco.Endereco

  /** The body of a profile update; heights and weights are numbers here. */
  datatype UpdateUserRequest = UpdateUserRequest(
    nome: string,
    sobrenome: string,
    cpf: string,
    telefone: string,
    email: string,
    dataNascimento: string,
    sexo: string,
    altura: real,
    peso: real,
    endereco: Endereco)

  const EmptyRequest := UpdateUserRequest("", "", "", "", "", "", "MASCULINO", 0.0, 0.0,
                                          CadastroEndereco.EmptyEndereco)

  // ---------------------------------------------------------------------------
  // dates

  /** `formatDateForAPI`: three '/'-separated parts D/M/Y become Y-MM-DD, day and
      month padded to two characters; any other text is sent as it is. */
  function FormatDateForAPI(display: string): (r: string)
    ensures |Split(display, '/')| != 3 ==> r == display
    ensures var parts := Split(display, '/');
      |parts| == 3 ==> r == parts[2] + "-" + PadStart2(parts[1]) + "-" + PadStart2(parts[0])
  {
    var parts := Split(display, '/');
    if |parts| == 3 then parts[2] + "-" + PadStart2(parts[1]) + "-" + PadStart2(parts[0])
    else display
  }

  /** `formatDateFromAPI`: a non-empty text with a '-' that splits into three parts
      Y-M-D is shown as D/M/Y; any other text is shown as it is. */
  function FormatDateFromAPI(api: string): (r: string)
    ensures !Contains(api, "-") ==> r == api
    ensures |Split(api, '-')| != 3 ==> r == api
    ensures var parts := Split(api, '-');
      |parts| == 3 ==> r == parts[2] + "/" + parts[1] + "/" + parts[0]
  {
    SplitFindsSeparator(api, '-');
    if api != "" && Contains(api, "-") then
      var parts := Split(api, '-');
      if |parts| == 3 then parts[2] + "/" + parts[1] + "/" + parts[0] else api
    else api
  }

  /** A text that splits into more than one part holds the separator. */
  lemma SplitFindsSeparator(s: string, c: char)
    ensures |Split(s, c)| != 1 ==> s != [] && Contains(s, [c])
  {
    if c in s {
      var i :| 0 <= i < |s| && s[i] == c;
      ContainsAt(s, i, c);
    } else {
      SplitNoSeparator(s, c);
    }
  }

  /** A displayed D/M/Y, whatever the lengths of its parts, goes to the API as Y-MM-DD
      with day and month padded: "5/1/1990" becomes "1990-01-05". */
  lemma FormatDateForAPIParts(d: string, m: string, y: string)
    requires '/' !in d && '/' !in m && '/' !in y
    ensures FormatDateForAPI(d + "/" + m + "/" + y) == y + "-" + PadStart2(m) + "-" + PadStart2(d)
  {
    assert d + "/" + m + "/" + y == d + ['/'] + m + ['/'] + y;
    SplitThree(d, m, y, '/');
  }

  /** A stored Y-M-D, whatever the lengths of its parts, is shown as D/M/Y, unpadded. */
  lemma FormatDateFromAPIParts(y: string, m: string, d: string)
    requires '-' !in y && '-' !in m && '-' !in d
    ensures FormatDateFromAPI(y + "-" + m + "-" + d) == d + "/" + m + "/" + y
  {
    var api := y + "-" + m + "-" + d;
    ContainsAt(api, |y|, '-');
    assert api == y + ['-'] + m + ['-'] + d;
    SplitThree(y, m, d, '-');
  }

  /** Where both apply, the editor converts a displayed date as registration does. */
  lemma SameConversionAsRegistration(display: string)
    requires |Split(display, '/')| == 3
    ensures CadastroEndereco.ConvertDateToAPI(display) == Some(FormatDateForAPI(display))
  {
  }

  /** A date the API stores as Y-M-D, with a two-character (or longer) month and
      day and no separators inside the parts, is shown as D/M/Y and sent back
      unchanged after an edit that leaves it alone. */
  lemma ApiDateRoundTrip(y: string, m: string, d: string)
    requires |m| >= 2 && |d| >= 2
    requires '-' !in y && '-' !in m && '-' !in d
    requires '/' !in y && '/' !in m && '/' !in d
    ensures FormatDateFromAPI(y + "-" + m + "-" + d) == d + "/" + m + "/" + y
    ensures FormatDateForAPI(FormatDateFromAPI(y + "-" + m + "-" + d)) == y + "-" + m + "-" + d
  {
    var api := y + "-" + m + "-" + d;
    ContainsAt(api, |y|, '-');
    SplitThree(y, m, d, '-');
    assert api == y + ['-'] + m + ['-'] + d;
    var display := d + "/" + m + "/" + y;
    assert display == d + ['/'] + m + ['/'] + y;
    SplitThree(d, m, y, '/');
  }

  /** The other way round: a displayed D/M/Y with two-character day and month goes
      to the API and comes back as it was. */
  lemma DisplayDateRoundTrip(d: string, m: string, y: string)
    requires |m| >= 2 && |d| >= 2
    requires '-' !in y && '-' !in m && '-' !in d
    requires '/' !in y && '/' !in m && '/' !in d
    ensures FormatDateForAPI(d + "/" + m + "/" + y) == y + "-" + m + "-" + d
    ensures FormatDateFromAPI(FormatDateForAPI(d + "/" + m + "/" + y)) == d + "/" + m + "/" + y
  {
    assert d + "/" + m + "/" + y == d + ['/'] + m + ['/'] + y;
    SplitThree(d, m, y, '/');
    ApiDateRoundTrip(y, m, d);
  }

  /** A date typed with eight digits through the display mask goes to the API as
      YYYY-MM-DD. */
  lemma TypedDateToAPI(typed: string)
    requires |Digits(typed)| == 8
    ensures var n := Digits(typed);
      FormatDateForAPI(MaskDate(typed)) == n[4..] + "-" + n[2..4] + "-" + n[..2]
  {
    CadastroEndereco.ConvertMaskedDate(typed);
    var n := Digits(typed);
    assert MaskDate(typed) == n[..2] + "/" + n[2..4] + "/" + n[4..];
    assert forall i :: 0 <= i < |n| ==> n[i] != '/';
    assert '/' !in n[..2] && '/' !in n[2..4] && '/' !in n[4..];
    SplitThree(n[..2], n[2..4], n[4..], '/');
  }

  // ---------------------------------------------------------------------------
  // inputs and checks

  /** `parseFloat(value) || 0`: NaN and zero both become 0. */
  function MeasureInput(typed: string, parseFloat: string -> Option<real>): (x: real)
    ensures parseFloat(typed).None? ==> x == 0.0
    ensures parseFloat(typed).Some? ==> x == parseFloat(typed).value
  {
    if parseFloat(typed).Some? && parseFloat(typed).value != 0.0 then parseFloat(typed).value else 0.0
  }

  /** The checks of `handleSave`: name, surname, e-mail and phone must not be blank,
      in that order. */
  function SaveCheck(f: UpdateUserRequest): (error: Option<string>)
    ensures error.None? <==> !Blank(f.nome) && !Blank(f.sobrenome) && !Blank(f.email) && !Blank(f.telefone)
    ensures Blank(f.nome) ==> error == Some("Nome é obrigatório")
    ensures !Blank(f.nome) && Blank(f.sobrenome) ==> error == Some("Sobrenome é obrigatório")
    ensures !Blank(f.nome) && !Blank(f.sobrenome) && Blank(f.email) ==> error == Some("Email é obrigatório")
    ensures !Blank(f.nome) && !Blank(f.sobrenome) && !Blank(f.email) && Blank(f.telefone) ==>
      error == Some("Telefone é obrigatório")
  {
    if Blank(f.nome) then Some("Nome é obrigatório")
    else if Blank(f.sobrenome) then Some("Sobrenome é obrigatório")
    else if Blank(f.email) then Some("Email é obrigatório")
    else if Blank(f.telefone) then Some("Telefone é obrigatório")
    else None
  }

  /** The body sent: the form with its date converted for the API. */
  function ToSend(f: UpdateUserRequest): (r: UpdateUserRequest)
    ensures r == f.(dataNascimento := r.dataNascimento)
    ensures |Split(f.dataNascimento, '/')| != 3 ==> r == f
  {
    f.(dataNascimento := FormatDateForAPI(f.dataNascimento))
  }

  /** The form as loaded from the stored profile: its date converted for display. */
  function Loaded(userData: UpdateUserRequest): (r: UpdateUserRequest)
    ensures r == userData.(dataNascimento := r.dataNascimento)
  {
    userData.(dataNascimento := FormatDateFromAPI(userData.dataNascimento))
  }

  /** Loading a profile whose date is a plain Y-M-D and saving it without edits
      sends the profile as it was stored. */
  lemma LoadThenSaveUnchanged(userData: UpdateUserRequest, y: string, m: string, d: string)
    requires userData.dataNascimento == y + "-" + m + "-" + d
    requires |m| >= 2 && |d| >= 2
    requires '-' !in y && '-' !in m && '-' !in d
    requires '/' !in y && '/' !in m && '/' !in d
    ensures ToSend(Loaded(userData)) == userData
  {
    ApiDateRoundTrip(y, m, d);
  }

  datatype Field = Nome | Sobrenome | Cpf | Email | Telefone | DataNascimento | Sexo

  /** `{ ...formData, [field]: value }` for the text fields. */
  function WithField(f: UpdateUserRequest, field: Field, value: string): (r: UpdateUserRequest)
    ensures r.endereco == f.endereco && r.altura == f.altura && r.peso == f.peso
    ensures field == Nome ==> r == f.(nome := value)
    ensures field == Sobrenome ==> r == f.(sobrenome := value)
    ensures field == Cpf ==> r == f.(cpf := value)
    ensures field == Email ==> r == f.(email := value)
    ensures field == Telefone ==> r == f.(telefone := value)
    ensures field == DataNascimento ==> r == f.(dataNascimento := value)
    ensures field == Sexo ==> r == f.(sexo := value)
  {
    match field
    case Nome => f.(nome := value)
    case Sobrenome => f.(sobrenome := value)
    case Cpf => f.(cpf := value)
    case Email => f.(email := value)
    case Telefone => f.(telefone := value)
    case DataNascimento => f.(dataNascimento := value)
    case Sexo => f.(sexo := value)
  }

  /** How `handleSave` ends. */
  datatype SaveOutcome =
    | Rejected(message: string)  // a check failed; nothing was sent
    | Saved                      // the update succeeded and the editor closes
    | NotSaved                   // the update answered false; the editor stays open
    | Failed(message: string)    // the update threw; the editor stays open

  class EditProfileForm {
    var formData: UpdateUserRequest

    constructor ()
      ensures formData == EmptyRequest
    {
      formData := EmptyRequest;
    }

    /** The effect run when the editor opens: with a user and their stored data, the
        form takes that data with the date shown as D/M/Y. */
    method Load(visible: bool, hasUser: bool, userData: Option<UpdateUserRequest>)
      modifies this
      ensures visible && hasUser && userData.Some? ==> formData == Loaded(userData.value)
      ensures !(visible && hasUser && userData.Some?) ==> formData == old(formData)
    {
      if visible && hasUser && userData.Some? {
        formData := Loaded(userData.value);
      }
    }

    /** `updateField` for the text fields. */
    method UpdateField(field: Field, value: string)
      modifies this
      ensures formData == WithField(old(formData), field, value)
    {
      formData := WithField(formData, field, value);
    }

    /** The masked inputs: CPF, phone and date are stored masked. */
    method TypeMasked(field: Field, typed: string)
      requires field in {Cpf, Telefone, DataNascimento}
      modifies this
      ensures field == Cpf ==> formData == old(formData).(cpf := FormatCPF(typed))
      ensures field == Telefone ==> formData == old(formData).(telefone := MaskPhone(typed))
      ensures field == DataNascimento ==> formData == old(formData).(dataNascimento := MaskDate(typed))
    {
      var masked := if field == Cpf then FormatCPF(typed)
                    else if field == Telefone then MaskPhone(typed)
                    else MaskDate(typed);
      UpdateField(field, masked);
    }

    /** The height and weight inputs store `parseFloat(value) || 0`. */
    method TypeMeasure(height: bool, typed: string, parseFloat: string -> Option<real>)
      modifies this
      ensures height ==> formData == old(formData).(altura := MeasureInput(typed, parseFloat))
      ensures !height ==> formData == old(formData).(peso := MeasureInput(typed, parseFloat))
    {
      if height {
        formData := formData.(altura := MeasureInput(typed, parseFloat));
      } else {
        formData := formData.(peso := MeasureInput(typed, parseFloat));
      }
    }

    /** `updateEnderecoField`: one address field changes, nothing else does. */
    method UpdateEnderecoField(field: CadastroEndereco.Field, value: string)
      modifies this
      ensures formData == old(formData).(endereco := CadastroEndereco.WithField(old(formData).endereco, field, value))
    {
      formData := formData.(endereco := CadastroEndereco.WithField(formData.endereco, field, value));
    }

    /** The address inputs that transform what is typed: the CEP is masked and the
        state upper-cased. */
    method TypeEnderecoMasked(cep: bool, typed: string)
      modifies this
      ensures cep ==> formData == old(formData).(endereco := old(formData).endereco.(cep := MaskCep(typed)))
      ensures !cep ==> formData == old(formData).(endereco := old(formData).endereco.(uf := Upper(typed)))
    {
      if cep {
        UpdateEnderecoField(CadastroEndereco.Cep, MaskCep(typed));
      } else {
        UpdateEnderecoField(CadastroEndereco.Uf, Upper(typed));
      }
    }

    /** `handleSave`: nothing is sent unless the checks pass; then the form goes out
        with its date converted. `updateThrows` says whether the update threw and
        `updated` is its answer when it did not. */
    method HandleSave(updateThrows: bool, updated: bool) returns (sent: Option<UpdateUserRequest>, outcome: SaveOutcome)
      ensures sent.Some? <==> SaveCheck(formData).None?
      ensures sent.Some? ==> sent.value == ToSend(formData)
      ensures SaveCheck(formData).Some? ==> outcome == Rejected(SaveCheck(formData).value)
      ensures SaveCheck(formData).None? && updateThrows ==>
        outcome == Failed("Ocorreu um erro ao salvar as alterações.")
      ensures SaveCheck(formData).None? && !updateThrows ==> outcome == (if updated then Saved else NotSaved)
    {
      var error := SaveCheck(formData);
      if error.Some? {
        return None, Rejected(error.value);
      }
      sent := Some(ToSend(formData));
      if updateThrows {
        outcome := Failed("Ocorreu um erro ao salvar as alterações.");
      } else {
        outcome := if updated then Saved else NotSaved;
      }
    }
  }
}
