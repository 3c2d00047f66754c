/** The application's error vocabulary: the closed set of error kinds, the
    `AppError` record and its specialised constructors, the classifier that turns
    a failed HTTP call into an `AppError` (first matching rule wins), and the
    user-facing text per kind. */
module Errors {
  import opened Wrappers
  import opened Text

  datatype ErrorType =
    | NetworkError
    | ValidationError
    | AuthenticationError
    | AuthorizationError
    | CpfInvalid
    | UserNotFound
    | EmailAlreadyExists
    | UnknownError

  /** The response part of a failed call: its HTTP status (when present) and the
      `message` field of its body (`""` when absent or empty). */
  datatype ApiResponse = ApiResponse(status: Option<int>, dataMessage: string)

  /** A failed call as the HTTP client reports it: `response` is None when no
      response arrived; `message` and `code` are `""` when absent. */
  datatype ApiFailure = ApiFailure(response: Option<ApiResponse>, message: string, code: string)

  datatype AppError = AppError(
    name: string,
    message: string,
    kind: ErrorType,
    statusCode: Option<int>,
    originalError: Option<ApiFailure>)

  /** `new AppError(message, type = UNKNOWN_ERROR, statusCode?, originalError?)` */
  function NewAppError(message: string, kind: ErrorType := UnknownError,
                       statusCode: Option<int> := None,
                       originalError: Option<ApiFailure> := None): (e: AppError)
    ensures e.name == "AppError" && e.message == message && e.kind == kind
    ensures e.statusCode == statusCode && e.originalError == originalError
  {
    AppError("AppError", message, kind, statusCode, originalError)
  }

  /** An error built without a kind is an unknown error. */
  lemma DefaultKindIsUnknown(message: string)
    ensures NewAppError(message).kind == UnknownError
    ensures NewAppError(message).statusCode == None
  {
  }

  /** `new CPFValidationError(message = 'CPF inválido', originalError?)` */
  function CpfValidationError(message: string := "CPF inválido",
                              originalError: Option<ApiFailure> := None): (e: AppError)
    ensures e.name == "CPFValidationError" && e.message == message
    ensures e.kind == CpfInvalid && e.statusCode == Some(400)
    ensures e.originalError == originalError
  {
    NewAppError(message, CpfInvalid, Some(400), originalError).(name := "CPFValidationError")
  }

  /** `new NetworkError(message = 'Erro de conexão', originalError?)`: no status. */
  function NetworkErr(message: string := "Erro de conexão",
                      originalError: Option<ApiFailure> := None): (e: AppError)
    ensures e.name == "NetworkError" && e.message == message
    ensures e.kind == NetworkError && e.statusCode == None
    ensures e.originalError == originalError
  {
    NewAppError(message, NetworkError, None, originalError).(name := "NetworkError")
  }

  /** `new AuthenticationError(message = 'Erro de autenticação', originalError?)` */
  function AuthenticationErr(message: string := "Erro de autenticação",
                             originalError: Option<ApiFailure> := None): (e: AppError)
    ensures e.name == "AuthenticationError" && e.message == message
    ensures e.kind == AuthenticationError && e.statusCode == Some(401)
    ensures e.originalError == originalError
  {
    NewAppError(message, AuthenticationError, Some(401), originalError).(name := "AuthenticationError")
  }

  /** `new ValidationError(message = 'Dados inválidos', originalError?)` */
  function ValidationErr(message: string := "Dados inválidos",
                         originalError: Option<ApiFailure> := None): (e: AppError)
    ensures e.name == "ValidationError" && e.message == message
    ensures e.kind == ValidationError && e.statusCode == Some(400)
    ensures e.originalError == originalError
  {
    NewAppError(message, ValidationError, Some(400), originalError).(name := "ValidationError")
  }

  // ---------------------------------------------------------------------------
  // mapApiError

  function Status(f: ApiFailure): Option<int> {
    if f.response.Some? then f.response.value.status else None
  }

  /** `data?.message || error.message || 'Erro desconhecido'`: the first non-empty one. */
  function ChosenMessage(f: ApiFailure): (m: string)
    ensures m != ""
    ensures f.response.Some? && f.response.value.dataMessage != "" ==> m == f.response.value.dataMessage
    ensures (f.response.None? || f.response.value.dataMessage == "") && f.message != "" ==> m == f.message
    ensures (f.response.None? || f.response.value.dataMessage == "") && f.message == "" ==> m == "Erro desconhecido"
  {
    var data := if f.response.Some? then f.response.value.dataMessage else "";
    if data != "" then data else if f.message != "" then f.message else "Erro desconhecido"
  }

  /** The CPF rule: the lower-cased message mentions "cpf" or "documento", or the
      status is 400 and it mentions "inválido". */
  predicate MentionsCpf(message: string, status: Option<int>) {
    var lower := Lower(message);
    Contains(lower, "cpf") || Contains(lower, "documento")
    || (status == Some(400) && Contains(lower, "inválido"))
  }

  /** The network rule, tried only after all status rules. */
  predicate LooksOffline(f: ApiFailure) {
    f.code == "NETWORK_ERROR" || f.response.None?
  }

  /** `mapApiError`: classify a failed call. */
  function MapApiError(f: ApiFailure): (e: AppError)
    ensures e.originalError == Some(f)
    ensures e.kind != EmailAlreadyExists
    // rule 1: CPF, with status 400 whatever the real one
    ensures e.kind == CpfInvalid <==> MentionsCpf(ChosenMessage(f), Status(f))
    ensures e.kind == CpfInvalid ==> e.statusCode == Some(400) && e.message == ChosenMessage(f)
    // rules 2-5: the statuses, in order
    ensures !MentionsCpf(ChosenMessage(f), Status(f)) ==>
      (Status(f) == Some(400) <==> e.kind == ValidationError)
      && (Status(f) == Some(401) <==> e.kind == AuthenticationError)
      && (Status(f) == Some(403) <==> e.kind == AuthorizationError)
      && (Status(f) == Some(404) <==> e.kind == UserNotFound)
    ensures e.kind in {ValidationError, AuthenticationError, AuthorizationError, UserNotFound} ==>
      e.statusCode == Status(f) && e.message == ChosenMessage(f)
    // rule 6: network
    ensures e.kind == NetworkError <==>
      !MentionsCpf(ChosenMessage(f), Status(f))
      && Status(f) !in {Some(400), Some(401), Some(403), Some(404)} && LooksOffline(f)
    ensures e.kind == NetworkError ==>
      e.message == "Verifique sua conexão com a internet" && e.statusCode == None
    // otherwise: unknown, keeping the status
    ensures e.kind == UnknownError ==> e.statusCode == Status(f) && e.message == ChosenMessage(f)
  {
    var status := Status(f);
    var message := ChosenMessage(f);
    if MentionsCpf(message, status) then CpfValidationError(message, Some(f))
    else if status == Some(400) then ValidationErr(message, Some(f))
    else if status == Some(401) then AuthenticationErr(message, Some(f))
    else if status == Some(403) then NewAppError(message, AuthorizationError, status, Some(f))
    else if status == Some(404) then NewAppError(message, UserNotFound, status, Some(f))
    else if LooksOffline(f) then NetworkErr("Verifique sua conexão com a internet", Some(f))
    else NewAppError(message, UnknownError, status, Some(f))
  }

  /** A mapped error always carries a non-empty message. */
  lemma MappedMessageNonEmpty(f: ApiFailure)
    ensures MapApiError(f).message != ""
  {
  }

  // ---------------------------------------------------------------------------
  // getFriendlyErrorMessage

  const CpfFriendly := "CPF inválido. Verifique se o número está correto."

  /** `getFriendlyErrorMessage`: a fixed sentence per kind; a validation error shows
      its own message unless it mentions "cpf"; an unknown error shows its message,
      or a fallback when that is empty. */
  function GetFriendlyErrorMessage(e: AppError): (text: string)
    ensures e.kind == CpfInvalid ==> text == CpfFriendly
    ensures e.kind == ValidationError ==>
      text == if Contains(Lower(e.message), "cpf") then CpfFriendly else e.message
    ensures e.kind == NetworkError ==>
      text == "Problema de conexão. Verifique sua internet e tente novamente."
    ensures e.kind == AuthenticationError ==> text == "Sessão expirada. Faça login novamente."
    ensures e.kind == AuthorizationError ==> text == "Você não tem permissão para essa ação."
    ensures e.kind == UserNotFound ==> text == "Usuário não encontrado."
    ensures e.kind == EmailAlreadyExists ==>
      text == "Este email já está sendo usado por outro usuário."
    ensures e.kind == UnknownError ==>
      text == if e.message != "" then e.message else "Erro inesperado. Tente novamente."
  {
    match e.kind
    case CpfInvalid => CpfFriendly
    case ValidationError =>
      if Contains(Lower(e.message), "cpf") then CpfFriendly else e.message
    case UnknownError =>
      if e.message != "" then e.message else "Erro inesperado. Tente novamente."
    case _ => FixedText(e.kind)
  }

  /** The sentence shown for the kinds whose text does not depend on the message. */
  function FixedText(kind: ErrorType): (text: string)
    ensures text != ""
  {
    match kind
    case CpfInvalid => CpfFriendly
    case NetworkError => "Problema de conexão. Verifique sua internet e tente novamente."
    case AuthenticationError => "Sessão expirada. Faça login novamente."
    case AuthorizationError => "Você não tem permissão para essa ação."
    case UserNotFound => "Usuário não encontrado."
    case EmailAlreadyExists => "Este email já está sendo usado por outro usuário."
    case _ => "Erro inesperado. Tente novamente."
  }

  /** The user never sees an empty text for an error produced by `mapApiError`. */
  lemma FriendlyTextOfMappedError(f: ApiFailure)
    ensures GetFriendlyErrorMessage(MapApiError(f)) != ""
  {
    MappedMessageNonEmpty(f);
  }

  /** A failed call whose message mentions a CPF is always shown the CPF sentence. */
  lemma CpfMessageShownAsCpf(f: ApiFailure)
    requires Contains(Lower(ChosenMessage(f)), "cpf")
    ensures GetFriendlyErrorMessage(MapApiError(f)) == CpfFriendly
  {
  }

  /** With no response and no CPF wording, the user is told to check the connection. */
  lemma OfflineShownAsConnectionProblem(f: ApiFailure)
    requires f.response.None? && !MentionsCpf(ChosenMessage(f), None)
    ensures GetFriendlyErrorMessage(MapApiError(f))
      == "Problema de conexão. Verifique sua internet e tente novamente."
  {
  }
}
