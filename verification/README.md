# NeocareApp client core in Dafny

NeocareApp is a React Native health-tracking app. This project models its
client-side core:

- the **session manager** (`AuthProvider` in `contexts/AuthContext.tsx`) over the
  device key-value store, and the storage helpers (`utils/AsyncStorageUtils.ts`);
- the **utilities** for CPF numbers (the Brazilian taxpayer identifier), CEP
  postal codes and telephones, and the API error classifier;
- the **hooks** for the user profile, health metrics, daily data,
  recommendations and the profile modal;
- the **screens and components**: login, single-page sign-up, the three-step
  registration (personal data, credentials, address), the profile view and the
  profile editor.

Each source file is one Dafny module:

| module | file |
|---|---|
| `CpfUtils` | cpf.dfy |
| `FormatUtils` | format_utils.dfy |
| `Errors` | errors.dfy |
| `KeyValue` | keyvalue.dfy: the stored values and the pure functions over the store |
| `AsyncStorageUtils` | storage.dfy |
| `AuthContext` | auth.dfy |
| `Recommendations`, `UserProfile`, `HealthMetrics`, `DailyData`, `ProfileModalState` | the hooks |
| `LoginScreen`, `Cadastro`, `CadastroDadosPessoais`, `CadastroCredenciais`, `CadastroEndereco`, `EditProfile`, `ProfileView` | the screens and components |
| `Inputs` | the typing masks and the e-mail and phone patterns that several screens repeat word for word, defined once |
| `Text` | the JavaScript string operations used by the others |
| `Wrappers` | `Option` |

Where the code changes state, it is modelled as a class whose methods reassign fields:

- React state (`useState` plus setters) becomes class fields: `AuthProvider`, the
  form classes of the screens, the hook classes and `ProfileModal`.
- The device store becomes a `map` field.

Pure validators, formatters and selections are functions. The two loops of
`validateCPF` become a method with loop invariants, proved equal to a
specification predicate.

The non-deterministic inputs are parameters:

- the clock (`Date.now()`, the hour of the day);
- the random draws;
- `parseFloat`, as a function that answers `None` for NaN;
- the answer of the CEP lookup service.

The session manager is modelled as the code writes it. `login` and `register`
never contact a server, and nothing in the modelled code calls `services/api.ts`:

- `login` accepts any e-mail containing '@' with a password of six or more
  characters, and always yields the same test user;
- `register` always succeeds and logs the new user in;
- `checkAuthState` restores a stored session whose token has ten or more characters.

Both `AuthContext.tsx` and `AsyncStorageUtils.ts` write the same device store,
under the same keys. In the model this is the `store` field of
`AuthContext.AuthProvider` and the `entries` field of
`AsyncStorageUtils.DeviceStorage`, both of type `KeyValue.Store`. The two are
separate maps: they are linked only by handing a `Store` to a new provider, which
is how a restart is modelled.

## Model

| member | source | states |
|---|---|---|
| CpfUtils.CleanCPF | utils/cpfUtils.ts:8-10 | the result is all digits and holds each digit of the input as often as the input does |
| CpfUtils.CleanCPFIdempotent | utils/cpfUtils.ts:8-10 | cleaning a cleaned CPF changes nothing |
| CpfUtils.FormatCPF | utils/cpfUtils.ts:15-18 | the formatted text has the same digits as the input; under eleven digits it is the bare digits; with eleven it is XXX.XXX.XXX-XX |
| CpfUtils.CleanFormatRoundTrip | utils/cpfUtils.ts:8-18 | cleaning a formatted CPF gives the cleaned input back |
| CpfUtils.ValidateCPF | utils/cpfUtils.ts:23-51 | the accumulating loops answer exactly the specification: eleven digits, not one repeated digit, both mod-11 check digits right |
| CpfUtils.WrongLengthRejected | utils/cpfUtils.ts:26-28 | anything that does not clean to eleven digits is invalid |
| CpfUtils.RepeatedDigitRejected | utils/cpfUtils.ts:30-31 | the ten repeated-digit strings are invalid |
| CpfUtils.ValidIffCheckDigits | utils/cpfUtils.ts:33-50 | otherwise validity is exactly the two check digits |
| CpfUtils.RepeatedCheckDigits | utils/cpfUtils.ts:33-50 | for a repeated digit both computed check digits equal that digit, which is why the repeated-digit test is needed |
| CpfUtils.GenerateValidCPF | utils/cpfUtils.ts:56-77 | the generated CPF has eleven digits, starts with the nine drawn digits and carries correct check digits; it is valid unless the nine drawn digits are all equal |
| CpfUtils.GeneratedChecks | utils/cpfUtils.ts:60-76 | nine digits followed by the check digits computed from them pass the checksum |
| CpfUtils.GeneratedAllSame | utils/cpfUtils.ts:60-76 | the generated CPF is one repeated digit exactly when the nine drawn digits are |
| CpfUtils.ValidateAndFormatCPF | utils/cpfUtils.ts:82-98 | blank input, wrong length and a failed checksum each give their own error and no formatted text; a valid CPF is returned formatted with no error |
| FormatUtils.FormatCEP | utils/formatUtils.ts:10-23 | eight digits become DDDDD-DDD; any other input is returned as given; the digits are kept |
| FormatUtils.FormatCEPIdempotent | utils/formatUtils.ts:10-23 | formatting a formatted CEP changes nothing |
| FormatUtils.UnformatCEP | utils/formatUtils.ts:30-33 | the result is the input's digits |
| FormatUtils.UnformatCEPIdempotent | utils/formatUtils.ts:30-33 | unformatting twice is unformatting once |
| FormatUtils.FormatOfUnformat | utils/formatUtils.ts:10-33 | for an eight-digit CEP, formatting the bare digits gives the same mask as formatting the input |
| FormatUtils.ValidateCEP | utils/formatUtils.ts:40-48 | a CEP is valid exactly when it has eight digits; the empty text is invalid |
| FormatUtils.ValidCEPIsMasked | utils/formatUtils.ts:10-48 | a valid CEP formats to nine characters with the dash at position five |
| FormatUtils.FormatTelefone | utils/formatUtils.ts:55-72 | eleven digits become (DD) DDDDD-DDDD, ten become (DD) DDDD-DDDD, anything else is returned as given; the digits are kept |
| FormatUtils.UnformatTelefone | utils/formatUtils.ts:79-82 | the result is the input's digits |
| FormatUtils.UnformatTelefoneIdempotent | utils/formatUtils.ts:79-82 | unformatting twice is unformatting once |
| FormatUtils.UnformatFormatTelefone | utils/formatUtils.ts:55-82 | unformatting undoes formatting |
| FormatUtils.FormatTelefoneIdempotent | utils/formatUtils.ts:55-72 | formatting a formatted telephone changes nothing |
| Errors.NewAppError | utils/errorUtils.ts:21-32 | the error carries the given message, kind, status and cause, under the name AppError |
| Errors.DefaultKindIsUnknown | utils/errorUtils.ts:21-26 | an error built without a kind is an unknown error without a status |
| Errors.CpfValidationError | utils/errorUtils.ts:35-39 | CPF_INVALID, status 400, default message "CPF inválido" |
| Errors.NetworkErr | utils/errorUtils.ts:42-46 | NETWORK_ERROR with no status |
| Errors.AuthenticationErr | utils/errorUtils.ts:49-54 | AUTHENTICATION_ERROR, status 401 |
| Errors.ValidationErr | utils/errorUtils.ts:56-61 | VALIDATION_ERROR, status 400 |
| Errors.ChosenMessage | utils/errorUtils.ts:69 | the message is the response's message, else the error's own, else "Erro desconhecido"; it is never empty |
| Errors.MapApiError | utils/errorUtils.ts:66-105 | the CPF rule wins when it applies; then statuses 400/401/403/404 give their kinds; then a missing response or NETWORK_ERROR code gives a network error with the connection message; otherwise unknown; the cause is always kept and EMAIL_ALREADY_EXISTS is never produced |
| Errors.MappedMessageNonEmpty | utils/errorUtils.ts:66-105 | a mapped error always has a non-empty message |
| Errors.GetFriendlyErrorMessage | utils/errorUtils.ts:110-139 | a fixed sentence per kind; a validation error shows its own message unless it mentions "cpf"; an unknown error shows its message or a fallback |
| Errors.FixedText | utils/errorUtils.ts:112-134 | each fixed sentence is non-empty |
| Errors.FriendlyTextOfMappedError | utils/errorUtils.ts:66-139 | the text shown for any mapped failure is never empty |
| Errors.CpfMessageShownAsCpf | utils/errorUtils.ts:72-76 | a failure whose message mentions "cpf" is always shown the CPF sentence |
| Errors.OfflineShownAsConnectionProblem | utils/errorUtils.ts:99-101 | with no response and no CPF wording the user is told to check the connection |
| KeyValue.StoredText | utils/AsyncStorageUtils.ts:62-77 | reads the text under a key exactly when text is stored there |
| KeyValue.StoredUser | utils/AsyncStorageUtils.ts:161-168 | reads the user record exactly when one is stored under the user key |
| KeyValue.RememberMeOf | utils/AsyncStorageUtils.ts:192-195 | true only when `true` is stored; false when the key is absent |
| KeyValue.StoredPreferences | utils/AsyncStorageUtils.ts:258-259 | reads the preferences exactly when they are stored |
| KeyValue.StoredHealth | utils/AsyncStorageUtils.ts:224-226 | reads the health record exactly when it is stored |
| KeyValue.WithoutKeys | utils/AsyncStorageUtils.ts:95-103 | exactly the listed keys disappear; every other entry is kept unchanged |
| KeyValue.WithSession | utils/AsyncStorageUtils.ts:148-159 | adds the user and token keys, leaves every other entry, and the session reads back as written |
| KeyValue.SessionGone | utils/AsyncStorageUtils.ts:175-186 | once both session keys are removed, neither the user nor the token can be read |
| KeyValue.Overlay | utils/AsyncStorageUtils.ts:241-248 | one field of a spread: supplied, else stored, else the default |
| KeyValue.MergePreferences | utils/AsyncStorageUtils.ts:238-256 | each field comes from the supplied patch, else the stored preferences, else the defaults |
| KeyValue.MergePreferencesStable | utils/AsyncStorageUtils.ts:238-256 | an empty patch keeps stored preferences; applying the same patch twice is applying it once |
| KeyValue.MergeHealth | utils/AsyncStorageUtils.ts:203-222 | every series is present, taken from the patch, else the stored record, else empty; the record is stamped with the save time |
| KeyValue.MergeHealthKeeps | utils/AsyncStorageUtils.ts:203-222 | an empty patch keeps every stored series and fills each missing one with an empty series |
| AsyncStorageUtils.DeviceStorage.constructor | utils/AsyncStorageUtils.ts:43 | the store starts empty |
| AsyncStorageUtils.DeviceStorage.SetItem | utils/AsyncStorageUtils.ts:48-57 | the key now holds the value; nothing else changes |
| AsyncStorageUtils.DeviceStorage.GetItem | utils/AsyncStorageUtils.ts:62-77 | the stored value, or none for a missing key |
| AsyncStorageUtils.DeviceStorage.RemoveItem | utils/AsyncStorageUtils.ts:82-90 | only that key goes |
| AsyncStorageUtils.DeviceStorage.RemoveItems | utils/AsyncStorageUtils.ts:95-103 | only the listed keys go |
| AsyncStorageUtils.DeviceStorage.ClearAll | utils/AsyncStorageUtils.ts:108-116 | nothing is left |
| AsyncStorageUtils.DeviceStorage.SaveUserSession | utils/AsyncStorageUtils.ts:148-159 | both the user record and the token are written |
| AsyncStorageUtils.DeviceStorage.GetUserSession | utils/AsyncStorageUtils.ts:161-173 | the stored user and token, each none when absent |
| AsyncStorageUtils.DeviceStorage.ClearUserSession | utils/AsyncStorageUtils.ts:175-186 | the user and token go; remember-me stays |
| AsyncStorageUtils.DeviceStorage.SetRememberMe | utils/AsyncStorageUtils.ts:188-190 | the flag is stored serialised |
| AsyncStorageUtils.DeviceStorage.GetRememberMe | utils/AsyncStorageUtils.ts:192-195 | the stored flag, false when nothing is stored |
| AsyncStorageUtils.DeviceStorage.SaveHealthData | utils/AsyncStorageUtils.ts:203-222 | the merged, time-stamped record replaces the stored one |
| AsyncStorageUtils.DeviceStorage.GetHealthData | utils/AsyncStorageUtils.ts:224-226 | the stored health record, if any |
| AsyncStorageUtils.DeviceStorage.ClearHealthData | utils/AsyncStorageUtils.ts:228-230 | only the health key goes |
| AsyncStorageUtils.DeviceStorage.SavePreferences | utils/AsyncStorageUtils.ts:238-256 | the merge of patch, stored preferences and defaults is stored |
| AsyncStorageUtils.DeviceStorage.GetPreferences | utils/AsyncStorageUtils.ts:258-266 | the stored preferences, else the defaults |
| AsyncStorageUtils.DeviceStorage.ClearPreferences | utils/AsyncStorageUtils.ts:268-270 | only the preferences key goes |
| AsyncStorageUtils.SessionReadBack | utils/AsyncStorageUtils.ts:148-173 | after saving a session, reading it returns what was saved, and remember-me is untouched |
| AsyncStorageUtils.ClearedSessionReadBack | utils/AsyncStorageUtils.ts:161-186 | after clearing the session it reads back empty, and remember-me is as before |
| AsyncStorageUtils.RememberMeReadBack | utils/AsyncStorageUtils.ts:188-195 | a written remember-me flag reads back as written |
| AsyncStorageUtils.ClearOnlyOwnKey | utils/AsyncStorageUtils.ts:228-270 | clearing health data or preferences removes that key and keeps every other entry |
| AsyncStorageUtils.PreferencesReadBack | utils/AsyncStorageUtils.ts:238-266 | preferences read after a save are the merge; an empty patch over an empty store reads as the defaults |
| AuthContext.ValidateToken | contexts/AuthContext.tsx:89-107 | a token is accepted exactly when it has ten or more characters |
| AuthContext.TestUser | contexts/AuthContext.tsx:121-127 | every login yields user 12345, "Usuário Teste", with the given e-mail and the fixed phone and birth date |
| AuthContext.FakeToken | contexts/AuthContext.tsx:130 | the token starts with fake_token_ and passes token validation |
| AuthContext.NewUser | contexts/AuthContext.tsx:162-168 | the registered user has id user_<time> and the submitted name, e-mail, phone and birth date |
| AuthContext.LoadedToken | contexts/AuthContext.tsx:59-72 | the stored token, with an empty one read as none |
| AuthContext.AuthProvider.constructor | contexts/AuthContext.tsx:43-45 | no user, loading, not authenticated |
| AuthContext.AuthProvider.SaveUserData | contexts/AuthContext.tsx:48-56 | the user record and the token are written |
| AuthContext.AuthProvider.LoadUserData | contexts/AuthContext.tsx:59-72 | the stored user and non-empty token |
| AuthContext.AuthProvider.ClearUserData | contexts/AuthContext.tsx:75-86 | user, token and remember-me are removed; everything else stays |
| AuthContext.AuthProvider.Login | contexts/AuthContext.tsx:110-151 | succeeds exactly for an e-mail containing '@' and a password of six or more characters, and then stores and exposes the test user; on failure nothing changes; loading ends either way; the session invariant is kept |
| AuthContext.AuthProvider.Register | contexts/AuthContext.tsx:154-188 | always succeeds, stores and exposes the new user, and keeps the session invariant |
| AuthContext.AuthProvider.Logout | contexts/AuthContext.tsx:191-208 | no user, not authenticated, and the session keys are removed from the store |
| AuthContext.AuthProvider.CheckAuthState | contexts/AuthContext.tsx:211-240 | a stored user with a valid token is restored; one with an invalid token is cleared from the store; with no stored session nothing changes |
| AuthContext.AuthProvider.SetRememberMe | contexts/AuthContext.tsx:270-276 | the flag is stored |
| AuthContext.AuthProvider.GetRememberMe | contexts/AuthContext.tsx:279-287 | the stored flag, false when absent |
| AuthContext.LogoutIdempotent | contexts/AuthContext.tsx:191-208 | logging out twice leaves the store as logging out once |
| AuthContext.LogoutLeavesNoSession | contexts/AuthContext.tsx:75-86 | after logout no user, no token and no remember-me flag can be read |
| AuthContext.LoginSurvivesRestart | contexts/AuthContext.tsx:110-245 | a new provider mounted over the store a login left restores the same user, authenticated |
| AuthContext.LogoutSurvivesRestart | contexts/AuthContext.tsx:191-245 | after logout a restart restores nobody |
| Recommendations.BaseFacts | hooks/useRecommendations.ts:18-54 | the base list has five entries with ids 1 to 5: breathing (high), exercise (medium), mindfulness (medium), break (low), exercise (medium) |
| Recommendations.KeepKinds | hooks/useRecommendations.ts:96-104 | the kind filter never lengthens the list |
| Recommendations.KeepKindsMembers | hooks/useRecommendations.ts:96-104 | exactly the entries of an allowed kind survive, each no more often than before |
| Recommendations.HourFilter | hooks/useRecommendations.ts:95-104 | between 12 and 18 the list is unfiltered |
| Recommendations.HourFilterMembers | hooks/useRecommendations.ts:95-104 | mornings keep only exercise and breathing, evenings only mindfulness and break, afternoons everything |
| Recommendations.EveryKindAllowed | hooks/useRecommendations.ts:95-104 | every kind is allowed in the afternoon |
| Recommendations.WithPriorityMembers | hooks/useRecommendations.ts:107-111 | the priority group holds exactly the entries of that priority |
| Recommendations.WithPriorityOfGroup | hooks/useRecommendations.ts:107-111 | the priority groups do not overlap |
| Recommendations.PartitionMultiset | hooks/useRecommendations.ts:107-111 | the three priority groups together are the whole list |
| Recommendations.PrioritySortIsStableSort | hooks/useRecommendations.ts:107-111 | the sort orders by priority, is a permutation, and keeps the order within each priority |
| Recommendations.Take3 | hooks/useRecommendations.ts:112 | the first three entries, or all when fewer |
| Recommendations.SelectShape | hooks/useRecommendations.ts:93-112 | at most three entries, all from the list and allowed at that hour, sorted by priority |
| Recommendations.PersonalizedShape | hooks/useRecommendations.ts:87-117 | the same on the base list |
| Recommendations.SelectOnBaseShape | hooks/useRecommendations.ts:93-112 | on any list shaped like the base list the selection depends only on the hour band |
| Recommendations.PersonalizedIds | hooks/useRecommendations.ts:87-117 | mornings give ids 1, 2, 5; evenings 3, 4; afternoons 1, 2, 3 |
| Recommendations.RemoveId | hooks/useRecommendations.ts:120-121 | removal never lengthens the list |
| Recommendations.RemoveIdMembers | hooks/useRecommendations.ts:120-121 | every entry with that id goes, every other entry stays |
| Recommendations.RemoveIdAppend | hooks/useRecommendations.ts:120-121 | removal works piecewise, so the remaining entries keep their order |
| Recommendations.RemoveIdIdempotent | hooks/useRecommendations.ts:120-121 | a list without the id is unchanged, and completing twice is completing once |
| Recommendations.CustomRecommendation | hooks/useRecommendations.ts:128-135 | id custom_<time>, the given title, description and type, medium priority |
| Recommendations.RecommendationColor | hooks/useRecommendations.ts:56-69 | one colour per type, the grey fallback for anything else |
| Recommendations.RecommendationIcon | hooks/useRecommendations.ts:71-84 | one icon per type, the bulb for anything else |
| Recommendations.TypesDistinguished | hooks/useRecommendations.ts:56-84 | each type has its own colour and icon, distinct from the fallbacks |
| Recommendations.SelectRecommendations | hooks/useRecommendations.ts:93-112 | the reassigned selection equals the filter-sort-take specification: three or fewer allowed entries of the list |
| Recommendations.RecommendationsHook.constructor | hooks/useRecommendations.ts:14-15 | no recommendations, not loading |
| Recommendations.RecommendationsHook.Generate | hooks/useRecommendations.ts:87-117 | the list becomes the selection for the hour; loading ends |
| Recommendations.RecommendationsHook.Complete | hooks/useRecommendations.ts:120-125 | the list loses exactly the entries with that id |
| Recommendations.RecommendationsHook.AddCustom | hooks/useRecommendations.ts:128-138 | the new entry is put in front of the list |
| UserProfile.OrElse | hooks/useUserProfile.ts:65-67 | a present, non-empty value, else the fallback |
| UserProfile.GetFullName | hooks/useUserProfile.ts:21-26 | "nome sobrenome" with a surname, else the first name, else "Nome não informado"; never empty |
| UserProfile.FormatSexo | hooks/useUserProfile.ts:29-36 | the three stored codes get their word; anything else reads "Não informado" |
| UserProfile.Measure | hooks/useUserProfile.ts:69-70 | a present non-zero number with its unit, else "Não informado" |
| UserProfile.Profile | hooks/useUserProfile.ts:63-73 | each display field is its formatter's result; the completeness flag is the completeness predicate |
| UserProfile.NoUserShowsFallbacks | hooks/useUserProfile.ts:63-73 | with no user every text is its fallback and the profile is incomplete |
| UserProfile.CompleteProfileShowsOwnValues | hooks/useUserProfile.ts:50-73 | a complete profile shows the user's own values |
| UserProfile.MissingFieldsShowFallbacks | hooks/useUserProfile.ts:50-73 | each missing field shows its fallback |
| UserProfile.AutoRefreshTrigger | hooks/useUserProfile.ts:90-94 | a complete profile or no user never triggers a refresh; a present user without a name does |
| UserProfile.UserProfileHook.constructor | hooks/useUserProfile.ts:18 | not refreshing |
| UserProfile.UserProfileHook.IsLoading | hooks/useUserProfile.ts:99 | loading while the session loads or a refresh runs |
| UserProfile.UserProfileHook.HandleRefreshProfile | hooks/useUserProfile.ts:76-87 | true exactly when the refresh does not throw; the refresh flag is cleared either way |
| UserProfile.UserProfileHook.OnUserChanged | hooks/useUserProfile.ts:90-94 | refreshes exactly when the profile is present and incomplete |
| HealthMetrics.StatusColor | hooks/useHealthMetrics.ts:40-51 | green, orange, red for the three statuses; grey otherwise |
| HealthMetrics.StatusText | hooks/useHealthMetrics.ts:53-64 | Normal, Atenção, Crítico; Desconhecido otherwise |
| HealthMetrics.StatusesDistinguished | hooks/useHealthMetrics.ts:40-64 | the three statuses differ in colour and text from each other and from an unknown status |
| HealthMetrics.HeartRate | hooks/useHealthMetrics.ts:75 | a draw in [0, 1) gives 65 to 84 beats |
| HealthMetrics.StressStatus | hooks/useHealthMetrics.ts:79-80 | above 7 critical, above 4 warning, otherwise normal |
| HealthMetrics.RefreshMetric | hooks/useHealthMetrics.ts:73-84 | heart rate gets a new value, stress a new value and status, any other metric is unchanged; titles and units stay |
| HealthMetrics.Refreshed | hooks/useHealthMetrics.ts:73-84 | every metric is refreshed in place, in the same order |
| HealthMetrics.RefreshedReadings | hooks/useHealthMetrics.ts:73-84 | after a refresh the heart-rate value reads back as a beat count from 65 to 84, the stress status is one of the three known ones, and every other metric is unchanged |
| HealthMetrics.CountStatus | hooks/useHealthMetrics.ts:91-92 | the count is at most the number of metrics |
| HealthMetrics.CountPositiveIffPresent | hooks/useHealthMetrics.ts:91-92 | a status is counted exactly when some metric has it |
| HealthMetrics.HealthSummary | hooks/useHealthMetrics.ts:90-101 | critical with the critical count when any; else warning with the warning count; else normal |
| HealthMetrics.SummaryIsWorstStatus | hooks/useHealthMetrics.ts:90-101 | the summary is the worst status present |
| HealthMetrics.InitialSummary | hooks/useHealthMetrics.ts:11-36 | the starting metrics summarise as one warning |
| HealthMetrics.HealthMetricsHook.constructor | hooks/useHealthMetrics.ts:11-38 | the four starting metrics, not loading |
| HealthMetrics.HealthMetricsHook.Summary | hooks/useHealthMetrics.ts:109 | the summary of the current metrics |
| HealthMetrics.HealthMetricsHook.RefreshMetrics | hooks/useHealthMetrics.ts:67-87 | the metrics become their refreshed list; loading ends |
| DailyData.WithWater | hooks/useDailyData.ts:75-80 | one more glass, never above ten; nothing else changes |
| DailyData.WithMeditation | hooks/useDailyData.ts:65-72 | only the meditation text changes, and an unreadable one becomes "NaN min" |
| DailyData.MeditationMinutesOfText | hooks/useDailyData.ts:66 | "<n> min" reads back as n |
| DailyData.MeditationAdds | hooks/useDailyData.ts:65-72 | adding m minutes to "<n> min" gives "<n+m> min" and changes nothing else, so successive additions accumulate |
| DailyData.RefreshedSummary | hooks/useDailyData.ts:40-44 | steps grow by less than a hundred, water gains at most one glass and is capped at eight; nothing else changes |
| DailyData.RefreshedSensor | hooks/useDailyData.ts:46-50 | synced "agora mesmo", battery one point lower (a missing level counts as 85) and never below 20 |
| DailyData.WaterCaps | hooks/useDailyData.ts:43-78 | added glasses stop at ten; a refresh brings eight or more down to eight |
| DailyData.BatteryAfterRefreshes | hooks/useDailyData.ts:49 | after k refreshes from 85 the battery reads max(85 - k, 20) |
| DailyData.DailyDataHook.constructor | hooks/useDailyData.ts:18-32 | the starting summary and sensor status |
| DailyData.DailyDataHook.RefreshSensorData | hooks/useDailyData.ts:35-54 | summary and sensor become their refreshed values |
| DailyData.DailyDataHook.AddExercise | hooks/useDailyData.ts:57-62 | exactly one more exercise |
| DailyData.DailyDataHook.AddMeditation | hooks/useDailyData.ts:65-72 | the meditation total is updated |
| DailyData.DailyDataHook.AddWater | hooks/useDailyData.ts:75-80 | one more glass up to ten |
| DailyData.WaterThenRefresh | hooks/useDailyData.ts:43-78 | adding water to the cap and refreshing leaves eight glasses |
| ProfileModalState.ProfileModal.constructor | hooks/useProfileModal.ts:4-5 | hidden, on the information tab |
| ProfileModalState.ProfileModal.Open | hooks/useProfileModal.ts:7-10 | visible on the requested tab, information by default |
| ProfileModalState.ProfileModal.Close | hooks/useProfileModal.ts:12-16 | hidden and back on the information tab |
| ProfileModalState.ProfileModal.SwitchTab | hooks/useProfileModal.ts:18-20 | only the tab changes |
| ProfileModalState.ReopenShowsInfo | hooks/useProfileModal.ts:7-16 | closing and reopening shows the information tab whatever was open |
| Inputs.MaskPhone | screens/CadastroScreen/index.tsx:53-60 | the digits are kept; under ten digits the bare digits; ten as (DD) DDDD-DDDD; eleven or more as (DD) DDDDD-DDDD |
| Inputs.MaskDate | screens/CadastroScreen/index.tsx:62-65 | the digits are kept; under eight the bare digits; otherwise slashes after the day and the month |
| Inputs.MaskCep | screens/CadastroEnderecoScreen/index.tsx:63-66 | the digits are kept; under eight the bare digits; otherwise a dash after the fifth digit |
| Inputs.MasksIdempotent | screens/CadastroDadosPessoaisScreen/index.tsx:55-72 | typing over a masked value masks it to itself, for every mask |
| Inputs.MaskLengths | screens/CadastroScreen/index.tsx:62-65 | a masked date has ten characters, and a masked CEP nine, exactly when eight digits were typed |
| Inputs.EmailPatternIsShape | screens/LoginScreen/index.tsx:32-35 | the e-mail pattern holds exactly when there is one '@', not first, and a later dot with text on both sides, with no whitespace |
| Inputs.EmailPatternHasAt | screens/LoginScreen/index.tsx:32-35 | every address the pattern accepts contains an '@' |
| Inputs.ValidatePhoneIsLength | screens/CadastroScreen/index.tsx:48-51 | the phone check amounts to ten or more characters, and any ten-digit input passes once masked |
| LoginScreen.PreCheck | screens/LoginScreen/index.tsx:38-51 | passes exactly for non-blank fields, a pattern e-mail and a six-character password; otherwise the first failing check gives its message: blank fields, then a bad e-mail, then a short password |
| LoginScreen.PreCheckImpliesAccepted | screens/LoginScreen/index.tsx:38-54 | whatever passes the screen is accepted by login |
| LoginScreen.ScreenStricterThanLogin | screens/LoginScreen/index.tsx:38-54 | "a@b" with a six-letter password is accepted by login but stopped by the screen |
| LoginScreen.HandleLogin | screens/LoginScreen/index.tsx:37-70 | login is called only when the checks pass, and then succeeds; remember-me is saved only after a successful login; a rejected attempt leaves the session alone |
| Cadastro.ValidateForm | screens/CadastroScreen/index.tsx:67-106 | passes exactly when all seven checks hold; otherwise the first failing check in the order name, e-mail, phone, birth date, password length, password match, terms gives its own message |
| Cadastro.Registration | screens/CadastroScreen/index.tsx:112-118 | register receives the form's name, e-mail, phone, birth date and password |
| Cadastro.SignedUpCanLogIn | screens/CadastroScreen/index.tsx:67-106 | credentials that pass sign-up pass the login screen exactly when the password is not all whitespace |
| Cadastro.BlankPasswordSignsUpButCannotLogIn | screens/CadastroScreen/index.tsx:94-96 | six spaces are a password sign-up accepts and login refuses |
| Cadastro.HandleSignUp | screens/CadastroScreen/index.tsx:108-118 | registers and logs in exactly when the form passes; otherwise the session is untouched and the first message is shown |
| Cadastro.SignUpForm.constructor | screens/CadastroScreen/index.tsx:24-34 | an empty form, terms not accepted |
| Cadastro.SignUpForm.UpdateField | screens/CadastroScreen/index.tsx:39-41 | one field takes the value; the others and the terms keep theirs |
| Cadastro.SignUpForm.TypeMasked | screens/CadastroScreen/index.tsx:202-215 | the phone and date inputs store what is typed, masked |
| Cadastro.SignUpForm.ToggleTerms | screens/CadastroScreen/index.tsx:273 | the terms flag flips and the form is unchanged |
| CadastroDadosPessoais.ValidateForm | screens/CadastroDadosPessoaisScreen/index.tsx:74-123 | passes exactly when all nine checks hold; otherwise the first failing check in the order name, surname, CPF, e-mail, phone, birth date, sex, height, weight gives its own message |
| CadastroDadosPessoais.RepeatedDigitsPassLengthCheck | screens/CadastroDadosPessoaisScreen/index.tsx:45-48 | eleven equal digits pass the screen's CPF check though the checksum rejects them |
| CadastroDadosPessoais.MeasureCheck | screens/CadastroDadosPessoaisScreen/index.tsx:106-120 | a non-numeric height or weight passes; zero, negative and empty do not |
| CadastroDadosPessoais.MaskedInputsPass | screens/CadastroDadosPessoaisScreen/index.tsx:193-233 | through the masks, the CPF passes exactly when eleven digits were typed and the date exactly when eight were |
| CadastroDadosPessoais.PersonalDataForm.constructor | screens/CadastroDadosPessoaisScreen/index.tsx:24-34 | an empty form |
| CadastroDadosPessoais.PersonalDataForm.UpdateField | screens/CadastroDadosPessoaisScreen/index.tsx:36-38 | one field takes the value; the others keep theirs |
| CadastroDadosPessoais.PersonalDataForm.TypeMasked | screens/CadastroDadosPessoaisScreen/index.tsx:193-233 | CPF, phone and date are stored masked |
| CadastroDadosPessoais.PersonalDataForm.HandleNext | screens/CadastroDadosPessoaisScreen/index.tsx:125-130 | the data moves on exactly when the form passes, and unchanged |
| CadastroCredenciais.StrengthCount | screens/CadastroCredenciaisScreen/index.tsx:57-73 | at most six checks pass |
| CadastroCredenciais.PasswordStrength | screens/CadastroCredenciaisScreen/index.tsx:57-73 | two checks or fewer is weak, three or four medium, five or six strong, each with its colour and width |
| CadastroCredenciais.AcceptedPasswordNotWeak | screens/CadastroCredenciaisScreen/index.tsx:51-73 | an accepted password scores at least four, so it is never shown as weak |
| CadastroCredenciais.ValidateForm | screens/CadastroCredenciaisScreen/index.tsx:75-110 | blank username, bad username, missing password, weak password and mismatch each give their message in that order |
| CadastroCredenciais.ValidUsernameNotBlank | screens/CadastroCredenciaisScreen/index.tsx:45-49 | a valid username is never blank |
| CadastroCredenciais.FormPassesIffNextEnabled | screens/CadastroCredenciaisScreen/index.tsx:292-295 | the form passes exactly when the next button is enabled |
| CadastroCredenciais.LoweredUsername | screens/CadastroCredenciaisScreen/index.tsx:176 | the stored username has no capitals and is valid exactly when what was typed is |
| CadastroCredenciais.CredentialsForm.constructor | screens/CadastroCredenciaisScreen/index.tsx:35-39 | all three fields empty |
| CadastroCredenciais.CredentialsForm.UpdateField | screens/CadastroCredenciaisScreen/index.tsx:41-43 | one field takes the value; the others keep theirs |
| CadastroCredenciais.CredentialsForm.TypeUsername | screens/CadastroCredenciaisScreen/index.tsx:176 | the username is stored lower-cased |
| CadastroCredenciais.CredentialsForm.Validate | screens/CadastroCredenciaisScreen/index.tsx:112-113 | passes exactly when the form check passes and the next button is enabled |
| CadastroEndereco.WithField | screens/CadastroEnderecoScreen/index.tsx:59-61 | the named field takes the value and every other field keeps its own |
| CadastroEndereco.WithFieldLaws | screens/CadastroEnderecoScreen/index.tsx:59-61 | writing back a field's own value changes nothing, and a second write replaces the first |
| CadastroEndereco.CepPatternAndMask | screens/CadastroEnderecoScreen/index.tsx:63-71 | the masked CEP matches the pattern exactly when eight digits were typed; anything matching has eight digits |
| CadastroEndereco.LookupTrigger | screens/CadastroEnderecoScreen/index.tsx:266-271 | the lookup starts exactly when eight digits were typed, and then the CEP matches the pattern |
| CadastroEndereco.ValidateForm | screens/CadastroEnderecoScreen/index.tsx:104-138 | passes exactly when all the checks hold; otherwise the first failing check in the order street, district, CEP, number, city, state gives its own message |
| CadastroEndereco.ConvertDateToAPI | screens/CadastroEnderecoScreen/index.tsx:203-207 | throws exactly when the date has no '/'; with three or more parts it is the third, then the padded second, then the padded first, joined by '-'; with two the year reads "undefined" |
| CadastroEndereco.ConvertDateParts | screens/CadastroEnderecoScreen/index.tsx:203-207 | D/M/Y, whatever the lengths of its parts, converts to Y-MM-DD with day and month padded |
| CadastroEndereco.ConvertDateWithoutYear | screens/CadastroEnderecoScreen/index.tsx:203-207 | D/M converts to "undefined-MM-DD" |
| CadastroEndereco.ConvertDateExample | screens/CadastroEnderecoScreen/index.tsx:203-207 | "5/1/1990" converts to "1990-01-05" |
| CadastroEndereco.ConvertMaskedDate | screens/CadastroEnderecoScreen/index.tsx:203-207 | a date typed with eight digits converts to YYYY-MM-DD from those digits |
| CadastroEndereco.RequestBody | screens/CadastroEnderecoScreen/index.tsx:149-172 | built exactly when the date converts: CPF and CEP as digits, the state upper-cased, every other field as entered |
| CadastroEndereco.ValidFormSendsCleanAddress | screens/CadastroEnderecoScreen/index.tsx:104-172 | once the address form passes, the CEP sent is eight digits |
| CadastroEndereco.CheckedDateConverts | screens/CadastroEnderecoScreen/index.tsx:149-207 | a birth date that passed the personal-data step always converts |
| CadastroEndereco.Registration | screens/CadastroEnderecoScreen/index.tsx:178 | register reads the body's name, e-mail, phone and converted date |
| CadastroEndereco.HandleFinish | screens/CadastroEnderecoScreen/index.tsx:140-201 | the address check, then the presence of the earlier steps, then the date conversion; only when all pass is the user registered and logged in, with the session written to the device store over what it held; otherwise the session is untouched |
| CadastroEndereco.MergeLookup | screens/CadastroEnderecoScreen/index.tsx:84-96 | an unknown CEP changes nothing; otherwise street, district, city and state take the answer's non-empty values and change in no other way; number, complement and CEP are kept |
| CadastroEndereco.MergeLookupStable | screens/CadastroEnderecoScreen/index.tsx:90-96 | an empty answer changes nothing, and merging the same answer twice is merging once |
| CadastroEndereco.StartingWith | screens/CadastroEnderecoScreen/index.tsx:372 | the filter never lengthens the list |
| CadastroEndereco.StartingWithMembers | screens/CadastroEnderecoScreen/index.tsx:372 | exactly the entries with the prefix survive, in list order |
| CadastroEndereco.StartingWithAppend | screens/CadastroEnderecoScreen/index.tsx:372 | the filter distributes over concatenation |
| CadastroEndereco.UfSuggestions | screens/CadastroEnderecoScreen/index.tsx:367-373 | nothing unless one character is typed; then the first six states (or all, if fewer) of the list that start with that character upper-cased, in list order |
| CadastroEndereco.SuggestionsAreStates | screens/CadastroEnderecoScreen/index.tsx:367-373 | every suggestion is a state starting with the typed letter |
| CadastroEndereco.SuggestionsForM | screens/CadastroEnderecoScreen/index.tsx:218-222 | typing "m" suggests MA, MT, MS, MG in list order |
| CadastroEndereco.LetterBlock | screens/CadastroEnderecoScreen/index.tsx:372 | the filter on a letter picks out the block of entries starting with it |
| CadastroEndereco.AddressForm.constructor | screens/CadastroEnderecoScreen/index.tsx:33-41 | an empty address, no lookup running |
| CadastroEndereco.AddressForm.UpdateField | screens/CadastroEnderecoScreen/index.tsx:59-61 | one field takes the value |
| CadastroEndereco.AddressForm.TypeCep | screens/CadastroEnderecoScreen/index.tsx:266-271 | the CEP is stored masked; with a full CEP and an answer the lookup is merged in; otherwise only the CEP changes |
| CadastroEndereco.AddressForm.TypeUf | screens/CadastroEnderecoScreen/index.tsx:357 | the state is stored upper-cased |
| EditProfile.FormatDateForAPI | _components/Profile/EditProfileModal.tsx:136-144 | three '/'-separated parts D/M/Y become Y-MM-DD with day and month padded; anything else is returned as given |
| EditProfile.FormatDateForAPIParts | _components/Profile/EditProfileModal.tsx:136-144 | D/M/Y, whatever the lengths of its parts, goes out as Y-MM-DD with day and month padded |
| EditProfile.FormatDateFromAPI | _components/Profile/EditProfileModal.tsx:146-156 | three '-'-separated parts Y-M-D are shown as D/M/Y; anything else, the empty text included, is returned as given |
| EditProfile.FormatDateFromAPIParts | _components/Profile/EditProfileModal.tsx:146-156 | Y-M-D, whatever the lengths of its parts, is shown as D/M/Y without padding |
| EditProfile.SameConversionAsRegistration | _components/Profile/EditProfileModal.tsx:136-144 | where both apply, the editor converts a date as registration does |
| EditProfile.ApiDateRoundTrip | _components/Profile/EditProfileModal.tsx:136-156 | a stored Y-M-D shows as D/M/Y and goes back unchanged |
| EditProfile.DisplayDateRoundTrip | _components/Profile/EditProfileModal.tsx:136-156 | a displayed D/M/Y goes out as Y-M-D and comes back unchanged |
| EditProfile.TypedDateToAPI | _components/Profile/EditProfileModal.tsx:131-144 | an eight-digit typed date goes to the API as YYYY-MM-DD |
| EditProfile.MeasureInput | _components/Profile/EditProfileModal.tsx:292-303 | the number read, or 0 when it does not read as one |
| EditProfile.SaveCheck | _components/Profile/EditProfileModal.tsx:65-83 | passes exactly when name, surname, e-mail and phone are not blank, and reports the first blank one |
| EditProfile.ToSend | _components/Profile/EditProfileModal.tsx:87-90 | only the date is converted |
| EditProfile.Loaded | _components/Profile/EditProfileModal.tsx:54-57 | only the date is converted |
| EditProfile.LoadThenSaveUnchanged | _components/Profile/EditProfileModal.tsx:49-92 | a profile with a plain Y-M-D date, loaded and saved without edits, goes out exactly as it was stored |
| EditProfile.WithField | _components/Profile/EditProfileModal.tsx:106-108 | the named text field takes the value; address and measures are kept |
| EditProfile.EditProfileForm.constructor | _components/Profile/EditProfileModal.tsx:27-46 | the empty request |
| EditProfile.EditProfileForm.Load | _components/Profile/EditProfileModal.tsx:49-61 | with the editor visible, a user and stored data, the form becomes the loaded data; otherwise it is kept |
| EditProfile.EditProfileForm.UpdateField | _components/Profile/EditProfileModal.tsx:106-108 | one text field changes |
| EditProfile.EditProfileForm.TypeMasked | _components/Profile/EditProfileModal.tsx:223-259 | CPF, phone and date are stored masked |
| EditProfile.EditProfileForm.TypeMeasure | _components/Profile/EditProfileModal.tsx:292-303 | height or weight is stored as the number read, or 0 |
| EditProfile.EditProfileForm.UpdateEnderecoField | _components/Profile/EditProfileModal.tsx:110-115 | one address field changes, nothing else |
| EditProfile.EditProfileForm.TypeEnderecoMasked | _components/Profile/EditProfileModal.tsx:343-389 | the CEP is stored masked and the state upper-cased |
| EditProfile.EditProfileForm.HandleSave | _components/Profile/EditProfileModal.tsx:63-104 | nothing is sent unless the checks pass; then the form goes out with its date converted; a throwing update gives the save-error message, otherwise the outcome follows the update's answer |
| ProfileView.FirstChars | _components/Profile/index.tsx:28-30 | at most one character per word |
| ProfileView.GetInitials | _components/Profile/index.tsx:26-33 | at most two characters, none a lower-case letter |
| ProfileView.InitialsOfWords | _components/Profile/index.tsx:26-33 | one word gives its upper-cased first letter; two or more give the first letters of the first two |
| ProfileView.InitialsExamples | _components/Profile/index.tsx:26-33 | "ana maria silva" gives AM and "ana" gives A |
| ProfileView.GetAvatarColor | _components/Profile/index.tsx:35-42 | a palette colour, the one at the code sum modulo eight |
| ProfileView.AvatarColorOrderFree | _components/Profile/index.tsx:35-42 | reordering the parts of a name keeps its colour |
| ProfileView.NameOr | _components/Profile/index.tsx:115-117 | the user's non-empty name, else the fallback |
| ProfileView.TextOr | _components/Profile/index.tsx:118-140 | the non-empty value, else the fallback |
| ProfileView.AvatarName | _components/Profile/index.tsx:68 | the avatar always has a name to draw from |
| ProfileView.InfoTab | _components/Profile/index.tsx:114-140 | every line of the information tab is non-empty |
| ProfileView.InfoFallbacks | _components/Profile/index.tsx:114-140 | with nobody logged in every line shows its fallback; a user's non-empty values are shown as stored |
| ProfileView.ProfileTabs.constructor | _components/Profile/index.tsx:75 | the sheet opens on the information tab |
| ProfileView.ProfileTabs.Press | _components/Profile/index.tsx:245-270 | the pressed tab is shown |

## Left out

- `services/api.ts` (the HTTP client) is not part of this model; nothing in the modelled code calls it.
- Rendering, styles, navigation and the `Alert` dialogs are left out. The screens' outcomes are the values their handlers return.
- The icon components are left out.
- The debug helpers of the storage module are left out, because they only log: `logAllStoredData`, `getStorageSize`, `getAllKeys` and `getMultiple`.
- `getDailyProgress` in `useDailyData` is left out because it is floating-point arithmetic on the summary.
- `formatDate` in `useUserProfile` is left out because it depends on the device's locale (`toLocaleDateString`). The profile's birth date is not modelled.
- `refreshUserProfile`, `updateProfile` and `getUserDataForUpdate` are called by the hooks and the profile editor, but nothing in the code defines them. `useAuth` does not return `refreshUserProfile`, and `useUserProfile` returns none of `updateProfile`, `getUserDataForUpdate` and `isUpdating`. Their results are parameters here: whether the refresh throws, whether the update throws or succeeded, and the stored data. As the code stands, each call is a call of `undefined` and throws a TypeError. So `handleRefreshProfile` always returns false, the editor's load effect throws when the editor opens with a user, and every save that passes the checks ends in the save-error alert.
- The lookup service is a parameter: the CEP lookup's answer, or its failure.
- JSON serialisation is abstract. A stored value is either raw text or a serialised document, and parsing always gives back what was serialised.
- Failures of the device store are not modelled, so the `catch` branches that only log are not either.
- `register` never returns false, because its failure branch needs a storage failure.
- The timers are not modelled: the 1, 1.5 and 2 second delays, the 300 ms delay of `closeProfile`, and the five-minute `setInterval` of `useDailyData` that rewrites the sensor's `lastSync` text. Each handler runs to completion at once, so interleavings of asynchronous handlers are not modelled.
- Console logging is left out.
- The `maxLength` limits of the text inputs are left out.
- `toLowerCase` and `toUpperCase` map only the ASCII letters.
- `charCodeAt` is taken as the Dafny character's code. For characters outside the Basic Multilingual Plane it differs from JavaScript's UTF-16 code units.
- A string is a sequence of Unicode code points, while JavaScript's `.length`, `charAt` and `substring` count UTF-16 code units. For text with characters outside the Basic Multilingual Plane (an emoji counts two units in JavaScript and one here), every length test differs. This covers the six-character password of `login` and the login screen, the token's ten characters, the two-character names, the ten-character birth date, the ten-character phone, the 8- and 12-character strength checks, and the first characters taken by `getInitials`.
- DailyData.DailyDataHook.AddMeditation: takes a whole number of minutes, as does `DailyData.WithMeditation`. The code's `addMeditation` accepts any number, so a fractional total such as "15.5 min" (read back as 15 by `parseInt`) is not modelled.
- Text.ParseInt: reads base 10 only. Called without a radix, as `parseInt` is here, JavaScript reads a "0x" or "0X" prefix as hexadecimal, so a meditation text starting with "0x" is read differently.
- `parseFloat` is a parameter. `toFixed(1)` is modelled on a stress reading given in tenths.
- How a number is rendered into text in `useUserProfile` is a parameter.
- HealthMetrics.RefreshMetrics: the draw for the stress reading is taken in whole tenths from 0 to 100, rather than as a real in [0, 10) rounded by `toFixed(1)`.
