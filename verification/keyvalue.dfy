/** The device key-value store shared by the session manager and the storage
    helpers, and the records kept in it. A stored value is either text kept
    verbatim or a serialised record; JSON itself is abstract. */
module KeyValue {
  import opened Wrappers

  const USER_TOKEN := "@neocare_user_token"
  const USER_DATA := "@neocare_user_data"
  const REMEMBER_ME := "@neocare_remember_me"
  const USER_PREFERENCES := "@neocare_user_preferences"
  const HEALTH_DATA := "@neocare_health_data"
  const LAST_SYNC := "@neocare_last_sync"

  /** The signed-in user as the store keeps it (`avatar` only ever set by the
      storage helpers). */
  datatype UserData = UserData(
    id: string,
    nome: string,
    email: string,
    telefone: Option<string>,
    dataNascimento: Option<string>,
    avatar: Option<string>)

  datatype Theme = Light | Dark | Auto

  datatype Preferences = Preferences(
    notificationsEnabled: bool,
    reminderTime: string,
    theme: Theme,
    language: string)

  /** `Partial<UserPreferences>`: None is a key that is not supplied. */
  datatype PreferencesPatch = PreferencesPatch(
    notificationsEnabled: Option<bool>,
    reminderTime: Option<string>,
    theme: Option<Theme>,
    language: Option<string>)

  /** The health record; every series is optional. */
  datatype HealthData = HealthData(
    heartRate: Option<seq<real>>,
    stressLevel: Option<seq<real>>,
    sleepQuality: Option<seq<real>>,
    steps: Option<seq<real>>,
    lastUpdate: string)

  /** `Partial<HealthData>` */
  datatype HealthPatch = HealthPatch(
    heartRate: Option<seq<real>>,
    stressLevel: Option<seq<real>>,
    sleepQuality: Option<seq<real>>,
    steps: Option<seq<real>>,
    lastUpdate: Option<string>)

  datatype Doc =
    | BoolDoc(b: bool)
    | UserDoc(user: UserData)
    | PreferencesDoc(prefs: Preferences)
    | HealthDoc(health: HealthData)

  /** A string is stored as it is; any other value is serialised. */
  datatype Value = Raw(text: string) | Serialized(doc: Doc)

  type Store = map<string, Value>

  // ---------------------------------------------------------------------------
  // what a reader finds under a key

  /** The text stored under `key`, if text is stored there. */
  function StoredText(s: Store, key: string): (r: Option<string>)
    ensures r.Some? <==> key in s && s[key].Raw?
    ensures r.Some? ==> s[key] == Raw(r.value)
  {
    if key in s && s[key].Raw? then Some(s[key].text) else None
  }

  function StoredUser(s: Store): (r: Option<UserData>)
    ensures r.Some? <==> USER_DATA in s && s[USER_DATA].Serialized? && s[USER_DATA].doc.UserDoc?
    ensures r.Some? ==> s[USER_DATA] == Serialized(UserDoc(r.value))
  {
    if USER_DATA in s && s[USER_DATA].Serialized? && s[USER_DATA].doc.UserDoc?
    then Some(s[USER_DATA].doc.user) else None
  }

  /** The remember-me flag: false unless a boolean is stored. */
  function RememberMeOf(s: Store): (r: bool)
    ensures r ==> REMEMBER_ME in s && s[REMEMBER_ME] == Serialized(BoolDoc(true))
    ensures REMEMBER_ME !in s ==> !r
  {
    REMEMBER_ME in s && s[REMEMBER_ME] == Serialized(BoolDoc(true))
  }

  function StoredPreferences(s: Store): (r: Option<Preferences>)
    ensures r.Some? <==>
      (USER_PREFERENCES in s && s[USER_PREFERENCES].Serialized? && s[USER_PREFERENCES].doc.PreferencesDoc?)
    ensures r.Some? ==> s[USER_PREFERENCES] == Serialized(PreferencesDoc(r.value))
  {
    if USER_PREFERENCES in s && s[USER_PREFERENCES].Serialized? && s[USER_PREFERENCES].doc.PreferencesDoc?
    then Some(s[USER_PREFERENCES].doc.prefs) else None
  }

  function StoredHealth(s: Store): (r: Option<HealthData>)
    ensures r.Some? <==> HEALTH_DATA in s && s[HEALTH_DATA].Serialized? && s[HEALTH_DATA].doc.HealthDoc?
    ensures r.Some? ==> s[HEALTH_DATA] == Serialized(HealthDoc(r.value))
  {
    if HEALTH_DATA in s && s[HEALTH_DATA].Serialized? && s[HEALTH_DATA].doc.HealthDoc?
    then Some(s[HEALTH_DATA].doc.health) else None
  }

  // ---------------------------------------------------------------------------
  // writes

  /** `multiRemove(keys)`: exactly the listed keys disappear; every other entry is kept. */
  function WithoutKeys(s: Store, keys: seq<string>): (r: Store)
    ensures forall k :: k in r <==> k in s && k !in keys
    ensures forall k :: k in r ==> r[k] == s[k]
  {
    map k | k in s && k !in keys :: s[k]
  }

  /** The user record and the token written side by side. */
  function WithSession(s: Store, user: UserData, token: string): (r: Store)
    ensures r.Keys == s.Keys + {USER_DATA, USER_TOKEN}
    ensures forall k :: k in s && k != USER_DATA && k != USER_TOKEN ==> r[k] == s[k]
    ensures StoredUser(r) == Some(user) && StoredText(r, USER_TOKEN) == Some(token)
  {
    s[USER_DATA := Serialized(UserDoc(user))][USER_TOKEN := Raw(token)]
  }

  /** Removing the session keys forgets the session and keeps everything else. */
  lemma SessionGone(s: Store, keys: seq<string>)
    requires USER_DATA in keys && USER_TOKEN in keys
    ensures StoredUser(WithoutKeys(s, keys)) == None
    ensures StoredText(WithoutKeys(s, keys), USER_TOKEN) == None
  {
  }

  // ---------------------------------------------------------------------------
  // merges

  /** One field of a `{ ...defaults, ...stored, ...supplied }` spread. */
  function Overlay<T>(default: T, stored: Option<T>, supplied: Option<T>): (r: T)
    ensures supplied.Some? ==> r == supplied.value
    ensures supplied.None? && stored.Some? ==> r == stored.value
    ensures supplied.None? && stored.None? ==> r == default
  {
    if supplied.Some? then supplied.value else stored.GetOr(default)
  }

  const DefaultPreferences := Preferences(true, "09:00", Auto, "pt-BR")

  const NoPreferences := PreferencesPatch(None, None, None, None)

  function Field<T>(p: Option<Preferences>, f: Preferences -> T): Option<T> {
    if p.Some? then Some(f(p.value)) else None
  }

  /** `{ ...defaults, ...currentPrefs, ...preferences }`: each field comes from what
      was supplied, else from what was stored, else from the defaults. */
  function MergePreferences(current: Option<Preferences>, supplied: PreferencesPatch): (r: Preferences)
    ensures supplied.notificationsEnabled.Some? ==> r.notificationsEnabled == supplied.notificationsEnabled.value
    ensures supplied.reminderTime.Some? ==> r.reminderTime == supplied.reminderTime.value
    ensures supplied.theme.Some? ==> r.theme == supplied.theme.value
    ensures supplied.language.Some? ==> r.language == supplied.language.value
    ensures current.Some? && supplied.notificationsEnabled.None? ==>
      r.notificationsEnabled == current.value.notificationsEnabled
    ensures current.Some? && supplied.reminderTime.None? ==> r.reminderTime == current.value.reminderTime
    ensures current.Some? && supplied.theme.None? ==> r.theme == current.value.theme
    ensures current.Some? && supplied.language.None? ==> r.language == current.value.language
    ensures current.None? && supplied.notificationsEnabled.None? ==>
      r.notificationsEnabled == DefaultPreferences.notificationsEnabled
    ensures current.None? && supplied.reminderTime.None? ==> r.reminderTime == DefaultPreferences.reminderTime
    ensures current.None? && supplied.theme.None? ==> r.theme == DefaultPreferences.theme
    ensures current.None? && supplied.language.None? ==> r.language == DefaultPreferences.language
    ensures current.None? && supplied == NoPreferences ==> r == DefaultPreferences
  {
    Preferences(
      Overlay(DefaultPreferences.notificationsEnabled, Field(current, (p: Preferences) => p.notificationsEnabled), supplied.notificationsEnabled),
      Overlay(DefaultPreferences.reminderTime, Field(current, (p: Preferences) => p.reminderTime), supplied.reminderTime),
      Overlay(DefaultPreferences.theme, Field(current, (p: Preferences) => p.theme), supplied.theme),
      Overlay(DefaultPreferences.language, Field(current, (p: Preferences) => p.language), supplied.language))
  }

  /** Saving nothing over stored preferences keeps them; saving the same patch twice
      is the same as saving it once. */
  lemma MergePreferencesStable(current: Option<Preferences>, supplied: PreferencesPatch)
    ensures current.Some? ==> MergePreferences(current, NoPreferences) == current.value
    ensures MergePreferences(Some(MergePreferences(current, supplied)), supplied)
         == MergePreferences(current, supplied)
  {
  }

  function HealthField(h: Option<HealthData>, f: HealthData -> Option<seq<real>>): Option<seq<real>> {
    if h.Some? then f(h.value) else None
  }

  /** The precedence rule for one series: supplied, else stored, else empty. */
  predicate SeriesPrecedence(r: Option<seq<real>>, stored: Option<seq<real>>, supplied: Option<seq<real>>) {
    (supplied.Some? ==> r == supplied)
    && (supplied.None? && stored.Some? ==> r == stored)
    && (supplied.None? && stored.None? ==> r == Some([]))
  }

  function MergedSeries(stored: Option<seq<real>>, supplied: Option<seq<real>>): Option<seq<real>> {
    Some(Overlay([], stored, supplied))
  }

  /** `{ empty series, ...currentData, ...data, lastUpdate: now }`: every series is
      present afterwards, and the supplied timestamp is always replaced by `now`. */
  function MergeHealth(current: Option<HealthData>, supplied: HealthPatch, now: string): (r: HealthData)
    ensures r.lastUpdate == now
    ensures r.heartRate.Some? && r.stressLevel.Some? && r.sleepQuality.Some? && r.steps.Some?
    ensures SeriesPrecedence(r.heartRate, HealthField(current, (h: HealthData) => h.heartRate), supplied.heartRate)
    ensures SeriesPrecedence(r.stressLevel, HealthField(current, (h: HealthData) => h.stressLevel), supplied.stressLevel)
    ensures SeriesPrecedence(r.sleepQuality, HealthField(current, (h: HealthData) => h.sleepQuality), supplied.sleepQuality)
    ensures SeriesPrecedence(r.steps, HealthField(current, (h: HealthData) => h.steps), supplied.steps)
  {
    HealthData(
      MergedSeries(HealthField(current, (h: HealthData) => h.heartRate), supplied.heartRate),
      MergedSeries(HealthField(current, (h: HealthData) => h.stressLevel), supplied.stressLevel),
      MergedSeries(HealthField(current, (h: HealthData) => h.sleepQuality), supplied.sleepQuality),
      MergedSeries(HealthField(current, (h: HealthData) => h.steps), supplied.steps),
      now)
  }

  /** A health record merged with nothing keeps every series it had and fills the
      missing ones with empty series. */
  lemma MergeHealthKeeps(current: HealthData, now: string)
    ensures var r := MergeHealth(Some(current), HealthPatch(None, None, None, None, None), now);
      (current.heartRate.Some? ==> r.heartRate == current.heartRate)
      && (current.stressLevel.Some? ==> r.stressLevel == current.stressLevel)
      && (current.sleepQuality.Some? ==> r.sleepQuality == current.sleepQuality)
      && (current.steps.Some? ==> r.steps == current.steps)
      && (current.heartRate.None? ==> r.heartRate == Some([]))
      && (current.stressLevel.None? ==> r.stressLevel == Some([]))
      && (current.sleepQuality.None? ==> r.sleepQuality == Some([]))
      && (current.steps.None? ==> r.steps == Some([]))
  {
  }
}
