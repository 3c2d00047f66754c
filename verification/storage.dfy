/** The storage helpers: generic get/set/remove over the device store, and the
    session, remember-me, health and preferences records kept under their own
    keys. Every helper works on the one shared store, so they are modelled as the
    methods of one object holding it. Storage failures are not modelled. */
module AsyncStorageUtils {
  import opened Wrappers
  import opened KeyValue

  class DeviceStorage {
    var entries: Store

    constructor ()
      ensures entries == map[]
    {
      entries := map[];
    }

    // -------------------------------------------------------------------------
    // StorageUtils

    /** `setItem`: a string is stored verbatim (`Raw`), anything else serialised. */
    method SetItem(key: string, value: Value)
      modifies this
      ensures entries == old(entries)[key := value]
    {
      entries := entries[key := value];
    }

    /** `getItem`: null (None) for a key that is not there. */
    method GetItem(key: string) returns (r: Option<Value>)
      ensures key !in entries ==> r == None
      ensures key in entries ==> r == Some(entries[key])
    {
      if key in entries {
        r := Some(entries[key]);
      } else {
        r := None;
      }
    }

    method RemoveItem(key: string)
      modifies this
      ensures entries == WithoutKeys(old(entries), [key])
    {
      entries := map k | k in entries && k != key :: entries[k];
    }

    /** `removeItems`: exactly the listed keys go. */
    method RemoveItems(keys: seq<string>)
      modifies this
      ensures entries == WithoutKeys(old(entries), keys)
    {
      entries := WithoutKeys(entries, keys);
    }

    /** `clearAll`: nothing is left. */
    method ClearAll()
      modifies this
      ensures entries == map[]
    {
      entries := map[];
    }

    // -------------------------------------------------------------------------
    // AuthStorage

    /** `saveUserSession`: the user record and the token, both written. */
    method SaveUserSession(user: UserData, token: string)
      modifies this
      ensures entries == WithSession(old(entries), user, token)
    {
      SetItem(USER_DATA, Serialized(UserDoc(user)));
      SetItem(USER_TOKEN, Raw(token));
    }

    /** `getUserSession` */
    method GetUserSession() returns (user: Option<UserData>, token: Option<string>)
      ensures user == StoredUser(entries) && token == StoredText(entries, USER_TOKEN)
      ensures USER_DATA !in entries ==> user == None
      ensures USER_TOKEN !in entries ==> token == None
    {
      var u := GetItem(USER_DATA);
      var t := GetItem(USER_TOKEN);
      user := if u.Some? && u.value.Serialized? && u.value.doc.UserDoc? then Some(u.value.doc.user) else None;
      token := if t.Some? && t.value.Raw? then Some(t.value.text) else None;
    }

    /** `clearUserSession`: the user record and the token go, remember-me stays. */
    method ClearUserSession()
      modifies this
      ensures entries == WithoutKeys(old(entries), [USER_DATA, USER_TOKEN])
      ensures REMEMBER_ME in old(entries) ==> REMEMBER_ME in entries
                                              && entries[REMEMBER_ME] == old(entries)[REMEMBER_ME]
    {
      RemoveItems([USER_DATA, USER_TOKEN]);
    }

    method SetRememberMe(remember: bool)
      modifies this
      ensures entries == old(entries)[REMEMBER_ME := Serialized(BoolDoc(remember))]
    {
      SetItem(REMEMBER_ME, Serialized(BoolDoc(remember)));
    }

    /** `getRememberMe`: `remember ?? false`. */
    method GetRememberMe() returns (remember: bool)
      ensures remember == RememberMeOf(entries)
      ensures REMEMBER_ME !in entries ==> !remember
    {
      var r := GetItem(REMEMBER_ME);
      remember := r.Some? && r.value == Serialized(BoolDoc(true));
    }

    // -------------------------------------------------------------------------
    // HealthStorage

    /** `saveHealthData`: merge the supplied series over the stored record and stamp it. */
    method SaveHealthData(data: HealthPatch, now: string)
      modifies this
      ensures entries == old(entries)[HEALTH_DATA := Serialized(HealthDoc(MergeHealth(StoredHealth(old(entries)), data, now)))]
    {
      var current := GetHealthData();
      SetItem(HEALTH_DATA, Serialized(HealthDoc(MergeHealth(current, data, now))));
    }

    method GetHealthData() returns (h: Option<HealthData>)
      ensures h == StoredHealth(entries)
    {
      var v := GetItem(HEALTH_DATA);
      h := if v.Some? && v.value.Serialized? && v.value.doc.HealthDoc? then Some(v.value.doc.health) else None;
    }

    method ClearHealthData()
      modifies this
      ensures entries == WithoutKeys(old(entries), [HEALTH_DATA])
    {
      RemoveItem(HEALTH_DATA);
    }

    // -------------------------------------------------------------------------
    // PreferencesStorage

    /** `savePreferences`: supplied over stored over the defaults. */
    method SavePreferences(preferences: PreferencesPatch)
      modifies this
      ensures entries == old(entries)[USER_PREFERENCES :=
        Serialized(PreferencesDoc(MergePreferences(StoredPreferences(old(entries)), preferences)))]
    {
      var v := GetItem(USER_PREFERENCES);
      var current := if v.Some? && v.value.Serialized? && v.value.doc.PreferencesDoc?
                     then Some(v.value.doc.prefs) else None;
      SetItem(USER_PREFERENCES, Serialized(PreferencesDoc(MergePreferences(current, preferences))));
    }

    /** `getPreferences`: the stored preferences, or the defaults. */
    method GetPreferences() returns (p: Preferences)
      ensures p == StoredPreferences(entries).GetOr(DefaultPreferences)
      ensures USER_PREFERENCES !in entries ==> p == DefaultPreferences
    {
      var v := GetItem(USER_PREFERENCES);
      p := if v.Some? && v.value.Serialized? && v.value.doc.PreferencesDoc?
           then v.value.doc.prefs else DefaultPreferences;
    }

    method ClearPreferences()
      modifies this
      ensures entries == WithoutKeys(old(entries), [USER_PREFERENCES])
    {
      RemoveItem(USER_PREFERENCES);
    }
  }

  // ---------------------------------------------------------------------------
  // what the writes mean for later reads

  /** After `saveUserSession(u, t)`, `getUserSession` returns `u` and `t`. */
  lemma SessionReadBack(s: Store, user: UserData, token: string)
    ensures StoredUser(WithSession(s, user, token)) == Some(user)
    ensures StoredText(WithSession(s, user, token), USER_TOKEN) == Some(token)
    ensures RememberMeOf(WithSession(s, user, token)) == RememberMeOf(s)
  {
  }

  /** After `clearUserSession` the session reads back empty and remember-me reads as before. */
  lemma ClearedSessionReadBack(s: Store)
    ensures StoredUser(WithoutKeys(s, [USER_DATA, USER_TOKEN])) == None
    ensures StoredText(WithoutKeys(s, [USER_DATA, USER_TOKEN]), USER_TOKEN) == None
    ensures RememberMeOf(WithoutKeys(s, [USER_DATA, USER_TOKEN])) == RememberMeOf(s)
  {
    SessionGone(s, [USER_DATA, USER_TOKEN]);
    assert REMEMBER_ME !in [USER_DATA, USER_TOKEN];
  }

  /** A remember-me flag that was written reads back as written. */
  lemma RememberMeReadBack(s: Store, remember: bool)
    ensures RememberMeOf(s[REMEMBER_ME := Serialized(BoolDoc(remember))]) == remember
  {
  }

  /** Clearing health data or preferences removes that one key only. */
  lemma ClearOnlyOwnKey(s: Store, key: string)
    requires key == HEALTH_DATA || key == USER_PREFERENCES
    ensures forall k :: k in s && k != key ==> k in WithoutKeys(s, [key]) && WithoutKeys(s, [key])[k] == s[k]
    ensures key !in WithoutKeys(s, [key])
  {
  }

  /** Preferences read back after a save are the merge; with nothing stored and
      nothing supplied they are the defaults. */
  lemma PreferencesReadBack(s: Store, supplied: PreferencesPatch)
    ensures var after := s[USER_PREFERENCES := Serialized(PreferencesDoc(MergePreferences(StoredPreferences(s), supplied)))];
      StoredPreferences(after) == Some(MergePreferences(StoredPreferences(s), supplied))
    ensures USER_PREFERENCES !in s ==>
      MergePreferences(StoredPreferences(s), NoPreferences) == DefaultPreferences
  {
  }
}
