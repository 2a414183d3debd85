/** The daily session kept in the app's private key-value preferences file
    (InsightEd-App/.../session/SessionManager.kt). The clock is a parameter:
    `today` is `LocalDate.now().toString()`. */
module SessionManager {
  import opened Wrappers

  const PrefName := "insighted_session"
  const KeyLoginDate := "login_date"
  const KeyUuid := "user_uuid"

  /** `prefs.getString(key, null)`. */
  function GetString(prefs: map<string, string>, key: string): (r: Option<string>)
    ensures r.Some? <==> key in prefs
    ensures r.Some? ==> r.value == prefs[key]
  {
    if key in prefs then Some(prefs[key]) else None
  }

  /** The stored login date is `today`; nothing stored is never today. */
  predicate LoggedInOn(prefs: map<string, string>, today: string) {
    GetString(prefs, KeyLoginDate) == Some(today)
  }

  /** The preferences after one `saveLoginToday`: both keys overwritten,
      every other key kept. */
  function Saved(prefs: map<string, string>, today: string, uuid: string): map<string, string> {
    prefs[KeyLoginDate := today][KeyUuid := uuid]
  }

  lemma SaveThenRead(prefs: map<string, string>, today: string, uuid: string, other: string)
    ensures LoggedInOn(Saved(prefs, today, uuid), today)
    ensures GetString(Saved(prefs, today, uuid), KeyUuid) == Some(uuid)
    ensures other != today ==> !LoggedInOn(Saved(prefs, today, uuid), other)
  {
  }

  /** A second save wins outright: the first one leaves no trace. */
  lemma SecondSaveOverwrites(prefs: map<string, string>, d1: string, u1: string, d2: string, u2: string)
    ensures Saved(Saved(prefs, d1, u1), d2, u2) == Saved(prefs, d2, u2)
  {
  }

  lemma ClearedIsLoggedOut(today: string)
    ensures !LoggedInOn(map[], today)
    ensures GetString(map[], KeyUuid) == None
  {
  }

  /** The preferences file `insighted_session`. */
  class SessionStore {
    var prefs: map<string, string>

    /** The file as an earlier run of the app left it. */
    constructor (persisted: map<string, string>)
      ensures prefs == persisted
    {
      prefs := persisted;
    }

    method SaveLoginToday(today: string, uuid: string)
      modifies this
      ensures prefs == Saved(old(prefs), today, uuid)
      ensures LoggedInOn(prefs, today) && GetString(prefs, KeyUuid) == Some(uuid)
    {
      prefs := prefs[KeyLoginDate := today];
      prefs := prefs[KeyUuid := uuid];
    }

    method IsLoggedInToday(today: string) returns (b: bool)
      ensures b <==> KeyLoginDate in prefs && prefs[KeyLoginDate] == today
    {
      var savedDate := GetString(prefs, KeyLoginDate);
      b := savedDate == Some(today);
    }

    /** Reads the stored uuid; with no `modifies` clause it cannot change the
        file. */
    method GetSavedUuid() returns (u: Option<string>)
      ensures u.Some? <==> KeyUuid in prefs
      ensures u.Some? ==> u.value == prefs[KeyUuid]
    {
      u := GetString(prefs, KeyUuid);
    }

    /** `prefs.edit().clear().apply()` empties the whole file. */
    method ClearSession()
      modifies this
      ensures prefs == map[]
      ensures forall d :: !LoggedInOn(prefs, d)
      ensures GetString(prefs, KeyUuid) == None
    {
      prefs := map[];
    }
  }
}
