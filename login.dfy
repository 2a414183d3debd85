/** The credential check of the login screen
    (app/.../ui/login/LoginScreen.kt). The remote query
    `users` ordered by "email" and equal to the typed email is an input: the
    store answers with the matching children in order, or cancels. */
module Login {
  import opened Wrappers
  import opened Timetable

  /** One child of the query result: its key (the user's uuid; a snapshot
      key is nullable) and its stored "password" string, if any. */
  datatype UserRecord = UserRecord(key: Option<string>, password: Option<string>)

  /** The listener's two callbacks. */
  datatype QueryResult = Cancelled | DataChange(children: seq<UserRecord>)

  /** Which of the two callbacks `checkLogin` calls. */
  datatype LoginOutcome = OnSuccess(uuid: string) | OnFailure

  /** The index of the first child whose stored password equals `password`. */
  function FirstMatch(children: seq<UserRecord>, password: string): (r: Option<nat>)
    ensures r.Some? ==> r.value < |children| && children[r.value].password == Some(password)
    ensures r.Some? ==> forall j :: 0 <= j < r.value ==> children[j].password != Some(password)
    ensures r.None? <==> forall j :: 0 <= j < |children| ==> children[j].password != Some(password)
  {
    if |children| == 0 then None
    else if children[0].password == Some(password) then Some(0)
    else
      match FirstMatch(children[1..], password)
      case None => None
      case Some(k) => Some(k + 1)
  }

  /** A child with no stored password never matches: the typed password is
      never null. */
  lemma NoPasswordNeverMatches(children: seq<UserRecord>, password: string, i: nat)
    requires i < |children| && children[i].password.None?
    ensures FirstMatch(children, password) != Some(i)
  {
  }

  /** `checkLogin`: scan the children in order and stop at the first whose
      password matches; only then is `UserSession.uuid` written (with that
      child's key). */
  method CheckLogin(session: UserSession, query: QueryResult, password: string)
    returns (outcome: LoginOutcome)
    modifies session
    ensures query.Cancelled? ==> outcome == OnFailure && session.uuid == old(session.uuid)
    ensures query.DataChange? && FirstMatch(query.children, password).None? ==>
      outcome == OnFailure && session.uuid == old(session.uuid)
    ensures query.DataChange? && FirstMatch(query.children, password).Some? ==>
      var key := query.children[FirstMatch(query.children, password).value].key;
      && session.uuid == key
      && outcome == (if key.Some? then OnSuccess(key.value) else OnFailure)
  {
    match query
    case Cancelled =>
      outcome := OnFailure;
    case DataChange(children) =>
      var found := false;
      var matchedUuid: Option<string> := None;
      var i := 0;
      while i < |children|
        invariant 0 <= i <= |children|
        invariant !found
        invariant forall j :: 0 <= j < i ==> children[j].password != Some(password)
        invariant session.uuid == old(session.uuid)
      {
        var dbPassword := children[i].password;
        if dbPassword == Some(password) {
          found := true;
          matchedUuid := children[i].key;
          session.uuid := matchedUuid;
          break;
        }
        i := i + 1;
      }
      assert found ==> FirstMatch(children, password) == Some(i) && matchedUuid == children[i].key;
      if found && matchedUuid.Some? {
        outcome := OnSuccess(matchedUuid.value);
      } else {
        outcome := OnFailure;
      }
  }

  /** The `loading` flag of the login screen. */
  class LoginForm {
    var loading: bool

    constructor ()
      ensures !loading
    {
      loading := false;
    }

    /** The button's click handler, up to the moment the query is sent. */
    method OnLoginClick()
      modifies this
      ensures loading
    {
      loading := true;
    }

    /** The query's answer arrives: both callbacks reset `loading`. */
    method OnQueryAnswered(session: UserSession, query: QueryResult, password: string)
      returns (outcome: LoginOutcome)
      modifies this, session
      ensures !loading
      ensures outcome.OnSuccess? ==> session.uuid == Some(outcome.uuid)
      ensures outcome.OnFailure? && (query.Cancelled? || FirstMatch(query.children, password).None?) ==>
        session.uuid == old(session.uuid)
    {
      outcome := CheckLogin(session, query, password);
      loading := false;
    }
  }
}
