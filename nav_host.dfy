/** The session effects of the navigation host
    (InsightEd-App/.../navigation/AppNavHost.kt): restoring the saved uuid,
    choosing the start screen, and what login, face-verification success and
    logout do to the session before they navigate. */
module AppNavHost {
  import opened Wrappers
  import opened Timetable
  import opened SessionManager

  const Welcome := "welcome"
  const Login := "login"
  const FaceAuth := "faceauth"
  const Dashboard := "dashboard"
  const Attendance := "attendance"
  const Report := "report"
  const Calendar := "calendar"
  const Profile := "profile"

  const Routes: seq<string> := [Welcome, Login, FaceAuth, Dashboard, Attendance, Report, Calendar, Profile]

  /** No two screens share a route. */
  lemma RoutesDistinct()
    ensures |Routes| == 8
    ensures forall i, j :: 0 <= i < j < |Routes| ==> Routes[i] != Routes[j]
  {
  }

  /** The start destination: the dashboard exactly when today's session is
      stored and a user id is known, the welcome screen otherwise. */
  function StartDestination(loggedInToday: bool, sessionUuid: Option<string>): (route: string)
    ensures route == Dashboard <==> loggedInToday && sessionUuid.Some?
    ensures route == Welcome <==> !(loggedInToday && sessionUuid.Some?)
  {
    if loggedInToday && sessionUuid.Some? then Dashboard else Welcome
  }

  /** What a navigation callback does once it has updated the session. The
      `!!` of the face-verification callback throws when `UserSession.uuid`
      is null; that path navigates nowhere. */
  datatype Navigation = Navigate(route: string) | NullPointerThrown

  /** Composing `AppNavHost`: copy a saved uuid (whatever its date) into both
      holders, then pick the start screen. */
  method Launch(store: SessionStore, session: UserSession, viewModel: UserViewModel, today: string)
    returns (start: string)
    modifies session, viewModel
    ensures KeyUuid in store.prefs ==> session.uuid == viewModel.uuid == Some(store.prefs[KeyUuid])
    ensures KeyUuid !in store.prefs ==> session.uuid == old(session.uuid) && viewModel.uuid == old(viewModel.uuid)
    ensures start == StartDestination(LoggedInOn(store.prefs, today), session.uuid)
  {
    var savedUuid := store.GetSavedUuid();
    if savedUuid.Some? {
      session.uuid := savedUuid;
      viewModel.uuid := savedUuid;
    }
    var loggedIn := store.IsLoggedInToday(today);
    start := if loggedIn && session.uuid.Some? then Dashboard else Welcome;
  }

  /** `onLoginSuccess`: both holders get the uuid, then on to face
      verification. */
  method OnLoginSuccess(session: UserSession, viewModel: UserViewModel, uuid: string)
    returns (nav: Navigation)
    modifies session, viewModel
    ensures session.uuid == Some(uuid) && viewModel.uuid == Some(uuid)
    ensures nav == Navigate(FaceAuth)
  {
    viewModel.uuid := Some(uuid);
    session.uuid := Some(uuid);
    nav := Navigate(FaceAuth);
  }

  /** `onFaceAuthSuccess`: store today's session for `UserSession.uuid`, then
      on to the dashboard. */
  method OnFaceAuthSuccess(store: SessionStore, session: UserSession, today: string)
    returns (nav: Navigation)
    modifies store
    ensures session.uuid.None? ==> nav == NullPointerThrown && store.prefs == old(store.prefs)
    ensures session.uuid.Some? ==> nav == Navigate(Dashboard) && store.prefs == Saved(old(store.prefs), today, session.uuid.value)
  {
    if session.uuid.None? {
      nav := NullPointerThrown;
      return;
    }
    store.SaveLoginToday(today, session.uuid.value);
    nav := Navigate(Dashboard);
  }

  /** `onLogout`: clear the stored session and `UserSession.uuid`; the view
      model's copy is left as it was. */
  method OnLogout(store: SessionStore, session: UserSession, viewModel: UserViewModel)
    returns (nav: Navigation)
    modifies store, session
    ensures store.prefs == map[] && session.uuid == None
    ensures viewModel.uuid == old(viewModel.uuid)
    ensures nav == Navigate(Login)
  {
    store.ClearSession();
    session.uuid := None;
    nav := Navigate(Login);
  }

  /** A user who logged in and passed face verification, then restarts the
      app on the same day, lands on the dashboard with their uuid restored. */
  method RelaunchSameDay(persisted: map<string, string>, today: string, uuid: string)
    returns (start: string, restored: Option<string>)
    ensures start == Dashboard && restored == Some(uuid)
  {
    var store := new SessionStore(persisted);
    var session := new UserSession();
    var viewModel := new UserViewModel();
    var nav := OnLoginSuccess(session, viewModel, uuid);
    nav := OnFaceAuthSuccess(store, session, today);
    // a new process: fresh holders, the same preferences file
    var session' := new UserSession();
    var viewModel' := new UserViewModel();
    start := Launch(store, session', viewModel', today);
    restored := viewModel'.uuid;
  }

  /** On a later day the uuid is still restored into both holders, but the
      start screen is the welcome screen. */
  method RelaunchLaterDay(persisted: map<string, string>, today: string, later: string, uuid: string)
    returns (start: string, restored: Option<string>)
    requires later != today
    ensures start == Welcome && restored == Some(uuid)
  {
    var store := new SessionStore(persisted);
    var session := new UserSession();
    var viewModel := new UserViewModel();
    var nav := OnLoginSuccess(session, viewModel, uuid);
    nav := OnFaceAuthSuccess(store, session, today);
    var session' := new UserSession();
    var viewModel' := new UserViewModel();
    start := Launch(store, session', viewModel', later);
    restored := session'.uuid;
  }

  /** After logout the next launch, even on the same day, starts at the
      welcome screen with no uuid restored. */
  method RelaunchAfterLogout(persisted: map<string, string>, today: string, uuid: string)
    returns (start: string, restored: Option<string>)
    ensures start == Welcome && restored == None
  {
    var store := new SessionStore(persisted);
    var session := new UserSession();
    var viewModel := new UserViewModel();
    var nav := OnLoginSuccess(session, viewModel, uuid);
    nav := OnFaceAuthSuccess(store, session, today);
    nav := OnLogout(store, session, viewModel);
    var session' := new UserSession();
    var viewModel' := new UserViewModel();
    start := Launch(store, session', viewModel', today);
    restored := session'.uuid;
  }
}
