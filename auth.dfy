/** The authentication context: the user, session and admin flag the app
    reads, the mock admin account that bypasses the gateway, and the stored
    mock-admin flag that survives a reload. The gateway's answers (the role
    check, sign-in and the session) are parameters of the operations. */
module Auth {
  import opened Common

  datatype User = User(id: string, email: Option<string>)

  /** A gateway session; `user` is `session?.user`. */
  datatype Session = Session(user: Option<User>)

  /** What `signInWithPassword` answers: whether it failed, and the session. */
  datatype SignInAnswer = SignInAnswer(failed: bool, session: Option<Session>)

  const MockEmail := "leo@gmail.com"
  const MockPassword := "123456"
  const MockId := "mock-admin-id"

  /** The mock admin user that the mock sign-in stores. */
  const MockUser := User(MockId, Some(MockEmail))

  /** `checkAdmin`'s answer: the mock email or id is an admin without asking
      the gateway; otherwise the role check decides, and a role check that
      threw (`None`) means not an admin. */
  function AdminAnswer(userId: string, email: Option<string>, roleCheck: Option<bool>): bool {
    if email == Some(MockEmail) || userId == MockId then true
    else match roleCheck
      case None => false
      case Some(b) => b
  }

  /** The mock account is an admin whatever the role check says, and any
      other user is an admin exactly when the role check answered yes. */
  lemma AdminRules(userId: string, email: Option<string>, roleCheck: Option<bool>)
    ensures email == Some(MockEmail) || userId == MockId ==> AdminAnswer(userId, email, roleCheck)
    ensures email != Some(MockEmail) && userId != MockId ==>
      (AdminAnswer(userId, email, roleCheck) <==> roleCheck == Some(true))
    ensures AdminAnswer(MockUser.id, MockUser.email, roleCheck)
  {
  }

  /** The state of the authentication provider; `storedMock` is the
      `mock_admin_user` entry of the browser's storage. */
  class AuthState {
    var user: Option<User>
    var session: Option<Session>
    var isAdmin: bool
    var loading: bool
    var storedMock: Option<User>

    /** The provider as it mounts: nobody signed in, loading, and whatever
        the browser's storage holds. */
    constructor (stored: Option<User>)
      ensures user.None? && session.None? && !isAdmin && loading && storedMock == stored
    {
      user := None;
      session := None;
      isAdmin := false;
      loading := true;
      storedMock := stored;
    }

    /** `checkAdmin(userId, email)`; `roleCheck` is the `has_role` answer,
        `None` when the call threw. */
    method CheckAdmin(userId: string, email: Option<string>, roleCheck: Option<bool>) returns (admin: bool)
      modifies this
      ensures admin == AdminAnswer(userId, email, roleCheck) && isAdmin == admin
      ensures user == old(user) && session == old(session) && loading == old(loading)
      ensures storedMock == old(storedMock)
    {
      if email == Some(MockEmail) || userId == MockId {
        isAdmin := true;
        return true;
      }
      match roleCheck {
        case None =>
          isAdmin := false;
          admin := false;
        case Some(b) =>
          admin := b;
          isAdmin := admin;
      }
    }

    /** `signIn(email, password)`. The mock credentials sign the mock admin in
        without the gateway and store it; any other credentials go to the
        gateway, and only a successful sign-in with a user asks `checkAdmin`.
        Returns the error flag and the admin status. */
    method SignIn(email: string, password: string, answer: SignInAnswer, roleCheck: Option<bool>)
      returns (failed: bool, admin: bool)
      modifies this
      ensures email == MockEmail && password == MockPassword ==>
        && !failed && admin
        && user == Some(MockUser) && isAdmin && !loading && storedMock == Some(MockUser)
        && session == old(session)
      ensures !(email == MockEmail && password == MockPassword) ==>
        && failed == answer.failed
        && user == old(user) && session == old(session) && loading == old(loading)
        && storedMock == old(storedMock)
        && (answer.failed ==> !admin && isAdmin == old(isAdmin))
        && (!answer.failed && answer.session.Some? && answer.session.value.user.Some? ==>
              admin == isAdmin == AdminAnswer(answer.session.value.user.value.id,
                                              answer.session.value.user.value.email, roleCheck))
        && (!answer.failed && !(answer.session.Some? && answer.session.value.user.Some?) ==>
              !admin && isAdmin == old(isAdmin))
    {
      if email == MockEmail && password == MockPassword {
        user := Some(MockUser);
        isAdmin := true;
        loading := false;
        storedMock := Some(MockUser);
        return false, true;
      }
      failed := answer.failed;
      admin := false;
      if !answer.failed && answer.session.Some? && answer.session.value.user.Some? {
        var u := answer.session.value.user.value;
        admin := CheckAdmin(u.id, u.email, roleCheck);
      }
    }

    /** `signOut`: nobody is signed in and the stored mock admin is removed. */
    method SignOut()
      modifies this
      ensures user.None? && session.None? && !isAdmin && storedMock.None?
      ensures loading == old(loading)
    {
      user := None;
      session := None;
      isAdmin := false;
      storedMock := None;
    }

    /** The `onAuthStateChange` listener for a new session `s`. While a mock
        admin is stored a signed-out event is ignored; otherwise the session
        and its user are taken, and the admin flag is asked for again, or
        cleared when there is no user. */
    method OnAuthChange(s: Option<Session>, roleCheck: Option<bool>)
      modifies this
      ensures storedMock.Some? && s.None? ==>
        user == old(user) && session == old(session) && isAdmin == old(isAdmin)
      ensures !(old(storedMock).Some? && s.None?) ==>
        && session == s
        && user == (if s.Some? then s.value.user else None)
        && (user.Some? ==> isAdmin == AdminAnswer(user.value.id, user.value.email, roleCheck))
        && (user.None? ==> !isAdmin)
      ensures loading == old(loading) && storedMock == old(storedMock)
    {
      if storedMock.Some? && s.None? {
        return;
      }
      session := s;
      user := if s.Some? then s.value.user else None;
      if s.Some? && s.value.user.Some? {
        var u := s.value.user.value;
        var _ := CheckAdmin(u.id, u.email, roleCheck);
      } else {
        isAdmin := false;
      }
    }

    /** `initializeAuth`; `fetched` is the `getSession` answer, `None` when it
        threw. A stored mock admin takes precedence over any session; a
        session with a user is taken and asked about; and loading ends false
        in every case. */
    method InitializeAuth(fetched: Option<Option<Session>>, roleCheck: Option<bool>)
      modifies this
      ensures !loading && storedMock == old(storedMock)
      ensures fetched.Some? && old(storedMock).Some? ==>
        user == old(storedMock) && isAdmin && session == old(session)
      ensures fetched.Some? && old(storedMock).None? && fetched.value.Some? && fetched.value.value.user.Some? ==>
        && session == fetched.value && user == fetched.value.value.user
        && isAdmin == AdminAnswer(user.value.id, user.value.email, roleCheck)
      ensures fetched.None? || (old(storedMock).None? && !(fetched.value.Some? && fetched.value.value.user.Some?)) ==>
        user == old(user) && session == old(session) && isAdmin == old(isAdmin)
    {
      if fetched.Some? {
        var s := fetched.value;
        if storedMock.Some? {
          user := storedMock;
          isAdmin := true;
        } else if s.Some? && s.value.user.Some? {
          session := s;
          user := s.value.user;
          var u := s.value.user.value;
          var _ := CheckAdmin(u.id, u.email, roleCheck);
        }
      }
      loading := false;
    }
  }

  /** After the mock sign-in, signed-out events from the gateway leave the
      mock admin signed in, until `signOut` is called. */
  method MockSurvivesSignedOutEvents(a: AuthState, answer: SignInAnswer, roleCheck: Option<bool>)
    modifies a
    ensures a.user == Some(MockUser) && a.isAdmin && !a.loading
  {
    var _, _ := a.SignIn(MockEmail, MockPassword, answer, roleCheck);
    a.OnAuthChange(None, roleCheck);
    a.OnAuthChange(None, roleCheck);
  }
}
