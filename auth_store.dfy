/** The persisted authentication store: the user, the session, a loading
    flag, the last error and whether someone is signed in. Each action
    marks the store as loading, awaits the auth provider and records the
    provider's answer; the answer is a parameter. */
module AuthStore {
  import opened Common
  import opened Schema

  /** What `partialize` keeps across reloads. */
  datatype Persisted = Persisted(user: Option<User>, session: Option<Session>, isAuthenticated: bool)

  /** What the provider returns from `signUp`: a user and a session, either
      of which can be null (the session is null until the address is
      confirmed). */
  datatype SignUpData = SignUpData(user: Option<User>, session: Option<Session>)

  /** What the provider returns from `signInWithPassword` without error. */
  datatype SignInData = SignInData(user: User, session: Session)

  class AuthStore {
    var user: Option<User>
    var session: Option<Session>
    var isLoading: bool
    var error: Option<string>
    var isAuthenticated: bool

    /** Signed in exactly when there is a session. */
    predicate Valid()
      reads this
    {
      isAuthenticated <==> session.Some?
    }

    /** `partialize`: only the user, the session and the flag. */
    function PersistedState(): (p: Persisted)
      reads this
      ensures p.user == user && p.session == session && p.isAuthenticated == isAuthenticated
    {
      Persisted(user, session, isAuthenticated)
    }

    constructor()
      ensures user.None? && session.None? && !isLoading && error.None? && !isAuthenticated
      ensures Valid()
    {
      user := None;
      session := None;
      isLoading := false;
      error := None;
      isAuthenticated := false;
    }

    /** `set({ isLoading: true, error: null })`, the first step of every action. */
    method Start()
      modifies this
      ensures isLoading && error.None?
      ensures user == old(user) && session == old(session) && isAuthenticated == old(isAuthenticated)
    {
      isLoading := true;
      error := None;
    }

    /** The `catch`: the message is recorded and loading ends. */
    method Fail(message: string)
      modifies this
      ensures error == Some(message) && !isLoading
      ensures user == old(user) && session == old(session) && isAuthenticated == old(isAuthenticated)
    {
      error := Some(message);
      isLoading := false;
    }

    /** `signUp`: on success the returned user and session, signed in only
      when a session came back; on failure the message, rethrown. */
    method SignUp(answer: Outcome<SignUpData>) returns (thrown: Option<string>)
      modifies this
      ensures answer.Done? ==> (thrown.None? && user == answer.result.user && session == answer.result.session
        && isAuthenticated == answer.result.session.Some? && error.None?)
      ensures answer.Threw? ==> (thrown == Some(answer.message) && error == Some(answer.message)
        && user == old(user) && session == old(session) && isAuthenticated == old(isAuthenticated))
      ensures !isLoading
      ensures old(Valid()) ==> Valid()
    {
      Start();
      if answer.Threw? {
        Fail(answer.message);
        return Some(answer.message);
      }
      user := answer.result.user;
      session := answer.result.session;
      isAuthenticated := answer.result.session.Some?;
      isLoading := false;
      thrown := None;
    }

    /** `signIn`: on success the user and session, signed in; on failure the
      message, rethrown. */
    method SignIn(answer: Outcome<SignInData>) returns (thrown: Option<string>)
      modifies this
      ensures answer.Done? ==> (thrown.None? && user == Some(answer.result.user)
        && session == Some(answer.result.session) && isAuthenticated && error.None?)
      ensures answer.Threw? ==> (thrown == Some(answer.message) && error == Some(answer.message)
        && user == old(user) && session == old(session) && isAuthenticated == old(isAuthenticated))
      ensures !isLoading
      ensures old(Valid()) ==> Valid()
    {
      Start();
      if answer.Threw? {
        Fail(answer.message);
        return Some(answer.message);
      }
      user := Some(answer.result.user);
      session := Some(answer.result.session);
      isAuthenticated := true;
      isLoading := false;
      thrown := None;
    }

    /** `signOut`: on success no user, no session, signed out; on failure the
      message, rethrown. */
    method SignOut(answer: Outcome<()>) returns (thrown: Option<string>)
      modifies this
      ensures answer.Done? ==> thrown.None? && user.None? && session.None? && !isAuthenticated && error.None?
      ensures answer.Threw? ==> (thrown == Some(answer.message) && error == Some(answer.message)
        && user == old(user) && session == old(session) && isAuthenticated == old(isAuthenticated))
      ensures !isLoading
      ensures old(Valid()) ==> Valid()
    {
      Start();
      if answer.Threw? {
        Fail(answer.message);
        return Some(answer.message);
      }
      user := None;
      session := None;
      isAuthenticated := false;
      isLoading := false;
      thrown := None;
    }

    /** `resetPassword`: success only ends loading; failure records and
      rethrows the message. */
    method ResetPassword(answer: Outcome<()>) returns (thrown: Option<string>)
      modifies this
      ensures answer.Done? ==> thrown.None? && error.None?
      ensures answer.Threw? ==> thrown == Some(answer.message) && error == Some(answer.message)
      ensures user == old(user) && session == old(session) && isAuthenticated == old(isAuthenticated)
      ensures !isLoading
    {
      Start();
      if answer.Threw? {
        Fail(answer.message);
        return Some(answer.message);
      }
      isLoading := false;
      thrown := None;
    }

    /** `refreshSession`: the current session, its user, and signed in
      exactly when there is one. A failure is recorded but not rethrown. */
    method RefreshSession(answer: Outcome<Option<Session>>)
      modifies this
      ensures answer.Done? ==> session == answer.result && isAuthenticated == answer.result.Some? && error.None?
      ensures answer.Done? && answer.result.Some? ==> user == Some(answer.result.value.user)
      ensures answer.Done? && answer.result.None? ==> user.None?
      ensures answer.Threw? ==> (error == Some(answer.message)
        && user == old(user) && session == old(session) && isAuthenticated == old(isAuthenticated))
      ensures !isLoading
      ensures old(Valid()) ==> Valid()
    {
      Start();
      if answer.Threw? {
        Fail(answer.message);
        return;
      }
      user := if answer.result.Some? then Some(answer.result.value.user) else None;
      session := answer.result;
      isAuthenticated := answer.result.Some?;
      isLoading := false;
    }
  }
}
