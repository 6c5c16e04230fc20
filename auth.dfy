/**
 * The session: a durable slot holding the token (the `token` key of the
 * browser's local storage) and the provider's `token`, `isAuthenticated` and
 * `loading` state, moved between Anonymous and Authenticated by `login` and
 * `logout`.
 */
module Auth {
  import opened Optional
  import opened Api
  import opened Routes

  datatype Credentials = Credentials(email: string, password: string)

  datatype Phase = Anonymous | Authenticated

  /** `!!token` for a `string | null`: present and not the empty string. */
  predicate IsTruthy(t: Option<string>) {
    t.Some? && t.value != ""
  }

  /** Everything the provider holds, as one value. */
  datatype Session = Session(
    storedToken: Option<string>, token: Option<string>, isAuthenticated: bool, loading: bool,
    navigatedTo: Option<string>, loginRequests: seq<Credentials>)

  /** What `logout` makes of a session: slot and token gone, anonymous, on the entry route. */
  function LoggedOut(s: Session): (r: Session)
    ensures r.storedToken == None && r.token == None && !r.isAuthenticated
    ensures r.navigatedTo == Some(EntryRoute)
    ensures r.loading == s.loading && r.loginRequests == s.loginRequests
  {
    s.(storedToken := None, token := None, isAuthenticated := false, navigatedTo := Some(EntryRoute))
  }

  /** Logging out twice leaves the same session as logging out once. */
  lemma LogoutIdempotent(s: Session)
    ensures LoggedOut(LoggedOut(s)) == LoggedOut(s)
  {
  }

  class AuthProvider {
    /** The durable slot: the value under the `token` key, `None` when the key is absent. */
    var storedToken: Option<string>
    var token: Option<string>
    var isAuthenticated: bool
    var loading: bool
    var navigatedTo: Option<string>
    /** The bodies sent to `POST /login`, oldest first. */
    var loginRequests: seq<Credentials>

    /**
     * The token in memory is the one in the slot; a non-empty token means
     * authenticated, and authenticated means some token is held.
     */
    ghost predicate Valid()
      reads this
    {
      && token == storedToken
      && (IsTruthy(token) ==> isAuthenticated)
      && (isAuthenticated ==> token.Some?)
    }

    function Snapshot(): Session
      reads this
    {
      Session(storedToken, token, isAuthenticated, loading, navigatedTo, loginRequests)
    }

    function CurrentPhase(): (p: Phase)
      reads this
      ensures p == Authenticated <==> isAuthenticated
    {
      if isAuthenticated then Authenticated else Anonymous
    }

    /**
     * The provider as mounted with `stored` in the slot: the state is
     * initialised from the slot, and the mount effect then re-reads the slot
     * and, when it holds a non-empty token, marks the session authenticated.
     */
    constructor (stored: Option<string>)
      ensures Valid()
      ensures storedToken == stored && token == stored
      ensures isAuthenticated <==> IsTruthy(stored)
      ensures !loading && navigatedTo == None && loginRequests == []
    {
      storedToken := stored;
      token := stored;
      isAuthenticated := IsTruthy(stored);
      loading := false;
      navigatedTo := None;
      loginRequests := [];
      new;
      var fromSlot := storedToken;
      if IsTruthy(fromSlot) {
        token := fromSlot;
        isAuthenticated := true;
      }
    }

    /** The part of `login` before the reply: loading is on and the credentials are sent. */
    method StartLogin(email: string, password: string)
      requires Valid()
      modifies this`loading, this`loginRequests
      ensures Valid()
      ensures loading
      ensures loginRequests == old(loginRequests) + [Credentials(email, password)]
    {
      loading := true;
      loginRequests := loginRequests + [Credentials(email, password)];
    }

    /**
     * The part of `login` after the reply: a token is written to the slot and
     * to memory and the session becomes authenticated; a rejection changes
     * none of them and is thrown on (`rethrown`). Loading ends either way.
     */
    method FinishLogin(response: Outcome<string>) returns (rethrown: bool)
      requires Valid()
      modifies this`storedToken, this`token, this`isAuthenticated, this`loading, this`navigatedTo
      ensures Valid()
      ensures !loading
      ensures rethrown <==> response.Failure?
      ensures response.Success? ==>
        && storedToken == Some(response.value) && token == Some(response.value)
        && isAuthenticated && navigatedTo == Some(UsersRoute)
      ensures response.Failure? ==>
        && storedToken == old(storedToken) && token == old(token)
        && isAuthenticated == old(isAuthenticated) && navigatedTo == old(navigatedTo)
    {
      match response {
        case Success(t) =>
          storedToken := Some(t);
          token := Some(t);
          isAuthenticated := true;
          navigatedTo := Some(UsersRoute);
          rethrown := false;
        case Failure =>
          rethrown := true;
      }
      loading := false;
    }

    /** `login(email, password)`: one request, then the reply handled as `FinishLogin` says. */
    method Login(email: string, password: string, response: Outcome<string>) returns (rethrown: bool)
      requires Valid()
      modifies this
      ensures Valid()
      ensures !loading
      ensures loginRequests == old(loginRequests) + [Credentials(email, password)]
      ensures rethrown <==> response.Failure?
      ensures response.Success? ==>
        && storedToken == Some(response.value) && token == Some(response.value)
        && CurrentPhase() == Authenticated && navigatedTo == Some(UsersRoute)
      ensures response.Failure? ==>
        && storedToken == old(storedToken) && token == old(token)
        && isAuthenticated == old(isAuthenticated) && navigatedTo == old(navigatedTo)
    {
      StartLogin(email, password);
      rethrown := FinishLogin(response);
    }

    /** `logout()`: the slot and the token are removed and the session is anonymous. */
    method Logout()
      requires Valid()
      modifies this`storedToken, this`token, this`isAuthenticated, this`navigatedTo
      ensures Valid()
      ensures Snapshot() == LoggedOut(old(Snapshot()))
      ensures CurrentPhase() == Anonymous
    {
      storedToken := None;
      token := None;
      isAuthenticated := false;
      navigatedTo := Some(EntryRoute);
    }
  }

  /** Calling `logout` a second time changes nothing. */
  method LogoutTwice(auth: AuthProvider)
    requires auth.Valid()
    modifies auth
    ensures auth.Snapshot() == LoggedOut(old(auth.Snapshot()))
  {
    auth.Logout();
    ghost var once := auth.Snapshot();
    auth.Logout();
    LogoutIdempotent(old(auth.Snapshot()));
    assert auth.Snapshot() == once;
  }
}
