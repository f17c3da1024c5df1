/** `AuthProvider`: the session's `user` and `isLoading` state, and the
    bearer token kept in `localStorage` under the key `token`. Each backend
    reply is an input; the step functions say what every operation does to
    the session, and the class methods are proved to follow them. */
module AuthContext {
  import opened Wrappers
  import opened Js
  import opened LocalStorage
  import Api

  const TokenKey := "token"

  datatype User = User(id: string, username: string, identifier: string)

  /** The JSON body of `/api/users/me`: a user object, or a falsy value. */
  datatype MeBody = UserData(user: User) | FalsyBody

  /** The JSON body of `/api/auth/local`; either member may be missing. */
  datatype LoginBody = LoginBody(user: Option<User>, jwt: Option<string>)

  /** Everything an auth operation can change: the whole store, the user and
      the loading flag. */
  datatype Session = Session(items: map<string, string>, user: Option<User>, isLoading: bool)

  function StoredToken(s: Session): Option<string> {
    Lookup(s.items, TokenKey)
  }

  /** `localStorage.setItem` converts its value to a string, so a missing
      `jwt` is stored as the text "undefined". */
  function StoredJwt(jwt: Option<string>): string {
    jwt.GetOr("undefined")
  }

  /* ---------- checkAuth ---------- */

  /** The validation request `checkAuth` sends, if any. */
  function CheckAuthCall(s: Session, apiUrl: Option<string>): Option<Api.Request> {
    if TruthyString(StoredToken(s)) then Some(Api.BuildRequest(apiUrl, StoredToken(s), Api.ValidateToken()))
    else None
  }

  /** The session after `checkAuth` has handled `reply`. Loading always
      ends; the token is removed only by an ok reply whose body is falsy; the
      user changes only to the one an ok reply carries. */
  function CheckAuthStep(s: Session, reply: Api.Reply<MeBody>): (t: Session)
    ensures !t.isLoading
    ensures t.items ==
              if TruthyString(StoredToken(s)) && reply == Api.Received(true, Some(FalsyBody))
              then s.items - {TokenKey} else s.items
    ensures t.user != s.user ==>
              TruthyString(StoredToken(s)) && t.user.Some? &&
              reply == Api.Received(true, Some(UserData(t.user.value)))
  {
    if !TruthyString(StoredToken(s)) then s.(isLoading := false)
    else
      var outcome: Result<MeBody, Api.ApiError> := Api.Interpret(reply);
      match outcome
      case Success(UserData(u)) => s.(user := Some(u), isLoading := false)
      case Success(FalsyBody) => s.(items := s.items - {TokenKey}, isLoading := false)
      case Failure(_) => s.(isLoading := false)
  }

  /** With no token (or an empty one) nothing is sent and only the loading
      flag changes. */
  lemma CheckAuthWithoutToken(s: Session, apiUrl: Option<string>, reply: Api.Reply<MeBody>)
    requires !TruthyString(StoredToken(s))
    ensures CheckAuthCall(s, apiUrl) == None
    ensures var t := CheckAuthStep(s, reply);
            t.items == s.items && t.user == s.user && !t.isLoading
  {
  }

  /** A stored token is sent as the bearer credential of the validation call. */
  lemma CheckAuthSendsToken(s: Session, apiUrl: Option<string>)
    requires TruthyString(StoredToken(s))
    ensures var call := CheckAuthCall(s, apiUrl);
            && call.Some?
            && call.value.url == Api.Url(apiUrl, "/api/users/me")
            && call.value.headers[Api.Authorization] == "Bearer " + s.items[TokenKey]
  {
  }

  /** A user in the reply becomes the session's user; the token stays. */
  lemma CheckAuthAccepted(s: Session, reply: Api.Reply<MeBody>, u: User)
    requires TruthyString(StoredToken(s))
    requires reply == Api.Received(true, Some(UserData(u)))
    ensures var t := CheckAuthStep(s, reply);
            t.user == Some(u) && t.items == s.items && TokenKey in t.items && !t.isLoading
  {
  }

  /** A falsy reply removes the token and nothing else; the user is not set. */
  lemma CheckAuthFalsyReply(s: Session, reply: Api.Reply<MeBody>)
    requires TruthyString(StoredToken(s))
    requires reply == Api.Received(true, Some(FalsyBody))
    ensures var t := CheckAuthStep(s, reply);
            TokenKey !in t.items && t.items == s.items - {TokenKey} && t.user == s.user && !t.isLoading
  {
  }

  /** A failed validation call (transport failure, unreadable body, or an
      error status such as 401) is only logged: the token is kept, the user
      is not set, and nothing is propagated. */
  lemma CheckAuthCallFailed(s: Session, reply: Api.Reply<MeBody>)
    requires TruthyString(StoredToken(s))
    requires reply.NetworkFailure? || reply.json.None? || !reply.ok
    ensures var t := CheckAuthStep(s, reply);
            t.items == s.items && StoredToken(t) == StoredToken(s) && t.user == s.user && !t.isLoading
  {
  }

  /** Loading has ended after `checkAuth`, on every branch. */
  lemma CheckAuthEndsLoading(s: Session, reply: Api.Reply<MeBody>)
    ensures !CheckAuthStep(s, reply).isLoading
  {
  }

  /* ---------- login ---------- */

  /** The request `login` sends: the credentials POSTed to the auth endpoint,
      with whatever token is stored at that moment attached. */
  function LoginRequest(s: Session, apiUrl: Option<string>, identifier: string, password: string): Api.Request {
    Api.BuildRequest(apiUrl, StoredToken(s), Api.AuthApi(Api.Credentials(identifier, password)))
  }

  datatype LoginOutcome = LoginOutcome(session: Session, error: Option<Api.ApiError>)

  /** The session after `login` has handled `reply`, and the error it
      re-throws. Only an ok reply with a JSON body changes the session: its
      `jwt` (or "undefined") is stored under `token` and its user is set.
      An error status with a JSON body re-throws the rejection of the second
      body read, not the fixed message. */
  function LoginStep(s: Session, reply: Api.Reply<LoginBody>): (o: LoginOutcome)
    ensures o.error.None? <==> reply.Received? && reply.ok && reply.json.Some?
    ensures o.error.Some? ==> o.session == s
    ensures o.error.None? ==>
              o.session.items == s.items[TokenKey := StoredJwt(reply.json.value.jwt)] &&
              o.session.user == reply.json.value.user && o.session.isLoading == s.isLoading
    ensures reply.Received? && reply.json.Some? && !reply.ok ==> o.error == Some(Api.BodyAlreadyUsed)
  {
    match Api.Interpret(reply)
    case Success(body) => LoginOutcome(s.(items := s.items[TokenKey := StoredJwt(body.jwt)], user := body.user), None)
    case Failure(e) => LoginOutcome(s, Some(e))
  }

  /** A successful login stores the `jwt` under `token`, sets the user from
      the reply, touches no other key, and throws nothing. */
  lemma LoginSucceeded(s: Session, reply: Api.Reply<LoginBody>, user: Option<User>, jwt: string)
    requires reply == Api.Received(true, Some(LoginBody(user, jwt := Some(jwt))))
    ensures var o := LoginStep(s, reply);
            && o.error == None
            && o.session.items == s.items[TokenKey := jwt]
            && StoredToken(o.session) == Some(jwt)
            && o.session.user == user
            && o.session.isLoading == s.isLoading
  {
  }

  /** The reply is not checked for a `jwt`: without one the text "undefined"
      is stored, it is truthy, and every later request sends it as the
      bearer token. */
  lemma LoginWithoutJwt(s: Session, reply: Api.Reply<LoginBody>, user: Option<User>, apiUrl: Option<string>, call: Api.Call)
    requires reply == Api.Received(true, Some(LoginBody(user, None)))
    ensures var o := LoginStep(s, reply);
            && o.error == None
            && StoredToken(o.session) == Some("undefined")
            && TruthyString(StoredToken(o.session))
            && Api.BuildRequest(apiUrl, StoredToken(o.session), call).headers[Api.Authorization] == "Bearer undefined"
  {
  }

  /** A failed login re-throws the error and leaves token and user as they were. */
  lemma LoginFailed(s: Session, reply: Api.Reply<LoginBody>)
    requires Api.Interpret(reply).Failure?
    ensures LoginStep(s, reply) == LoginOutcome(s, Some(Api.Interpret(reply).error))
  {
  }

  /** A token left in storage is sent along with the login request. */
  lemma LoginSendsStoredToken(s: Session, apiUrl: Option<string>, identifier: string, password: string)
    requires TruthyString(StoredToken(s))
    ensures var r := LoginRequest(s, apiUrl, identifier, password);
            && r.url == Api.Url(apiUrl, "/api/auth/local")
            && r.verb == Some("POST")
            && r.body == Some(Api.Credentials(identifier, password))
            && r.headers[Api.Authorization] == "Bearer " + s.items[TokenKey]
  {
  }

  /* ---------- logout ---------- */

  /** `logout`: the token and the user are gone, every other key and the
      loading flag are as they were. */
  function LogoutStep(s: Session): (t: Session)
    ensures StoredToken(t) == None && t.user == None && t.isLoading == s.isLoading
    ensures forall k :: k != TokenKey ==> Lookup(t.items, k) == Lookup(s.items, k)
  {
    s.(items := s.items - {TokenKey}, user := None)
  }

  /** Logout always leaves no token and no user, whatever the session was,
      and a second logout changes nothing. */
  lemma LogoutIdempotent(s: Session)
    ensures var t := LogoutStep(s);
            && StoredToken(t) == None && t.user == None
            && (forall k :: k != TokenKey ==> Lookup(t.items, k) == Lookup(s.items, k))
            && LogoutStep(t) == t
  {
  }

  /* ---------- the provider ---------- */

  class AuthProvider {
    const store: Store
    const apiUrl: Option<string>
    var user: Option<User>
    var isLoading: bool

    function Snapshot(): Session
      reads this, store
    {
      Session(store.items, user, isLoading)
    }

    /** Mounting: no user yet, and loading until `checkAuth` has run. */
    constructor (store: Store, apiUrl: Option<string>)
      ensures this.store == store && this.apiUrl == apiUrl
      ensures user == None && isLoading
    {
      this.store := store;
      this.apiUrl := apiUrl;
      user := None;
      isLoading := true;
    }

    /** The mount effect: validates a stored token against `/api/users/me`. */
    method CheckAuth(reply: Api.Reply<MeBody>) returns (sent: Option<Api.Request>)
      modifies this, store
      ensures sent == CheckAuthCall(old(Snapshot()), apiUrl)
      ensures Snapshot() == CheckAuthStep(old(Snapshot()), reply)
    {
      var token := store.GetItem(TokenKey);
      sent := None;
      if TruthyString(token) {
        var request := Api.BuildRequest(apiUrl, token, Api.ValidateToken());
        sent := Some(request);
        var outcome: Result<MeBody, Api.ApiError> := Api.Interpret(reply);
        match outcome
        case Success(UserData(u)) =>
          user := Some(u);
        case Success(FalsyBody) =>
          store.RemoveItem(TokenKey);
        case Failure(_) =>
      }
      isLoading := false;
    }

    method Login(identifier: string, password: string, reply: Api.Reply<LoginBody>)
      returns (sent: Api.Request, error: Option<Api.ApiError>)
      modifies this, store
      ensures sent == LoginRequest(old(Snapshot()), apiUrl, identifier, password)
      ensures LoginOutcome(Snapshot(), error) == LoginStep(old(Snapshot()), reply)
    {
      var token := store.GetItem(TokenKey);
      sent := Api.BuildRequest(apiUrl, token, Api.AuthApi(Api.Credentials(identifier, password)));
      match Api.Interpret(reply)
      case Success(data) =>
        store.SetItem(TokenKey, StoredJwt(data.jwt));
        user := data.user;
        error := None;
      case Failure(e) =>
        error := Some(e);
    }

    method Logout()
      modifies this, store
      ensures Snapshot() == LogoutStep(old(Snapshot()))
    {
      store.RemoveItem(TokenKey);
      user := None;
    }
  }
}
