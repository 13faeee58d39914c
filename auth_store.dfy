/** The session store (stores/auth.ts): the signed-in user, their bearer token and the
    authenticated flag, with the actions that sign in, sign out, restore a session from the
    persisted token at start-up and refresh the user. Remote calls are not executed: each
    action receives the reply the server would give, and the store keeps a ghost log of the
    requests it sent. */
module Auth {
  import opened Wrappers
  import opened Types
  import Api
  import AuthApi
  import opened App
  import opened AuthToken

  const LoginSucceededMessage := "ログインしました"
  const LoginFailedMessage := "ログインに失敗しました"
  const LoggedOutMessage := "ログアウトしました"

  /** One request sent through `apiFetch`: the call, the token `apiFetch` read from the token
      store at that moment, the request built from them, and whether the loading flag was
      raised while it was in flight. */
  datatype Sent = Sent(call: AuthApi.Call, token: Option<string>, request: Api.FetchRequest<AuthApi.Body>, loading: bool)

  /** The message of a failed login: the server's `error` text when the failure carries a
      non-empty one, the generic failure message otherwise. */
  function LoginErrorMessage(e: Api.FetchError): (m: string)
    ensures m != ""
    ensures m == LoginFailedMessage || (e.data.Some? && e.data.value.error == Some(m))
    ensures (e.data.Some? && Api.Truthy(e.data.value.error)) ==> m == e.data.value.error.value
  {
    if e.data.Some? && Api.Truthy(e.data.value.error) then e.data.value.error.value
    else LoginFailedMessage
  }

  class AuthStore {
    var user: Option<User>
    var token: Option<string>
    var isAuthenticated: bool

    const app: AppStore
    const storage: TokenStorage
    /** The public `apiBase` of the runtime configuration. */
    const apiBase: string

    /** Every request the store has sent, oldest first. */
    ghost var sent: seq<Sent>

    /** The session invariant: an authenticated session has a user and a token, and on the
        client that token is the persisted one. */
    ghost predicate Valid()
      reads this, storage
      ensures Valid() && isAuthenticated ==> user.Some? && token.Some?
      ensures Valid() && isAuthenticated && storage.isClient ==> storage.stored == token
    {
      isAuthenticated ==> user.Some? && token.Some? && (storage.isClient ==> storage.stored == token)
    }

    constructor (app: AppStore, storage: TokenStorage, apiBase: string)
      ensures user.None? && token.None? && !isAuthenticated
      ensures this.app == app && this.storage == storage && this.apiBase == apiBase
      ensures sent == []
      ensures Valid()
    {
      user := None;
      token := None;
      isAuthenticated := false;
      this.app := app;
      this.storage := storage;
      this.apiBase := apiBase;
      sent := [];
    }

    /** The record of `call` sent with `token` under this store's API base. */
    function Outgoing(call: AuthApi.Call, token: Option<string>, loading: bool): (s: Sent)
      ensures s.call == call && s.token == token && s.loading == loading
      ensures s.request.url == apiBase + call.endpoint
      ensures s.request.options.headers == Api.BuildHeaders(token, call.options.headers)
      ensures s.request.options.httpMethod == call.options.httpMethod
      ensures s.request.options.body == call.options.body
      ensures s.request.options.query == call.options.query
    {
      Sent(call, token, AuthApi.Request(apiBase, token, call), loading)
    }

    /** `apiFetch` without the transport: reads the persisted token and records the request. */
    method Send(call: AuthApi.Call)
      modifies this`sent
      ensures sent == old(sent) + [Outgoing(call, storage.Current(), app.isLoading)]
    {
      var t := storage.GetToken();
      sent := sent + [Outgoing(call, t, app.isLoading)];
    }

    /** Signs in with the server's replies to the login call and to the current-user call that
        follows it. Returns the error that the action rethrows, if any. */
    method Login(email: string, password: string,
                 loginReply: Api.Reply<LoginResponse>, userReply: Api.Reply<User>)
      returns (thrown: Option<Api.FetchError>)
      requires Valid()
      modifies this, app, storage
      ensures Valid()
      ensures !app.isLoading
      // the login call is sent while loading, with the token held before
      ensures |sent| >= |old(sent)| + 1 && sent[..|old(sent)| + 1] ==
        old(sent) + [Outgoing(AuthApi.Login(LoginRequest(email, password)), old(storage.Current()), true)]
      // the login call fails: nothing but the notification changes, and the error is rethrown
      ensures loginReply.Fail? ==>
        && sent == old(sent) + [Outgoing(AuthApi.Login(LoginRequest(email, password)), old(storage.Current()), true)]
        && user == old(user) && token == old(token) && isAuthenticated == old(isAuthenticated)
        && storage.stored == old(storage.stored)
        && app.notification == Notification(true, LoginErrorMessage(loginReply.error), Error)
        && thrown == Some(loginReply.error)
      // the login call succeeds: the token is kept and persisted before the user is fetched
      // with it
      ensures loginReply.Ok? ==>
        && token == Some(loginReply.value.accessToken)
        && (storage.isClient ==> storage.stored == Some(loginReply.value.accessToken))
        && (!storage.isClient ==> storage.stored == old(storage.stored))
        && sent == old(sent) + [
             Outgoing(AuthApi.Login(LoginRequest(email, password)), old(storage.Current()), true),
             Outgoing(AuthApi.GetCurrentUser(), storage.Current(), true)]
      ensures loginReply.Ok? && userReply.Ok? ==>
        && user == Some(userReply.value) && isAuthenticated
        && app.notification == Notification(true, LoginSucceededMessage, Success)
        && thrown.None?
      // the user fetch fails: the new token stays, user and flag keep their old values
      ensures loginReply.Ok? && userReply.Fail? ==>
        && user == old(user) && isAuthenticated == old(isAuthenticated)
        && app.notification == Notification(true, LoginErrorMessage(userReply.error), Error)
        && thrown == Some(userReply.error)
    {
      app.SetLoading(true);
      Send(AuthApi.Login(LoginRequest(email, password)));
      match loginReply {
        case Fail(e) =>
          app.ShowNotification(LoginErrorMessage(e), Error);
          thrown := Some(e);
        case Ok(response) =>
          token := Some(response.accessToken);
          storage.SetToken(response.accessToken);
          Send(AuthApi.GetCurrentUser());
          match userReply {
            case Fail(e) =>
              app.ShowNotification(LoginErrorMessage(e), Error);
              thrown := Some(e);
            case Ok(u) =>
              user := Some(u);
              isAuthenticated := true;
              app.ShowNotification(LoginSucceededMessage, Success);
              thrown := None;
          }
      }
      app.SetLoading(false);
    }

    /** Signs out: forgets the persisted token and the session and says so. Sends nothing. */
    method Logout()
      modifies this, app, storage
      ensures Valid()
      ensures user.None? && token.None? && !isAuthenticated
      ensures storage.isClient ==> storage.stored.None?
      ensures !storage.isClient ==> storage.stored == old(storage.stored)
      ensures app.notification == Notification(true, LoggedOutMessage, Info)
      ensures app.isLoading == old(app.isLoading)
      ensures sent == old(sent)
    {
      storage.RemoveToken();
      token := None;
      user := None;
      isAuthenticated := false;
      app.ShowNotification(LoggedOutMessage, Info);
    }

    /** Restores the session from the persisted token with the server's reply to the
        current-user call; a rejected token signs the session out and is not rethrown. */
    method InitializeAuth(userReply: Api.Reply<User>)
      requires Valid()
      modifies this, app, storage
      ensures Valid()
      // no token, or an empty one: nothing changes and nothing is sent
      ensures !Api.Truthy(old(storage.Current())) ==>
        && user == old(user) && token == old(token) && isAuthenticated == old(isAuthenticated)
        && storage.stored == old(storage.stored)
        && app.notification == old(app.notification) && app.isLoading == old(app.isLoading)
        && sent == old(sent)
      // a token: the current user is fetched with it
      ensures Api.Truthy(old(storage.Current())) ==>
        sent == old(sent) + [Outgoing(AuthApi.GetCurrentUser(), old(storage.Current()), old(app.isLoading))]
      ensures Api.Truthy(old(storage.Current())) && userReply.Ok? ==>
        && token == old(storage.Current()) && user == Some(userReply.value) && isAuthenticated
        && storage.stored == old(storage.stored)
        && app.notification == old(app.notification) && app.isLoading == old(app.isLoading)
      ensures Api.Truthy(old(storage.Current())) && userReply.Fail? ==>
        && user.None? && token.None? && !isAuthenticated
        && storage.stored.None?
        && app.notification == Notification(true, LoggedOutMessage, Info)
        && app.isLoading == old(app.isLoading)
    {
      var persisted := storage.GetToken();
      if !Api.Truthy(persisted) {
        return;
      }
      token := persisted;
      Send(AuthApi.GetCurrentUser());
      match userReply
      case Ok(u) =>
        user := Some(u);
        isAuthenticated := true;
      case Fail(_) =>
        Logout();
    }

    /** Refreshes the user with the server's reply to the current-user call. Returns the error
        that the action rethrows, if any. */
    method FetchCurrentUser(userReply: Api.Reply<User>) returns (thrown: Option<Api.FetchError>)
      requires Valid()
      modifies this
      ensures Valid()
      ensures sent == old(sent) + [Outgoing(AuthApi.GetCurrentUser(), storage.Current(), app.isLoading)]
      ensures token == old(token) && isAuthenticated == old(isAuthenticated)
      ensures userReply.Ok? ==> user == Some(userReply.value) && thrown.None?
      ensures userReply.Fail? ==> user == old(user) && thrown == Some(userReply.error)
    {
      Send(AuthApi.GetCurrentUser());
      match userReply
      case Ok(u) =>
        user := Some(u);
        thrown := None;
      case Fail(e) =>
        thrown := Some(e);
    }
  }
}
