/** Sequences of actions, and concrete examples, checked against the stores' contracts alone. */
module Scenarios {
  import opened Wrappers
  import opened Types
  import Api
  import AuthApi
  import opened App
  import opened AuthToken
  import opened Auth
  import opened RouteGuard

  /** On the client a stored token is read back, a second write replaces it, and a removal
      (once or twice) leaves nothing to read. Elsewhere nothing is read and nothing is stored. */
  method TokenLifecycle(s: TokenStorage, first: string, second: string)
    returns (afterFirst: Option<string>, afterSecond: Option<string>, afterRemove: Option<string>, afterRemoveAgain: Option<string>)
    modifies s
    ensures s.isClient ==> afterFirst == Some(first) && afterSecond == Some(second)
    ensures s.isClient ==> afterRemove.None? && afterRemoveAgain.None?
    ensures !s.isClient ==> afterFirst.None? && afterSecond.None? && afterRemove.None? && afterRemoveAgain.None?
    ensures !s.isClient ==> s.stored == old(s.stored)
  {
    s.SetToken(first);
    afterFirst := s.GetToken();
    s.SetToken(second);
    afterSecond := s.GetToken();
    s.RemoveToken();
    afterRemove := s.GetToken();
    s.RemoveToken();
    afterRemoveAgain := s.GetToken();
  }

  /** Notifications are not queued: only the latest message and type remain, and an omitted
      type is `info`. */
  method NotificationsOverwrite(app: AppStore, first: string, firstKind: NotificationType, second: string)
    modifies app
    ensures app.notification == Notification(true, second, Info)
    ensures app.isLoading == old(app.isLoading)
  {
    app.ShowNotification(first, firstKind);
    app.ShowNotification(second);
  }

  /** Hiding twice is the same as hiding once. */
  method HideIsIdempotent(app: AppStore) returns (once: Notification)
    modifies app
    ensures app.notification == once
    ensures once == old(app.notification).(show := false)
  {
    app.HideNotification();
    once := app.notification;
    app.HideNotification();
  }

  /** Whatever a login did, a logout afterwards leaves no session and no persisted token. */
  method LoginThenLogout(store: AuthStore, email: string, password: string,
                         loginReply: Api.Reply<LoginResponse>, userReply: Api.Reply<User>)
    requires store.Valid()
    modifies store, store.app, store.storage
    ensures store.Valid()
    ensures store.user.None? && store.token.None? && !store.isAuthenticated
    ensures store.storage.isClient ==> store.storage.stored.None?
    ensures store.app.notification == Notification(true, LoggedOutMessage, Info)
    ensures !store.app.isLoading
  {
    var _ := store.Login(email, password, loginReply, userReply);
    store.Logout();
  }

  /** A persisted token the server rejects at start-up ends in the signed-out state with the
      token removed, and no error reaches the caller. */
  method StaleTokenAtStartup(token: string, rejection: Api.FetchError) returns (store: AuthStore)
    requires token != ""
    ensures store.user.None? && store.token.None? && !store.isAuthenticated
    ensures store.storage.stored.None?
    ensures store.sent == [store.Outgoing(AuthApi.GetCurrentUser(), Some(token), false)]
    ensures store.sent[0].request.options.headers[Api.Authorization] == Api.BearerPrefix + token
  {
    var app := new AppStore();
    var storage := new TokenStorage(true, Some(token));
    store := new AuthStore(app, storage, "");
    store.InitializeAuth(Api.Fail(rejection));
  }

  /** A successful login on the client: the session holds the user and the token, the token is
      persisted, and the user fetch carries it as a bearer token. */
  method SuccessfulLogin(apiBase: string) returns (store: AuthStore)
    ensures store.storage.isClient
    ensures store.user == Some(User(1, "a@b.com", None, "2024-01-01T00:00:00Z"))
    ensures store.token == Some("T") && store.isAuthenticated
    ensures store.storage.stored == Some("T")
    ensures store.app.notification == Notification(true, LoginSucceededMessage, Success)
    ensures |store.sent| == 2
    ensures store.sent[1].request.url == apiBase + AuthApi.CurrentUserEndpoint
    ensures Api.Authorization in store.sent[1].request.options.headers
    ensures store.sent[1].request.options.headers[Api.Authorization] == "Bearer T"
  {
    var app := new AppStore();
    var storage := new TokenStorage(true, None);
    store := new AuthStore(app, storage, apiBase);
    var thrown := store.Login("a@b.com", "pw", Api.Ok(LoginResponse("T")),
                              Api.Ok(User(1, "a@b.com", None, "2024-01-01T00:00:00Z")));
  }

  /** Four examples of the guard's decision. */
  lemma GuardExamples()
    ensures Guard(Route(LoginPath, LoginPath), true) == Redirect(Location(HomePath, map[]))
    ensures Guard(Route("/dashboard", "/dashboard"), false) ==
      Redirect(Location(LoginPath, map[RedirectParam := "/dashboard"]))
    ensures Guard(Route("/dashboard", "/dashboard"), true) == Allow
    ensures Guard(Route(LoginPath, "/login?redirect=/dashboard"), false) == Allow
  {
  }
}
