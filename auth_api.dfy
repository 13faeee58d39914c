/** The authentication and user API (app/composables/useAuthApi.ts): each operation is the
    endpoint and options it passes to `apiFetch`, plus the shape of the reply it expects. */
module AuthApi {
  import opened Wrappers
  import opened Types
  import opened Api
  import Decimal

  datatype CreateUserData = CreateUserData(email: string, password: string, name: Option<string>)

  datatype UpdateUserData = UpdateUserData(email: Option<string>, password: Option<string>, name: Option<string>)

  /** The request bodies the operations send. */
  datatype Body =
    | Credentials(credentials: LoginRequest)
    | NewUser(data: CreateUserData)
    | UserChanges(changes: UpdateUserData)

  /** The reply type each operation asks `apiFetch` for. */
  datatype ResponseShape = TokenReply | OneUser | UserList | Anything

  datatype Call = Call(endpoint: string, options: ApiFetchOptions<Body>, expects: ResponseShape)

  const LoginEndpoint := "/auth/login"
  const CurrentUserEndpoint := "/users/me"
  const UsersEndpoint := "/users/"

  /** The path of one user: the collection path followed by the id in decimal. */
  function UserEndpoint(id: int): (p: string)
    ensures |p| > |UsersEndpoint| && p[..|UsersEndpoint|] == UsersEndpoint
    ensures p[|UsersEndpoint|..] == Decimal.IntToDecimal(id)
  {
    UsersEndpoint + Decimal.IntToDecimal(id)
  }

  function Login(credentials: LoginRequest): (c: Call)
    ensures c.endpoint == LoginEndpoint && c.expects == TokenReply
    ensures c.options == ApiFetchOptions(Some(POST), Some(Credentials(credentials)), None, None)
  {
    Call(LoginEndpoint, ApiFetchOptions(Some(POST), Some(Credentials(credentials)), None, None), TokenReply)
  }

  function GetCurrentUser(): (c: Call)
    ensures c.endpoint == CurrentUserEndpoint && c.expects == OneUser
    ensures c.options.httpMethod.None? && c.options.body.None?
    ensures c.options == NoOptions()
  {
    Call(CurrentUserEndpoint, NoOptions(), OneUser)
  }

  function GetUsers(): (c: Call)
    ensures c.endpoint == UsersEndpoint && c.expects == UserList
    ensures c.options.httpMethod.None? && c.options.body.None?
    ensures c.options == NoOptions()
  {
    Call(UsersEndpoint, NoOptions(), UserList)
  }

  function GetUser(id: int): (c: Call)
    ensures c.endpoint == UserEndpoint(id) && c.expects == OneUser
    ensures c.options.httpMethod.None? && c.options.body.None?
    ensures c.options == NoOptions()
  {
    Call(UserEndpoint(id), NoOptions(), OneUser)
  }

  function CreateUser(data: CreateUserData): (c: Call)
    ensures c.endpoint == UsersEndpoint && c.expects == OneUser
    ensures c.options == ApiFetchOptions(Some(POST), Some(NewUser(data)), None, None)
  {
    Call(UsersEndpoint, ApiFetchOptions(Some(POST), Some(NewUser(data)), None, None), OneUser)
  }

  function UpdateUser(id: int, changes: UpdateUserData): (c: Call)
    ensures c.endpoint == UserEndpoint(id) && c.expects == OneUser
    ensures c.options == ApiFetchOptions(Some(PUT), Some(UserChanges(changes)), None, None)
  {
    Call(UserEndpoint(id), ApiFetchOptions(Some(PUT), Some(UserChanges(changes)), None, None), OneUser)
  }

  function DeleteUser(id: int): (c: Call)
    ensures c.endpoint == UserEndpoint(id) && c.expects == Anything
    ensures c.options == ApiFetchOptions(Some(DELETE), None, None, None)
  {
    Call(UserEndpoint(id), ApiFetchOptions(Some(DELETE), None, None, None), Anything)
  }

  /** `deleteUser` awaits the reply and returns nothing: a success carries no value, and a
      failure reaches the caller unchanged. */
  function DeleteUserResult<T>(reply: Reply<T>): (r: Reply<()>)
    ensures r.Ok? <==> reply.Ok?
    ensures reply.Fail? ==> r.error == reply.error
  {
    match reply
    case Ok(_) => Ok(())
    case Fail(e) => Fail(e)
  }

  /** The request that leaves the client for a call, given the token `apiFetch` read. */
  function Request(apiBase: string, token: Option<string>, c: Call): (r: FetchRequest<Body>)
    ensures r.url == apiBase + c.endpoint
    ensures r.options.headers == BuildHeaders(token, c.options.headers)
    ensures r.options.httpMethod == c.options.httpMethod
    ensures r.options.body == c.options.body
    ensures r.options.query == c.options.query
  {
    PrepareFetch(apiBase, token, c.endpoint, c.options)
  }

  /** Two user ids share a path only when they are the same id. */
  lemma UserEndpointInjective(a: int, b: int)
    ensures UserEndpoint(a) == UserEndpoint(b) <==> a == b
  {
    if UserEndpoint(a) == UserEndpoint(b) {
      assert UserEndpoint(a)[|UsersEndpoint|..] == UserEndpoint(b)[|UsersEndpoint|..];
      Decimal.IntToDecimalInjective(a, b);
    }
  }

  /** No user id produces the current-user path or the collection path. */
  lemma UserEndpointIsNotAFixedPath(id: int)
    ensures UserEndpoint(id) != CurrentUserEndpoint
    ensures UserEndpoint(id) != UsersEndpoint
  {
  }

  /** The login request: a POST of the credentials to the login path under the API base, with a
      JSON Content-Type, and an Authorization header exactly when a truthy token was held. */
  lemma LoginRequestSent(apiBase: string, token: Option<string>, credentials: LoginRequest)
    ensures var r := Request(apiBase, token, Login(credentials));
      && r.url == apiBase + LoginEndpoint
      && r.options.httpMethod == Some(POST)
      && r.options.body == Some(Credentials(credentials))
      && r.options.query.None?
      && r.options.headers[ContentType] == JsonContentType
      && (Authorization in r.options.headers <==> Truthy(token))
  {
  }

  /** A read call sends no method, so the transport's default (GET) applies, and no body. */
  lemma ReadRequestsSendNoMethod(apiBase: string, token: Option<string>, id: int)
    ensures Request(apiBase, token, GetCurrentUser()).options.httpMethod.None?
    ensures Request(apiBase, token, GetUsers()).options.httpMethod.None?
    ensures Request(apiBase, token, GetUser(id)).options.httpMethod.None?
    ensures Request(apiBase, token, GetUser(id)).options.body.None?
    ensures Request(apiBase, token, GetUser(id)).url == apiBase + UsersEndpoint + Decimal.IntToDecimal(id)
  {
    assert apiBase + (UsersEndpoint + Decimal.IntToDecimal(id)) == apiBase + UsersEndpoint + Decimal.IntToDecimal(id);
  }
}
