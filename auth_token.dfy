/** The persisted bearer token (app/composables/useAuthToken.ts): one value kept in the
    browser's local storage under a fixed key, read and written only when running on the
    client. */
module AuthToken {
  import opened Wrappers

  /** The local-storage key the token lives under. */
  const AuthTokenKey := "auth_token"

  class TokenStorage {
    /** Whether the code runs in the browser (`import.meta.client`). */
    const isClient: bool
    /** The local-storage entry under AuthTokenKey. */
    var stored: Option<string>

    constructor (isClient: bool, stored: Option<string>)
      ensures this.isClient == isClient && this.stored == stored
    {
      this.isClient := isClient;
      this.stored := stored;
    }

    /** What `getToken` answers: the stored value on the client, null elsewhere. */
    function Current(): (t: Option<string>)
      reads this
      ensures !isClient ==> t.None?
      ensures isClient ==> t == stored
    {
      if isClient then stored else None
    }

    method GetToken() returns (t: Option<string>)
      ensures t == Current()
      ensures !isClient ==> t.None?
    {
      if isClient {
        t := stored;
      } else {
        t := None;
      }
    }

    method SetToken(token: string)
      modifies this
      ensures isClient ==> stored == Some(token)
      ensures !isClient ==> stored == old(stored)
    {
      if isClient {
        stored := Some(token);
      }
    }

    method RemoveToken()
      modifies this
      ensures isClient ==> stored.None?
      ensures !isClient ==> stored == old(stored)
    {
      if isClient {
        stored := None;
      }
    }
  }
}
