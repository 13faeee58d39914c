/** The shared record shapes of the application (types/index.d.ts). */
module Types {
  import opened Wrappers

  /** A user as the server returns it; `name` may be null. */
  datatype User = User(id: int, email: string, name: Option<string>, createdAt: string)

  /** The credentials sent to the login endpoint. */
  datatype LoginRequest = LoginRequest(email: string, password: string)

  /** The login endpoint's answer. */
  datatype LoginResponse = LoginResponse(accessToken: string)

  /** The error payload the server may attach to a failed response. The session store reads
      it as `{ error?: string }`, so the message is optional here. */
  datatype AuthError = AuthError(error: Option<string>)
}
