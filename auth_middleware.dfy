/** `authenticate` and `requireAuth` of lib/infrastructure/middleware/auth.js.
    The Supabase token check is the parameter `getUser`, which maps a token
    to what `supabaseAdmin.auth.getUser(token)` answers or throws. */
module AuthMiddleware {
  import opened Wrappers
  import opened Text
  import opened HttpHeaders

  const AuthorizationHeader: string := "authorization"
  const BearerPrefix: string := "Bearer "
  const AuthenticationRequired: string := "Authentication required"

  datatype AuthUser = AuthUser(id: string, email: Option<string>)

  /** `{data: {user}, error}`, or an exception with its message. */
  datatype GetUserAnswer = Answered(user: Option<AuthUser>, error: Option<string>) | Threw(message: string)

  /** `authHeader.replace('Bearer ', '')`. */
  function Token(authHeader: string): string {
    ReplaceFirst(authHeader, BearerPrefix, "")
  }

  /** A well-formed header yields exactly the text after the prefix. */
  lemma BearerTokenExtracted(t: string)
    ensures Token(BearerPrefix + t) == t
  {
    assert BearerPrefix <= BearerPrefix + t;
    assert (BearerPrefix + t)[|BearerPrefix|..] == t;
  }

  /** `authenticate(request)`: the user the validator confirms, or `None`
      when the header is missing or empty, the validator reports an
      error or no user, or it throws. */
  function Authenticate(headers: map<string, string>, getUser: string -> GetUserAnswer): (r: Option<AuthUser>)
    ensures !Truthy(Header(headers, AuthorizationHeader)) ==> r == None
    ensures Truthy(Header(headers, AuthorizationHeader)) ==>
              var answer := getUser(Token(headers[AuthorizationHeader]));
              (r.Some? <==> answer.Answered? && answer.error.None? && answer.user.Some?)
              && (r.Some? ==> r == answer.user)
  {
    var authHeader := Header(headers, AuthorizationHeader);
    if !Truthy(authHeader) then None
    else
      match getUser(Token(authHeader.value))
      case Threw(_) => None
      case Answered(user, error) => if error.Some? || user.None? then None else user
  }

  /** `requireAuth(request)`: fails with "Authentication required" exactly
      when `authenticate` yields no user, and otherwise returns that user. */
  function RequireAuth(headers: map<string, string>, getUser: string -> GetUserAnswer): (r: Result<AuthUser>)
    ensures r.Err? <==> Authenticate(headers, getUser).None?
    ensures r.Err? ==> r.error == AuthenticationRequired
    ensures r.Ok? ==> Some(r.value) == Authenticate(headers, getUser)
  {
    match Authenticate(headers, getUser)
    case None => Err(AuthenticationRequired)
    case Some(user) => Ok(user)
  }
}
