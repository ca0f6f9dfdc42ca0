/**
 * The browser state the services share: the `localStorage` keys 'user' (the stored
 * session, read and parsed on every use) and 'userRole', and the page location that a
 * forced logout rewrites.
 */
module BrowserState {
  import opened Wrappers
  import opened Entities

  /** The record stored under 'user': the login response `{ token, refreshToken, user }`. */
  datatype Session = Session(token: string, refreshToken: string, user: User)

  /** Where a failed token refresh sends the browser. */
  const LoginPath := "/login"

  class Browser {
    /** `JSON.parse(localStorage.getItem('user'))`: None when the key is absent. */
    var user: Option<Session>
    /** `localStorage.getItem('userRole')`. */
    var userRole: Option<string>
    /** `window.location.href`. */
    var location: string

    constructor(location: string)
      ensures this.user == None && this.userRole == None && this.location == location
    {
      this.user := None;
      this.userRole := None;
      this.location := location;
    }
  }

  /** `user ? user.user.role : null`, as the list views read the role of the stored session. */
  function RoleOf(stored: Option<Session>): (r: Option<string>)
    ensures r.Some? <==> stored.Some?
    ensures stored.Some? ==> r == Some(stored.value.user.role)
  {
    match stored
    case None => None
    case Some(s) => Some(s.user.role)
  }
}
