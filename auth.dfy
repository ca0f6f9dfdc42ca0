/**
 * src/services/auth.js: registration with a role/e-mail-suffix check that picks the
 * endpoint, login routed by e-mail suffix and stored in the browser, logout and the
 * current-user read. These calls use plain axios, not the intercepted client; the
 * backend is an oracle from the endpoint and body posted to its reply.
 */
module Auth {
  import opened Wrappers
  import opened Text
  import opened Entities
  import opened BrowserState

  const UserApi := "https://project-management-tool-backend-3f4s.onrender.com/api/user"

  /** The endpoints this service posts to. */
  datatype Endpoint =
    | RegisterDefault | RegisterManager | RegisterTeamMember
    | LoginDefault | LoginManager | LoginTeamMember

  function Url(e: Endpoint): string {
    match e
    case RegisterDefault => UserApi + "/register"
    case RegisterManager => UserApi + "/register/manager"
    case RegisterTeamMember => UserApi + "/register/team-member"
    case LoginDefault => UserApi + "/login"
    case LoginManager => UserApi + "/login/manager"
    case LoginTeamMember => UserApi + "/login/team-member"
  }

  const ManagerSuffix := "@manager.com"
  const TeamMemberSuffix := "@example.com"

  const ManagerEmailMessage := "Managers must use an email ending with @manager.com"
  const TeamMemberEmailMessage := "Team members must use an email ending with @example.com"
  const InvalidRoleMessage := "Invalid role. Please choose either manager or team-member"
  const RegistrationFailedMessage := "Registration failed. Please check your input and try again."

  /** The body posted to a register endpoint. */
  datatype Registrant = Registrant(name: string, email: string, password: string, role: string)

  /** The body posted to a login endpoint. */
  datatype Credentials = Credentials(email: string, password: string)

  /**
   * A rejected axios call: the response status and the server's `data.message` when a
   * response arrived (an empty message is falsy), and the error's own `message`.
   */
  datatype HttpError = HttpError(status: Option<int>, serverMessage: string, message: string)

  /** What `registerUser` did: its resolved data or the message of what it threw, and the endpoint it posted to. */
  datatype Registration = Registration(result: Result<string, string>, posted: Option<Endpoint>)

  /**
   * The role/suffix check of `registerUser` and the endpoint it selects: a manager needs
   * an e-mail ending (case-sensitively) in '@manager.com', a team member one ending in
   * '@example.com'; any other role is invalid.
   */
  function RegisterEndpoint(email: string, role: string): (r: Result<Endpoint, string>)
    ensures r.Ok? <==> ((role == Manager && EndsWith(email, ManagerSuffix))
                     || (role == TeamMember && EndsWith(email, TeamMemberSuffix)))
    ensures r.Ok? ==> r.value == (if role == Manager then RegisterManager else RegisterTeamMember)
    ensures role == Manager && !EndsWith(email, ManagerSuffix) ==> r == Err(ManagerEmailMessage)
    ensures role == TeamMember && !EndsWith(email, TeamMemberSuffix) ==> r == Err(TeamMemberEmailMessage)
    ensures role != Manager && role != TeamMember ==> r == Err(InvalidRoleMessage)
  {
    if role == Manager then
      if !EndsWith(email, ManagerSuffix) then Err(ManagerEmailMessage) else Ok(RegisterManager)
    else if role == TeamMember then
      if !EndsWith(email, TeamMemberSuffix) then Err(TeamMemberEmailMessage) else Ok(RegisterTeamMember)
    else Err(InvalidRoleMessage)
  }

  /** The message `registerUser` throws for a failed post: a 400 carries the server's message or the default text. */
  function RegisterErrorMessage(e: HttpError): (m: string)
    ensures e.status == Some(400) && e.serverMessage != "" ==> m == e.serverMessage
    ensures e.status == Some(400) && e.serverMessage == "" ==> m == RegistrationFailedMessage
    ensures e.status != Some(400) ==> m == e.message
  {
    if e.status == Some(400) then
      if e.serverMessage != "" then e.serverMessage else RegistrationFailedMessage
    else e.message
  }

  /**
   * `registerUser`: a post happens exactly when the role/suffix check passes, and then
   * to the endpoint the check selected, never to the default '/register'. A failed check
   * throws its message; a failed post throws as `RegisterErrorMessage` says.
   */
  function RegisterUser(who: Registrant, post: (Endpoint, Registrant) -> Result<string, HttpError>): (r: Registration)
    ensures r.posted.Some? <==> RegisterEndpoint(who.email, who.role).Ok?
    ensures r.posted.Some? ==> r.posted.value == RegisterEndpoint(who.email, who.role).value
    ensures r.posted != Some(RegisterDefault)
    ensures r.posted.None? ==> r.result == Err(RegisterEndpoint(who.email, who.role).error)
    ensures r.posted.Some? && post(r.posted.value, who).Ok? ==> r.result == Ok(post(r.posted.value, who).value)
    ensures r.posted.Some? && post(r.posted.value, who).Err? ==>
              r.result == Err(RegisterErrorMessage(post(r.posted.value, who).error))
  {
    match RegisterEndpoint(who.email, who.role)
    case Err(m) => Registration(Err(m), None)
    case Ok(endpoint) =>
      match post(endpoint, who)
      case Ok(data) => Registration(Ok(data), Some(endpoint))
      case Err(e) => Registration(Err(RegisterErrorMessage(e)), Some(endpoint))
  }

  /** Any role other than 'manager' and 'team_member' throws the invalid-role message before any post. */
  lemma InvalidRoleNeverPosts(who: Registrant, post: (Endpoint, Registrant) -> Result<string, HttpError>)
    requires who.role != Manager && who.role != TeamMember
    ensures RegisterUser(who, post) == Registration(Err(InvalidRoleMessage), None)
  {
  }

  /** `loginUser`'s endpoint: '@manager.com' first, then '@example.com', else the default. */
  function LoginEndpoint(email: string): (r: Endpoint)
    ensures r == LoginManager <==> EndsWith(email, ManagerSuffix)
    ensures r == LoginTeamMember <==> EndsWith(email, TeamMemberSuffix)
    ensures r == LoginDefault <==> !EndsWith(email, ManagerSuffix) && !EndsWith(email, TeamMemberSuffix)
  {
    SuffixesExclusive(email);
    if EndsWith(email, ManagerSuffix) then LoginManager
    else if EndsWith(email, TeamMemberSuffix) then LoginTeamMember
    else LoginDefault
  }

  /** No e-mail ends in both suffixes: they have the same length and differ. */
  lemma SuffixesExclusive(email: string)
    ensures !(EndsWith(email, ManagerSuffix) && EndsWith(email, TeamMemberSuffix))
  {
  }

  /** An account the register check admits logs in through the endpoint of its own role. */
  lemma RegisterAndLoginAgree(email: string, role: string)
    requires RegisterEndpoint(email, role).Ok?
    ensures role == Manager ==> LoginEndpoint(email) == LoginManager
    ensures role == TeamMember ==> LoginEndpoint(email) == LoginTeamMember
  {
  }

  /** The 'user' and 'userRole' keys after a login reply: stored only when the reply has a non-empty token. */
  function StoreLogin(user: Option<Session>, userRole: Option<string>, reply: Result<Session, HttpError>): (r: (Option<Session>, Option<string>))
    ensures reply.Ok? && reply.value.token != "" ==> r == (Some(reply.value), Some(reply.value.user.role))
    ensures reply.Err? || reply.value.token == "" ==> r == (user, userRole)
  {
    if reply.Ok? && reply.value.token != "" then (Some(reply.value), Some(reply.value.user.role))
    else (user, userRole)
  }

  /**
   * `loginUser`: posts the credentials to `LoginEndpoint(email)`; a reply with a token is
   * stored whole under 'user' and its role under 'userRole'. The reply is returned either
   * way; a rejected post propagates and stores nothing.
   */
  method LoginUser(browser: Browser, who: Credentials, post: (Endpoint, Credentials) -> Result<Session, HttpError>)
    returns (r: Result<Session, HttpError>)
    modifies browser
    ensures r == post(LoginEndpoint(who.email), who)
    ensures (browser.user, browser.userRole) == StoreLogin(old(browser.user), old(browser.userRole), r)
    ensures browser.location == old(browser.location)
  {
    r := post(LoginEndpoint(who.email), who);
    if r.Ok? && r.value.token != "" {
      browser.user := Some(r.value);
      browser.userRole := Some(r.value.user.role);
    }
  }

  /** `logout` removes 'user' only; 'userRole' stays. */
  method Logout(browser: Browser)
    modifies browser
    ensures browser.user == None
    ensures browser.userRole == old(browser.userRole) && browser.location == old(browser.location)
  {
    browser.user := None;
  }

  /** `getCurrentUser`: the stored session, None when 'user' is absent. */
  method GetCurrentUser(browser: Browser) returns (r: Option<Session>)
    ensures r == browser.user
  {
    r := browser.user;
  }
}
