/**
 * src/pages/register/Register.jsx: the registration page. Its submit handler checks the
 * form (passwords first, then the lowered e-mail against the role's suffix), hands the
 * form to `registerUser`, and maps what that throws to the message it shows.
 */
module RegisterPage {
  import opened Wrappers
  import opened Text
  import opened Entities
  import opened Auth

  const PasswordMismatchMessage := "Passwords do not match"
  const AccountExistsMessage := "An account with this email already exists. Please use a different email."
  const RegisterRetryMessage := "Registration failed. Please try again."
  const DuplicateKey := "duplicate key error"
  const LoginRoute := "/login"

  /** The form's state fields (the role select starts empty). */
  datatype RegisterForm = RegisterForm(name: string, email: string, password: string, confirmPassword: string, role: string)

  /**
   * The page's own checks, in order: the error they set, or None when the form goes on
   * to `registerUser`. A password mismatch is reported before anything else; the suffix
   * checks compare the lowered e-mail; any role other than the two named passes.
   */
  function PageCheck(f: RegisterForm): (r: Option<string>)
    ensures f.password != f.confirmPassword ==> r == Some(PasswordMismatchMessage)
    ensures r.None? <==> && f.password == f.confirmPassword
                         && (f.role == TeamMember ==> EndsWith(ToLower(f.email), TeamMemberSuffix))
                         && (f.role == Manager ==> EndsWith(ToLower(f.email), ManagerSuffix))
    ensures f.password == f.confirmPassword && f.role == TeamMember && !EndsWith(ToLower(f.email), TeamMemberSuffix) ==>
              r == Some(TeamMemberEmailMessage)
    ensures f.password == f.confirmPassword && f.role == Manager && !EndsWith(ToLower(f.email), ManagerSuffix) ==>
              r == Some(ManagerEmailMessage)
  {
    if f.password != f.confirmPassword then Some(PasswordMismatchMessage)
    else if f.role == TeamMember && !EndsWith(ToLower(f.email), TeamMemberSuffix) then Some(TeamMemberEmailMessage)
    else if f.role == Manager && !EndsWith(ToLower(f.email), ManagerSuffix) then Some(ManagerEmailMessage)
    else None
  }

  /** The text shown for a thrown message: duplicate-key errors become the account-exists text, an empty message the default. */
  function ShownError(message: string): (r: string)
    ensures Includes(message, DuplicateKey) ==> r == AccountExistsMessage
    ensures !Includes(message, DuplicateKey) && message != "" ==> r == message
    ensures !Includes(message, DuplicateKey) && message == "" ==> r == RegisterRetryMessage
    ensures r != ""
  {
    if Includes(message, DuplicateKey) then AccountExistsMessage
    else if message != "" then message
    else RegisterRetryMessage
  }

  /** The body `registerUser` posts for the form. */
  function Applicant(f: RegisterForm): Auth.Registrant {
    Auth.Registrant(f.name, f.email, f.password, f.role)
  }

  /** What one submit leaves behind: the error shown, where it navigated, and the service call it made. */
  datatype Submitted = Submitted(error: string, navigatedTo: Option<string>, call: Option<Registration>)

  /**
   * `handleSubmit`: a failed page check shows its error and calls nothing; otherwise the
   * form goes to `registerUser`, whose success navigates to the login page with no error
   * and whose failure shows `ShownError` of its message and stays.
   */
  function Submit(f: RegisterForm, post: (Endpoint, Auth.Registrant) -> Result<string, HttpError>): (r: Submitted)
    ensures PageCheck(f).Some? ==> r == Submitted(PageCheck(f).value, None, None)
    ensures PageCheck(f).None? ==> r.call == Some(RegisterUser(Applicant(f), post))
    ensures r.navigatedTo.Some? <==> r.call.Some? && r.call.value.result.Ok?
    ensures r.navigatedTo.Some? ==> r.navigatedTo.value == LoginRoute && r.error == ""
    ensures r.call.Some? && r.call.value.result.Err? ==> r.error == ShownError(r.call.value.result.error)
  {
    match PageCheck(f)
    case Some(e) => Submitted(e, None, None)
    case None =>
      var call := RegisterUser(Applicant(f), post);
      match call.result
      case Ok(_) => Submitted("", Some(LoginRoute), Some(call))
      case Err(m) => Submitted(ShownError(m), None, Some(call))
  }

  /** The suffixes the service checks are already lower case. */
  lemma SuffixesAreLowerCase()
    ensures ToLower(ManagerSuffix) == ManagerSuffix
    ensures ToLower(TeamMemberSuffix) == TeamMemberSuffix
  {
  }

  /** Whatever the service's check admits, the page's check admits too. */
  lemma ServiceCheckImpliesPageCheck(f: RegisterForm)
    requires f.password == f.confirmPassword
    requires RegisterEndpoint(f.email, f.role).Ok?
    ensures PageCheck(f).None?
  {
    SuffixesAreLowerCase();
    if f.role == Manager {
      SuffixSurvivesLowering(f.email, ManagerSuffix);
    } else {
      SuffixSurvivesLowering(f.email, TeamMemberSuffix);
    }
  }

  /**
   * The page and the service disagree on case: a manager e-mail ending in '@Manager.com'
   * passes the page's lowered check, then the service's case-sensitive check throws, no
   * post is made, and the page shows the service's message.
   */
  lemma MixedCaseManagerEmail(local: string, name: string, password: string, post: (Endpoint, Auth.Registrant) -> Result<string, HttpError>)
    ensures var f := RegisterForm(name, local + "@Manager.com", password, password, Manager);
            && PageCheck(f).None?
            && Submit(f, post) == Submitted(ShownError(ManagerEmailMessage), None, Some(Registration(Err(ManagerEmailMessage), None)))
  {
    var email := local + "@Manager.com";
    var n := |local|;
    forall i | 0 <= i < |ManagerSuffix|
      ensures ToLower(email)[n + i] == ManagerSuffix[i]
    {
      assert email[n + i] == "@Manager.com"[i];
      assert i == 0 || i == 1 || i == 2 || i == 3 || i == 4 || i == 5 || i == 6
          || i == 7 || i == 8 || i == 9 || i == 10 || i == 11;
    }
    assert ToLower(email)[n..] == ManagerSuffix;
    assert email[n..] == "@Manager.com";
    assert email[n + 1] != ManagerSuffix[1];
  }

  /**
   * An empty role passes the page's checks and reaches the service, which throws the
   * invalid-role message without posting.
   */
  lemma EmptyRoleReachesService(f: RegisterForm, post: (Endpoint, Auth.Registrant) -> Result<string, HttpError>)
    requires f.role == "" && f.password == f.confirmPassword
    ensures PageCheck(f).None?
    ensures Submit(f, post) == Submitted(ShownError(InvalidRoleMessage), None, Some(Registration(Err(InvalidRoleMessage), None)))
  {
  }

  /** The page's state: the shown error and the route it navigated to. */
  class RegisterView {
    var form: RegisterForm
    var error: string
    var navigatedTo: Option<string>

    constructor()
      ensures form == RegisterForm("", "", "", "", "") && error == "" && navigatedTo == None
    {
      form := RegisterForm("", "", "", "", "");
      error := "";
      navigatedTo := None;
    }

    /** `handleSubmit` on the current form; returns the service call it made, if any. */
    method HandleSubmit(post: (Endpoint, Auth.Registrant) -> Result<string, HttpError>) returns (call: Option<Registration>)
      modifies this
      ensures var s := Submit(old(form), post);
              error == s.error && call == s.call && form == old(form)
      ensures navigatedTo == (if Submit(old(form), post).navigatedTo.Some? then Some(LoginRoute) else old(navigatedTo))
    {
      error := "";
      var check := PageCheck(form);
      if check.Some? {
        error := check.value;
        return None;
      }
      var r := RegisterUser(Applicant(form), post);
      call := Some(r);
      if r.result.Ok? {
        navigatedTo := Some(LoginRoute);
      } else {
        error := ShownError(r.result.error);
      }
    }
  }
}
