/** The sign-in / sign-up form: one form switching between the two modes, an
    organization picker (choose from the server's list or type a new name) in
    sign-up mode, submission to the login or signup endpoint, the session kept in
    browser storage after a login, and the timers that follow a success. The
    server's answers are parameters of the handlers; browser storage is the
    `storage` map and navigation the `navigatedTo` field. */
module Login {
  import opened Wrappers
  import opened Text

  /** The four form fields. */
  datatype FormData = FormData(username: string, email: string, password: string, organization: string)

  datatype Field = Username | Email | Password | Organization

  /** An organization as the server lists it. */
  datatype Org = Org(name: string)

  /** The request a submission sends. */
  datatype AuthRequest = AuthRequest(url: string, payload: map<string, string>)

  /** How a submission ends: a success with the response's user fields, or a failure
      carrying the response's `message`, if there was one. */
  datatype AuthOutcome =
    | AuthOk(userId: string, email: Option<string>, organization: Option<string>)
    | AuthErr(message: Option<string>)

  /** What a success leaves scheduled. */
  datatype Timer = NoTimer | NavigateHome | BackToLogin

  const LoginUrl: string := "http://localhost:5000/api/login"
  const SignupUrl: string := "http://localhost:5000/api/signup"
  const AddNewOrg: string := "add-new"
  const DefaultError: string := "An error occurred"
  const HomeRoute: string := "/home"
  /** Milliseconds from a successful login to the move to the chat page. */
  const NavigateDelay: nat := 800
  /** Milliseconds from a successful signup to the switch back to sign-in. */
  const BackToLoginDelay: nat := 1000

  const EmptyForm: FormData := FormData("", "", "", "")

  function FormField(form: FormData, field: Field): string {
    match field
    case Username => form.username
    case Email => form.email
    case Password => form.password
    case Organization => form.organization
  }

  /** The form with one field changed. */
  function WithField(form: FormData, field: Field, value: string): (r: FormData)
    ensures FormField(r, field) == value
    ensures forall g :: g != field ==> FormField(r, g) == FormField(form, g)
  {
    match field
    case Username => form.(username := value)
    case Email => form.(email := value)
    case Password => form.(password := value)
    case Organization => form.(organization := value)
  }

  /** The body of a submission: a login sends only the credentials, a signup all
      four fields. */
  function Payload(isLogin: bool, form: FormData): (r: map<string, string>)
    ensures isLogin ==> r.Keys == {"username", "password"}
    ensures !isLogin ==> r.Keys == {"username", "email", "password", "organization"}
    ensures r["username"] == form.username && r["password"] == form.password
    ensures !isLogin ==> r["email"] == form.email && r["organization"] == form.organization
  {
    if isLogin then map["username" := form.username, "password" := form.password]
    else map["username" := form.username, "email" := form.email,
             "password" := form.password, "organization" := form.organization]
  }

  /** Whether the submit button is disabled: while a submission runs, and in sign-up
      mode while no organization is chosen and none is being typed. A sign-in is
      never held back by the organization. */
  function SubmitDisabled(loading: bool, isLogin: bool, form: FormData, isAddingOrg: bool): (r: bool)
    ensures loading ==> r
    ensures isLogin ==> (r <==> loading)
    ensures !isLogin && !loading ==> (r <==> form.organization == "" && !isAddingOrg)
  {
    loading || (!isLogin && form.organization == "" && !isAddingOrg)
  }

  /** Browser storage after a login: the user id and name are written, the e-mail
      and organization only when the response carries a non-empty one; nothing else
      changes. */
  function StoreSession(storage: map<string, string>, username: string, userId: string,
                        email: Option<string>, organization: Option<string>): (r: map<string, string>)
    ensures r.Keys == storage.Keys + {"userId", "username"}
      + (if Truthy(email) then {"email"} else {})
      + (if Truthy(organization) then {"organization"} else {})
    ensures r["userId"] == userId && r["username"] == username
    ensures Truthy(email) ==> r["email"] == email.value
    ensures Truthy(organization) ==> r["organization"] == organization.value
    ensures forall k :: k in storage && k !in {"userId", "username", "email", "organization"} ==> r[k] == storage[k]
    ensures !Truthy(email) && "email" in storage ==> r["email"] == storage["email"]
    ensures !Truthy(organization) && "organization" in storage ==> r["organization"] == storage["organization"]
  {
    var s1 := storage["userId" := userId]["username" := username];
    var s2 := if Truthy(email) then s1["email" := email.value] else s1;
    if Truthy(organization) then s2["organization" := organization.value] else s2
  }

  /** All the state of the form that the handlers read or write. */
  datatype Auth = Auth(
    isLogin: bool, formData: FormData, showPassword: bool, error: string, loading: bool,
    success: bool, organizations: seq<Org>, showOrgDropdown: bool, isAddingOrg: bool,
    newOrgName: string, storage: map<string, string>, pending: Timer, navigatedTo: Option<string>)

  class AuthForm {
    var isLogin: bool
    var formData: FormData
    var showPassword: bool
    var error: string
    var loading: bool
    var success: bool
    var organizations: seq<Org>
    var showOrgDropdown: bool
    var isAddingOrg: bool
    var newOrgName: string
    var storage: map<string, string>
    var pending: Timer
    var navigatedTo: Option<string>

    function State(): Auth
      reads this
    {
      Auth(isLogin, formData, showPassword, error, loading, success, organizations,
        showOrgDropdown, isAddingOrg, newOrgName, storage, pending, navigatedTo)
    }

    /** Between two events no submission is running. */
    ghost predicate Valid()
      reads this
    {
      !loading
    }

    /** The form opens in sign-in mode, empty, over whatever the browser has stored. */
    constructor (stored: map<string, string>)
      ensures Valid()
      ensures State() == Auth(true, EmptyForm, false, "", false, false, [], false, false, "",
        stored, NoTimer, None)
    {
      isLogin, formData, showPassword, error, loading := true, EmptyForm, false, "", false;
      success, organizations, showOrgDropdown, isAddingOrg := false, [], false, false;
      newOrgName, storage, pending, navigatedTo := "", stored, NoTimer, None;
    }

    /** Applies the organization list fetch: the list on success, empty on failure. */
    method FetchOrganizations(fetched: Option<seq<Org>>)
      modifies this
      ensures State() == old(State()).(organizations := fetched.GetOr([]))
    {
      organizations := fetched.GetOr([]);
    }

    /** A text field changes; the other fields keep their values. */
    method HandleChange(field: Field, value: string)
      requires Valid()
      modifies this
      ensures Valid()
      ensures State() == old(State()).(formData := WithField(old(formData), field, value))
    {
      formData := WithField(formData, field, value);
    }

    /** Switches between sign-in and sign-up: the error is cleared and the form
        emptied; entering sign-up mode loads the organization list (`fetched`). */
    method ToggleAuthMode(fetched: Option<seq<Org>>)
      requires Valid()
      modifies this
      ensures Valid()
      ensures State() == old(State()).(isLogin := !old(isLogin), error := "", formData := EmptyForm,
        organizations := if old(isLogin) then fetched.GetOr([]) else old(organizations))
    {
      isLogin := !isLogin;
      error := "";
      formData := EmptyForm;
      if !isLogin {
        FetchOrganizations(fetched);
      }
    }

    /** Opens or closes the organization dropdown. */
    method ToggleOrgDropdown()
      requires Valid()
      modifies this
      ensures Valid()
      ensures State() == old(State()).(showOrgDropdown := !old(showOrgDropdown))
    {
      showOrgDropdown := !showOrgDropdown;
    }

    /** Shows or hides the password. */
    method ToggleShowPassword()
      requires Valid()
      modifies this
      ensures Valid()
      ensures State() == old(State()).(showPassword := !old(showPassword))
    {
      showPassword := !showPassword;
    }

    /** An entry of the organization dropdown is clicked: the "add-new" entry opens
        the new-organization input; any other name becomes the organization and the
        dropdown closes. */
    method HandleOrgChange(org: string)
      requires Valid()
      modifies this
      ensures Valid()
      ensures org == AddNewOrg ==> State() == old(State()).(isAddingOrg := true)
      ensures org != AddNewOrg ==>
        State() == old(State()).(formData := old(formData).(organization := org), showOrgDropdown := false)
    {
      if org == AddNewOrg {
        isAddingOrg := true;
      } else {
        formData := formData.(organization := org);
        showOrgDropdown := false;
      }
    }

    /** The new-organization input changes. */
    method SetNewOrgName(name: string)
      requires Valid()
      modifies this
      ensures Valid()
      ensures State() == old(State()).(newOrgName := name)
    {
      newOrgName := name;
    }

    /** The typed organization is added: when its trimmed name is not empty it becomes
        the organization and the input closes and empties; a blank name changes
        nothing. */
    method HandleAddOrg()
      requires Valid()
      modifies this
      ensures Valid()
      ensures AllSpace(old(newOrgName)) ==> State() == old(State())
      ensures !AllSpace(old(newOrgName)) ==>
        State() == old(State()).(formData := old(formData).(organization := Trim(old(newOrgName))),
          isAddingOrg := false, newOrgName := "")
      ensures !AllSpace(old(newOrgName)) ==>
        (var org := formData.organization; org != "" && !IsSpace(org[0]) && !IsSpace(org[|org| - 1]))
    {
      var trimmed := Trim(newOrgName);
      if trimmed != "" {
        formData := formData.(organization := trimmed);
        isAddingOrg := false;
        newOrgName := "";
      }
    }

    /** Submits the form to the endpoint of the current mode with that mode's payload.
        On success: `success` is set; a login stores the session and schedules the move
        to the chat page, a signup schedules the return to sign-in. On failure the
        response's message is shown, or "An error occurred" when it has none. Either
        way the submission is over when the handler returns. */
    method HandleSubmit(outcome: AuthOutcome) returns (request: AuthRequest)
      requires Valid() && !Disabled()
      modifies this
      ensures Valid()
      ensures request == AuthRequest(if old(isLogin) then LoginUrl else SignupUrl,
        Payload(old(isLogin), old(formData)))
      ensures outcome.AuthOk? && old(isLogin) ==>
        State() == old(State()).(error := "", success := true, pending := NavigateHome,
          storage := StoreSession(old(storage), old(formData).username, outcome.userId,
            outcome.email, outcome.organization))
      ensures outcome.AuthOk? && !old(isLogin) ==>
        State() == old(State()).(error := "", success := true, pending := BackToLogin)
      ensures outcome.AuthErr? ==>
        State() == old(State()).(error := OrElse(outcome.message, DefaultError))
    {
      error := "";
      loading := true;
      var url := if isLogin then LoginUrl else SignupUrl;
      request := AuthRequest(url, Payload(isLogin, formData));
      Settle(outcome);
      loading := false;
    }

    /** Applies the answer to a submission (while `loading` is set). */
    method Settle(outcome: AuthOutcome)
      modifies this
      ensures outcome.AuthOk? && old(isLogin) ==>
        State() == old(State()).(success := true, pending := NavigateHome,
          storage := StoreSession(old(storage), old(formData).username, outcome.userId,
            outcome.email, outcome.organization))
      ensures outcome.AuthOk? && !old(isLogin) ==>
        State() == old(State()).(success := true, pending := BackToLogin)
      ensures outcome.AuthErr? ==>
        State() == old(State()).(error := OrElse(outcome.message, DefaultError))
    {
      match outcome {
        case AuthOk(userId, email, organization) =>
          success := true;
          if isLogin {
            storage := StoreSession(storage, formData.username, userId, email, organization);
            pending := NavigateHome;
          } else {
            pending := BackToLogin;
          }
        case AuthErr(message) =>
          error := OrElse(message, DefaultError);
      }
    }

    /** The scheduled timer fires: after a login the browser moves to the chat page;
        after a signup the form returns to sign-in mode (keeping its fields) and the
        success notice goes away. */
    method FireTimer()
      requires Valid()
      modifies this
      ensures Valid()
      ensures old(pending) == NoTimer ==> State() == old(State())
      ensures old(pending) == NavigateHome ==>
        State() == old(State()).(pending := NoTimer, navigatedTo := Some(HomeRoute))
      ensures old(pending) == BackToLogin ==>
        State() == old(State()).(pending := NoTimer, isLogin := true, success := false)
    {
      match pending {
        case NoTimer =>
        case NavigateHome =>
          navigatedTo := Some(HomeRoute);
          pending := NoTimer;
        case BackToLogin =>
          isLogin := true;
          success := false;
          pending := NoTimer;
      }
    }

    /** Whether the submit button is disabled now: never in sign-in mode between two
        events, and in sign-up mode while no organization is chosen or being typed. */
    function Disabled(): (r: bool)
      reads this
      ensures loading ==> r
      ensures isLogin && !loading ==> !r
      ensures !isLogin && formData.organization == "" && !isAddingOrg ==> r
      ensures !isLogin && !loading && (formData.organization != "" || isAddingOrg) ==> !r
    {
      SubmitDisabled(loading, isLogin, formData, isAddingOrg)
    }
  }
}
