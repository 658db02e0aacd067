/** The sign-in / sign-up page: its two modes, the admin checkbox and secret
    key, the call it makes into the auth context, where it goes on success
    and what it says on failure. The redirect waits 1.5 seconds in the page;
    the model takes the delay as elapsed. */
module LoginPage {
  import opened Common
  import opened AuthContext
  import AuthRoute

  /** The form's seven inputs. */
  datatype FormData = FormData(
    email: string,
    password: string,
    username: string,
    name: string,
    phone: string,
    address: string,
    secretKey: string)

  const EmptyFormData := FormData("", "", "", "", "", "", "")

  datatype FormField = EmailField | PasswordField | UsernameField | NameField | PhoneField | AddressField
                     | SecretKeyField

  /** An input's `setFormData({ ...formData, f: v })`. */
  function SetFormField(f: FormData, field: FormField, value: string): (r: FormData)
    ensures field == EmailField ==> r == f.(email := value)
    ensures field == PasswordField ==> r == f.(password := value)
    ensures field == UsernameField ==> r == f.(username := value)
    ensures field == NameField ==> r == f.(name := value)
    ensures field == PhoneField ==> r == f.(phone := value)
    ensures field == AddressField ==> r == f.(address := value)
    ensures field == SecretKeyField ==> r == f.(secretKey := value)
  {
    match field
    case EmailField => f.(email := value)
    case PasswordField => f.(password := value)
    case UsernameField => f.(username := value)
    case NameField => f.(name := value)
    case PhoneField => f.(phone := value)
    case AddressField => f.(address := value)
    case SecretKeyField => f.(secretKey := value)
  }

  /** The auth-context call `handleSubmit` makes. */
  datatype AuthCall =
    | LoginCall(emailOrUsername: string, password: string)
    | SignupCall(email: string, password: string, username: string, name: string, phone: string,
                 address: string, role: string, secretKey: Option<string>)

  /** Login mode logs in with the one identifier; signup mode asks for role
      "admin" and sends the secret key exactly when the box is ticked. */
  function CallOf(isLogin: bool, isAdmin: bool, f: FormData): (c: AuthCall)
    ensures isLogin <==> c.LoginCall?
    ensures isLogin ==> c == LoginCall(f.email, f.password)
    ensures !isLogin ==>
              && c.email == f.email && c.password == f.password && c.username == f.username
              && c.name == f.name && c.phone == f.phone && c.address == f.address
              && (c.role == "admin" <==> isAdmin) && (!isAdmin ==> c.role == "user")
              && (c.secretKey.Some? <==> isAdmin) && (isAdmin ==> c.secretKey == Some(f.secretKey))
  {
    if isLogin then LoginCall(f.email, f.password)
    else SignupCall(f.email, f.password, f.username, f.name, f.phone, f.address,
                    if isAdmin then "admin" else "user", if isAdmin then Some(f.secretKey) else None)
  }

  /** The body the auth context posts for the call. */
  function RequestOf(c: AuthCall): AuthRoute.AuthRequest {
    match c
    case LoginCall(id, password) => LoginBody(id, password)
    case SignupCall(email, password, username, name, phone, address, role, key) =>
      SignupBody(email, password, username, name, phone, address, role, key)
  }

  /** From the form to the route's admin gate: an ordinary sign-up never
      meets the gate, and an admin sign-up passes it exactly when the typed
      key is the configured secret. */
  lemma SignupReachesAdminGate(f: FormData, env: Option<string>)
    ensures !AuthRoute.AdminGateFails(RequestOf(CallOf(false, false, f)), env)
    ensures AuthRoute.AdminGateFails(RequestOf(CallOf(false, true, f)), env) <==> f.secretKey != AuthRoute.AdminSecret(env)
    ensures RequestOf(CallOf(true, false, f)).action == "login" && RequestOf(CallOf(false, false, f)).action == "signup"
  {
    var user := CallOf(false, false, f);
    assert user.role == "user";
    assert RequestOf(user).role == Some("user");
    assert "user" != "admin";
    var admin := CallOf(false, true, f);
    assert RequestOf(admin).role == Some("admin") && RequestOf(admin).secretKey == Some(f.secretKey);
  }

  /** Where a successful call leads: "/admin" after an admin sign-up, the
      dashboard otherwise. */
  function Destination(c: AuthCall): (route: string)
    ensures route == "/admin" <==> c.SignupCall? && c.role == "admin"
    ensures route != "/admin" ==> route == "/dashboard"
  {
    if c.SignupCall? && c.role == "admin" then "/admin" else "/dashboard"
  }

  /** The error banner after a thrown call: the error's message, or a
      mode-specific text for something thrown that is not an `Error`. */
  function FailureMessage(isLogin: bool, thrown: Option<string>): (msg: string)
    ensures thrown.Some? ==> msg == thrown.value
    ensures thrown.None? && isLogin ==> msg == "Invalid email/username or password"
    ensures thrown.None? && !isLogin ==> msg == "Account creation failed"
  {
    match thrown
    case Some(m) => m
    case None => if isLogin then "Invalid email/username or password" else "Account creation failed"
  }

  /** The submit button is disabled while a submission is marked. */
  function SubmitDisabled(submitted: bool): (r: bool)
    ensures r <==> submitted
  {
    submitted
  }

  /** The submit button's caption. */
  function SubmitCaption(submitted: bool, isLogin: bool): (caption: string)
    ensures submitted ==> caption == "Processing..."
    ensures !submitted ==> (caption == "Sign In" <==> isLogin)
  {
    if submitted then "Processing..." else if isLogin then "Sign In" else "Create Account"
  }

  /** The page's state. */
  class LoginForm {
    var isLogin: bool
    var isAdmin: bool
    var form: FormData
    var submitted: bool
    var error: string

    /** The admin box is only offered in signup mode and is cleared by every
        mode switch, so login mode never has it ticked. */
    ghost predicate Valid()
      reads this
    {
      isLogin ==> !isAdmin
    }

    constructor ()
      ensures Valid()
      ensures isLogin && !isAdmin && form == EmptyFormData && !submitted && error == ""
    {
      isLogin := true;
      isAdmin := false;
      form := EmptyFormData;
      submitted := false;
      error := "";
    }

    /** The "Sign up" / "Sign in" link: switch mode and clear the form, the
        box and the error. */
    method Toggle()
      modifies this
      ensures Valid()
      ensures isLogin == !old(isLogin) && !isAdmin && form == EmptyFormData && error == ""
      ensures submitted == old(submitted)
    {
      isLogin := !isLogin;
      form := EmptyFormData;
      isAdmin := false;
      error := "";
    }

    /** The "Register as Admin" box, which only signup mode renders. */
    method SetIsAdmin(checked: bool)
      requires Valid() && !isLogin
      modifies this
      ensures Valid()
      ensures isAdmin == checked
      ensures isLogin == old(isLogin) && form == old(form) && submitted == old(submitted) && error == old(error)
    {
      isAdmin := checked;
    }

    method Edit(field: FormField, value: string)
      requires Valid()
      modifies this
      ensures Valid()
      ensures form == SetFormField(old(form), field, value)
      ensures isLogin == old(isLogin) && isAdmin == old(isAdmin) && submitted == old(submitted) && error == old(error)
    {
      form := SetFormField(form, field, value);
    }

    /** `handleSubmit` up to the awaited call: mark submitted, clear the
        error, and call the auth context. */
    method BeginSubmit() returns (call: AuthCall)
      requires Valid()
      modifies this
      ensures Valid()
      ensures submitted && SubmitDisabled(submitted) && error == ""
      ensures call == CallOf(isLogin, isAdmin, form)
      ensures Destination(call) == (if isAdmin then "/admin" else "/dashboard")
      ensures call.LoginCall? ==> Destination(call) == "/dashboard"
      ensures isLogin == old(isLogin) && isAdmin == old(isAdmin) && form == old(form)
    {
      submitted := true;
      error := "";
      call := CallOf(isLogin, isAdmin, form);
    }

    /** The timer after a successful call: unmark and go on. */
    method SubmitSucceeded(call: AuthCall) returns (route: string)
      requires Valid()
      modifies this
      ensures Valid()
      ensures !submitted && route == Destination(call)
      ensures isLogin == old(isLogin) && isAdmin == old(isAdmin) && form == old(form) && error == old(error)
    {
      submitted := false;
      route := Destination(call);
    }

    /** The `catch` after a thrown call: show the message and unmark. */
    method SubmitFailed(thrown: Option<string>)
      requires Valid()
      modifies this
      ensures Valid()
      ensures !submitted && !SubmitDisabled(submitted) && error == FailureMessage(isLogin, thrown)
      ensures isLogin == old(isLogin) && isAdmin == old(isAdmin) && form == old(form)
    {
      error := FailureMessage(isLogin, thrown);
      submitted := false;
    }
  }
}
