/**
 * The login form (src/components/auth/LoginForm.tsx): its fields, the
 * `isLoading` flag around the call to `login`, and the reported outcome.
 */
module LoginForm {
  import opened Wrappers
  import opened Auth
  import opened Icons

  /** How the call to `login` ended: a resolved boolean, or an exception. */
  datatype LoginResult = Resolved(success: bool) | Threw

  /** The three toasts `handleSubmit` can show. */
  datatype Outcome = Succeeded | Failed | Errored

  /** Exactly one outcome per result: true is success, false is failure, an exception is an error. */
  function Classify(result: LoginResult): (o: Outcome)
    ensures o == Succeeded <==> result == Resolved(true)
    ensures o == Failed <==> result == Resolved(false)
    ensures o == Errored <==> result == Threw
  {
    match result
    case Resolved(ok) => if ok then Succeeded else Failed
    case Threw => Errored
  }

  datatype Toast = Toast(title: string, description: string, destructive: bool)

  /** The toast of each outcome; only success is not shown in the destructive style. */
  function ToastFor(o: Outcome, role: Role): (t: Toast)
    ensures t.destructive <==> o != Succeeded
  {
    match o
    case Succeeded => Toast("Login successful!", "Welcome back, " + RoleLiteral(role) + "!", false)
    case Failed => Toast("Login failed", "Invalid username or password. Try 'admin/password' or 'intern/password'", true)
    case Errored => Toast("Login error", "Something went wrong. Please try again.", true)
  }

  /** Both pairs the failure toast suggests are accepted, each for its own role. */
  lemma SuggestedCredentialsAccepted()
    ensures CheckCredentials("admin", "password", Admin)
    ensures CheckCredentials("intern", "password", Intern)
  {
  }

  /** `roleConfig[role]`: the header of the form. */
  datatype Config = Config(icon: Icon, title: string, description: string, color: string)

  /** The administrator's and the intern's headers, with the same icons the navigation bar uses. */
  function RoleConfig(role: Role): (c: Config)
    ensures c.title == "Administrator Login" <==> role == Admin
    ensures c.title == "Intern Login" <==> role == Intern
    ensures c.icon == (if role == Admin then Shield else Users)
  {
    match role
    case Admin => Config(Shield, "Administrator Login", "Access the admin dashboard to manage the system", "primary")
    case Intern => Config(Users, "Intern Login", "Access your learning materials and progress", "secondary")
  }

  /**
   * The demo hint shows the username `{role}`, the role literal, with "password":
   * credentials the check accepts for the form's role, and only for it.
   */
  lemma DemoHintAccepted(role: Role, other: Role)
    ensures CheckCredentials(RoleLiteral(role), "password", role)
    ensures other != role ==> !CheckCredentials(RoleLiteral(role), "password", other)
  {
  }

  /** The form's state cells, for the role it was opened with. */
  class Form {
    const role: Role
    var username: string
    var password: string
    var isLoading: bool

    /** Both fields start empty and nothing is loading. */
    constructor (role: Role)
      ensures this.role == role
      ensures username == "" && password == "" && !isLoading
    {
      this.role := role;
      username := "";
      password := "";
      isLoading := false;
    }

    /** The submit button is disabled while loading. */
    function SubmitDisabled(): (d: bool)
      reads this
      ensures d <==> isLoading
    {
      isLoading
    }

    /** Typing into the username field. */
    method SetUsername(s: string)
      modifies this
      ensures username == s && password == old(password) && isLoading == old(isLoading)
    {
      username := s;
    }

    /** Typing into the password field. */
    method SetPassword(s: string)
      modifies this
      ensures password == s && username == old(username) && isLoading == old(isLoading)
    {
      password := s;
    }

    /**
     * The first half of `handleSubmit`, up to the call: loading is switched on,
     * which disables the button, and the request carries the fields and the
     * form's own role.
     */
    method BeginSubmit() returns (u: string, p: string, r: Role)
      modifies this
      ensures isLoading && SubmitDisabled()
      ensures u == username == old(username) && p == password == old(password) && r == role
    {
      isLoading := true;
      u, p, r := username, password, role;
    }

    /** The second half, once the call has ended: the outcome is reported and loading ends. */
    method FinishSubmit(result: LoginResult) returns (o: Outcome)
      modifies this
      ensures o == Classify(result)
      ensures !isLoading && !SubmitDisabled()
      ensures username == old(username) && password == old(password)
    {
      o := Classify(result);
      isLoading := false;
    }

    /**
     * `handleSubmit` as a whole, with `throws` standing for the call ending in an
     * exception before it reaches the provider. The outcome is success exactly
     * when the fields pass the check for the form's role; the provider changes
     * only on success; loading is off afterwards in every outcome.
     */
    method HandleSubmit(auth: AuthProvider, throws: bool) returns (o: Outcome)
      requires auth.Valid()
      modifies this, auth
      ensures auth.Valid()
      ensures o == Errored <==> throws
      ensures o == Succeeded <==> !throws && CheckCredentials(old(username), old(password), role)
      ensures o == Failed <==> !throws && !CheckCredentials(old(username), old(password), role)
      ensures auth.user == (if o == Succeeded then Some(MockUser(role)) else old(auth.user))
      ensures auth.selectedRole == old(auth.selectedRole)
      ensures !isLoading
      ensures username == old(username) && password == old(password)
    {
      var u, p, r := BeginSubmit();
      var result: LoginResult;
      if throws {
        result := Threw;
      } else {
        var ok := auth.Login(u, p, r);
        result := Resolved(ok);
      }
      o := FinishSubmit(result);
    }
  }
}
