/**
 * The session of `AuthProvider` (src/contexts/AuthContext.tsx): the chosen
 * role, the fixed credential check and the two mock user records.
 */
module Auth {
  import opened Wrappers

  /** `UserRole = 'admin' | 'intern'`. */
  datatype Role = Admin | Intern

  /** The string literal of a role, which is also its demo username. */
  function RoleLiteral(r: Role): (s: string)
    ensures s == "admin" <==> r == Admin
    ensures s == "intern" <==> r == Intern
  {
    match r
    case Admin => "admin"
    case Intern => "intern"
  }

  /** The demo password every account shares. */
  const DemoPassword: string := "password"

  datatype User = User(id: string, username: string, role: Role, name: string)

  /** `mockUsers[role]`. */
  function MockUser(r: Role): (u: User)
    ensures u.role == r && u.username == RoleLiteral(r)
    ensures r == Admin ==> u.id == "1" && u.name == "John Smith"
    ensures r == Intern ==> u.id == "2" && u.name == "Sarah Johnson"
  {
    match r
    case Admin => User("1", "admin", Admin, "John Smith")
    case Intern => User("2", "intern", Intern, "Sarah Johnson")
  }

  /** The two mock users are different records. */
  lemma MockUsersDistinct()
    ensures MockUser(Admin) != MockUser(Intern)
    ensures MockUser(Admin).id != MockUser(Intern).id
  {
  }

  /** The test `username === role && password === 'password'` of `login`. */
  predicate CheckCredentials(username: string, password: string, role: Role)
  {
    username == RoleLiteral(role) && password == DemoPassword
  }

  /** Only the two role literals are ever accepted as usernames, each only for its own role. */
  lemma AcceptedUsernames(username: string, password: string, role: Role)
    requires CheckCredentials(username, password, role)
    ensures username == "admin" || username == "intern"
    ensures role == (if username == "admin" then Admin else Intern)
    ensures password == "password"
  {
  }

  /** The pair of state cells `(user, selectedRole)`. */
  datatype Session = Session(user: Option<User>, selectedRole: Option<Role>)

  /** Both cells start out `null`. */
  const InitialSession: Session := Session(None, None)

  /** `isAuthenticated: !!user`. */
  predicate IsAuthenticated(s: Session)
  {
    s.user.Some?
  }

  /** The operations the provider offers, plus the page reload of the login form's back action. */
  datatype Action =
    | ChooseRole(role: Role)
    | SubmitCredentials(username: string, password: string, role: Role)
    | LogOut
    | ReloadPage

  /** The session after one action. */
  function Step(s: Session, a: Action): (t: Session)
    ensures a.ChooseRole? ==> t.user == s.user && t.selectedRole == Some(a.role)
    ensures a.SubmitCredentials? ==> t.selectedRole == s.selectedRole
    ensures a.SubmitCredentials? ==>
      t.user == if CheckCredentials(a.username, a.password, a.role) then Some(MockUser(a.role)) else s.user
    ensures a.LogOut? || a.ReloadPage? ==> t == InitialSession
  {
    match a
    case ChooseRole(r) => s.(selectedRole := Some(r))
    case SubmitCredentials(u, p, r) => if CheckCredentials(u, p, r) then s.(user := Some(MockUser(r))) else s
    case LogOut => Session(None, None)
    case ReloadPage => InitialSession
  }

  /** The session after a sequence of actions, first to last. */
  function Run(s: Session, acts: seq<Action>): Session
    decreases |acts|
  {
    if acts == [] then s else Run(Step(s, acts[0]), acts[1..])
  }

  /** A signed-in user is one of the two mock records, the one of its own role. */
  ghost predicate Authentic(s: Session)
  {
    s.user.Some? ==> s.user.value == MockUser(s.user.value.role)
  }

  /** Choosing a role twice is choosing it once. */
  lemma ChooseRoleIdempotent(s: Session, r: Role)
    ensures Step(Step(s, ChooseRole(r)), ChooseRole(r)) == Step(s, ChooseRole(r))
  {
  }

  /** Logging out twice is logging out once, whatever the state. */
  lemma LogOutIdempotent(s: Session)
    ensures Step(Step(s, LogOut), LogOut) == Step(s, LogOut) == InitialSession
  {
  }

  /** Every session reachable from an authentic one is authentic. */
  lemma {:induction false} RunPreservesAuthentic(s: Session, acts: seq<Action>)
    requires Authentic(s)
    ensures Authentic(Run(s, acts))
    decreases |acts|
  {
    if acts != [] {
      RunPreservesAuthentic(Step(s, acts[0]), acts[1..]);
    }
  }

  /** Action `k` of `acts` is a successful credential check for the mock user `u`. */
  ghost predicate InstalledBy(acts: seq<Action>, k: int, u: User)
  {
    0 <= k < |acts| && acts[k].SubmitCredentials? &&
    CheckCredentials(acts[k].username, acts[k].password, acts[k].role) &&
    u == MockUser(acts[k].role)
  }

  /**
   * After a run, a present user is either the one the run started with or the
   * mock user installed by one of its successful credential checks.
   */
  lemma {:induction false} UserProvenance(s: Session, acts: seq<Action>)
    ensures Run(s, acts).user.Some? ==>
      Run(s, acts).user == s.user || exists k :: InstalledBy(acts, k, Run(s, acts).user.value)
    decreases |acts|
  {
    if acts != [] {
      var t := Step(s, acts[0]);
      var u := Run(s, acts).user;
      UserProvenance(t, acts[1..]);
      if u.Some? && u != s.user {
        if u == t.user {
          assert InstalledBy(acts, 0, u.value);
        } else {
          var k :| InstalledBy(acts[1..], k, u.value);
          assert acts[k + 1] == acts[1..][k];
          assert InstalledBy(acts, k + 1, u.value);
        }
      }
    }
  }

  /**
   * From the initial session, a user is present only after a successful
   * credential check, and it is the mock user of that check's role.
   */
  lemma UserOnlyAfterSuccessfulLogin(acts: seq<Action>)
    ensures Run(InitialSession, acts).user.Some? ==>
      exists k :: InstalledBy(acts, k, Run(InitialSession, acts).user.value)
  {
    UserProvenance(InitialSession, acts);
  }

  /** `AuthProvider`'s two state cells and the operations that overwrite them. */
  class AuthProvider {
    var user: Option<User>
    var selectedRole: Option<Role>

    /** The provider's state as a session value. */
    function Current(): Session
      reads this
    {
      Session(user, selectedRole)
    }

    /** The user cell only ever holds a mock user of its own role. */
    ghost predicate Valid()
      reads this
    {
      Authentic(Current())
    }

    /** Both cells start out `null`. */
    constructor ()
      ensures Valid()
      ensures user == None && selectedRole == None
    {
      user := None;
      selectedRole := None;
    }

    /** `isAuthenticated`. */
    function IsSignedIn(): (b: bool)
      reads this
      ensures b <==> IsAuthenticated(Current())
    {
      user.Some?
    }

    /**
     * `login`: succeeds exactly when the username is the role's literal and the
     * password is "password"; on success installs `mockUsers[role]`; never touches
     * the selected role; a failure changes nothing.
     */
    method Login(username: string, password: string, role: Role) returns (ok: bool)
      requires Valid()
      modifies this
      ensures Valid()
      ensures ok <==> username == RoleLiteral(role) && password == "password"
      ensures ok ==> user == Some(MockUser(role))
      ensures !ok ==> user == old(user)
      ensures selectedRole == old(selectedRole)
      ensures Current() == Step(old(Current()), SubmitCredentials(username, password, role))
    {
      if username == RoleLiteral(role) && password == DemoPassword {
        user := Some(MockUser(role));
        return true;
      }
      return false;
    }

    /** `logout`: clears both cells, from any state. */
    method Logout()
      modifies this
      ensures Valid()
      ensures user == None && selectedRole == None
      ensures Current() == Step(old(Current()), LogOut)
    {
      user := None;
      selectedRole := None;
    }

    /** `selectRole`: records the role and leaves the user as it was. */
    method SelectRole(role: Role)
      requires Valid()
      modifies this
      ensures Valid()
      ensures selectedRole == Some(role) && user == old(user)
      ensures Current() == Step(old(Current()), ChooseRole(role))
    {
      selectedRole := Some(role);
    }
  }
}
