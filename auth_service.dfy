/**
 * The mock authentication service (src/services/authService.ts): two
 * fixed passwords, two built-in accounts, the signed-in user kept in
 * memory and in the store's 'currentUser' slot.
 */
module Auth {
  import opened Types
  import opened Seqs

  const AdminPassword: string := "a0988"
  const TechSupportPassword: string := "ahmed0988634015"
  const AdminToken: string := "mock-admin-token"
  const TechSupportToken: string := "mock-tech-token"
  const WrongPasswordError: string := "كلمة المرور غير صحيحة"

  /** The built-in accounts, created when the module loads at `loadTime`. */
  function MockUsers(loadTime: int): (r: seq<User>)
    ensures |r| == 2
    ensures r[0].id == "admin-1" && r[0].username == "admin" && r[0].role == Admin
    ensures r[1].id == "tech-1" && r[1].username == "tech_support" && r[1].role == TechSupport
    ensures forall u :: u in r ==> u.isActive && u.createdAt == loadTime && u.lastLogin == loadTime
  {
    [ User("admin-1", "admin", Admin, loadTime, loadTime, true),
      User("tech-1", "tech_support", TechSupport, loadTime, loadTime, true) ]
  }

  function RoleIs(role: UserRole): User -> bool
  {
    (u: User) => u.role == role
  }

  /** `mockUsers.find(u => u.role === role)`. */
  function Account(loadTime: int, role: UserRole): (r: Option<User>)
    ensures r.Some? ==> r.value.role == role && r.value in MockUsers(loadTime)
    ensures r.None? <==> forall u :: u in MockUsers(loadTime) ==> u.role != role
  {
    match FindFirst(MockUsers(loadTime), RoleIs(role))
    case Some(i) => Some(MockUsers(loadTime)[i])
    case None => None
  }

  /** The result every failed sign-in returns. */
  const Refused: AuthResult := AuthResult(false, None, None, Some(WrongPasswordError))

  class AuthService {
    const loadTime: int
    /** The user held in memory. */
    var currentUser: Option<User>
    /** The store's 'currentUser' slot. */
    var storedUser: Option<User>

    /** The service as it starts: nobody in memory, the slot as stored. */
    constructor (loadTime: int, storedUser: Option<User>)
      ensures this.loadTime == loadTime && currentUser == None && this.storedUser == storedUser
    {
      this.loadTime := loadTime;
      currentUser := None;
      this.storedUser := storedUser;
    }

    /** The user getCurrentUser reports: the one in memory, else the stored one. */
    function SessionUser(): (r: Option<User>)
      reads this
      ensures r.Some? <==> currentUser.Some? || storedUser.Some?
      ensures currentUser.Some? ==> r == currentUser
      ensures r == currentUser || r == storedUser
    {
      if currentUser.Some? then currentUser else storedUser
    }

    /**
     * Sign in as the built-in account with `role` when `password` is
     * `expected`: the account, stamped with `now` as last login, becomes
     * the current user in memory and in the store.
     */
    method Authenticate(password: string, expected: string, role: UserRole, token: string, now: int)
      returns (result: AuthResult)
      modifies this`currentUser, this`storedUser
      ensures password == expected && Account(loadTime, role).Some? ==>
        var user := Account(loadTime, role).value.(lastLogin := now);
        result == AuthResult(true, Some(user), Some(token), None) &&
        currentUser == Some(user) && storedUser == Some(user)
      ensures !(password == expected && Account(loadTime, role).Some?) ==>
        result == Refused && currentUser == old(currentUser) && storedUser == old(storedUser)
    {
      if password == expected {
        var user := Account(loadTime, role);
        if user.Some? {
          currentUser := Some(user.value.(lastLogin := now));
          storedUser := currentUser;
          return AuthResult(true, currentUser, Some(token), None);
        }
      }
      return Refused;
    }

    method AuthenticateAdmin(password: string, now: int) returns (result: AuthResult)
      modifies this`currentUser, this`storedUser
      ensures result.success <==> password == AdminPassword
      ensures result.success ==>
        var user := User("admin-1", "admin", Admin, loadTime, now, true);
        result == AuthResult(true, Some(user), Some(AdminToken), None) &&
        currentUser == Some(user) && storedUser == Some(user)
      ensures !result.success ==>
        result == Refused && currentUser == old(currentUser) && storedUser == old(storedUser)
    {
      assert Account(loadTime, Admin) == Some(MockUsers(loadTime)[0]);
      result := Authenticate(password, AdminPassword, Admin, AdminToken, now);
    }

    method AuthenticateTechSupport(password: string, now: int) returns (result: AuthResult)
      modifies this`currentUser, this`storedUser
      ensures result.success <==> password == TechSupportPassword
      ensures result.success ==>
        var user := User("tech-1", "tech_support", TechSupport, loadTime, now, true);
        result == AuthResult(true, Some(user), Some(TechSupportToken), None) &&
        currentUser == Some(user) && storedUser == Some(user)
      ensures !result.success ==>
        result == Refused && currentUser == old(currentUser) && storedUser == old(storedUser)
    {
      assert MockUsers(loadTime)[0].role != TechSupport;
      assert Account(loadTime, TechSupport) == Some(MockUsers(loadTime)[1]);
      result := Authenticate(password, TechSupportPassword, TechSupport, TechSupportToken, now);
    }

    /** The user in memory, else the stored one, which is then kept in memory. */
    method GetCurrentUser() returns (user: Option<User>)
      modifies this`currentUser
      ensures user == old(SessionUser())
      ensures currentUser == user
    {
      if currentUser.None? {
        if storedUser.Some? {
          currentUser := storedUser;
        }
      }
      user := currentUser;
    }

    method Logout()
      modifies this`currentUser, this`storedUser
      ensures currentUser == None && storedUser == None
      ensures SessionUser() == None
    {
      currentUser := None;
      storedUser := None;
    }

    method IsAuthenticated() returns (b: bool)
      modifies this`currentUser
      ensures b <==> old(SessionUser()).Some?
      ensures currentUser == old(SessionUser())
    {
      var user := GetCurrentUser();
      b := user.Some?;
    }

    method HasRole(role: UserRole) returns (b: bool)
      modifies this`currentUser
      ensures b <==> old(SessionUser()).Some? && old(SessionUser()).value.role == role
      ensures currentUser == old(SessionUser())
    {
      var user := GetCurrentUser();
      b := user.Some? && user.value.role == role;
    }
  }

  /** After logging out nobody is authenticated. */
  method LogoutSignsOut(auth: AuthService) returns (authenticated: bool)
    modifies auth`currentUser, auth`storedUser
    ensures !authenticated
  {
    auth.Logout();
    authenticated := auth.IsAuthenticated();
  }

  /** Signing in as administrator grants exactly the administrator role. */
  method AdminSignInGrantsRole(auth: AuthService, now: int) returns (admin: bool, tech: bool)
    modifies auth`currentUser, auth`storedUser
    ensures admin && !tech
  {
    var result := auth.AuthenticateAdmin(AdminPassword, now);
    admin := auth.HasRole(Admin);
    tech := auth.HasRole(TechSupport);
  }
}
