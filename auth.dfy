/** The development sign-in (src/hooks/useAuth.tsx): two mock accounts, a
    login that accepts exactly their e-mail/password pairs and stores the
    signed-in user and company, a logout that clears both, and the session
    restore on start-up. Browser storage is two fields holding already-parsed
    values; the clock reading taken when the mock accounts are built is a
    parameter. */
module Auth {
  import opened Prelude

  datatype UserRole = MasterAdmin | User
  datatype AccountStatus = Active | Inactive

  datatype AuthUser = AuthUser(id: string, email: string, username: string, role: UserRole, companyId: string,
                               status: AccountStatus, lastLogin: string, createdAt: string, updatedBy: string)

  datatype Plan = Basic | Premium | Enterprise
  datatype CompanyStatus = CompanyActive | Trial | Suspended

  datatype Company = Company(id: string, name: string, plan: Plan, status: CompanyStatus, maxUsers: int,
                             createdAt: string, trialEndsAt: Option<string>)

  datatype MockAccount = MockAccount(password: string, user: AuthUser, company: Company)

  const AdminEmail: string := "admin@example.com"
  const UserEmail: string := "user@example.com"
  const Created: string := "2024-01-01T00:00:00.000Z"
  const LoginFailed: string := "メールアドレスまたはパスワードが正しくありません"

  const DemoCompany: Company := Company("1", "デモ企業", Enterprise, CompanyActive, 10, Created, None)

  /** `MOCK_USERS`; `now` is the ISO time at which the module was loaded. */
  function MockUsers(now: string): map<string, MockAccount> {
    map[AdminEmail := MockAccount("admin123",
          AuthUser("1", AdminEmail, "管理者", MasterAdmin, "1", Active, now, Created, "system"), DemoCompany),
        UserEmail := MockAccount("user123",
          AuthUser("2", UserEmail, "利用者", User, "1", Active, now, Created, "system"), DemoCompany)]
  }

  /** What `login(email, password)` decides: the account, or the error. */
  function CheckLogin(email: string, password: string, now: string): Result<MockAccount, string> {
    var accounts := MockUsers(now);
    if email !in accounts || accounts[email].password != password then Err(LoginFailed)
    else Ok(accounts[email])
  }

  /** Login succeeds for exactly the two pairs admin@example.com/admin123
      (a master admin) and user@example.com/user123 (a plain user), always
      with the demo company; anything else is the one error message. */
  lemma CheckLoginSpec(email: string, password: string, now: string)
    ensures var r := CheckLogin(email, password, now);
      (r.Ok? <==> (email == AdminEmail && password == "admin123") || (email == UserEmail && password == "user123"))
      && (r.Ok? ==> r.value.user.email == email && r.value.company == DemoCompany && r.value.password == password
                    && (r.value.user.role == MasterAdmin <==> email == AdminEmail))
      && (r.Err? ==> r.error == LoginFailed)
  {
    assert AdminEmail != UserEmail by {
      assert AdminEmail[0] != UserEmail[0];
    }
  }

  /** The provider's state and the two storage entries `auth_user` and
      `auth_company`. */
  class AuthProvider {
    var user: Option<AuthUser>
    var company: Option<Company>
    var isLoading: bool
    var storedUser: Option<AuthUser>
    var storedCompany: Option<Company>

    /** A user is signed in together with a company, never alone. */
    predicate Valid()
      reads this
    {
      user.Some? <==> company.Some?
    }

    /** Mounting with what storage holds: nobody signed in, still loading. */
    constructor (savedUser: Option<AuthUser>, savedCompany: Option<Company>)
      ensures Valid()
      ensures user == None && company == None && isLoading
      ensures storedUser == savedUser && storedCompany == savedCompany
    {
      user := None;
      company := None;
      isLoading := true;
      storedUser := savedUser;
      storedCompany := savedCompany;
    }

    /** The restore effect: both are taken from storage only when both are
        there; loading ends either way. */
    method Restore()
      requires Valid()
      modifies this
      ensures Valid() && !isLoading
      ensures storedUser.Some? && storedCompany.Some? ==> user == storedUser && company == storedCompany
      ensures !(storedUser.Some? && storedCompany.Some?) ==> user == old(user) && company == old(company)
      ensures storedUser == old(storedUser) && storedCompany == old(storedCompany)
    {
      if storedUser.Some? && storedCompany.Some? {
        user := storedUser;
        company := storedCompany;
      }
      isLoading := false;
    }

    /** `login(email, password)`: on success the account's user and company
        are set and stored; on failure it throws and nothing changes. */
    method Login(email: string, password: string, now: string) returns (r: Result<(), string>)
      requires Valid()
      modifies this
      ensures Valid()
      ensures r.Ok? <==> CheckLogin(email, password, now).Ok?
      ensures r.Err? ==> r.error == LoginFailed && user == old(user) && company == old(company)
                         && storedUser == old(storedUser) && storedCompany == old(storedCompany)
      ensures r.Ok? ==> var account := MockUsers(now)[email];
                        user == storedUser == Some(account.user) && company == storedCompany == Some(account.company)
      ensures isLoading == old(isLoading)
    {
      var accounts := MockUsers(now);
      if email !in accounts || accounts[email].password != password {
        return Err(LoginFailed);
      }
      var account := accounts[email];
      user := Some(account.user);
      company := Some(account.company);
      storedUser := Some(account.user);
      storedCompany := Some(account.company);
      r := Ok(());
    }

    /** `logout()`: storage and state are both cleared. */
    method Logout()
      modifies this
      ensures Valid()
      ensures user == None && company == None && storedUser == None && storedCompany == None
      ensures isLoading == old(isLoading)
    {
      storedUser := None;
      storedCompany := None;
      user := None;
      company := None;
    }
  }
}
