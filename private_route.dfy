/** The route guard (src/components/PrivateRoute.tsx): a spinner while the
    session is being restored, the login page when nobody is signed in, the
    "unauthorized" page when a role list is given and the user's role is not
    in it, and the protected page otherwise. */
module PrivateRoute {
  import opened Prelude
  import Auth

  datatype Decision = Spinner | ToLogin | ToUnauthorized | Children

  /** The role as the role lists name it. */
  function RoleName(role: Auth.UserRole): string {
    match role
    case MasterAdmin => "master_admin"
    case User => "user"
  }

  function Guard(isLoading: bool, user: Option<Auth.AuthUser>, requiredRole: Option<seq<string>>): Decision {
    if isLoading then Spinner
    else if user.None? then ToLogin
    else if requiredRole.Some? && RoleName(user.value.role) !in requiredRole.value then ToUnauthorized
    else Children
  }

  /** The checks come in order: loading wins over everything, then a missing
      user, then the role; the page is shown if and only if loading is over,
      someone is signed in and any given role list names their role — so
      without a role list every signed-in user gets in. */
  lemma GuardSpec(isLoading: bool, user: Option<Auth.AuthUser>, requiredRole: Option<seq<string>>)
    ensures var d := Guard(isLoading, user, requiredRole);
      (d == Spinner <==> isLoading)
      && (d == ToLogin <==> !isLoading && user.None?)
      && (d == ToUnauthorized <==> !isLoading && user.Some? && requiredRole.Some?
                                   && RoleName(user.value.role) !in requiredRole.value)
      && (d == Children <==> !isLoading && user.Some?
                             && (requiredRole.None? || RoleName(user.value.role) in requiredRole.value))
    ensures !isLoading && user.Some? ==> Guard(isLoading, user, None) == Children
  {
  }

  /** After a restore and a successful login of the master admin, a page
      that requires "master_admin" is shown; for the plain user it is not. */
  lemma LoginThenGuard(now: string)
    ensures var admin := Auth.CheckLogin(Auth.AdminEmail, "admin123", now);
      admin.Ok? && Guard(false, Some(admin.value.user), Some(["master_admin"])) == Children
    ensures var plain := Auth.CheckLogin(Auth.UserEmail, "user123", now);
      plain.Ok? && Guard(false, Some(plain.value.user), Some(["master_admin"])) == ToUnauthorized
  {
    Auth.CheckLoginSpec(Auth.AdminEmail, "admin123", now);
    Auth.CheckLoginSpec(Auth.UserEmail, "user123", now);
    assert RoleName(Auth.User) != "master_admin" by {
      assert |RoleName(Auth.User)| != |"master_admin"|;
    }
  }
}
