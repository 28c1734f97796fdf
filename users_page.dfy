/** The user administration page (src/pages/Users.tsx): the user list
    narrowed by a search term and by role and status filters, and the add,
    update and delete handlers that replace the list. Clock readings and the
    answer of `window.confirm` are parameters. */
module UsersPage {
  import opened Prelude
  import opened Text

  datatype Role = Admin | Manager | Staff
  datatype UserStatus = Active | Inactive

  datatype User = User(id: string, username: string, email: string, role: Role, status: UserStatus,
                       lastLogin: string, createdAt: string)

  /** `Partial<User>`: the fields an update carries. */
  datatype UserPatch = UserPatch(id: Option<string>, username: Option<string>, email: Option<string>,
                                 role: Option<Role>, status: Option<UserStatus>, lastLogin: Option<string>,
                                 createdAt: Option<string>)

  const NoChanges: UserPatch := UserPatch(None, None, None, None, None, None, None)

  /** The add-user form. */
  datatype NewUserForm = NewUserForm(username: string, email: string, role: Role, password: string)

  const EmptyForm: NewUserForm := NewUserForm("", "", Staff, "")

  /** A filter value of 'all' or one role / one status. */
  datatype RoleFilter = AnyRole | OnlyRole(role: Role)
  datatype StatusFilter = AnyStatus | OnlyStatus(status: UserStatus)

  predicate Matches(u: User, term: string, rf: RoleFilter, sf: StatusFilter) {
    (ContainsCI(u.username, term) || ContainsCI(u.email, term))
    && (rf.AnyRole? || u.role == rf.role)
    && (sf.AnyStatus? || u.status == sf.status)
  }

  function FilteredUsers(users: seq<User>, term: string, rf: RoleFilter, sf: StatusFilter): (r: seq<User>)
    ensures |r| <= |users|
  {
    Filter(users, (u: User) => Matches(u, term, rf, sf))
  }

  /** A user is listed if and only if the term is in the username or the
      e-mail address and the role and status filters accept it; with an empty
      term and both filters on 'all' every user is listed, in order. */
  lemma FilteredUsersSpec(users: seq<User>, term: string, rf: RoleFilter, sf: StatusFilter)
    ensures var r := FilteredUsers(users, term, rf, sf);
      (forall k :: 0 <= k < |r| ==> r[k] in users && Matches(r[k], term, rf, sf))
      && (forall k :: 0 <= k < |users| && Matches(users[k], term, rf, sf) ==> users[k] in r)
    ensures FilteredUsers(users, "", AnyRole, AnyStatus) == users
  {
    forall k | 0 <= k < |users| ensures Matches(users[k], "", AnyRole, AnyStatus) {
      ContainsEmpty(Lower(users[k].username));
    }
    FilterAll(users, (u: User) => Matches(u, "", AnyRole, AnyStatus));
  }

  /** The user `handleAddUser` creates: the next id by count, the form's
      fields, active, never logged in. */
  function NewUser(users: seq<User>, form: NewUserForm, createdAt: string): User {
    User(NatStr(|users| + 1), form.username, form.email, form.role, Active, "", createdAt)
  }

  /** `{ ...user, ...updates }`. */
  function Merge(u: User, p: UserPatch): User {
    User(p.id.GetOr(u.id), p.username.GetOr(u.username), p.email.GetOr(u.email), p.role.GetOr(u.role),
         p.status.GetOr(u.status), p.lastLogin.GetOr(u.lastLogin), p.createdAt.GetOr(u.createdAt))
  }

  function UpdateUsers(users: seq<User>, userId: string, p: UserPatch): seq<User> {
    seq(|users|, k requires 0 <= k < |users| => if users[k].id == userId then Merge(users[k], p) else users[k])
  }

  predicate OtherId(userId: string, u: User) { u.id != userId }

  function DeleteUsers(users: seq<User>, userId: string): (r: seq<User>)
    ensures |r| <= |users|
  {
    Filter(users, (u: User) => OtherId(userId, u))
  }

  /** An update touches only the users with the given id, taking each field
      the patch carries and keeping the rest; an empty patch changes nothing. */
  lemma UpdateSpec(users: seq<User>, userId: string, p: UserPatch)
    ensures var r := UpdateUsers(users, userId, p);
      |r| == |users|
      && (forall k :: 0 <= k < |users| && users[k].id != userId ==> r[k] == users[k])
      && (forall k :: 0 <= k < |users| && users[k].id == userId ==>
            r[k].role == p.role.GetOr(users[k].role) && r[k].status == p.status.GetOr(users[k].status)
            && r[k].username == p.username.GetOr(users[k].username) && r[k].email == p.email.GetOr(users[k].email)
            && r[k].id == p.id.GetOr(users[k].id) && r[k].lastLogin == p.lastLogin.GetOr(users[k].lastLogin)
            && r[k].createdAt == p.createdAt.GetOr(users[k].createdAt))
    ensures UpdateUsers(users, userId, NoChanges) == users
  {
    var r := UpdateUsers(users, userId, NoChanges);
    assert forall k :: 0 <= k < |users| ==> r[k] == users[k];
  }

  /** A delete removes every user with the id and keeps all others in
      order; deleting an id nobody has changes nothing. */
  lemma {:induction false} DeleteSpec(users: seq<User>, userId: string)
    ensures var r := DeleteUsers(users, userId);
      (forall k :: 0 <= k < |r| ==> r[k].id != userId)
      && (forall k :: 0 <= k < |users| && users[k].id != userId ==> users[k] in r)
      && ((forall k :: 0 <= k < |users| ==> users[k].id != userId) ==> r == users)
    ensures |DeleteUsers(users, userId)| + Count(users, (u: User) => !OtherId(userId, u)) == |users|
    decreases |users|
  {
    if forall k :: 0 <= k < |users| ==> users[k].id != userId {
      FilterAll(users, (u: User) => OtherId(userId, u));
    }
    if |users| > 0 {
      DeleteSpec(users[1..], userId);
      assert DeleteUsers(users[1..], userId) == Filter(users[1..], (u: User) => OtherId(userId, u));
    }
  }

  /** The id is the list length plus one, so after a delete it can repeat an
      id still in use: from users "2" and "3" (user "1" deleted) the new user
      gets "3" again. */
  lemma AddIdCanCollide(form: NewUserForm, createdAt: string, u2: User, u3: User)
    requires u2.id == "2" && u3.id == "3"
    ensures NewUser([u2, u3], form, createdAt).id == "3"
    ensures exists k :: 0 <= k < 2 && [u2, u3][k].id == NewUser([u2, u3], form, createdAt).id
  {
    assert NatStr(3) == "3";
    assert [u2, u3][1].id == "3";
  }

  /** The page's state. */
  class UsersPageState {
    var users: seq<User>
    var searchTerm: string
    var roleFilter: RoleFilter
    var statusFilter: StatusFilter
    var editingUser: Option<string>
    var showAddUser: bool
    var newUser: NewUserForm

    /** `samples` are the users the page starts with. */
    constructor (samples: seq<User>)
      ensures users == samples && searchTerm == "" && roleFilter == AnyRole && statusFilter == AnyStatus
      ensures editingUser == None && !showAddUser && newUser == EmptyForm
    {
      users := samples;
      searchTerm := "";
      roleFilter := AnyRole;
      statusFilter := AnyStatus;
      editingUser := None;
      showAddUser := false;
      newUser := EmptyForm;
    }

    function Shown(): seq<User>
      reads this
    {
      FilteredUsers(users, searchTerm, roleFilter, statusFilter)
    }

    /** `handleAddUser()` at clock reading `createdAt`: appends one user and
        closes and clears the form. */
    method HandleAddUser(createdAt: string)
      modifies this
      ensures users == old(users) + [NewUser(old(users), old(newUser), createdAt)]
      ensures !showAddUser && newUser == EmptyForm
      ensures searchTerm == old(searchTerm) && roleFilter == old(roleFilter) && statusFilter == old(statusFilter)
      ensures editingUser == old(editingUser)
    {
      var user := User(NatStr(|users| + 1), newUser.username, newUser.email, newUser.role, Active, "", createdAt);
      users := users + [user];
      showAddUser := false;
      newUser := EmptyForm;
    }

    method HandleUpdateUser(userId: string, p: UserPatch)
      modifies this
      ensures users == UpdateUsers(old(users), userId, p)
      ensures editingUser == None
      ensures searchTerm == old(searchTerm) && roleFilter == old(roleFilter) && statusFilter == old(statusFilter)
      ensures showAddUser == old(showAddUser) && newUser == old(newUser)
    {
      users := UpdateUsers(users, userId, p);
      editingUser := None;
    }

    /** `handleDeleteUser(userId)`; `confirmed` is the dialog's answer. */
    method HandleDeleteUser(userId: string, confirmed: bool)
      modifies this
      ensures users == if confirmed then DeleteUsers(old(users), userId) else old(users)
      ensures searchTerm == old(searchTerm) && roleFilter == old(roleFilter) && statusFilter == old(statusFilter)
      ensures editingUser == old(editingUser) && showAddUser == old(showAddUser) && newUser == old(newUser)
    {
      if confirmed {
        users := DeleteUsers(users, userId);
      }
    }
  }
}
