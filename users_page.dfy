/**
  app/users/page.tsx: a client-side list of users, started from sample data, with add
  (fresh id, to the front), edit (the last-active stamp is kept), delete, search and the
  role and status badges. The time stamp `new Date()` would give is a parameter `now`.
*/
module UsersPage {
  import opened Wrappers
  import opened Text
  import opened Lists
  import opened Badges

  datatype User = User(id: int, name: string, email: string, role: string, status: string,
                       lastActive: string)

  datatype UserForm = UserForm(name: string, email: string, role: string, status: string)

  function UserId(u: User): int { u.id }

  const SampleUsers: seq<User> := [
    User(1, "John Doe", "john@example.com", "Admin", "Active", "2024-03-20 10:30"),
    User(2, "Jane Smith", "jane@example.com", "Manager", "Active", "2024-03-20 09:15"),
    User(3, "Bob Wilson", "bob@example.com", "Staff", "Active", "2024-03-19 16:45"),
    User(4, "Alice Brown", "alice@example.com", "Staff", "Inactive", "2024-03-15 14:20")
  ]

  /** The user `{ id, ...formData, lastActive }` that `handleAdd` creates. */
  function NewUser(us: seq<User>, form: UserForm, now: string): (u: User)
    ensures forall i :: 0 <= i < |us| ==> us[i].id < u.id
    ensures u.id >= 1 && KeyFree(us, UserId, u.id)
    ensures u.id == NextId(Keys(us, UserId))
  {
    var id := NextId(Keys(us, UserId));
    assert forall i :: 0 <= i < |us| ==> UserId(us[i]) == Keys(us, UserId)[i];
    User(id, form.name, form.email, form.role, form.status, now)
  }

  /** `{ ...user, ...formData, lastActive: user.lastActive }`: the form's fields, same id and stamp. */
  function EditedUser(u: User, form: UserForm): (r: User)
    ensures r.id == u.id && r.lastActive == u.lastActive
  {
    User(u.id, form.name, form.email, form.role, form.status, u.lastActive)
  }

  /** The search test: name or email contains the term, ignoring case. */
  function MatchesUser(term: string): User -> bool {
    (u: User) => MatchesTerm(u.name, term) || MatchesTerm(u.email, term)
  }

  /** `filteredUsers` */
  function FilteredUsers(us: seq<User>, term: string): (r: seq<User>)
    ensures |r| <= |us| && IsSubsequence(r, us)
    ensures forall u :: u in r <==> u in us && MatchesUser(term)(u)
  {
    Filter(us, MatchesUser(term))
  }

  /** An empty search shows every user. */
  lemma EmptySearchShowsAll(us: seq<User>)
    ensures FilteredUsers(us, "") == us
  {
    forall u | u in us ensures MatchesUser("")(u) {
      EmptyTermMatches(u.name);
    }
    FilterKeepsAll(us, MatchesUser(""));
  }

  /** The search ignores the case of the term. */
  lemma SearchIgnoresTermCase(us: seq<User>, term: string)
    ensures FilteredUsers(us, Upper(term)) == FilteredUsers(us, term)
  {
    LowerOfUpper(term);
    FilterAgree(us, MatchesUser(Upper(term)), MatchesUser(term));
  }

  /** `getRoleBadgeStyle`: Admin and Manager have their own colour; Staff and any other role are muted. */
  function RoleBadge(role: string): (b: Badge)
    ensures role == "Admin" <==> b == Purple
    ensures role == "Manager" <==> b == Blue
    ensures b == Purple || b == Blue || b == Muted
  {
    if role == "Admin" then Purple
    else if role == "Manager" then Blue
    else Muted
  }

  /** `getStatusBadgeStyle`: Active is green, Suspended destructive; Inactive and any other status are muted. */
  function StatusBadge(status: string): (b: Badge)
    ensures status == "Active" <==> b == Green
    ensures status == "Suspended" <==> b == Destructive
    ensures b == Green || b == Destructive || b == Muted
  {
    if status == "Active" then Green
    else if status == "Suspended" then Destructive
    else Muted
  }

  class UserList {
    var users: seq<User>

    /** User ids are unique. */
    ghost predicate Valid()
      reads this
    {
      DistinctKeys(users, UserId)
    }

    constructor()
      ensures Valid() && users == SampleUsers
    {
      users := SampleUsers;
    }

    /** `handleAdd`: the new user takes an id above every existing one and goes to the front. */
    method HandleAdd(form: UserForm, now: string) returns (id: int)
      requires Valid()
      modifies this
      ensures Valid()
      ensures id >= 1 && KeyFree(old(users), UserId, id)
      ensures id == NextId(Keys(old(users), UserId))
      ensures users == [NewUser(old(users), form, now)] + old(users)
      ensures users == [User(id, form.name, form.email, form.role, form.status, now)] + old(users)
    {
      var u := NewUser(users, form, now);
      DistinctPrepend(u, users, UserId);
      users := [u] + users;
      id := u.id;
    }

    /** `handleEdit`: without a selection nothing changes; otherwise only the selected entry is overwritten. */
    method HandleEdit(selected: Option<int>, form: UserForm)
      requires Valid()
      modifies this
      ensures Valid()
      ensures selected.None? ==> users == old(users)
      ensures |users| == |old(users)|
      ensures selected.Some? ==> forall i :: 0 <= i < |users| ==>
                users[i] == if old(users)[i].id == selected.value
                            then EditedUser(old(users)[i], form) else old(users)[i]
    {
      if selected.None? {
        return;
      }
      var current := users;
      var edited := seq(|current|, i requires 0 <= i < |current| =>
                          if current[i].id == selected.value then EditedUser(current[i], form)
                          else current[i]);
      assert forall i :: 0 <= i < |current| ==> UserId(edited[i]) == UserId(current[i]);
      users := edited;
    }

    /** `handleDelete`: after confirmation the entries with that id are gone, the others keep their order. */
    method HandleDelete(id: int, confirmed: bool)
      requires Valid()
      modifies this
      ensures Valid()
      ensures confirmed ==> users == RemoveKey(old(users), UserId, id)
      ensures !confirmed ==> users == old(users)
    {
      if confirmed {
        DistinctRemoveKey(users, UserId, id, UserId);
        users := RemoveKey(users, UserId, id);
      }
    }
  }
}
