/**
 * The admin's user management modal: a list of users held as component
 * state, an add form that appends a user built from its four fields and
 * then resets, and deletion by id.
 */
module UserManagement {
  import opened Types
  import opened Seqs

  /** The add form's fields. */
  datatype NewUserForm = NewUserForm(name: string, email: string, role: Role, department: string)

  /** The form's initial and reset state: empty strings and the `user` role. */
  const EmptyForm: NewUserForm := NewUserForm("", "", UserRole, "")

  /** `{ id, ...newUser }`. */
  function BuildUser(id: Id, form: NewUserForm): (u: User)
    ensures u.id == id && u.name == form.name && u.email == form.email
    ensures u.role == form.role && u.department == form.department
  {
    User(id, form.name, form.email, form.role, form.department)
  }

  /** The test `user.id !== id`. */
  function UserNotId(id: Id): User -> bool
  {
    (u: User) => u.id != id
  }

  /** `users.filter(user => user.id !== id)`. */
  function RemoveUser(users: seq<User>, id: Id): (r: seq<User>)
    ensures forall u :: u in r <==> u in users && u.id != id
    ensures IsSubsequence(r, users)
  {
    FilterIsSubsequence(users, UserNotId(id));
    Filter(users, UserNotId(id))
  }

  /** Deleting a freshly added user, whose id nobody else has, restores the list. */
  lemma {:induction false} DeleteUndoesAdd(users: seq<User>, id: Id, form: NewUserForm)
    requires forall i :: 0 <= i < |users| ==> users[i].id != id
    ensures RemoveUser(users + [BuildUser(id, form)], id) == users
  {
    FilterAppend(users, [BuildUser(id, form)], UserNotId(id));
    FilterKeepsAll(users, UserNotId(id));
    FilterDropsAll([BuildUser(id, form)], UserNotId(id));
  }

  class UserManagement {
    var users: seq<User>
    var newUser: NewUserForm
    var showAddForm: bool

    /** The modal as it opens: the initial users, an empty form, the form hidden. */
    constructor (initial: seq<User>)
      ensures users == initial && newUser == EmptyForm && !showAddForm
    {
      users := initial;
      newUser := EmptyForm;
      showAddForm := false;
    }

    /** The "Add User" button. */
    method OpenAddForm()
      modifies this
      ensures showAddForm && users == old(users) && newUser == old(newUser)
    {
      showAddForm := true;
    }

    /** Typing in the form or picking a role; the inputs exist only while the form is shown. */
    method EditForm(form: NewUserForm)
      modifies this
      ensures newUser == (if old(showAddForm) then form else old(newUser))
      ensures users == old(users) && showAddForm == old(showAddForm)
    {
      if showAddForm {
        newUser := form;
      }
    }

    /** The form's Cancel button: hides the form and keeps what was typed. */
    method ClickCancelAdd()
      modifies this
      ensures !showAddForm && users == old(users) && newUser == old(newUser)
    {
      showAddForm := false;
    }

    /**
     * `handleAddUser`, the form's submit: appends one user built from the
     * form under the given id, then resets the form and hides it. Without
     * the form shown there is no submit, and nothing changes.
     */
    method HandleAddUser(freshId: Id)
      modifies this
      ensures old(showAddForm) ==> users == old(users) + [BuildUser(freshId, old(newUser))]
      ensures old(showAddForm) ==> newUser == EmptyForm && !showAddForm
      ensures !old(showAddForm) ==> users == old(users) && newUser == old(newUser) && !showAddForm
    {
      if showAddForm {
        users := users + [BuildUser(freshId, newUser)];
        newUser := EmptyForm;
        showAddForm := false;
      }
    }

    /** `handleDeleteUser(id)`. */
    method HandleDeleteUser(id: Id)
      modifies this
      ensures users == RemoveUser(old(users), id)
      ensures newUser == old(newUser) && showAddForm == old(showAddForm)
    {
      users := RemoveUser(users, id);
    }
  }
}
