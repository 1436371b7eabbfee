/** The administration page (pages/Administration.tsx): a list of local
    users held in page state, with an add dialog and removal. Nothing here
    reaches the backend; the new user's id, `Date.now()` in the page, is a
    parameter. The same user list and handlers appear on the index page. */
module Administration {
  import opened Common

  datatype LocalRole = Administrator | Reader | Contributor

  datatype LocalStatus = Active | Inactive

  datatype LocalUser = LocalUser(id: string, name: string, email: string, role: LocalRole,
                                 status: LocalStatus, lastAccess: string)

  /** The add dialog's fields. */
  datatype NewUserForm = NewUserForm(name: string, email: string, role: LocalRole)

  const NameAndEmailRequired: string := "Nome e email são obrigatórios"
  const UserAdded: string := "Usuário adicionado com sucesso!"
  const UserRemoved: string := "Usuário removido com sucesso!"

  /** The dialog as first shown and after every add. */
  const EmptyUserForm: NewUserForm := NewUserForm("", "", Reader)

  /** The three users the page starts with. */
  const InitialUsers: seq<LocalUser> := [
    LocalUser("1", "João Silva", "joao@empresa.com", Administrator, Active, "2024-03-15 14:30"),
    LocalUser("2", "Maria Santos", "maria@empresa.com", Reader, Active, "2024-03-14 09:15"),
    LocalUser("3", "Pedro Costa", "pedro@empresa.com", Contributor, Inactive, "2024-03-10 16:45")
  ]

  /** `handleAddUser`'s guard: a name or an email that is all whitespace
      refuses the add. */
  predicate AddRefused(f: NewUserForm) {
    IsBlank(f.name) || IsBlank(f.email)
  }

  /** The guard as the page writes it, `!name.trim() || !email.trim()`,
      refuses exactly the forms AddRefused describes. */
  lemma AddRefusedIsTrimCheck(f: NewUserForm)
    ensures AddRefused(f) <==> Trim(f.name) == "" || Trim(f.email) == ""
  {
    TrimEmptyIffBlank(f.name);
    TrimEmptyIffBlank(f.email);
  }

  /** The guard, evaluated the way the page does. */
  method CheckNewUser(f: NewUserForm) returns (refused: bool)
    ensures refused == AddRefused(f)
  {
    AddRefusedIsTrimCheck(f);
    refused := Trim(f.name) == "" || Trim(f.email) == "";
  }

  /** The user an accepted form creates. */
  function NewUser(f: NewUserForm, id: string): (u: LocalUser)
    ensures u.name == f.name && u.email == f.email && u.role == f.role
    ensures u.status == Active && u.lastAccess == "-" && u.id == id
  {
    LocalUser(id, f.name, f.email, f.role, Active, "-")
  }

  predicate OtherId(id: string, u: LocalUser) {
    u.id != id
  }

  /** `handleRemoveUser`: the users with the id are dropped, the others kept
      in order. */
  function RemoveUser(users: seq<LocalUser>, id: string): (r: seq<LocalUser>)
    ensures forall i :: 0 <= i < |r| ==> r[i].id != id && r[i] in users
    ensures forall i :: 0 <= i < |users| && users[i].id != id ==> users[i] in r
  {
    Filter(u => OtherId(id, u), users)
  }

  /** Removing keeps the order of the rest, removes exactly the users with
      the id, and a second removal of the same id changes nothing. */
  lemma {:induction false} RemoveUserFacts(users: seq<LocalUser>, id: string)
    ensures IsSubsequence(RemoveUser(users, id), users)
    ensures |RemoveUser(users, id)| == |users| - CountWhere((u: LocalUser) => u.id == id, users)
    ensures RemoveUser(RemoveUser(users, id), id) == RemoveUser(users, id)
  {
    var p := (u: LocalUser) => OtherId(id, u);
    FilterIsSubsequence(p, users);
    FilterLength(p, users);
    CountSplit(p, (u: LocalUser) => u.id == id, users);
    FilterKeepsAll(p, RemoveUser(users, id));
  }

  /** The emptied dialog is refused until it is filled in again. */
  lemma EmptyFormIsRefused()
    ensures AddRefused(EmptyUserForm)
  {
  }

  /** Adding and then removing the new user's id gives back the list, when
      no user had that id. */
  lemma {:induction false} AddThenRemove(users: seq<LocalUser>, f: NewUserForm, id: string)
    requires forall i :: 0 <= i < |users| ==> users[i].id != id
    ensures RemoveUser(users + [NewUser(f, id)], id) == users
  {
    var p := (u: LocalUser) => OtherId(id, u);
    FilterAppend(p, users, [NewUser(f, id)]);
    FilterKeepsAll(p, users);
    assert Filter(p, [NewUser(f, id)]) == [];
  }

  class AdministrationPage {
    var users: seq<LocalUser>
    var newUser: NewUserForm
    var isDialogOpen: bool
    var toasts: seq<Toast>

    constructor()
      ensures users == InitialUsers && newUser == EmptyUserForm && !isDialogOpen && toasts == []
    {
      users := InitialUsers;
      newUser := EmptyUserForm;
      isDialogOpen := false;
      toasts := [];
    }

    /** `handleAddUser`: a refused form shows the required-fields error and
        changes nothing else; an accepted one appends the new user (with
        `id`), resets the dialog, closes it and announces the add. */
    method HandleAddUser(id: string)
      modifies this
      ensures old(AddRefused(newUser)) ==>
        && toasts == old(toasts) + [ErrorToast(NameAndEmailRequired)]
        && users == old(users) && newUser == old(newUser) && isDialogOpen == old(isDialogOpen)
      ensures !old(AddRefused(newUser)) ==>
        && users == old(users) + [NewUser(old(newUser), id)]
        && newUser == EmptyUserForm && !isDialogOpen
        && toasts == old(toasts) + [SuccessToast(UserAdded)]
    {
      var form := newUser;
      var refused := CheckNewUser(form);
      if refused {
        toasts := toasts + [ErrorToast(NameAndEmailRequired)];
        return;
      }
      users := users + [NewUser(form, id)];
      newUser := EmptyUserForm;
      isDialogOpen := false;
      toasts := toasts + [SuccessToast(UserAdded)];
    }

    /** `handleRemoveUser`. */
    method HandleRemoveUser(id: string)
      modifies `users, `toasts
      ensures users == RemoveUser(old(users), id)
      ensures toasts == old(toasts) + [SuccessToast(UserRemoved)]
    {
      users := RemoveUser(users, id);
      toasts := toasts + [SuccessToast(UserRemoved)];
    }
  }
}
