/** The general configuration page (pages/Index.tsx): the local user list of
    the administration page with its counts, and a company dialog that saves
    through the company context and, unlike the company selection page,
    closes and resets whether or not the save succeeded. */
module IndexPage {
  import opened Common
  import opened Auth
  import opened Companies
  import opened CompanySelection
  import opened Administration

  /** The two users the page starts with. */
  const IndexInitialUsers: seq<LocalUser> := [
    LocalUser("1", "João Silva", "joao@empresa.com", Administrator, Active, "2024-03-15 14:30"),
    LocalUser("2", "Maria Santos", "maria@empresa.com", Reader, Active, "2024-03-14 09:15")
  ]

  predicate IsActiveUser(u: LocalUser) {
    u.status == Active
  }

  predicate IsAdministrator(u: LocalUser) {
    u.role == Administrator
  }

  /** The 'Usuários Ativos' card. */
  function ActiveUserCount(users: seq<LocalUser>): (n: nat)
    ensures n == CountWhere(IsActiveUser, users) && n <= |users|
  {
    FilterLength(IsActiveUser, users);
    |Filter(IsActiveUser, users)|
  }

  /** The 'Administradores' card. */
  function AdministratorCount(users: seq<LocalUser>): (n: nat)
    ensures n == CountWhere(IsAdministrator, users) && n <= |users|
  {
    FilterLength(IsAdministrator, users);
    |Filter(IsAdministrator, users)|
  }

  lemma {:induction false} CountAppend(p: LocalUser -> bool, users: seq<LocalUser>, u: LocalUser)
    ensures CountWhere(p, users + [u]) == CountWhere(p, users) + (if p(u) then 1 else 0)
  {
    if users == [] {
      assert users + [u] == [u];
    } else {
      assert (users + [u])[1..] == users[1..] + [u];
      CountAppend(p, users[1..], u);
    }
  }

  /** An added user is active, so the active card grows by one; the
      administrators card grows by one exactly when the form's role is
      administrator. */
  lemma AddUserCounts(users: seq<LocalUser>, f: NewUserForm, id: string)
    ensures ActiveUserCount(users + [NewUser(f, id)]) == ActiveUserCount(users) + 1
    ensures AdministratorCount(users + [NewUser(f, id)]) ==
      AdministratorCount(users) + (if f.role == Administrator then 1 else 0)
  {
    CountAppend(IsActiveUser, users, NewUser(f, id));
    CountAppend(IsAdministrator, users, NewUser(f, id));
  }

  lemma {:induction false} RemoveCountsAtMost(p: LocalUser -> bool, users: seq<LocalUser>, id: string)
    ensures CountWhere(p, RemoveUser(users, id)) <= CountWhere(p, users)
  {
    if users != [] {
      RemoveCountsAtMost(p, users[1..], id);
      var q := (u: LocalUser) => Administration.OtherId(id, u);
      var head: seq<LocalUser> := if q(users[0]) then [users[0]] else [];
      assert RemoveUser(users, id) == head + RemoveUser(users[1..], id);
      FilterAppend(p, head, RemoveUser(users[1..], id));
      FilterLength(p, head + RemoveUser(users[1..], id));
      FilterLength(p, RemoveUser(users[1..], id));
    }
  }

  /** Removing users never raises either card. */
  lemma RemoveUserCounts(users: seq<LocalUser>, id: string)
    ensures ActiveUserCount(RemoveUser(users, id)) <= ActiveUserCount(users)
    ensures AdministratorCount(RemoveUser(users, id)) <= AdministratorCount(users)
  {
    RemoveCountsAtMost(IsActiveUser, users, id);
    RemoveCountsAtMost(IsAdministrator, users, id);
  }

  /** The page opens with two active users, one of them an administrator. */
  lemma InitialCounts()
    ensures ActiveUserCount(IndexInitialUsers) == 2 && AdministratorCount(IndexInitialUsers) == 1
  {
    assert CountWhere(IsActiveUser, IndexInitialUsers[1..]) == 1;
    assert CountWhere(IsAdministrator, IndexInitialUsers[1..]) == 0;
  }

  class ConfigurationPage {
    const context: CompanyProvider
    var users: seq<LocalUser>
    var newUser: NewUserForm
    var isUserDialogOpen: bool
    var isCompanyDialogOpen: bool
    var editingCompany: Option<Company>
    var newCompany: CompanyForm
    var toasts: seq<Toast>

    constructor(context: CompanyProvider)
      ensures this.context == context
      ensures users == IndexInitialUsers && newUser == EmptyUserForm && !isUserDialogOpen
      ensures !isCompanyDialogOpen && editingCompany.None? && newCompany == EmptyForm && toasts == []
    {
      this.context := context;
      users := IndexInitialUsers;
      newUser := EmptyUserForm;
      isUserDialogOpen, isCompanyDialogOpen := false, false;
      editingCompany := None;
      newCompany := EmptyForm;
      toasts := [];
    }

    /** `handleAddUser`, as on the administration page. */
    method HandleAddUser(id: string)
      modifies `users, `newUser, `isUserDialogOpen, `toasts
      ensures old(AddRefused(newUser)) ==>
        && toasts == old(toasts) + [ErrorToast(NameAndEmailRequired)]
        && users == old(users) && newUser == old(newUser) && isUserDialogOpen == old(isUserDialogOpen)
      ensures !old(AddRefused(newUser)) ==>
        && users == old(users) + [NewUser(old(newUser), id)]
        && newUser == EmptyUserForm && !isUserDialogOpen
        && toasts == old(toasts) + [SuccessToast(UserAdded)]
    {
      var form := newUser;
      var refused := CheckNewUser(form);
      if refused {
        toasts := toasts + [ErrorToast(NameAndEmailRequired)];
        return;
      }
      users := users + [NewUser(form, id)];
      newUser := EmptyUserForm;
      isUserDialogOpen := false;
      toasts := toasts + [SuccessToast(UserAdded)];
    }

    /** `handleRemoveUser`. */
    method HandleRemoveUser(id: string)
      modifies `users, `toasts
      ensures users == RemoveUser(old(users), id)
      ensures toasts == old(toasts) + [SuccessToast(UserRemoved)]
    {
      users := RemoveUser(users, id);
      toasts := toasts + [SuccessToast(UserRemoved)];
    }

    /** `handleEditCompany`. */
    method HandleEditCompany(company: Company)
      modifies `editingCompany, `newCompany, `isCompanyDialogOpen
      ensures editingCompany == Some(company) && newCompany == EditForm(company) && isCompanyDialogOpen
    {
      editingCompany := Some(company);
      newCompany := EditForm(company);
      isCompanyDialogOpen := true;
    }

    /** `handleRemoveCompany`: the context's error is swallowed. */
    method HandleRemoveCompany(id: int, failure: Option<Thrown>)
      modifies context
      ensures context.RemovedSince(id, failure)
    {
      var _ := context.RemoveCompany(id, failure);
    }

    /** `handleAddCompany`: a blank name is refused with no call and the
        dialog kept. Otherwise the context updates the edited company (edit
        mode ending only when that succeeds) or creates one, and then the
        form is reset and the dialog closed, whether the save succeeded or
        failed. The context's own toasts report the outcome. */
    method HandleAddCompany(profile: Result<Profile, Thrown>, created: Result<MicroCompany, Thrown>,
                            updated: Result<MicroCompany, Thrown>)
      modifies `toasts, `editingCompany, `newCompany, `isCompanyDialogOpen, context
      ensures IsBlank(old(newCompany.name)) ==>
        && toasts == old(toasts) + [ErrorToast(NameRequired)] && unchanged(context)
        && newCompany == old(newCompany) && editingCompany == old(editingCompany)
        && isCompanyDialogOpen == old(isCompanyDialogOpen)
      ensures !IsBlank(old(newCompany.name)) ==>
        toasts == old(toasts) && newCompany == EmptyForm && !isCompanyDialogOpen
      ensures !IsBlank(old(newCompany.name)) && old(editingCompany).Some? ==>
        && context.UpdatedSince(old(editingCompany).value.id, SubmittedForm(old(newCompany)), updated)
        && (updated.Success? ==> editingCompany.None?)
        && (updated.Failure? ==> editingCompany == old(editingCompany))
      ensures !IsBlank(old(newCompany.name)) && old(editingCompany).None? ==>
        && context.AddedSince(SubmittedForm(old(newCompany)), profile, created)
        && editingCompany.None?
    {
      var form := newCompany;
      var blank := CheckName(form.name);
      if blank {
        toasts := toasts + [ErrorToast(NameRequired)];
        return;
      }
      var _ := Save(SubmittedForm(form), profile, created, updated);
      newCompany := EmptyForm;
      isCompanyDialogOpen := false;
    }

    /** The save itself: in edit mode the context updates the edited company
        and, on success, edit mode ends; otherwise the context creates one.
        `error` is what the context passed on. */
    method Save(fields: FormData, profile: Result<Profile, Thrown>, created: Result<MicroCompany, Thrown>,
                updated: Result<MicroCompany, Thrown>) returns (error: Option<Thrown>)
      modifies `editingCompany, context
      ensures old(editingCompany).Some? ==>
        && context.UpdatedSince(old(editingCompany).value.id, fields, updated)
        && (updated.Success? ==> error.None? && editingCompany.None?)
        && (updated.Failure? ==> error.Some? && editingCompany == old(editingCompany))
      ensures old(editingCompany).None? ==>
        && context.AddedSince(fields, profile, created)
        && editingCompany.None?
        && (error.None? <==> profile.Success? && created.Success?)
    {
      if editingCompany.Some? {
        error := context.UpdateCompany(editingCompany.value.id, fields, updated);
        if error.None? {
          editingCompany := None;
        }
      } else {
        error := context.AddCompany(fields, profile, created);
      }
    }
  }
}
