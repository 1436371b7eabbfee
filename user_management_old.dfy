/** The earlier user management page (pages/UserManagement_old.tsx, its
    component up to the export): the same lists and dialogs as the current
    page, with a required-fields and password check on create instead of
    the company guard, a search that also looks at the cpf, and a role
    filter over every company role. */
module UserManagementOld {
  import opened Common
  import UserManagementNew

  type User = UserManagementNew.User
  type UserCreate = UserManagementNew.UserCreate
  type UserUpdate = UserManagementNew.UserUpdate
  type UserCompany = UserManagementNew.UserCompany
  type Loaded = UserManagementNew.Loaded

  const FieldsRequired: string := "Preencha todos os campos obrigatórios"
  const PasswordsDiffer: string := "As senhas não coincidem"
  const UserCreated: string := "Usuário criado com sucesso"
  const CreateFailed: string := "Erro ao criar usuário"

  // ---------------------------------------------------------------------------
  // Create checks

  /** The first check of `handleCreateUser` that fails, as its message: an
      empty (untrimmed) username, cpf, password or confirmation, then a
      confirmation that differs from the password. */
  function CreateCheck(f: UserCreate): (rejection: Option<string>)
    ensures rejection == Some(FieldsRequired) <==>
      f.username == "" || f.cpf == "" || f.password == "" || f.confirmPassword == ""
    ensures rejection == Some(PasswordsDiffer) <==>
      f.username != "" && f.cpf != "" && f.password != "" && f.confirmPassword != "" && f.password != f.confirmPassword
    ensures rejection.None? <==>
      f.username != "" && f.cpf != "" && f.password != "" && f.password == f.confirmPassword
  {
    if f.username == "" || f.cpf == "" || f.password == "" || f.confirmPassword == "" then Some(FieldsRequired)
    else if f.password != f.confirmPassword then Some(PasswordsDiffer)
    else None
  }

  /** The form after a successful create: empty, active, no company. */
  const ResetForm: UserCreate := UserManagementNew.BlankForm(None)

  /** The reset form is refused by the next create's first check, until the
      user fills it in again. */
  lemma ResetFormIsRefused()
    ensures CreateCheck(ResetForm) == Some(FieldsRequired)
    ensures ResetForm.isActive && ResetForm.companyId.None?
  {
  }

  // ---------------------------------------------------------------------------
  // Filtering

  /** Case-insensitive search on the username, the email, the first and the
      last name, and a case-sensitive one on the cpf. */
  predicate MatchesSearch(u: User, term: string) {
    var t := ToLower(term);
    || Contains(ToLower(u.username), t) || Contains(ToLower(u.email), t)
    || Contains(ToLower(u.firstName), t) || Contains(ToLower(u.lastName), t)
    || Contains(u.cpf, term)
  }

  /** Any company role may match. */
  predicate MatchesRole(u: User, filterRole: string) {
    filterRole == "all" || exists k :: 0 <= k < |u.companyRoles| && u.companyRoles[k] == filterRole
  }

  predicate Passes(u: User, term: string, filterRole: string, filterStatus: string) {
    MatchesSearch(u, term) && MatchesRole(u, filterRole) && UserManagementNew.MatchesStatus(u, filterStatus)
  }

  /** `filteredUsers`: the users passing all three filters, in list order. */
  function FilteredUsers(users: seq<User>, term: string, filterRole: string, filterStatus: string): (r: seq<User>)
    ensures IsSubsequence(r, users)
    ensures forall i :: 0 <= i < |r| ==> Passes(r[i], term, filterRole, filterStatus)
    ensures forall i :: 0 <= i < |users| && Passes(users[i], term, filterRole, filterStatus) ==> users[i] in r
  {
    var p := (u: User) => Passes(u, term, filterRole, filterStatus);
    FilterIsSubsequence(p, users);
    Filter(p, users)
  }

  /** A user the earlier page finds by first or last name is found by the
      current page's search on "first last". */
  lemma NameMatchCarriesOver(u: User, term: string)
    requires Contains(ToLower(u.firstName), ToLower(term)) || Contains(ToLower(u.lastName), ToLower(term))
    ensures UserManagementNew.MatchesSearch(u, term)
  {
    var t := ToLower(term);
    var first, space, last := ToLower(u.firstName), ToLower(" "), ToLower(u.lastName);
    ToLowerAppend(u.firstName, " ");
    ToLowerAppend(u.firstName + " ", u.lastName);
    assert ToLower(u.firstName + " " + u.lastName) == (first + space) + last;
    if Contains(first, t) {
      ContainsExtend(first, space, t);
      ContainsExtend(first + space, last, t);
    } else {
      ContainsExtend(last, first + space, t);
    }
  }

  /** A user the current role filter keeps for a role other than '' and
      'all' is kept by the earlier one: the first role is one of the
      roles. */
  lemma RoleMatchCarriesOver(u: User, filterRole: string)
    requires filterRole != "" && UserManagementNew.MatchesRole(u, filterRole)
    ensures MatchesRole(u, filterRole)
  {
    if filterRole != "all" {
      assert u.companyRoles[0] == filterRole;
    }
  }

  // ---------------------------------------------------------------------------
  // Statistics and badges

  predicate HasAdminRole(u: User) {
    exists k :: 0 <= k < |u.companyRoles| && u.companyRoles[k] == "company_admin"
  }

  /** The 'Administradores' card: users with a company_admin role in any
      company. */
  function AdminCount(users: seq<User>): (n: nat)
    ensures n == CountWhere(HasAdminRole, users) && n <= |users|
  {
    FilterLength(HasAdminRole, users);
    |Filter(HasAdminRole, users)|
  }

  /** The current page's card, which looks at the first role only, never
      shows more administrators than this one. */
  lemma AdminCardNeverBelowCurrent(users: seq<User>)
    ensures UserManagementNew.AdminCount(users) <= AdminCount(users)
  {
    forall i | 0 <= i < |users| ensures UserManagementNew.IsCompanyAdmin(users[i]) ==> HasAdminRole(users[i]) {
      if UserManagementNew.IsCompanyAdmin(users[i]) {
        assert users[i].companyRoles[0] == "company_admin";
      }
    }
    CountMonotone(UserManagementNew.IsCompanyAdmin, HasAdminRole, users);
  }

  datatype BadgeVariant = DefaultBadge | SecondaryBadge | OutlineBadge

  /** `getRoleBadgeVariant`. */
  function RoleBadgeVariant(role: string): (v: BadgeVariant)
    ensures v == DefaultBadge <==> role == "company_admin"
    ensures v == SecondaryBadge <==> role == "employee"
    ensures v == OutlineBadge <==> role != "company_admin" && role != "employee"
  {
    match role
    case "company_admin" => DefaultBadge
    case "employee" => SecondaryBadge
    case "client" => OutlineBadge
    case _ => OutlineBadge
  }

  /** `openEditDialog`'s copy of a user: no company role is filled in. */
  function EditForm(u: User): (f: UserUpdate)
    ensures f.email == u.email && f.firstName == u.firstName && f.lastName == u.lastName && f.cpf == u.cpf
    ensures f.isActive == u.isActive && f.companyRole.None?
  {
    UserManagementNew.UserUpdate(u.firstName, u.lastName, u.email, u.cpf, None, u.isActive)
  }

  /** The two pages fill the edit form alike except for the role, which only
      the current page fills in. */
  lemma EditFormsDifferOnlyInRole(u: User)
    ensures EditForm(u) == UserManagementNew.EditForm(u).(companyRole := None)
  {
  }

  // ---------------------------------------------------------------------------
  // Page state

  class UserManagementPage {
    var users: seq<User>
    var companies: seq<UserCompany>
    var loading: bool
    var createForm: UserCreate
    var isCreateDialogOpen: bool
    var editingUser: Option<User>
    var updateForm: Option<UserUpdate>
    var isEditDialogOpen: bool
    var toasts: seq<Toast>
    /** The forms sent to `createUser`, in order. */
    var createCalls: seq<UserCreate>

    constructor()
      ensures users == [] && companies == [] && loading
      ensures createForm == UserManagementNew.InitialForm && !isCreateDialogOpen
      ensures editingUser.None? && updateForm.None? && !isEditDialogOpen
      ensures toasts == [] && createCalls == []
    {
      users, companies, loading := [], [], true;
      createForm, isCreateDialogOpen := UserManagementNew.InitialForm, false;
      editingUser, updateForm, isEditDialogOpen := None, None, false;
      toasts, createCalls := [], [];
    }

    /** `loadData`, as on the current page. */
    method LoadData(response: Result<Loaded, Thrown>)
      modifies `users, `companies, `loading, `toasts
      ensures response.Success? ==>
        && users == UserManagementNew.LoadedUsers(response.value)
        && companies == UserManagementNew.LoadedCompanies(response.value)
        && toasts == old(toasts)
      ensures response.Failure? ==>
        users == old(users) && companies == old(companies)
        && toasts == old(toasts) + [ErrorToast(UserManagementNew.LoadFailed)]
      ensures !loading
    {
      loading := true;
      if response.Success? {
        users := UserManagementNew.LoadedUsers(response.value);
        companies := UserManagementNew.LoadedCompanies(response.value);
      } else {
        toasts := toasts + [ErrorToast(UserManagementNew.LoadFailed)];
      }
      loading := false;
    }

    /** The effect that fills in the first company once the companies are
        loaded, as on the current page. */
    method PresetCompany()
      modifies `createForm
      ensures companies != [] && UserManagementNew.IsFalsyId(old(createForm.companyId)) ==>
        createForm == old(createForm).(companyId := Some(companies[0].id))
      ensures !(companies != [] && UserManagementNew.IsFalsyId(old(createForm.companyId))) ==>
        createForm == old(createForm)
    {
      if |companies| > 0 && UserManagementNew.IsFalsyId(createForm.companyId) {
        createForm := createForm.(companyId := Some(companies[0].id));
      }
    }

    /** The guard chain of `handleCreateUser`. */
    method CheckCreate(f: UserCreate) returns (rejection: Option<string>)
      ensures rejection == CreateCheck(f)
    {
      if f.username == "" || f.cpf == "" || f.password == "" || f.confirmPassword == "" {
        return Some(FieldsRequired);
      }
      if f.password != f.confirmPassword {
        return Some(PasswordsDiffer);
      }
      return None;
    }

    /** `handleCreateUser`: a form the checks refuse shows the first
        failing check's message and makes no call. Otherwise the form is
        sent (`failure` is the outcome); on success the success toast comes
        first, then the form is reset with no company, the dialog closes and
        the data is reloaded (`reload`); on failure the error's message, or
        a fixed text, is shown and nothing else changes. */
    method HandleCreateUser(failure: Option<Thrown>, reload: Result<Loaded, Thrown>)
      modifies `users, `companies, `loading, `toasts, `createForm, `isCreateDialogOpen, `createCalls
      ensures old(CreateCheck(createForm)).Some? ==>
        && toasts == old(toasts) + [ErrorToast(old(CreateCheck(createForm)).value)]
        && createCalls == old(createCalls) && createForm == old(createForm)
        && isCreateDialogOpen == old(isCreateDialogOpen)
        && users == old(users) && companies == old(companies) && loading == old(loading)
      ensures old(CreateCheck(createForm)).None? ==> createCalls == old(createCalls) + [old(createForm)]
      ensures old(CreateCheck(createForm)).None? && failure.Some? ==>
        && toasts == old(toasts) + [ErrorToast(MessageOr(failure.value, CreateFailed))]
        && createForm == old(createForm) && isCreateDialogOpen == old(isCreateDialogOpen)
        && users == old(users) && companies == old(companies) && loading == old(loading)
      ensures old(CreateCheck(createForm)).None? && failure.None? ==>
        && createForm == ResetForm && !isCreateDialogOpen && !loading
        && (reload.Success? ==>
              && users == UserManagementNew.LoadedUsers(reload.value)
              && companies == UserManagementNew.LoadedCompanies(reload.value)
              && toasts == old(toasts) + [SuccessToast(UserCreated)])
        && (reload.Failure? ==>
              && users == old(users) && companies == old(companies)
              && toasts == old(toasts) + [SuccessToast(UserCreated), ErrorToast(UserManagementNew.LoadFailed)])
    {
      var form := createForm;
      var rejection := CheckCreate(form);
      if rejection.Some? {
        toasts := toasts + [ErrorToast(rejection.value)];
        return;
      }
      createCalls := createCalls + [form];
      if failure.Some? {
        toasts := toasts + [ErrorToast(MessageOr(failure.value, CreateFailed))];
        return;
      }
      toasts := toasts + [SuccessToast(UserCreated)];
      createForm := ResetForm;
      isCreateDialogOpen := false;
      LoadData(reload);
    }

    /** `openEditDialog`. */
    method OpenEditDialog(u: User)
      modifies `editingUser, `updateForm, `isEditDialogOpen
      ensures editingUser == Some(u) && updateForm == Some(EditForm(u)) && isEditDialogOpen
    {
      editingUser := Some(u);
      updateForm := Some(EditForm(u));
      isEditDialogOpen := true;
    }
  }
}
