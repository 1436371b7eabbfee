/** The current user management page (pages/UserManagement_new.tsx): the
    users and companies of the signed-in user's company, a filtered view of
    the users, the create dialog with its company guard and the edit dialog.
    Every backend call is an outcome parameter. */
module UserManagementNew {
  import opened Common

  /** A user as the list endpoint returns it; `companyRoles` holds the role
      of each company membership, in the order the backend sends them. */
  datatype User = User(id: int, username: string, email: string, firstName: string, lastName: string,
                       cpf: string, isActive: bool, companyRoles: seq<string>)

  /** A company the signed-in user belongs to; only its id is used. */
  datatype UserCompany = UserCompany(id: int, name: string)

  /** The create dialog's fields, sent as they are to `createUser`. */
  datatype UserCreate = UserCreate(username: string, email: string, firstName: string, lastName: string,
                                   cpf: string, password: string, confirmPassword: string,
                                   companyRole: string, companyId: Option<int>, isActive: bool)

  /** The edit dialog's fields; `companyRole` is absent when the page does
      not fill it in. */
  datatype UserUpdate = UserUpdate(firstName: string, lastName: string, email: string, cpf: string,
                                   companyRole: Option<string>, isActive: bool)

  /** What `loadData` receives from its two parallel calls: the `results` of
      each answer, which may be absent. */
  datatype Loaded = Loaded(users: Option<seq<User>>, companies: Option<seq<UserCompany>>)

  /** `usersResponse.results || []` */
  function LoadedUsers(l: Loaded): seq<User> {
    if l.users.Some? then l.users.value else []
  }

  /** `companiesResponse.results || []` */
  function LoadedCompanies(l: Loaded): seq<UserCompany> {
    if l.companies.Some? then l.companies.value else []
  }

  const CompanyRequired: string := "Empresa é obrigatória"
  const UserCreated: string := "Usuário criado com sucesso"
  const CreateFailed: string := "Erro ao criar usuário"
  const LoadFailed: string := "Erro ao carregar dados dos usuários"

  /** The three roles the dialogs offer, with their labels. */
  const RoleOptions: seq<(string, string)> := [
    ("company_admin", "Administrador da Empresa"),
    ("employee", "Funcionário"),
    ("client", "Cliente")
  ]

  /** `user.company_roles?.[0]?.role || ''`. */
  function FirstRole(u: User): string {
    if u.companyRoles != [] then u.companyRoles[0] else ""
  }

  /** `!createForm.company_id`: absent, or the falsy id 0. */
  predicate IsFalsyId(id: Option<int>) {
    id.None? || id.value == 0
  }

  // ---------------------------------------------------------------------------
  // Filtering

  /** Case-insensitive substring search on the username, the email and
      "first last". */
  predicate MatchesSearch(u: User, term: string) {
    var t := ToLower(term);
    Contains(ToLower(u.username), t) || Contains(ToLower(u.email), t)
    || Contains(ToLower(u.firstName + " " + u.lastName), t)
  }

  /** Only the first company role is compared. */
  predicate MatchesRole(u: User, filterRole: string) {
    filterRole == "all" || FirstRole(u) == filterRole
  }

  predicate MatchesStatus(u: User, filterStatus: string) {
    filterStatus == "all" || (filterStatus == "active" && u.isActive) || (filterStatus == "inactive" && !u.isActive)
  }

  predicate Passes(u: User, term: string, filterRole: string, filterStatus: string) {
    MatchesSearch(u, term) && MatchesRole(u, filterRole) && MatchesStatus(u, filterStatus)
  }

  /** `filteredUsers`: the users passing all three filters, in list order. */
  function FilteredUsers(users: seq<User>, term: string, filterRole: string, filterStatus: string): (r: seq<User>)
    ensures IsSubsequence(r, users)
    ensures forall i :: 0 <= i < |r| ==> Passes(r[i], term, filterRole, filterStatus)
    ensures forall i :: 0 <= i < |users| && Passes(users[i], term, filterRole, filterStatus) ==> users[i] in r
  {
    var p := (u: User) => Passes(u, term, filterRole, filterStatus);
    FilterIsSubsequence(p, users);
    Filter(p, users)
  }

  /** An empty search term matches every user. */
  lemma EmptySearchMatchesAll(u: User)
    ensures MatchesSearch(u, "")
  {
    assert ToLower("") == "";
    ContainsEmpty(ToLower(u.username));
  }

  /** With an empty search and both selects on 'all', the page lists every
      user. */
  lemma NoFilterKeepsAll(users: seq<User>)
    ensures FilteredUsers(users, "", "all", "all") == users
  {
    forall i | 0 <= i < |users| ensures Passes(users[i], "", "all", "all") {
      EmptySearchMatchesAll(users[i]);
    }
    FilterKeepsAll((u: User) => Passes(u, "", "all", "all"), users);
  }

  // ---------------------------------------------------------------------------
  // Statistics cards

  predicate IsActive(u: User) {
    u.isActive
  }

  predicate IsInactive(u: User) {
    !u.isActive
  }

  predicate IsCompanyAdmin(u: User) {
    FirstRole(u) == "company_admin"
  }

  /** The 'Usuários Ativos' card. */
  function ActiveCount(users: seq<User>): (n: nat)
    ensures n == CountWhere(IsActive, users) && n <= |users|
  {
    FilterLength(IsActive, users);
    |Filter(IsActive, users)|
  }

  /** The 'Usuários Inativos' card. */
  function InactiveCount(users: seq<User>): (n: nat)
    ensures n == CountWhere(IsInactive, users) && n <= |users|
  {
    FilterLength(IsInactive, users);
    |Filter(IsInactive, users)|
  }

  /** The 'Administradores' card: users whose first role is company_admin. */
  function AdminCount(users: seq<User>): (n: nat)
    ensures n == CountWhere(IsCompanyAdmin, users) && n <= |users|
  {
    FilterLength(IsCompanyAdmin, users);
    |Filter(IsCompanyAdmin, users)|
  }

  /** The active and inactive cards add up to the total card. */
  lemma StatusCountsAddUp(users: seq<User>)
    ensures ActiveCount(users) + InactiveCount(users) == |users|
  {
    CountSplit(IsActive, IsInactive, users);
  }

  /** Two tests that agree on every element count the same elements. */
  lemma CountAgrees(p: User -> bool, q: User -> bool, users: seq<User>)
    requires forall i :: 0 <= i < |users| ==> p(users[i]) == q(users[i])
    ensures CountWhere(p, users) == CountWhere(q, users)
  {
    CountMonotone(p, q, users);
    CountMonotone(q, p, users);
  }

  /** The status select on 'active' (empty search, all roles) lists as many
      users as the active card shows. */
  lemma ActiveFilterMatchesCard(users: seq<User>)
    ensures |FilteredUsers(users, "", "all", "active")| == ActiveCount(users)
  {
    var p := (u: User) => Passes(u, "", "all", "active");
    forall i | 0 <= i < |users| ensures p(users[i]) == IsActive(users[i]) {
      EmptySearchMatchesAll(users[i]);
    }
    FilterLength(p, users);
    CountAgrees(p, IsActive, users);
  }

  /** The role select on company_admin (empty search, all statuses) lists as
      many users as the administrators card shows: both look at the first
      role only. */
  lemma AdminFilterMatchesCard(users: seq<User>)
    ensures |FilteredUsers(users, "", "company_admin", "all")| == AdminCount(users)
  {
    var p := (u: User) => Passes(u, "", "company_admin", "all");
    forall i | 0 <= i < |users| ensures p(users[i]) == IsCompanyAdmin(users[i]) {
      EmptySearchMatchesAll(users[i]);
    }
    FilterLength(p, users);
    CountAgrees(p, IsCompanyAdmin, users);
  }

  // ---------------------------------------------------------------------------
  // Labels and forms

  /** `getUserRoleLabel`: the three known roles get their labels, any other
      value is shown as it is. */
  function RoleLabel(role: string): (text: string)
    ensures role == "company_admin" ==> text == "Administrador da Empresa"
    ensures role == "employee" ==> text == "Funcionário"
    ensures role == "client" ==> text == "Cliente"
    ensures role != "company_admin" && role != "employee" && role != "client" ==> text == role
  {
    match role
    case "company_admin" => "Administrador da Empresa"
    case "employee" => "Funcionário"
    case "client" => "Cliente"
    case _ => role
  }

  /** The label of every role the dialogs offer is the label shown beside
      it in the select. */
  lemma RoleLabelAgreesWithOptions()
    ensures forall i :: 0 <= i < |RoleOptions| ==> RoleLabel(RoleOptions[i].0) == RoleOptions[i].1
  {
  }

  /** `openEditDialog`'s copy of a user into the edit form. */
  function EditForm(u: User): (f: UserUpdate)
    ensures f.firstName == u.firstName && f.lastName == u.lastName && f.email == u.email && f.cpf == u.cpf
    ensures f.isActive == u.isActive
    ensures f.companyRole.Some?
    ensures u.companyRoles == [] ==> f.companyRole.value == ""
    ensures u.companyRoles != [] ==> f.companyRole.value == u.companyRoles[0]
  {
    UserUpdate(u.firstName, u.lastName, u.email, u.cpf, Some(FirstRole(u)), u.isActive)
  }

  /** The role the edit dialog starts from is the one the role filter and
      the administrators card see. */
  lemma EditFormRoleIsFilteredRole(u: User)
    ensures MatchesRole(u, EditForm(u).companyRole.value)
    ensures IsCompanyAdmin(u) <==> EditForm(u).companyRole == Some("company_admin")
  {
  }

  /** The empty create form with the company set to `companyId`. */
  function BlankForm(companyId: Option<int>): UserCreate {
    UserCreate("", "", "", "", "", "", "", "", companyId, true)
  }

  /** The create form as first shown. */
  const InitialForm: UserCreate := BlankForm(None)

  /** `companies[0]?.id || undefined`. */
  function FirstCompanyId(companies: seq<UserCompany>): (id: Option<int>)
    ensures id.Some? <==> companies != [] && companies[0].id != 0
    ensures id.Some? ==> id.value == companies[0].id
  {
    if companies != [] && companies[0].id != 0 then Some(companies[0].id) else None
  }

  /** The form after a successful create: empty fields, active, and the
      first company's id. */
  function ResetForm(companies: seq<UserCompany>): (f: UserCreate)
    ensures f == BlankForm(FirstCompanyId(companies))
  {
    BlankForm(FirstCompanyId(companies))
  }

  /** The reset form passes the company guard of the next create exactly
      when the user has a first company with a truthy id. */
  lemma ResetFormPassesGuard(companies: seq<UserCompany>)
    ensures !IsFalsyId(ResetForm(companies).companyId) <==> companies != [] && companies[0].id != 0
  {
  }

  // ---------------------------------------------------------------------------
  // Page state

  class UserManagementPage {
    var users: seq<User>
    var companies: seq<UserCompany>
    var loading: bool
    var createForm: UserCreate
    var isCreateDialogOpen: bool
    var editingUser: Option<User>
    var updateForm: Option<UserUpdate>
    var isEditDialogOpen: bool
    var toasts: seq<Toast>
    /** The forms sent to `createUser`, in order. */
    var createCalls: seq<UserCreate>

    constructor()
      ensures users == [] && companies == [] && loading
      ensures createForm == InitialForm && !isCreateDialogOpen
      ensures editingUser.None? && updateForm.None? && !isEditDialogOpen
      ensures toasts == [] && createCalls == []
    {
      users, companies, loading := [], [], true;
      createForm, isCreateDialogOpen := InitialForm, false;
      editingUser, updateForm, isEditDialogOpen := None, None, false;
      toasts, createCalls := [], [];
    }

    /** `loadData`: both lists are replaced by the answers (an absent
        `results` gives []), or a failure is reported and both are kept;
        loading ends on every path. */
    method LoadData(response: Result<Loaded, Thrown>)
      modifies `users, `companies, `loading, `toasts
      ensures response.Success? ==>
        users == LoadedUsers(response.value) && companies == LoadedCompanies(response.value) && toasts == old(toasts)
      ensures response.Failure? ==>
        users == old(users) && companies == old(companies) && toasts == old(toasts) + [ErrorToast(LoadFailed)]
      ensures !loading
    {
      loading := true;
      if response.Success? {
        users := LoadedUsers(response.value);
        companies := LoadedCompanies(response.value);
      } else {
        toasts := toasts + [ErrorToast(LoadFailed)];
      }
      loading := false;
    }

    /** The effect that fills in the first company once the companies are
        loaded, when the form has no truthy company yet. */
    method PresetCompany()
      modifies `createForm
      ensures companies != [] && IsFalsyId(old(createForm.companyId)) ==>
        createForm == old(createForm).(companyId := Some(companies[0].id))
      ensures !(companies != [] && IsFalsyId(old(createForm.companyId))) ==> createForm == old(createForm)
    {
      if |companies| > 0 && IsFalsyId(createForm.companyId) {
        createForm := createForm.(companyId := Some(companies[0].id));
      }
    }

    /** `handleCreateUser`: without a truthy company the create is refused
        with no call. Otherwise the form is sent (`failure` is the call's
        outcome); on success the form is reset to the first company of the
        list as it was before the call, the dialog closes, the data is
        reloaded (`reload` is that outcome) and success is announced; on
        failure the error's message, or a fixed text, is shown and nothing
        else changes. */
    method HandleCreateUser(failure: Option<Thrown>, reload: Result<Loaded, Thrown>)
      modifies `users, `companies, `loading, `toasts, `createForm, `isCreateDialogOpen, `createCalls
      ensures IsFalsyId(old(createForm.companyId)) ==>
        && toasts == old(toasts) + [ErrorToast(CompanyRequired)] && createCalls == old(createCalls)
        && createForm == old(createForm) && isCreateDialogOpen == old(isCreateDialogOpen)
        && users == old(users) && companies == old(companies) && loading == old(loading)
      ensures !IsFalsyId(old(createForm.companyId)) ==> createCalls == old(createCalls) + [old(createForm)]
      ensures !IsFalsyId(old(createForm.companyId)) && failure.Some? ==>
        && toasts == old(toasts) + [ErrorToast(MessageOr(failure.value, CreateFailed))]
        && createForm == old(createForm) && isCreateDialogOpen == old(isCreateDialogOpen)
        && users == old(users) && companies == old(companies) && loading == old(loading)
      ensures !IsFalsyId(old(createForm.companyId)) && failure.None? ==>
        && createForm == ResetForm(old(companies)) && !isCreateDialogOpen && !loading
        && (reload.Success? ==>
              && users == LoadedUsers(reload.value) && companies == LoadedCompanies(reload.value)
              && toasts == old(toasts) + [SuccessToast(UserCreated)])
        && (reload.Failure? ==>
              && users == old(users) && companies == old(companies)
              && toasts == old(toasts) + [ErrorToast(LoadFailed), SuccessToast(UserCreated)])
    {
      if IsFalsyId(createForm.companyId) {
        toasts := toasts + [ErrorToast(CompanyRequired)];
        return;
      }
      createCalls := createCalls + [createForm];
      if failure.Some? {
        toasts := toasts + [ErrorToast(MessageOr(failure.value, CreateFailed))];
        return;
      }
      createForm := ResetForm(companies);
      isCreateDialogOpen := false;
      LoadData(reload);
      toasts := toasts + [SuccessToast(UserCreated)];
    }

    /** `openEditDialog`: the user is being edited, the form holds its
        fields and the dialog opens. */
    method OpenEditDialog(u: User)
      modifies `editingUser, `updateForm, `isEditDialogOpen
      ensures editingUser == Some(u) && updateForm == Some(EditForm(u)) && isEditDialogOpen
    {
      editingUser := Some(u);
      updateForm := Some(EditForm(u));
      isEditDialogOpen := true;
    }
  }
}
