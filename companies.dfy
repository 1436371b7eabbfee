/** The company context (contexts/CompanyContext.tsx): the list of the
    account's companies, the selected one, and the four operations that keep
    them in step with the backend. Each backend answer is an input. */
module Companies {
  import opened Common
  import opened Auth

  /** A company as the backend returns it (only the fields the context
      reads). */
  datatype MicroCompany = MicroCompany(id: int, name: string, logo: Option<string>, description: Option<string>)

  /** A company as the pages see it. */
  datatype Company = Company(id: int, name: string, logo: Option<string>, description: Option<string>)

  /** The list answer: `results` may be absent. */
  datatype ListResponse = ListResponse(results: Option<seq<MicroCompany>>)

  /** The multipart form a page submits, as its (name, value) fields. */
  type FormData = seq<(string, string)>

  /** A backend call made by the context; `company` is the owner id added to
      a creation form, when the profile has one. */
  datatype CompanyCall =
    | ListCall
    | ProfileFetch
    | CreateCall(form: FormData, company: Option<int>)
    | UpdateCall(id: int, form: FormData)
    | DeleteCall(id: int)

  const LoadFailed: string := "Erro ao carregar empresas"
  const Created: string := "Empresa criada com sucesso!"
  const CreateFailed: string := "Erro ao criar empresa"
  const Updated: string := "Empresa atualizada com sucesso!"
  const UpdateFailed: string := "Erro ao atualizar empresa"
  const Removed: string := "Empresa removida com sucesso!"
  const RemoveFailed: string := "Erro ao remover empresa"

  /** `mapMicroCompanyToCompany`: id, name and logo are copied; a missing or
      empty description becomes ''. */
  function ToCompany(m: MicroCompany): (c: Company)
    ensures c.id == m.id && c.name == m.name && c.logo == m.logo
    ensures c.description.Some?
    ensures m.description.Some? && m.description.value != "" ==> c.description == m.description
    ensures m.description.None? || m.description == Some("") ==> c.description == Some("")
  {
    Company(m.id, m.name, m.logo, Some(if m.description.Some? then m.description.value else ""))
  }

  /** `results?.map(mapMicroCompanyToCompany)`. */
  function MapAll(ms: seq<MicroCompany>): (cs: seq<Company>)
    ensures |cs| == |ms|
    ensures forall i :: 0 <= i < |ms| ==> cs[i] == ToCompany(ms[i])
  {
    if ms == [] then [] else [ToCompany(ms[0])] + MapAll(ms[1..])
  }

  /** The list a successful refresh installs: the mapped results, or [] when
      the answer has none. */
  function Listed(response: ListResponse): (cs: seq<Company>)
    ensures response.results.None? ==> cs == []
    ensures response.results.Some? ==> |cs| == |response.results.value|
    ensures response.results.Some? ==>
      forall i :: 0 <= i < |cs| ==> cs[i] == ToCompany(response.results.value[i])
  {
    if response.results.Some? then MapAll(response.results.value) else []
  }

  /** `prev.map(c => c.id === id ? updated : c)`. */
  function ReplaceById(cs: seq<Company>, id: int, updated: Company): (r: seq<Company>)
    ensures |r| == |cs|
    ensures forall i :: 0 <= i < |cs| ==> r[i] == (if cs[i].id == id then updated else cs[i])
  {
    if cs == [] then [] else [if cs[0].id == id then updated else cs[0]] + ReplaceById(cs[1..], id, updated)
  }

  /** Replacing again with a company that keeps the id changes nothing. */
  lemma ReplaceByIdIdempotent(cs: seq<Company>, id: int, updated: Company)
    requires updated.id == id
    ensures ReplaceById(ReplaceById(cs, id, updated), id, updated) == ReplaceById(cs, id, updated)
  {
    var once := ReplaceById(cs, id, updated);
    var twice := ReplaceById(once, id, updated);
    assert forall i :: 0 <= i < |cs| ==> twice[i] == once[i];
  }

  predicate OtherId(id: int, c: Company) {
    c.id != id
  }

  /** `prev.filter(c => c.id !== id)`. */
  function RemoveById(cs: seq<Company>, id: int): (r: seq<Company>)
    ensures forall i :: 0 <= i < |r| ==> r[i].id != id && r[i] in cs
    ensures forall i :: 0 <= i < |cs| && cs[i].id != id ==> cs[i] in r
  {
    Filter(c => OtherId(id, c), cs)
  }

  /** Removal keeps the other companies in their order, drops exactly as many
      entries as carry the id, and a second removal changes nothing. */
  lemma RemoveByIdFacts(cs: seq<Company>, id: int)
    ensures IsSubsequence(RemoveById(cs, id), cs)
    ensures |RemoveById(cs, id)| == |cs| - CountWhere((c: Company) => c.id == id, cs)
    ensures RemoveById(RemoveById(cs, id), id) == RemoveById(cs, id)
  {
    var p := (c: Company) => OtherId(id, c);
    var q := (c: Company) => c.id == id;
    FilterIsSubsequence(p, cs);
    FilterLength(p, cs);
    CountSplit(p, q, cs);
    FilterKeepsAll(p, RemoveById(cs, id));
  }

  /** The selected company after an update: replaced when it has the id. */
  function SelectionAfterUpdate(selected: Option<Company>, id: int, updated: Company): (r: Option<Company>)
    ensures selected.Some? && selected.value.id == id ==> r == Some(updated)
    ensures !(selected.Some? && selected.value.id == id) ==> r == selected
  {
    if selected.Some? && selected.value.id == id then Some(updated) else selected
  }

  /** The selected company after a removal: cleared when it has the id. */
  function SelectionAfterRemove(selected: Option<Company>, id: int): (r: Option<Company>)
    ensures selected.Some? && selected.value.id == id ==> r.None?
    ensures !(selected.Some? && selected.value.id == id) ==> r == selected
  {
    if selected.Some? && selected.value.id == id then None else selected
  }

  /** The selection never points at a company the list no longer has, when it
      pointed into the list before: an update keeps it in the list, a removal
      clears it or keeps a surviving entry. */
  lemma SelectionStaysInList(cs: seq<Company>, selected: Option<Company>, id: int, updated: Company)
    requires selected.Some? ==> selected.value in cs
    ensures var s := SelectionAfterUpdate(selected, id, updated);
      s.Some? ==> s.value in ReplaceById(cs, id, updated)
    ensures var s := SelectionAfterRemove(selected, id);
      s.Some? ==> s.value in RemoveById(cs, id)
  {
    if selected.Some? {
      var k :| 0 <= k < |cs| && cs[k] == selected.value;
      assert ReplaceById(cs, id, updated)[k] == (if cs[k].id == id then updated else cs[k]);
    }
  }

  class CompanyProvider {
    const service: AuthService
    var selectedCompany: Option<Company>
    var companies: seq<Company>
    var isLoading: bool
    var toasts: seq<Toast>
    var calls: seq<CompanyCall>

    constructor(service: AuthService)
      ensures this.service == service
      ensures selectedCompany.None? && companies == [] && !isLoading && toasts == [] && calls == []
    {
      this.service := service;
      selectedCompany := None;
      companies := [];
      isLoading := false;
      toasts := [];
      calls := [];
    }

    method SetSelectedCompany(company: Option<Company>)
      modifies `selectedCompany
      ensures selectedCompany == company
    {
      selectedCompany := company;
    }

    /** The owner id `addCompany` adds to a creation form: the profile's
        company id, when the profile has a truthy one. */
    function Owner(profile: Profile): Option<int> {
      if HasCompany(profile) then profile.companyId else None
    }

    /** The state `addCompany` leaves, relative to the state before it: the
        profile call, then (with a profile) the creation call; the created
        company appended with a success toast, or on any failure the list
        kept and an error toast. The selection and loading flag are kept. */
    twostate predicate AddedSince(form: FormData, profile: Result<Profile, Thrown>, created: Result<MicroCompany, Thrown>)
      reads this
    {
      && selectedCompany == old(selectedCompany) && isLoading == old(isLoading)
      && calls == old(calls) + [ProfileFetch] + (if profile.Success? then [CreateCall(form, Owner(profile.value))] else [])
      && (profile.Success? && created.Success? ==>
            companies == old(companies) + [ToCompany(created.value)] && toasts == old(toasts) + [SuccessToast(Created)])
      && (profile.Failure? || created.Failure? ==>
            companies == old(companies) && toasts == old(toasts) + [ErrorToast(CreateFailed)])
    }

    /** The state `updateCompany` leaves: the update call; on success the list
        and the selection carry the mapped answer, with a success toast; on
        failure both are kept, with an error toast. Loading is kept. */
    twostate predicate UpdatedSince(id: int, form: FormData, updated: Result<MicroCompany, Thrown>)
      reads this
    {
      && isLoading == old(isLoading)
      && calls == old(calls) + [UpdateCall(id, form)]
      && (updated.Success? ==>
            && companies == ReplaceById(old(companies), id, ToCompany(updated.value))
            && selectedCompany == SelectionAfterUpdate(old(selectedCompany), id, ToCompany(updated.value))
            && toasts == old(toasts) + [SuccessToast(Updated)])
      && (updated.Failure? ==>
            && companies == old(companies) && selectedCompany == old(selectedCompany)
            && toasts == old(toasts) + [ErrorToast(UpdateFailed)])
    }

    /** The state `removeCompany` leaves: the delete call; on success the
        company dropped and the selection cleared when it was that company,
        with a success toast; on failure both kept, with an error toast.
        Loading is kept. */
    twostate predicate RemovedSince(id: int, failure: Option<Thrown>)
      reads this
    {
      && isLoading == old(isLoading)
      && calls == old(calls) + [DeleteCall(id)]
      && (failure.None? ==>
            && companies == RemoveById(old(companies), id)
            && selectedCompany == SelectionAfterRemove(old(selectedCompany), id)
            && toasts == old(toasts) + [SuccessToast(Removed)])
      && (failure.Some? ==>
            && companies == old(companies) && selectedCompany == old(selectedCompany)
            && toasts == old(toasts) + [ErrorToast(RemoveFailed)])
    }

    /** `refreshCompanies`: nothing happens without a session; otherwise the
        list is fetched, a success installs Listed(response), a failure keeps
        the list and shows an error, and loading is over either way. */
    method RefreshCompanies(outcome: Result<ListResponse, Thrown>)
      modifies `companies, `isLoading, `toasts, `calls
      ensures !old(service.IsAuthenticated()) ==> unchanged(this)
      ensures old(service.IsAuthenticated()) ==>
        && calls == old(calls) + [ListCall] && !isLoading
        && (outcome.Success? ==> companies == Listed(outcome.value) && toasts == old(toasts))
        && (outcome.Failure? ==> companies == old(companies) && toasts == old(toasts) + [ErrorToast(LoadFailed)])
    {
      var authenticated := service.IsAuthenticated();
      if authenticated {
        FetchCompanies(outcome);
      }
    }

    /** The body of `refreshCompanies` once a session is known. */
    method FetchCompanies(outcome: Result<ListResponse, Thrown>)
      modifies `companies, `isLoading, `toasts, `calls
      ensures calls == old(calls) + [ListCall] && !isLoading
      ensures outcome.Success? ==> companies == Listed(outcome.value) && toasts == old(toasts)
      ensures outcome.Failure? ==> companies == old(companies) && toasts == old(toasts) + [ErrorToast(LoadFailed)]
    {
      isLoading := true;
      calls := calls + [ListCall];
      match outcome {
        case Success(response) =>
          companies := Listed(response);
        case Failure(_) =>
          toasts := toasts + [ErrorToast(LoadFailed)];
      }
      isLoading := false;
    }

    /** `addCompany`: the profile is fetched first and its company id, when
        it has one, is added to the form; the created company is appended.
        Any failure shows an error, is passed on to the caller (`error`) and
        leaves the list as it was. */
    method AddCompany(form: FormData, profile: Result<Profile, Thrown>, created: Result<MicroCompany, Thrown>)
      returns (error: Option<Thrown>)
      modifies `companies, `toasts, `calls
      ensures AddedSince(form, profile, created)
      ensures profile.Failure? ==> error == Some(profile.error)
      ensures profile.Success? && created.Failure? ==> error == Some(created.error)
      ensures profile.Success? && created.Success? ==> error.None?
    {
      calls := calls + [ProfileFetch];
      if profile.Failure? {
        toasts := toasts + [ErrorToast(CreateFailed)];
        return Some(profile.error);
      }
      calls := calls + [CreateCall(form, Owner(profile.value))];
      match created {
        case Failure(e) =>
          toasts := toasts + [ErrorToast(CreateFailed)];
          error := Some(e);
        case Success(m) =>
          companies := companies + [ToCompany(m)];
          toasts := toasts + [SuccessToast(Created)];
          error := None;
      }
    }

    /** `updateCompany`: every entry with the id is replaced by the mapped
        answer, and so is the selection when it has the id. A failure shows
        an error, is passed on, and changes neither. */
    method UpdateCompany(id: int, form: FormData, updated: Result<MicroCompany, Thrown>)
      returns (error: Option<Thrown>)
      modifies `companies, `selectedCompany, `toasts, `calls
      ensures UpdatedSince(id, form, updated)
      ensures updated.Failure? ==> error == Some(updated.error)
      ensures updated.Success? ==> error.None?
    {
      calls := calls + [UpdateCall(id, form)];
      match updated {
        case Failure(e) =>
          toasts := toasts + [ErrorToast(UpdateFailed)];
          error := Some(e);
        case Success(m) =>
          var company := ToCompany(m);
          companies := ReplaceById(companies, id, company);
          if selectedCompany.Some? && selectedCompany.value.id == id {
            selectedCompany := Some(company);
          }
          toasts := toasts + [SuccessToast(Updated)];
          error := None;
      }
    }

    /** `removeCompany`: the entries with the id are dropped and the
        selection is cleared when it has the id. A failure shows an error, is
        passed on, and changes neither. */
    method RemoveCompany(id: int, failure: Option<Thrown>) returns (error: Option<Thrown>)
      modifies `companies, `selectedCompany, `toasts, `calls
      ensures RemovedSince(id, failure)
      ensures error == failure
    {
      calls := calls + [DeleteCall(id)];
      if failure.Some? {
        toasts := toasts + [ErrorToast(RemoveFailed)];
        return failure;
      }
      companies := RemoveById(companies, id);
      if selectedCompany.Some? && selectedCompany.value.id == id {
        selectedCompany := None;
      }
      toasts := toasts + [SuccessToast(Removed)];
      error := None;
    }
  }
}
