/** The company selection page (pages/CompanySelection.tsx): choosing a
    company, and the one dialog that both creates and edits companies through
    the company context. */
module CompanySelection {
  import opened Common
  import opened Auth
  import opened Companies

  const NameRequired: string := "Nome da empresa é obrigatório"
  /** The office-building emoji the form starts with. */
  const DefaultLogo: string := "\U{1F3E2}"

  /** The dialog's fields; `logo` is absent when an edited company has none. */
  datatype CompanyForm = CompanyForm(name: string, logo: Option<string>, description: string)

  /** The form as first shown and as every reset leaves it. */
  const EmptyForm: CompanyForm := CompanyForm("", Some(DefaultLogo), "")

  /** `handleEditCompany`'s copy of a company into the form: a missing
      description becomes ''. */
  function EditForm(c: Company): (f: CompanyForm)
    ensures f.name == c.name && f.logo == c.logo
    ensures c.description.Some? ==> f.description == c.description.value
    ensures c.description.None? ==> f.description == ""
  {
    CompanyForm(c.name, c.logo, if c.description.Some? then c.description.value else "")
  }

  /** The multipart form sent for a save: the name, the description and a
      fixed parent company '1'. The chosen logo is not sent. */
  function SubmittedForm(f: CompanyForm): (form: FormData)
    ensures |form| == 3
    ensures form[0] == ("name", f.name) && form[1] == ("description", f.description) && form[2] == ("company", "1")
  {
    [("name", f.name), ("description", f.description), ("company", "1")]
  }

  /** Two forms that differ only in the logo submit the same fields. */
  lemma LogoIsNotSubmitted(f: CompanyForm, logo: Option<string>)
    ensures SubmittedForm(f.(logo := logo)) == SubmittedForm(f)
  {
  }

  /** Opening a company from the list for editing and saving it unchanged
      sends its own name and description back: the description the context
      stored (never absent) survives the round trip. */
  lemma EditRoundTrip(m: MicroCompany)
    ensures var c := ToCompany(m);
      SubmittedForm(EditForm(c)) == [("name", m.name), ("description", c.description.value), ("company", "1")]
    ensures m.description.Some? ==>
      SubmittedForm(EditForm(ToCompany(m)))[1] == ("description", m.description.value)
  {
  }

  /** The dialog's name check, `!newCompany.name.trim()`: it holds exactly
      for a name that is all whitespace. */
  method CheckName(name: string) returns (blank: bool)
    ensures blank == IsBlank(name)
  {
    TrimEmptyIffBlank(name);
    blank := Trim(name) == "";
  }

  class CompanySelectionPage {
    const context: CompanyProvider
    var isDialogOpen: bool
    var editingCompany: Option<Company>
    var newCompany: CompanyForm
    var toasts: seq<Toast>
    var navigations: seq<string>

    constructor(context: CompanyProvider)
      ensures this.context == context
      ensures !isDialogOpen && editingCompany.None? && newCompany == EmptyForm
      ensures toasts == [] && navigations == []
    {
      this.context := context;
      isDialogOpen := false;
      editingCompany := None;
      newCompany := EmptyForm;
      toasts, navigations := [], [];
    }

    /** `handleSelectCompany`: the company becomes the selection and the
        dashboard opens. */
    method HandleSelectCompany(company: Company)
      modifies `navigations, context`selectedCompany
      ensures context.selectedCompany == Some(company)
      ensures navigations == old(navigations) + ["/dashboard"]
    {
      context.SetSelectedCompany(Some(company));
      navigations := navigations + ["/dashboard"];
    }

    /** `handleEditCompany`: the company is loaded into the form and the
        dialog opens in edit mode. */
    method HandleEditCompany(company: Company)
      modifies `editingCompany, `newCompany, `isDialogOpen
      ensures editingCompany == Some(company) && newCompany == EditForm(company) && isDialogOpen
    {
      editingCompany := Some(company);
      newCompany := EditForm(company);
      isDialogOpen := true;
    }

    /** The dialog's cancel button: closed, out of edit mode, form reset. */
    method Cancel()
      modifies `editingCompany, `newCompany, `isDialogOpen
      ensures !isDialogOpen && editingCompany.None? && newCompany == EmptyForm
    {
      isDialogOpen := false;
      editingCompany := None;
      newCompany := EmptyForm;
    }

    /** `handleRemoveCompany`: the context removes the company; its error is
        swallowed here, the context having reported it. */
    method HandleRemoveCompany(id: int, failure: Option<Thrown>)
      modifies context
      ensures context.RemovedSince(id, failure)
    {
      var _ := context.RemoveCompany(id, failure);
    }

    /** `handleAddCompany`: a blank name is refused with no call. In edit
        mode the context updates the edited company (`updated` is the
        backend's answer) and, on success, edit mode ends; otherwise the
        context creates one (`profile` and `created` are the answers). The
        form is reset and the dialog closed only when the save succeeds. The
        context's own toasts report the outcome; the page navigates nowhere. */
    method HandleAddCompany(profile: Result<Profile, Thrown>, created: Result<MicroCompany, Thrown>,
                            updated: Result<MicroCompany, Thrown>)
      modifies `toasts, `newCompany, `editingCompany, `isDialogOpen, context
      ensures IsBlank(old(newCompany.name)) ==>
        && toasts == old(toasts) + [ErrorToast(NameRequired)] && unchanged(context)
        && newCompany == old(newCompany) && editingCompany == old(editingCompany) && isDialogOpen == old(isDialogOpen)
      ensures !IsBlank(old(newCompany.name)) ==> toasts == old(toasts)
      ensures !IsBlank(old(newCompany.name)) && old(editingCompany).Some? ==>
        && context.UpdatedSince(old(editingCompany).value.id, SubmittedForm(old(newCompany)), updated)
        && (updated.Success? ==> editingCompany.None? && newCompany == EmptyForm && !isDialogOpen)
        && (updated.Failure? ==>
              editingCompany == old(editingCompany) && newCompany == old(newCompany) && isDialogOpen == old(isDialogOpen))
      ensures !IsBlank(old(newCompany.name)) && old(editingCompany).None? ==>
        && context.AddedSince(SubmittedForm(old(newCompany)), profile, created)
        && editingCompany.None?
        && (profile.Success? && created.Success? ==> newCompany == EmptyForm && !isDialogOpen)
        && (profile.Failure? || created.Failure? ==> newCompany == old(newCompany) && isDialogOpen == old(isDialogOpen))
    {
      var form := newCompany;
      var blank := CheckName(form.name);
      if blank {
        toasts := toasts + [ErrorToast(NameRequired)];
        return;
      }
      var error := Save(SubmittedForm(form), profile, created, updated);
      if error.None? {
        newCompany := EmptyForm;
        isDialogOpen := false;
      }
    }

    /** The save itself: in edit mode the context updates the edited company
        and, on success, edit mode ends; otherwise the context creates one.
        `error` is what the context passed on. */
    method Save(fields: FormData, profile: Result<Profile, Thrown>, created: Result<MicroCompany, Thrown>,
                updated: Result<MicroCompany, Thrown>) returns (error: Option<Thrown>)
      modifies `editingCompany, context
      ensures old(editingCompany).Some? ==>
        && context.UpdatedSince(old(editingCompany).value.id, fields, updated)
        && (updated.Success? ==> error.None? && editingCompany.None?)
        && (updated.Failure? ==> error.Some? && editingCompany == old(editingCompany))
      ensures old(editingCompany).None? ==>
        && context.AddedSince(fields, profile, created)
        && editingCompany.None?
        && (error.None? <==> profile.Success? && created.Success?)
    {
      if editingCompany.Some? {
        error := context.UpdateCompany(editingCompany.value.id, fields, updated);
        if error.None? {
          editingCompany := None;
        }
      } else {
        error := context.AddCompany(fields, profile, created);
      }
    }
  }
}
