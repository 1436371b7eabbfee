/** The document upload page (pages/Upload_new.tsx): dropped files become
    list entries, each is sent to the backend under the user's company and
    linked to its first micro-company, and the entry follows the outcome. The
    backend answers and the progress timer's firings are inputs. */
module UploadNew {
  import opened Common
  import opened Auth

  datatype Status = Uploading | Completed | Failed

  /** One entry of the list; entries are told apart by file name only.
      `document` is the backend's id of the stored document. */
  datatype UploadedFile = UploadedFile(name: string, progress: int, status: Status, fileType: string, document: Option<int>)

  /** The calls a run makes, in order. */
  datatype UploadCall =
    | UploadDocument(fileName: string, company: int)
    | ListMicroCompanies(company: int)
    | LinkDocument(document: int, microCompany: int)

  const NoCompany: string := "Usuário não possui empresa associada"
  const Unknown: string := "Erro desconhecido"
  const Unauthorized: string := "Não autorizado. Faça login novamente."
  const Forbidden: string := "Acesso negado. Você não tem permissão para fazer upload."
  const Connection: string := "Erro de conexão. Verifique sua internet e se o servidor está ativo."

  /** `getFileTypeFromExtension`. */
  function FileTypeFromExtension(name: string): (t: string)
    ensures t in {"PDF", "EXCEL", "CSV", "IMAGE", "OTHER"}
    ensures t == "PDF" <==> FileExtension(name) == "pdf"
    ensures t == "EXCEL" <==> FileExtension(name) in {"xlsx", "xls"}
    ensures t == "CSV" <==> FileExtension(name) == "csv"
    ensures t == "IMAGE" <==> FileExtension(name) in {"png", "jpg", "jpeg", "gif"}
  {
    var extension := FileExtension(name);
    if extension == "pdf" then "PDF"
    else if extension == "xlsx" || extension == "xls" then "EXCEL"
    else if extension == "csv" then "CSV"
    else if extension == "png" || extension == "jpg" || extension == "jpeg" || extension == "gif" then "IMAGE"
    else "OTHER"
  }

  /** The entry `onDrop` creates for one file: at 0, uploading, typed by
      the chosen document type or else by the extension. */
  function NewEntry(name: string, documentType: string): (f: UploadedFile)
    ensures f.name == name && f.progress == 0 && f.status == Uploading && f.document.None?
    ensures documentType != "" ==> f.fileType == documentType
    ensures documentType == "" ==> f.fileType == FileTypeFromExtension(name)
  {
    UploadedFile(name, 0, Uploading, if documentType != "" then documentType else FileTypeFromExtension(name), None)
  }

  /** The entries `onDrop` creates, one per dropped file, in order. */
  function NewEntries(names: seq<string>, documentType: string): (r: seq<UploadedFile>)
    ensures |r| == |names|
    ensures forall i :: 0 <= i < |names| ==> r[i] == NewEntry(names[i], documentType)
  {
    if names == [] then [] else [NewEntry(names[0], documentType)] + NewEntries(names[1..], documentType)
  }

  /** One firing of the progress timer for `name`: the uploading entries with
      that name advance by 15, but not past 90. */
  function Tick(files: seq<UploadedFile>, name: string): (r: seq<UploadedFile>)
    ensures |r| == |files|
    ensures forall i :: 0 <= i < |files| ==>
      r[i] == (if files[i].name == name && files[i].status == Uploading
               then files[i].(progress := if files[i].progress + 15 < 90 then files[i].progress + 15 else 90)
               else files[i])
  {
    if files == [] then []
    else
      var f := files[0];
      [if f.name == name && f.status == Uploading then f.(progress := if f.progress + 15 < 90 then f.progress + 15 else 90) else f]
      + Tick(files[1..], name)
  }

  /** A successful run: every entry with the name is completed at 100 and
      records the document. */
  function MarkCompleted(files: seq<UploadedFile>, name: string, document: int): (r: seq<UploadedFile>)
    ensures |r| == |files|
    ensures forall i :: 0 <= i < |files| ==>
      r[i] == (if files[i].name == name then files[i].(status := Completed, progress := 100, document := Some(document)) else files[i])
  {
    if files == [] then []
    else [if files[0].name == name then files[0].(status := Completed, progress := 100, document := Some(document)) else files[0]]
         + MarkCompleted(files[1..], name, document)
  }

  /** A failed run: every entry with the name is failed at 0. */
  function MarkFailed(files: seq<UploadedFile>, name: string): (r: seq<UploadedFile>)
    ensures |r| == |files|
    ensures forall i :: 0 <= i < |files| ==>
      r[i] == (if files[i].name == name then files[i].(status := Failed, progress := 0) else files[i])
  {
    if files == [] then []
    else [if files[0].name == name then files[0].(status := Failed, progress := 0) else files[0]]
         + MarkFailed(files[1..], name)
  }

  /** An entry is consistent: uploading between 0 and 90, completed at 100,
      failed at 0. */
  predicate Consistent(f: UploadedFile) {
    match f.status
    case Uploading => 0 <= f.progress <= 90
    case Completed => f.progress == 100
    case Failed => f.progress == 0
  }

  /** Every entry the list shows is consistent. */
  predicate WellFormed(files: seq<UploadedFile>) {
    forall i :: 0 <= i < |files| ==> Consistent(files[i])
  }

  /** Dropping files keeps the list consistent. */
  lemma DropPreserves(files: seq<UploadedFile>, names: seq<string>, documentType: string)
    requires WellFormed(files)
    ensures WellFormed(files + NewEntries(names, documentType))
  {
    var added := NewEntries(names, documentType);
    var dropped := files + added;
    forall i | 0 <= i < |dropped|
      ensures Consistent(dropped[i])
    {
      if i >= |files| {
        assert dropped[i] == added[i - |files|];
      }
    }
  }

  /** A tick keeps the list consistent and never moves an entry backwards. */
  lemma TickPreserves(files: seq<UploadedFile>, name: string)
    requires WellFormed(files)
    ensures WellFormed(Tick(files, name))
    ensures forall i :: 0 <= i < |files| ==> Tick(files, name)[i].progress >= files[i].progress
  {
    var r := Tick(files, name);
    forall i | 0 <= i < |files|
      ensures Consistent(r[i])
    {
      assert Consistent(files[i]);
    }
  }

  /** Completing or failing a run keeps the list consistent. */
  lemma SettlePreserves(files: seq<UploadedFile>, name: string, document: int)
    requires WellFormed(files)
    ensures WellFormed(MarkCompleted(files, name, document))
    ensures WellFormed(MarkFailed(files, name))
  {
    var completed := MarkCompleted(files, name, document);
    var failed := MarkFailed(files, name);
    forall i | 0 <= i < |files|
      ensures Consistent(completed[i]) && Consistent(failed[i])
    {
      assert Consistent(files[i]);
    }
  }

  /** The error text of a failed run: fixed texts for 'HTTP 401', 'HTTP 403'
      and 'conexão', in that order of precedence, else the error's own
      message; a thrown value that is not an Error gives 'Erro desconhecido'. */
  function ErrorText(e: Thrown): (text: string)
    ensures !e.isErrorInstance ==> text == Unknown
    ensures e.isErrorInstance && Contains(e.message, "HTTP 401") ==> text == Unauthorized
    ensures e.isErrorInstance && !Contains(e.message, "HTTP 401") && Contains(e.message, "HTTP 403") ==> text == Forbidden
    ensures (e.isErrorInstance && !Contains(e.message, "HTTP 401") && !Contains(e.message, "HTTP 403") &&
             Contains(e.message, "conexão")) ==> text == Connection
    ensures (e.isErrorInstance && !Contains(e.message, "HTTP 401") && !Contains(e.message, "HTTP 403") &&
             !Contains(e.message, "conexão")) ==> text == e.message
  {
    if !e.isErrorInstance then Unknown
    else if Contains(e.message, "HTTP 401") then Unauthorized
    else if Contains(e.message, "HTTP 403") then Forbidden
    else if Contains(e.message, "conexão") then Connection
    else e.message
  }

  /** The micro-company a document is linked to: the first of the results,
      when there are any. */
  function LinkTarget(results: Option<seq<int>>): (target: Option<int>)
    ensures target.Some? <==> results.Some? && |results.value| > 0
    ensures target.Some? ==> target.value == results.value[0]
  {
    if results.Some? && |results.value| > 0 then Some(results.value[0]) else None
  }

  /** The error thrown before any call when the user has no company. */
  const NoCompanyError: Thrown := Thrown(NoCompany, None, true)

  /** The calls of one run and how it ends: the uploaded document's id, or
      what was thrown. `upload`, `list` and `link` are the backend's answers
      (`list` gives the micro-company ids, or None when `results` is absent). */
  datatype Run = Run(calls: seq<UploadCall>, outcome: Result<int, Thrown>)

  function RunUpload(user: Option<Profile>, name: string, upload: Result<int, Thrown>,
                     list: Result<Option<seq<int>>, Thrown>, link: Option<Thrown>): (run: Run)
    ensures !(user.Some? && HasCompany(user.value)) ==> run == Run([], Failure(NoCompanyError))
    ensures user.Some? && HasCompany(user.value) ==>
      |run.calls| >= 1 && run.calls[0] == UploadDocument(name, user.value.companyId.value)
    ensures run.outcome.Success? <==>
      user.Some? && HasCompany(user.value) && upload.Success? && list.Success? &&
      (LinkTarget(list.value).Some? ==> link.None?)
    ensures run.outcome.Success? ==> run.outcome.value == upload.value
  {
    if !(user.Some? && HasCompany(user.value)) then Run([], Failure(NoCompanyError))
    else
      var company := user.value.companyId.value;
      var sent := [UploadDocument(name, company)];
      match upload
      case Failure(e) => Run(sent, Failure(e))
      case Success(document) =>
        var listed := sent + [ListMicroCompanies(company)];
        match list
        case Failure(e) => Run(listed, Failure(e))
        case Success(results) =>
          match LinkTarget(results)
          case None => Run(listed, Success(document))
          case Some(micro) =>
            var linked := listed + [LinkDocument(document, micro)];
            if link.Some? then Run(linked, Failure(link.value)) else Run(linked, Success(document))
  }

  /** A run links at most once, and only the uploaded document to the first
      micro-company of a non-empty list. */
  lemma LinkOnlyToFirst(user: Option<Profile>, name: string, upload: Result<int, Thrown>,
                        list: Result<Option<seq<int>>, Thrown>, link: Option<Thrown>, k: nat)
    requires k < |RunUpload(user, name, upload, list, link).calls|
    requires RunUpload(user, name, upload, list, link).calls[k].LinkDocument?
    ensures k == 2 && upload.Success? && list.Success? && LinkTarget(list.value).Some?
    ensures RunUpload(user, name, upload, list, link).calls[k] == LinkDocument(upload.value, list.value.value[0])
  {
  }

  class UploadPage {
    var uploadedFiles: seq<UploadedFile>
    var documentType: string
    var isUploading: bool
    var toasts: seq<Toast>
    var calls: seq<UploadCall>

    constructor()
      ensures uploadedFiles == [] && documentType == "" && !isUploading && toasts == [] && calls == []
    {
      uploadedFiles := [];
      documentType := "";
      isUploading := false;
      toasts, calls := [], [];
    }

    /** `onDrop`: the new entries go after the existing ones. */
    method OnDrop(names: seq<string>)
      modifies `uploadedFiles
      ensures uploadedFiles == old(uploadedFiles) + NewEntries(names, documentType)
      ensures old(WellFormed(uploadedFiles)) ==> WellFormed(uploadedFiles)
    {
      if WellFormed(uploadedFiles) {
        DropPreserves(uploadedFiles, names, documentType);
      }
      uploadedFiles := uploadedFiles + NewEntries(names, documentType);
    }

    /** One firing of the progress interval of the upload of `name`. */
    method ProgressTick(name: string)
      modifies `uploadedFiles
      ensures uploadedFiles == Tick(old(uploadedFiles), name)
      ensures old(WellFormed(uploadedFiles)) ==> WellFormed(uploadedFiles)
    {
      if WellFormed(uploadedFiles) {
        TickPreserves(uploadedFiles, name);
      }
      uploadedFiles := Tick(uploadedFiles, name);
    }

    /** `processRealUpload` for the entry named `name`, run to its end: the
        calls of RunUpload are made, the entries with the name are completed
        or failed accordingly with a toast naming the file, and uploading is
        over. */
    method ProcessRealUpload(user: Option<Profile>, name: string, upload: Result<int, Thrown>,
                             list: Result<Option<seq<int>>, Thrown>, link: Option<Thrown>)
      modifies `uploadedFiles, `isUploading, `toasts, `calls
      ensures var run := RunUpload(user, name, upload, list, link);
        && calls == old(calls) + run.calls && !isUploading
        && (run.outcome.Success? ==>
              uploadedFiles == MarkCompleted(old(uploadedFiles), name, run.outcome.value) &&
              toasts == old(toasts) + [SuccessToast(name + " enviado com sucesso!")])
        && (run.outcome.Failure? ==>
              uploadedFiles == MarkFailed(old(uploadedFiles), name) &&
              toasts == old(toasts) + [ErrorToast("Erro ao enviar " + name + ": " + ErrorText(run.outcome.error))])
      ensures old(WellFormed(uploadedFiles)) ==> WellFormed(uploadedFiles)
    {
      var run := Send(user, name, upload, list, link);
      Settle(name, run.outcome);
      isUploading := false;
    }

    /** The backend calls of one run, in order, with uploading on while they
        are made. */
    method Send(user: Option<Profile>, name: string, upload: Result<int, Thrown>,
                list: Result<Option<seq<int>>, Thrown>, link: Option<Thrown>) returns (run: Run)
      modifies `isUploading, `calls
      ensures run == RunUpload(user, name, upload, list, link)
      ensures calls == old(calls) + run.calls
    {
      if !(user.Some? && HasCompany(user.value)) {
        return Run([], Failure(NoCompanyError));
      }
      var company := user.value.companyId.value;
      isUploading := true;
      calls := calls + [UploadDocument(name, company)];
      if upload.Failure? {
        return Run([UploadDocument(name, company)], Failure(upload.error));
      }
      var document := upload.value;
      calls := calls + [ListMicroCompanies(company)];
      if list.Failure? {
        return Run([UploadDocument(name, company), ListMicroCompanies(company)], Failure(list.error));
      }
      var target := LinkTarget(list.value);
      if target.None? {
        return Run([UploadDocument(name, company), ListMicroCompanies(company)], Success(document));
      }
      var linked := [UploadDocument(name, company), ListMicroCompanies(company), LinkDocument(document, target.value)];
      calls := calls + [LinkDocument(document, target.value)];
      run := if link.Some? then Run(linked, Failure(link.value)) else Run(linked, Success(document));
    }

    /** The end of a run: the entries with the name are completed with the
        document or failed, and the outcome is announced. */
    method Settle(name: string, outcome: Result<int, Thrown>)
      modifies `uploadedFiles, `toasts
      ensures outcome.Success? ==>
        uploadedFiles == MarkCompleted(old(uploadedFiles), name, outcome.value) &&
        toasts == old(toasts) + [SuccessToast(name + " enviado com sucesso!")]
      ensures outcome.Failure? ==>
        uploadedFiles == MarkFailed(old(uploadedFiles), name) &&
        toasts == old(toasts) + [ErrorToast("Erro ao enviar " + name + ": " + ErrorText(outcome.error))]
      ensures old(WellFormed(uploadedFiles)) ==> WellFormed(uploadedFiles)
    {
      var document := if outcome.Success? then outcome.value else 0;
      if WellFormed(uploadedFiles) {
        SettlePreserves(uploadedFiles, name, document);
      }
      if outcome.Success? {
        uploadedFiles := MarkCompleted(uploadedFiles, name, document);
        toasts := toasts + [SuccessToast(name + " enviado com sucesso!")];
      } else {
        toasts := toasts + [ErrorToast("Erro ao enviar " + name + ": " + ErrorText(outcome.error))];
        uploadedFiles := MarkFailed(uploadedFiles, name);
      }
    }
  }
}
