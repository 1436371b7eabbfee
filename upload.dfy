/** The earlier upload page (pages/Upload.tsx): dropped files are listed and
    their upload is only simulated, by a progress interval and a two-second
    timeout. The timer firings are inputs. */
module Upload {
  import opened Common
  import UploadNew

  type Status = UploadNew.Status

  datatype UploadedFile = UploadedFile(name: string, progress: int, status: Status)

  /** `onDrop`'s entries: at 0 and uploading. */
  function NewEntries(names: seq<string>): (r: seq<UploadedFile>)
    ensures |r| == |names|
    ensures forall i :: 0 <= i < |names| ==> r[i] == UploadedFile(names[i], 0, UploadNew.Uploading)
  {
    if names == [] then [] else [UploadedFile(names[0], 0, UploadNew.Uploading)] + NewEntries(names[1..])
  }

  /** `Math.min(progress + 10, 100)`. */
  function Advance(progress: int): int {
    if progress + 10 < 100 then progress + 10 else 100
  }

  /** One firing of the interval of `name`: every entry with that name, in
      whatever status, advances, and is completed exactly when it reaches
      100. */
  function Tick(files: seq<UploadedFile>, name: string): (r: seq<UploadedFile>)
    ensures |r| == |files|
    ensures forall i :: 0 <= i < |files| ==>
      r[i] == (if files[i].name == name
               then UploadedFile(name, Advance(files[i].progress),
                                 if Advance(files[i].progress) == 100 then UploadNew.Completed else UploadNew.Uploading)
               else files[i])
  {
    if files == [] then []
    else
      var f := files[0];
      [if f.name == name
       then UploadedFile(name, Advance(f.progress), if Advance(f.progress) == 100 then UploadNew.Completed else UploadNew.Uploading)
       else f]
      + Tick(files[1..], name)
  }

  /** The timeout of `name`: every entry with that name is completed at
      100. */
  function Timeout(files: seq<UploadedFile>, name: string): (r: seq<UploadedFile>)
    ensures |r| == |files|
    ensures forall i :: 0 <= i < |files| ==>
      r[i] == (if files[i].name == name then files[i].(status := UploadNew.Completed, progress := 100) else files[i])
  {
    if files == [] then []
    else [if files[0].name == name then files[0].(status := UploadNew.Completed, progress := 100) else files[0]]
         + Timeout(files[1..], name)
  }

  /** A tick never lowers a progress within 0..100 and never leaves that
      range; an entry is completed after it exactly when it is at 100. */
  lemma TickBounds(files: seq<UploadedFile>, name: string, i: nat)
    requires i < |files| && 0 <= files[i].progress <= 100
    ensures files[i].progress <= Tick(files, name)[i].progress <= 100
    ensures files[i].name == name ==>
      (Tick(files, name)[i].status == UploadNew.Completed <==> Tick(files, name)[i].progress == 100)
  {
  }

  /** `n` firings of the interval on one progress value. */
  function AdvanceTimes(progress: int, n: nat): int {
    if n == 0 then progress else Advance(AdvanceTimes(progress, n - 1))
  }

  /** After `n` firings a progress is `progress + 10n`, capped at 100: an
      entry that starts at 0 is complete after ten firings, before the
      timeout forces it. */
  lemma {:induction false} AdvanceTimesCapped(progress: int, n: nat)
    requires progress <= 100
    ensures AdvanceTimes(progress, n) == if progress + 10 * n < 100 then progress + 10 * n else 100
  {
    if n > 0 {
      AdvanceTimesCapped(progress, n - 1);
    }
  }

  /** `getFileIcon`: the camera icon exactly for the png, jpg and jpeg
      extensions. */
  function IsCameraIcon(name: string): (camera: bool)
    ensures camera <==> FileExtension(name) in {"png", "jpg", "jpeg"}
  {
    var extension := FileExtension(name);
    extension == "png" || extension == "jpg" || extension == "jpeg"
  }

  /** `getStatusColor`. */
  function StatusColor(status: Status): (color: string)
    ensures status == UploadNew.Completed <==> color == "text-success"
    ensures status == UploadNew.Failed <==> color == "text-destructive"
    ensures status == UploadNew.Uploading <==> color == "text-primary"
  {
    match status
    case Completed => "text-success"
    case Failed => "text-destructive"
    case Uploading => "text-primary"
  }

  class UploadPage {
    var uploadedFiles: seq<UploadedFile>
    var toasts: seq<Toast>

    constructor()
      ensures uploadedFiles == [] && toasts == []
    {
      uploadedFiles := [];
      toasts := [];
    }

    /** `onDrop`: the new entries go after the existing ones. */
    method OnDrop(names: seq<string>)
      modifies `uploadedFiles
      ensures uploadedFiles == old(uploadedFiles) + NewEntries(names)
    {
      uploadedFiles := uploadedFiles + NewEntries(names);
    }

    /** One firing of the interval started for `name`. */
    method IntervalFires(name: string)
      modifies `uploadedFiles
      ensures uploadedFiles == Tick(old(uploadedFiles), name)
    {
      uploadedFiles := Tick(uploadedFiles, name);
    }

    /** The timeout started for `name`: the entries are completed and the
        upload is announced. */
    method TimeoutFires(name: string)
      modifies this
      ensures uploadedFiles == Timeout(old(uploadedFiles), name)
      ensures toasts == old(toasts) + [SuccessToast(name + " enviado com sucesso!")]
    {
      uploadedFiles := Timeout(uploadedFiles, name);
      toasts := toasts + [SuccessToast(name + " enviado com sucesso!")];
    }
  }
}
