/**
 * The upload page: a selected file, a form with a sector id and notes, and
 * `handleUpload`, which stores the file under a fresh name and inserts a
 * metadata row. Storage, authentication and table calls are replaced by
 * their answers, passed in as arguments.
 */
module DataUpload {
  import opened Wrappers
  import opened Text

  datatype File = File(name: string, size: nat, mimeType: string)

  datatype Form = Form(sectorId: string, notes: string)

  /** The form the page starts with and returns to after a successful upload. */
  function EmptyForm(): Form
  {
    Form("", "")
  }

  /** The fields of the `uploads` row this page fills in (the placeholder EXIF fields are not kept). */
  datatype UploadRow = UploadRow(
    mineId: Option<string>,
    sectorId: Option<string>,
    uploadedBy: Option<string>,
    imageUrl: string,
    originalFilename: string,
    fileSizeBytes: nat,
    mimeType: string,
    notes: string)

  /** A notification shown to the user. */
  datatype Toast = Toast(title: string, description: string, destructive: bool)

  const NoFileToast: Toast := Toast("No file selected", "Please select an image to upload", true)
  const SuccessToast: Toast := Toast("Upload successful", "Image uploaded and metadata captured", false)

  function FailureToast(message: string): Toast
  {
    Toast("Upload failed", message, true)
  }

  /** `name.split('.').pop()`: the text after the last dot, or the whole name when it has none. */
  function FileExtension(name: string): (ext: string)
    ensures '.' !in ext
    ensures |ext| <= |name| && name[|name| - |ext|..] == ext
    ensures '.' !in name ==> ext == name
    ensures '.' in name ==> |ext| < |name| && name[|name| - |ext| - 1] == '.'
  {
    LastPiece(name, '.')
  }

  /** The stored object's name: the time stamp, a dot and the extension. */
  function StorageName(stamp: string, name: string): (s: string)
    ensures |s| > |stamp| && s[..|stamp|] == stamp && s[|stamp|] == '.'
  {
    stamp + "." + FileExtension(name)
  }

  /** The stored name has the chosen file's extension, whatever the stamp holds. */
  lemma StorageNameKeepsExtension(stamp: string, name: string)
    ensures FileExtension(StorageName(stamp, name)) == FileExtension(name)
  {
  }

  /** `formData.sectorId || null`: an empty sector id is stored as null. */
  function SectorIdField(sectorId: string): (r: Option<string>)
    ensures r == None <==> sectorId == ""
    ensures r != None ==> r == Some(sectorId)
  {
    if sectorId == "" then None else Some(sectorId)
  }

  /** The row inserted for a stored file. */
  function UploadRowOf(file: File, form: Form, userId: Option<string>, mineId: Option<string>, publicUrl: string): (row: UploadRow)
    ensures row.sectorId == SectorIdField(form.sectorId)
    ensures row.notes == form.notes && row.uploadedBy == userId && row.mineId == mineId
    ensures row.originalFilename == file.name && row.fileSizeBytes == file.size && row.mimeType == file.mimeType
    ensures row.imageUrl == publicUrl
  {
    UploadRow(mineId, SectorIdField(form.sectorId), userId, publicUrl, file.name, file.size, file.mimeType, form.notes)
  }

  /** The page's state. */
  class UploadPage {
    var uploading: bool
    var file: Option<File>
    var formData: Form

    constructor ()
      ensures !uploading && file == None && formData == EmptyForm()
    {
      uploading := false;
      file := None;
      formData := EmptyForm();
    }

    /** `handleFileChange`: the first chosen file is selected; choosing none keeps the old selection. */
    method HandleFileChange(files: seq<File>)
      modifies this
      ensures file == (if |files| > 0 then Some(files[0]) else old(file))
      ensures uploading == old(uploading) && formData == old(formData)
    {
      if |files| > 0 {
        file := Some(files[0]);
      }
    }

    /** The sector select writes the sector id and keeps the notes. */
    method SetSectorId(value: string)
      modifies this
      ensures formData == old(formData).(sectorId := value)
      ensures uploading == old(uploading) && file == old(file)
    {
      formData := formData.(sectorId := value);
    }

    /** The notes box writes the notes and keeps the sector id. */
    method SetNotes(value: string)
      modifies this
      ensures formData == old(formData).(notes := value)
      ensures uploading == old(uploading) && file == old(file)
    {
      formData := formData.(notes := value);
    }

    /**
     * `handleUpload`. Without a file it only shows a toast. Otherwise it
     * stores the file (under `stamp` and the extension), inserts the row
     * when storing worked, and shows the outcome; the file and form clear
     * only on success, and `uploading` is false again on every path.
     * `stamp` is the rendering of `Date.now()`. `uploadError`, `lookupError`
     * and `insertError` are the messages of the three failure points the
     * catch handler sees: the storage upload, the user and profile lookups
     * (a rejected `getUser` or profile select), and the insert, each either
     * a returned error or a rejection. `publicUrl`, `userId` and `mineId` are
     * the backend's other answers.
     */
    method HandleUpload(stamp: string, uploadError: Option<string>, publicUrl: string,
                        lookupError: Option<string>, userId: Option<string>, mineId: Option<string>,
                        insertError: Option<string>)
      returns (storedAs: Option<string>, insertAttempt: Option<UploadRow>, toast: Toast)
      modifies this
      ensures old(file) == None ==>
        && storedAs == None && insertAttempt == None && toast == NoFileToast
        && uploading == old(uploading) && file == old(file) && formData == old(formData)
      ensures old(file) != None ==>
        && !uploading
        && storedAs == Some(StorageName(stamp, old(file).value.name))
        && (uploadError != None ==>
              insertAttempt == None && toast == FailureToast(uploadError.value)
              && file == old(file) && formData == old(formData))
        && (uploadError == None && lookupError != None ==>
              insertAttempt == None && toast == FailureToast(lookupError.value)
              && file == old(file) && formData == old(formData))
        && (uploadError == None && lookupError == None ==>
              insertAttempt == Some(UploadRowOf(old(file).value, old(formData), userId, mineId, publicUrl)))
        && (uploadError == None && lookupError == None && insertError != None ==>
              toast == FailureToast(insertError.value) && file == old(file) && formData == old(formData))
        && (uploadError == None && lookupError == None && insertError == None ==>
              toast == SuccessToast && file == None && formData == EmptyForm())
    {
      storedAs, insertAttempt := None, None;
      if file == None {
        toast := NoFileToast;
        return;
      }
      var f := file.value;
      uploading := true;
      var fileName := StorageName(stamp, f.name);
      storedAs := Some(fileName);
      if uploadError != None {
        toast := FailureToast(uploadError.value);
      } else if lookupError != None {
        toast := FailureToast(lookupError.value);
      } else {
        var row := UploadRowOf(f, formData, userId, mineId, publicUrl);
        insertAttempt := Some(row);
        if insertError != None {
          toast := FailureToast(insertError.value);
        } else {
          toast := SuccessToast;
          file := None;
          formData := EmptyForm();
        }
      }
      uploading := false;
    }
  }

  /**
   * The four facts in FileExtension's contract single out its result: any
   * dot-free suffix that is the whole name or follows a dot is the extension.
   */
  lemma ExtensionUnique(name: string, e: string)
    requires '.' !in e
    requires |e| <= |name| && name[|name| - |e|..] == e
    requires |e| == |name| || name[|name| - |e| - 1] == '.'
    ensures e == FileExtension(name)
  {
  }
}
