/**
 * The document rules of the Documents page: file validation, the upload and
 * update checks, storage-path construction, the public URL of a stored
 * document and the extraction of the storage path back out of that URL,
 * the download route and the file-type icon.
 */
module Documents {
  import opened Wrappers
  import opened Files
  import opened Text

  /** A row of the `documents` table, as the listing query returns it. */
  datatype DocumentRow = DocumentRow(
    id: string,
    name: string,
    docType: string,
    filePath: string,
    fileType: string,
    uploadedAt: string,
    updatedAt: string,
    userId: string)

  /** A document as the page shows it: the row plus its derived `file_url`. */
  datatype Document = Document(
    id: string,
    name: string,
    docType: string,
    fileUrl: string,
    filePath: string,
    fileType: string,
    uploadedAt: string,
    updatedAt: string,
    userId: string)

  // ---------------------------------------------------------------------------
  // Files

  const DocFileTypes: seq<string> := [
    "application/pdf",
    "image/png",
    "image/jpeg",
    "image/jpg",
    "application/msword",
    "application/vnd.openxmlformats-officedocument.wordprocessingml.document",
    "application/vnd.ms-excel",
    "application/vnd.openxmlformats-officedocument.spreadsheetml.sheet"
  ]

  const MaxDocFileSize: nat := 10 * MiB

  /** Any listed type, or any image type at all. */
  predicate AllowedDocType(mime: string) {
    mime in DocFileTypes || IsPrefix("image/", mime)
  }

  /** `handleFileChange`: the type is checked before the size. */
  function CheckDocFile(f: FileInfo): (r: FileCheck)
    ensures r == FileAccepted <==> AllowedDocType(f.mime) && f.size <= MaxDocFileSize
    ensures r == InvalidType <==> !AllowedDocType(f.mime)
  {
    if !AllowedDocType(f.mime) then InvalidType
    else if f.size > MaxDocFileSize then TooLarge
    else FileAccepted
  }

  /** The upload / edit form. */
  datatype DocForm = DocForm(name: string, docType: string, file: Option<FileInfo>)

  const EmptyDocForm := DocForm("", "", None)

  /** The form after a file is picked: an accepted file is kept and names the document unless a name was typed. */
  function PickFile(form: DocForm, f: FileInfo): (r: DocForm)
    ensures CheckDocFile(f) != FileAccepted ==> r == form
    ensures CheckDocFile(f) == FileAccepted ==>
      r.file == Some(f) && r.docType == form.docType &&
      r.name == (if form.name == "" then f.name else form.name)
  {
    if CheckDocFile(f) == FileAccepted then
      form.(file := Some(f), name := if form.name != "" then form.name else f.name)
    else form
  }

  const CustomType := "Other custom documents"

  datatype UploadCheck = MissingTypeOrFile | MissingCustomName | ReadyToUpload

  /** `handleUpload`'s two guards. */
  function CheckUpload(form: DocForm): (r: UploadCheck)
    ensures r == ReadyToUpload <==>
      form.docType != "" && form.file.Some? && (form.docType == CustomType ==> form.name != "")
    ensures r == MissingTypeOrFile <==> form.docType == "" || form.file.None?
  {
    if form.docType == "" || form.file.None? then MissingTypeOrFile
    else if form.docType == CustomType && form.name == "" then MissingCustomName
    else ReadyToUpload
  }

  /** The "Upload Document" button's `disabled` condition. */
  predicate UploadDisabled(form: DocForm, uploading: bool) {
    uploading || form.docType == "" || form.file.None? || (form.docType == CustomType && form.name == "")
  }

  /** The button is enabled exactly when the upload guards would pass. */
  lemma UploadButtonMatchesGuards(form: DocForm)
    ensures !UploadDisabled(form, false) <==> CheckUpload(form) == ReadyToUpload
    ensures UploadDisabled(form, true)
  {
  }

  // ---------------------------------------------------------------------------
  // Storage paths

  /** `${Date.now()}_${random}.${fileExt}`; the random text is an input. */
  function StoredFileName(nowMs: nat, random: string, ext: string): string {
    NatToString(nowMs) + "_" + random + "." + ext
  }

  /** `${user.id}/${fileName}` */
  function StoragePath(userId: string, fileName: string): (path: string)
    ensures IsPrefix(userId + "/", path)
  {
    userId + "/" + fileName
  }

  /** The stored file keeps the extension of the uploaded file, whatever the user id and random part. */
  lemma StoragePathKeepsExtension(userId: string, nowMs: nat, random: string, fileName: string)
    ensures var ext := FileExtension(fileName);
      FileExtension(StoragePath(userId, StoredFileName(nowMs, random, ext))) == ext
  {
    var ext := FileExtension(fileName);
    var front := userId + "/" + NatToString(nowMs) + "_" + random;
    assert StoragePath(userId, StoredFileName(nowMs, random, ext)) == front + "." + ext;
    SplitLastPiece(front, ".", ext);
  }

  // ---------------------------------------------------------------------------
  // Public URLs

  const PublicMarker := "storage/v1/object/public"
  const DocumentsMarker := "/storage/v1/object/public/documents/"

  /** `file_url` of a listed document: `http` paths are kept, others are put under the public bucket URL. */
  function FileUrl(baseUrl: string, path: string): (url: string)
    ensures IsPrefix("http", path) ==> url == path
    ensures !IsPrefix("http", path) ==> url == baseUrl + DocumentsMarker + path
  {
    if IsPrefix("http", path) then path else baseUrl + DocumentsMarker + path
  }

  /** The mapping of the listing from rows to documents. */
  function ToDocument(baseUrl: string, row: DocumentRow): (d: Document)
    ensures d.id == row.id && d.filePath == row.filePath && d.fileUrl == FileUrl(baseUrl, row.filePath)
  {
    Document(row.id, row.name, row.docType, FileUrl(baseUrl, row.filePath), row.filePath, row.fileType,
             row.uploadedAt, row.updatedAt, row.userId)
  }

  /** `data.pages.flatMap(page => page.map(...))` */
  function Listing(baseUrl: string, pages: seq<seq<DocumentRow>>): seq<Document> {
    if pages == [] then []
    else seq(|pages[0]|, i requires 0 <= i < |pages[0]| => ToDocument(baseUrl, pages[0][i])) + Listing(baseUrl, pages[1..])
  }

  /**
   * The storage path `handleUpdate` and `handleDelete` recover from a
   * document's URL: the piece after the first documents marker, if the URL
   * mentions public storage and the marker at all.
   */
  function StoredPathOf(url: string): (r: Option<string>)
    ensures r.Some? ==> Contains(url, PublicMarker) && !Contains(r.value, DocumentsMarker)
  {
    if Contains(url, PublicMarker) then
      var urlParts := Split(url, DocumentsMarker);
      if |urlParts| > 1 then Some(urlParts[1]) else None
    else None
  }

  /** The first documents marker of `baseUrl + marker` is the appended one. */
  predicate MarkerStartsAfter(baseUrl: string) {
    IndexOf(baseUrl + DocumentsMarker, DocumentsMarker) == Some(|baseUrl|)
  }

  /** A base URL without "/s" in it (such as `https://<project>.supabase.co`) qualifies. */
  lemma PlainBaseQualifies(baseUrl: string)
    requires !Contains(baseUrl, "/s")
    ensures MarkerStartsAfter(baseUrl)
  {
    var u := baseUrl + DocumentsMarker;
    assert OccursAt(u, DocumentsMarker, |baseUrl|) by {
      assert u[|baseUrl|..|baseUrl| + |DocumentsMarker|] == DocumentsMarker;
    }
    assert DocumentsMarker[0] == '/' && DocumentsMarker[1] == 's';
    assert DocumentsMarker[..2] == "/s";
    forall j: nat | j < |baseUrl|
      ensures !OccursAt(u, DocumentsMarker, j)
    {
      var w := u[j..j + |DocumentsMarker|];
      if j + 1 < |baseUrl| {
        assert !OccursAt(baseUrl, "/s", j);
        assert w[..2] == u[j..j + 2] == baseUrl[j..j + 2];
      } else {
        assert w[1] == u[|baseUrl|] == DocumentsMarker[0];
      }
    }
    IndexOfUnique(u, DocumentsMarker, |baseUrl|);
  }

  /**
   * Round trip: the storage path recovered from the URL of a document stored
   * under `path` is `path` again, for paths that are not external links and
   * do not themselves contain the marker.
   */
  lemma StoredPathRoundTrip(baseUrl: string, path: string)
    requires !IsPrefix("http", path) && !Contains(path, DocumentsMarker) && MarkerStartsAfter(baseUrl)
    ensures StoredPathOf(FileUrl(baseUrl, path)) == Some(path)
  {
    var url := FileUrl(baseUrl, path);
    assert url == (baseUrl + DocumentsMarker) + path;
    IndexOfExtend(baseUrl + DocumentsMarker, path, DocumentsMarker, |baseUrl|);
    SplitStep(url, DocumentsMarker, |baseUrl|);
    assert url[..|baseUrl|] == baseUrl;
    assert url[|baseUrl| + |DocumentsMarker|..] == path;
    SplitNoSeparator(path, DocumentsMarker);
    DerivedUrlIsPublic(baseUrl, path);
  }

  /** Every URL put under the bucket mentions public storage. */
  lemma DerivedUrlIsPublic(baseUrl: string, path: string)
    ensures Contains(baseUrl + DocumentsMarker + path, PublicMarker)
  {
    var url := baseUrl + DocumentsMarker + path;
    var w := url[|baseUrl| + 1..|baseUrl| + 1 + |PublicMarker|];
    assert forall k | 0 <= k < |PublicMarker| :: w[k] == DocumentsMarker[k + 1] == PublicMarker[k];
    assert w == PublicMarker;
    OccurrenceContains(url, PublicMarker, |baseUrl| + 1);
  }

  /** An external link that never mentions public storage yields no storage path to remove. */
  lemma ExternalLinkHasNoStoredPath(baseUrl: string, path: string)
    requires IsPrefix("http", path) && !Contains(path, PublicMarker)
    ensures StoredPathOf(FileUrl(baseUrl, path)) == None
  {
  }

  // ---------------------------------------------------------------------------
  // Download, delete and update

  datatype DownloadRoute = OpenInNewTab(url: string) | DownloadFromStorage(path: string, name: string)

  /** `handleDownload` */
  function RouteDownload(d: Document): (r: DownloadRoute)
    ensures r.OpenInNewTab? <==> IsPrefix("http", d.fileUrl) && !Contains(d.fileUrl, PublicMarker)
    ensures r.OpenInNewTab? ==> r.url == d.fileUrl
    ensures r.DownloadFromStorage? ==> r.path == d.filePath && r.name == d.name
  {
    if IsPrefix("http", d.fileUrl) && !Contains(d.fileUrl, PublicMarker) then OpenInNewTab(d.fileUrl)
    else DownloadFromStorage(d.filePath, d.name)
  }

  /** A listed document opens in a new tab exactly when its stored path is an external link outside public storage. */
  lemma ListedDownloadRoute(baseUrl: string, row: DocumentRow)
    ensures RouteDownload(ToDocument(baseUrl, row)).OpenInNewTab? <==>
      IsPrefix("http", row.filePath) && !Contains(row.filePath, PublicMarker)
  {
    if !IsPrefix("http", row.filePath) {
      DerivedUrlIsPublic(baseUrl, row.filePath);
    }
  }

  /** `documents.find(doc => doc.id === id)` */
  function FindById(docs: seq<Document>, id: string): (r: Option<Document>)
    ensures r.None? <==> forall i :: 0 <= i < |docs| ==> docs[i].id != id
    ensures r.Some? ==> r.value.id == id
    ensures r.Some? ==> exists i :: 0 <= i < |docs| && docs[i] == r.value && forall k :: 0 <= k < i ==> docs[k].id != id
  {
    if docs == [] then None
    else if docs[0].id == id then Some(docs[0])
    else
      var r := FindById(docs[1..], id);
      assert forall i :: 1 <= i < |docs| ==> docs[i] == docs[1..][i - 1];
      r
  }

  datatype DeletePlan = NothingToDelete | DeleteDocument(id: string, removeFile: Option<string>)

  /** `handleDelete(id)`: remove the stored file if its path can be recovered, then the row. */
  function PlanDelete(user: Option<string>, docs: seq<Document>, id: string): (p: DeletePlan)
    ensures p.DeleteDocument? <==> user.Some? && FindById(docs, id).Some?
    ensures p.DeleteDocument? ==> p.id == id && p.removeFile == StoredPathOf(FindById(docs, id).value.fileUrl)
  {
    if user.None? then NothingToDelete
    else match FindById(docs, id)
      case None => NothingToDelete
      case Some(d) => DeleteDocument(id, StoredPathOf(d.fileUrl))
  }

  /**
   * Deleting a document that lives in storage, in any listing where it is
   * the first entry with its id, removes exactly its own stored file.
   */
  lemma DeleteRemovesOwnFile(baseUrl: string, user: string, docs: seq<Document>, row: DocumentRow)
    requires !IsPrefix("http", row.filePath) && !Contains(row.filePath, DocumentsMarker) && MarkerStartsAfter(baseUrl)
    requires FindById(docs, row.id) == Some(ToDocument(baseUrl, row))
    ensures PlanDelete(Some(user), docs, row.id) == DeleteDocument(row.id, Some(row.filePath))
  {
    StoredPathRoundTrip(baseUrl, row.filePath);
  }

  datatype UpdatePlan =
    | NoUpdate
    | Rename(name: string, docType: string)
    | Replace(removeFile: Option<string>, newPath: string, name: string, docType: string, fileType: string, fileSize: nat)

  /**
   * `handleUpdate`: without a new file only the name and type change; with
   * one, the old stored file is removed (when its path can be recovered) and
   * the new file goes under a fresh path.
   */
  function PlanUpdate(editing: Option<Document>, form: DocForm, user: Option<string>, nowMs: nat, random: string): (p: UpdatePlan)
    ensures p == NoUpdate <==> editing.None? || form.docType == "" || user.None?
    ensures p.Rename? <==> p != NoUpdate && form.file.None?
    ensures p.Rename? ==> p.name == form.name && p.docType == form.docType
    ensures p.Replace? ==>
      p.removeFile == StoredPathOf(editing.value.fileUrl) && p.docType == form.docType &&
      IsPrefix(user.value + "/", p.newPath) &&
      p.name == (if form.name != "" then form.name else form.file.value.name)
  {
    if editing.None? || form.docType == "" || user.None? then NoUpdate
    else match form.file
      case None => Rename(form.name, form.docType)
      case Some(f) =>
        var fileName := StoredFileName(nowMs, random, FileExtension(f.name));
        Replace(StoredPathOf(editing.value.fileUrl), StoragePath(user.value, fileName),
                if form.name != "" then form.name else f.name, form.docType, f.mime, f.size)
  }

  // ---------------------------------------------------------------------------
  // File icons

  datatype Icon = PdfIcon | ImageIcon | WordIcon | SheetIcon | GenericIcon

  /**
   * `getFileIcon` as written: the word/document test comes before the
   * spreadsheet test, and every Office Open XML type contains
   * "officedocument".
   */
  function FileIconAsWritten(fileType: string): Icon {
    if Contains(fileType, "pdf") then PdfIcon
    else if Contains(fileType, "image") then ImageIcon
    else if Contains(fileType, "word") || Contains(fileType, "document") then WordIcon
    else if Contains(fileType, "excel") || Contains(fileType, "spreadsheet") then SheetIcon
    else GenericIcon
  }

  /** Any type that mentions "document" is never shown with the sheet icon. */
  lemma DocumentNeverSheet(fileType: string)
    requires Contains(fileType, "document")
    ensures FileIconAsWritten(fileType) != SheetIcon
  {
  }

  /** The `.xlsx` entry of the accepted types, cut around "document". */
  lemma XlsxSpelling()
    ensures DocFileTypes[7] == "application/vnd.openxmlformats-office" + "document" + ".spreadsheetml.sheet"
  {
  }

  /** The `.xlsx` type, which names a spreadsheet, is not shown with the sheet icon. */
  lemma XlsxShownAsWord(xlsx: string)
    requires xlsx == "application/vnd.openxmlformats-office" + "document" + ".spreadsheetml.sheet"
    ensures Contains(xlsx, "spreadsheet") && FileIconAsWritten(xlsx) != SheetIcon
  {
    assert Contains("document", "document");
    ContainsInfix("application/vnd.openxmlformats-office", "document", ".spreadsheetml.sheet", "document");
    MentionsSpreadsheet(xlsx);
    DocumentNeverSheet(xlsx);
  }

  lemma MentionsSpreadsheet(xlsx: string)
    requires xlsx == "application/vnd.openxmlformats-office" + "document" + ".spreadsheetml.sheet"
    ensures Contains(xlsx, "spreadsheet")
  {
    assert xlsx == "application/vnd.openxmlformats-officedocument." + "spreadsheet" + "ml.sheet";
    assert Contains("spreadsheet", "spreadsheet");
    ContainsInfix("application/vnd.openxmlformats-officedocument.", "spreadsheet", "ml.sheet", "spreadsheet");
  }

  /** The classification the icons are evidently meant to give: spreadsheets are tested before documents. */
  function FileIcon(fileType: string): (r: Icon)
    ensures r == PdfIcon <==> Contains(fileType, "pdf")
    ensures r == ImageIcon <==> !Contains(fileType, "pdf") && Contains(fileType, "image")
    ensures r == SheetIcon <==> (!Contains(fileType, "pdf") && !Contains(fileType, "image") &&
      (Contains(fileType, "excel") || Contains(fileType, "spreadsheet")))
    ensures r == WordIcon <==> (!Contains(fileType, "pdf") && !Contains(fileType, "image") &&
      !Contains(fileType, "excel") && !Contains(fileType, "spreadsheet") &&
      (Contains(fileType, "word") || Contains(fileType, "document")))
    ensures r == GenericIcon <==> (!Contains(fileType, "pdf") && !Contains(fileType, "image") &&
      !Contains(fileType, "excel") && !Contains(fileType, "spreadsheet") &&
      !Contains(fileType, "word") && !Contains(fileType, "document"))
  {
    if Contains(fileType, "pdf") then PdfIcon
    else if Contains(fileType, "image") then ImageIcon
    else if Contains(fileType, "excel") || Contains(fileType, "spreadsheet") then SheetIcon
    else if Contains(fileType, "word") || Contains(fileType, "document") then WordIcon
    else GenericIcon
  }

  /**
   * Spreadsheet types that are neither PDF nor image get the sheet icon, and
   * word-processing types that do not mention spreadsheets get the word icon;
   * on every other type the corrected order agrees with the original.
   */
  lemma FileIconIntended(fileType: string)
    ensures (!Contains(fileType, "pdf") && !Contains(fileType, "image") &&
             (Contains(fileType, "excel") || Contains(fileType, "spreadsheet"))) ==> FileIcon(fileType) == SheetIcon
    ensures (!Contains(fileType, "pdf") && !Contains(fileType, "image") &&
             !Contains(fileType, "excel") && !Contains(fileType, "spreadsheet") &&
             (Contains(fileType, "word") || Contains(fileType, "document"))) ==> FileIcon(fileType) == WordIcon
    ensures FileIcon(fileType) != FileIconAsWritten(fileType) ==>
            FileIcon(fileType) == SheetIcon && FileIconAsWritten(fileType) == WordIcon
  {
  }

  // ---------------------------------------------------------------------------
  // The page state

  datatype UploadOutcome =
    | Rejected(check: UploadCheck)
    | NoUser
    | StorageFailed(path: string)
    | InsertFailed(row: NewRow)
    | Uploaded(row: NewRow)

  /** What `handleUpload` inserts into the `documents` table. */
  datatype NewRow = NewRow(userId: string, name: string, docType: string, filePath: string, fileType: string, fileSize: nat)

  /** The row for the checked form; `fileName` is the generated storage name. */
  function RowFor(form: DocForm, userId: string, fileName: string): (row: NewRow)
    requires form.file.Some?
    ensures row.filePath == StoragePath(userId, fileName) && row.docType == form.docType
    ensures row.name == (if form.name != "" then form.name else form.file.value.name)
  {
    var f := form.file.value;
    NewRow(userId, if form.name != "" then form.name else f.name, form.docType,
           StoragePath(userId, fileName), f.mime, f.size)
  }

  /** The inserted row belongs to the user, keeps the form's type and name and the file's extension. */
  predicate RowMatches(row: NewRow, form: DocForm, userId: string)
    requires form.file.Some?
  {
    row.userId == userId && row.docType == form.docType &&
    row.name == (if form.name != "" then form.name else form.file.value.name) &&
    IsPrefix(userId + "/", row.filePath)
  }

  /** What `handleUpload` does with the form, given the outcome of the storage upload and of the insert. */
  function UploadResult(form: DocForm, user: Option<string>, nowMs: nat, random: string, storageOk: bool, insertOk: bool)
    : (outcome: UploadOutcome)
    ensures CheckUpload(form) != ReadyToUpload <==> outcome.Rejected?
    ensures outcome.Rejected? ==> outcome.check == CheckUpload(form)
    ensures outcome == NoUser <==> CheckUpload(form) == ReadyToUpload && user.None?
    ensures outcome.Uploaded? <==> CheckUpload(form) == ReadyToUpload && user.Some? && storageOk && insertOk
    ensures outcome.StorageFailed? ==> outcome.path == StoragePath(user.value, StoredFileName(nowMs, random, FileExtension(form.file.value.name)))
    ensures outcome.InsertFailed? || outcome.Uploaded? ==> RowMatches(outcome.row, form, user.value)
  {
    var check := CheckUpload(form);
    if check != ReadyToUpload then Rejected(check)
    else if user.None? then NoUser
    else
      var fileName := StoredFileName(nowMs, random, FileExtension(form.file.value.name));
      if !storageOk then StorageFailed(StoragePath(user.value, fileName))
      else if !insertOk then InsertFailed(RowFor(form, user.value, fileName))
      else Uploaded(RowFor(form, user.value, fileName))
  }

  class DocumentsPage {
    var form: DocForm
    var editing: Option<Document>
    var uploadDialogOpen: bool
    var editDialogOpen: bool
    var viewDialogOpen: bool
    var selected: Option<Document>

    constructor ()
      ensures form == EmptyDocForm && editing.None? && selected.None?
      ensures !uploadDialogOpen && !editDialogOpen && !viewDialogOpen
    {
      form, editing, selected := EmptyDocForm, None, None;
      uploadDialogOpen, editDialogOpen, viewDialogOpen := false, false, false;
    }

    method FileChange(f: FileInfo) returns (check: FileCheck)
      modifies this
      ensures check == CheckDocFile(f) && form == PickFile(old(form), f)
      ensures editing == old(editing) && selected == old(selected)
      ensures uploadDialogOpen == old(uploadDialogOpen) && editDialogOpen == old(editDialogOpen) && viewDialogOpen == old(viewDialogOpen)
    {
      check := CheckDocFile(f);
      if check == FileAccepted {
        form := form.(file := Some(f), name := if form.name != "" then form.name else f.name);
      }
    }

    /** `handleEdit(doc)` */
    method Edit(d: Document)
      modifies this
      ensures editing == Some(d) && form == DocForm(d.name, d.docType, None) && editDialogOpen
      ensures selected == old(selected) && uploadDialogOpen == old(uploadDialogOpen) && viewDialogOpen == old(viewDialogOpen)
    {
      editing := Some(d);
      form := DocForm(d.name, d.docType, None);
      editDialogOpen := true;
    }

    /** `handleResetForm` */
    method ResetForm()
      modifies this
      ensures form == EmptyDocForm && editing.None?
      ensures selected == old(selected)
      ensures uploadDialogOpen == old(uploadDialogOpen) && editDialogOpen == old(editDialogOpen) && viewDialogOpen == old(viewDialogOpen)
    {
      form := EmptyDocForm;
      editing := None;
    }

    /** `handleView(doc)` */
    method View(d: Document)
      modifies this
      ensures selected == Some(d) && viewDialogOpen
      ensures form == old(form) && editing == old(editing)
      ensures uploadDialogOpen == old(uploadDialogOpen) && editDialogOpen == old(editDialogOpen)
    {
      selected := Some(d);
      viewDialogOpen := true;
    }

    /**
     * `handleUpload`, with the outcomes of the storage upload and of the
     * row insert as inputs. Only a full success resets the form and closes
     * the dialog.
     */
    method Upload(user: Option<string>, nowMs: nat, random: string, storageOk: bool, insertOk: bool)
      returns (outcome: UploadOutcome)
      modifies this
      ensures outcome == UploadResult(old(form), user, nowMs, random, storageOk, insertOk)
      ensures outcome.Uploaded? ==> form == EmptyDocForm && !uploadDialogOpen && editing.None?
      ensures !outcome.Uploaded? ==> form == old(form) && uploadDialogOpen == old(uploadDialogOpen) && editing == old(editing)
      ensures selected == old(selected) && editDialogOpen == old(editDialogOpen) && viewDialogOpen == old(viewDialogOpen)
    {
      outcome := UploadResult(form, user, nowMs, random, storageOk, insertOk);
      if outcome.Uploaded? {
        form := EmptyDocForm;
        uploadDialogOpen := false;
        editing := None;
      }
    }

    /**
     * `handleUpdate`, with the success of the backend calls as an input:
     * on success the form is reset and the edit dialog closed.
     */
    method Update(user: Option<string>, nowMs: nat, random: string, backendOk: bool) returns (plan: UpdatePlan)
      modifies this
      ensures plan == PlanUpdate(old(editing), old(form), user, nowMs, random)
      ensures plan != NoUpdate && backendOk ==> form == EmptyDocForm && !editDialogOpen && editing.None?
      ensures plan == NoUpdate || !backendOk ==> form == old(form) && editDialogOpen == old(editDialogOpen) && editing == old(editing)
      ensures selected == old(selected) && uploadDialogOpen == old(uploadDialogOpen) && viewDialogOpen == old(viewDialogOpen)
    {
      plan := PlanUpdate(editing, form, user, nowMs, random);
      if plan != NoUpdate && backendOk {
        form := EmptyDocForm;
        editDialogOpen := false;
        editing := None;
      }
    }
  }
}
