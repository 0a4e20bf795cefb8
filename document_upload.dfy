/**
 * The `DocumentUpload` dialog: validates the form with
 * `documentUploadSchema`, requires a signed-in user, stores the attached
 * file (if any) under `<user id>/<base>-<timestamp>.<extension>`, then
 * inserts the document record with empty optional fields turned into
 * nulls and an empty version into `1.0`.
 */
module DocumentUpload {
  import opened Wrappers
  import opened JsText
  import opened Validations
  import opened Toasts

  datatype File = File(name: string, size: nat)

  /** A row of the `documents` table as inserted; `None` is SQL null. */
  datatype Row = Row(
    title: string, code: Option<string>, category: string, status: string, description: Option<string>,
    filePath: Option<string>, fileName: Option<string>, fileSize: Option<nat>, version: string,
    author: Option<string>, userId: string)

  const InitialStatus := "draft"
  const InitialVersion := "1.0"
  const NotSignedInMessage := "Devi essere autenticato per caricare documenti"
  const FailureFallback := "Errore durante il caricamento"
  const SuccessToast := Toast("Documento Caricato", "Il documento è stato caricato con successo", false)

  /** `name.split('.').pop()`: the text after the last dot, or the whole name when it has none. */
  function FileExtension(name: string): string {
    LastPiece(name, '.')
  }

  /** The extension is the dot-free tail of the name: all of it when it has no dot, else what follows the last dot. */
  lemma ExtensionIsTail(name: string)
    ensures var ext := FileExtension(name);
            && '.' !in ext && |ext| <= |name| && ext == name[|name| - |ext|..]
            && ('.' in name <==> ext != name)
            && (ext != name ==> name[|name| - |ext| - 1] == '.')
  {
    LastPieceIsSuffix(name, '.');
  }

  /** `name.replace('.' + ext, '')`: the first occurrence of the dotted extension is cut out, wherever it is. */
  function BaseName(name: string): string {
    ReplaceFirst(name, "." + FileExtension(name), "")
  }

  /** `${base}-${Date.now()}.${ext}` */
  function StoredName(name: string, now: nat): string {
    BaseName(name) + "-" + Decimal(now) + "." + FileExtension(name)
  }

  /** `${user.id}/${fileName}` */
  function StoragePath(userId: string, name: string, now: nat): string {
    userId + "/" + StoredName(name, now)
  }

  /** `value || null` */
  function NullIfEmpty(s: string): (r: Option<string>)
    ensures r.None? <==> s == ""
    ensures r.Some? ==> r.value == s
  {
    if s == "" then None else Some(s)
  }

  /**
   * The record inserted: the validated strings, empty code, description and
   * author as null, an empty version as `1.0`, and the three file columns
   * holding the stored path, name and size, or null together when no file
   * was stored.
   */
  function NewRow(data: UploadFields, status: string, userId: string, stored: Option<(string, string, nat)>): (r: Row)
    ensures r.title == data.title && r.category == data.category && r.status == status && r.userId == userId
    ensures r.code == NullIfEmpty(data.code) && r.description == NullIfEmpty(data.description)
    ensures r.author == NullIfEmpty(data.author)
    ensures r.version == (if data.version == "" then InitialVersion else data.version) && r.version != ""
    ensures stored.None? <==> r.filePath.None?
    ensures stored.Some? ==>
              r.filePath == Some(stored.value.0) && r.fileName == Some(stored.value.1)
              && r.fileSize == Some(stored.value.2)
    ensures r.filePath.None? <==> r.fileName.None?
    ensures r.filePath.None? <==> r.fileSize.None?
  {
    Row(data.title, NullIfEmpty(data.code), data.category, status, NullIfEmpty(data.description),
        if stored.Some? then Some(stored.value.0) else None,
        if stored.Some? then Some(stored.value.1) else None,
        if stored.Some? then Some(stored.value.2) else None,
        OrElse(Some(data.version), InitialVersion), NullIfEmpty(data.author), userId)
  }

  /** The file columns of the record: the storage path, the stored name and the size, when a file is attached. */
  function StoredFile(userId: string, file: Option<File>, now: nat): Option<(string, string, nat)> {
    if file.Some? then Some((StoragePath(userId, file.value.name, now), StoredName(file.value.name, now), file.value.size))
    else None
  }

  /** The last piece after appending a dot and a dot-free text is that text. */
  lemma LastPieceAfterDot(x: string, e: string)
    requires '.' !in e
    ensures LastPiece(x + "." + e, '.') == e
  {
    var s := x + "." + e;
    LastIndexOfIsLast(s, '.');
    var r := LastIndexOf(s, '.');
    assert s[|x|] == '.';
    assert s[|x| + 1..] == e;
    assert r == |x|;
  }

  /** The stored name keeps the original extension. */
  lemma StoredNameKeepsExtension(name: string, now: nat)
    ensures FileExtension(StoredName(name, now)) == FileExtension(name)
  {
    ExtensionIsTail(name);
    LastPieceAfterDot(BaseName(name) + "-" + Decimal(now), FileExtension(name));
  }

  /** The storage path lies in the user's folder, ends with the stored name and keeps the original extension. */
  lemma StoragePathLayout(userId: string, name: string, now: nat)
    ensures var path := StoragePath(userId, name, now);
            && path[..|userId| + 1] == userId + "/"
            && path[|userId| + 1..] == StoredName(name, now)
            && FileExtension(path) == FileExtension(name)
  {
    ExtensionIsTail(name);
    var head := userId + "/" + BaseName(name) + "-" + Decimal(now);
    assert StoragePath(userId, name, now) == head + "." + FileExtension(name);
    LastPieceAfterDot(head, FileExtension(name));
  }

  /** A name without a dot is its own extension and its own base name. */
  lemma NoDotKeepsName(name: string)
    requires '.' !in name
    ensures FileExtension(name) == name && BaseName(name) == name
  {
    LastIndexOfIsLast(name, '.');
  }

  /**
   * With a dot in the name, the dotted extension is always found (at the
   * latest at the end), so exactly that many characters go: the first
   * occurrence, which may sit inside an earlier segment.
   */
  lemma BaseNameCutsFirstOccurrence(name: string)
    requires '.' in name
    ensures var pat := "." + FileExtension(name);
            var i := IndexOf(name, pat);
            0 <= i <= |name| - |pat| && name[i..i + |pat|] == pat
            && BaseName(name) == name[..i] + name[i + |pat|..]
            && |BaseName(name)| == |name| - |pat|
  {
    ExtensionIsTail(name);
    var ext := FileExtension(name);
    var pat := "." + ext;
    assert name[|name| - |pat|..] == pat;
    assert OccursAt(name, pat, |name| - |pat|);
  }

  /** When the dotted extension occurs only at the end, the base name is everything before it. */
  lemma BaseNameOfPlainName(name: string)
    requires '.' in name
    requires forall j :: 0 <= j < |name| - |FileExtension(name)| - 1 ==> !OccursAt(name, "." + FileExtension(name), j)
    ensures var k := |name| - |FileExtension(name)| - 1;
            0 <= k && BaseName(name) == name[..k]
  {
    BaseNameCutsFirstOccurrence(name);
  }

  /** The dotted extension `.b` of `x.bc.b` first occurs inside `.bc`, so the base name is `xc.b`. */
  lemma BaseNameCutsEarlierSegment()
    ensures FileExtension("x.bc.b") == "b"
    ensures BaseName("x.bc.b") == "xc.b"
  {
    var name := "x.bc.b";
    LastPieceAfterDot("x.bc", "b");
    assert name == "x.bc" + "." + "b";
    assert name[0..2] != ".b" by { assert name[0..2][0] == 'x'; }
    assert name[1..3] == ".b";
    assert IndexOf(name, ".b") == 1;
    assert name[..1] == "x" && name[3..] == "c.b";
  }

  class UploadDialog {
    var title: string
    var code: string
    var category: string
    var status: string
    var description: string
    var author: string
    var version: string
    var file: Option<File>
    var open: bool
    var isUploading: bool
    /** The toasts shown so far, oldest first. */
    var toasts: seq<Toast>

    /** The form's fields, as one value. */
    function Form(): (string, string, string, string, string, string, string, Option<File>)
      reads this
    {
      (title, code, category, status, description, author, version, file)
    }

    /** The form and the dialog's visibility are as they were. */
    predicate Unchanged(form: (string, string, string, string, string, string, string, Option<File>), wasOpen: bool)
      reads this
    {
      Form() == form && open == wasOpen
    }

    function Input(): UploadFields
      reads this
    {
      UploadFields(title, OrElse(Some(code), ""), OrElse(Some(description), ""), OrElse(Some(author), ""),
                   OrElse(Some(version), ""), category)
    }

    /** The form's defaults: status `draft`, version `1.0`, no file, every other field empty. */
    predicate AtDefaults()
      reads this
    {
      title == "" && code == "" && category == "" && status == InitialStatus && description == ""
      && author == "" && version == InitialVersion && file.None?
    }

    constructor()
      ensures AtDefaults() && !open && !isUploading && toasts == []
    {
      title, code, category, status := "", "", "", InitialStatus;
      description, author, version, file := "", "", InitialVersion, None;
      open, isUploading, toasts := false, false, [];
    }

    /** `resetForm` */
    method ResetForm()
      modifies this
      ensures AtDefaults()
      ensures open == old(open) && isUploading == old(isUploading) && toasts == old(toasts)
    {
      title := "";
      code := "";
      category := "";
      status := InitialStatus;
      description := "";
      author := "";
      version := InitialVersion;
      file := None;
    }

    /**
     * The `try` block of `handleUpload` once the form is valid and the user
     * known: store the file if there is one, then insert the record. An
     * upload error stops before the insert; only full success resets the
     * form and closes the dialog. Returns the file stored (path and file)
     * and the row inserted, if those steps were reached.
     */
    method Submit(data: UploadFields, userId: string, now: nat, uploadError: Option<Fault>, insertError: Option<Fault>)
      returns (upload: Option<(string, File)>, insert: Option<Row>)
      modifies this
      ensures !isUploading
      ensures upload.Some? <==> old(file).Some?
      ensures upload.Some? ==> upload.value == (StoragePath(userId, old(file).value.name, now), old(file).value)
      ensures upload.Some? && uploadError.Some? ==>
                insert.None? && toasts == old(toasts) + [ErrorToast(Shown(uploadError.value, FailureFallback))]
      ensures insert.Some? <==> old(file).None? || uploadError.None?
      ensures insert.Some? ==>
                insert.value == NewRow(data, old(status), userId, StoredFile(userId, old(file), now))
      ensures insert.Some? && insertError.Some? ==>
                toasts == old(toasts) + [ErrorToast(Shown(insertError.value, FailureFallback))]
      ensures insert.Some? && insertError.None? ==> toasts == old(toasts) + [SuccessToast] && AtDefaults() && !open
      ensures !(insert.Some? && insertError.None?) ==> Unchanged(old(this.Form()), old(open))
    {
      upload, insert := None, None;
      isUploading := true;
      var filePath: Option<string> := None;
      var fileName: Option<string> := None;
      var fileSize: Option<nat> := None;
      if file.Some? {
        fileName := Some(StoredName(file.value.name, now));
        filePath := Some(userId + "/" + fileName.value);
        upload := Some((filePath.value, file.value));
        if uploadError.Some? {
          toasts := toasts + [ErrorToast(Shown(uploadError.value, FailureFallback))];
          isUploading := false;
          return;
        }
        fileSize := Some(file.value.size);
      }
      var stored := if file.Some? then Some((filePath.value, fileName.value, fileSize.value)) else None;
      assert stored == StoredFile(userId, file, now);
      insert := Some(NewRow(data, status, userId, stored));
      if insertError.Some? {
        toasts := toasts + [ErrorToast(Shown(insertError.value, FailureFallback))];
        isUploading := false;
        return;
      }
      toasts := toasts + [SuccessToast];
      ResetForm();
      open := false;
      isUploading := false;
    }

    /**
     * `handleUpload`, with the signed-in user, the clock and the outcomes of
     * the storage upload and of the insert as parameters. A refused form
     * shows its first message, and a missing user the sign-in message,
     * before any storage or database effect; otherwise the upload and insert
     * proceed as `Submit` states.
     */
    method HandleUpload(user: Option<string>, now: nat, uploadError: Option<Fault>, insertError: Option<Fault>)
      returns (upload: Option<(string, File)>, insert: Option<Row>)
      modifies this
      ensures var v := ValidateUpload(old(Input()));
              v.Failure? ==>
                upload.None? && insert.None? && toasts == old(toasts) + [ErrorToast(v.error[0])]
                && Unchanged(old(this.Form()), old(open)) && isUploading == old(isUploading)
      ensures ValidateUpload(old(Input())).Success? && user.None? ==>
                upload.None? && insert.None? && toasts == old(toasts) + [ErrorToast(NotSignedInMessage)]
                && Unchanged(old(this.Form()), old(open)) && !isUploading
      ensures upload.Some? ==> ValidateUpload(old(Input())).Success? && user.Some?
      ensures insert.Some? ==> ValidateUpload(old(Input())).Success? && user.Some?
      ensures ValidateUpload(old(Input())).Success? && user.Some? ==>
                && !isUploading
                && (upload.Some? <==> old(file).Some?)
                && (upload.Some? ==> upload.value == (StoragePath(user.value, old(file).value.name, now), old(file).value))
                && (insert.Some? <==> old(file).None? || uploadError.None?)
      ensures ValidateUpload(old(Input())).Success? && user.Some? && insert.Some? ==>
                insert.value
                == NewRow(ValidateUpload(old(Input())).value, old(status), user.value, StoredFile(user.value, old(file), now))
      ensures ValidateUpload(old(Input())).Success? && user.Some? && upload.Some? && uploadError.Some? ==>
                toasts == old(toasts) + [ErrorToast(Shown(uploadError.value, FailureFallback))]
      ensures ValidateUpload(old(Input())).Success? && user.Some? && insert.Some? && insertError.Some? ==>
                toasts == old(toasts) + [ErrorToast(Shown(insertError.value, FailureFallback))]
      ensures ValidateUpload(old(Input())).Success? && user.Some? && insert.Some? && insertError.None? ==>
                AtDefaults() && !open && toasts == old(toasts) + [SuccessToast]
      ensures ValidateUpload(old(Input())).Success? && user.Some? && !(insert.Some? && insertError.None?) ==>
                Unchanged(old(this.Form()), old(open))
    {
      upload, insert := None, None;
      var validation := ValidateUpload(Input());
      if validation.Failure? {
        toasts := toasts + [ErrorToast(validation.error[0])];
        return;
      }
      if user.None? {
        isUploading := true;
        toasts := toasts + [ErrorToast(NotSignedInMessage)];
        isUploading := false;
        return;
      }
      upload, insert := Submit(validation.value, user.value, now, uploadError, insertError);
    }
  }
}
