/** The image upload form (src/components/image_form.tsx): four state fields
    set by the inputs, a category list loaded once, a file picker that
    filters by type, and a submit that assembles a multipart form and resets
    the fields after a successful upload. */
module ImageForm {
  import opened Wrappers
  import opened Api
  import Entrypoint

  /** A browser `File`: its name and the MIME type the browser assigned. */
  datatype File = File(name: string, mimeType: string)

  /** The types the client keeps: `["image/png", "image/jpeg"].includes(type)`. */
  predicate ClientAccepts(mimeType: string) {
    mimeType in ["image/png", "image/jpeg"]
  }

  /** One `formData.append(key, value)`. */
  datatype FormEntry = TextEntry(key: string, text: string) | FileEntry(key: string, file: File)

  /** A `FormData` object: an ordered list of entries that only grows. */
  class FormData {
    var entries: seq<FormEntry>

    constructor ()
      ensures entries == []
    {
      entries := [];
    }

    method Append(entry: FormEntry)
      modifies this
      ensures entries == old(entries) + [entry]
    {
      entries := entries + [entry];
    }
  }

  /** The form a submit sends for the given field values. */
  function Submitted(name: string, categoryID: string, description: string, file: File): (entries: seq<FormEntry>)
    ensures |entries| == 4
    ensures entries[0].key == "name" && entries[1].key == "category_id"
    ensures entries[2].key == "description" && entries[3].key == "image"
  {
    [TextEntry("name", name), TextEntry("category_id", categoryID),
     TextEntry("description", description), FileEntry("image", file)]
  }

  /** The state of the form as a value. */
  datatype FormState = FormState(name: string, categoryID: string, description: string,
                                 file: Option<File>, categories: seq<Category>)

  const InvalidTypeAlert := "Invalid file type. Please select a PNG or JPG file."
  const NoFileAlert := "Please select a valid file."
  const UploadFailedAlert := "Failed to upload image."

  class ImageUploadForm {
    var name: string
    var categoryID: string
    var description: string
    var file: Option<File>
    var categories: seq<Category>

    function State(): FormState
      reads this
    {
      FormState(name, categoryID, description, file, categories)
    }

    constructor ()
      ensures State() == FormState("", "", "", None, [])
    {
      name := "";
      categoryID := "";
      description := "";
      file := None;
      categories := [];
    }

    /** `loadCategories`: the mount-time fetch; a failure is only logged. */
    method LoadCategories(outcome: Outcome<seq<Category>>)
      modifies this
      ensures outcome.Ok? ==> State() == old(State()).(categories := outcome.data)
      ensures outcome.Fail? ==> State() == old(State())
    {
      var result := FetchCategories(outcome);
      if result.Success? {
        categories := result.value;
      }
    }

    /** `handleFileChange`: keep the picked file when its type is PNG or JPEG,
        otherwise alert and clear the file. Clearing the picker keeps `null`. */
    method HandleFileChange(selected: Option<File>) returns (alert: Option<string>)
      modifies this
      ensures selected.Some? && !ClientAccepts(selected.value.mimeType) ==>
        alert == Some(InvalidTypeAlert) && State() == old(State()).(file := None)
      ensures !(selected.Some? && !ClientAccepts(selected.value.mimeType)) ==>
        alert == None && State() == old(State()).(file := selected)
      ensures file.Some? ==> ClientAccepts(file.value.mimeType)
    {
      if selected.Some? && !ClientAccepts(selected.value.mimeType) {
        alert := Some(InvalidTypeAlert);
        file := None;
        return;
      }
      alert := None;
      file := selected;
    }

    /** `handleSubmit`: without a file nothing is sent; otherwise the form is
        built, sent, and on success the fields are reset. Returns the alert
        shown and the form sent, if any. */
    method HandleSubmit(outcome: Outcome<MessageReply>) returns (alert: string, sent: Option<seq<FormEntry>>)
      modifies this
      ensures old(file).None? ==> sent == None && alert == NoFileAlert && State() == old(State())
      ensures old(file).Some? ==> sent == Some(Submitted(old(name), old(categoryID), old(description), old(file).value))
      ensures old(file).Some? && outcome.Ok? ==>
        alert == outcome.data.message && State() == old(State()).(name := "", categoryID := "", description := "", file := None)
      ensures old(file).Some? && outcome.Fail? ==> alert == UploadFailedAlert && State() == old(State())
    {
      if file.None? {
        return NoFileAlert, None;
      }
      var formData := new FormData();
      formData.Append(TextEntry("name", name));
      formData.Append(TextEntry("category_id", categoryID));
      formData.Append(TextEntry("description", description));
      formData.Append(FileEntry("image", file.value));
      assert formData.entries == Submitted(name, categoryID, description, file.value);
      sent := Some(formData.entries);
      var result := UploadImage(outcome);
      if result.Success? {
        alert := result.value.message;
        name := "";
        categoryID := "";
        description := "";
        file := None;
      } else {
        alert := UploadFailedAlert;
      }
    }
  }

  /** Every type the client keeps the server also accepts, but the server
      accepts WebP, which the client turns away. */
  lemma ClientTypesStrictSubset()
    ensures forall t :: ClientAccepts(t) ==> Entrypoint.IsValidImageType(t)
    ensures Entrypoint.IsValidImageType("image/webp") && !ClientAccepts("image/webp")
  {
    assert "image/webp" != "image/png" && "image/webp" != "image/jpeg";
  }

  /** An entry gin files under `key` among the text values (`isFile` false)
      or among the file parts (`isFile` true). */
  predicate Under(e: FormEntry, key: string, isFile: bool) {
    e.key == key && e.FileEntry? == isFile
  }

  predicate Has(entries: seq<FormEntry>, key: string, isFile: bool) {
    exists j :: 0 <= j < |entries| && Under(entries[j], key, isFile)
  }

  /** `j` is the first entry filed under `key`. */
  predicate First(entries: seq<FormEntry>, key: string, isFile: bool, j: int) {
    && 0 <= j < |entries| && Under(entries[j], key, isFile)
    && forall k :: 0 <= k < j ==> !Under(entries[k], key, isFile)
  }

  /** Past a leading entry of another kind or key, the first entry under
      `key` is one further on, and there is one exactly when there is one in
      the rest. */
  lemma FirstAfterOther(entries: seq<FormEntry>, key: string, isFile: bool)
    requires entries != [] && !Under(entries[0], key, isFile)
    ensures forall j :: First(entries, key, isFile, j) ==> First(entries[1..], key, isFile, j - 1)
    ensures Has(entries, key, isFile) <==> Has(entries[1..], key, isFile)
  {
    forall j | First(entries, key, isFile, j)
      ensures First(entries[1..], key, isFile, j - 1)
    {
      assert j != 0;
      forall k | 0 <= k < j - 1 ensures !Under(entries[1..][k], key, isFile) {
        assert entries[1..][k] == entries[k + 1];
      }
    }
    if Has(entries, key, isFile) {
      var j :| 0 <= j < |entries| && Under(entries[j], key, isFile);
      assert entries[1..][j - 1] == entries[j];
    }
    if Has(entries[1..], key, isFile) {
      var j :| 0 <= j < |entries[1..]| && Under(entries[1..][j], key, isFile);
      assert entries[j + 1] == entries[1..][j];
    }
  }

  /** Whenever some entry is filed under `key`, a first one is, so the two
      form readers below are defined by the first entry alone. */
  lemma {:induction false} FirstExists(entries: seq<FormEntry>, key: string, isFile: bool)
    requires Has(entries, key, isFile)
    ensures exists j :: First(entries, key, isFile, j)
    decreases |entries|
  {
    if Under(entries[0], key, isFile) {
      assert First(entries, key, isFile, 0);
    } else {
      FirstAfterOther(entries, key, isFile);
      FirstExists(entries[1..], key, isFile);
      var j :| First(entries[1..], key, isFile, j);
      forall k | 0 < k < j + 1 ensures !Under(entries[k], key, isFile) {
        assert entries[k] == entries[1..][k - 1];
      }
      assert First(entries, key, isFile, j + 1);
    }
  }

  /** A leading entry under `key` is the first one. */
  lemma FirstAtFront(entries: seq<FormEntry>, key: string, isFile: bool)
    requires entries != [] && Under(entries[0], key, isFile)
    ensures forall j :: First(entries, key, isFile, j) ==> j == 0
    ensures Has(entries, key, isFile)
  {
  }

  /** gin's `PostForm(key)`: the value of the first text entry under `key`,
      or "" when there is none. */
  function PostForm(entries: seq<FormEntry>, key: string): (v: string)
    ensures forall j :: First(entries, key, false, j) ==> v == entries[j].text
    ensures !Has(entries, key, false) ==> v == ""
    decreases |entries|
  {
    if entries == [] then ""
    else if Under(entries[0], key, false) then
      FirstAtFront(entries, key, false);
      entries[0].text
    else
      FirstAfterOther(entries, key, false);
      PostForm(entries[1..], key)
  }

  /** gin's `FormFile(key)`: the first file part under `key`, with the name
      and the Content-Type the browser sent for it; `None` when the form has
      no file under `key`. */
  function FormFile(entries: seq<FormEntry>, key: string): (part: Option<Entrypoint.FilePart>)
    ensures part.Some? <==> Has(entries, key, true)
    ensures forall j :: First(entries, key, true, j) ==>
      part == Some(Entrypoint.FilePart(entries[j].file.name, entries[j].file.mimeType))
    decreases |entries|
  {
    if entries == [] then None
    else if Under(entries[0], key, true) then
      FirstAtFront(entries, key, true);
      Some(Entrypoint.FilePart(entries[0].file.name, entries[0].file.mimeType))
    else
      FirstAfterOther(entries, key, true);
      FormFile(entries[1..], key)
  }

  /** How the upload handler reads a multipart form. */
  function Decode(entries: seq<FormEntry>): Entrypoint.UploadForm {
    Entrypoint.UploadForm(PostForm(entries, "name"), PostForm(entries, "category_id"),
                          PostForm(entries, "description"), FormFile(entries, "image"))
  }

  /** The server reads back exactly what the form sent, and always finds the
      image part, so the client never reaches the handler's nil-header panic.
      The part's content type is taken to be the file's `type`; a browser
      sends `application/octet-stream` for a file whose `type` is empty, but
      HandleFileChange keeps only PNG and JPEG files, so no such file is
      ever submitted. */
  lemma SubmittedFormDecodes(name: string, categoryID: string, description: string, file: File,
                             env: Entrypoint.UploadEnv)
    ensures Decode(Submitted(name, categoryID, description, file))
         == Entrypoint.UploadForm(name, categoryID, description, Some(Entrypoint.FilePart(file.name, file.mimeType)))
    ensures Entrypoint.UploadImageAsWritten(Decode(Submitted(name, categoryID, description, file)), env).Panicked? == false
  {
    var e := Submitted(name, categoryID, description, file);
    assert "category_id" != "name" && "description" != "name" && "description" != "category_id";
    assert "image" != "name" && "image" != "category_id" && "image" != "description";
    assert e[1..] == [TextEntry("category_id", categoryID), TextEntry("description", description), FileEntry("image", file)];
    assert e[1..][1..] == [TextEntry("description", description), FileEntry("image", file)];
    assert e[1..][1..][1..] == [FileEntry("image", file)];
    assert PostForm(e, "name") == name;
    assert PostForm(e[1..], "category_id") == categoryID;
    assert PostForm(e, "category_id") == categoryID;
    assert PostForm(e[1..][1..], "description") == description;
    assert PostForm(e[1..], "description") == description;
    assert PostForm(e, "description") == description;
    assert FormFile(e[1..][1..][1..], "image") == Some(Entrypoint.FilePart(file.name, file.mimeType));
    assert FormFile(e[1..][1..], "image") == Some(Entrypoint.FilePart(file.name, file.mimeType));
    assert FormFile(e[1..], "image") == Some(Entrypoint.FilePart(file.name, file.mimeType));
  }

  /** A file the client kept is one the server stores under its own type: the
      upload passes the server's type check. */
  lemma KeptFilePassesServerCheck(s: FormState, env: Entrypoint.UploadEnv)
    requires s.file.Some? && ClientAccepts(s.file.value.mimeType)
    requires env.txBegins && env.insertedID.Some? && env.putOk && env.commitOk
    ensures Entrypoint.UploadImage(Decode(Submitted(s.name, s.categoryID, s.description, s.file.value)), env).committed.Some?
  {
    SubmittedFormDecodes(s.name, s.categoryID, s.description, s.file.value, env);
    ClientTypesStrictSubset();
  }
}
