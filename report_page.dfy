/**
 * The report page: a form for a found item, a category menu with a custom
 * entry, an optional image, and a submit that uploads the image under
 * `uploads/` and then creates the record, always as unclaimed.
 */
module ReportPage {
  import opened JsSemantics
  import opened LostItems

  const OtherOption := "Other"

  /** The form's fields; `None` is an unset field, and a picked date stands for the text it formats to. */
  datatype ReportValues = ReportValues(
    name: Option<string>, description: Option<string>, category: Option<string>, location: Option<string>,
    dateLost: Option<FormattedDate>)

  /** The form after `resetFields`. */
  const Empty := ReportValues(None, None, None, None, None)

  /** The create input: the fields as entered, the date as text ('' if none), the image path, and unclaimed. */
  function CreatePayload(v: ReportValues, filePath: string): (c: CreateInput)
    ensures !c.isClaimed
    ensures c.name == v.name && c.description == v.description
    ensures c.category == v.category && c.location == v.location
    ensures c.date == "" <==> v.dateLost.None?
    ensures v.dateLost.Some? ==> c.date == v.dateLost.value
    ensures c.imagepath == filePath
  {
    CreateInput(v.name, v.description, v.category, v.location,
                if v.dateLost.Some? then v.dateLost.value else "", filePath, false)
  }

  /** `filePath`: '' without a file, else the file's key under `uploads/`. */
  function ReportImagePath(file: Option<FileRef>, stamp: nat): string {
    if file.Some? then FileKey(ReportFolder, stamp, file.value.name) else ""
  }

  /** The stored path is '' exactly when no file was chosen, and otherwise the key under `uploads/`. */
  lemma ReportImagePathShape(file: Option<FileRef>, stamp: nat)
    ensures ReportImagePath(file, stamp) == "" <==> file.None?
    ensures file.Some? ==> var p := ReportImagePath(file, stamp);
      |ReportFolder| <= |p| && p[..|ReportFolder|] == ReportFolder &&
      p[|ReportFolder|..] == Decimal(stamp) + "_" + file.value.name
  {
    if file.Some? {
      var p, rest := ReportImagePath(file, stamp), Decimal(stamp) + "_" + file.value.name;
      assert p == ReportFolder + rest;
      assert p[..|ReportFolder|] == ReportFolder && p[|ReportFolder|..] == rest;
    }
  }

  /** Two reports of the same file name at different times never share a stored image. */
  lemma DistinctStampsDistinctKeys(file: FileRef, stamp1: nat, stamp2: nat)
    requires stamp1 != stamp2
    ensures ReportImagePath(Some(file), stamp1) != ReportImagePath(Some(file), stamp2)
  {
    if ReportImagePath(Some(file), stamp1) == ReportImagePath(Some(file), stamp2) {
      FileKeyInjective(ReportFolder, stamp1, file.name, stamp2, file.name);
    }
  }

  /** A reported item is stored with the entered fields, unclaimed and without claim attributes. */
  lemma CreatedIsUnclaimed(id: string, v: ReportValues, filePath: string)
    ensures var s := Created(id, CreatePayload(v, filePath));
      s.id == id && !IsClaimed(s) && s.claimedby.None? && s.claimeddate.None? &&
      s.name == v.name && s.description == v.description && s.category == v.category &&
      s.location == v.location && s.imagepath == Some(filePath)
  {
  }

  class ReportForm {
    var values: ReportValues
    var showCustomCategory: bool
    var loading: bool
    var file: Option<FileRef>

    constructor ()
      ensures values == Empty && !showCustomCategory && !loading && file.None?
    {
      values := Empty;
      showCustomCategory := false;
      loading := false;
      file := None;
    }

    /**
     * A menu choice: the menu first stores the value in the category field;
     * "Other" then empties the field and opens custom-input mode.
     */
    method HandleCategoryChange(value: string)
      modifies `values, `showCustomCategory
      ensures value == OtherOption ==> values == old(values).(category := Some("")) && showCustomCategory
      ensures value != OtherOption ==>
        values == old(values).(category := Some(value)) && showCustomCategory == old(showCustomCategory)
    {
      values := values.(category := Some(value));
      if value == OtherOption {
        values := values.(category := Some(""));
        showCustomCategory := true;
      }
    }

    /** "Back to categories": leaves custom mode and unsets the category field. */
    method ResetCategory()
      modifies `values, `showCustomCategory
      ensures !showCustomCategory && values == old(values).(category := None)
    {
      showCustomCategory := false;
      values := values.(category := None);
    }

    /** Choosing files keeps the first one; choosing none keeps the file held before. */
    method HandleFileChange(files: seq<FileRef>)
      modifies `file
      ensures |files| > 0 ==> file == Some(files[0])
      ensures |files| == 0 ==> file == old(file)
    {
      if |files| > 0 {
        file := Some(files[0]);
      }
    }

    /**
     * Submit: upload the chosen file, if any, then create the record; a failed
     * upload creates nothing. The form is cleared only after a successful create.
     */
    method HandleSubmit(backend: Backend, stamp: nat, uploadFails: bool, createFails: bool)
      modifies `values, `loading, backend
      ensures !loading
      ensures backend.uploads == old(backend.uploads) +
        (if file.Some? then [Upload(ReportImagePath(file, stamp), file.value, Bucket)] else [])
      ensures backend.mutations == old(backend.mutations) +
        (if file.None? || !uploadFails then [Create(CreatePayload(old(values), ReportImagePath(file, stamp)))] else [])
      ensures values == (if (file.None? || !uploadFails) && !createFails then Empty else old(values))
    {
      loading := true;
      var filePath := "";
      if file.Some? {
        var fileKey := FileKey(ReportFolder, stamp, file.value.name);
        filePath := fileKey;
        var uploaded := backend.UploadData(fileKey, file.value, Bucket, uploadFails);
        if !uploaded {
          loading := false;
          return;
        }
      }
      var created := backend.Mutate(Create(CreatePayload(values, filePath)), createFails);
      if created {
        values := Empty;
      }
      loading := false;
    }
  }
}
