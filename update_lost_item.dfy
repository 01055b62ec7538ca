/**
 * The edit dialog of the item details page: a form filled from the displayed
 * item, a claim switch that clears the claim fields when turned off, an
 * optional new image, and a submit that uploads the image, then sends the
 * update, then tells the page.
 */
module UpdateLostItem {
  import opened JsSemantics
  import opened LostItems
  import opened ItemDetails

  /**
   * The form's fields as submitted; `None` is a null or unset field, and a
   * picked date stands for the text it formats to.
   */
  datatype FormValues = FormValues(
    name: string, description: string, category: string, location: string,
    dateLost: Option<FormattedDate>, isClaimed: bool, claimedBy: Option<string>, claimedDate: Option<FormattedDate>)

  /** What the form is filled with when it opens: the item, with its dates parsed by the date library. */
  function InitialValues(item: DisplayItem): (v: FormValues)
    ensures v.name == item.name && v.description == item.description
    ensures v.category == item.category && v.location == item.location
    ensures v.isClaimed == item.isClaimed && v.claimedBy == Some(item.claimedBy)
    ensures v.dateLost == Some(DayjsFormat(item.date))
    ensures item.claimedDate == "" <==> v.claimedDate.None?
  {
    FormValues(item.name, item.description, item.category, item.location, Some(DayjsFormat(item.date)),
               item.isClaimed, Some(item.claimedBy),
               if item.claimedDate != "" then Some(DayjsFormat(item.claimedDate)) else None)
  }

  /** `formattedDateLost`: the picked date's text, or '' when none is picked. */
  function FormattedDateLost(v: FormValues): string {
    if v.dateLost.Some? then v.dateLost.value else ""
  }

  /** `formattedClaimedDate`: the claim date's text, only for a claimed item with a claim date. */
  function FormattedClaimedDate(v: FormValues): Option<string> {
    if v.isClaimed && v.claimedDate.Some? then Some(v.claimedDate.value) else None
  }

  /** `updateData`: the id from the item, the fields from the form, the claim fields only when claimed. */
  function UpdatePayload(item: DisplayItem, v: FormValues, filePath: string): (u: UpdateInput)
    ensures u.id == item.id && u.imagepath == filePath && u.isClaimed == v.isClaimed
    ensures u.name == v.name && u.description == v.description
    ensures u.category == v.category && u.location == v.location
    ensures u.date == "" <==> v.dateLost.None?
    ensures v.dateLost.Some? ==> u.date == v.dateLost.value
    ensures v.isClaimed ==> u.claimedby == v.claimedBy
    ensures !v.isClaimed ==> u.claimedby.None? && u.claimeddate.None?
    ensures u.claimeddate.Some? <==> v.isClaimed && v.claimedDate.Some?
    ensures u.claimeddate.Some? ==> u.claimeddate.value == v.claimedDate.value
  {
    UpdateInput(item.id, v.name, v.description, v.category, v.location, FormattedDateLost(v), filePath,
                v.isClaimed, if v.isClaimed then v.claimedBy else None,
                if v.isClaimed then FormattedClaimedDate(v) else None)
  }

  /** `filePath`: the item's image, or the key of the new file under `lost-items/`. */
  function ImagePath(item: DisplayItem, file: Option<FileRef>, stamp: nat): string {
    if file.Some? then FileKey(UpdateFolder, stamp, file.value.name) else item.imagePath
  }

  /** Without a new file the image is kept; with one, the stored path is its key under `lost-items/`. */
  lemma StoredPathIsUploadedKey(item: DisplayItem, file: Option<FileRef>, stamp: nat)
    ensures file.None? ==> ImagePath(item, file, stamp) == item.imagePath
    ensures file.Some? ==> var p := ImagePath(item, file, stamp);
      |UpdateFolder| <= |p| && p[..|UpdateFolder|] == UpdateFolder &&
      p[|UpdateFolder|..] == Decimal(stamp) + "_" + file.value.name
  {
    if file.Some? {
      var p, rest := ImagePath(item, file, stamp), Decimal(stamp) + "_" + file.value.name;
      assert p == UpdateFolder + rest;
      assert p[..|UpdateFolder|] == UpdateFolder && p[|UpdateFolder|..] == rest;
    }
  }

  /**
   * Saving the dialog without changes shows the same details again, provided
   * the dates are ISO dates and an unclaimed item had no claim attributes.
   */
  lemma ResubmitShowsSameDetails(s: StoredItem)
    requires IsIsoDate(ToDisplay(s).date)
    requires IsClaimed(s) ==> IsIsoDate(ToDisplay(s).claimedDate)
    requires !IsClaimed(s) ==> s.claimedby.None? && s.claimeddate.None?
    ensures var d := ToDisplay(s); var u := UpdatePayload(d, InitialValues(d), ImagePath(d, None, 0));
      ToDisplay(Updated(s, u)) == d
  {
  }

  /** An item stored without a date is written back as "Invalid Date" by an unchanged save. */
  lemma MissingDateSavedAsInvalid(s: StoredItem)
    requires s.date.None?
    ensures var d := ToDisplay(s); UpdatePayload(d, InitialValues(d), d.imagePath).date == InvalidDate
  {
    assert !IsIsoDate(NoDate);
  }

  /** The callbacks the dialog is given. */
  datatype Callback = ItemUpdated | Cancel

  class UpdateForm {
    const item: DisplayItem
    var values: FormValues
    var file: Option<FileRef>
    var confirmLoading: bool
    var calls: seq<Callback>

    /** Opening the dialog fills the form from the item. */
    constructor (item: DisplayItem)
      ensures this.item == item && values == InitialValues(item)
      ensures file.None? && !confirmLoading && calls == []
    {
      this.item := item;
      values := InitialValues(item);
      file := None;
      confirmLoading := false;
      calls := [];
    }

    /** The claim switch; turning it off also clears the claimant and the claim date. */
    method OnClaimSwitch(checked: bool)
      modifies `values
      ensures checked ==> values == old(values).(isClaimed := true)
      ensures !checked ==> values == old(values).(isClaimed := false, claimedBy := None, claimedDate := None)
    {
      values := values.(isClaimed := checked);
      if !checked {
        values := values.(claimedBy := None, claimedDate := None);
      }
    }

    /** Choosing files keeps the first one; choosing none keeps the file held before. */
    method HandleFileChange(files: seq<FileRef>)
      modifies `file
      ensures |files| > 0 ==> file == Some(files[0])
      ensures |files| == 0 ==> file == old(file)
    {
      if |files| > 0 {
        file := Some(files[0]);
      }
    }

    /**
     * Submit: upload the new file if there is one, then send the update; a
     * failed upload sends no update, and the callbacks run only after a
     * successful update, `onItemUpdated` first.
     */
    method HandleSubmit(backend: Backend, stamp: nat, uploadFails: bool, updateFails: bool)
      modifies `confirmLoading, `calls, backend
      ensures !confirmLoading
      ensures backend.uploads == old(backend.uploads) +
        (if file.Some? then [Upload(ImagePath(item, file, stamp), file.value, Bucket)] else [])
      ensures backend.mutations == old(backend.mutations) +
        (if file.None? || !uploadFails then [Update(UpdatePayload(item, values, ImagePath(item, file, stamp)))] else [])
      ensures calls == old(calls) +
        (if (file.None? || !uploadFails) && !updateFails then [ItemUpdated, Cancel] else [])
    {
      confirmLoading := true;
      var filePath := item.imagePath;
      if file.Some? {
        var fileKey := FileKey(UpdateFolder, stamp, file.value.name);
        filePath := fileKey;
        var uploaded := backend.UploadData(fileKey, file.value, Bucket, uploadFails);
        if !uploaded {
          confirmLoading := false;
          return;
        }
      }
      var updateData := UpdatePayload(item, values, filePath);
      var updated := backend.Mutate(Update(updateData), updateFails);
      if !updated {
        confirmLoading := false;
        return;
      }
      confirmLoading := false;
      calls := calls + [ItemUpdated];
      calls := calls + [Cancel];
    }
  }
}
