/**
 * The item details page: the fetched LostItem record, with every missing
 * attribute replaced by a placeholder, is what the page shows and what it
 * hands to the edit dialog.
 */
module ItemDetails {
  import opened JsSemantics
  import opened LostItems

  const DefaultCover := "https://gw.alipayobjects.com/zos/rmsportal/JiqGstEfoWAOHiTxclqi.png"
  const NoName := "Unknown Item Name"
  const NoDescription := "No Description"
  const NoCategory := "Unknown Category"
  const NoLocation := "Unknown Location"
  const NotClaimed := "Not Claimed"
  const NoClaimDate := "N/A"
  const NoDate := "Unknown Date"

  /** The item the page shows; every attribute has a value. */
  datatype DisplayItem = DisplayItem(
    id: string, name: string, description: string, category: string, location: string,
    date: string, imagePath: string, claimedBy: string, claimedDate: string, isClaimed: bool)

  /** The `??` mapping: a present value is kept as it is, even '', and a missing one becomes its placeholder. */
  function ToDisplay(s: StoredItem): (d: DisplayItem)
    ensures d.id == s.id
    ensures s.name.Some? ==> d.name == s.name.value
    ensures s.name.None? ==> d.name == NoName
    ensures s.description.Some? ==> d.description == s.description.value
    ensures s.description.None? ==> d.description == NoDescription
    ensures s.category.Some? ==> d.category == s.category.value
    ensures s.category.None? ==> d.category == NoCategory
    ensures s.location.Some? ==> d.location == s.location.value
    ensures s.location.None? ==> d.location == NoLocation
    ensures s.date.Some? ==> d.date == s.date.value
    ensures s.date.None? ==> d.date == NoDate
    ensures s.imagepath.Some? ==> d.imagePath == s.imagepath.value
    ensures s.imagepath.None? ==> d.imagePath == DefaultCover
    ensures s.claimedby.Some? ==> d.claimedBy == s.claimedby.value
    ensures s.claimedby.None? ==> d.claimedBy == NotClaimed
    ensures s.claimeddate.Some? ==> d.claimedDate == s.claimeddate.value
    ensures s.claimeddate.None? ==> d.claimedDate == NoClaimDate
    ensures d.isClaimed <==> IsClaimed(s)
  {
    DisplayItem(s.id, Coalesce(s.name, NoName), Coalesce(s.description, NoDescription),
                Coalesce(s.category, NoCategory), Coalesce(s.location, NoLocation), Coalesce(s.date, NoDate),
                Coalesce(s.imagepath, DefaultCover), Coalesce(s.claimedby, NotClaimed),
                Coalesce(s.claimeddate, NoClaimDate), Coalesce(s.isClaimed, false))
  }

  /** The record with every attribute present that a displayed item stands for. */
  function Present(d: DisplayItem): StoredItem {
    StoredItem(d.id, Some(d.name), Some(d.description), Some(d.category), Some(d.location), Some(d.date),
               Some(d.imagePath), Some(d.isClaimed), Some(d.claimedBy), Some(d.claimedDate))
  }

  predicate AllPresent(s: StoredItem) {
    s.name.Some? && s.description.Some? && s.category.Some? && s.location.Some? && s.date.Some? &&
    s.imagepath.Some? && s.isClaimed.Some? && s.claimedby.Some? && s.claimeddate.Some?
  }

  /** A record with every attribute present is shown exactly as stored, and nothing is lost. */
  lemma PresentRecordShownAsStored(s: StoredItem)
    requires AllPresent(s)
    ensures Present(ToDisplay(s)) == s
  {
  }

  /** Every displayed item is what the fully present record it stands for displays as. */
  lemma DisplayOfPresent(d: DisplayItem)
    ensures AllPresent(Present(d)) && ToDisplay(Present(d)) == d
  {
  }

  /** A present empty string stays empty: the placeholders appear only for missing attributes. */
  lemma EmptyNameIsKept(s: StoredItem)
    requires s.name == Some("")
    ensures ToDisplay(s).name == "" && ToDisplay(s).name != ToDisplay(s.(name := None)).name
  {
  }

  /** The response of `LostItem.get`: a record, no record, or an error. */
  datatype GetResult = Found(data: Option<StoredItem>) | GetFailed

  /** What `fetchItem` did: the get it sent, if any, and the item shown afterwards. */
  datatype Fetch = Fetch(requested: Option<string>, shown: Option<DisplayItem>)

  /**
   * `fetchItem` with the route id and the get's response; `shown` is the item
   * on screen before. Only a returned record replaces it.
   */
  function FetchItem(id: Option<string>, response: GetResult, shown: Option<DisplayItem>): (f: Fetch)
    ensures !Truthy(id) ==> f.requested.None? && f.shown == shown
    ensures Truthy(id) ==> f.requested == id
    ensures Truthy(id) && response.Found? && response.data.Some? ==> f.shown == Some(ToDisplay(response.data.value))
    ensures response.GetFailed? || response.data.None? ==> f.shown == shown
    ensures f.shown.Some? && f.shown != shown ==> f.requested.Some? && f.shown.value.id == response.data.value.id
  {
    if !Truthy(id) then Fetch(None, shown)
    else match response
      case Found(data) => Fetch(id, if data.Some? then Some(ToDisplay(data.value)) else shown)
      case GetFailed => Fetch(id, shown)
  }
}
