/**
 * The catalogue page: the list of lost items narrowed by claim status and a
 * case-insensitive search on name and description, the width breakpoints of
 * its card grid, and the Claim button's update.
 */
module HomePage {
  import opened JsSemantics
  import opened LostItems

  /** The status menu: 'all', 'claimed' or 'unclaimed'. */
  datatype StatusFilter = All | ClaimedOnly | UnclaimedOnly

  /** `statusMatch`: a null `isClaimed` counts as unclaimed. */
  predicate StatusMatch(item: StoredItem, status: StatusFilter) {
    status == All || (status == ClaimedOnly && IsClaimed(item)) || (status == UnclaimedOnly && !IsClaimed(item))
  }

  /**
   * `searchMatch` for the lowered term; `None` is the TypeError thrown when
   * the term is not empty and a name or description that has to be read is null.
   */
  function SearchMatch(item: StoredItem, lowerTerm: string): Option<bool> {
    if lowerTerm == "" then Some(true)
    else if item.name.None? then None
    else if Includes(ToLower(item.name.value), lowerTerm) then Some(true)
    else if item.description.None? then None
    else Some(Includes(ToLower(item.description.value), lowerTerm))
  }

  /** The filter callback: both tests, with the search evaluated whatever the status gives. */
  function Keep(item: StoredItem, lowerTerm: string, status: StatusFilter): Option<bool> {
    match SearchMatch(item, lowerTerm)
    case None => None
    case Some(m) => Some(StatusMatch(item, status) && m)
  }

  /** `items.filter(...)`: the kept items in order, or `None` when the callback throws on some item. */
  function FilterItems(items: seq<StoredItem>, lowerTerm: string, status: StatusFilter): Option<seq<StoredItem>>
    decreases |items|
  {
    if items == [] then Some([])
    else
      var last := items[|items| - 1];
      match FilterItems(items[..|items| - 1], lowerTerm, status)
      case None => None
      case Some(kept) =>
        match Keep(last, lowerTerm, status)
        case None => None
        case Some(k) => Some(kept + if k then [last] else [])
  }

  /** The filter effect: the search term is lowered once, then the callback runs on every item. */
  function Filter(items: seq<StoredItem>, searchTerm: string, status: StatusFilter): Option<seq<StoredItem>> {
    FilterItems(items, ToLower(searchTerm), status)
  }

  // ---------------------------------------------------------------------
  // Properties of the filter

  /** The filter throws exactly when the callback throws on some item. */
  lemma {:induction false} FilterDefinedIff(items: seq<StoredItem>, lowerTerm: string, status: StatusFilter)
    ensures FilterItems(items, lowerTerm, status).Some? <==>
      forall i :: 0 <= i < |items| ==> Keep(items[i], lowerTerm, status).Some?
    decreases |items|
  {
    if items != [] {
      var init := items[..|items| - 1];
      FilterDefinedIff(init, lowerTerm, status);
      assert forall i :: 0 <= i < |init| ==> init[i] == items[i];
    }
  }

  /** The kept items are an order-preserving sub-sequence of the list. */
  lemma {:induction false} FilterKeepsOrder(items: seq<StoredItem>, lowerTerm: string, status: StatusFilter)
    requires FilterItems(items, lowerTerm, status).Some?
    ensures IsSubsequence(FilterItems(items, lowerTerm, status).value, items)
    decreases |items|
  {
    if items != [] {
      var init, last := items[..|items| - 1], items[|items| - 1];
      var kept := FilterItems(init, lowerTerm, status).value;
      var r := FilterItems(items, lowerTerm, status).value;
      assert r == kept + if Keep(last, lowerTerm, status).value then [last] else [];
      FilterKeepsOrder(init, lowerTerm, status);
      SubsequenceSnoc(kept, items);
      assert kept + [] == kept;
    }
  }

  /** An item is listed exactly when it is in the list and passes both tests. */
  lemma {:induction false} FilterMembership(items: seq<StoredItem>, lowerTerm: string, status: StatusFilter, x: StoredItem)
    requires FilterItems(items, lowerTerm, status).Some?
    ensures x in FilterItems(items, lowerTerm, status).value <==> x in items && Keep(x, lowerTerm, status) == Some(true)
    decreases |items|
  {
    if items != [] {
      var init, last := items[..|items| - 1], items[|items| - 1];
      FilterMembership(init, lowerTerm, status, x);
      assert items == init + [last];
      FilterDefinedIff(items, lowerTerm, status);
      if x in items && x !in init {
        assert x == last;
      }
    }
  }

  /** Whether the filter throws depends on the term and the items, not on the status. */
  lemma KeepDefinedForAnyStatus(item: StoredItem, lowerTerm: string, s1: StatusFilter, s2: StatusFilter)
    ensures Keep(item, lowerTerm, s1).Some? <==> Keep(item, lowerTerm, s2).Some?
  {
  }

  /** "Show all" with an empty search lists every item, in order. */
  lemma {:induction false} ShowAllKeepsEverything(items: seq<StoredItem>)
    ensures Filter(items, "", All) == Some(items)
    decreases |items|
  {
    if items != [] {
      ShowAllKeepsEverything(items[..|items| - 1]);
      assert items[..|items| - 1] + [items[|items| - 1]] == items;
    }
  }

  /** The claimed and the unclaimed lists together hold as many items as the full list. */
  lemma {:induction false} StatusesPartition(items: seq<StoredItem>, lowerTerm: string)
    requires FilterItems(items, lowerTerm, All).Some?
    ensures FilterItems(items, lowerTerm, ClaimedOnly).Some? && FilterItems(items, lowerTerm, UnclaimedOnly).Some?
    ensures |FilterItems(items, lowerTerm, ClaimedOnly).value| + |FilterItems(items, lowerTerm, UnclaimedOnly).value| ==
      |FilterItems(items, lowerTerm, All).value|
    decreases |items|
  {
    if items != [] {
      StatusesPartition(items[..|items| - 1], lowerTerm);
    }
  }

  /** The search ignores the case of the term (for ASCII letters). */
  lemma SearchIgnoresTermCase(items: seq<StoredItem>, term: string, status: StatusFilter)
    ensures Filter(items, ToLower(term), status) == Filter(items, term, status)
  {
    ToLowerIdempotent(term);
  }

  /**
   * What a search decides for one item: the empty term keeps it; otherwise a
   * term in the lowered name keeps it without looking further, and a missing
   * field that has to be lowered makes the search throw.
   */
  lemma SearchMatchMeaning(item: StoredItem, lowerTerm: string)
    ensures lowerTerm == "" ==> SearchMatch(item, lowerTerm) == Some(true)
    ensures lowerTerm != "" && item.name.None? ==> SearchMatch(item, lowerTerm) == None
    ensures lowerTerm != "" && item.name.Some? && (exists i :: OccursAt(ToLower(item.name.value), lowerTerm, i)) ==>
      SearchMatch(item, lowerTerm) == Some(true)
    ensures lowerTerm != "" && item.name.Some? && item.description.None? ==>
      (exists i :: OccursAt(ToLower(item.name.value), lowerTerm, i)) || SearchMatch(item, lowerTerm) == None
    ensures lowerTerm != "" && item.name.Some? && item.description.Some? ==>
      SearchMatch(item, lowerTerm) == Some(
        (exists i :: OccursAt(ToLower(item.name.value), lowerTerm, i)) ||
        (exists j :: OccursAt(ToLower(item.description.value), lowerTerm, j)))
  {
    if item.name.Some? {
      IncludesIffOccurs(ToLower(item.name.value), lowerTerm);
    }
    if item.description.Some? {
      IncludesIffOccurs(ToLower(item.description.value), lowerTerm);
    }
  }

  /** A non-empty search throws on an item without a name. */
  lemma NamelessItemThrows(item: StoredItem, lowerTerm: string, status: StatusFilter)
    requires lowerTerm != "" && item.name.None?
    ensures Keep(item, lowerTerm, status).None? && FilterItems([item], lowerTerm, status).None?
  {
    assert [item][..0] == [];
  }

  /** A newly reported item is listed under "unclaimed" and not under "claimed". */
  lemma ReportedItemListedAsUnclaimed(id: string, c: CreateInput, lowerTerm: string)
    requires !c.isClaimed
    requires SearchMatch(Created(id, c), lowerTerm) == Some(true)
    ensures Keep(Created(id, c), lowerTerm, UnclaimedOnly) == Some(true)
    ensures Keep(Created(id, c), lowerTerm, ClaimedOnly) == Some(false)
  {
  }

  // ---------------------------------------------------------------------
  // The card grid

  /** The column span of a card out of the 24-column grid, by window width. */
  function ColSpanFor(width: int): (span: int)
    ensures span in {6, 8, 12, 24} && 24 % span == 0
  {
    if width < 576 then 24 else if width < 768 then 12 else if width < 992 then 8 else 6
  }

  /** A wider window never gives a card a wider span. */
  lemma ColSpanNonIncreasing(w1: int, w2: int)
    requires w1 <= w2
    ensures ColSpanFor(w2) <= ColSpanFor(w1)
    ensures 24 / ColSpanFor(w1) <= 24 / ColSpanFor(w2)
  {
  }

  // ---------------------------------------------------------------------
  // Claiming

  /**
   * The Claim button's update for the item, the signed-in user's id (absent
   * without a session) and the ISO timestamp of now: the date part before 'T'.
   */
  function ClaimPayload(item: StoredItem, userId: Option<string>, now: string): (c: ClaimInput)
    ensures c.id == item.id && c.isClaimed && c.claimedby == userId
    ensures c.claimeddate == Split(now, 'T')[0]
  {
    ClaimInput(item.id, true, userId, Split(now, 'T')[0])
  }

  /** For an ISO timestamp the claim date is its `YYYY-MM-DD` part. */
  lemma ClaimDateOfTimestamp(item: StoredItem, userId: Option<string>, day: string, time: string)
    requires IsIsoDate(day)
    ensures ClaimPayload(item, userId, day + "T" + time).claimeddate == day
  {
    assert forall k :: 0 <= k < |day| ==> day[k] != 'T';
    SplitAtSeparator(day, 'T', time);
  }

  /**
   * A claimed item is listed under "claimed", keeps its other attributes, and
   * records the user, unless no user id was available.
   */
  lemma ClaimMarksClaimed(s: StoredItem, userId: Option<string>, now: string, lowerTerm: string)
    requires SearchMatch(s, lowerTerm) == Some(true)
    ensures var s2 := Claimed(s, ClaimPayload(s, userId, now));
      IsClaimed(s2) && Keep(s2, lowerTerm, ClaimedOnly) == Some(true) && Keep(s2, lowerTerm, UnclaimedOnly) == Some(false) &&
      s2.name == s.name && s2.description == s.description && s2.category == s.category &&
      s2.location == s.location && s2.date == s.date && s2.imagepath == s.imagepath &&
      (userId.Some? ==> s2.claimedby == userId) && (userId.None? ==> s2.claimedby == s.claimedby)
  {
    var s2 := Claimed(s, ClaimPayload(s, userId, now));
    assert SearchMatch(s2, lowerTerm) == SearchMatch(s, lowerTerm);
  }

  // ---------------------------------------------------------------------
  // The page state

  class Catalogue {
    var allItems: seq<StoredItem>
    var filteredItems: seq<StoredItem>
    var colSpan: int
    var searchTerm: string
    var statusFilter: StatusFilter

    constructor ()
      ensures allItems == [] && filteredItems == [] && colSpan == 6 && searchTerm == "" && statusFilter == All
    {
      allItems := [];
      filteredItems := [];
      colSpan := 6;
      searchTerm := "";
      statusFilter := All;
    }

    /** The resize listener. */
    method UpdateColSpan(width: int)
      modifies `colSpan
      ensures colSpan == ColSpanFor(width)
    {
      if width < 576 {
        colSpan := 24;
      } else if width < 768 {
        colSpan := 12;
      } else if width < 992 {
        colSpan := 8;
      } else {
        colSpan := 6;
      }
    }

    /** The filter effect; when the callback throws, nothing is set. */
    method ApplyFilters() returns (threw: bool)
      modifies `filteredItems
      ensures threw <==> Filter(allItems, searchTerm, statusFilter).None?
      ensures !threw ==> filteredItems == Filter(allItems, searchTerm, statusFilter).value
      ensures threw ==> filteredItems == old(filteredItems)
    {
      var lowerSearchTerm := ToLower(searchTerm);
      var filtered := FilterItems(allItems, lowerSearchTerm, statusFilter);
      threw := filtered.None?;
      if !threw {
        filteredItems := filtered.value;
      }
    }

    /** Typing in the search box, after which the filter effect runs. */
    method Search(term: string) returns (threw: bool)
      modifies `searchTerm, `filteredItems
      ensures searchTerm == term
      ensures threw <==> Filter(allItems, term, statusFilter).None?
      ensures !threw ==> filteredItems == Filter(allItems, term, statusFilter).value
      ensures threw ==> filteredItems == old(filteredItems)
    {
      searchTerm := term;
      threw := ApplyFilters();
    }

    /** Choosing a status, after which the filter effect runs. */
    method ChangeStatus(status: StatusFilter) returns (threw: bool)
      modifies `statusFilter, `filteredItems
      ensures statusFilter == status
      ensures threw <==> Filter(allItems, searchTerm, status).None?
      ensures !threw ==> filteredItems == Filter(allItems, searchTerm, status).value
      ensures threw ==> filteredItems == old(filteredItems)
    {
      statusFilter := status;
      threw := ApplyFilters();
    }

    /**
     * `refreshList` with the list call's response (`None` when it failed): both
     * lists become the response, and the filter effect then narrows the shown one.
     */
    method RefreshList(response: Option<seq<StoredItem>>) returns (threw: bool)
      modifies `allItems, `filteredItems
      ensures response.None? ==> !threw && allItems == old(allItems) && filteredItems == old(filteredItems)
      ensures response.Some? ==> allItems == response.value
      ensures response.Some? ==> (threw <==> Filter(response.value, searchTerm, statusFilter).None?)
      ensures response.Some? && !threw ==> filteredItems == Filter(response.value, searchTerm, statusFilter).value
      ensures response.Some? && threw ==> filteredItems == response.value
    {
      if response.None? {
        return false;
      }
      allItems := response.value;
      filteredItems := response.value;
      threw := ApplyFilters();
    }

    /**
     * `claimItem`: the session is fetched first, outside the `try`, so a
     * rejected session fetch rejects the handler before anything is sent.
     * Otherwise the claim update is sent; after a successful update the list
     * is fetched again, with `listing` as that call's response.
     */
    method ClaimItem(item: StoredItem, userId: Option<string>, now: string, backend: Backend, sessionFails: bool,
                     fails: bool, listing: Option<seq<StoredItem>>) returns (threw: bool)
      modifies backend, `allItems, `filteredItems
      ensures sessionFails ==> backend.mutations == old(backend.mutations)
      ensures !sessionFails ==> backend.mutations == old(backend.mutations) + [Claim(ClaimPayload(item, userId, now))]
      ensures backend.uploads == old(backend.uploads)
      ensures sessionFails || fails || listing.None? ==>
        !threw && allItems == old(allItems) && filteredItems == old(filteredItems)
      ensures !sessionFails && !fails && listing.Some? ==> allItems == listing.value
      ensures !sessionFails && !fails && listing.Some? ==>
        (threw <==> Filter(listing.value, searchTerm, statusFilter).None?)
      ensures !sessionFails && !fails && listing.Some? && !threw ==>
        filteredItems == Filter(listing.value, searchTerm, statusFilter).value
    {
      threw := false;
      if sessionFails {
        return;
      }
      var currentDate := Split(now, 'T')[0];
      var ok := backend.Mutate(Claim(ClaimInput(item.id, true, userId, currentDate)), fails);
      if ok {
        threw := RefreshList(listing);
      }
    }
  }
}
