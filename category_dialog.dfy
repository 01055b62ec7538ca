/**
 * The "Subscribe to Notifications" dialog that the profile page and the
 * catalogue page each hold: a category chosen from a menu or typed in, and a
 * confirm button that sends the `subscribe` mutation for the signed-in user.
 */
module CategoryDialog {
  import opened JsSemantics
  import SubscribeHandler

  /** The menu entry that switches to a typed-in category. */
  const OtherOption := "Other"

  /** The values the category menu offers besides "Other" ("" means every category). */
  const MenuValues: set<string> := {"", "Electronics", "Clothing", "Documents", "Jewelry"}

  /** The arguments of `client.mutations.subscribe`. */
  datatype SubscribeArgs = SubscribeArgs(email: string, category: string)

  /** What the mutation call produced: a value (truthy or not), or an exception. */
  datatype MutationResponse = Returned(truthy: bool) | Threw

  /**
   * The toast the dialog shows. `CategoryRequired` is never produced: the
   * guard cannot fire for a string (see `CategoryGuardAcceptsStrings`).
   */
  datatype Notice = LoginRequired | CategoryRequired | Subscribed | SubscribeFailed

  /** The category guard `!category && category !== ''`. */
  predicate CategoryGuardRejects(category: Option<string>) {
    !Truthy(category) && category != Some("")
  }

  /** The guard only rejects a missing category; every string, '' included, passes. */
  lemma CategoryGuardAcceptsStrings(category: Option<string>)
    ensures CategoryGuardRejects(category) <==> category.None?
  {
  }

  class SubscribeDialog {
    var category: string
    var showCustomCategory: bool
    var isModalVisible: bool
    var subscribeLoading: bool

    /** Outside custom mode the category is one of the menu's values. */
    ghost predicate Consistent()
      reads this
    {
      !showCustomCategory ==> category in MenuValues
    }

    constructor ()
      ensures Consistent()
      ensures category == "" && !showCustomCategory && !isModalVisible && !subscribeLoading
    {
      category := "";
      showCustomCategory := false;
      isModalVisible := false;
      subscribeLoading := false;
    }

    /** The page's "Subscribe to Notifications" button. */
    method Open()
      modifies `isModalVisible
      ensures isModalVisible
    {
      isModalVisible := true;
    }

    /** The dialog's Cancel button and close icon. */
    method Cancel()
      modifies `isModalVisible
      ensures !isModalVisible
    {
      isModalVisible := false;
    }

    /**
     * A menu choice: "Other" opens custom mode with an empty category; any
     * other value becomes the category ('' if it is falsy) and leaves custom mode.
     */
    method HandleCategoryChange(value: Option<string>)
      modifies `category, `showCustomCategory
      ensures value == Some(OtherOption) ==> showCustomCategory && category == ""
      ensures value != Some(OtherOption) ==> !showCustomCategory && category == OrElse(value, "")
      ensures value.None? || value.value in MenuValues + {OtherOption} ==> Consistent()
    {
      if value == Some(OtherOption) {
        showCustomCategory := true;
        category := "";
      } else {
        category := OrElse(value, "");
        showCustomCategory := false;
      }
    }

    /** Typing in the custom-category input, which exists only in custom mode. */
    method TypeCustomCategory(text: string)
      requires showCustomCategory
      modifies `category
      ensures category == text && Consistent()
    {
      category := text;
    }

    /** "Back to categories" on the profile page: leaves custom mode and clears the category. */
    method ResetCategory()
      modifies `category, `showCustomCategory
      ensures !showCustomCategory && category == "" && Consistent()
    {
      showCustomCategory := false;
      category := "";
    }

    /**
     * "Back to categories" on the catalogue page as written: it leaves custom
     * mode and clears the form field, which is not where the category is kept.
     */
    method ResetCategoryAsWritten()
      modifies `showCustomCategory
      ensures !showCustomCategory
    {
      showCustomCategory := false;
    }

    /**
     * Confirm: without a login id nothing is sent; otherwise the mutation is
     * sent with the login id and the current category, and the dialog closes
     * only on a truthy response.
     */
    method HandleSubscribe(loginId: Option<string>, response: MutationResponse)
      returns (request: Option<SubscribeArgs>, notice: Notice)
      modifies `isModalVisible, `subscribeLoading
      ensures !Truthy(loginId) ==>
        request.None? && notice == LoginRequired &&
        isModalVisible == old(isModalVisible) && subscribeLoading == old(subscribeLoading)
      ensures Truthy(loginId) ==>
        request == Some(SubscribeArgs(loginId.value, category)) && !subscribeLoading &&
        (response == Returned(true) ==> notice == Subscribed && !isModalVisible) &&
        (response != Returned(true) ==> notice == SubscribeFailed && isModalVisible == old(isModalVisible))
    {
      if !Truthy(loginId) {
        return None, LoginRequired;
      }
      CategoryGuardAcceptsStrings(Some(category));
      subscribeLoading := true;
      request := Some(SubscribeArgs(loginId.value, category));
      if response == Returned(true) {
        notice := Subscribed;
        isModalVisible := false;
      } else {
        notice := SubscribeFailed;
      }
      subscribeLoading := false;
    }
  }

  /** The policy the `subscribe` handler builds for a category the dialog sends. */
  lemma DialogCategoryPolicy(args: SubscribeArgs)
    ensures SubscribeHandler.PolicyFor(Some(args.category)) ==
      SubscribeHandler.FilterPolicy(if args.category == "" then [SubscribeHandler.Wildcard] else [args.category])
  {
  }

  /**
   * As written on the catalogue page: after choosing "Other", typing "Keys" and
   * going back to the menu, the menu holds a value it does not offer, and
   * confirming subscribes to "Keys" rather than to every category.
   */
  method CatalogueResetKeepsTypedCategory() returns (d: SubscribeDialog, request: Option<SubscribeArgs>)
    ensures !d.showCustomCategory && !d.Consistent()
    ensures request == Some(SubscribeArgs("a@x.com", "Keys"))
  {
    d := new SubscribeDialog();
    d.HandleCategoryChange(Some(OtherOption));
    d.TypeCustomCategory("Keys");
    d.ResetCategoryAsWritten();
    var notice;
    request, notice := d.HandleSubscribe(Some("a@x.com"), Returned(true));
  }

  /** With the profile page's reset the same steps subscribe to every category. */
  method ProfileResetClearsTypedCategory() returns (d: SubscribeDialog, request: Option<SubscribeArgs>)
    ensures !d.showCustomCategory && d.Consistent()
    ensures request == Some(SubscribeArgs("a@x.com", ""))
  {
    d := new SubscribeDialog();
    d.HandleCategoryChange(Some(OtherOption));
    d.TypeCustomCategory("Keys");
    d.ResetCategory();
    var notice;
    request, notice := d.HandleSubscribe(Some("a@x.com"), Returned(true));
  }
}
