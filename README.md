# Lost and found: a Dafny model of its rules

The application is a lost-and-found board built on AWS Amplify. People report
found items, and the items are kept as `LostItem` records in DynamoDB with an
optional image in S3. Others browse and claim them, and users can subscribe by
e-mail to new-item notifications, optionally limited to one category.

This project models the parts of the application that hold logic:

- **The `subscribe` function.** It finds a confirmed SNS subscription for the
  address and replaces its filter policy, or requests a new e-mail
  subscription that carries the policy.
- **The two DynamoDB stream functions** (`dynamoDB-function` and
  `categoryDynamoDB-function`). Each turns the INSERT records of a batch into
  SNS notifications.
- **The data rules of the pages**:
  - the catalogue filter and grid breakpoints, and the Claim update (`HomePage.tsx`);
  - the subscribe dialog shared by `ProfilePage.tsx` and `HomePage.tsx`;
  - the defaulting of a fetched item (`ItemDetailsPage.tsx`);
  - the create payload and upload key (`ReportPage.tsx`);
  - the update payload, the claim switch and the submit sequence (`updateLostItem.tsx`).

Modules follow the source:

| module | file | models |
|---|---|---|
| `SubscribeHandler` | `subscribe_handler.dfy` | the `subscribe` handler; the SNS topic as class `SnsTopic` |
| `ChangeStream` | `change_stream.dfy` | stream records; what a router loop over a batch attempts and delivers |
| `Notifier` | `notifier.dfy` | the notification text; the SNS client as class `Publisher` |
| `InsertRouter` | `insert_router.dfy` | `dynamoDB-function/handler.ts` |
| `CategoryRouter` | `category_router.dfy` | `categoryDynamoDB-function/handler.ts` |
| `LostItems` | `lost_items.dfy` | stored records; create, update and claim inputs; dates; upload keys; data and storage clients as class `Backend` |
| `ItemDetails` | `item_details.dfy` | `ItemDetailsPage.tsx` |
| `UpdateLostItem` | `update_lost_item.dfy` | `updateLostItem.tsx`; the dialog as class `UpdateForm` |
| `ReportPage` | `report_page.dfy` | `ReportPage.tsx`; the form as class `ReportForm` |
| `HomePage` | `home_page.dfy` | `HomePage.tsx`; the page state as class `Catalogue` |
| `CategoryDialog` | `category_dialog.dfy` | the subscribe dialog of `ProfilePage.tsx` and `HomePage.tsx`, as class `SubscribeDialog` |
| `JsSemantics` | `js_semantics.dfy` | JavaScript truthiness, `\|\|`, `??`, ASCII `toLowerCase`, `includes`, `split` and `join` |

Outside services are classes that record the calls made to them:

- `SnsTopic` is the topic's subscription list plus a call log.
- `Publisher` holds the publishes attempted and the ones accepted.
- `Backend` holds the uploads and the model mutations.

Whether a service rejects a call is a parameter of the operation (`fails`,
`listFails`, or a set of failing record indices). The environment variables,
the clock (`Date.now()`, `new Date().toISOString()`) and the signed-in user are
parameters too.

## Model

| member | source | states |
|---|---|---|
| SubscribeHandler.Handle | amplify/functions/subscribe/handler.ts:18-76 | An empty or missing e-mail fails with "Email is required…", and a missing topic ARN fails too; neither calls SNS. A rejected listing fails with "Failed to process subscription request" and changes nothing. Otherwise the listing is followed by exactly one mutating call, chosen on the first page; a rejected mutation gives the same single error; the new list is `Upsert` of the old; the topic invariant is kept |
| SubscribeHandler.ReusableIsConfirmed | amplify/functions/subscribe/handler.ts:41-43 | `find` accepts an entry iff its endpoint is the address, it is confirmed, and its ARN is neither empty nor `PendingConfirmation` |
| SubscribeHandler.FindReusable | amplify/functions/subscribe/handler.ts:41-43 | The result is the first accepted entry, and no earlier entry is accepted; with no result, no entry is accepted |
| SubscribeHandler.NothingReusableAmongPending | amplify/functions/subscribe/handler.ts:41-43 | A listing of pending entries only is never reused, so the handler creates |
| SubscribeHandler.PolicyFor | amplify/functions/subscribe/handler.ts:48 | The policy has one value: the category when it is truthy, otherwise `*` |
| SubscribeHandler.PolicyRoundTrip | amplify/functions/subscribe/handler.ts:48 | Reading the policy back gives the requested category, except that `''`, absence and a literal `*` all give the same policy |
| SubscribeHandler.Decide | amplify/functions/subscribe/handler.ts:51-71 | Update happens iff `find` returned an entry whose ARN has at least 6 `:`-separated parts; the update names that entry and ARN. Otherwise the handler creates |
| SubscribeHandler.PageLength | amplify/functions/subscribe/handler.ts:37 | One ListSubscriptionsByTopic call returns at most 100 entries, and the whole list when it is no longer |
| SubscribeHandler.DecideIgnoresPolicies | amplify/functions/subscribe/handler.ts:41-51 | The update-versus-create choice depends on endpoints and ARNs only, never on existing policies |
| SubscribeHandler.UpdateChangesOnlyThePolicy | amplify/functions/subscribe/handler.ts:51-58 | On the update path only the matched entry's filter policy changes; no entry is added and every other entry is unchanged |
| SubscribeHandler.CreateAddsOnePending | amplify/functions/subscribe/handler.ts:59-70 | On the create path the handler requests one e-mail Subscribe with the policy attached; in the modelled SNS that adds exactly one pending subscription for the address |
| SubscribeHandler.LatestCallWins | amplify/functions/subscribe/handler.ts:51-71 | With the confirmed entry on the first page, repeating the call is idempotent, the latest call's policy wins, and the count of entries for the address is unchanged |
| SubscribeHandler.LatestCallWinsAllPages | amplify/functions/subscribe/handler.ts:51-71 | Searching every page, the same holds whenever a confirmed entry exists anywhere in the list |
| SubscribeHandler.UpsertKeepsInvariants | amplify/functions/subscribe/handler.ts:51-71 | An upsert never reuses a confirmed ARN and never makes a second confirmed subscription for an address |
| SubscribeHandler.ScenarioAllThenElectronics | amplify/functions/subscribe/handler.ts:48-58 | An all-categories call followed by an "Electronics" call adds no entry, and the found subscription ends with `{category: ["Electronics"]}` |
| SubscribeHandler.FullPendingPageHidesTheRest | amplify/functions/subscribe/handler.ts:37-43 | As written, a first page of 100 pending entries hides the rest of the list, and a new subscription is always requested |
| SubscribeHandler.FirstPageMissesLaterSubscription | amplify/functions/subscribe/handler.ts:37-43 | A confirmed subscription in position 101 keeps its old policy, and a second Subscribe with the new policy is requested for the same address |
| SubscribeHandler.LaterConfirmedFound | amplify/functions/subscribe/handler.ts:41-58 | Searching every page finds a well-formed confirmed subscription behind any number of pending ones and replaces only its policy |
| SubscribeHandler.AllPagesFindLaterSubscription | amplify/functions/subscribe/handler.ts:41-58 | For the same list, searching every page updates the subscription in position 101 and adds nothing |
| SubscribeHandler.ExampleArnIsListedAsConfirmed | amplify/functions/subscribe/handler.ts:51 | A standard subscription ARN has 7 `:`-separated parts, so it passes the `>= 6` test |
| SubscribeHandler.SnsTopic.ListSubscriptions | amplify/functions/subscribe/handler.ts:36-37 | The call is logged; the result is the first page of the subscriptions, or nothing when SNS rejects it |
| SubscribeHandler.SnsTopic.SetFilterPolicy | amplify/functions/subscribe/handler.ts:53-57 | The call is logged; on success only the policy of the entry with that ARN is replaced |
| SubscribeHandler.SnsTopic.SubscribeEmail | amplify/functions/subscribe/handler.ts:62-69 | The call is logged with protocol `email`; on success one pending entry with the policy is appended |
| ChangeStream.StringAttr | amplify/functions/dynamoDB-function/handler.ts:23-26 | `img.key?.S` is a string exactly when the attribute exists in its `S` form |
| ChangeStream.AttemptsCount | amplify/functions/dynamoDB-function/handler.ts:14-50 | The loop attempts one publish per selected record: none is skipped and none is repeated |
| ChangeStream.AttemptsMembership | amplify/functions/dynamoDB-function/handler.ts:14-50 | A request is attempted iff some record of the batch yields it |
| ChangeStream.DeliveredAreAttempted | amplify/functions/dynamoDB-function/handler.ts:30-48 | Accepted publishes are attempted ones, in batch order |
| ChangeStream.NoFailuresDeliverAll | amplify/functions/dynamoDB-function/handler.ts:30-48 | Without rejected publishes every attempt is delivered |
| ChangeStream.FailureLosesOnlyItsRecord | amplify/functions/dynamoDB-function/handler.ts:30-48 | A rejected publish loses only its own record's notification; the loop goes on and every other record is delivered |
| ChangeStream.AttemptsAppend | amplify/functions/dynamoDB-function/handler.ts:14 | Processing a batch in two parts attempts what processing it whole does |
| ChangeStream.DeliveredAppend | amplify/functions/dynamoDB-function/handler.ts:14 | The same for deliveries, with the later part's failure indices shifted |
| Notifier.ParseMessageBody | amplify/functions/dynamoDB-function/handler.ts:28 | The body names name, location, date and category in that order, so reading it back gives those fields when none holds a line break |
| Notifier.ParsedBodyIsMessageBody | amplify/functions/dynamoDB-function/handler.ts:28 | Any body that reads back was built by the template from what it reads back to |
| Notifier.BodyIsJoinedLines | amplify/functions/dynamoDB-function/handler.ts:28 | The body is the header and the four labelled lines joined by line breaks |
| Notifier.BodyEndsWithCategory | amplify/functions/dynamoDB-function/handler.ts:28 | The body ends with the category line |
| Notifier.Publisher.Publish | amplify/functions/dynamoDB-function/handler.ts:30-48 | The request is recorded as attempted, and as delivered unless SNS rejects it; delivered stays a sub-sequence of attempted |
| InsertRouter.Handle | amplify/functions/dynamoDB-function/handler.ts:13-54 | The attempted and delivered publishes are exactly those of the batch specification; the response is always `{ batchItemFailures: [] }` |
| InsertRouter.ItemOf | amplify/functions/dynamoDB-function/handler.ts:23-26 | A missing, empty or non-string name, location or date becomes "Unknown"; a category like that becomes "General"; a present string is kept; no field is empty |
| InsertRouter.PublishedIffInsert | amplify/functions/dynamoDB-function/handler.ts:18-48 | A publish is attempted iff some record is an INSERT with a new image, and it carries that record's own notification |
| InsertRouter.OnePublishPerInsert | amplify/functions/dynamoDB-function/handler.ts:14-48 | The batch makes exactly one publish attempt per INSERT with a new image |
| InsertRouter.SelectedAreInserts | amplify/functions/dynamoDB-function/handler.ts:18-21 | The records the router selects are the INSERT records with a new image |
| InsertRouter.AttributeAgreesWithBody | amplify/functions/dynamoDB-function/handler.ts:28-42 | Every publish has a String attribute `category`; the body ends with that value's line; the body reads back to the notification whose category is that value |
| InsertRouter.FailureDoesNotStopTheBatch | amplify/functions/dynamoDB-function/handler.ts:30-48 | With one rejected publish, every record before and after it is still delivered |
| CategoryRouter.SpecifiedCategory | amplify/functions/categoryDynamoDB-function/handler.ts:16 | SPECIFIED_CATEGORY when it is set and non-empty, otherwise "Unknown" |
| CategoryRouter.ItemOf | amplify/functions/categoryDynamoDB-function/handler.ts:28-31 | A missing, empty or non-string name, location, date or category becomes "Unknown"; a present string is kept |
| CategoryRouter.Handle | amplify/functions/categoryDynamoDB-function/handler.ts:18-58 | The attempted and delivered publishes are exactly those of the batch specification for this category; the response is always `{ batchItemFailures: [] }` |
| CategoryRouter.PublishedIffCategoryMatches | amplify/functions/categoryDynamoDB-function/handler.ts:23-52 | A publish is attempted iff some record is an INSERT with a new image whose defaulted category equals the specified one; it carries that record's notification |
| CategoryRouter.SelectedAreMatches | amplify/functions/categoryDynamoDB-function/handler.ts:23-36 | The records the router selects are the matching INSERTs |
| CategoryRouter.OnePublishPerMatch | amplify/functions/categoryDynamoDB-function/handler.ts:18-52 | One publish attempt per matching record |
| CategoryRouter.NoMessageAttributes | amplify/functions/categoryDynamoDB-function/handler.ts:39-44 | No publish carries a message attribute |
| CategoryRouter.UnsetCategorySelects | amplify/functions/categoryDynamoDB-function/handler.ts:16-36 | With SPECIFIED_CATEGORY unset, a record is published iff it is an INSERT whose category is missing, empty, not a string, or literally "Unknown" |
| CategoryRouter.CategorylessPublishedByDefault | amplify/functions/categoryDynamoDB-function/handler.ts:16-44 | With SPECIFIED_CATEGORY unset, every INSERT without a category is published |
| LostItems.DayjsFormat | src/pages/updateLostItem.tsx:70-73 | A `YYYY-MM-DD` calendar date formats to itself; any other text formats to "Invalid Date" |
| LostItems.CalendarDates | src/pages/updateLostItem.tsx:70-73 | Only real calendar dates count as dates: 29 February only in leap years under the Gregorian rule, no day past the end of its month, no month 13 |
| LostItems.FormattedDateNonEmpty | src/pages/ReportPage.tsx:59 | A formatted date is never empty, so `''` in a payload means no date was picked |
| LostItems.Decimal | src/pages/ReportPage.tsx:64 | The timestamp's numeral is non-empty and all digits |
| LostItems.DecimalRoundTrip | src/pages/ReportPage.tsx:64 | The numeral reads back to the timestamp |
| LostItems.FirstIndexOf | src/pages/ReportPage.tsx:64 | The first position of a character, or none when it does not occur |
| LostItems.FileKeyFields | src/pages/ReportPage.tsx:64 | An upload key starts with its folder, followed by the timestamp up to the first `_`, then the file name |
| LostItems.FileKeyInjective | src/pages/ReportPage.tsx:64 | Two upload keys in one folder are equal only for equal timestamps and file names |
| LostItems.Backend.UploadData | src/pages/ReportPage.tsx:66-72 | The upload is logged; it succeeds unless storage rejects it |
| LostItems.Backend.Mutate | src/pages/ReportPage.tsx:80-93 | The mutation is logged; it succeeds unless the data store rejects it |
| ItemDetails.ToDisplay | src/pages/ItemDetailsPage.tsx:48-59 | The id is copied; each null attribute becomes its placeholder (the image becomes the default cover); each present value, `''` included, is kept; `isClaimed` is true only when stored as true |
| ItemDetails.PresentRecordShownAsStored | src/pages/ItemDetailsPage.tsx:48-59 | A record with every attribute present is shown exactly as stored |
| ItemDetails.DisplayOfPresent | src/pages/ItemDetailsPage.tsx:153-165 | The item handed to the edit dialog is what the record it stands for displays as |
| ItemDetails.EmptyNameIsKept | src/pages/ItemDetailsPage.tsx:50 | `??` keeps a present `''`, which then differs from the placeholder of a missing name |
| ItemDetails.FetchItem | src/pages/ItemDetailsPage.tsx:43-66 | No get is sent without a route id. A returned record replaces the shown item with its display form, keyed by the record's id. A failed get, or one with no data, keeps what was shown |
| UpdateLostItem.InitialValues | src/pages/updateLostItem.tsx:34-46 | The form opens with the item's fields, its date parsed, and its claim date parsed only when there is one |
| UpdateLostItem.UpdatePayload | src/pages/updateLostItem.tsx:70-101 | The id always comes from the item. `date` is `''` iff no date was picked. `claimedby` is the form's when claimed and null otherwise. `claimeddate` is set iff claimed and a claim date was given |
| UpdateLostItem.StoredPathIsUploadedKey | src/pages/updateLostItem.tsx:76-87 | Without a new file the image path is the item's; with one, it is the uploaded key under `lost-items/` |
| UpdateLostItem.ResubmitShowsSameDetails | src/pages/updateLostItem.tsx:34-101 | Saving the dialog unchanged shows the same details again, when the stored dates are `YYYY-MM-DD` calendar dates and an unclaimed item has no claim attributes |
| UpdateLostItem.MissingDateSavedAsInvalid | src/pages/updateLostItem.tsx:40-70 | An item stored without a date is written back with the date "Invalid Date" by an unchanged save |
| UpdateLostItem.UpdateForm.constructor | src/pages/updateLostItem.tsx:34-46 | Opening the dialog fills the form from the item |
| UpdateLostItem.UpdateForm.OnClaimSwitch | src/pages/updateLostItem.tsx:138-145 | Turning the switch off clears claimant and claim date; turning it on changes only the claim flag |
| UpdateLostItem.UpdateForm.HandleFileChange | src/pages/updateLostItem.tsx:48-53 | The first chosen file is kept; choosing none keeps the previous one |
| UpdateLostItem.UpdateForm.HandleSubmit | src/pages/updateLostItem.tsx:55-118 | A new file is uploaded first, and a failed upload sends no update. The update carries `UpdatePayload` with the uploaded key or the old path. `onItemUpdated` and then `onCancel` run only after a successful update. Loading ends false |
| ReportPage.CreatePayload | src/pages/ReportPage.tsx:56-93 | The item is always unclaimed; name, description, category and location are passed unchanged; `date` is `''` iff no date was picked |
| ReportPage.ReportImagePathShape | src/pages/ReportPage.tsx:61-73 | The image path is `''` iff no file was chosen, and otherwise the uploaded key under `uploads/` |
| ReportPage.DistinctStampsDistinctKeys | src/pages/ReportPage.tsx:64 | Reports of the same file name at different times get different keys |
| ReportPage.CreatedIsUnclaimed | src/pages/ReportPage.tsx:80-93 | The stored record is unclaimed, without claim attributes, and holds the entered fields and the image path |
| ReportPage.ReportForm.HandleCategoryChange | src/pages/ReportPage.tsx:32-37 | "Other" sets the category field to `''` and enters custom mode; any other choice is stored by the menu and leaves the mode as it was |
| ReportPage.ReportForm.ResetCategory | src/pages/ReportPage.tsx:39-42 | Leaves custom mode and unsets the category field |
| ReportPage.ReportForm.HandleFileChange | src/pages/ReportPage.tsx:44-48 | The first chosen file is kept; choosing none keeps the previous one |
| ReportPage.ReportForm.HandleSubmit | src/pages/ReportPage.tsx:50-105 | The chosen file is uploaded first, and a failed upload creates nothing. The create carries `CreatePayload` with the upload key or `''`. The form is cleared only after a successful create. Loading ends false |
| HomePage.FilterDefinedIff | src/pages/HomePage.tsx:128-140 | The filter throws iff the callback throws on some item |
| HomePage.FilterKeepsOrder | src/pages/HomePage.tsx:128-142 | The filtered list is an order-preserving sub-sequence of all items |
| HomePage.FilterMembership | src/pages/HomePage.tsx:128-142 | An item is listed iff it is in the list and passes both the status and the search test |
| HomePage.KeepDefinedForAnyStatus | src/pages/HomePage.tsx:130-139 | Whether the callback throws does not depend on the status |
| HomePage.ShowAllKeepsEverything | src/pages/HomePage.tsx:130-135 | Status 'all' with an empty term lists every item, in order |
| HomePage.StatusesPartition | src/pages/HomePage.tsx:130-132 | The 'claimed' and 'unclaimed' lists together are as long as the 'all' list |
| HomePage.SearchIgnoresTermCase | src/pages/HomePage.tsx:126 | Upper- and lower-case spellings of the term filter alike |
| HomePage.SearchMatchMeaning | src/pages/HomePage.tsx:134-137 | The empty term keeps every item. A non-empty term keeps an item when it occurs in the lowered name, without reading the description. Otherwise it throws when the name is missing, or when the name lacks the term and the description is missing. With both fields present it keeps the item iff the term occurs in either |
| HomePage.NamelessItemThrows | src/pages/HomePage.tsx:136 | A non-empty search throws on an item without a name |
| HomePage.ReportedItemListedAsUnclaimed | src/pages/HomePage.tsx:130-132 | A newly reported matching item is listed under 'unclaimed' and not under 'claimed' |
| HomePage.ColSpanFor | src/pages/HomePage.tsx:55-61 | The span is 24, 12, 8 or 6 and always divides the 24-column row |
| HomePage.ColSpanNonIncreasing | src/pages/HomePage.tsx:55-61 | A wider window never widens a card, and never fits fewer cards per row |
| HomePage.ClaimPayload | src/pages/HomePage.tsx:160-172 | The claim names the item's id, `isClaimed: true`, the current user id, and the timestamp's part before `T` |
| HomePage.ClaimDateOfTimestamp | src/pages/HomePage.tsx:161 | For a timestamp that starts with a `YYYY-MM-DD` calendar date and `T`, the claim date is that date |
| HomePage.ClaimMarksClaimed | src/pages/HomePage.tsx:160-177 | A claimed item is listed under 'claimed' and no longer under 'unclaimed'. Its other attributes are kept. It records the user, or keeps the old claimant when there is no user id |
| HomePage.Catalogue.UpdateColSpan | src/pages/HomePage.tsx:55-61 | The resize listener sets the span `ColSpanFor` gives |
| HomePage.Catalogue.ApplyFilters | src/pages/HomePage.tsx:125-143 | The shown list becomes the filter of all items; when the callback throws, the shown list is left as it was |
| HomePage.Catalogue.Search | src/pages/HomePage.tsx:198-203 | Typing sets the term, and the filter effect follows |
| HomePage.Catalogue.ChangeStatus | src/pages/HomePage.tsx:204-213 | Choosing a status sets it, and the filter effect follows |
| HomePage.Catalogue.RefreshList | src/pages/HomePage.tsx:112-123 | A returned list replaces both lists, then the filter narrows the shown one; a failed call changes nothing |
| HomePage.Catalogue.ClaimItem | src/pages/HomePage.tsx:160-182 | When the session fetch rejects, nothing is sent and nothing changes. Otherwise exactly one claim update is sent; after success the list is fetched again and filtered; after a failed update nothing changes |
| CategoryDialog.CategoryGuardAcceptsStrings | src/pages/ProfilePage.tsx:28-31 | The category guard rejects only a missing category; every string, `''` included, passes |
| CategoryDialog.SubscribeDialog.HandleCategoryChange | src/pages/ProfilePage.tsx:54-62 | "Other" enters custom mode with category `''`; any other value becomes the category (`''` if falsy) and leaves custom mode. `HomePage.tsx:95-103` is the same code |
| CategoryDialog.SubscribeDialog.TypeCustomCategory | src/pages/ProfilePage.tsx:116-120 | Typing in custom mode sets the category to the text |
| CategoryDialog.SubscribeDialog.ResetCategory | src/pages/ProfilePage.tsx:64-67 | Leaves custom mode with category `''`, a value the menu offers |
| CategoryDialog.SubscribeDialog.ResetCategoryAsWritten | src/pages/HomePage.tsx:106-109 | Leaves custom mode and keeps the category state |
| CategoryDialog.SubscribeDialog.HandleSubscribe | src/pages/ProfilePage.tsx:22-52 | Without a login id nothing is sent. Otherwise the mutation gets `email = loginId` and the current category, and the dialog closes only on a truthy response. Loading ends false. `HomePage.tsx:62-92` is the same code |
| CategoryDialog.SubscribeDialog.Open | src/pages/ProfilePage.tsx:83-89 | The button opens the dialog |
| CategoryDialog.SubscribeDialog.Cancel | src/pages/ProfilePage.tsx:94-98 | Cancel closes the dialog |
| CategoryDialog.DialogCategoryPolicy | src/pages/ProfilePage.tsx:135 | The "All Category" entry `''` reaches the handler as the `*` policy; any other category as a one-value policy |
| CategoryDialog.CatalogueResetKeepsTypedCategory | src/pages/HomePage.tsx:106-109 | As written on the catalogue page, typing "Keys" and going back leaves the menu on a value it does not offer, and confirming subscribes to "Keys" |
| CategoryDialog.ProfileResetClearsTypedCategory | src/pages/ProfilePage.tsx:64-67 | With the clearing reset the same steps keep the dialog consistent and subscribe to every category |
| JsSemantics.OrElse | amplify/functions/dynamoDB-function/handler.ts:23-26 | `s \|\| d` is `s` when `s` is a non-empty string, and `d` otherwise |
| JsSemantics.Coalesce | src/pages/ItemDetailsPage.tsx:50-58 | `v ?? d` is `v` when present, and `d` only when null |
| JsSemantics.ToLower | src/pages/HomePage.tsx:126 | Lowering keeps the length and lowers each ASCII letter |
| JsSemantics.ToLowerIdempotent | src/pages/HomePage.tsx:126 | Lowering twice is lowering once |
| JsSemantics.IncludesIffOccurs | src/pages/HomePage.tsx:136-137 | `s.includes(t)` iff `t` occurs in `s` at some position |
| JsSemantics.JoinSplit | amplify/functions/subscribe/handler.ts:51 | Joining the parts of a split gives the string back, and no part holds the separator |
| JsSemantics.SplitJoin | amplify/functions/subscribe/handler.ts:51 | Splitting a join of separator-free parts gives the parts back |
| JsSemantics.SplitAtSeparator | src/pages/HomePage.tsx:161 | The first part of a split is the text before the first separator |

## Left out

- The AWS SDK and the Amplify clients are not modelled; they appear only as the call logs `SnsTopic`, `Publisher` and `Backend`. A rejected call is a parameter.
- SNS filter-policy matching and delivery happen in SNS, not in this code. In SNS a `*` value is not a wildcard, so nothing here claims that the `*` policy receives every category.
- Two concurrent `subscribe` calls for one address can race between listing and mutating. The model covers one invocation at a time.
- `JSON.stringify`: the filter policy is a datatype and the message a string, with no escaping.
- Clocks: `Date.now()` is the `stamp` parameter, and `new Date().toISOString()` is the `now` parameter.
- LostItems.DayjsFormat: dayjs parsing is approximated. A `YYYY-MM-DD` calendar date formats to itself and any other text to "Invalid Date". dayjs rolls text of that shape that is not a calendar date over to a later date ("2024-02-30" to "2024-03-01", "2024-13-01" to "2025-01-01") and maps years below 100 to 19xx; the model gives "Invalid Date" for these. Other formats dayjs accepts are not modelled, and a date-picker value is represented by the text it formats to.
- SubscribeHandler.SnsTopic.SubscribeEmail: does not model how SNS treats an endpoint that is already subscribed. SNS returns the existing subscription when the attributes are the same, and rejects the call as InvalidParameter when they differ; the model appends a new pending entry in both cases.
- JsSemantics.ToLower: lowers ASCII letters only, because full Unicode case mapping is not modelled.
- Logging (`Logger`, `console.*`) and the toasts are not modelled, except the dialog's toast choice (`Notice`).
- JSX rendering, layout and pagination are not modelled, nor the loading flag of the catalogue page. So is the card's `imagepath || defaultCover` fallback at `HomePage.tsx:236`, which is rendering only.
- Antd form validation rules are not modelled.
- The report page's custom-category input is not modelled. It sits inside a `div` under the `Form.Item`, and how antd binds it is a library detail. The menu and reset effects on the form field are modelled.
- The `client?.models?.LostItem` availability check in `ReportPage.tsx:75-77` is not modelled, because the generated client always has the model.
- CategoryRouter.Handle: takes SPECIFIED_CATEGORY as the value read when the module loads (`SpecifiedCategory` of the variable). The module-level read itself is not a step of the model.
- HomePage.Catalogue.ApplyFilters: when the callback throws, the model sets nothing. In React the error escapes the effect, and what the page then shows is not modelled.
- The loop over `event.Records` models an absent `dynamodb` or `NewImage` as a missing image. Record fields other than `eventName` and the new image are not read.
- amplify/functions/postConfirmation/postConfirmation.ts is not part of this model; it is two foreign calls.
- amplify/data/add-user-to-group/handler.ts is not part of this model; it is one Cognito call, and it ignores `groupName` in favour of "User".
- `deleteLostItem.tsx`, `AdminDashboard.tsx`, `App.tsx`, `main.tsx`, the `resource.ts` files and `backend.ts` are not part of this model; they are UI wiring and infrastructure configuration.

## Findings

| source | as written | input that shows it | evidently intended | confidence | as-written member | corrected member |
|---|---|---|---|---|---|---|
| amplify/functions/subscribe/handler.ts:37-43 | One ListSubscriptionsByTopic call is made, and it returns at most 100 subscriptions; `NextToken` is never followed, so only the first page is searched | 100 pending subscriptions of other addresses, then a confirmed subscription of `a@x.com`; the request asks for "Electronics" | The comment "Fetch existing subscriptions for this topic" means every subscription. The confirmed one should get the new policy, and no second Subscribe should be requested | medium; not executed | SubscribeHandler.FirstPageMissesLaterSubscription | SubscribeHandler.AllPagesFindLaterSubscription |
| src/pages/HomePage.tsx:106-109 | The catalogue page's "Back to categories" clears the form field `category`, but the dialog keeps its category in component state | Choose "Other", type "Keys", press "Back to categories", confirm | As on the profile page (`ProfilePage.tsx:64-67`), the category should be cleared, so the menu shows a value it offers and the subscription covers every category | high; not executed | CategoryDialog.CatalogueResetKeepsTypedCategory | CategoryDialog.ProfileResetClearsTypedCategory |

For the first finding:

- `SubscribeHandler.Upsert` is the upsert as written, and `SubscribeHandler.Handle` uses it.
- `SubscribeHandler.UpsertAllPages` is the corrected upsert. `SubscribeHandler.LatestCallWinsAllPages` and `SubscribeHandler.LaterConfirmedFound` prove the intended properties about it.

For the second finding, `CategoryDialog.SubscribeDialog.ResetCategoryAsWritten` is the catalogue page's reset, and `CategoryDialog.SubscribeDialog.ResetCategory` is the corrected one. That corrected reset keeps `Consistent()`: outside custom mode the category is one of the menu's values.
