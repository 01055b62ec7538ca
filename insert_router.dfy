/**
 * The `dynamoDB-function` stream handler: for every INSERT with a new image,
 * publish the lost-item notification to the topic with the item's category as
 * the `category` message attribute.
 */
module InsertRouter {
  import opened JsSemantics
  import opened ChangeStream
  import opened Notifier

  const Unknown := "Unknown"
  const General := "General"
  const CategoryAttribute := "category"

  /** The notification fields, with missing or empty ones defaulted. */
  function ItemOf(img: Image): (n: Notification)
    ensures Truthy(StringAttr(img, "name")) ==> n.name == img["name"].s
    ensures !Truthy(StringAttr(img, "name")) ==> n.name == Unknown
    ensures Truthy(StringAttr(img, "location")) ==> n.location == img["location"].s
    ensures !Truthy(StringAttr(img, "location")) ==> n.location == Unknown
    ensures Truthy(StringAttr(img, "date")) ==> n.date == img["date"].s
    ensures !Truthy(StringAttr(img, "date")) ==> n.date == Unknown
    ensures Truthy(StringAttr(img, "category")) ==> n.category == img["category"].s
    ensures !Truthy(StringAttr(img, "category")) ==> n.category == General
    ensures n.name != "" && n.location != "" && n.date != "" && n.category != ""
  {
    Notification(OrElse(StringAttr(img, "name"), Unknown), OrElse(StringAttr(img, "location"), Unknown),
                 OrElse(StringAttr(img, "date"), Unknown), OrElse(StringAttr(img, "category"), General))
  }

  /** The Publish sent for a notification. */
  function Request(n: Notification, topicArn: Option<string>): PublishRequest {
    PublishRequest(MessageBody(n), topicArn, map[CategoryAttribute := MessageAttribute("String", n.category)])
  }

  /** What one record yields: a publish for an INSERT with a new image, nothing otherwise. */
  function RouteRecord(r: StreamRecord, topicArn: Option<string>): Option<PublishRequest> {
    if IsInsertWithImage(r) then Some(Request(ItemOf(r.newImage.value), topicArn)) else None
  }

  function Router(topicArn: Option<string>): StreamRecord -> Option<PublishRequest> {
    r => RouteRecord(r, topicArn)
  }

  /** The number of INSERT records with a new image. */
  function InsertCount(rs: seq<StreamRecord>): nat {
    if rs == [] then 0 else (if IsInsertWithImage(rs[0]) then 1 else 0) + InsertCount(rs[1..])
  }

  /**
   * The handler. `topicArn` is the SNS_TOPIC_ARN variable; the publishes for the
   * record indices in `failing` are rejected by SNS.
   */
  method Handle(publisher: Publisher, records: seq<StreamRecord>, topicArn: Option<string>, failing: set<nat>)
    returns (response: BatchResponse)
    requires publisher.Valid()
    modifies publisher
    ensures publisher.Valid()
    ensures publisher.attempts == old(publisher.attempts) + Attempts(records, Router(topicArn))
    ensures publisher.delivered == old(publisher.delivered) + Delivered(records, Router(topicArn), failing)
    ensures response.batchItemFailures == []
  {
    ghost var route := Router(topicArn);
    for i := 0 to |records|
      invariant publisher.Valid()
      invariant publisher.attempts == old(publisher.attempts) + Attempts(records[..i], route)
      invariant publisher.delivered == old(publisher.delivered) + Delivered(records[..i], route, failing)
    {
      var record := records[i];
      if record.eventName == Some(Insert) {
        var newItem := record.newImage;
        if newItem.None? {
          SkipStep(records, i, route, failing);
          continue;
        }
        PublishStep(records, i, route, failing, Request(ItemOf(newItem.value), topicArn),
                    old(publisher.attempts), old(publisher.delivered));
        var name := OrElse(StringAttr(newItem.value, "name"), Unknown);
        var location := OrElse(StringAttr(newItem.value, "location"), Unknown);
        var date := OrElse(StringAttr(newItem.value, "date"), Unknown);
        var category := OrElse(StringAttr(newItem.value, "category"), General);
        var message := MessageBody(Notification(name, location, date, category));
        var attributes := map[CategoryAttribute := MessageAttribute("String", category)];
        var published := publisher.Publish(PublishRequest(message, topicArn, attributes), i in failing);
      } else {
        SkipStep(records, i, route, failing);
      }
    }
    assert records[..|records|] == records;
    return BatchResponse([]);
  }

  // ---------------------------------------------------------------------
  // Properties

  /** Exactly the INSERT records with a new image are published, each with its own notification. */
  lemma PublishedIffInsert(rs: seq<StreamRecord>, topicArn: Option<string>, req: PublishRequest)
    ensures req in Attempts(rs, Router(topicArn)) <==>
      exists i :: 0 <= i < |rs| && IsInsertWithImage(rs[i]) && req == Request(ItemOf(rs[i].newImage.value), topicArn)
  {
    AttemptsMembership(rs, Router(topicArn), req);
  }

  lemma {:induction false} SelectedAreInserts(rs: seq<StreamRecord>, topicArn: Option<string>)
    ensures Selected(rs, Router(topicArn)) == InsertCount(rs)
    decreases |rs|
  {
    if rs != [] {
      SelectedAreInserts(rs[1..], topicArn);
    }
  }

  /** One publish attempt per INSERT with a new image: none skipped, none repeated. */
  lemma OnePublishPerInsert(rs: seq<StreamRecord>, topicArn: Option<string>)
    ensures |Attempts(rs, Router(topicArn))| == InsertCount(rs)
  {
    AttemptsCount(rs, Router(topicArn));
    SelectedAreInserts(rs, topicArn);
  }

  /**
   * The `category` attribute is a String equal to the category the body names:
   * the body ends with the category line, and reads back to the same fields
   * when none holds a line break.
   */
  lemma AttributeAgreesWithBody(img: Image, topicArn: Option<string>)
    ensures var n := ItemOf(img); var req := Request(n, topicArn);
      CategoryAttribute in req.attributes && req.attributes[CategoryAttribute].dataType == "String" &&
      var value := req.attributes[CategoryAttribute].stringValue;
      var tail := CategoryLabel + value;
      |tail| <= |req.message| && req.message[|req.message| - |tail|..] == tail &&
      (SingleLine(n.name) && SingleLine(n.location) && SingleLine(n.date) && SingleLine(n.category) ==>
         ParseBody(req.message) == Some(n) && n.category == value)
  {
    var n := ItemOf(img);
    BodyEndsWithCategory(n);
    if SingleLine(n.name) && SingleLine(n.location) && SingleLine(n.date) && SingleLine(n.category) {
      ParseMessageBody(n);
    }
  }

  /** A failed publish loses only that record's notification; every later record is still published. */
  lemma FailureDoesNotStopTheBatch(rs: seq<StreamRecord>, topicArn: Option<string>, k: nat)
    requires k < |rs| && IsInsertWithImage(rs[k])
    ensures Delivered(rs, Router(topicArn), {k}) ==
      Attempts(rs[..k], Router(topicArn)) + Attempts(rs[k + 1..], Router(topicArn))
  {
    FailureLosesOnlyItsRecord(rs, Router(topicArn), k);
  }
}
