/**
 * The `categoryDynamoDB-function` stream handler: for every INSERT with a new
 * image whose (defaulted) category equals the configured SPECIFIED_CATEGORY,
 * publish the lost-item notification to the topic, without message attributes.
 */
module CategoryRouter {
  import opened JsSemantics
  import opened ChangeStream
  import opened Notifier

  const Unknown := "Unknown"

  /** SPECIFIED_CATEGORY, or "Unknown" when the variable is unset or empty. */
  function SpecifiedCategory(env: Option<string>): (c: string)
    ensures Truthy(env) ==> c == env.value
    ensures !Truthy(env) ==> c == Unknown
  {
    OrElse(env, Unknown)
  }

  /** The notification fields, every missing or empty one defaulted to "Unknown". */
  function ItemOf(img: Image): (n: Notification)
    ensures Truthy(StringAttr(img, "name")) ==> n.name == img["name"].s
    ensures Truthy(StringAttr(img, "location")) ==> n.location == img["location"].s
    ensures Truthy(StringAttr(img, "date")) ==> n.date == img["date"].s
    ensures Truthy(StringAttr(img, "category")) ==> n.category == img["category"].s
    ensures !Truthy(StringAttr(img, "name")) ==> n.name == Unknown
    ensures !Truthy(StringAttr(img, "location")) ==> n.location == Unknown
    ensures !Truthy(StringAttr(img, "date")) ==> n.date == Unknown
    ensures !Truthy(StringAttr(img, "category")) ==> n.category == Unknown
  {
    Notification(OrElse(StringAttr(img, "name"), Unknown), OrElse(StringAttr(img, "location"), Unknown),
                 OrElse(StringAttr(img, "date"), Unknown), OrElse(StringAttr(img, "category"), Unknown))
  }

  /** The Publish sent for a notification: body and topic only. */
  function Request(n: Notification, topicArn: Option<string>): PublishRequest {
    PublishRequest(MessageBody(n), topicArn, map[])
  }

  /** Whether the record is published: an INSERT with a new image in the specified category. */
  predicate Matches(r: StreamRecord, specified: string) {
    IsInsertWithImage(r) && ItemOf(r.newImage.value).category == specified
  }

  function RouteRecord(r: StreamRecord, specified: string, topicArn: Option<string>): Option<PublishRequest> {
    if Matches(r, specified) then Some(Request(ItemOf(r.newImage.value), topicArn)) else None
  }

  function Router(specified: string, topicArn: Option<string>): StreamRecord -> Option<PublishRequest> {
    r => RouteRecord(r, specified, topicArn)
  }

  /** The number of records published for a category. */
  function MatchCount(rs: seq<StreamRecord>, specified: string): nat {
    if rs == [] then 0 else (if Matches(rs[0], specified) then 1 else 0) + MatchCount(rs[1..], specified)
  }

  /**
   * The handler. `topicArn` is SNS_TOPIC_ARN and `specified` is SPECIFIED_CATEGORY
   * as read when the module loads (`SpecifiedCategory` of the variable); the
   * publishes for the record indices in `failing` are rejected by SNS.
   */
  method Handle(publisher: Publisher, records: seq<StreamRecord>, topicArn: Option<string>, specified: string,
                failing: set<nat>) returns (response: BatchResponse)
    requires publisher.Valid()
    modifies publisher
    ensures publisher.Valid()
    ensures publisher.attempts == old(publisher.attempts) + Attempts(records, Router(specified, topicArn))
    ensures publisher.delivered == old(publisher.delivered) + Delivered(records, Router(specified, topicArn), failing)
    ensures response.batchItemFailures == []
  {
    ghost var route := Router(specified, topicArn);
    for i := 0 to |records|
      invariant publisher.Valid()
      invariant publisher.attempts == old(publisher.attempts) + Attempts(records[..i], route)
      invariant publisher.delivered == old(publisher.delivered) + Delivered(records[..i], route, failing)
    {
      var record := records[i];
      if record.eventName == Some(Insert) {
        var newItem := record.newImage;
        if newItem.None? {
          SkipStep(records, i, route, failing);
          continue;
        }
        var name := OrElse(StringAttr(newItem.value, "name"), Unknown);
        var location := OrElse(StringAttr(newItem.value, "location"), Unknown);
        var date := OrElse(StringAttr(newItem.value, "date"), Unknown);
        var category := OrElse(StringAttr(newItem.value, "category"), Unknown);
        var message := MessageBody(Notification(name, location, date, category));
        if category == specified {
          PublishStep(records, i, route, failing, Request(ItemOf(newItem.value), topicArn),
                      old(publisher.attempts), old(publisher.delivered));
          var published := publisher.Publish(PublishRequest(message, topicArn, map[]), i in failing);
        } else {
          SkipStep(records, i, route, failing);
        }
      } else {
        SkipStep(records, i, route, failing);
      }
    }
    assert records[..|records|] == records;
    return BatchResponse([]);
  }

  // ---------------------------------------------------------------------
  // Properties

  /** A notification is published exactly for the INSERT records in the specified category. */
  lemma PublishedIffCategoryMatches(rs: seq<StreamRecord>, specified: string, topicArn: Option<string>, req: PublishRequest)
    ensures req in Attempts(rs, Router(specified, topicArn)) <==>
      exists i :: 0 <= i < |rs| && IsInsertWithImage(rs[i]) && ItemOf(rs[i].newImage.value).category == specified &&
        req == Request(ItemOf(rs[i].newImage.value), topicArn)
  {
    AttemptsMembership(rs, Router(specified, topicArn), req);
  }

  lemma {:induction false} SelectedAreMatches(rs: seq<StreamRecord>, specified: string, topicArn: Option<string>)
    ensures Selected(rs, Router(specified, topicArn)) == MatchCount(rs, specified)
    decreases |rs|
  {
    if rs != [] {
      SelectedAreMatches(rs[1..], specified, topicArn);
    }
  }

  /** One publish attempt per matching record: none skipped, none repeated. */
  lemma OnePublishPerMatch(rs: seq<StreamRecord>, specified: string, topicArn: Option<string>)
    ensures |Attempts(rs, Router(specified, topicArn))| == MatchCount(rs, specified)
  {
    AttemptsCount(rs, Router(specified, topicArn));
    SelectedAreMatches(rs, specified, topicArn);
  }

  /** No publish carries a message attribute. */
  lemma {:induction false} NoMessageAttributes(rs: seq<StreamRecord>, specified: string, topicArn: Option<string>)
    ensures forall req :: req in Attempts(rs, Router(specified, topicArn)) ==> req.attributes == map[]
  {
    forall req | req in Attempts(rs, Router(specified, topicArn)) ensures req.attributes == map[] {
      AttemptsMembership(rs, Router(specified, topicArn), req);
    }
  }

  /**
   * With SPECIFIED_CATEGORY unset, the records published are the INSERTs whose
   * category is missing, empty, not a string, or literally "Unknown".
   */
  lemma UnsetCategorySelects(r: StreamRecord)
    ensures Matches(r, SpecifiedCategory(None)) <==>
      IsInsertWithImage(r) &&
      (!Truthy(StringAttr(r.newImage.value, "category")) || StringAttr(r.newImage.value, "category") == Some(Unknown))
  {
  }

  /** Every category-less INSERT is published under the default setting, whatever its other fields. */
  lemma CategorylessPublishedByDefault(r: StreamRecord, topicArn: Option<string>)
    requires IsInsertWithImage(r) && "category" !in r.newImage.value
    ensures RouteRecord(r, SpecifiedCategory(None), topicArn) == Some(Request(ItemOf(r.newImage.value), topicArn))
  {
  }
}
