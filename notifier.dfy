/**
 * The notification both change-stream routers send: the fixed message body
 * built from a lost item's name, location, date and category, the SNS Publish
 * request that carries it, and the SNS client as a log of publish attempts.
 */
module Notifier {
  import opened JsSemantics

  /** The item fields a notification reports, after defaulting. */
  datatype Notification = Notification(name: string, location: string, date: string, category: string)

  const Header := "\U{1F514} New Lost Item Found!"
  const NameLabel := "\U{1F4CC} Name: "
  const LocationLabel := "\U{1F4CD} Location: "
  const DateLabel := "\U{1F4C5} Date: "
  const CategoryLabel := "\U{1F4C2} Category: "

  /** The message template: a header line, then one labelled line per field. */
  function MessageBody(n: Notification): string {
    Header + "\n" + NameLabel + n.name + "\n" + LocationLabel + n.location + "\n" +
    DateLabel + n.date + "\n" + CategoryLabel + n.category
  }

  /** The five lines of the message. */
  function Lines(n: Notification): seq<string> {
    [Header, NameLabel + n.name, LocationLabel + n.location, DateLabel + n.date, CategoryLabel + n.category]
  }

  predicate HasPrefix(s: string, p: string) {
    |p| <= |s| && s[..|p|] == p
  }

  /** Reads a message body back into its fields: five lines, each with its label. */
  function ParseBody(body: string): Option<Notification> {
    var lines := Split(body, '\n');
    if |lines| == 5 && lines[0] == Header && HasPrefix(lines[1], NameLabel) && HasPrefix(lines[2], LocationLabel)
       && HasPrefix(lines[3], DateLabel) && HasPrefix(lines[4], CategoryLabel)
    then Some(Notification(lines[1][|NameLabel|..], lines[2][|LocationLabel|..], lines[3][|DateLabel|..],
                           lines[4][|CategoryLabel|..]))
    else None
  }

  predicate SingleLine(s: string) {
    '\n' !in s
  }

  /** The body is its lines joined by line breaks. */
  lemma BodyIsJoinedLines(n: Notification)
    ensures MessageBody(n) == Join(Lines(n), '\n')
  {
    var ls := Lines(n);
    JoinOfFive(ls[0], ls[1], ls[2], ls[3], ls[4], '\n');
  }

  /** Joining five parts puts the separator between each neighbouring pair. */
  lemma JoinOfFive(a: string, b: string, c: string, d: string, e: string, sep: char)
    ensures Join([a, b, c, d, e], sep) == a + [sep] + b + [sep] + c + [sep] + d + [sep] + e
  {
    var ls := [a, b, c, d, e];
    assert ls[1..] == [b, c, d, e] && ls[1..][1..] == [c, d, e];
    assert ls[1..][1..][1..] == [d, e] && ls[1..][1..][1..][1..] == [e];
    assert Join([d, e], sep) == d + [sep] + e;
    assert Join([c, d, e], sep) == c + [sep] + (d + [sep] + e);
    assert Join([b, c, d, e], sep) == b + [sep] + (c + [sep] + (d + [sep] + e));
  }

  lemma LabelsAreSingleLines()
    ensures SingleLine(Header) && SingleLine(NameLabel) && SingleLine(LocationLabel)
    ensures SingleLine(DateLabel) && SingleLine(CategoryLabel)
  {
  }

  lemma SingleLineConcat(a: string, b: string)
    requires SingleLine(a) && SingleLine(b)
    ensures SingleLine(a + b)
  {
    assert forall k :: 0 <= k < |a + b| ==> (a + b)[k] == if k < |a| then a[k] else b[k - |a|];
  }

  /**
   * The body names the fields in template order, so reading it back gives the
   * notification, provided no field holds a line break.
   */
  lemma ParseMessageBody(n: Notification)
    requires SingleLine(n.name) && SingleLine(n.location) && SingleLine(n.date) && SingleLine(n.category)
    ensures ParseBody(MessageBody(n)) == Some(n)
  {
    var ls := Lines(n);
    LabelsAreSingleLines();
    SingleLineConcat(NameLabel, n.name);
    SingleLineConcat(LocationLabel, n.location);
    SingleLineConcat(DateLabel, n.date);
    SingleLineConcat(CategoryLabel, n.category);
    BodyIsJoinedLines(n);
    SplitJoin(ls, '\n');
    assert (NameLabel + n.name)[..|NameLabel|] == NameLabel && (NameLabel + n.name)[|NameLabel|..] == n.name;
    assert (LocationLabel + n.location)[..|LocationLabel|] == LocationLabel;
    assert (LocationLabel + n.location)[|LocationLabel|..] == n.location;
    assert (DateLabel + n.date)[..|DateLabel|] == DateLabel && (DateLabel + n.date)[|DateLabel|..] == n.date;
    assert (CategoryLabel + n.category)[..|CategoryLabel|] == CategoryLabel;
    assert (CategoryLabel + n.category)[|CategoryLabel|..] == n.category;
  }

  /** Whatever body reads back was built by the template from what it reads back to. */
  lemma ParsedBodyIsMessageBody(body: string)
    requires ParseBody(body).Some?
    ensures MessageBody(ParseBody(body).value) == body
  {
    var n := ParseBody(body).value;
    var lines := Split(body, '\n');
    JoinSplit(body, '\n');
    assert lines[1] == NameLabel + n.name;
    assert lines[2] == LocationLabel + n.location;
    assert lines[3] == DateLabel + n.date;
    assert lines[4] == CategoryLabel + n.category;
    assert lines == Lines(n);
    BodyIsJoinedLines(n);
  }

  /** The body ends with the category line, whatever the fields hold. */
  lemma BodyEndsWithCategory(n: Notification)
    ensures var b := MessageBody(n); var t := CategoryLabel + n.category;
      |t| <= |b| && b[|b| - |t|..] == t
  {
  }

  // ---------------------------------------------------------------------
  // SNS Publish

  /** A `MessageAttributes` entry. */
  datatype MessageAttribute = MessageAttribute(dataType: string, stringValue: string)

  /** A PublishCommand input; `topicArn` is the SNS_TOPIC_ARN variable, which may be unset. */
  datatype PublishRequest = PublishRequest(message: string, topicArn: Option<string>,
                                           attributes: map<string, MessageAttribute>)

  /** The SNS client as the routers see it: every Publish it is sent, and those SNS accepted. */
  class Publisher {
    var attempts: seq<PublishRequest>
    var delivered: seq<PublishRequest>

    /** Only attempted requests are ever delivered, in the order they were sent. */
    ghost predicate Valid()
      reads this
    {
      IsSubsequence(delivered, attempts)
    }

    constructor ()
      ensures Valid() && attempts == [] && delivered == []
    {
      attempts := [];
      delivered := [];
    }

    /** Publish: recorded as attempted; delivered unless SNS rejects it, which `fails` decides. */
    method Publish(req: PublishRequest, fails: bool) returns (ok: bool)
      requires Valid()
      modifies this
      ensures Valid()
      ensures ok == !fails
      ensures attempts == old(attempts) + [req]
      ensures delivered == old(delivered) + (if ok then [req] else [])
    {
      SubsequenceExtend(delivered, attempts, req);
      attempts := attempts + [req];
      ok := !fails;
      if ok {
        delivered := delivered + [req];
      }
    }
  }
}
