/**
 * The subscription upsert of the `subscribe` function: validate the request,
 * list the topic's subscriptions, look for a confirmed subscription of the
 * same e-mail address, and either replace that subscription's filter policy
 * or request a new e-mail subscription carrying the policy.
 *
 * The topic (the SNS side) is the class `SnsTopic`: its subscription list and
 * the log of calls made to it. Its three methods are the three SNS operations
 * the handler uses; each may be rejected, which the `fails` parameters decide.
 */
module SubscribeHandler {
  import opened JsSemantics

  const EmailRequired := "Email is required for subscription."
  const TopicArnMissing := "SNS_TOPIC_ARN is not set in the environment variables."
  const ProcessingFailed := "Failed to process subscription request"

  /** What ListSubscriptionsByTopic reports as the ARN of an unconfirmed subscription. */
  const PendingArn := "PendingConfirmation"
  /** The policy value the handler uses when no category is given. */
  const Wildcard := "*"
  /** ListSubscriptionsByTopic returns at most this many subscriptions per call. */
  const PageSize := 100

  /** The filter policy `{ category: [...] }`. */
  datatype FilterPolicy = FilterPolicy(category: seq<string>)

  /** Whether the endpoint's owner has confirmed the subscription (then it has a real ARN). */
  datatype SubscriptionState = Pending | Confirmed(arn: string)

  datatype Subscription = Subscription(endpoint: string, state: SubscriptionState, filterPolicy: Option<FilterPolicy>)

  /** The calls the handler makes to SNS, as the topic records them. */
  datatype SnsCall =
    | ListSubscriptionsByTopic(topicArn: string)
    | SetSubscriptionAttributes(subscriptionArn: string, attributeName: string, attributeValue: FilterPolicy)
    | Subscribe(protocol: string, topicArn: string, endpoint: string, filterPolicy: FilterPolicy)

  /** A resolved handler invocation, or the message of the error it throws. */
  datatype Outcome = Pass | Fail(message: string)

  // ---------------------------------------------------------------------
  // The pure parts of the handler

  /** The `SubscriptionArn` string that ListSubscriptionsByTopic reports. */
  function ListedArn(state: SubscriptionState): string {
    match state
    case Pending => PendingArn
    case Confirmed(arn) => arn
  }

  /** The `find` predicate: same endpoint, a truthy ARN, and not the pending marker. */
  predicate IsReusable(sub: Subscription, email: string) {
    sub.endpoint == email && Truthy(Some(ListedArn(sub.state))) && ListedArn(sub.state) != PendingArn
  }

  /** An entry `find` accepts is a confirmed subscription of that e-mail with a non-empty ARN. */
  lemma ReusableIsConfirmed(sub: Subscription, email: string)
    ensures IsReusable(sub, email) <==>
      sub.endpoint == email && sub.state.Confirmed? && sub.state.arn != "" && sub.state.arn != PendingArn
  {
  }

  /** The first entry of a listing that `find` accepts. */
  function FindReusable(listing: seq<Subscription>, email: string): (r: Option<nat>)
    ensures r.Some? ==> r.value < |listing| && IsReusable(listing[r.value], email)
    ensures r.Some? ==> forall j :: 0 <= j < r.value ==> !IsReusable(listing[j], email)
    ensures r.None? ==> forall j :: 0 <= j < |listing| ==> !IsReusable(listing[j], email)
  {
    FindIndex(listing, (s: Subscription) => IsReusable(s, email))
  }

  /** The filter policy the handler builds from the request's category. */
  function PolicyFor(category: Option<string>): (p: FilterPolicy)
    ensures |p.category| == 1
    ensures Truthy(category) ==> p.category == [category.value]
    ensures !Truthy(category) ==> p.category == [Wildcard]
  {
    if Truthy(category) then FilterPolicy([category.value]) else FilterPolicy([Wildcard])
  }

  /** The category a policy names; the wildcard reads back as "no category". */
  function RequestedCategory(p: FilterPolicy): Option<string> {
    if p.category == [Wildcard] || |p.category| != 1 then None else Some(p.category[0])
  }

  /**
   * Reading a policy back gives the requested category, except that a category
   * spelled `*` cannot be told apart from "no category".
   */
  lemma {:induction false} PolicyRoundTrip(category: Option<string>)
    ensures RequestedCategory(PolicyFor(category)) ==
      (if Truthy(category) && category.value != Wildcard then category else None)
    ensures PolicyFor(Some(Wildcard)) == PolicyFor(None) == PolicyFor(Some(""))
  {
    var p := PolicyFor(category);
    if Truthy(category) {
      assert p.category == [category.value];
      assert p.category[0] == category.value;
    } else {
      assert p.category == [Wildcard];
    }
  }

  /** How many entries ListSubscriptionsByTopic returns for a list of length `n`. */
  function PageLength(n: nat): (k: nat)
    ensures k <= n && k <= PageSize
    ensures n <= PageSize ==> k == n
  {
    if n < PageSize then n else PageSize
  }

  /** What the handler does once it has the listing. */
  datatype Decision = UpdateExisting(index: nat, subscriptionArn: string) | CreateNew

  /** The update-versus-create choice on a listing. */
  function Decide(listing: seq<Subscription>, email: string): (d: Decision)
    ensures d.UpdateExisting? ==>
      FindReusable(listing, email) == Some(d.index) &&
      listing[d.index].state == Confirmed(d.subscriptionArn) &&
      |Split(d.subscriptionArn, ':')| >= 6
    ensures d.CreateNew? ==>
      FindReusable(listing, email).None? ||
      |Split(ListedArn(listing[FindReusable(listing, email).value].state), ':')| < 6
  {
    match FindReusable(listing, email)
    case Some(k) =>
      var arn := ListedArn(listing[k].state);
      if Truthy(Some(arn)) && |Split(arn, ':')| >= 6 then UpdateExisting(k, arn) else CreateNew
    case None => CreateNew
  }

  /** The one mutating call the handler makes after a successful listing. */
  function MutationFor(listing: seq<Subscription>, email: string, category: Option<string>, topicArn: string): SnsCall {
    match Decide(listing, email)
    case UpdateExisting(_, arn) => SetSubscriptionAttributes(arn, "FilterPolicy", PolicyFor(category))
    case CreateNew => Subscribe("email", topicArn, email, PolicyFor(category))
  }

  // ---------------------------------------------------------------------
  // What SNS does with the calls

  /** Confirmed ARNs identify subscriptions: no two entries share one. */
  ghost predicate UniqueArns(subs: seq<Subscription>) {
    forall i, j :: 0 <= i < j < |subs| && subs[i].state.Confirmed? && subs[j].state.Confirmed? ==>
      subs[i].state.arn != subs[j].state.arn
  }

  /** At most one confirmed subscription per endpoint. */
  ghost predicate OneConfirmedPerEndpoint(subs: seq<Subscription>) {
    forall i, j :: 0 <= i < j < |subs| && subs[i].state.Confirmed? && subs[j].state.Confirmed? ==>
      subs[i].endpoint != subs[j].endpoint
  }

  /** The entry an ARN names. */
  function IndexOfArn(subs: seq<Subscription>, arn: string): (r: Option<nat>)
    ensures r.Some? ==> r.value < |subs| && subs[r.value].state == Confirmed(arn)
    ensures r.None? ==> forall j :: 0 <= j < |subs| ==> subs[j].state != Confirmed(arn)
  {
    FindIndex(subs, (s: Subscription) => s.state == Confirmed(arn))
  }

  lemma IndexOfUniqueArn(subs: seq<Subscription>, k: nat)
    requires UniqueArns(subs) && k < |subs| && subs[k].state.Confirmed?
    ensures IndexOfArn(subs, subs[k].state.arn) == Some(k)
  {
    var r := IndexOfArn(subs, subs[k].state.arn);
    assert r.Some?;
  }

  /** SetSubscriptionAttributes(FilterPolicy): replace the policy of the entry the ARN names. */
  function SetPolicyByArn(subs: seq<Subscription>, arn: string, p: FilterPolicy): seq<Subscription> {
    match IndexOfArn(subs, arn)
    case Some(k) => subs[k := subs[k].(filterPolicy := Some(p))]
    case None => subs
  }

  /** Subscribe: a new e-mail subscription that waits for its owner's confirmation. */
  function AddPending(subs: seq<Subscription>, email: string, p: FilterPolicy): seq<Subscription> {
    subs + [Subscription(email, Pending, Some(p))]
  }

  /**
   * The subscription list after an accepted mutation, when the handler searches
   * the first `n` entries of the list.
   */
  function UpsertWithin(n: nat, subs: seq<Subscription>, email: string, category: Option<string>): seq<Subscription>
    requires n <= |subs|
  {
    match Decide(subs[..n], email)
    case UpdateExisting(_, arn) => SetPolicyByArn(subs, arn, PolicyFor(category))
    case CreateNew => AddPending(subs, email, PolicyFor(category))
  }

  /** The handler as written: only the first page of the listing is searched. */
  function Upsert(subs: seq<Subscription>, email: string, category: Option<string>): seq<Subscription> {
    UpsertWithin(PageLength(|subs|), subs, email, category)
  }

  /** The handler with every page of the listing searched (see Findings in README.md). */
  function UpsertAllPages(subs: seq<Subscription>, email: string, category: Option<string>): seq<Subscription> {
    UpsertWithin(|subs|, subs, email, category)
  }

  // ---------------------------------------------------------------------
  // Properties of the upsert

  /** Two lists agree on everything but filter policies. */
  ghost predicate SameHandles(a: seq<Subscription>, b: seq<Subscription>) {
    |a| == |b| && forall i :: 0 <= i < |a| ==> a[i].endpoint == b[i].endpoint && a[i].state == b[i].state
  }

  /** The decision depends on endpoints and ARNs only, never on filter policies. */
  lemma DecideIgnoresPolicies(a: seq<Subscription>, b: seq<Subscription>, email: string)
    requires SameHandles(a, b)
    ensures Decide(a, email) == Decide(b, email)
  {
    FindIndexAgrees(a, (s: Subscription) => IsReusable(s, email), b, (s: Subscription) => IsReusable(s, email));
  }

  /** Number of entries for an endpoint. */
  function CountFor(subs: seq<Subscription>, email: string): nat {
    if subs == [] then 0 else (if subs[0].endpoint == email then 1 else 0) + CountFor(subs[1..], email)
  }

  lemma {:induction false} CountForSameHandles(a: seq<Subscription>, b: seq<Subscription>, email: string)
    requires SameHandles(a, b)
    ensures CountFor(a, email) == CountFor(b, email)
    decreases |a|
  {
    if a != [] {
      CountForSameHandles(a[1..], b[1..], email);
    }
  }

  lemma {:induction false} CountForAppend(a: seq<Subscription>, x: Subscription, email: string)
    ensures CountFor(a + [x], email) == CountFor(a, email) + (if x.endpoint == email then 1 else 0)
    decreases |a|
  {
    if a != [] {
      assert (a + [x])[1..] == a[1..] + [x];
      CountForAppend(a[1..], x, email);
    }
  }

  /**
   * Update path: exactly the matched entry gets the new policy; no entry is
   * added and every other entry is unchanged.
   */
  lemma UpdateChangesOnlyThePolicy(n: nat, subs: seq<Subscription>, email: string, category: Option<string>)
    requires n <= |subs| && UniqueArns(subs)
    requires Decide(subs[..n], email).UpdateExisting?
    ensures var k := Decide(subs[..n], email).index;
      k < n &&
      UpsertWithin(n, subs, email, category) == subs[k := subs[k].(filterPolicy := Some(PolicyFor(category)))]
  {
    var k := Decide(subs[..n], email).index;
    assert subs[..n][k] == subs[k];
    IndexOfUniqueArn(subs, k);
  }

  /** Create path: exactly one pending entry for the e-mail, with the policy attached, is added. */
  lemma CreateAddsOnePending(n: nat, subs: seq<Subscription>, email: string, category: Option<string>)
    requires n <= |subs|
    requires Decide(subs[..n], email).CreateNew?
    ensures UpsertWithin(n, subs, email, category) == subs + [Subscription(email, Pending, Some(PolicyFor(category)))]
    ensures CountFor(UpsertWithin(n, subs, email, category), email) == CountFor(subs, email) + 1
  {
    CountForAppend(subs, Subscription(email, Pending, Some(PolicyFor(category))), email);
  }

  /**
   * Once a confirmed entry is found, repeating the call changes only its policy,
   * which ends up as the latest call's; the count of entries for the e-mail
   * stays the same.
   */
  lemma {:induction false} LatestCallWinsWithin(n: nat, subs: seq<Subscription>, email: string,
                                                first: Option<string>, second: Option<string>)
    requires n <= |subs| && UniqueArns(subs)
    requires Decide(subs[..n], email).UpdateExisting?
    ensures var once := UpsertWithin(n, subs, email, first);
      |once| == |subs| && UniqueArns(once) &&
      UpsertWithin(n, once, email, second) == UpsertWithin(n, subs, email, second) &&
      CountFor(UpsertWithin(n, once, email, second), email) == CountFor(subs, email)
  {
    var k := Decide(subs[..n], email).index;
    UpdateChangesOnlyThePolicy(n, subs, email, first);
    var once := UpsertWithin(n, subs, email, first);
    assert SameHandles(once, subs);
    assert SameHandles(once[..n], subs[..n]);
    DecideIgnoresPolicies(once[..n], subs[..n], email);
    assert UniqueArns(once);
    UpdateChangesOnlyThePolicy(n, once, email, second);
    UpdateChangesOnlyThePolicy(n, subs, email, second);
    var twice := UpsertWithin(n, once, email, second);
    assert SameHandles(twice, subs);
    CountForSameHandles(twice, subs, email);
  }

  /** As written: idempotent and latest-wins, while the confirmed entry is on the first page. */
  lemma LatestCallWins(subs: seq<Subscription>, email: string, first: Option<string>, second: Option<string>)
    requires UniqueArns(subs)
    requires Decide(subs[..PageLength(|subs|)], email).UpdateExisting?
    ensures Upsert(Upsert(subs, email, first), email, second) == Upsert(subs, email, second)
    ensures Upsert(Upsert(subs, email, first), email, first) == Upsert(subs, email, first)
    ensures CountFor(Upsert(Upsert(subs, email, first), email, second), email) == CountFor(subs, email)
  {
    LatestCallWinsWithin(PageLength(|subs|), subs, email, first, second);
    LatestCallWinsWithin(PageLength(|subs|), subs, email, first, first);
  }

  /** Searching every page: idempotent and latest-wins whenever a confirmed entry exists. */
  lemma LatestCallWinsAllPages(subs: seq<Subscription>, email: string, first: Option<string>, second: Option<string>)
    requires UniqueArns(subs)
    requires Decide(subs, email).UpdateExisting?
    ensures UpsertAllPages(UpsertAllPages(subs, email, first), email, second) == UpsertAllPages(subs, email, second)
    ensures UpsertAllPages(UpsertAllPages(subs, email, first), email, first) == UpsertAllPages(subs, email, first)
    ensures CountFor(UpsertAllPages(UpsertAllPages(subs, email, first), email, second), email) == CountFor(subs, email)
  {
    assert subs[..|subs|] == subs;
    LatestCallWinsWithin(|subs|, subs, email, first, second);
    LatestCallWinsWithin(|subs|, subs, email, first, first);
  }

  /** The upsert never makes a second confirmed subscription, nor reuses an ARN. */
  lemma UpsertKeepsInvariants(n: nat, subs: seq<Subscription>, email: string, category: Option<string>)
    requires n <= |subs| && UniqueArns(subs)
    ensures UniqueArns(UpsertWithin(n, subs, email, category))
    ensures OneConfirmedPerEndpoint(subs) ==> OneConfirmedPerEndpoint(UpsertWithin(n, subs, email, category))
  {
    if Decide(subs[..n], email).UpdateExisting? {
      UpdateChangesOnlyThePolicy(n, subs, email, category);
      assert SameHandles(UpsertWithin(n, subs, email, category), subs);
    }
  }

  /**
   * A change of mind: with a confirmed subscription for the address, an
   * all-categories call followed by an "Electronics" call adds no entry for the
   * address, and the found one ends with the policy `{category: ["Electronics"]}`.
   */
  lemma ScenarioAllThenElectronics(subs: seq<Subscription>, email: string)
    requires UniqueArns(subs)
    requires Decide(subs[..PageLength(|subs|)], email).UpdateExisting?
    ensures var k := Decide(subs[..PageLength(|subs|)], email).index;
      var after := Upsert(Upsert(subs, email, Some("")), email, Some("Electronics"));
      |after| == |subs| && after[k].filterPolicy == Some(FilterPolicy(["Electronics"])) &&
      CountFor(after, email) == CountFor(subs, email)
  {
    LatestCallWins(subs, email, Some(""), Some("Electronics"));
    UpdateChangesOnlyThePolicy(PageLength(|subs|), subs, email, Some("Electronics"));
  }

  /** A well-formed subscription ARN, used by the example below. */
  function ExampleArn(): string {
    Join(["arn", "aws", "sns", "us-east-1", "123456789012", "items", "1"], ':')
  }

  lemma ExampleArnIsListedAsConfirmed()
    ensures ExampleArn() != "" && ExampleArn() != PendingArn && |Split(ExampleArn(), ':')| == 7
  {
    var parts := ["arn", "aws", "sns", "us-east-1", "123456789012", "items", "1"];
    SplitJoin(parts, ':');
    assert ExampleArn() == parts[0] + [':'] + Join(parts[1..], ':');
    assert ExampleArn()[0] == 'a';
  }

  /** No pending entry is ever reused. */
  lemma NothingReusableAmongPending(listing: seq<Subscription>, email: string)
    requires forall j :: 0 <= j < |listing| ==> listing[j].state.Pending?
    ensures FindReusable(listing, email).None?
  {
  }

  /** As written, a full first page of pending entries hides whatever follows it. */
  lemma FullPendingPageHidesTheRest(others: seq<Subscription>, rest: seq<Subscription>, email: string,
                                    category: Option<string>)
    requires |others| == PageSize
    requires forall j :: 0 <= j < |others| ==> others[j].state.Pending?
    ensures Upsert(others + rest, email, category) ==
      others + rest + [Subscription(email, Pending, Some(PolicyFor(category)))]
  {
    var subs := others + rest;
    assert subs[..PageLength(|subs|)] == others;
    NothingReusableAmongPending(others, email);
  }

  /**
   * As written, a confirmed subscription behind the first page is not found:
   * its policy stays as it was and a new subscription is requested instead.
   */
  lemma FirstPageMissesLaterSubscription()
    ensures var others := seq(PageSize, i => Subscription("other@example.com", Pending, None));
      var mine := Subscription("a@x.com", Confirmed(ExampleArn()), Some(FilterPolicy(["Clothing"])));
      var subs := others + [mine];
      var after := Upsert(subs, "a@x.com", Some("Electronics"));
      UniqueArns(subs) && |after| == |subs| + 1 && after[PageSize] == mine
    ensures var others := seq(PageSize, i => Subscription("other@example.com", Pending, None));
      var mine := Subscription("a@x.com", Confirmed(ExampleArn()), Some(FilterPolicy(["Clothing"])));
      var subs := others + [mine];
      MutationFor(subs[..PageLength(|subs|)], "a@x.com", Some("Electronics"), "topic") ==
        Subscribe("email", "topic", "a@x.com", FilterPolicy(["Electronics"]))
  {
    var others := seq(PageSize, i => Subscription("other@example.com", Pending, None));
    var mine := Subscription("a@x.com", Confirmed(ExampleArn()), Some(FilterPolicy(["Clothing"])));
    FullPendingPageHidesTheRest(others, [mine], "a@x.com", Some("Electronics"));
    assert UniqueArns(others + [mine]);
    assert (others + [mine])[..PageLength(|others + [mine]|)] == others;
    NothingReusableAmongPending(others, "a@x.com");
  }

  /** Searching every page finds a confirmed subscription behind any number of pending ones. */
  lemma LaterConfirmedFound(others: seq<Subscription>, mine: Subscription, email: string, category: Option<string>)
    requires forall j :: 0 <= j < |others| ==> others[j].state.Pending?
    requires mine.endpoint == email && mine.state.Confirmed?
    requires mine.state.arn != "" && mine.state.arn != PendingArn && |Split(mine.state.arn, ':')| >= 6
    ensures Decide(others + [mine], email) == UpdateExisting(|others|, mine.state.arn)
    ensures UpsertAllPages(others + [mine], email, category) == others + [mine.(filterPolicy := Some(PolicyFor(category)))]
  {
    var subs := others + [mine];
    assert subs[|others| := mine.(filterPolicy := Some(PolicyFor(category)))] ==
      others + [mine.(filterPolicy := Some(PolicyFor(category)))];
    assert forall j :: 0 <= j < |others| ==> subs[j].state.Pending?;
    assert IsReusable(subs[|others|], email);
    assert FindReusable(subs, email) == Some(|others|);
    assert UniqueArns(subs);
    assert subs[..|subs|] == subs;
    UpdateChangesOnlyThePolicy(|subs|, subs, email, category);
  }

  /** Searching every page finds that same subscription and replaces its policy. */
  lemma AllPagesFindLaterSubscription()
    ensures var others := seq(PageSize, i => Subscription("other@example.com", Pending, None));
      var mine := Subscription("a@x.com", Confirmed(ExampleArn()), Some(FilterPolicy(["Clothing"])));
      var subs := others + [mine];
      Decide(subs, "a@x.com") == UpdateExisting(PageSize, ExampleArn()) &&
      UpsertAllPages(subs, "a@x.com", Some("Electronics")) == others + [mine.(filterPolicy := Some(FilterPolicy(["Electronics"])))]
  {
    var others := seq(PageSize, i => Subscription("other@example.com", Pending, None));
    var mine := Subscription("a@x.com", Confirmed(ExampleArn()), Some(FilterPolicy(["Clothing"])));
    ExampleArnIsListedAsConfirmed();
    LaterConfirmedFound(others, mine, "a@x.com", Some("Electronics"));
  }

  // ---------------------------------------------------------------------
  // The topic and the handler

  class SnsTopic {
    var subscriptions: seq<Subscription>
    /** Every call made to the topic, in order. */
    var calls: seq<SnsCall>

    ghost predicate Valid()
      reads this
    {
      UniqueArns(subscriptions)
    }

    constructor (initial: seq<Subscription>)
      requires UniqueArns(initial)
      ensures Valid() && subscriptions == initial && calls == []
    {
      subscriptions := initial;
      calls := [];
    }

    /** ListSubscriptionsByTopic: the first page of the list, unless the call is rejected. */
    method ListSubscriptions(topicArn: string, fails: bool) returns (listing: Option<seq<Subscription>>)
      modifies `calls
      ensures calls == old(calls) + [ListSubscriptionsByTopic(topicArn)]
      ensures listing == if fails then None else Some(subscriptions[..PageLength(|subscriptions|)])
    {
      calls := calls + [ListSubscriptionsByTopic(topicArn)];
      if fails {
        listing := None;
      } else {
        listing := Some(subscriptions[..PageLength(|subscriptions|)]);
      }
    }

    /** SetSubscriptionAttributes with AttributeName FilterPolicy. */
    method SetFilterPolicy(subscriptionArn: string, policy: FilterPolicy, fails: bool) returns (ok: bool)
      requires Valid()
      modifies this
      ensures Valid()
      ensures calls == old(calls) + [SetSubscriptionAttributes(subscriptionArn, "FilterPolicy", policy)]
      ensures ok == (!fails && IndexOfArn(old(subscriptions), subscriptionArn).Some?)
      ensures subscriptions == if ok then SetPolicyByArn(old(subscriptions), subscriptionArn, policy) else old(subscriptions)
    {
      calls := calls + [SetSubscriptionAttributes(subscriptionArn, "FilterPolicy", policy)];
      var target := IndexOfArn(subscriptions, subscriptionArn);
      ok := !fails && target.Some?;
      if ok {
        var k := target.value;
        subscriptions := subscriptions[k := subscriptions[k].(filterPolicy := Some(policy))];
      }
    }

    /** Subscribe with protocol email: a new pending subscription carrying the policy. */
    method SubscribeEmail(topicArn: string, endpoint: string, policy: FilterPolicy, fails: bool) returns (ok: bool)
      requires Valid()
      modifies this
      ensures Valid()
      ensures calls == old(calls) + [Subscribe("email", topicArn, endpoint, policy)]
      ensures ok == !fails
      ensures subscriptions == if ok then AddPending(old(subscriptions), endpoint, policy) else old(subscriptions)
    {
      calls := calls + [Subscribe("email", topicArn, endpoint, policy)];
      ok := !fails;
      if ok {
        subscriptions := AddPending(subscriptions, endpoint, policy);
      }
    }
  }

  /**
   * The `subscribe` handler. `email` and `category` are the request's
   * arguments, `topicArnEnv` is the SNS_TOPIC_ARN environment variable, and
   * `listFails` and `mutationFails` say whether SNS rejects the listing and
   * the mutating call.
   */
  method Handle(topic: SnsTopic, email: Option<string>, category: Option<string>, topicArnEnv: Option<string>,
                listFails: bool, mutationFails: bool) returns (r: Outcome)
    requires topic.Valid()
    modifies topic
    ensures topic.Valid()
    // validation happens before any call to SNS
    ensures !Truthy(email) ==>
      r == Fail(EmailRequired) && topic.calls == old(topic.calls) && topic.subscriptions == old(topic.subscriptions)
    ensures Truthy(email) && !Truthy(topicArnEnv) ==>
      r == Fail(TopicArnMissing) && topic.calls == old(topic.calls) && topic.subscriptions == old(topic.subscriptions)
    // a rejected listing: no mutation
    ensures Truthy(email) && Truthy(topicArnEnv) && listFails ==>
      r == Fail(ProcessingFailed) && topic.subscriptions == old(topic.subscriptions) &&
      topic.calls == old(topic.calls) + [ListSubscriptionsByTopic(topicArnEnv.value)]
    // otherwise exactly one mutating call follows the listing
    ensures Truthy(email) && Truthy(topicArnEnv) && !listFails ==>
      topic.calls == old(topic.calls) + [ListSubscriptionsByTopic(topicArnEnv.value),
        MutationFor(old(topic.subscriptions)[..PageLength(|old(topic.subscriptions)|)], email.value, category, topicArnEnv.value)] &&
      (r == Pass <==> !mutationFails) && (r.Fail? ==> r == Fail(ProcessingFailed)) &&
      topic.subscriptions == if mutationFails then old(topic.subscriptions) else Upsert(old(topic.subscriptions), email.value, category)
  {
    if !Truthy(email) {
      return Fail(EmailRequired);
    }
    if !Truthy(topicArnEnv) {
      return Fail(TopicArnMissing);
    }
    var address, topicArn := email.value, topicArnEnv.value;
    ghost var before := topic.subscriptions;
    var listing := topic.ListSubscriptions(topicArn, listFails);
    if listing.None? {
      return Fail(ProcessingFailed);
    }
    assert listing.value == before[..PageLength(|before|)];
    var existing := FindReusable(listing.value, address);
    var policy := PolicyFor(category);
    var ok: bool;
    if existing.Some? && Truthy(Some(ListedArn(listing.value[existing.value].state)))
       && |Split(ListedArn(listing.value[existing.value].state), ':')| >= 6 {
      var k := existing.value;
      assert listing.value[k] == before[k];
      IndexOfUniqueArn(before, k);
      ok := topic.SetFilterPolicy(ListedArn(listing.value[k].state), policy, mutationFails);
    } else {
      ok := topic.SubscribeEmail(topicArn, address, policy, mutationFails);
    }
    if !ok {
      return Fail(ProcessingFailed);
    }
    return Pass;
  }
}
