/**
 * DynamoDB stream records as the routers read them, and what a router's loop
 * over a batch does: one publish attempt per record the router selects, in
 * batch order, with a failed publish neither stopping the loop nor being
 * retried.
 */
module ChangeStream {
  import opened JsSemantics

  /** A DynamoDB attribute value; only the `S` form is a string. */
  datatype AttributeValue = S(s: string) | N(n: string) | BOOL(b: bool) | NULL

  /** A `NewImage`: attribute name to value. */
  type Image = map<string, AttributeValue>

  /**
   * A stream record. `eventName` is `None` when the record has none;
   * `newImage` is `None` when `dynamodb` or its `NewImage` is absent.
   */
  datatype StreamRecord = StreamRecord(eventId: string, eventName: Option<string>, newImage: Option<Image>)

  /** The handlers' response. */
  datatype BatchResponse = BatchResponse(batchItemFailures: seq<string>)

  const Insert := "INSERT"

  /** `img.key?.S`: the string held under `key`, if there is one. */
  function StringAttr(img: Image, key: string): (r: Option<string>)
    ensures r.Some? <==> key in img && img[key].S?
    ensures r.Some? ==> img[key] == S(r.value)
  {
    if key in img && img[key].S? then Some(img[key].s) else None
  }

  /** The records both loops act on: an INSERT with a new image. */
  predicate IsInsertWithImage(r: StreamRecord) {
    r.eventName == Some(Insert) && r.newImage.Some?
  }

  /** The publishes a loop attempts over `rs`, where `route` says what one record yields. */
  function Attempts<T>(rs: seq<StreamRecord>, route: StreamRecord -> Option<T>): seq<T>
    decreases |rs|
  {
    if rs == [] then []
    else Attempts(rs[..|rs| - 1], route) + OptionToSeq(route(rs[|rs| - 1]))
  }

  /** The attempts that SNS accepts, when the attempts for the record indices in `failing` are rejected. */
  function Delivered<T>(rs: seq<StreamRecord>, route: StreamRecord -> Option<T>, failing: set<nat>): seq<T>
    decreases |rs|
  {
    if rs == [] then []
    else
      var last := if |rs| - 1 in failing then [] else OptionToSeq(route(rs[|rs| - 1]));
      Delivered(rs[..|rs| - 1], route, failing) + last
  }

  function OptionToSeq<T>(o: Option<T>): (s: seq<T>)
    ensures o.Some? ==> s == [o.value]
    ensures o.None? ==> s == []
  {
    if o.Some? then [o.value] else []
  }

  /** The number of records `route` selects. */
  function Selected<T>(rs: seq<StreamRecord>, route: StreamRecord -> Option<T>): nat
    decreases |rs|
  {
    if rs == [] then 0 else (if route(rs[0]).Some? then 1 else 0) + Selected(rs[1..], route)
  }

  // ---------------------------------------------------------------------
  // Properties of a batch

  lemma AttemptsStep<T>(rs: seq<StreamRecord>, i: nat, route: StreamRecord -> Option<T>)
    requires i < |rs|
    ensures Attempts(rs[..i + 1], route) == Attempts(rs[..i], route) + OptionToSeq(route(rs[i]))
  {
    assert rs[..i + 1][..i] == rs[..i];
  }

  lemma DeliveredStep<T>(rs: seq<StreamRecord>, i: nat, route: StreamRecord -> Option<T>, failing: set<nat>)
    requires i < |rs|
    ensures Delivered(rs[..i + 1], route, failing) ==
      Delivered(rs[..i], route, failing) + (if i in failing then [] else OptionToSeq(route(rs[i])))
  {
    assert rs[..i + 1][..i] == rs[..i];
  }

  /** A record the route skips adds nothing to either list. */
  lemma SkipStep<T>(rs: seq<StreamRecord>, i: nat, route: StreamRecord -> Option<T>, failing: set<nat>)
    requires i < |rs| && route(rs[i]).None?
    ensures Attempts(rs[..i + 1], route) == Attempts(rs[..i], route)
    ensures Delivered(rs[..i + 1], route, failing) == Delivered(rs[..i], route, failing)
  {
    AttemptsStep(rs, i, route);
    DeliveredStep(rs, i, route, failing);
  }

  /**
   * A record the route selects adds its request to the attempts, and to the
   * deliveries unless it fails; `a0` and `d0` are what the lists held before the batch.
   */
  lemma PublishStep<T>(rs: seq<StreamRecord>, i: nat, route: StreamRecord -> Option<T>, failing: set<nat>, x: T,
                       a0: seq<T>, d0: seq<T>)
    requires i < |rs| && route(rs[i]) == Some(x)
    ensures a0 + Attempts(rs[..i + 1], route) == (a0 + Attempts(rs[..i], route)) + [x]
    ensures d0 + Delivered(rs[..i + 1], route, failing) ==
      (d0 + Delivered(rs[..i], route, failing)) + (if i in failing then [] else [x])
  {
    AttemptsStep(rs, i, route);
    DeliveredStep(rs, i, route, failing);
  }

  /** Processing two batches one after the other attempts what processing them as one batch does. */
  lemma {:induction false} AttemptsAppend<T>(a: seq<StreamRecord>, b: seq<StreamRecord>, route: StreamRecord -> Option<T>)
    ensures Attempts(a + b, route) == Attempts(a, route) + Attempts(b, route)
    decreases |b|
  {
    if b == [] {
      assert a + b == a;
    } else {
      var b' := b[..|b| - 1];
      assert (a + b)[..|a + b| - 1] == a + b';
      assert (a + b)[|a + b| - 1] == b[|b| - 1];
      AttemptsAppend(a, b', route);
    }
  }

  /** One attempt per selected record: the loop neither skips nor repeats a publish. */
  lemma {:induction false} AttemptsCount<T>(rs: seq<StreamRecord>, route: StreamRecord -> Option<T>)
    ensures |Attempts(rs, route)| == Selected(rs, route)
    decreases |rs|
  {
    if rs != [] {
      assert rs == [rs[0]] + rs[1..];
      AttemptsAppend([rs[0]], rs[1..], route);
      assert [rs[0]][..0] == [];
      AttemptsCount(rs[1..], route);
    }
  }

  /** A request is attempted exactly when some record of the batch yields it. */
  lemma {:induction false} AttemptsMembership<T>(rs: seq<StreamRecord>, route: StreamRecord -> Option<T>, x: T)
    ensures x in Attempts(rs, route) <==> exists i :: 0 <= i < |rs| && route(rs[i]) == Some(x)
    decreases |rs|
  {
    if rs != [] {
      var init := rs[..|rs| - 1];
      AttemptsMembership(init, route, x);
      if exists i :: 0 <= i < |init| && route(init[i]) == Some(x) {
        var i :| 0 <= i < |init| && route(init[i]) == Some(x);
        assert rs[i] == init[i];
      }
      if exists i :: 0 <= i < |rs| && route(rs[i]) == Some(x) {
        var i :| 0 <= i < |rs| && route(rs[i]) == Some(x);
        if i < |init| {
          assert init[i] == rs[i];
        }
      }
    }
  }

  /** Delivered publishes are attempted ones, in the same order. */
  lemma {:induction false} DeliveredAreAttempted<T>(rs: seq<StreamRecord>, route: StreamRecord -> Option<T>, failing: set<nat>)
    ensures IsSubsequence(Delivered(rs, route, failing), Attempts(rs, route))
    decreases |rs|
  {
    if rs == [] {
    } else {
      var init := rs[..|rs| - 1];
      DeliveredAreAttempted(init, route, failing);
      var o := route(rs[|rs| - 1]);
      if o.Some? {
        var d, a := Delivered(init, route, failing), Attempts(init, route);
        SubsequenceExtend(d, a, o.value);
        assert Attempts(rs, route) == a + [o.value];
        if |rs| - 1 in failing {
          assert Delivered(rs, route, failing) == d;
        } else {
          assert Delivered(rs, route, failing) == d + [o.value];
        }
      } else {
        assert Delivered(rs, route, failing) == Delivered(init, route, failing);
        assert Attempts(rs, route) == Attempts(init, route);
      }
    }
  }

  /** A failure only loses its own record's publish: with no failures every attempt is delivered. */
  lemma {:induction false} NoFailuresDeliverAll<T>(rs: seq<StreamRecord>, route: StreamRecord -> Option<T>, failing: set<nat>)
    requires forall i :: 0 <= i < |rs| && route(rs[i]).Some? ==> i !in failing
    ensures Delivered(rs, route, failing) == Attempts(rs, route)
    decreases |rs|
  {
    if rs != [] {
      var init := rs[..|rs| - 1];
      assert forall i :: 0 <= i < |init| ==> init[i] == rs[i];
      NoFailuresDeliverAll(init, route, failing);
    }
  }

  /** A failure loses exactly one publish: the other records are delivered as if it had not happened. */
  lemma {:induction false} FailureLosesOnlyItsRecord<T>(rs: seq<StreamRecord>, route: StreamRecord -> Option<T>, k: nat)
    requires k < |rs| && route(rs[k]).Some?
    ensures Delivered(rs, route, {k}) == Attempts(rs[..k], route) + Attempts(rs[k + 1..], route)
  {
    NoFailuresDeliverAll(rs[..k], route, {k});
    assert rs == rs[..k + 1] + rs[k + 1..];
    DeliveredAppend(rs[..k + 1], rs[k + 1..], route, {k});
    DeliveredStep(rs, k, route, {k});
    assert ShiftDown({k}, k + 1) == {};
    NoFailuresDeliverAll(rs[k + 1..], route, {});
  }

  /** The failure indices of the later part of a batch, counted from its split point. */
  function ShiftDown(failing: set<nat>, offset: nat): set<nat> {
    set j: nat | j in failing && j >= offset :: (j - offset) as nat
  }

  /** Delivered over a concatenation: the later part sees its failure indices shifted. */
  lemma {:induction false} DeliveredAppend<T>(a: seq<StreamRecord>, b: seq<StreamRecord>, route: StreamRecord -> Option<T>,
                                               failing: set<nat>)
    ensures Delivered(a + b, route, failing) == Delivered(a, route, failing) + Delivered(b, route, ShiftDown(failing, |a|))
    decreases |b|
  {
    if b == [] {
      assert a + b == a;
    } else {
      var b' := b[..|b| - 1];
      assert (a + b)[..|a + b| - 1] == a + b';
      assert (a + b)[|a + b| - 1] == b[|b| - 1];
      DeliveredAppend(a, b', route, failing);
      assert (|b| - 1 in ShiftDown(failing, |a|)) == (|a + b| - 1 in failing);
    }
  }
}
