/**
 The invocations of the repository's test suite, stated as lemmas about the
 model and proved from the general theorems: each pins down the exact
 envelope PUT and the callback argument.
 */
module Scenarios {
  import opened JsValue
  import opened Reporter
  import opened Coordinator

  function TestEvent(stackId: string, requestId: string, requestType: string, url: string): Object
  {
    map[
      "StackId" := Str(stackId),
      "RequestId" := Str(requestId),
      "LogicalResourceId" := Str("789"),
      "RequestType" := Str(requestType),
      "ResponseURL" := Str(url)
    ]
  }

  function ExpectedBody(stackId: string, requestId: string, reason: string, status: string): Object
  {
    map[
      "StackId" := Str(stackId),
      "RequestId" := Str(requestId),
      "LogicalResourceId" := Str("789"),
      "Data" := EmptyObject,
      "Reason" := Str(reason),
      "Status" := Str(status)
    ]
  }

  /** A function resolving with no value is reported as SUCCESS with `Data = {}`
      and `Reason = ''`, and the callback gets no error on a 200. */
  lemma SuccessScenario()
    ensures var inv := Invocation(TestEvent("123", "456", "Delete", "https://foo.com/success-handler?key=bar"),
                                  5000, Fulfils(Undefined));
      var s := Run(inv, [WorkSettled, DeliverySettled(Response(200))]);
      && s.sends == [Put("https://foo.com/success-handler?key=bar", ExpectedBody("123", "456", "", "SUCCESS"))]
      && s.callbacks == [NoError]
      && s.timer == Cleared
  {
    var inv := Invocation(TestEvent("123", "456", "Delete", "https://foo.com/success-handler?key=bar"),
                          5000, Fulfils(Undefined));
    Decide(inv, [WorkSettled, DeliverySettled(Response(200))], 0, 1);
    BodyIs("123", "456", "Delete", "https://foo.com/success-handler?key=bar", Normalise(inv.work), "", "SUCCESS");
  }

  /** A synchronous throw is reported as FAILED with the error's message. */
  lemma ThrowScenario()
    ensures var inv := Invocation(TestEvent("567", "456", "Create", "https://foo.com/failed-throw-handler?key=bar"),
                                  5000, Throws(Error("blahblahblah")));
      var s := Run(inv, [WorkSettled, DeliverySettled(Response(200))]);
      && s.sends == [Put("https://foo.com/failed-throw-handler?key=bar",
                         ExpectedBody("567", "456", "blahblahblah", "FAILED"))]
      && s.callbacks == [NoError]
  {
    var inv := Invocation(TestEvent("567", "456", "Create", "https://foo.com/failed-throw-handler?key=bar"),
                          5000, Throws(Error("blahblahblah")));
    Decide(inv, [WorkSettled, DeliverySettled(Response(200))], 0, 1);
    BodyIs("567", "456", "Create", "https://foo.com/failed-throw-handler?key=bar", Normalise(inv.work),
           "blahblahblah", "FAILED");
  }

  /** With 100 ms left the timer is armed with delay 0 and wins; the function's
      later settlement sends nothing more and calls nothing more. */
  lemma TimeoutScenario()
    ensures var inv := Invocation(TestEvent("555", "456", "Create", "https://foo.com/failed-timeout?key=bar"),
                                  100, Fulfils(Undefined));
      var s := Run(inv, [TimerFired, DeliverySettled(Response(200)), WorkSettled]);
      && Init(inv).timer == Armed(0)
      && s.sends == [Put("https://foo.com/failed-timeout?key=bar",
                         ExpectedBody("555", "456", "Lambda function timed out", "FAILED"))]
      && s.callbacks == [NoError]
  {
    var inv := Invocation(TestEvent("555", "456", "Create", "https://foo.com/failed-timeout?key=bar"),
                          100, Fulfils(Undefined));
    Decide(inv, [TimerFired, DeliverySettled(Response(200)), WorkSettled], 0, 1);
    BodyIs("555", "456", "Create", "https://foo.com/failed-timeout?key=bar", TimeoutResult,
           "Lambda function timed out", "FAILED");
  }

  /** A 500 response turns into an error for the callback, although the report was SUCCESS. */
  lemma BadStatusScenario()
    ensures var inv := Invocation(TestEvent("234", "456", "Create", "https://foo.com/send-fails?key=bar"),
                                  5000, Fulfils(Undefined));
      var s := Run(inv, [WorkSettled, DeliverySettled(Response(500))]);
      && s.sends == [Put("https://foo.com/send-fails?key=bar", ExpectedBody("234", "456", "", "SUCCESS"))]
      && s.callbacks == [WithError(BadStatus(500))]
  {
    var inv := Invocation(TestEvent("234", "456", "Create", "https://foo.com/send-fails?key=bar"),
                          5000, Fulfils(Undefined));
    Decide(inv, [WorkSettled, DeliverySettled(Response(500))], 0, 1);
    BodyIs("234", "456", "Create", "https://foo.com/send-fails?key=bar", Normalise(inv.work), "", "SUCCESS");
  }

  /** A request that fails at the transport level turns into an error for the
      callback. The test's `RequestId` carries a trailing space, and the body
      carries it unchanged. */
  lemma TransportScenario(err: Error)
    ensures var inv := Invocation(TestEvent("234", "456 ", "Create", "https://foo.com/asdf?key=bar"),
                                  5000, Fulfils(Undefined));
      var s := Run(inv, [WorkSettled, DeliverySettled(TransportError(err))]);
      && s.sends == [Put("https://foo.com/asdf?key=bar", ExpectedBody("234", "456 ", "", "SUCCESS"))]
      && s.callbacks == [WithError(Transport(err))]
  {
    var inv := Invocation(TestEvent("234", "456 ", "Create", "https://foo.com/asdf?key=bar"),
                          5000, Fulfils(Undefined));
    Decide(inv, [WorkSettled, DeliverySettled(TransportError(err))], 0, 1);
    BodyIs("234", "456 ", "Create", "https://foo.com/asdf?key=bar", Normalise(inv.work), "", "SUCCESS");
  }

  /** Applies the general theorems to a concrete event sequence with a parsable URL. */
  lemma Decide(inv: Invocation, evs: seq<Event>, i: int, k: int)
    requires UrlParses(inv.event)
    requires FirstDecisiveAt(evs, i) && FirstDeliveryAfter(evs, i, k)
    ensures Run(inv, evs).sends ==
              [Put(Get(inv.event, "ResponseURL").s, Envelope(inv.event, WinnerResult(inv, evs[i])))]
    ensures Run(inv, evs).callbacks == [Dispatch(evs[k].outcome)]
  {
    FirstWriterWins(inv, evs, i);
    CallbackOnce(inv, evs, i);
  }

  /** The envelope of a test event is the expected six-field body. */
  lemma BodyIs(stackId: string, requestId: string, requestType: string, url: string,
               result: Object, reason: string, status: string)
    requires result.Keys <= ResultKeys && "Status" in result
    requires "Data" in result ==> result["Data"] == EmptyObject
    requires result["Status"] == Str(status)
    requires ("Reason" in result && result["Reason"] == Str(reason)) || ("Reason" !in result && reason == "")
    ensures Envelope(TestEvent(stackId, requestId, requestType, url), result)
              == ExpectedBody(stackId, requestId, reason, status)
  {
  }
}
