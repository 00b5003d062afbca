/**
 The completion race coordinator (`customResourceHelper`'s `handler`). One
 invocation arms a deadline timer, runs the wrapped function, and reports the
 outcome of whichever finishes first; a one-shot `finished` flag suppresses
 the later one.

 The JavaScript event loop is replaced by a sequence of abstract events, each
 handled by the pure `Step`. `Step` is total: an event that the runtime would
 never deliver (the timer after it was cleared, a delivery with nothing in
 flight) is a no-op, so the theorems below hold over every event sequence.
 */
module Coordinator {
  import opened JsValue
  import opened Reporter

  /** Time kept back from the remaining budget so the timeout report can still go out. */
  const SafetyMargin: int := 1000

  const TimeoutReason: string := "Lambda function timed out"

  /** The delay the deadline timer is armed with: the remaining budget less the
      margin, but never negative. */
  function Delay(remaining: int): (d: nat)
    ensures d + SafetyMargin >= remaining
    ensures d == 0 || remaining - d == SafetyMargin
  {
    if remaining - SafetyMargin > 0 then remaining - SafetyMargin else 0
  }

  /** The result reported when the timer wins. */
  const TimeoutResult: Object := map["Status" := FailedStatus, "Reason" := Str(TimeoutReason)]

  /** What the wrapped `fn` does when called: it is not a function at all, or
      its promise fulfils with a value, or it throws synchronously, or its
      promise rejects. */
  datatype Work =
    | NotAFunction
    | Fulfils(value: Value)
    | Throws(error: Error)
    | Rejects(error: Error)
  {
    predicate Fails() { Throws? || Rejects? }
  }

  /** The result record built from the wrapped function's outcome. */
  function Normalise(work: Work): (r: Object)
    ensures r.Keys <= ResultKeys && "Status" in r
    ensures r["Status"] == SuccessStatus <==> !work.Fails()
    ensures r["Status"] == FailedStatus <==> work.Fails()
    ensures !work.Fails() ==> "Data" in r && "Reason" !in r && Truthy(r["Data"])
    ensures work.Fulfils? && Truthy(work.value) ==> r["Data"] == work.value
    ensures work.NotAFunction? || (work.Fulfils? && !Truthy(work.value)) ==> r["Data"] == EmptyObject
    ensures work.Fails() ==> "Reason" in r && "Data" !in r && r["Reason"] == Str(work.error.message)
  {
    match work
    case NotAFunction => map["Status" := SuccessStatus, "Data" := Or(Undefined, EmptyObject)]
    case Fulfils(v) => map["Status" := SuccessStatus, "Data" := Or(v, EmptyObject)]
    case Throws(e) => map["Status" := FailedStatus, "Reason" := Str(e.message)]
    case Rejects(e) => map["Status" := FailedStatus, "Reason" := Str(e.message)]
  }

  /** The argument the invocation's completion callback receives. */
  datatype CallbackArg = NoError | WithError(error: DeliveryError)

  /** `send(...).then(() => callback()).catch(e => callback(e))`. */
  function Dispatch(o: SendOutcome): (c: CallbackArg)
    ensures c == NoError <==> o.Response? && o.statusCode < 300
    ensures c.WithError? ==> Settle(o) == Rejected(c.error)
  {
    match Settle(o)
    case Resolved(_) => NoError
    case Rejected(e) => WithError(e)
  }

  /** The inputs of one invocation: the event, the remaining time the context
      reports at the start, and what the wrapped function does. */
  datatype Invocation = Invocation(event: Object, remaining: int, work: Work)

  datatype Timer = Armed(delay: nat) | Fired | Cleared

  datatype Event =
    | TimerFired                            // the deadline timer's callback runs
    | WorkSettled                           // the wrapped function's outcome reaches the guard
    | DeliverySettled(outcome: SendOutcome) // the pending PUT completes

  /** The two events that race for the `finished` flag. */
  predicate Decisive(e: Event) { e.TimerFired? || e.WorkSettled? }

  /** Observable state of an invocation: the guard flag, the timer, whether a
      PUT is in flight, and logs of every PUT issued, every callback call and
      every error thrown out of the timer callback (which nothing catches). */
  datatype State = State(
    finished: bool,
    timer: Timer,
    pending: bool,
    sends: seq<Put>,
    callbacks: seq<CallbackArg>,
    uncaught: seq<DeliveryError>)

  function Init(inv: Invocation): (s: State)
    ensures !s.finished && !s.pending && s.timer.Armed? && s.timer.delay == Delay(inv.remaining)
    ensures s.sends == [] && s.callbacks == [] && s.uncaught == []
    ensures Consistent(inv, s)
  {
    State(false, Armed(Delay(inv.remaining)), false, [], [], [])
  }

  /** Nothing happens before `finished` is set. Afterwards, for a parsable URL,
      exactly one PUT was issued and it is either in flight or has produced
      one callback; for an unparsable URL nothing was sent and the throw
      surfaced once, as a callback or as an uncaught error. */
  predicate Consistent(inv: Invocation, s: State) {
    && (!s.finished ==>
          s.timer.Armed? && !s.pending && s.sends == [] && s.callbacks == [] && s.uncaught == [])
    && (s.finished && UrlParses(inv.event) ==>
          |s.sends| == 1 && s.uncaught == [] && |s.callbacks| + (if s.pending then 1 else 0) == 1)
    && (s.finished && !UrlParses(inv.event) ==>
          s.sends == [] && !s.pending && |s.callbacks| + |s.uncaught| == 1)
  }

  /** The result reported by the path that won with event `e`. */
  function WinnerResult(inv: Invocation, e: Event): Object
    requires Decisive(e)
  {
    if e.TimerFired? then TimeoutResult else Normalise(inv.work)
  }

  function Step(inv: Invocation, s: State, e: Event): (s': State)
    ensures Consistent(inv, s) ==> Consistent(inv, s')
    ensures Decisive(e) && s.finished ==> s' == s
    ensures Decisive(e) && !s.finished && UrlParses(inv.event) ==>
              && s'.finished && s'.pending && s'.callbacks == s.callbacks && s'.uncaught == s.uncaught
              && s'.sends == s.sends + [Send(inv.event, WinnerResult(inv, e)).put]
    ensures e.WorkSettled? && !s.finished && !UrlParses(inv.event) ==>
              && s'.finished && s'.pending == s.pending && s'.sends == s.sends && s'.uncaught == s.uncaught
              && s'.callbacks == s.callbacks + [WithError(UrlTypeError(Get(inv.event, "ResponseURL")))]
    ensures e.TimerFired? && !s.finished && !UrlParses(inv.event) ==>
              && s'.finished && s'.pending == s.pending && s'.sends == s.sends && s'.callbacks == s.callbacks
              && s'.uncaught == s.uncaught + [UrlTypeError(Get(inv.event, "ResponseURL"))]
    ensures e.WorkSettled? && !s.finished ==> s'.timer == Cleared
    ensures e.TimerFired? && !s.finished ==> s'.timer == Fired
    ensures e.DeliverySettled? ==>
              && s'.finished == s.finished && s'.sends == s.sends && s'.timer == s.timer
              && s'.uncaught == s.uncaught
    ensures e.DeliverySettled? && !s.pending ==> s' == s
  {
    match e
    case TimerFired =>
      if s.finished then s
      else
        var s1 := s.(finished := true, timer := Fired);
        (match Send(inv.event, TimeoutResult)
         case Issued(put) => s1.(pending := true, sends := s.sends + [put])
         case Threw(err) => s1.(uncaught := s.uncaught + [err]))
    case WorkSettled =>
      if s.finished then s
      else
        var s1 := s.(finished := true, timer := Cleared);
        (match Send(inv.event, Normalise(inv.work))
         case Issued(put) => s1.(pending := true, sends := s.sends + [put])
         case Threw(err) => s1.(callbacks := s.callbacks + [WithError(err)]))
    case DeliverySettled(o) =>
      if s.pending then s.(pending := false, callbacks := s.callbacks + [Dispatch(o)])
      else s
  }

  function RunFrom(inv: Invocation, s: State, evs: seq<Event>): State
    decreases |evs|
  {
    if evs == [] then s else RunFrom(inv, Step(inv, s, evs[0]), evs[1..])
  }

  /** The state after the invocation has handled `evs` in order. */
  function Run(inv: Invocation, evs: seq<Event>): State
  {
    RunFrom(inv, Init(inv), evs)
  }

  // Reference descriptions of an event sequence, independent of `Step`.

  predicate NoDecisive(evs: seq<Event>) {
    forall j :: 0 <= j < |evs| ==> !Decisive(evs[j])
  }

  /** `evs[i]` is the first timer or function event. */
  predicate FirstDecisiveAt(evs: seq<Event>, i: int) {
    && 0 <= i < |evs|
    && Decisive(evs[i])
    && forall j :: 0 <= j < i ==> !Decisive(evs[j])
  }

  /** `evs[k]` is the first delivery event after position `i`. */
  predicate FirstDeliveryAfter(evs: seq<Event>, i: int, k: int) {
    && -1 <= i < k < |evs|
    && evs[k].DeliverySettled?
    && forall j :: i < j < k ==> !evs[j].DeliverySettled?
  }

  predicate NoDeliveryAfter(evs: seq<Event>, i: int) {
    forall j :: 0 <= j < |evs| && i < j ==> !evs[j].DeliverySettled?
  }

  /** The position of the first timer or function event, `|evs|` if there is none. */
  function FirstDecisive(evs: seq<Event>): (i: nat)
    ensures i <= |evs|
    ensures i == |evs| ==> NoDecisive(evs)
    ensures i < |evs| ==> FirstDecisiveAt(evs, i)
    decreases |evs|
  {
    if evs == [] then 0
    else if Decisive(evs[0]) then 0
    else 1 + FirstDecisive(evs[1..])
  }

  /** The fields of the PUT body reported by each winning path: a success
      carries the function's value (or `{}`) and an empty reason; a thrown or
      rejected error and the timeout carry `FAILED`, an empty `{}` and a reason. */
  lemma ReportedFields(inv: Invocation, e: Event)
    requires Decisive(e)
    ensures var body := Envelope(inv.event, WinnerResult(inv, e));
      && body.Keys == CorrelationKeys + ResultKeys
      && (e.TimerFired? ==>
            body["Status"] == FailedStatus && body["Reason"] == Str(TimeoutReason) && body["Data"] == EmptyObject)
      && (e.WorkSettled? && !inv.work.Fails() ==>
            body["Status"] == SuccessStatus && body["Reason"] == Str("") && Truthy(body["Data"]))
      && (e.WorkSettled? && inv.work.Fulfils? && Truthy(inv.work.value) ==> body["Data"] == inv.work.value)
      && (e.WorkSettled? && (inv.work.NotAFunction? || (inv.work.Fulfils? && !Truthy(inv.work.value))) ==>
            body["Data"] == EmptyObject)
      && (e.WorkSettled? && inv.work.Fails() ==>
            body["Status"] == FailedStatus && body["Reason"] == Str(inv.work.error.message)
            && body["Data"] == EmptyObject)
  {
  }

  // Proofs

  lemma {:induction false} RunKeepsConsistent(inv: Invocation, s: State, evs: seq<Event>)
    requires Consistent(inv, s)
    ensures Consistent(inv, RunFrom(inv, s, evs))
    decreases |evs|
  {
    if evs != [] {
      RunKeepsConsistent(inv, Step(inv, s, evs[0]), evs[1..]);
    }
  }

  /** Before either racer arrives, deliveries change nothing. */
  lemma {:induction false} QuietRun(inv: Invocation, s: State, evs: seq<Event>)
    requires !s.finished && !s.pending
    requires NoDecisive(evs)
    ensures RunFrom(inv, s, evs) == s
    decreases |evs|
  {
    if evs != [] {
      assert !Decisive(evs[0]);
      assert NoDecisive(evs[1..]) by {
        forall j | 0 <= j < |evs| - 1 ensures !Decisive(evs[1..][j]) {
          assert evs[1..][j] == evs[j + 1];
        }
      }
      QuietRun(inv, s, evs[1..]);
    }
  }

  /** Once a PUT is in flight, only the first delivery event has an effect. */
  lemma {:induction false} PendingRun(inv: Invocation, s: State, evs: seq<Event>)
    requires s.finished && s.pending
    ensures RunFrom(inv, s, evs).finished && RunFrom(inv, s, evs).timer == s.timer
    ensures RunFrom(inv, s, evs).sends == s.sends && RunFrom(inv, s, evs).uncaught == s.uncaught
    ensures NoDeliveryAfter(evs, -1) ==> RunFrom(inv, s, evs) == s
    ensures forall k :: FirstDeliveryAfter(evs, -1, k) ==>
              RunFrom(inv, s, evs) == s.(pending := false, callbacks := s.callbacks + [Dispatch(evs[k].outcome)])
    decreases |evs|
  {
    if evs != [] {
      var s1 := Step(inv, s, evs[0]);
      if evs[0].DeliverySettled? {
        FrozenRun(inv, s1, evs[1..]);
        forall k | FirstDeliveryAfter(evs, -1, k)
          ensures k == 0
        {
        }
      } else {
        assert s1 == s;
        PendingRun(inv, s, evs[1..]);
        if NoDeliveryAfter(evs, -1) {
          assert NoDeliveryAfter(evs[1..], -1) by {
            forall j | 0 <= j < |evs| - 1 ensures !evs[1..][j].DeliverySettled? {
              assert evs[1..][j] == evs[j + 1];
            }
          }
        }
        forall k | FirstDeliveryAfter(evs, -1, k)
          ensures RunFrom(inv, s, evs) == s.(pending := false, callbacks := s.callbacks + [Dispatch(evs[k].outcome)])
        {
          assert k > 0;
          assert FirstDeliveryAfter(evs[1..], -1, k - 1) by {
            forall j | -1 < j < k - 1 ensures !evs[1..][j].DeliverySettled? {
              assert evs[1..][j] == evs[j + 1];
            }
          }
        }
      }
    }
  }

  /** A finished invocation with no PUT in flight ignores every further event. */
  lemma {:induction false} FrozenRun(inv: Invocation, s: State, evs: seq<Event>)
    requires s.finished && !s.pending
    ensures RunFrom(inv, s, evs) == s
    decreases |evs|
  {
    if evs != [] {
      assert Step(inv, s, evs[0]) == s;
      FrozenRun(inv, s, evs[1..]);
    }
  }

  lemma {:induction false} RunSplit(inv: Invocation, s: State, evs: seq<Event>, i: nat)
    requires i <= |evs|
    ensures RunFrom(inv, s, evs) == RunFrom(inv, RunFrom(inv, s, evs[..i]), evs[i..])
    decreases i
  {
    if i > 0 {
      assert evs[..i][0] == evs[0];
      assert evs[..i][1..] == evs[1..][..i - 1];
      assert evs[i..] == evs[1..][i - 1..];
      RunSplit(inv, Step(inv, s, evs[0]), evs[1..], i - 1);
    } else {
      assert evs[..0] == [];
      assert evs[0..] == evs;
    }
  }

  /** The whole run is decided by the first racer: what precedes it is inert. */
  lemma Decided(inv: Invocation, evs: seq<Event>, i: int)
    requires FirstDecisiveAt(evs, i)
    ensures Run(inv, evs) == RunFrom(inv, Step(inv, Init(inv), evs[i]), evs[i + 1..])
  {
    RunSplit(inv, Init(inv), evs, i);
    assert NoDecisive(evs[..i]) by {
      forall j | 0 <= j < i ensures !Decisive(evs[..i][j]) {
        assert evs[..i][j] == evs[j];
      }
    }
    QuietRun(inv, Init(inv), evs[..i]);
    assert evs[i..][0] == evs[i];
    assert evs[i..][1..] == evs[i + 1..];
  }

  /** First writer wins: the first of {timer fires, function settles} makes
      the one and only `send` call, with its own result, and the timer is
      cleared exactly when the function wins. That call issues the PUT when
      the URL parses, and issues nothing otherwise. */
  lemma FirstWriterWins(inv: Invocation, evs: seq<Event>, i: int)
    requires FirstDecisiveAt(evs, i)
    ensures Run(inv, evs).finished
    ensures UrlParses(inv.event) ==>
              Run(inv, evs).sends == [Put(Get(inv.event, "ResponseURL").s, Envelope(inv.event, WinnerResult(inv, evs[i])))]
    ensures !UrlParses(inv.event) ==> Run(inv, evs).sends == []
    ensures Run(inv, evs).timer == (if evs[i].WorkSettled? then Cleared else Fired)
  {
    Decided(inv, evs, i);
    var s1 := Step(inv, Init(inv), evs[i]);
    if UrlParses(inv.event) {
      PendingRun(inv, s1, evs[i + 1..]);
    } else {
      FrozenRun(inv, s1, evs[i + 1..]);
    }
  }

  /** The callback is called once, by the winning path only. For a parsable
      URL it gets the outcome of the first delivery after the win, and it is
      not called while the PUT is in flight. For an unparsable URL, the
      function path passes it the `TypeError`; on the timer path the error
      escapes uncaught and the callback is never called. */
  lemma CallbackOnce(inv: Invocation, evs: seq<Event>, i: int)
    requires FirstDecisiveAt(evs, i)
    ensures UrlParses(inv.event) && NoDeliveryAfter(evs, i) ==>
              Run(inv, evs).callbacks == [] && Run(inv, evs).pending
    ensures UrlParses(inv.event) ==> forall k :: FirstDeliveryAfter(evs, i, k) ==>
              Run(inv, evs).callbacks == [Dispatch(evs[k].outcome)] && !Run(inv, evs).pending
    ensures UrlParses(inv.event) ==> Run(inv, evs).uncaught == []
    ensures !UrlParses(inv.event) && evs[i].WorkSettled? ==>
              && Run(inv, evs).callbacks == [WithError(UrlTypeError(Get(inv.event, "ResponseURL")))]
              && Run(inv, evs).uncaught == []
    ensures !UrlParses(inv.event) && evs[i].TimerFired? ==>
              && Run(inv, evs).callbacks == []
              && Run(inv, evs).uncaught == [UrlTypeError(Get(inv.event, "ResponseURL"))]
  {
    Decided(inv, evs, i);
    var s1 := Step(inv, Init(inv), evs[i]);
    var rest := evs[i + 1..];
    if !UrlParses(inv.event) {
      FrozenRun(inv, s1, rest);
      return;
    }
    PendingRun(inv, s1, rest);
    if NoDeliveryAfter(evs, i) {
      assert NoDeliveryAfter(rest, -1) by {
        forall j | 0 <= j < |rest| ensures !rest[j].DeliverySettled? {
          assert rest[j] == evs[i + 1 + j];
        }
      }
    }
    forall k | FirstDeliveryAfter(evs, i, k)
      ensures Run(inv, evs).callbacks == [Dispatch(evs[k].outcome)] && !Run(inv, evs).pending
    {
      assert FirstDeliveryAfter(rest, -1, k - i - 1) by {
        forall j | -1 < j < k - i - 1 ensures !rest[j].DeliverySettled? {
          assert rest[j] == evs[i + 1 + j];
        }
      }
    }
  }

  /** Until the timer fires or the function settles, nothing is sent, the
      callback is not called and nothing is thrown. */
  lemma NothingBeforeARacer(inv: Invocation, evs: seq<Event>)
    requires NoDecisive(evs)
    ensures Run(inv, evs) == Init(inv)
  {
    QuietRun(inv, Init(inv), evs);
  }

  /** Over every ordering of events: at most one PUT and at most one callback.
      There is exactly one PUT iff either racer has arrived and the URL parses.
      The only callback without a PUT is the function path's `TypeError` for a
      URL that does not parse. */
  lemma AtMostOneSend(inv: Invocation, evs: seq<Event>)
    ensures |Run(inv, evs).sends| <= 1
    ensures |Run(inv, evs).callbacks| <= 1
    ensures |Run(inv, evs).sends| == 1 <==>
              UrlParses(inv.event) && exists j :: 0 <= j < |evs| && Decisive(evs[j])
    ensures Run(inv, evs).callbacks != [] && Run(inv, evs).sends == [] ==>
              Run(inv, evs).callbacks == [WithError(UrlTypeError(Get(inv.event, "ResponseURL")))]
  {
    RunKeepsConsistent(inv, Init(inv), evs);
    var i := FirstDecisive(evs);
    if i < |evs| {
      FirstWriterWins(inv, evs, i);
      CallbackOnce(inv, evs, i);
    } else {
      NothingBeforeARacer(inv, evs);
    }
  }
}
