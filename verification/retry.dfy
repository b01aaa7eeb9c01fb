/** The bounded retry wrapper `doRequest` of `deviceNetworkScan`: a remote
    request is invoked once; if that invocation throws, the wrapper pauses and
    invokes it exactly once more, re-throwing if the second invocation throws
    too. */
module Retry {

  /** What one invocation of a remote request yields: a value, or a thrown
      error. */
  datatype Outcome<T> = Ok(value: T) | Fail(error: string)

  /** A remote request, given as data: `request(k)` is what its invocation
      number k (counting from 0) yields. */
  type Request<T> = nat -> Outcome<T>

  /** What the wrapper observably does, in order: invoke the request, or
      sleep for a number of seconds. */
  datatype Event<T> = Attempt(outcome: Outcome<T>) | Pause(seconds: nat)

  /** The value returned (`Ok`) or the error thrown (`Fail`) by the wrapper,
      and the events that led to it. */
  datatype Reply<T> = Reply(result: Outcome<T>, trace: seq<Event<T>>)

  /** Seconds slept between the first and the second invocation. */
  const RetryDelay: nat := 5

  /** `doRequest(request, firstAttempt)`. The first invocation of a call with
      `firstAttempt` unset is the request's invocation number 1, since the
      wrapper only gets there after invocation number 0 has thrown. */
  function DoRequest<T>(request: Request<T>, firstAttempt: bool := true): (r: Reply<T>)
    // The reply is the outcome of the last invocation made.
    ensures |r.trace| > 0 && r.trace[|r.trace| - 1] == Attempt(r.result)
    // A single invocation, whose value is returned or whose error is thrown
    // directly, unless it is the first attempt and it threw.
    ensures firstAttempt && request(0).Fail? ==>
      r.trace == [Attempt(request(0)), Pause(RetryDelay), Attempt(request(1))]
    // Otherwise exactly one invocation, with no pause before or after it.
    ensures !(firstAttempt && request(0).Fail?) ==>
      r.trace == [Attempt(request(if firstAttempt then 0 else 1))]
    decreases firstAttempt
  {
    var outcome := request(if firstAttempt then 0 else 1);
    match outcome
    case Ok(_) => Reply(outcome, [Attempt(outcome)])
    case Fail(_) =>
      if !firstAttempt then Reply(outcome, [Attempt(outcome)])
      else
        var retry := DoRequest(request, false);
        Reply(retry.result, [Attempt(outcome), Pause(RetryDelay)] + retry.trace)
  }

  /** The number of invocations in a trace. */
  function Invocations<T>(trace: seq<Event<T>>): (n: nat)
    ensures n <= |trace|
  {
    if trace == [] then 0
    else Invocations(trace[..|trace| - 1]) + (if trace[|trace| - 1].Attempt? then 1 else 0)
  }

  /** The retry policy as a whole: at most two invocations; the second one
      only after the first has thrown and a pause of `RetryDelay` seconds;
      a successful first invocation is returned as it is; and when both
      throw, the second one's error is the one re-thrown. */
  lemma {:induction false} RetryPolicy<T>(request: Request<T>)
    ensures var r := DoRequest(request);
      && 1 <= Invocations(r.trace) <= 2
      && (Invocations(r.trace) == 2 <==> request(0).Fail?)
      && (request(0).Ok? ==> r.result == request(0))
      && (request(0).Fail? ==> r.result == request(1))
      && (forall e :: 0 <= e < |r.trace| && r.trace[e].Pause? ==>
            0 < e < |r.trace| - 1 && r.trace[e - 1] == Attempt(request(0)) && request(0).Fail?)
  {
    var r := DoRequest(request);
    if request(0).Fail? {
      var t := r.trace;
      assert t[..2][..1] == t[..1] && t[..1][..0] == [] && t[..|t| - 1] == t[..2];
      assert Invocations(t[..1]) == 1;
      assert Invocations(t[..2]) == 1;
    } else {
      assert r.trace[..0] == [];
    }
  }
}
