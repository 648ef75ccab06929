/**
 A route is an ordered list of middleware steps. Each step either hands control on
 (`next()`), reports an error (`next({status, message})`), or throws; the first step that
 does not hand control on decides the response, and the steps after it never run.
 */
module Pipeline {

  /** What one step signals. `Crash` is an exception the step throws (a TypeError from a
      property read on undefined or null), which the framework answers as a server error. */
  datatype Signal = Continue | Fail(status: int, message: string) | Crash

  /** The step at index `k` is the first one that does not continue. */
  predicate FailsFirstAt(steps: seq<Signal>, k: int) {
    && 0 <= k < |steps|
    && !steps[k].Continue?
    && forall j :: 0 <= j < k ==> steps[j].Continue?
  }

  /** Running the steps in order: the signal of the first step that does not continue, or
      `Continue` when all of them do. */
  function FirstFailure(steps: seq<Signal>): (r: Signal)
    ensures r.Continue? <==> forall i :: 0 <= i < |steps| ==> steps[i].Continue?
    ensures forall k :: FailsFirstAt(steps, k) ==> r == steps[k]
    ensures !r.Continue? ==> exists k :: FailsFirstAt(steps, k) && r == steps[k]
  {
    if |steps| == 0 then Continue
    else if !steps[0].Continue? then
      assert FailsFirstAt(steps, 0);
      steps[0]
    else
      var r := FirstFailure(steps[1..]);
      assert forall k :: FailsFirstAt(steps, k) ==> k > 0 && FailsFirstAt(steps[1..], k - 1);
      assert forall k :: FailsFirstAt(steps[1..], k) ==> FailsFirstAt(steps, k + 1);
      r
  }

  /** The response a request ends in. */
  datatype Reply<T> =
    | Json(code: int, data: T)        // `res.status(code).json({ data })`
    | NoContent                       // `res.sendStatus(204)`
    | Error(status: int, message: string)
    | ServerError                     // an exception reached the framework

  /** The response to a step that did not continue. */
  function ReplyTo<T>(s: Signal): (r: Reply<T>)
    requires !s.Continue?
    ensures s.Fail? ==> r == Error(s.status, s.message)
    ensures s.Crash? ==> r == ServerError
  {
    match s
    case Fail(status, message) => Error(status, message)
    case Crash => ServerError
  }

  /** The collection after a request, and the response sent. */
  datatype Outcome<T> = Outcome(store: seq<T>, reply: Reply<T>)
}
