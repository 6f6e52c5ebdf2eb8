/** The `.then` / `.catch` chains the route handlers are written as, evaluated
    on promises that have already settled. A chain is a sequence of stages; a
    `.then` stage acts only on a fulfilled promise and a `.catch` stage only on
    a rejected one, and every other stage passes the promise on unchanged.
    When a callback is scheduled is not modelled, only what it returns. */
module PromiseChain {
  import opened Domain

  /** The JavaScript values that flow along the handlers' chains. */
  datatype Value =
    | Undefined
    | AdminDocument
    | SessionValue(session: Session)
    | AccountValue(account: Account)
    | DocumentValue(doc: Doc)
    | Replied(response: Response)

  datatype Settled = Fulfilled(value: Value) | Rejected(error: Error)

  /** A settled promise together with the store calls made to settle it. */
  datatype Step = Step(calls: seq<Call>, result: Settled)

  /** One link of a chain: `.then(onFulfilled)` or `.catch(onRejected)`. A
      callback that returns a value fulfils, one that throws rejects, and one
      that returns a promise (a store call) takes that promise's outcome. */
  datatype Stage = Then(onFulfilled: Value -> Step) | Catch(onRejected: Error -> Step)

  /** A promise that is already fulfilled with `v`, or rejected with `e`. */
  function Resolved(v: Value): Step { Step([], Fulfilled(v)) }
  function Thrown(e: Error): Step { Step([], Rejected(e)) }

  /** The promise one stage makes of the promise before it. */
  function Apply(p: Step, stage: Stage): (q: Step)
    // calls made earlier stay made, in order
    ensures |p.calls| <= |q.calls| && q.calls[..|p.calls|] == p.calls
    // a rejection passes over `.then`, a fulfilment over `.catch`
    ensures stage.Then? && p.result.Rejected? ==> q == p
    ensures stage.Catch? && p.result.Fulfilled? ==> q == p
  {
    match stage
    case Then(f) =>
      (match p.result
       case Fulfilled(v) => var n := f(v); Step(p.calls + n.calls, n.result)
       case Rejected(_) => p)
    case Catch(g) =>
      (match p.result
       case Rejected(e) => var n := g(e); Step(p.calls + n.calls, n.result)
       case Fulfilled(_) => p)
  }

  /** The promise at the end of a chain of stages hung on `p`. */
  function Run(p: Step, stages: seq<Stage>): (q: Step)
    ensures |p.calls| <= |q.calls| && q.calls[..|p.calls|] == p.calls
    decreases |stages|
  {
    if |stages| == 0 then p else Run(Apply(p, stages[0]), stages[1..])
  }

  /** A rejected promise passes unchanged through any run of `.then` stages. */
  lemma {:induction false} RejectionSkipsThens(p: Step, stages: seq<Stage>)
    requires p.result.Rejected?
    requires forall i | 0 <= i < |stages| :: stages[i].Then?
    ensures Run(p, stages) == p
    decreases |stages|
  {
    if |stages| > 0 {
      RejectionSkipsThens(Apply(p, stages[0]), stages[1..]);
    }
  }

  /** A fulfilled promise passes unchanged through any run of `.catch` stages. */
  lemma {:induction false} FulfilmentSkipsCatches(p: Step, stages: seq<Stage>)
    requires p.result.Fulfilled?
    requires forall i | 0 <= i < |stages| :: stages[i].Catch?
    ensures Run(p, stages) == p
    decreases |stages|
  {
    if |stages| > 0 {
      FulfilmentSkipsCatches(Apply(p, stages[0]), stages[1..]);
    }
  }
}
