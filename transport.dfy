/**
 * The interceptor chain: the request being handled and the scripted results
 * of the `chain.proceed` calls still to come.
 */
module Transport {
  import opened Http

  /** The outcome of the i-th call on a script; past its end the network is down. */
  function At(outcomes: seq<Outcome>, i: nat): Outcome {
    if i < |outcomes| then outcomes[i] else Failed
  }

  /** The script left after n calls. */
  function Drop(outcomes: seq<Outcome>, n: nat): seq<Outcome> {
    if n <= |outcomes| then outcomes[n..] else []
  }

  /** n copies of the same request, the log of n calls that forward it. */
  function Repeat(r: Request, n: nat): (rs: seq<Request>)
    ensures |rs| == n && forall i :: 0 <= i < n ==> rs[i] == r
  {
    seq(n, _ => r)
  }

  class Chain {
    /** `chain.request()`. */
    const request: Request
    /** What the calls to `proceed` still to come will produce. */
    var outcomes: seq<Outcome>
    /** Every request handed to `proceed` so far, in order. */
    var sent: seq<Request>

    constructor (request: Request, outcomes: seq<Outcome>)
      ensures this.request == request && this.outcomes == outcomes && sent == []
    {
      this.request := request;
      this.outcomes := outcomes;
      sent := [];
    }

    /** `chain.proceed(r)`: one network call, consuming one scripted outcome. */
    method Proceed(r: Request) returns (o: Outcome)
      modifies this
      ensures o == At(old(outcomes), 0)
      ensures outcomes == Drop(old(outcomes), 1)
      ensures sent == old(sent) + [r]
    {
      if outcomes == [] {
        o := Failed;
      } else {
        o := outcomes[0];
        outcomes := outcomes[1..];
      }
      sent := sent + [r];
    }
  }
}
