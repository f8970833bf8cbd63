/** Defaults of the scaling labels, and the handler of manual scale requests (gateway/scaling/ranges.go). */
module Ranges {

  import opened Service

  const DEFAULT_MIN_REPLICAS: uint64 := 1
  const DEFAULT_MAX_REPLICAS: uint64 := 5
  const DEFAULT_SCALING_FACTOR: uint64 := 10

  const MIN_SCALE_LABEL := "com.openfaas.scale.min"
  const MAX_SCALE_LABEL := "com.openfaas.scale.max"
  const SCALING_FACTOR_LABEL := "com.openfaas.scale.factor"

  /** The count that a manual request is forwarded with; `cap` is `DefaultMaxReplicas`. */
  function ClampReplicas(cap: uint64, count: uint64): uint64 {
    var c := if count < 1 then 1 else count;
    if c > cap then cap else c
  }

  /** Of the counts that are allowed, the clamp picks the nearest one. */
  lemma ClampIsNearest(cap: uint64, count: uint64, other: uint64)
    requires 1 <= cap && 1 <= other <= cap
    ensures var c := ClampReplicas(cap, count);
            && 1 <= c <= cap
            && (if c <= count then count - c else c - count) <= (if other <= count then count - other else other - count)
            && (1 <= count <= cap <==> c == count)
  {
  }

  class ScaleServiceRequest {
    var replicas: uint64

    constructor (replicas: uint64)
      ensures this.replicas == replicas
    {
      this.replicas := replicas;
    }
  }

  /** The body of a request, as far as it can be read and parsed. */
  datatype Body = Missing | Unreadable | Garbage | Parsed(replicas: uint64)

  datatype Outcome = Rejected(status: int) | Forwarded(replicas: uint64)

  method MakeHorizontalScaling(httpMethod: string, body: Body) returns (outcome: Outcome)
    ensures outcome.Forwarded? <==> httpMethod == "POST" && body.Parsed?
    ensures outcome.Forwarded? ==>
              && 1 <= outcome.replicas <= 5
              && (1 <= body.replicas <= 5 ==> outcome.replicas == body.replicas)
              && (body.replicas < 1 ==> outcome.replicas == 1)
              && (body.replicas > 5 ==> outcome.replicas == 5)
    ensures outcome.Rejected? ==> outcome.status == if httpMethod == "POST" then 400 else 405
  {
    if httpMethod != "POST" {
      return Rejected(405);
    }
    if !body.Parsed? {
      return Rejected(400);
    }
    var scaleRequest := new ScaleServiceRequest(body.replicas);
    Clamp(scaleRequest);
    return Forwarded(scaleRequest.replicas);
  }

  /** The two corrections made to the parsed request in place. */
  method Clamp(scaleRequest: ScaleServiceRequest)
    modifies scaleRequest
    ensures scaleRequest.replicas == ClampReplicas(DEFAULT_MAX_REPLICAS, old(scaleRequest.replicas))
  {
    if scaleRequest.replicas < 1 {
      scaleRequest.replicas := 1;
    }
    if scaleRequest.replicas > DEFAULT_MAX_REPLICAS {
      scaleRequest.replicas := DEFAULT_MAX_REPLICAS;
    }
  }
}
