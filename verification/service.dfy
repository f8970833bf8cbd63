/** Optional values, as Go's nil-able results. */
module Wrappers {

  datatype Option<+T> = None | Some(value: T)

}

/** The data that the gateway exchanges with a provider (gateway/scaling/service_query.go). */
module Service {

  import opened Wrappers

  type Error = string

  const TWO_TO_THE_64: int := 0x1_0000_0000_0000_0000

  type uint64 = x: int | 0 <= x < TWO_TO_THE_64

  /** Go's conversion of an integer to `uint64`, and what `uint64` arithmetic makes of its result. */
  function Wrap(x: int): uint64 {
    x % TWO_TO_THE_64
  }

  function Min(a: int, b: int): int {
    if a <= b then a else b
  }

  /** A function name with its namespace. */
  datatype Pair = Pair(name: string, namespace: string)

  datatype ServiceQueryResponse = ServiceQueryResponse(
    replicas: uint64,
    maxReplicas: uint64,
    minReplicas: uint64,
    scalingFactor: uint64,
    availableReplicas: uint64,
    annotations: Option<map<string, string>>)

  /** The Go zero value of `ServiceQueryResponse`. */
  const EMPTY_RESPONSE := ServiceQueryResponse(0, 0, 0, 0, 0, None)

  /** What a single-flight `Do` hands back: an `interface{}` that may be nil and an `error`. */
  datatype FlightResult = FlightResult(res: Option<ServiceQueryResponse>, err: Option<Error>)
  {
    /** A response came back and no error did. */
    predicate Good() {
      err.None? && res.Some?
    }
  }
}

/**
 A provider as one run of the gateway sees it: what each request is answered is fixed by an
 oracle, for any oracle whatever, and `log` records the requests.
 */
module Providers {

  import opened Wrappers
  import opened Service

  datatype Request = Query(pair: Pair) | Update(pair: Pair, count: uint64)

  class Provider {
    const answers: (nat, Pair) -> FlightResult
    const replies: (nat, Pair, uint64) -> Option<Error>
    var log: seq<Request>

    constructor (answers: (nat, Pair) -> FlightResult, replies: (nat, Pair, uint64) -> Option<Error>)
      ensures this.answers == answers && this.replies == replies && log == []
    {
      this.answers, this.replies, log := answers, replies, [];
    }

    /** One flight of `ServiceQuery.GetReplicas`: the answer to the n-th request. */
    method GetReplicas(pair: Pair) returns (answer: FlightResult)
      modifies this
      ensures answer == answers(|old(log)|, pair)
      ensures log == old(log) + [Query(pair)]
    {
      answer := answers(|log|, pair);
      log := log + [Query(pair)];
    }

    /** One flight of `ServiceQuery.SetReplicas`. */
    method SetReplicas(pair: Pair, count: uint64) returns (err: Option<Error>)
      modifies this
      ensures err == replies(|old(log)|, pair, count)
      ensures log == old(log) + [Update(pair, count)]
    {
      err := replies(|log|, pair, count);
      log := log + [Update(pair, count)];
    }
  }
}
