/**
 * PotterApiClient: one GET of the house list, retried while the failure is a
 * PotterApiCallException, for at most three retries after the first request.
 *
 * The upstream server is a function from the number of a request to its reply; backoff
 * delays, headers and JSON decoding are not part of the model.
 */
module HouseClient {
  import opened Wrappers
  import opened Errors

  /** One upstream house record as decoded from the response (HouseModel). */
  datatype HouseModel = HouseModel(
    school: string,
    colors: seq<string>,
    founder: string,
    houseGhost: string,
    headOfHouse: string,
    name: string,
    mascot: string,
    values: seq<string>,
    id: string)

  /** The response document: a single named array of houses (HouseModelRoot). */
  datatype HouseModelRoot = HouseModelRoot(houses: seq<HouseModel>)

  /** What one request gets back from the upstream server. */
  datatype Reply =
    | ServerError(status: int)     // a 5xx response, with its raw status code
    | Failure(error: Exception)    // any other failure: a 4xx response, a transport or decoding error
    | Success(root: HouseModelRoot)

  /** Retry.backoff(3, ...): retries after the first request. */
  const MaxRetries: nat := 3
  const ServerErrorMessage: string := "Potter API returned an error."
  const RetriesExhaustedMessage: string := "External Service failed to process after max retries"
  const ServiceUnavailable: int := 503

  /** The error raised once the retries are used up. */
  const RetriesExhausted: Exception := PotterApiCall(RetriesExhaustedMessage, ServiceUnavailable)

  /** One request: the `onStatus(is5xxServerError, ...)` mapping and the body decoding. */
  function Attempt(reply: Reply): (r: Result<HouseModelRoot, Exception>)
    ensures r.Ok? <==> reply.Success?
    ensures reply.ServerError? ==> r == Err(PotterApiCall(ServerErrorMessage, reply.status))
    ensures reply.Success? ==> r == Ok(reply.root)
    ensures reply.Failure? ==> r == Err(reply.error)
  {
    match reply
    case ServerError(status) => Err(PotterApiCall(ServerErrorMessage, status))
    case Failure(e) => Err(e)
    case Success(root) => Ok(root)
  }

  /** The retry filter: only PotterApiCallException is retried. */
  predicate Retryable(r: Result<HouseModelRoot, Exception>) {
    r.Err? && r.error.PotterApiCall?
  }

  /**
   * The retrying call from request `next` on, `retries` retries having been used already:
   * the outcome and the number of the first request not sent.
   */
  function Retrying(server: nat -> Reply, next: nat, retries: nat): (Result<HouseModelRoot, Exception>, nat)
    requires retries <= MaxRetries
    decreases MaxRetries - retries
  {
    var r := Attempt(server(next));
    if !Retryable(r) then (r, next + 1)
    else if retries == MaxRetries then (Err(RetriesExhausted), next + 1)
    else Retrying(server, next + 1, retries + 1)
  }

  /** The whole call whose first request has number `first`. */
  function GetHousesSpec(server: nat -> Reply, first: nat): (Result<HouseModelRoot, Exception>, nat) {
    Retrying(server, first, 0)
  }

  /**
   * `getHouses()`: sends requests `first`, `first + 1`, ... and returns the outcome together
   * with the number of the first request it did not send.
   */
  method GetHouses(server: nat -> Reply, first: nat) returns (r: Result<HouseModelRoot, Exception>, next: nat)
    ensures (r, next) == GetHousesSpec(server, first)
    ensures first < next <= first + MaxRetries + 1
    ensures r.Err? && r.error.PotterApiCall? ==> r.error == RetriesExhausted && next == first + MaxRetries + 1
  {
    var retries := 0;
    r := Attempt(server(first));
    next := first + 1;
    while Retryable(r) && retries < MaxRetries
      invariant retries <= MaxRetries
      invariant next == first + retries + 1
      invariant r == Attempt(server(next - 1))
      invariant GetHousesSpec(server, first) == Retrying(server, next - 1, retries)
      decreases MaxRetries - retries
    {
      retries := retries + 1;
      r := Attempt(server(next));
      next := next + 1;
    }
    if Retryable(r) {
      r := Err(RetriesExhausted);
    }
  }

  /** The retried requests are exactly those whose failure was a PotterApiCallException. */
  lemma {:induction false} RetriedOnlyAfterRetryable(server: nat -> Reply, next: nat, retries: nat, k: nat)
    requires retries <= MaxRetries
    requires next <= k < Retrying(server, next, retries).1 - 1
    ensures Retryable(Attempt(server(k)))
    decreases MaxRetries - retries
  {
    if k > next {
      RetriedOnlyAfterRetryable(server, next + 1, retries + 1, k);
    }
  }

  /** Exhaustion happens exactly when the four requests all fail with PotterApiCallException. */
  lemma ExhaustedIffFourRetryableFailures(server: nat -> Reply, first: nat)
    ensures GetHousesSpec(server, first).0 == Err(RetriesExhausted) <==>
      (forall k :: first <= k <= first + MaxRetries ==> Retryable(Attempt(server(k))))
  {
    var r0, r1, r2, r3 := Attempt(server(first)), Attempt(server(first + 1)),
                          Attempt(server(first + 2)), Attempt(server(first + 3));
    if GetHousesSpec(server, first).0 == Err(RetriesExhausted) {
      assert Retryable(r0) && Retryable(r1) && Retryable(r2) && Retryable(r3);
      forall k | first <= k <= first + MaxRetries ensures Retryable(Attempt(server(k))) {
        assert k == first || k == first + 1 || k == first + 2 || k == first + 3;
      }
    }
  }

  /** A failure other than PotterApiCallException stops the call after its one request. */
  lemma NonRetryableFailureStops(server: nat -> Reply, first: nat)
    requires server(first).Failure? && !server(first).error.PotterApiCall?
    ensures GetHousesSpec(server, first) == (Err(server(first).error), first + 1)
  {
  }

  /** Two 5xx replies and then a success: the success payload after exactly three requests. */
  lemma TwoServerErrorsThenSuccess(server: nat -> Reply, first: nat, root: HouseModelRoot)
    requires server(first).ServerError? && server(first + 1).ServerError?
    requires server(first + 2) == Success(root)
    ensures GetHousesSpec(server, first) == (Ok(root), first + 3)
  {
  }

  /** Four 5xx replies: the call fails with status 503 after exactly four requests. */
  lemma FourServerErrorsExhaust(server: nat -> Reply, first: nat)
    requires forall k :: first <= k <= first + 3 ==> server(k).ServerError?
    ensures GetHousesSpec(server, first) == (Err(RetriesExhausted), first + 4)
    ensures GetHousesSpec(server, first).0.error.statusCode == 503
  {
    assert server(first).ServerError? && server(first + 1).ServerError?;
    assert server(first + 2).ServerError? && server(first + 3).ServerError?;
  }
}
