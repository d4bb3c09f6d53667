/**
 * The Checker Network client: submit a claim to the validator network, then
 * poll its verification result until it leaves `pending`.
 *
 * Every network round trip is an input. A reply is `Some(body)` with the
 * JSON body of the HTTP response, or `None` when the request failed; the
 * `Math.random()` draw and the clock reading that the development fallback
 * would use come with each fetch attempt.
 */
module CheckerNetwork {
  import opened Wrappers
  import Js

  datatype Network = Mainnet | Testnet

  datatype CheckerConfig = CheckerConfig(apiKey: Option<string>, baseUrl: string, network: Network)

  datatype RequestType = Identity | Transaction | Data | Location | Custom

  datatype Requirements = Requirements(minValidators: int, consensusThreshold: real, timeoutMs: int)

  datatype Coordinates = Coordinates(latitude: real, longitude: real)

  /** The `data` of a request; credentials and evidence are opaque JSON. */
  datatype Claim =
    | AgentClaim(agentId: string, credentials: Js.Value, timestamp: int)
    | TransactionClaim(txHash: string, chain: string, timestamp: int)
    | LocationClaim(coordinates: Coordinates, evidence: seq<Js.Value>, timestamp: int)
    | OtherClaim(data: Js.Value)

  datatype VerificationRequest = VerificationRequest(kind: RequestType, data: Claim, requirements: Requirements)

  /** The JSON body posted to `/verify`. */
  datatype SubmitBody = SubmitBody(kind: RequestType, data: Claim, requirements: Requirements, network: Network)

  /**
   * A verification result as the client hands it out. Every field is copied
   * from an untyped response body, so each holds whatever JSON value was there;
   * `timestamp` is the value given to the `Date` constructor.
   */
  datatype VerificationResult = VerificationResult(
    id: Js.Value,
    status: Js.Value,
    confidence: Js.Value,
    validators: Js.Value,
    consensus: Js.Value,
    evidence: Js.Value,
    timestamp: Js.Value,
    cost: Js.Value)

  /** One fetch of `/verify/<id>`: the reply, and what the fallback would draw from `Math.random()` and the clock. */
  datatype Attempt = Attempt(reply: Option<Js.Value>, draw: Js.Random, clock: int)

  /** The errors the client lets escape to its caller. */
  datatype Failure = SubmissionError | VerificationTimeout

  const PendingStatus := Js.Str("pending")
  const VerifiedStatus := Js.Str("verified")

  /** `pollForResult`'s default bound on fetch attempts. */
  const DefaultMaxAttempts := 30

  const IdentityRequirements := Requirements(3, 0.8, 30000)
  const TransactionRequirements := Requirements(5, 0.9, 60000)
  const LocationRequirements := Requirements(3, 0.75, 45000)

  /** What the validator network can honour: at least one validator, a threshold in (0, 1], a positive timeout. */
  predicate ValidRequirements(q: Requirements) {
    q.minValidators >= 1 && 0.0 < q.consensusThreshold <= 1.0 && q.timeoutMs > 0
  }

  /** Polling stops at a result whose status is anything but the string `pending`. */
  predicate Settled(r: VerificationResult) {
    r.status != PendingStatus
  }

  // ---------------------------------------------------------------- submit

  function SubmitBodyOf(config: CheckerConfig, request: VerificationRequest): (body: SubmitBody)
    ensures body.network == config.network
    ensures body.kind == request.kind && body.data == request.data && body.requirements == request.requirements
  {
    SubmitBody(request.kind, request.data, request.requirements, config.network)
  }

  /**
   * `submitVerification`: the `verificationId` of the reply body. A failed POST,
   * or a body whose property cannot be read, is rethrown to the caller.
   */
  function SubmitVerification(reply: Option<Js.Value>): (r: Result<Js.Value, Failure>)
    ensures r.Failure? <==> (reply.None? || Js.Nullish(reply.value))
    ensures r.Failure? ==> r.error == SubmissionError
    ensures r.Success? ==> r.value == Js.OptMember(reply.value, "verificationId")
  {
    match reply
    case None => Failure(SubmissionError)
    case Some(body) =>
      match Js.Member(body, "verificationId")
      case None => Failure(SubmissionError)
      case Some(id) => Success(id)
  }

  // ----------------------------------------------------------------- fetch

  /** The result built field by field from a reply body; `None` is the TypeError a nullish body raises. */
  function ResultFromBody(body: Js.Value): (r: Option<VerificationResult>)
    ensures r.None? <==> Js.Nullish(body)
    ensures r.Some? ==> r.value.id == Js.OptMember(body, "id") && r.value.status == Js.OptMember(body, "status")
    ensures r.Some? ==> r.value.confidence == Js.OptMember(body, "confidence") &&
                        r.value.validators == Js.OptMember(body, "validators") &&
                        r.value.consensus == Js.OptMember(body, "consensus")
    ensures r.Some? ==> r.value.evidence == Js.OptMember(body, "evidence") &&
                        r.value.timestamp == Js.OptMember(body, "timestamp") &&
                        r.value.cost == Js.OptMember(body, "cost")
  {
    if Js.Nullish(body) then None
    else Some(VerificationResult(
      Js.OptMember(body, "id"),
      Js.OptMember(body, "status"),
      Js.OptMember(body, "confidence"),
      Js.OptMember(body, "validators"),
      Js.OptMember(body, "consensus"),
      Js.OptMember(body, "evidence"),
      Js.OptMember(body, "timestamp"),
      Js.OptMember(body, "cost")))
  }

  function EvidenceEntry(validator: string, confidence: real): (e: Js.Value)
    ensures e.Obj? && e.props.Keys == {"validator", "result", "confidence"}
    ensures Js.OptMember(e, "validator") == Js.Str(validator)
    ensures Js.OptMember(e, "result") == VerifiedStatus
    ensures Js.OptMember(e, "confidence") == Js.Num(confidence)
  {
    Js.Obj(map["validator" := Js.Str(validator), "result" := VerifiedStatus, "confidence" := Js.Num(confidence)])
  }

  /** `getMockVerificationResult`: the synthetic result substituted for a failed fetch. */
  function MockVerificationResult(id: Js.Value, draw: Js.Random, clock: int): (r: VerificationResult)
    ensures r.id == id && r.status == VerifiedStatus && Settled(r)
    ensures r.confidence.Num? && 0.85 <= r.confidence.n < 1.0
    ensures r.validators == Js.Num(5.0) && r.consensus == Js.Num(0.9) && r.cost == Js.Num(0.1)
    ensures r.evidence.Arr? && |r.evidence.items| == 3
    ensures forall e :: e in r.evidence.items ==> Js.OptMember(e, "result") == VerifiedStatus
  {
    VerificationResult(
      id,
      VerifiedStatus,
      Js.Num(0.85 + draw * 0.15),
      Js.Num(5.0),
      Js.Num(0.9),
      Js.Arr([EvidenceEntry("validator_1", 0.9), EvidenceEntry("validator_2", 0.85), EvidenceEntry("validator_3", 0.95)]),
      Js.Num(clock as real),
      Js.Num(0.1))
  }

  /**
   * `getVerificationResult`: the result read from the reply; when the request
   * fails or the body cannot be read, the mock result for the requested id.
   */
  function GetVerificationResult(id: Js.Value, attempt: Attempt): (r: VerificationResult)
    ensures attempt.reply.Some? && !Js.Nullish(attempt.reply.value) ==> Some(r) == ResultFromBody(attempt.reply.value)
    ensures attempt.reply.None? || Js.Nullish(attempt.reply.value) ==> r == MockVerificationResult(id, attempt.draw, attempt.clock)
  {
    match attempt.reply
    case None => MockVerificationResult(id, attempt.draw, attempt.clock)
    case Some(body) =>
      match ResultFromBody(body)
      case None => MockVerificationResult(id, attempt.draw, attempt.clock)
      case Some(r) => r
  }

  // ------------------------------------------------------------------ poll

  /** None of the first `n` fetches settled. */
  predicate AllPending(id: Js.Value, fetch: nat -> Attempt, n: nat) {
    forall i: nat :: i < n ==> !Settled(GetVerificationResult(id, fetch(i)))
  }

  /** The number of attempts `for (let i = 0; i < maxAttempts; i++)` allows. */
  function AttemptBound(maxAttempts: int): nat {
    if maxAttempts < 0 then 0 else maxAttempts
  }

  /**
   * What `pollForResult` promises: it returns the first settled result after
   * exactly the fetches that led to it, or throws `Verification timeout` once
   * every allowed fetch came back pending.
   */
  predicate Polled(id: Js.Value, fetch: nat -> Attempt, maxAttempts: int, r: Result<VerificationResult, Failure>, attempts: nat) {
    && attempts <= AttemptBound(maxAttempts)
    && (r.Success? ==>
          && attempts >= 1
          && AllPending(id, fetch, attempts - 1)
          && r.value == GetVerificationResult(id, fetch(attempts - 1))
          && Settled(r.value))
    && (r.Failure? ==>
          && r.error == VerificationTimeout
          && attempts == AttemptBound(maxAttempts)
          && AllPending(id, fetch, attempts))
  }

  /**
   * `pollForResult`: fetch attempt `i` is `fetch(i)`; `attempts` counts the
   * calls to `getVerificationResult`. The two-second pause between attempts has
   * no observable effect here, and `requirements.timeoutMs` is not an input.
   */
  method PollForResult(id: Js.Value, fetch: nat -> Attempt, maxAttempts: int)
    returns (r: Result<VerificationResult, Failure>, attempts: nat)
    ensures Polled(id, fetch, maxAttempts, r, attempts)
  {
    attempts := 0;
    var i := 0;
    while i < maxAttempts
      invariant 0 <= i <= AttemptBound(maxAttempts)
      invariant attempts == i
      invariant AllPending(id, fetch, i)
      decreases maxAttempts - i
    {
      var result := GetVerificationResult(id, fetch(i));
      attempts := attempts + 1;
      if result.status != PendingStatus {
        r := Success(result);
        return;
      }
      i := i + 1;
    }
    r := Failure(VerificationTimeout);
  }

  /** The promise of `pollForResult` pins down its outcome: first settled result wins. */
  lemma PolledIsUnique(id: Js.Value, fetch: nat -> Attempt, maxAttempts: int,
                       r1: Result<VerificationResult, Failure>, a1: nat,
                       r2: Result<VerificationResult, Failure>, a2: nat)
    requires Polled(id, fetch, maxAttempts, r1, a1)
    requires Polled(id, fetch, maxAttempts, r2, a2)
    ensures r1 == r2 && a1 == a2
  {
  }

  /** With no attempts allowed, polling throws the timeout without fetching. */
  lemma NoAttemptsTimesOut(id: Js.Value, fetch: nat -> Attempt, maxAttempts: int,
                           r: Result<VerificationResult, Failure>, attempts: nat)
    requires maxAttempts <= 0
    requires Polled(id, fetch, maxAttempts, r, attempts)
    ensures r == Failure(VerificationTimeout) && attempts == 0
  {
  }

  /** If every allowed fetch is pending, polling throws the timeout after exactly `maxAttempts` fetches. */
  lemma AllPendingTimesOut(id: Js.Value, fetch: nat -> Attempt, maxAttempts: int,
                           r: Result<VerificationResult, Failure>, attempts: nat)
    requires AllPending(id, fetch, AttemptBound(maxAttempts))
    requires Polled(id, fetch, maxAttempts, r, attempts)
    ensures r == Failure(VerificationTimeout) && attempts == AttemptBound(maxAttempts)
  {
  }

  /**
   * A failed fetch ends polling: if fetch `k` fails after `k` pending ones,
   * `pollForResult` returns the mock `verified` result for the id after `k + 1` fetches.
   */
  lemma FailedFetchEndsPolling(id: Js.Value, fetch: nat -> Attempt, maxAttempts: int, k: nat,
                               r: Result<VerificationResult, Failure>, attempts: nat)
    requires k < maxAttempts
    requires AllPending(id, fetch, k)
    requires fetch(k).reply.None?
    requires Polled(id, fetch, maxAttempts, r, attempts)
    ensures attempts == k + 1
    ensures r == Success(MockVerificationResult(id, fetch(k).draw, fetch(k).clock))
  {
    var expected := Success(MockVerificationResult(id, fetch(k).draw, fetch(k).clock));
    assert Polled(id, fetch, maxAttempts, expected, k + 1);
    PolledIsUnique(id, fetch, maxAttempts, r, attempts, expected, k + 1);
  }

  /** A reply without a `status` property is not `pending`, so it too ends polling. */
  lemma MissingStatusEndsPolling(id: Js.Value, fetch: nat -> Attempt, maxAttempts: int, k: nat,
                                 r: Result<VerificationResult, Failure>, attempts: nat)
    requires k < maxAttempts
    requires AllPending(id, fetch, k)
    requires fetch(k).reply.Some? && fetch(k).reply.value.Obj? && "status" !in fetch(k).reply.value.props
    requires Polled(id, fetch, maxAttempts, r, attempts)
    ensures attempts == k + 1 && r.Success? && r.value.status == Js.Undefined
  {
    var expected := Success(GetVerificationResult(id, fetch(k)));
    assert Polled(id, fetch, maxAttempts, expected, k + 1);
    PolledIsUnique(id, fetch, maxAttempts, r, attempts, expected, k + 1);
  }

  // ---------------------------------------------------------------- verify

  /** Submit, then poll with the default bound; a failed submit is rethrown before any fetch. */
  method Verify(config: CheckerConfig, request: VerificationRequest, reply: Option<Js.Value>, fetch: nat -> Attempt)
    returns (sent: SubmitBody, r: Result<VerificationResult, Failure>, attempts: nat)
    ensures sent == SubmitBodyOf(config, request)
    ensures SubmitVerification(reply).Failure? ==> r == Failure(SubmissionError) && attempts == 0
    ensures SubmitVerification(reply).Success? ==>
              Polled(SubmitVerification(reply).value, fetch, DefaultMaxAttempts, r, attempts)
  {
    sent := SubmitBodyOf(config, request);
    match SubmitVerification(reply)
    case Failure(e) =>
      r, attempts := Failure(e), 0;
    case Success(id) =>
      r, attempts := PollForResult(id, fetch, DefaultMaxAttempts);
  }

  /** `verifyAgentIdentity`: an `identity` claim needing 3 validators, 0.8 agreement, 30 s. */
  method VerifyAgentIdentity(config: CheckerConfig, agentId: string, credentials: Js.Value, now: int,
                             reply: Option<Js.Value>, fetch: nat -> Attempt)
    returns (sent: SubmitBody, r: Result<VerificationResult, Failure>, attempts: nat)
    ensures sent.kind == Identity && sent.requirements == Requirements(3, 0.8, 30000)
    ensures sent.data == AgentClaim(agentId, credentials, now) && sent.network == config.network
    ensures ValidRequirements(sent.requirements)
    ensures SubmitVerification(reply).Failure? ==> r == Failure(SubmissionError) && attempts == 0
    ensures SubmitVerification(reply).Success? ==>
              Polled(SubmitVerification(reply).value, fetch, DefaultMaxAttempts, r, attempts)
  {
    var request := VerificationRequest(Identity, AgentClaim(agentId, credentials, now), IdentityRequirements);
    sent, r, attempts := Verify(config, request, reply, fetch);
  }

  /** `verifyTransaction`: a `transaction` claim needing 5 validators, 0.9 agreement, 60 s. */
  method VerifyTransaction(config: CheckerConfig, txHash: string, chain: string, now: int,
                           reply: Option<Js.Value>, fetch: nat -> Attempt)
    returns (sent: SubmitBody, r: Result<VerificationResult, Failure>, attempts: nat)
    ensures sent.kind == Transaction && sent.requirements == Requirements(5, 0.9, 60000)
    ensures sent.data == TransactionClaim(txHash, chain, now) && sent.network == config.network
    ensures ValidRequirements(sent.requirements)
    ensures SubmitVerification(reply).Failure? ==> r == Failure(SubmissionError) && attempts == 0
    ensures SubmitVerification(reply).Success? ==>
              Polled(SubmitVerification(reply).value, fetch, DefaultMaxAttempts, r, attempts)
  {
    var request := VerificationRequest(Transaction, TransactionClaim(txHash, chain, now), TransactionRequirements);
    sent, r, attempts := Verify(config, request, reply, fetch);
  }

  /** `verifyLocation`: a `location` claim with `{latitude, longitude}`, needing 3 validators, 0.75 agreement, 45 s. */
  method VerifyLocation(config: CheckerConfig, latitude: real, longitude: real, evidence: seq<Js.Value>, now: int,
                        reply: Option<Js.Value>, fetch: nat -> Attempt)
    returns (sent: SubmitBody, r: Result<VerificationResult, Failure>, attempts: nat)
    ensures sent.kind == Location && sent.requirements == Requirements(3, 0.75, 45000)
    ensures sent.data == LocationClaim(Coordinates(latitude, longitude), evidence, now) && sent.network == config.network
    ensures ValidRequirements(sent.requirements)
    ensures SubmitVerification(reply).Failure? ==> r == Failure(SubmissionError) && attempts == 0
    ensures SubmitVerification(reply).Success? ==>
              Polled(SubmitVerification(reply).value, fetch, DefaultMaxAttempts, r, attempts)
  {
    var request := VerificationRequest(Location, LocationClaim(Coordinates(latitude, longitude), evidence, now), LocationRequirements);
    sent, r, attempts := Verify(config, request, reply, fetch);
  }

  // --------------------------------------------------------------- history

  /**
   * `getVerificationHistory`: the reply's list mapped item by item, keeping
   * length and order; any failure (request, non-array body, nullish item) gives `[]`.
   */
  function GetVerificationHistory(reply: Option<Js.Value>): (r: seq<VerificationResult>)
    ensures (reply.None? || !reply.value.Arr?) ==> r == []
    ensures reply.Some? && reply.value.Arr? && Js.MapItems(reply.value.items, ResultFromBody).Some? ==>
              |r| == |reply.value.items| &&
              forall i :: 0 <= i < |r| ==> ResultFromBody(reply.value.items[i]) == Some(r[i])
    ensures reply.Some? && reply.value.Arr? && Js.MapItems(reply.value.items, ResultFromBody).None? ==> r == []
  {
    match reply
    case Some(Arr(items)) =>
      (match Js.MapItems(items, ResultFromBody)
       case Some(results) => results
       case None => [])
    case _ => []
  }

  // -------------------------------------------------------- network status

  datatype NetworkStatus = NetworkStatus(
    activeValidators: Js.Value,
    totalValidators: Js.Value,
    averageResponseTime: Js.Value,
    networkLoad: Js.Value,
    consensusRate: Js.Value,
    lastUpdate: Js.Value)

  /** `getNetworkStatus`: the reply's fields, or the fixed mock status when the request or the body fails. */
  function GetNetworkStatus(reply: Option<Js.Value>, clock: int): (s: NetworkStatus)
    ensures reply.Some? && !Js.Nullish(reply.value) ==>
              s.activeValidators == Js.OptMember(reply.value, "activeValidators") &&
              s.totalValidators == Js.OptMember(reply.value, "totalValidators") &&
              s.averageResponseTime == Js.OptMember(reply.value, "averageResponseTime") &&
              s.networkLoad == Js.OptMember(reply.value, "networkLoad") &&
              s.consensusRate == Js.OptMember(reply.value, "consensusRate") &&
              s.lastUpdate == Js.OptMember(reply.value, "lastUpdate")
    ensures reply.None? || Js.Nullish(reply.value) ==> s == MockNetworkStatus(clock)
  {
    match reply
    case Some(body) =>
      if Js.Nullish(body) then MockNetworkStatus(clock)
      else NetworkStatus(
        Js.OptMember(body, "activeValidators"),
        Js.OptMember(body, "totalValidators"),
        Js.OptMember(body, "averageResponseTime"),
        Js.OptMember(body, "networkLoad"),
        Js.OptMember(body, "consensusRate"),
        Js.OptMember(body, "lastUpdate"))
    case None => MockNetworkStatus(clock)
  }

  /**
   * `getMockNetworkStatus`: 150 of 200 validators active, a 2500 ms response
   * time, load and consensus rate as fractions, stamped with the current time.
   */
  function MockNetworkStatus(clock: int): (s: NetworkStatus)
    ensures s.activeValidators == Js.Num(150.0) && s.totalValidators == Js.Num(200.0)
    ensures s.activeValidators.n <= s.totalValidators.n
    ensures s.averageResponseTime == Js.Num(2500.0)
    ensures s.networkLoad == Js.Num(0.65) && 0.0 <= s.networkLoad.n <= 1.0
    ensures s.consensusRate == Js.Num(0.92) && 0.0 <= s.consensusRate.n <= 1.0
    ensures s.lastUpdate == Js.Num(clock as real)
  {
    NetworkStatus(Js.Num(150.0), Js.Num(200.0), Js.Num(2500.0), Js.Num(0.65), Js.Num(0.92), Js.Num(clock as real))
  }
}
