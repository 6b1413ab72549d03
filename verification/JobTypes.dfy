/** Durable-job rows, claims and the static per-type contracts. */
module JobTypes {
  import opened Prelude

  /** A JSON value of the queue, identified with its canonical text. */
  type Json = string

  /** Job type and contract version. */
  type Kind = (string, nat)

  datatype State = Queued | Running | WaitingReview | RetryWait | Completed | Failed | Cancelled

  const NONTERMINAL: set<State> := {Queued, Running, WaitingReview, RetryWait}
  const COALESCIBLE: set<State> := NONTERMINAL + {Completed}
  const RECOVERY_STATES: set<State> := {Queued, RetryWait, WaitingReview, Failed}
  const MAX_KEY_BYTES := 65536

  datatype Outcome = DidComplete | DidFail | WasCancelled | Interrupted

  /** SHA-256 of the dedupe envelope, as an injective function of it. */
  datatype Digest = Sha256(kind: Kind, key: string)

  datatype Job = Job(
    kind: Kind, state: State, created: nat, updated: nat, attempts: nat, retryAt: Option<nat>,
    run: Option<Id>, started: Option<nat>, payload: Json, checkpoint: Option<Json>,
    lastError: Option<string>, dedupe: Option<Digest>)

  /** A row of the append-only attempt table. */
  datatype Attempt = Attempt(
    job: Id, ordinal: nat, run: Id, started: nat, finished: nat, outcome: Outcome, error: Option<string>)

  datatype Claim = Claim(
    job: Id, kind: Kind, run: Id, ordinal: nat, started: nat, dedupe: Digest, payload: Json,
    checkpoint: Option<Json>)

  datatype Disposition = Disposition(state: State, retryAt: Option<nat>, error: Option<string>)

  /** Packet-owned policy. The callbacks are pure; `None` from one that returns a value means it raised. */
  datatype Contract = Contract(
    kind: Kind,
    validPayload: Json -> bool,
    validCheckpoint: Json -> bool,
    deriveKey: Json -> Option<string>,
    coalesce: set<State>,
    validFailure: (string, nat, nat, Option<nat>) -> bool,
    validCancellation: (Json, State) -> bool,
    recoverStale: (Json, Option<Json>, nat, nat) -> Option<Disposition>)

  type Registry = map<Kind, Contract>

  datatype Integrity =
    | MultipleMatches | PayloadInvalid | KeyDisagreement | EnqueueViolated | QueuedWithRetry | SelectedEarly
    | ClockRegressed | MissingDedupe | CheckpointInvalid | LostRevalidation | IdentityChanged
    | OrdinalRecorded | FinishBeforeStart | ConflictingHistory | IncompleteClaim | WrongKind
    | CrashPolicyFailed | InvalidDisposition

  datatype Error = Validation | ClaimConflict | Corrupt(what: Integrity)

  predicate ValidContract(c: Contract) {
    c.kind.0 != "" && Utf8Length(c.kind.0) <= 256 && c.kind.1 >= 1 && NONTERMINAL <= c.coalesce <= COALESCIBLE
  }

  predicate ValidKey(key: string) {
    key != "" && Utf8Length(key) <= MAX_KEY_BYTES
  }

  predicate CodeHead(c: char) { 'A' <= c <= 'Z' }

  predicate CodeTail(c: char) { CodeHead(c) || '0' <= c <= '9' || c == '_' }

  predicate ValidErrorCode(code: string) {
    1 <= |code| <= 64 && CodeHead(code[0]) && forall i :: 1 <= i < |code| ==> CodeTail(code[i])
  }

  /** The immutable registry: exactly the given contracts, or a failure when one is invalid or repeated. */
  method BuildRegistry(contracts: seq<Contract>) returns (r: Result<Registry, Error>)
    ensures r.Ok? <==>
            && (forall i :: 0 <= i < |contracts| ==> ValidContract(contracts[i]))
            && (forall i, j :: 0 <= i < j < |contracts| ==> contracts[i].kind != contracts[j].kind)
    ensures r.Ok? ==> forall k :: k in r.value <==> exists i :: 0 <= i < |contracts| && contracts[i].kind == k
    ensures r.Ok? ==> forall i :: 0 <= i < |contracts| ==> r.value[contracts[i].kind] == contracts[i]
    ensures r.Err? ==> r.error == Validation
  {
    var resolved: Registry := map[];
    for i := 0 to |contracts|
      invariant forall k :: k in resolved <==> exists j :: 0 <= j < i && contracts[j].kind == k
      invariant forall j :: 0 <= j < i ==> ValidContract(contracts[j]) && resolved[contracts[j].kind] == contracts[j]
      invariant forall j, k :: 0 <= j < k < i ==> contracts[j].kind != contracts[k].kind
    {
      var c := contracts[i];
      if !ValidContract(c) || c.kind in resolved {
        return Err(Validation);
      }
      resolved := resolved[c.kind := c];
    }
    return Ok(resolved);
  }
}
