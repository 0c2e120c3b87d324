/** Retry policies of agents: validation, the retry decision and the clamped backoff. */
module RetryPolicies {
  import opened Common

  const MAX_RETRY_ATTEMPTS := 5
  const MAX_BACKOFF_SECONDS := 3600

  datatype FailureKind =
    | NoFailure
    | ExitNonzeroKind
    | TimeoutKind
    | ExecutorErrorKind
    | WorkerPanicKind
    | PreparationKind
    | UnknownKind

  /** `retryOn == None` is an omitted list, which is different from an empty one. */
  datatype RetryPolicy = RetryPolicy(maxAttempts: int, backoff: seq<int>, retryOn: Option<seq<FailureKind>>)

  predicate IsRetryableKind(kind: FailureKind) {
    kind == TimeoutKind || kind == ExecutorErrorKind
  }

  predicate ValidPolicy(p: RetryPolicy) {
    && 1 <= p.maxAttempts <= MAX_RETRY_ATTEMPTS
    && (forall i :: 0 <= i < |p.backoff| ==> 0 < p.backoff[i] <= MAX_BACKOFF_SECONDS)
    && (p.retryOn.Some? ==> forall i :: 0 <= i < |p.retryOn.value| ==> IsRetryableKind(p.retryOn.value[i]))
  }

  /** Validation of a decoded policy; `None` is the empty text, which stands for one attempt. */
  method ParseRetryPolicy(decoded: Option<RetryPolicy>) returns (r: Result<RetryPolicy>)
    ensures r.Ok? ==> ValidPolicy(r.value)
    ensures decoded.None? ==> r == Ok(RetryPolicy(1, [], None))
    ensures decoded.Some? ==> r == if ValidPolicy(decoded.value) then Ok(decoded.value) else Err(Validation)
  {
    var policy := if decoded.Some? then decoded.value else RetryPolicy(1, [], None);
    if policy.maxAttempts < 1 || policy.maxAttempts > MAX_RETRY_ATTEMPTS {
      return Err(Validation);
    }
    for i := 0 to |policy.backoff|
      invariant forall j :: 0 <= j < i ==> 0 < policy.backoff[j] <= MAX_BACKOFF_SECONDS
    {
      if policy.backoff[i] <= 0 || policy.backoff[i] > MAX_BACKOFF_SECONDS {
        return Err(Validation);
      }
    }
    if policy.retryOn.Some? {
      for i := 0 to |policy.retryOn.value|
        invariant forall j :: 0 <= j < i ==> IsRetryableKind(policy.retryOn.value[j])
      {
        if !IsRetryableKind(policy.retryOn.value[i]) {
          return Err(Validation);
        }
      }
    }
    return Ok(policy);
  }

  predicate ShouldRetry(kind: FailureKind, attempt: int, maxAttempts: int, p: RetryPolicy) {
    if attempt >= maxAttempts || maxAttempts <= 1 then false
    else if p.retryOn.None? then IsRetryableKind(kind)
    else kind in p.retryOn.value
  }

  /** Seconds until the next attempt; a configured schedule is clamped to its last entry. */
  function BackoffSeconds(attempt: int, p: RetryPolicy): (seconds: int)
    ensures ValidPolicy(p) ==> 1 <= seconds <= MAX_BACKOFF_SECONDS
    ensures 1 <= attempt <= |p.backoff| ==> seconds == p.backoff[attempt - 1]
    ensures attempt > |p.backoff| > 0 ==> seconds == p.backoff[|p.backoff| - 1]
    ensures p.backoff == [] && attempt >= 1 ==> seconds == [10, 60, 300][if attempt < 3 then attempt - 1 else 2]
  {
    if |p.backoff| > 0 then
      var idx := if attempt - 1 < 0 then 0 else attempt - 1;
      p.backoff[if idx >= |p.backoff| then |p.backoff| - 1 else idx]
    else if attempt <= 1 then 10
    else if attempt == 2 then 60
    else 300
  }

  /** Under a valid policy only timeouts and executor errors are ever retried, and never past the last attempt. */
  lemma OnlyTransientFailuresRetry(kind: FailureKind, attempt: int, maxAttempts: int, p: RetryPolicy)
    requires ValidPolicy(p)
    ensures ShouldRetry(kind, attempt, maxAttempts, p) ==> IsRetryableKind(kind) && attempt < maxAttempts
  {
    if ShouldRetry(kind, attempt, maxAttempts, p) && p.retryOn.Some? {
      var i :| 0 <= i < |p.retryOn.value| && p.retryOn.value[i] == kind;
    }
  }
}
