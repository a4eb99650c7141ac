/** The per-node retry loop: INFRA failures retry with backoff, BUSINESS failures do not. */
module Retries {
  import opened Common

  datatype FailureKind = Infra | Business

  /** What one call of the node does; `Nested` is an exhaustion raised from inside the call. */
  datatype Attempt = Success | Failure(kind: FailureKind) | Nested

  datatype Verdict = Completed | RaisedBusiness | RaisedNested | Exhausted

  datatype RetryPolicy = RetryPolicy(attempts: int, baseDelay: real, maxDelay: real, jitter: real)

  function Pow2(n: nat): real {
    if n == 0 then 1.0 else 2.0 * Pow2(n - 1)
  }

  /** The exponential, capped part of the pause after the given 1-based attempt. */
  function Backoff(policy: RetryPolicy, attempt: nat): real
    requires attempt >= 1
  {
    Min(policy.baseDelay * Pow2(attempt - 1), policy.maxDelay)
  }

  function DelayFor(policy: RetryPolicy, attempt: nat, roll: real): real
    requires attempt >= 1
  {
    Jittered(Backoff(policy, attempt), roll, policy.jitter)
  }

  function Jittered(backoff: real, roll: real, jitter: real): real {
    backoff + roll * jitter
  }

  /** Outcomes and jitter rolls by attempt number; entry k belongs to attempt k + 1. */
  type Oracle = nat -> Attempt

  function TotalDelay(policy: RetryPolicy, rolls: nat -> real, pauses: nat): real {
    if pauses == 0 then 0.0
    else TotalDelay(policy, rolls, pauses - 1) + DelayFor(policy, pauses, rolls(pauses - 1))
  }

  /** The first `n` calls all fail for infrastructure reasons. */
  predicate AllInfra(calls: Oracle, n: nat) {
    forall k :: 0 <= k < n ==> calls(k) == Failure(Infra)
  }

  function VerdictOf(a: Attempt): (v: Verdict)
    requires a != Failure(Infra)
    ensures v != Exhausted
    ensures v == RaisedBusiness <==> a == Failure(Business)
  {
    match a
    case Success => Completed
    case Failure(kind) =>
      assert kind == Business;
      RaisedBusiness
    case Nested => RaisedNested
  }

  /** What the calls of one retry loop came to: all but the last failed for infrastructure reasons, and
      the last one, or the spent budget, decides. */
  predicate Trail(policy: RetryPolicy, outcomes: seq<Attempt>, verdict: Verdict) {
    && (forall k :: 0 <= k < |outcomes| - 1 ==> outcomes[k] == Failure(Infra))
    && |outcomes| <= (if policy.attempts >= 0 then policy.attempts else 0)
    && if outcomes == [] || outcomes[|outcomes| - 1] == Failure(Infra)
       then verdict == Exhausted && policy.attempts <= |outcomes|
       else verdict == VerdictOf(outcomes[|outcomes| - 1])
  }

  /** Whether the outcome of the given 1-based attempt ends the loop, and how. */
  function Settles(policy: RetryPolicy, attempt: nat, outcome: Attempt): Option<Verdict> {
    if outcome != Failure(Infra) then Some(VerdictOf(outcome))
    else if attempt >= policy.attempts then Some(Exhausted)
    else None
  }

  /** The loop calls until the first outcome that is not an INFRA failure, or until the budget is
      spent; it sleeps once between consecutive calls and never after the last. */
  method WithRetries(policy: RetryPolicy, calls: Oracle, rolls: nat -> real)
    returns (verdict: Verdict, made: nat, slept: real)
    ensures policy.attempts <= 0 ==> made == 0 && verdict == Exhausted && slept == 0.0
    ensures policy.attempts >= 1 ==> 1 <= made <= policy.attempts && AllInfra(calls, made - 1)
    ensures policy.attempts >= 1 ==> slept == TotalDelay(policy, rolls, made - 1)
    ensures policy.attempts >= 1 ==>
              && (verdict == Completed <==> calls(made - 1) == Success)
              && (verdict == RaisedBusiness <==> calls(made - 1) == Failure(Business))
              && (verdict == RaisedNested <==> calls(made - 1) == Nested)
    ensures policy.attempts >= 1 && calls(made - 1) == Failure(Infra) ==> made == policy.attempts
    ensures policy.attempts >= 1 ==> (verdict == Exhausted <==> AllInfra(calls, policy.attempts))
    ensures Trail(policy, seq(made, k requires 0 <= k < made => calls(k)), verdict)
  {
    made, slept := 0, 0.0;
    var attempt := 1;
    while attempt <= policy.attempts
      invariant 1 <= attempt && made == attempt - 1
      invariant if policy.attempts >= 1 then attempt <= policy.attempts else attempt == 1
      invariant AllInfra(calls, made)
      invariant slept == TotalDelay(policy, rolls, made)
    {
      made := attempt;
      var settled := Settles(policy, attempt, calls(attempt - 1));
      if settled.Some? {
        verdict := settled.value;
        return;
      }
      slept := slept + DelayFor(policy, attempt, rolls(attempt - 1));
      attempt := attempt + 1;
    }
    verdict := Exhausted;
  }

  /** m leading INFRA failures lead to exactly min(m + 1, attempts) calls. */
  lemma CallsMade(policy: RetryPolicy, calls: Oracle, m: nat, made: nat)
    requires policy.attempts >= 1
    requires AllInfra(calls, m) && calls(m) != Failure(Infra)
    requires 1 <= made <= policy.attempts && AllInfra(calls, made - 1)
    requires calls(made - 1) == Failure(Infra) ==> made == policy.attempts
    ensures made == if m + 1 <= policy.attempts then m + 1 else policy.attempts
  {
    if made - 1 < m {
      assert calls(made - 1) == Failure(Infra);
    }
  }

  /** `base` doubled `k` times. */
  function Doubled(base: real, k: nat): real
    decreases k
  {
    if k == 0 then base else Doubled(base + base, k - 1)
  }

  lemma {:induction false} DoubledIsPower(base: real, k: nat)
    ensures base * Pow2(k) == Doubled(base, k)
    decreases k
  {
    if k > 0 {
      DoubledIsPower(base + base, k - 1);
      assert base * (2.0 * Pow2(k - 1)) == (base + base) * Pow2(k - 1);
    }
  }

  /** The pauses without jitter: each twice the one before, none longer than `cap`. */
  function CappedDoublings(base: real, cap: real, pauses: nat): real {
    if pauses == 0 then 0.0
    else
      CappedDoublings(base, cap, pauses - 1)
      + if Doubled(base, pauses - 1) < cap then Doubled(base, pauses - 1) else cap
  }

  lemma BackoffIsCapped(policy: RetryPolicy, k: nat)
    requires k >= 1
    ensures Backoff(policy, k)
         == if Doubled(policy.baseDelay, k - 1) < policy.maxDelay then Doubled(policy.baseDelay, k - 1)
            else policy.maxDelay
  {
    DoubledIsPower(policy.baseDelay, k - 1);
  }

  /** The first jitter rolls, added up. */
  function RollSum(rolls: nat -> real, pauses: nat): real {
    if pauses == 0 then 0.0 else RollSum(rolls, pauses - 1) + rolls(pauses - 1)
  }

  lemma JitterAddsUp(sum: real, roll: real, jitter: real)
    ensures (sum + roll) * jitter == sum * jitter + roll * jitter
    ensures 0.0 * jitter == 0.0
  {}

  /** The time slept is the capped doublings and, for each pause, its roll of the jitter. */
  lemma {:induction false} SleepIs(policy: RetryPolicy, rolls: nat -> real, pauses: nat)
    ensures TotalDelay(policy, rolls, pauses)
         == CappedDoublings(policy.baseDelay, policy.maxDelay, pauses) + RollSum(rolls, pauses) * policy.jitter
  {
    hide Backoff, Doubled;
    if pauses > 0 {
      SleepIs(policy, rolls, pauses - 1);
      BackoffIsCapped(policy, pauses);
      JitterAddsUp(RollSum(rolls, pauses - 1), rolls(pauses - 1), policy.jitter);
    } else {
      JitterAddsUp(0.0, 0.0, policy.jitter);
    }
  }

  lemma {:induction false} RollSumBounds(rolls: nat -> real, pauses: nat)
    requires forall k :: 0 <= k < pauses ==> 0.0 <= rolls(k) <= 1.0
    ensures 0.0 <= RollSum(rolls, pauses) <= pauses as real
  {
    if pauses > 0 { RollSumBounds(rolls, pauses - 1); }
  }

  lemma NonNegativeProduct(x: real, y: real)
    requires x >= 0.0 && y >= 0.0
    ensures x * y >= 0.0
  {}

  /** Hence it lies between the doublings and those plus one jitter for each pause. */
  lemma SleepBounds(policy: RetryPolicy, rolls: nat -> real, pauses: nat)
    requires policy.jitter >= 0.0
    requires forall k :: 0 <= k < pauses ==> 0.0 <= rolls(k) <= 1.0
    ensures CappedDoublings(policy.baseDelay, policy.maxDelay, pauses) <= TotalDelay(policy, rolls, pauses)
    ensures TotalDelay(policy, rolls, pauses)
         <= CappedDoublings(policy.baseDelay, policy.maxDelay, pauses) + pauses as real * policy.jitter
  {
    hide TotalDelay, CappedDoublings;
    SleepIs(policy, rolls, pauses);
    RollSumBounds(rolls, pauses);
    var sum, n, jitter := RollSum(rolls, pauses), pauses as real, policy.jitter;
    NonNegativeProduct(sum, jitter);
    NonNegativeProduct(n - sum, jitter);
    assert (n - sum) * jitter == n * jitter - sum * jitter;
  }
}
