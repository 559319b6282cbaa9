/**
 What ends a delivery and what brings it back: which failures are charged against the allowance, when a
 delivery stops for good, and that everything short of that can be started again.
 */
module EventRetries {
  import opened Options
  import opened EventExecution

  // ---------------------------------------------------------------------------
  // The allowance

  /** An outage that the worker reported is not the event's fault. */
  predicate Charged(a: Attempt) {
    a.status != Abandoned(Reported(Infrastructure))
  }

  /** The attempts of a cycle that count against its allowance. */
  function ChargedIn(attempts: seq<Attempt>, cycle: nat): nat {
    if attempts == [] then 0 else
      var last := attempts[|attempts| - 1];
      ChargedIn(attempts[..|attempts| - 1], cycle) + (if last.cycle == cycle && Charged(last) then 1 else 0)
  }

  lemma ChargedMore(attempts: seq<Attempt>, a: Attempt, cycle: nat)
    ensures ChargedIn(attempts + [a], cycle) == ChargedIn(attempts, cycle) + (if a.cycle == cycle && Charged(a) then 1 else 0)
  {
    assert (attempts + [a])[..|attempts|] == attempts;
  }

  lemma {:induction false} ChargedAlike(a: seq<Attempt>, b: seq<Attempt>, cycle: nat)
    requires |a| == |b| && forall i :: 0 <= i < |a| ==> a[i].cycle == b[i].cycle && Charged(a[i]) == Charged(b[i])
    ensures ChargedIn(a, cycle) == ChargedIn(b, cycle)
  {
    if a != [] { ChargedAlike(a[..|a| - 1], b[..|b| - 1], cycle); }
  }

  lemma {:induction false} ChargedNone(attempts: seq<Attempt>, cycle: nat)
    requires forall i :: 0 <= i < |attempts| ==> attempts[i].cycle < cycle
    ensures ChargedIn(attempts, cycle) == 0
  {
    if attempts != [] { ChargedNone(attempts[..|attempts| - 1], cycle); }
  }

  lemma ChargedLast(attempts: seq<Attempt>, a: Attempt, cycle: nat)
    requires attempts != []
    ensures var n := |attempts| - 1;
            && ChargedIn(attempts, cycle) == ChargedIn(attempts[..n], cycle) + (if attempts[n].cycle == cycle && Charged(attempts[n]) then 1 else 0)
            && ChargedIn(attempts[n := a], cycle) == ChargedIn(attempts[..n], cycle) + (if a.cycle == cycle && Charged(a) then 1 else 0)
  {
    var n := |attempts| - 1;
    assert attempts[n := a] == attempts[..n] + [a] && attempts == attempts[..n] + [attempts[n]];
    ChargedMore(attempts[..n], a, cycle);
    ChargedMore(attempts[..n], attempts[n], cycle);
  }

  /** The count is what has been charged in this cycle, and a delivery that waits has allowance left. */
  predicate AllowanceOk(policy: Policy, d: Delivery) {
    && d.attemptCount == ChargedIn(d.attempts, d.cycle)
    && (d.status == Processing ==> d.attempts != [] && d.attempts[|d.attempts| - 1].cycle == d.cycle)
    && (d.status == Pending ==> d.attemptCount < policy.maxAttempts)
  }

  lemma InterruptedCharge(d: Delivery)
    ensures ChargedIn(Interrupted(d.attempts), d.cycle) == ChargedIn(d.attempts, d.cycle)
  {
    ChargedAlike(Interrupted(d.attempts), d.attempts, d.cycle);
  }

  lemma BegunAllowance(policy: Policy, d: Delivery, now: int, token: nat, contract: Contract)
    requires AllowanceOk(policy, d) && d.status == Pending
    ensures AllowanceOk(policy, Begun(d, policy, now, token, contract).0)
  {
    hide ChargedIn, NextNumber;
    var status := if contract == Rejected then Abandoned(ContractRejection) else Running;
    ChargedMore(d.attempts, Attempt(d.cycle, NextNumber(d.attempts, d.cycle), token, status), d.cycle);
  }

  lemma ReleasedAllowance(policy: Policy, d: Delivery, d': Delivery)
    requires AllowanceOk(policy, d) && d'.attempts == Interrupted(d.attempts) && d'.cycle == d.cycle && d'.attemptCount == d.attemptCount
    requires d'.status == Failed || (d'.status == Pending && d.attemptCount < policy.maxAttempts)
    ensures AllowanceOk(policy, d')
  {
    hide ChargedIn, Interrupted;
    InterruptedCharge(d);
  }

  lemma StartedAllowance(policy: Policy, d: Delivery, now: int, token: nat, contract: Contract)
    requires AllowanceOk(policy, d)
    ensures AllowanceOk(policy, Started(d, policy, now, token, contract).0)
  {
    hide Begun, Interrupted, ChargedIn;
    if d.status == Processing {
      var released := Cleared(d.(attempts := Interrupted(d.attempts), status := Pending));
      ReleasedAllowance(policy, d, released.(status := Failed));
      if d.attemptCount < policy.maxAttempts {
        ReleasedAllowance(policy, d, released);
        BegunAllowance(policy, released, now, token, contract);
      }
    } else if d.status == Pending {
      BegunAllowance(policy, d, now, token, contract);
    }
  }

  lemma FinishedAllowance(policy: Policy, s: System, claim: Claim, now: int, failure: Failure, delay: nat, outcome: Outcome)
    requires Inv(policy, s) && AllowanceOk(policy, s.d) && claim in s.claims
    ensures AllowanceOk(policy, FailureFinished(s.d, policy, claim, now, failure, delay).0)
    ensures AllowanceOk(policy, Effected(s.d, claim, now, outcome).0)
  {
    hide ChargedIn, TokensOk, NumbersOk, OnceOk;
    if Holds(s.d, claim) {
      HolderIsNewest(s, claim);
      var last := s.d.attempts[claim.attempt];
      ChargedLast(s.d.attempts, last.(status := Abandoned(Reported(failure))), s.d.cycle);
      ChargedLast(s.d.attempts, last.(status := Done(outcome)), s.d.cycle);
    }
  }

  lemma NextAllowance(policy: Policy, s: System, step: Step, now: int, s': System, result: Result)
    requires Inv(policy, s) && AllowanceOk(policy, s.d) && Next(policy, s, step, now, s', result) && policy.maxAttempts > 0
    ensures AllowanceOk(policy, s'.d)
  {
    hide Started, Effected, FailureFinished, ChargedIn, Interrupted, OnceOk, TokensOk, RunningOk;
    match step
    case Start(contract) => StartedAllowance(policy, s.d, now, s.nextToken, contract);
    case Effect(claim, outcome) => FinishedAllowance(policy, s, claim, now, Permanent, 0, outcome);
    case FinishFailure(claim, failure, delay) => FinishedAllowance(policy, s, claim, now, failure, delay, Processed);
    case Recover =>
      if s'.d != s.d { ReleasedAllowance(policy, s.d, s'.d); }
    case Replay => ChargedNone(s.d.attempts, s.d.cycle + 1);
    case _ =>
  }

  /** In every run the attempt count is the number of attempts of the current cycle that were not outages. */
  lemma {:induction false} AllowanceIsCharged(policy: Policy, states: seq<System>, moments: seq<Moment>, i: nat)
    requires Behaviour(policy, states, moments) && i < |states| && policy.maxAttempts > 0
    ensures AllowanceOk(policy, states[i].d)
  {
    hide Next, Inv;
    if i > 0 {
      AllowanceIsCharged(policy, states, moments, i - 1);
      BehaviourInv(policy, states, moments, i - 1);
      NextAllowance(policy, states[i - 1], moments[i - 1].step, moments[i - 1].now, states[i], moments[i - 1].result);
    }
  }

  // ---------------------------------------------------------------------------
  // What ends a delivery

  predicate Exhausted(policy: Policy, d: Delivery) {
    ChargedIn(d.attempts, d.cycle) >= policy.maxAttempts
  }

  /** Due, and not held by a worker whose lease is still running. */
  predicate Open(d: Delivery, now: int) {
    d.nextAttemptAt <= now && (d.status == Pending || Lapsed(d, now))
  }

  /** The worker's time is up: its lease expires at this instant or did before. */
  predicate Lapsed(d: Delivery, now: int) {
    d.status == Processing && (d.lease.Some? ==> d.lease.value.expiresAt <= now)
  }

  /** The three ways to end: a permanent failure, a rejected contract, or an allowance used up by failures that were not outages. */
  predicate Ends(policy: Policy, d: Delivery, step: Step, now: int) {
    match step
    case FinishFailure(claim, failure, _) => Holds(d, claim) && (failure == Permanent || (failure == Retryable && Exhausted(policy, d)))
    case Start(contract) => Open(d, now) && (contract == Rejected || Exhausted(policy, d))
    case Recover => Lapsed(d, now) && Exhausted(policy, d)
    case _ => false
  }

  /** In every run a delivery becomes failed in a step if and only if that step ends it. */
  lemma BecomesFailedIff(policy: Policy, states: seq<System>, moments: seq<Moment>, i: nat)
    requires Behaviour(policy, states, moments) && i < |moments| && policy.maxAttempts > 0
    ensures states[i].d.status != Failed && states[i + 1].d.status == Failed <==> Ends(policy, states[i].d, moments[i].step, moments[i].now)
  {
    hide NextNumber, Interrupted, ChargedIn, TokensOk, NumbersOk;
    BehaviourInv(policy, states, moments, i);
    AllowanceIsCharged(policy, states, moments, i);
    assert Next(policy, states[i], moments[i].step, moments[i].now, states[i + 1], moments[i].result);
  }

  // ---------------------------------------------------------------------------
  // What brings it back

  /** A worker with an acceptable contract is given the delivery exactly when it is open and has allowance left. */
  lemma StartClaimsIff(policy: Policy, s: System, now: int, token: nat, contract: Contract)
    requires Inv(policy, s) && AllowanceOk(policy, s.d)
    ensures var (d, r) := Started(s.d, policy, now, token, contract);
            && (r.Claimed? <==> contract == Accepted && Open(s.d, now) && !Exhausted(policy, s.d))
            && (r.Claimed? ==>
                  && r.claim == Claim(token, |s.d.attempts|) && Holds(d, r.claim)
                  && d.lease == Some(Lease(token, now + policy.leaseSeconds)) && d.attemptCount == s.d.attemptCount + 1
                  && d.attempts[..|s.d.attempts|] == Interrupted(s.d.attempts)
                  && d.attempts[|s.d.attempts|].status == Running && d.attempts[|s.d.attempts|].cycle == s.d.cycle)
  {
    hide NextNumber, ChargedIn, TokensOk, NumbersOk, Interrupted;
    assert s.d.status == Pending ==> Interrupted(s.d.attempts) == s.d.attempts by { NothingRunning(policy, s); }
  }

  lemma NothingRunning(policy: Policy, s: System)
    requires RunningOk(s.d)
    ensures s.d.status == Pending ==> Interrupted(s.d.attempts) == s.d.attempts
  {
  }

  /** It waits, nobody holds it, it is to be published again, and from this time on any worker can start it. */
  predicate Ready(policy: Policy, d: Delivery, from: int) {
    d.status == Pending && d.nextAttemptAt <= from && d.lease == None && d.publishedAt == None && !Exhausted(policy, d)
  }

  /** A retryable failure below the limit comes back after its delay, still charged. */
  lemma RetryableComesBack(policy: Policy, states: seq<System>, moments: seq<Moment>, i: nat)
    requires Behaviour(policy, states, moments) && i < |moments| && policy.maxAttempts > 0
    requires moments[i].step.FinishFailure? && moments[i].step.failure == Retryable
    requires Holds(states[i].d, moments[i].step.claim) && !Exhausted(policy, states[i].d)
    ensures Ready(policy, states[i + 1].d, moments[i].now + moments[i].step.delay) && states[i + 1].d.nextAttemptAt == moments[i].now + moments[i].step.delay
    ensures states[i + 1].d.attemptCount == states[i].d.attemptCount
  {
    hide ChargedIn, NextNumber, Started;
    AllowanceIsCharged(policy, states, moments, i);
    AllowanceIsCharged(policy, states, moments, i + 1);
    assert Next(policy, states[i], moments[i].step, moments[i].now, states[i + 1], moments[i].result);
  }

  /** An outage gives the charge of its start back and comes back after its delay. */
  lemma OutageIsFree(policy: Policy, states: seq<System>, moments: seq<Moment>, i: nat)
    requires Behaviour(policy, states, moments) && i < |moments| && policy.maxAttempts > 0
    requires moments[i].step.FinishFailure? && moments[i].step.failure == Infrastructure && Holds(states[i].d, moments[i].step.claim)
    ensures Ready(policy, states[i + 1].d, moments[i].now + moments[i].step.delay) && states[i + 1].d.nextAttemptAt == moments[i].now + moments[i].step.delay
    ensures states[i + 1].d.attemptCount == states[i].d.attemptCount - 1
  {
    hide ChargedIn, NextNumber, Started;
    AllowanceIsCharged(policy, states, moments, i);
    AllowanceIsCharged(policy, states, moments, i + 1);
    assert Next(policy, states[i], moments[i].step, moments[i].now, states[i + 1], moments[i].result);
  }

  /** While a claim holds the delivery nothing else changes the count, so an outage restores what it was before the start. */
  lemma {:induction false} OutageRestoresAllowance(policy: Policy, states: seq<System>, moments: seq<Moment>, i: nat, j: nat)
    requires Behaviour(policy, states, moments) && i < j < |moments| && policy.maxAttempts > 0
    requires moments[i].step.Start? && moments[i].result.Claimed?
    requires moments[j].step.FinishFailure? && moments[j].step.failure == Infrastructure && moments[j].step.claim == moments[i].result.claim
    requires Holds(states[j].d, moments[j].step.claim)
    ensures states[j + 1].d.attemptCount == states[i].d.attemptCount
  {
    hide ChargedIn, NextNumber, Started, Inv, Next;
    ClaimedCount(policy, states, moments, i);
    HeldCount(policy, states, moments, moments[i].result.claim, i + 1, j);
    OutageIsFree(policy, states, moments, j);
  }

  lemma ClaimedCount(policy: Policy, states: seq<System>, moments: seq<Moment>, i: nat)
    requires Behaviour(policy, states, moments) && i < |moments| && policy.maxAttempts > 0
    requires moments[i].step.Start? && moments[i].result.Claimed?
    ensures states[i + 1].d.attemptCount == states[i].d.attemptCount + 1 && Holds(states[i + 1].d, moments[i].result.claim)
    ensures moments[i].result.claim in states[i + 1].claims
  {
    hide ChargedIn, NextNumber, Inv, Started;
    BehaviourInv(policy, states, moments, i);
    AllowanceIsCharged(policy, states, moments, i);
    StartClaimsIff(policy, states[i], moments[i].now, states[i].nextToken, moments[i].step.contract);
    assert Next(policy, states[i], moments[i].step, moments[i].now, states[i + 1], moments[i].result);
  }

  lemma HeldStep(policy: Policy, s: System, step: Step, now: int, s': System, result: Result, claim: Claim)
    requires Inv(policy, s) && Next(policy, s, step, now, s', result) && claim in s.claims && Holds(s'.d, claim)
    ensures claim in s'.claims && Holds(s.d, claim) && s'.d.attemptCount == s.d.attemptCount
  {
    hide NextNumber, Interrupted, NumbersOk, OnceOk;
  }

  lemma {:induction false} HeldCount(policy: Policy, states: seq<System>, moments: seq<Moment>, claim: Claim, i: nat, j: nat)
    requires Behaviour(policy, states, moments) && i <= j < |states| && claim in states[i].claims && Holds(states[j].d, claim)
    ensures claim in states[j].claims && states[j].d.attemptCount == states[i].d.attemptCount
    decreases j
  {
    hide Inv, Next, Holds;
    if i < j {
      ClaimsStay(policy, states, moments, claim, i, j - 1);
      BehaviourInv(policy, states, moments, j - 1);
      HeldStep(policy, states[j - 1], moments[j - 1].step, moments[j - 1].now, states[j], moments[j - 1].result, claim);
      HeldCount(policy, states, moments, claim, i, j - 1);
    }
  }

  lemma {:induction false} ClaimsStay(policy: Policy, states: seq<System>, moments: seq<Moment>, claim: Claim, i: nat, j: nat)
    requires Behaviour(policy, states, moments) && i <= j < |states| && claim in states[i].claims
    ensures claim in states[j].claims
    decreases j
  {
    hide Started, Effected, FailureFinished, Recovered, RelayClaimed;
    if i < j {
      ClaimsStay(policy, states, moments, claim, i, j - 1);
      assert Next(policy, states[j - 1], moments[j - 1].step, moments[j - 1].now, states[j], moments[j - 1].result);
    }
  }

  /** A worker that died is replaced: once its lease has expired, recovery makes the delivery ready at once. */
  lemma RecoveredComesBack(policy: Policy, states: seq<System>, moments: seq<Moment>, i: nat)
    requires Behaviour(policy, states, moments) && i < |moments| && policy.maxAttempts > 0
    requires moments[i].step == Recover && Lapsed(states[i].d, moments[i].now) && !Exhausted(policy, states[i].d)
    ensures Ready(policy, states[i + 1].d, moments[i].now) && states[i + 1].d.attemptCount == states[i].d.attemptCount
  {
    hide ChargedIn, NextNumber, Started, Interrupted;
    BehaviourInv(policy, states, moments, i);
    AllowanceIsCharged(policy, states, moments, i);
    AllowanceIsCharged(policy, states, moments, i + 1);
    assert Next(policy, states[i], moments[i].step, moments[i].now, states[i + 1], moments[i].result);
  }

  /** An operator's replay of a failed delivery opens a new cycle with the whole allowance. */
  lemma ReplayedComesBack(policy: Policy, states: seq<System>, moments: seq<Moment>, i: nat)
    requires Behaviour(policy, states, moments) && i < |moments| && policy.maxAttempts > 0
    requires moments[i].step == Replay && states[i].d.status == Failed
    ensures Ready(policy, states[i + 1].d, moments[i].now) && states[i + 1].d.attemptCount == 0 && states[i + 1].d.cycle == states[i].d.cycle + 1
    ensures states[i + 1].d.attempts == states[i].d.attempts
  {
    hide ChargedIn, NextNumber, Started;
    BehaviourInv(policy, states, moments, i);
    AllowanceIsCharged(policy, states, moments, i + 1);
    assert Next(policy, states[i], moments[i].step, moments[i].now, states[i + 1], moments[i].result);
  }

  /** A handler's outcome is committed as its receipt exactly when its claim holds the delivery within its lease. */
  lemma EffectIsCommittedIff(policy: Policy, s: System, claim: Claim, outcome: Outcome, now: int, s': System, result: Result)
    requires Inv(policy, s) && Next(policy, s, Effect(claim, outcome), now, s', result)
    ensures if Holds(s.d, claim) && now < s.d.lease.value.expiresAt
            then result == Acknowledge && s'.d.status == Succeeded && s'.d.receipt == Some(outcome) && s'.d.effects == s.d.effects + 1
                 && s'.d.attempts[|s.d.attempts| - 1].status == Done(outcome)
            else s' == s && result == Retained
  {
    hide NumbersOk;
    if Holds(s.d, claim) { HolderIsNewest(s, claim); }
  }

  /** A worker that starts or finishes an attempt it holds is told to acknowledge exactly when the outcome is final. */
  lemma AcknowledgedIff(policy: Policy, s: System, step: Step, now: int, s': System, result: Result)
    requires Inv(policy, s) && Next(policy, s, step, now, s', result)
    requires step.Start? || (step.FinishFailure? && Holds(s.d, step.claim))
    ensures result == Acknowledge <==> s'.d.status == Succeeded || s'.d.status == Failed
  {
    hide NextNumber, Interrupted, NumbersOk, TokensOk;
  }

  // ---------------------------------------------------------------------------
  // The relay

  predicate ByRelay(step: Step) {
    step.RelayClaim? || step.ObservePublication? || step.DeferRelay? || step.ResetObservation?
  }

  /** Publishing touches only the lease and the publication time of a delivery that waits. */
  lemma RelayLeavesExecution(policy: Policy, s: System, step: Step, now: int, s': System, result: Result)
    requires Next(policy, s, step, now, s', result) && ByRelay(step)
    ensures s'.d == s.d.(lease := s'.d.lease, publishedAt := s'.d.publishedAt) && (s.d.status != Pending ==> s'.d == s.d)
  {
    hide Started, Effected, FailureFinished, Recovered;
  }

  /** One relay at a time: until its lease expires no other relay can claim the delivery. */
  lemma RelayClaimExcludes(d: Delivery, now: int, token: nat, lease: nat, after: nat, later: int, other: nat, lease': nat, after': nat)
    requires RelayClaimed(d, now, token, lease, after) != d && now <= later < now + lease
    ensures RelayClaimed(RelayClaimed(d, now, token, lease, after), later, other, lease', after') == RelayClaimed(d, now, token, lease, after)
  {
  }

  /** A publication is noted exactly under the relay's own running lease, which it ends; the delivery is then left alone until it is due for another. */
  lemma PublicationIsNoted(d: Delivery, token: nat, now: int, later: int, other: nat, lease: nat, after: nat)
    requires d.status == Pending && d.lease.Some? && d.lease.value.token == token && now < d.lease.value.expiresAt && d.nextAttemptAt <= now <= later
    ensures PublicationObserved(d, token, now).publishedAt == Some(now) && PublicationObserved(d, token, now).lease == None
    ensures RelayClaimed(PublicationObserved(d, token, now), later, other, lease, after).lease.Some? <==> now + after <= later
    ensures forall stranger: nat :: stranger != token ==> PublicationObserved(d, stranger, now) == d
  {
  }
}
