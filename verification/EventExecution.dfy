/**
 Execution of one event by one consumer: the delivery row, its persisted attempts and its receipt,
 changed by any number of workers, relays, recoveries and operator replays.

 Each function below is one PostgreSQL transaction holding the delivery's row lock, hence one atomic
 step. Workers keep claims in memory between steps, may crash at any point, and may come back with a
 claim long after somebody else recovered the delivery.
 */
module EventExecution {
  import opened Options

  datatype Status = Pending | Processing | Succeeded | Failed

  datatype Outcome = Processed | Skipped

  /** The claim columns are all set or all empty; consumers and the relay share them. */
  datatype Lease = Lease(token: nat, expiresAt: int)

  datatype Failure = Infrastructure | Permanent | Retryable

  /** Why an attempt was recorded as failed. */
  datatype Cause = Interruption | ContractRejection | Reported(failure: Failure)

  datatype AttemptStatus = Running | Done(outcome: Outcome) | Abandoned(cause: Cause)

  datatype Attempt = Attempt(cycle: nat, number: nat, token: nat, status: AttemptStatus)

  /** `effects` counts the handler effects that have been committed. */
  datatype Delivery = Delivery(
    status: Status,
    attemptCount: int,
    cycle: nat,
    nextAttemptAt: int,
    publishedAt: Option<int>,
    lease: Option<Lease>,
    attempts: seq<Attempt>,
    receipt: Option<Outcome>,
    effects: nat)

  /** What a worker remembers after starting an attempt. */
  datatype Claim = Claim(token: nat, attempt: nat)

  datatype Policy = Policy(maxAttempts: nat, leaseSeconds: nat)

  /** How the stored contract and the registry look to this worker. */
  datatype Contract = Accepted | Rejected | NotSubscribed | NoHandler

  datatype Result =
    | Acknowledge
    | Retained
    | Claimed(claim: Claim)

  function Cleared(d: Delivery): Delivery {
    d.(lease := None)
  }

  function LeaseActive(d: Delivery, now: int): bool {
    d.lease.Some? && d.lease.value.expiresAt > now
  }

  /** Every running attempt of the delivery is recorded as interrupted. */
  function Interrupted(attempts: seq<Attempt>): (r: seq<Attempt>)
    ensures |r| == |attempts|
    ensures forall i :: 0 <= i < |r| ==> r[i] == if attempts[i].status == Running then attempts[i].(status := Abandoned(Interruption)) else attempts[i]
  {
    seq(|attempts|, i requires 0 <= i < |attempts| => if attempts[i].status == Running then attempts[i].(status := Abandoned(Interruption)) else attempts[i])
  }

  /** Retained history numbers attempts per cycle, independently of the charged count. */
  function NextNumber(attempts: seq<Attempt>, cycle: nat): nat {
    if attempts == [] then 1 else
      var last := attempts[|attempts| - 1];
      var rest := NextNumber(attempts[..|attempts| - 1], cycle);
      if last.cycle == cycle && last.number >= rest then last.number + 1 else rest
  }

  // ---------------------------------------------------------------------------
  // The transactions

  /** The last part of starting: the delivery is due and not held. */
  function Begun(d: Delivery, policy: Policy, now: int, token: nat, contract: Contract): (Delivery, Result) {
    if contract == NotSubscribed || contract == NoHandler then (d, Retained)
    else if d.attemptCount >= policy.maxAttempts then (Cleared(d.(status := Failed)), Acknowledge)
    else
      var attempt := Attempt(d.cycle, NextNumber(d.attempts, d.cycle), token, if contract == Rejected then Abandoned(ContractRejection) else Running);
      var d' := d.(attempts := d.attempts + [attempt], attemptCount := d.attemptCount + 1);
      if contract == Rejected then (Cleared(d'.(status := Failed)), Acknowledge)
      else (d'.(status := Processing, lease := Some(Lease(token, now + policy.leaseSeconds))), Claimed(Claim(token, |d.attempts|)))
  }

  function Started(d: Delivery, policy: Policy, now: int, token: nat, contract: Contract): (Delivery, Result) {
    if d.receipt.Some? && d.status == Succeeded then (d, Acknowledge)
    else if d.status == Failed then (d, Acknowledge)
    else if d.status == Succeeded || d.receipt.Some? then (d, Retained)
    else if d.nextAttemptAt > now then (d, Retained)
    else if d.status == Processing then
      if LeaseActive(d, now) then (d, Retained)
      else
        var released := Cleared(d.(attempts := Interrupted(d.attempts), status := Pending));
        if d.attemptCount >= policy.maxAttempts then (released.(status := Failed), Acknowledge)
        else Begun(released, policy, now, token, contract)
    else Begun(d, policy, now, token, contract)
  }

  predicate Holds(d: Delivery, claim: Claim) {
    d.status == Processing && d.lease.Some? && d.lease.value.token == claim.token && claim.attempt < |d.attempts|
  }

  /** Handler effect, receipt, success and attempt outcome commit together, or nothing does. */
  function Effected(d: Delivery, claim: Claim, now: int, outcome: Outcome): (Delivery, Result) {
    if !Holds(d, claim) || !LeaseActive(d, now) then (d, Retained)
    else
      (Cleared(d.(status := Succeeded, receipt := Some(outcome), effects := d.effects + 1,
                  attempts := d.attempts[claim.attempt := d.attempts[claim.attempt].(status := Done(outcome))])),
       Acknowledge)
  }

  /** An observed failure of the claimed attempt; an outage does not consume the allowance. */
  function FailureFinished(d: Delivery, policy: Policy, claim: Claim, now: int, failure: Failure, delay: nat): (Delivery, Result) {
    if !Holds(d, claim) then (d, Retained)
    else
      var count := if failure == Infrastructure then d.attemptCount - 1 else d.attemptCount;
      var terminal := failure == Permanent || (failure != Infrastructure && count >= policy.maxAttempts);
      (Cleared(d.(status := if terminal then Failed else Pending, attemptCount := count,
                  nextAttemptAt := now + delay, publishedAt := None,
                  attempts := d.attempts[claim.attempt := d.attempts[claim.attempt].(status := Abandoned(Reported(failure)))])),
       if terminal then Acknowledge else Retained)
  }

  function Recovered(d: Delivery, policy: Policy, now: int): Delivery {
    if d.status == Processing && d.lease.Some? && d.lease.value.expiresAt <= now then
      Cleared(d.(status := if d.attemptCount >= policy.maxAttempts then Failed else Pending,
                 attempts := Interrupted(d.attempts), nextAttemptAt := now, publishedAt := None))
    else d
  }

  function RelayClaimed(d: Delivery, now: int, token: nat, leaseSeconds: nat, republishAfter: nat): Delivery {
    if d.status == Pending && d.nextAttemptAt <= now && !LeaseActive(d, now)
       && (d.publishedAt.None? || d.publishedAt.value <= now - republishAfter)
    then d.(lease := Some(Lease(token, now + leaseSeconds))) else d
  }

  predicate RelayHolds(d: Delivery, token: nat, now: int) {
    d.status == Pending && d.lease.Some? && d.lease.value.token == token && d.lease.value.expiresAt > now
  }

  function PublicationObserved(d: Delivery, token: nat, now: int): Delivery {
    if RelayHolds(d, token, now) then Cleared(d.(publishedAt := Some(now))) else d
  }

  function RelayDeferred(d: Delivery, token: nat, now: int, retryAfter: nat): Delivery {
    if RelayHolds(d, token, now) then d.(lease := Some(Lease(token, now + retryAfter))) else d
  }

  function ObservationReset(d: Delivery, now: int, cutoff: int): Delivery {
    if d.status == Pending && d.nextAttemptAt <= now && d.publishedAt.Some? && d.publishedAt.value <= cutoff && !LeaseActive(d, now)
    then Cleared(d.(publishedAt := None)) else d
  }

  function Replayed(d: Delivery, now: int): Delivery {
    if d.status == Failed && d.receipt.None? then
      Cleared(d.(cycle := d.cycle + 1, attemptCount := 0, status := Pending, nextAttemptAt := now, publishedAt := None))
    else d
  }

  // ---------------------------------------------------------------------------
  // Any interleaving

  datatype Step =
    | Start(contract: Contract)
    | FindBusy(subscribed: bool)  // the row is locked by somebody else or missing
    | Effect(claim: Claim, outcome: Outcome)
    | FinishFailure(claim: Claim, failure: Failure, delay: nat)
    | Recover
    | RelayClaim(republishAfter: nat)
    | ObservePublication(relayToken: nat)
    | DeferRelay(relayToken: nat, retryAfter: nat)
    | ResetObservation(cutoff: int)
    | Replay

  /** The delivery, every claim ever handed to a worker, and the tokens drawn so far. */
  datatype System = System(d: Delivery, claims: set<Claim>, nextToken: nat)

  /** A step at time `now`; a worker may only present a claim it was given. */
  ghost predicate Next(policy: Policy, s: System, step: Step, now: int, s': System, result: Result) {
    match step
    case Start(contract) =>
      var (d, r) := Started(s.d, policy, now, s.nextToken, contract);
      result == r && s' == After(s, d, r)
    case FindBusy(subscribed) => s' == s && result == if subscribed then Retained else Acknowledge
    case Effect(claim, outcome) =>
      claim in s.claims &&
      var (d, r) := Effected(s.d, claim, now, outcome);
      result == r && s' == s.(d := d)
    case FinishFailure(claim, failure, delay) =>
      claim in s.claims &&
      var (d, r) := FailureFinished(s.d, policy, claim, now, failure, delay);
      result == r && s' == s.(d := d)
    case Recover => result == Retained && s' == s.(d := Recovered(s.d, policy, now))
    case RelayClaim(republishAfter) =>
      result == Retained &&
      s' == System(RelayClaimed(s.d, now, s.nextToken, policy.leaseSeconds, republishAfter), s.claims, s.nextToken + 1)
    case ObservePublication(token) => result == Retained && s' == s.(d := PublicationObserved(s.d, token, now))
    case DeferRelay(token, retryAfter) => result == Retained && s' == s.(d := RelayDeferred(s.d, token, now, retryAfter))
    case ResetObservation(cutoff) => result == Retained && s' == s.(d := ObservationReset(s.d, now, cutoff))
    case Replay => result == Retained && s' == s.(d := Replayed(s.d, now))
  }

  predicate Init(s: System) {
    && s.d.status == Pending && s.d.attemptCount == 0 && s.d.cycle == 0 && s.d.publishedAt == None && s.d.lease == None
    && s.d.attempts == [] && s.d.receipt == None && s.d.effects == 0 && s.claims == {}
  }

  // ---------------------------------------------------------------------------
  // What every step keeps

  /** Success, the receipt and the one committed effect come and stay together. */
  predicate OnceOk(d: Delivery) {
    && (d.status == Succeeded <==> d.receipt.Some?)
    && d.effects == (if d.receipt.Some? then 1 else 0)
  }

  predicate CountOk(policy: Policy, d: Delivery) {
    && 0 <= d.attemptCount <= policy.maxAttempts
    && (d.status == Processing ==> d.attemptCount >= 1)
  }

  /** Exactly the delivery being processed has a running attempt: its newest, under its lease's token. */
  predicate RunningOk(d: Delivery) {
    && (d.status == Processing ==> d.lease.Some? && |d.attempts| > 0)
    && (d.status == Processing ==> var last := d.attempts[|d.attempts| - 1]; last.status == Running && last.token == d.lease.value.token)
    && (forall i :: 0 <= i < |d.attempts| && d.attempts[i].status == Running ==> d.status == Processing && i == |d.attempts| - 1)
    && (d.status == Succeeded || d.status == Failed ==> d.lease == None)
  }

  /** Tokens are never drawn twice, and a relay's token never names an attempt. */
  predicate TokensOk(s: System) {
    && (forall i :: 0 <= i < |s.d.attempts| ==> s.d.attempts[i].token < s.nextToken)
    && (forall i, j :: 0 <= i < j < |s.d.attempts| ==> s.d.attempts[i].token < s.d.attempts[j].token)
    && (s.d.lease.Some? ==> s.d.lease.value.token < s.nextToken)
    && (s.d.status == Pending && s.d.lease.Some? ==> forall i :: 0 <= i < |s.d.attempts| ==> s.d.attempts[i].token != s.d.lease.value.token)
    && (forall c :: c in s.claims ==> c.attempt < |s.d.attempts| && s.d.attempts[c.attempt].token == c.token)
  }

  /** Within a cycle the retained numbers rise, so (cycle, number) never repeats. */
  predicate NumbersOk(d: Delivery) {
    && (forall i :: 0 <= i < |d.attempts| ==> d.attempts[i].cycle <= d.cycle && d.attempts[i].number >= 1)
    && (forall i, j :: 0 <= i < j < |d.attempts| ==>
          d.attempts[i].cycle < d.attempts[j].cycle || (d.attempts[i].cycle == d.attempts[j].cycle && d.attempts[i].number < d.attempts[j].number))
  }

  predicate Inv(policy: Policy, s: System) {
    OnceOk(s.d) && CountOk(policy, s.d) && RunningOk(s.d) && TokensOk(s) && NumbersOk(s.d)
  }

  lemma {:induction false} NextNumberExceeds(attempts: seq<Attempt>, cycle: nat)
    ensures NextNumber(attempts, cycle) >= 1
    ensures forall i :: 0 <= i < |attempts| && attempts[i].cycle == cycle ==> attempts[i].number < NextNumber(attempts, cycle)
  {
    if attempts != [] {
      var n := |attempts| - 1;
      NextNumberExceeds(attempts[..n], cycle);
      assert forall i :: 0 <= i < n ==> attempts[..n][i] == attempts[i];
    }
  }

  /** A claim that still holds the delivery points at its one running attempt. */
  lemma HolderIsNewest(s: System, claim: Claim)
    requires RunningOk(s.d) && TokensOk(s) && claim in s.claims && Holds(s.d, claim)
    ensures claim.attempt == |s.d.attempts| - 1 && s.d.attempts[claim.attempt].status == Running
  {
    var last := |s.d.attempts| - 1;
    assert s.d.attempts[last].token == s.d.attempts[claim.attempt].token;
  }

  lemma BegunInv(policy: Policy, s: System, now: int, contract: Contract)
    requires Inv(policy, s) && s.d.status == Pending
    ensures var (d, r) := Begun(s.d, policy, now, s.nextToken, contract);
            && Inv(policy, After(s, d, r))
            && (r == Acknowledge ==> d.status == Failed)
  {
    NextNumberExceeds(s.d.attempts, s.d.cycle);
    hide NextNumber;
  }

  /** Interrupting the running attempt and giving up the lease, whether to retry or to stop. */
  lemma ReleasedInv(policy: Policy, s: System, next: Status)
    requires Inv(policy, s) && s.d.status == Processing && (next == Pending || next == Failed)
    ensures Inv(policy, s.(d := Cleared(s.d.(attempts := Interrupted(s.d.attempts), status := next))))
  {
    var before := s.d.attempts;
    var after := Interrupted(before);
    assert forall i :: 0 <= i < |before| ==> after[i].token == before[i].token && after[i].cycle == before[i].cycle && after[i].number == before[i].number;
    assert forall i :: 0 <= i < |before| ==> after[i].status != Running;
    hide Interrupted;
  }

  lemma OnceHolds(policy: Policy, s: System)
    requires Inv(policy, s)
    ensures OnceOk(s.d) && (s.d.lease.Some? ==> s.d.lease.value.token < s.nextToken)
  {
  }

  /** The system after a worker tried to start at `d` with result `r`. */
  function After(s: System, d: Delivery, r: Result): System {
    System(d, if r.Claimed? then s.claims + {r.claim} else s.claims, s.nextToken + 1)
  }

  lemma TakeOverInv(policy: Policy, s: System, now: int, contract: Contract)
    requires Inv(policy, s) && s.d.status == Processing
    ensures var released := Cleared(s.d.(attempts := Interrupted(s.d.attempts), status := Pending));
            var (d, r) := Begun(released, policy, now, s.nextToken, contract);
            && Inv(policy, After(s, d, r)) && (r == Acknowledge ==> d.status == Failed)
            && Inv(policy, After(s, released.(status := Failed), Acknowledge))
  {
    hide Begun, Inv, Interrupted;
    var released := Cleared(s.d.(attempts := Interrupted(s.d.attempts), status := Pending));
    ReleasedInv(policy, s, Failed);
    UnchangedInv(policy, s.(d := released.(status := Failed)), s.nextToken + 1);
    ReleasedInv(policy, s, Pending);
    BegunInv(policy, s.(d := released), now, contract);
  }

  lemma StartInv(policy: Policy, s: System, now: int, contract: Contract)
    requires Inv(policy, s)
    ensures var (d, r) := Started(s.d, policy, now, s.nextToken, contract);
            && Inv(policy, After(s, d, r))
            && (r == Acknowledge ==> d.status == Failed || (d.status == Succeeded && d.receipt.Some?))
  {
    hide Begun, Inv, Interrupted, After;
    OnceHolds(policy, s);
    UnchangedInv(policy, s, s.nextToken + 1);
    UnclaimedAfter(s, Acknowledge);
    UnclaimedAfter(s, Retained);
    if s.d.status == Processing {
      TakeOverInv(policy, s, now, contract);
    } else if s.d.status == Pending {
      BegunInv(policy, s, now, contract);
    }
  }

  lemma UnclaimedAfter(s: System, r: Result)
    requires !r.Claimed?
    ensures After(s, s.d, r) == s.(nextToken := s.nextToken + 1)
  {
  }

  lemma EffectInv(policy: Policy, s: System, claim: Claim, now: int, outcome: Outcome)
    requires Inv(policy, s) && claim in s.claims
    ensures Inv(policy, s.(d := Effected(s.d, claim, now, outcome).0))
  {
    if Holds(s.d, claim) {
      HolderIsNewest(s, claim);
    }
  }

  lemma FailureInv(policy: Policy, s: System, claim: Claim, now: int, failure: Failure, delay: nat)
    requires Inv(policy, s) && claim in s.claims
    ensures Inv(policy, s.(d := FailureFinished(s.d, policy, claim, now, failure, delay).0))
  {
    if Holds(s.d, claim) {
      HolderIsNewest(s, claim);
    }
  }

  lemma PendingInv(policy: Policy, s: System, d': Delivery, nextToken: nat)
    requires Inv(policy, s) && s.d.status == Pending && s.nextToken <= nextToken
    requires d' == s.d.(lease := d'.lease, publishedAt := d'.publishedAt)
    requires d'.lease.Some? ==> d'.lease.value.token < nextToken
    requires d'.lease.Some? ==> d'.lease.value.token == s.nextToken || (s.d.lease.Some? && d'.lease.value.token == s.d.lease.value.token)
    ensures Inv(policy, System(d', s.claims, nextToken))
  {
  }

  lemma UnchangedInv(policy: Policy, s: System, nextToken: nat)
    requires Inv(policy, s) && s.nextToken <= nextToken
    ensures Inv(policy, s.(nextToken := nextToken))
  {
  }

  lemma RelayInv(policy: Policy, s: System, now: int, token: nat, republishAfter: nat, retryAfter: nat, cutoff: int)
    requires Inv(policy, s)
    ensures Inv(policy, System(RelayClaimed(s.d, now, s.nextToken, policy.leaseSeconds, republishAfter), s.claims, s.nextToken + 1))
    ensures Inv(policy, s.(d := PublicationObserved(s.d, token, now)))
    ensures Inv(policy, s.(d := RelayDeferred(s.d, token, now, retryAfter)))
    ensures Inv(policy, s.(d := ObservationReset(s.d, now, cutoff)))
  {
    hide Inv;
    OnceHolds(policy, s);
    UnchangedInv(policy, s, s.nextToken + 1);
    if s.d.status == Pending {
      PendingInv(policy, s, RelayClaimed(s.d, now, s.nextToken, policy.leaseSeconds, republishAfter), s.nextToken + 1);
      PendingInv(policy, s, PublicationObserved(s.d, token, now), s.nextToken);
      PendingInv(policy, s, RelayDeferred(s.d, token, now, retryAfter), s.nextToken);
      PendingInv(policy, s, ObservationReset(s.d, now, cutoff), s.nextToken);
    }
  }

  lemma ReplayInv(policy: Policy, s: System, now: int)
    requires Inv(policy, s)
    ensures Inv(policy, s.(d := Replayed(s.d, now)))
  {
  }

  lemma RecoverInv(policy: Policy, s: System, now: int)
    requires Inv(policy, s)
    ensures Inv(policy, s.(d := Recovered(s.d, policy, now)))
  {
    if s.d.status == Processing {
      ReleasedInv(policy, s, if s.d.attemptCount >= policy.maxAttempts then Failed else Pending);
    }
  }

  lemma NextInv(policy: Policy, s: System, step: Step, now: int, s': System, result: Result)
    requires Inv(policy, s) && Next(policy, s, step, now, s', result)
    ensures Inv(policy, s')
    ensures result == Acknowledge && step != FindBusy(false) ==> s'.d.status == Failed || (s'.d.status == Succeeded && s'.d.receipt.Some?)
  {
    hide Inv, Started, RelayClaimed, PublicationObserved, RelayDeferred, ObservationReset, Replayed, Recovered;
    match step
    case Start(contract) => StartInv(policy, s, now, contract);
    case FindBusy(_) =>
    case Effect(claim, outcome) => EffectInv(policy, s, claim, now, outcome);
    case FinishFailure(claim, failure, delay) => FailureInv(policy, s, claim, now, failure, delay);
    case Recover => RecoverInv(policy, s, now);
    case RelayClaim(after) => RelayInv(policy, s, now, 0, after, 0, 0);
    case ObservePublication(token) => RelayInv(policy, s, now, token, 0, 0, 0);
    case DeferRelay(token, after) => RelayInv(policy, s, now, token, 0, after, 0);
    case ResetObservation(cutoff) => RelayInv(policy, s, now, 0, 0, 0, cutoff);
    case Replay => ReplayInv(policy, s, now);
  }

  // ---------------------------------------------------------------------------
  // The promises, over every interleaving

  datatype Moment = Moment(step: Step, now: int, result: Result)

  ghost predicate Behaviour(policy: Policy, states: seq<System>, moments: seq<Moment>) {
    && |states| == |moments| + 1
    && Init(states[0])
    && forall i :: 0 <= i < |moments| ==> Next(policy, states[i], moments[i].step, moments[i].now, states[i + 1], moments[i].result)
  }

  lemma {:induction false} BehaviourInv(policy: Policy, states: seq<System>, moments: seq<Moment>, i: nat)
    requires Behaviour(policy, states, moments) && i < |states|
    ensures Inv(policy, states[i])
  {
    if i > 0 {
      BehaviourInv(policy, states, moments, i - 1);
      NextInv(policy, states[i - 1], moments[i - 1].step, moments[i - 1].now, states[i], moments[i - 1].result);
    }
  }

  /** The handler's effect is committed at most once, exactly when the delivery has succeeded and is receipted. */
  lemma EffectAtMostOnce(policy: Policy, states: seq<System>, moments: seq<Moment>, i: nat)
    requires Behaviour(policy, states, moments) && i < |states|
    ensures var d := states[i].d;
            d.effects <= 1 && (d.effects == 1 <==> d.status == Succeeded) && (d.effects == 1 <==> d.receipt.Some?)
  {
    BehaviourInv(policy, states, moments, i);
  }

  /**
   No worker is told to acknowledge before the outcome is durable, except one whose consumer does not
   subscribe to the event and that finds no row to lock: it acknowledges and changes nothing.
   */
  lemma AcknowledgedIsDurable(policy: Policy, states: seq<System>, moments: seq<Moment>, i: nat)
    requires Behaviour(policy, states, moments) && i < |moments| && moments[i].result == Acknowledge
    ensures var d := states[i + 1].d;
            if moments[i].step == FindBusy(false) then states[i + 1] == states[i]
            else d.status == Failed || (d.status == Succeeded && d.receipt.Some? && d.effects == 1)
  {
    BehaviourInv(policy, states, moments, i);
    NextInv(policy, states[i], moments[i].step, moments[i].now, states[i + 1], moments[i].result);
  }

  /** Nothing that happens after success changes what was committed. */
  lemma {:induction false} SuccessIsFinal(policy: Policy, states: seq<System>, moments: seq<Moment>, i: nat, j: nat)
    requires Behaviour(policy, states, moments) && i <= j < |states| && states[i].d.status == Succeeded
    ensures states[j].d == states[i].d
  {
    if i < j {
      SuccessIsFinal(policy, states, moments, i, j - 1);
      BehaviourInv(policy, states, moments, j - 1);
      assert Next(policy, states[j - 1], moments[j - 1].step, moments[j - 1].now, states[j], moments[j - 1].result);
    }
  }

  /** An attempt that has stopped running, for whatever reason, never runs again. */
  lemma {:induction false} StoppedStaysStopped(policy: Policy, states: seq<System>, moments: seq<Moment>, i: nat, j: nat, k: nat)
    requires Behaviour(policy, states, moments) && i <= j < |states|
    requires k < |states[i].d.attempts| && states[i].d.attempts[k].status != Running
    ensures k < |states[j].d.attempts| && states[j].d.attempts[k].status != Running
  {
    hide Inv, Next;
    if i < j {
      StoppedStaysStopped(policy, states, moments, i, j - 1, k);
      BehaviourInv(policy, states, moments, j - 1);
      StoppedStep(policy, states[j - 1], moments[j - 1].step, moments[j - 1].now, states[j], moments[j - 1].result, k);
    }
  }

  lemma StoppedStep(policy: Policy, s: System, step: Step, now: int, s': System, result: Result, k: nat)
    requires Inv(policy, s) && Next(policy, s, step, now, s', result)
    requires k < |s.d.attempts| && s.d.attempts[k].status != Running
    ensures k < |s'.d.attempts| && s'.d.attempts[k].status != Running
  {
    hide NextNumber, OnceOk, CountOk, NumbersOk;
  }

  /**
   The fence: a worker whose attempt was interrupted, replaced or replayed can afterwards neither
   commit an effect nor charge a failure, however late it comes back and whoever holds the delivery.
   */
  lemma StaleClaimIsInert(policy: Policy, states: seq<System>, moments: seq<Moment>, i: nat, j: nat, claim: Claim,
                          now: int, outcome: Outcome, failure: Failure, delay: nat)
    requires Behaviour(policy, states, moments) && i <= j < |states|
    requires claim in states[i].claims && claim in states[j].claims && claim.attempt < |states[i].d.attempts|
    requires states[i].d.attempts[claim.attempt].status != Running
    ensures Effected(states[j].d, claim, now, outcome) == (states[j].d, Retained)
    ensures FailureFinished(states[j].d, policy, claim, now, failure, delay) == (states[j].d, Retained)
  {
    StoppedStaysStopped(policy, states, moments, i, j, claim.attempt);
    BehaviourInv(policy, states, moments, j);
    if Holds(states[j].d, claim) {
      HolderIsNewest(states[j], claim);
    }
  }

  /** The table's constraints hold throughout, and the retry policy is never asked for attempt zero. */
  lemma ConstraintsHold(policy: Policy, states: seq<System>, moments: seq<Moment>, i: nat)
    requires Behaviour(policy, states, moments) && i < |states|
    ensures var d := states[i].d;
            && 0 <= d.attemptCount <= policy.maxAttempts
            && (forall claim :: Holds(d, claim) ==> d.attemptCount >= 1 && d.receipt.None?)
            && (forall a, b :: 0 <= a < b < |d.attempts| ==> (d.attempts[a].cycle, d.attempts[a].number) != (d.attempts[b].cycle, d.attempts[b].number))
            && !(d.receipt.Some? && d.status != Succeeded) && !(d.receipt.None? && d.status == Succeeded)
  {
    BehaviourInv(policy, states, moments, i);
  }
}
