/**
 What a renewal's outcome means and what follows from it: a renewal succeeds exactly when, while it held the
 lock, the session turned out to be good or was refreshed; and exactly then the requests that waited for it
 are sent again.
 */
module SessionOutcomes {
  import opened Options
  import opened SessionRenewal

  /** The hold of the lock that a renewal has or had. */
  function HoldOf(p: Phase): Option<nat> {
    if Inside(p) then Some(p.hold) else if p.Settled? then p.within else None
  }

  /** In this hold /auth/me answered 2xx, or the refresh POST ended well. */
  predicate Proves(e: Event, hold: nat) {
    || (e.MeAnswered? && e.hold == hold && 200 <= e.status < 300)
    || (e.PostEnded? && e.hold == hold && e.ok)
  }

  ghost predicate Proved(log: seq<Event>, hold: nat) {
    exists k :: 0 <= k < |log| && Proves(log[k], hold)
  }

  lemma ProvedMore(log: seq<Event>, e: Event, hold: nat)
    ensures Proved(log + [e], hold) <==> Proved(log, hold) || Proves(e, hold)
  {
    var longer := log + [e];
    if Proved(log, hold) {
      var k :| 0 <= k < |log| && Proves(log[k], hold);
      assert Proves(longer[k], hold);
    }
    if Proves(e, hold) { assert Proves(longer[|log|], hold); }
    if Proved(longer, hold) {
      var k :| 0 <= k < |longer| && Proves(longer[k], hold);
      assert k < |log| ==> Proves(log[k], hold);
    }
  }

  /** Every hold has its number, no two renewals share one, and nothing is proved of a hold yet to come. */
  ghost predicate HoldsOk(s: State) {
    && (forall r :: r in s.renewals ==> Numbered(s, r))
    && (forall q, r :: q in s.renewals && r in s.renewals && q != r ==> Apart(s, q, r))
    && (forall h: nat :: Proved(s.log, h) ==> h < s.holds)
  }

  predicate Numbered(s: State, r: nat)
    requires r in s.renewals
  {
    HoldOf(s.renewals[r].phase).Some? ==> HoldOf(s.renewals[r].phase).value < s.holds
  }

  predicate Apart(s: State, q: nat, r: nat)
    requires q in s.renewals && r in s.renewals
  {
    HoldOf(s.renewals[q].phase).Some? ==> HoldOf(s.renewals[q].phase) != HoldOf(s.renewals[r].phase)
  }

  ghost predicate OutcomeOk(log: seq<Event>, p: Phase) {
    && (Inside(p) ==> !Proved(log, p.hold))
    && (p.Settled? ==> (p.ok <==> p.within.Some? && Proved(log, p.within.value)))
  }

  ghost predicate OutcomesOk(s: State) {
    forall r :: r in s.renewals ==> OutcomeOk(s.log, s.renewals[r].phase)
  }

  /** An event about another hold does not change an outcome. */
  lemma OutcomeStays(log: seq<Event>, e: Event, p: Phase)
    requires OutcomeOk(log, p) && (HoldOf(p).Some? ==> !Proves(e, HoldOf(p).value))
    ensures OutcomeOk(log + [e], p)
  {
    hide Proved, Proves;
    if HoldOf(p).Some? { ProvedMore(log, e, HoldOf(p).value); }
  }

  // ---------------------------------------------------------------------------
  // Every step keeps outcomes and log in agreement

  lemma RequestOutcomes(s: State, step: Step)
    requires Inv(s) && HoldsOk(s) && OutcomesOk(s) && Enabled(s, step) && ByRequest(step)
    ensures HoldsOk(Taken(s, step)) && OutcomesOk(Taken(s, step))
  {
    hide Proved, Taken, Enabled, Inv;
    var s' := Taken(s, step);
    NewRenewals(s, step);
    forall r | r in s'.renewals
      ensures Numbered(s', r) && OutcomeOk(s'.log, s'.renewals[r].phase)
    {
      if r in s.renewals { assert Numbered(s, r) && OutcomeOk(s.log, s.renewals[r].phase); }
    }
    forall q, r | q in s'.renewals && r in s'.renewals && q != r
      ensures Apart(s', q, r)
    {
      if q in s.renewals && r in s.renewals { assert Apart(s, q, r); }
    }
  }

  lemma NewRenewals(s: State, step: Step)
    requires Inv(s) && Enabled(s, step) && ByRequest(step)
    ensures var s' := Taken(s, step);
            && s'.log == s.log && s'.holds == s.holds
            && (forall r :: r in s.renewals ==> r in s'.renewals && s'.renewals[r] == s.renewals[r])
            && (forall r :: r in s'.renewals && r !in s.renewals ==> s'.renewals[r].phase == Waiting || s'.renewals[r].phase == Settled(false, None))
  {
    hide FailedSince, RefusedNow, InFlight, LogOk, OwnerOk, RequestsOk, FlagsOk, LockOk;
  }

  lemma CloseOutcomes(s: State, t: nat)
    requires HoldsOk(s) && OutcomesOk(s)
    ensures HoldsOk(Gone(s, t)) && OutcomesOk(Gone(s, t))
  {
    hide Proved;
    var s' := Gone(s, t);
    forall r | r in s'.renewals
      ensures Numbered(s', r) && OutcomeOk(s'.log, s'.renewals[r].phase)
    {
      assert Numbered(s, r) && OutcomeOk(s.log, s.renewals[r].phase);
      OutcomeStays(s.log, PageClosed(t), s.renewals[r].phase);
    }
    forall q, r | q in s'.renewals && r in s'.renewals && q != r
      ensures Apart(s', q, r)
    {
      assert Apart(s, q, r);
    }
    forall h: nat | Proved(s'.log, h)
      ensures h < s'.holds
    {
      ProvedMore(s.log, PageClosed(t), h);
    }
  }

  /** The renewal that a step of the lock moves, if it moves one. */
  function Mover(step: Step): Option<nat> {
    match step
    case Grant(r) => Some(r)
    case Enter(r) => Some(r)
    case MeReply(r, _) => Some(r)
    case MeLost(r) => Some(r)
    case Post(r) => Some(r)
    case PostReply(r, _) => Some(r)
    case _ => None
  }

  lemma MovedAlone(s: State, step: Step)
    requires Enabled(s, step) && ByLock(step)
    ensures var s' := Taken(s, step);
            && s'.renewals.Keys == s.renewals.Keys && s.holds <= s'.holds
            && (forall r :: r in s.renewals && Mover(step) != Some(r) ==> s'.renewals[r] == s.renewals[r])
            && (Mover(step).Some? ==> Mover(step).value in s.renewals)
  {
  }

  /** What the mover becomes. */
  lemma MoverBecomes(s: State, step: Step)
    requires Enabled(s, step) && ByLock(step) && Mover(step).Some?
    ensures Mover(step).value in s.renewals && Mover(step).value in Taken(s, step).renewals
    ensures var p, p' := s.renewals[Mover(step).value].phase, Taken(s, step).renewals[Mover(step).value].phase;
            if step.Grant? then p == Waiting && p' == Entered(s.holds) && Taken(s, step).holds == s.holds + 1
            else
              && Inside(p) && HoldOf(p') == Some(p.hold) && Taken(s, step).holds == s.holds
              && (p'.Settled? ==> (p'.ok <==> Written(s, step).Some? && Proves(Written(s, step).value, p.hold)))
              && (Written(s, step).Some? && Proves(Written(s, step).value, p.hold) ==> p'.Settled?)
  {
  }

  /** Only the mover's own hold is proved by what a step writes. */
  lemma WrittenProves(s: State, step: Step, h: nat)
    requires Enabled(s, step) && Written(s, step).Some? && Proves(Written(s, step).value, h)
    ensures ByLock(step) && Mover(step).Some? && Mover(step).value in s.renewals
    ensures Inside(s.renewals[Mover(step).value].phase) && s.renewals[Mover(step).value].phase.hold == h
  {
  }

  lemma ProvedStep(s: State, step: Step, h: nat)
    requires Enabled(s, step)
    ensures Proved(Taken(s, step).log, h) <==> Proved(s.log, h) || (Written(s, step).Some? && Proves(Written(s, step).value, h))
  {
    hide Taken, Written, Proved, Proves, Enabled;
    LogWritten(s, step);
    if Written(s, step).Some? { ProvedMore(s.log, Written(s, step).value, h); }
    else { assert s.log + [] == s.log; }
  }

  lemma LockOutcomes(s: State, step: Step)
    requires HoldsOk(s) && OutcomesOk(s) && Enabled(s, step) && ByLock(step)
    ensures OutcomesOk(Taken(s, step))
  {
    hide Taken, Enabled, Written, Proved, Proves;
    var s' := Taken(s, step);
    MovedAlone(s, step);
    if Mover(step).Some? { MoverBecomes(s, step); }
    forall r | r in s'.renewals
      ensures OutcomeOk(s'.log, s'.renewals[r].phase)
    {
      var p' := s'.renewals[r].phase;
      assert OutcomeOk(s.log, s.renewals[r].phase) && Numbered(s, r);
      if HoldOf(p').Some? {
        var h := HoldOf(p').value;
        ProvedStep(s, step, h);
        if Written(s, step).Some? && Proves(Written(s, step).value, h) {
          WrittenProves(s, step, h);
          assert Mover(step) != Some(r) ==> Apart(s, r, Mover(step).value);
        }
      }
    }
  }

  lemma LockHolds(s: State, step: Step)
    requires HoldsOk(s) && Enabled(s, step) && ByLock(step)
    ensures HoldsOk(Taken(s, step))
  {
    hide Taken, Enabled, Written, Proved, Proves;
    var s' := Taken(s, step);
    MovedAlone(s, step);
    if Mover(step).Some? { MoverBecomes(s, step); }
    forall r | r in s'.renewals
      ensures Numbered(s', r)
    {
      assert Numbered(s, r);
    }
    forall q, r | q in s'.renewals && r in s'.renewals && q != r
      ensures Apart(s', q, r)
    {
      assert Apart(s, q, r) && Apart(s, r, q) && Numbered(s, q) && Numbered(s, r);
    }
    forall h: nat | Proved(s'.log, h)
      ensures h < s'.holds
    {
      ProvedStep(s, step, h);
      if !Proved(s.log, h) {
        WrittenProves(s, step, h);
        assert Numbered(s, Mover(step).value);
      }
    }
  }

  lemma StepOutcomes(s: State, step: Step)
    requires Inv(s) && HoldsOk(s) && OutcomesOk(s) && Enabled(s, step)
    ensures HoldsOk(Taken(s, step)) && OutcomesOk(Taken(s, step))
  {
    if step.Close? { CloseIsGone(s, step); }
    hide Taken, Enabled, HoldsOk, OutcomesOk, Inv, Gone;
    if ByRequest(step) {
      RequestOutcomes(s, step);
    } else if step.Close? {
      CloseOutcomes(s, step.tab);
    } else {
      LockHolds(s, step);
      LockOutcomes(s, step);
    }
  }

  lemma {:induction false} BehaviourOutcomes(states: seq<State>, steps: seq<Step>, i: nat)
    requires Behaviour(states, steps) && i < |states|
    ensures HoldsOk(states[i]) && OutcomesOk(states[i])
  {
    hide Taken, Enabled, Inv;
    if i > 0 {
      BehaviourOutcomes(states, steps, i - 1);
      BehaviourInv(states, steps, i - 1);
      hide HoldsOk, OutcomesOk;
      StepOutcomes(states[i - 1], steps[i - 1]);
    }
  }

  // ---------------------------------------------------------------------------
  // The promises

  /** A renewal has succeeded if and only if in its hold of the lock /auth/me answered 2xx or its refresh POST ended well. */
  lemma SettledOkIff(states: seq<State>, steps: seq<Step>, i: nat, r: nat)
    requires Behaviour(states, steps) && i < |states| && r in states[i].renewals && states[i].renewals[r].phase.Settled?
    ensures states[i].renewals[r].phase.ok <==>
            states[i].renewals[r].phase.within.Some? && Proved(states[i].log, states[i].renewals[r].phase.within.value)
  {
    hide Proved, Behaviour;
    BehaviourOutcomes(states, steps, i);
    assert OutcomeOk(states[i].log, states[i].renewals[r].phase);
  }

  /** A request that waited is sent a second time if and only if the renewal it waited for succeeded in that sense; otherwise it ends. */
  lemma ResumeSendsIff(states: seq<State>, steps: seq<Step>, i: nat)
    requires Behaviour(states, steps) && i < |steps| && steps[i].Resume?
    ensures var q := steps[i].request;
            && q in states[i].requests && q in states[i + 1].requests && states[i].requests[q].progress.AwaitingRenewal?
            && states[i].requests[q].progress.renewal in states[i].renewals
            && (var p := states[i].renewals[states[i].requests[q].progress.renewal].phase;
                var request := states[i + 1].requests[q];
                && p.Settled?
                && (if p.within.Some? && Proved(states[i].log, p.within.value)
                    then request.progress == SecondSent && request.sent == states[i].requests[q].sent + 1
                    else request.progress == Ended && request.sent == states[i].requests[q].sent))
  {
    hide Proved;
    assert Enabled(states[i], steps[i]) && states[i + 1] == Taken(states[i], steps[i]);
    SettledOkIff(states, steps, i, states[i].requests[steps[i].request].progress.renewal);
  }

  /** A first 401 ends the request if its tab has failed before; otherwise the request waits for the tab's one renewal. Any other reply ends it. */
  lemma FirstReply(states: seq<State>, steps: seq<Step>, i: nat)
    requires Behaviour(states, steps) && i < |steps| && steps[i].Reply? && states[i].requests[steps[i].request].progress == FirstSent
    ensures var q := steps[i].request;
            && q in states[i].requests && q in states[i + 1].requests && states[i].requests[q].tab in states[i + 1].tabs
            && (var request := states[i + 1].requests[q];
                && request.replies == states[i].requests[q].replies + [steps[i].status]
                && (if steps[i].status != 401 || FailedSince(states[i].log, request.tab) then request.progress == Ended
                    else request.progress.AwaitingRenewal? && states[i + 1].tabs[request.tab].pending == Some(request.progress.renewal)
                         && request.progress.renewal in states[i + 1].renewals && states[i + 1].renewals[request.progress.renewal].tab == request.tab))
  {
    hide FailedSince, RefusedNow, InFlight, LogOk, OwnerOk, LockOk, RequestsOk;
    BehaviourInv(states, steps, i);
    assert Enabled(states[i], steps[i]) && states[i + 1] == Taken(states[i], steps[i]);
    var t := states[i].requests[steps[i].request].tab;
    assert states[i].tabs[t].pending.Some? ==> PendingOk(states[i], t, states[i].tabs[t].pending.value);
  }

  lemma LocklessStep(s: State, step: Step, t: nat)
    requires Inv(s) && Enabled(s, step) && step != Close(t) && t in s.tabs && !s.tabs[t].hasLocks
    ensures t in Taken(s, step).tabs && !Taken(s, step).tabs[t].hasLocks
    ensures Written(s, step).Some? && Written(s, step).value.PostSent? ==> Written(s, step).value.tab != t
  {
    hide FailedSince, RefusedNow, InFlight, LogOk, OwnerOk, RequestsOk, FlagsOk, LockOk;
  }

  /** A page opened in a browser without locks never sends a refresh POST. */
  lemma {:induction false} LocklessNeverRefreshes(states: seq<State>, steps: seq<Step>, i: nat, j: nat, t: nat)
    requires Behaviour(states, steps) && i < j < |states| && steps[i] == OpenTab(t, false)
    requires forall k :: i < k < j ==> steps[k] != Close(t)
    ensures t in states[j].tabs && !states[j].tabs[t].hasLocks
    ensures states[i].log <= states[j].log && forall k :: |states[i].log| <= k < |states[j].log| ==> !(states[j].log[k].PostSent? && states[j].log[k].tab == t)
    decreases j
  {
    hide Taken, Enabled, Inv, Written, Init;
    var s := states[j - 1];
    if i + 1 == j {
      OpenedLockless(s, t);
    } else {
      LocklessNeverRefreshes(states, steps, i, j - 1, t);
      BehaviourInv(states, steps, j - 1);
      LocklessStep(s, steps[j - 1], t);
      LogWritten(s, steps[j - 1]);
    }
  }

  lemma OpenedLockless(s: State, t: nat)
    requires Enabled(s, OpenTab(t, false))
    ensures var s' := Taken(s, OpenTab(t, false)); t in s'.tabs && !s'.tabs[t].hasLocks && s'.log == s.log
  {
  }
}
