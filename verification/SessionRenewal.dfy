/**
 Browser session renewal: any number of tabs and requests, one renewal in flight per tab, a lock shared by
 all tabs of the browser, a failure flag that sticks until somebody signs in, and one retry per request.

 A step is one uninterrupted stretch of one tab's event loop, or one reply. A page may go away at any time:
 the user closes or reloads it, and the code itself navigates after a refused renewal and reloads when
 another tab signs in. Its flags, its renewal and its hold of the lock go with it; a reload is a `Close`
 followed by an `OpenTab` of the same tab. `log` records what the server and the browser see, in order; the
 promises are stated about it.
 */
module SessionRenewal {
  import opened Options

  datatype Event =
    | LockTaken(hold: nat)
    | MeAnswered(hold: nat, tab: nat, status: int)
    | PostSent(hold: nat, tab: nat)
    | PostEnded(hold: nat, tab: nat, ok: bool)
    | LoginSucceeded(tab: nat)
    | PageClosed(tab: nat)

  datatype Phase =
    | Waiting
    | Entered(hold: nat)   // the lock is granted
    | Asking(hold: nat)    // /auth/me is in flight
    | Refused(hold: nat)   // /auth/me answered 401
    | Posting(hold: nat)   // /auth/refresh is in flight
    | Settled(ok: bool, within: Option<nat>)  // `within` is the hold it ran in, if it got the lock at all

  datatype Renewal = Renewal(tab: nat, phase: Phase)

  /** `pending` is the promise later callers share; `failed` the sticky failure. */
  datatype Tab = Tab(hasLocks: bool, pending: Option<nat>, failed: bool)

  datatype Owner = ByRenewal(renewal: nat) | ByLogin(tab: nat)

  datatype Progress =
    | FirstSent
    | AwaitingRenewal(renewal: nat)
    | SecondSent
    | Ended

  /** `sent` counts the times the request itself went out; `replies` the statuses that came back; `renewedBy`
   the renewal whose success allowed the second sending. */
  datatype Request = Request(tab: nat, progress: Progress, sent: nat, replies: seq<int>, renewedBy: Option<nat>)

  datatype State = State(
    tabs: map<nat, Tab>, renewals: map<nat, Renewal>, lock: Option<Owner>, holds: nat,
    requests: map<nat, Request>, nextId: nat, log: seq<Event>)

  datatype Step =
    | OpenTab(tab: nat, hasLocks: bool)
    | Close(tab: nat)
    | Grant(renewal: nat)
    | Enter(renewal: nat)
    | MeReply(renewal: nat, status: int)
    | MeLost(renewal: nat)
    | Post(renewal: nat)
    | PostReply(renewal: nat, ok: bool)
    | ClearPending(renewal: nat)
    | LoginGrant(tab: nat)
    | LoginReply(tab: nat, ok: bool)
    | Send(tab: nat)
    | Reply(request: nat, status: int)
    | ReplyLost(request: nat)
    | Resume(request: nat)

  predicate InPhase(s: State, r: nat) {
    r in s.renewals && s.renewals[r].tab in s.tabs
  }

  predicate Enabled(s: State, step: Step) {
    match step
    case OpenTab(t, _) => t !in s.tabs
    case Close(t) => t in s.tabs
    case Grant(r) => InPhase(s, r) && s.renewals[r].phase == Waiting && s.lock == None
    case Enter(r) => InPhase(s, r) && s.renewals[r].phase.Entered?
    case MeReply(r, _) => InPhase(s, r) && s.renewals[r].phase.Asking?
    case MeLost(r) => InPhase(s, r) && s.renewals[r].phase.Asking?
    case Post(r) => InPhase(s, r) && s.renewals[r].phase.Refused?
    case PostReply(r, _) => InPhase(s, r) && s.renewals[r].phase.Posting?
    case ClearPending(r) => InPhase(s, r) && s.renewals[r].phase.Settled? && s.tabs[s.renewals[r].tab].pending == Some(r)
    case LoginGrant(t) => t in s.tabs && s.tabs[t].hasLocks && s.lock == None
    case LoginReply(t, _) => t in s.tabs && (if s.tabs[t].hasLocks then s.lock == Some(ByLogin(t)) else true)
    case Send(t) => t in s.tabs
    case Reply(q, _) => q in s.requests && s.requests[q].tab in s.tabs && (s.requests[q].progress == FirstSent || s.requests[q].progress == SecondSent)
    case ReplyLost(q) => q in s.requests && (s.requests[q].progress == FirstSent || s.requests[q].progress == SecondSent)
    case Resume(q) => q in s.requests && s.requests[q].progress.AwaitingRenewal? && s.requests[q].progress.renewal in s.renewals
                      && s.renewals[s.requests[q].progress.renewal].phase.Settled?
  }

  function At(s: State, r: nat, phase: Phase): map<nat, Renewal>
    requires r in s.renewals
  {
    s.renewals[r := s.renewals[r].(phase := phase)]
  }

  predicate Inside(p: Phase) {
    p.Entered? || p.Asking? || p.Refused? || p.Posting?
  }

  /** The operation under the lock settles, which releases the lock. */
  function Settle(s: State, r: nat, ok: bool): State
    requires r in s.renewals && Inside(s.renewals[r].phase)
  {
    s.(renewals := At(s, r, Settled(ok, Some(s.renewals[r].phase.hold))), lock := None)
  }

  /** A 401 on the first reply asks the tab for a renewal: refused, shared or newly created. */
  function Renew(s: State, q: nat): State
    requires q in s.requests && s.requests[q].tab in s.tabs
  {
    var tab := s.tabs[s.requests[q].tab];
    if tab.failed then s.(requests := s.requests[q := s.requests[q].(progress := Ended)])
    else if tab.pending.Some? then s.(requests := s.requests[q := s.requests[q].(progress := AwaitingRenewal(tab.pending.value))])
    else
      s.(requests := s.requests[q := s.requests[q].(progress := AwaitingRenewal(s.nextId))],
         renewals := s.renewals[s.nextId := Renewal(s.requests[q].tab, if tab.hasLocks then Waiting else Settled(false, None))],
         tabs := s.tabs[s.requests[q].tab := tab.(pending := Some(s.nextId))],
         nextId := s.nextId + 1)
  }

  predicate HeldBy(s: State, t: nat) {
    s.lock.Some? && match s.lock.value
                    case ByLogin(u) => u == t
                    case ByRenewal(r) => r in s.renewals && s.renewals[r].tab == t
  }

  /** The page goes away with everything it was doing; the browser releases its lock. */
  function Gone(s: State, t: nat): State {
    s.(tabs := s.tabs - {t},
       renewals := map r | r in s.renewals && s.renewals[r].tab != t :: s.renewals[r],
       requests := map q | q in s.requests && s.requests[q].tab != t :: s.requests[q],
       lock := if HeldBy(s, t) then None else s.lock,
       log := s.log + [PageClosed(t)])
  }

  function Taken(s: State, step: Step): State
    requires Enabled(s, step)
  {
    match step
    case OpenTab(t, hasLocks) => s.(tabs := s.tabs[t := Tab(hasLocks, None, false)])
    case Close(t) => Gone(s, t)
    case Grant(r) =>
      s.(renewals := At(s, r, Entered(s.holds)), lock := Some(ByRenewal(r)), holds := s.holds + 1, log := s.log + [LockTaken(s.holds)])
    case Enter(r) =>
      if s.tabs[s.renewals[r].tab].failed then Settle(s, r, false)
      else s.(renewals := At(s, r, Asking(s.renewals[r].phase.hold)))
    case MeReply(r, status) =>
      var hold := s.renewals[r].phase.hold;
      var s1 := s.(log := s.log + [MeAnswered(hold, s.renewals[r].tab, status)]);
      if 200 <= status < 300 then Settle(s1, r, true)
      else if status != 401 then Settle(s1, r, false)
      else s1.(renewals := At(s, r, Refused(hold)))
    case MeLost(r) => Settle(s, r, false)
    case Post(r) =>
      var hold := s.renewals[r].phase.hold;
      s.(renewals := At(s, r, Posting(hold)), log := s.log + [PostSent(hold, s.renewals[r].tab)])
    case PostReply(r, ok) =>
      var t := s.renewals[r].tab;
      var s1 := s.(log := s.log + [PostEnded(s.renewals[r].phase.hold, t, ok)]);
      if ok then Settle(s1, r, true)
      else Settle(s1.(tabs := s.tabs[t := s.tabs[t].(failed := true)]), r, false)
    case ClearPending(r) =>
      var t := s.renewals[r].tab;
      s.(tabs := s.tabs[t := s.tabs[t].(pending := None)])
    case LoginGrant(t) => s.(lock := Some(ByLogin(t)), holds := s.holds + 1, log := s.log + [LockTaken(s.holds)])
    case LoginReply(t, ok) =>
      var s1 := if s.tabs[t].hasLocks then s.(lock := None) else s;
      if ok then s1.(tabs := s.tabs[t := s.tabs[t].(failed := false)], log := s.log + [LoginSucceeded(t)]) else s1
    case Send(t) =>
      s.(requests := s.requests[s.nextId := Request(t, FirstSent, 1, [], None)], nextId := s.nextId + 1)
    case Reply(q, status) =>
      var request := s.requests[q];
      var s1 := s.(requests := s.requests[q := request.(replies := request.replies + [status])]);
      if request.progress == FirstSent && status == 401 then Renew(s1, q)
      else s1.(requests := s1.requests[q := s1.requests[q].(progress := Ended)])
    case ReplyLost(q) => s.(requests := s.requests[q := s.requests[q].(progress := Ended)])
    case Resume(q) =>
      var request := s.requests[q];
      if s.renewals[request.progress.renewal].phase.ok
      then s.(requests := s.requests[q := request.(progress := SecondSent, sent := request.sent + 1, renewedBy := Some(request.progress.renewal))])
      else s.(requests := s.requests[q := request.(progress := Ended)])
  }

  predicate Init(s: State) {
    s == State(map[], map[], None, 0, map[], 0, [])
  }

  ghost predicate Behaviour(states: seq<State>, steps: seq<Step>) {
    && |states| == |steps| + 1 && Init(states[0])
    && forall i :: 0 <= i < |steps| ==> Enabled(states[i], steps[i]) && states[i + 1] == Taken(states[i], steps[i])
  }

  // ---------------------------------------------------------------------------
  // Reading the log

  /** The page's latest refresh POST failed and it has not signed in since. */
  function FailedSince(log: seq<Event>, tab: nat): bool {
    if log == [] then false else
      var last, rest := log[|log| - 1], log[..|log| - 1];
      if last.PostEnded? && last.tab == tab && !last.ok then true
      else if last == LoginSucceeded(tab) || last == PageClosed(tab) then false
      else FailedSince(rest, tab)
  }

  /** The latest 401 from /auth/me, as long as nobody took the lock after it. */
  function RefusedNow(log: seq<Event>): Option<Event> {
    if log == [] then None else
      var last, rest := log[|log| - 1], log[..|log| - 1];
      if last.LockTaken? then None
      else if last.MeAnswered? && last.status == 401 then Some(last)
      else RefusedNow(rest)
  }

  /** A refresh POST that was sent, has not ended, and whose page is still there. */
  function InFlight(log: seq<Event>): Option<Event> {
    if log == [] then None else
      var last, rest := log[|log| - 1], log[..|log| - 1];
      if last.PostSent? then Some(last)
      else if last.PostEnded? then None
      else if last.PageClosed? && SentBy(InFlight(rest), last.tab) then None
      else InFlight(rest)
  }

  predicate SentBy(flight: Option<Event>, tab: nat) {
    flight.Some? && flight.value.PostSent? && flight.value.tab == tab
  }

  /** A refresh POST goes out, and ends, only where the protocol promises it. */
  predicate Allowed(before: seq<Event>, e: Event) {
    && (e.PostSent? ==>
          && !FailedSince(before, e.tab)
          && RefusedNow(before) == Some(MeAnswered(e.hold, e.tab, 401))
          && InFlight(before) == None)
    && (e.PostEnded? ==> InFlight(before) == Some(PostSent(e.hold, e.tab)))
  }

  predicate LogOk(log: seq<Event>) {
    forall i :: 0 <= i < |log| ==> Allowed(log[..i], log[i])
  }

  lemma Appended(log: seq<Event>, e: Event)
    ensures forall t :: FailedSince(log + [e], t) ==
                        if e.PostEnded? && e.tab == t && !e.ok then true else if e == LoginSucceeded(t) || e == PageClosed(t) then false else FailedSince(log, t)
    ensures RefusedNow(log + [e]) == if e.LockTaken? then None else if e.MeAnswered? && e.status == 401 then Some(e) else RefusedNow(log)
    ensures InFlight(log + [e]) == if e.PostSent? then Some(e) else if e.PostEnded? || (e.PageClosed? && SentBy(InFlight(log), e.tab)) then None else InFlight(log)
    ensures LogOk(log) && Allowed(log, e) ==> LogOk(log + [e])
  {
    var longer := log + [e];
    assert longer[..|longer| - 1] == log && longer[|longer| - 1] == e;
    if LogOk(log) && Allowed(log, e) {
      forall i | 0 <= i < |longer|
        ensures Allowed(longer[..i], longer[i])
      {
        assert longer[..i] == log[..i];
        if i == |log| { assert log[..i] == log; }
      }
    }
  }

  // ---------------------------------------------------------------------------
  // What every step keeps

  /** Only the owner of the lock is between entering and settling. */
  ghost predicate LockOk(s: State) {
    && (forall r :: r in s.renewals && Inside(s.renewals[r].phase) ==> s.lock == Some(ByRenewal(r)))
    && (s.lock.Some? && s.lock.value.ByRenewal? ==> s.lock.value.renewal in s.renewals && Inside(s.renewals[s.lock.value.renewal].phase))
    && (s.lock.Some? && s.lock.value.ByLogin? ==> s.lock.value.tab in s.tabs && s.tabs[s.lock.value.tab].hasLocks)
  }

  /** A renewal that is not settled is the one its tab's callers share, and the tab can take locks. */
  ghost predicate SharedOk(s: State) {
    && (forall r :: r in s.renewals ==> r < s.nextId && s.renewals[r].tab in s.tabs)
    && (forall r :: r in s.renewals && s.renewals[r].tab in s.tabs && !s.renewals[r].phase.Settled? ==>
          s.tabs[s.renewals[r].tab].pending == Some(r) && s.tabs[s.renewals[r].tab].hasLocks)
    && (forall t :: t in s.tabs && s.tabs[t].pending.Some? ==> PendingOk(s, t, s.tabs[t].pending.value))
  }

  predicate PendingOk(s: State, t: nat, r: nat) {
    r in s.renewals && s.renewals[r].tab == t
  }

  /** How far a renewal has come agrees with what the log shows. */
  ghost predicate PhaseOk(s: State, r: Renewal) {
    && (r.phase.Refused? ==> RefusedNow(s.log) == Some(MeAnswered(r.phase.hold, r.tab, 401)))
    && (r.phase.Posting? <==> InFlight(s.log).Some?)
    && (r.phase.Posting? ==> InFlight(s.log) == Some(PostSent(r.phase.hold, r.tab)))
    && (r.phase.Asking? || r.phase.Refused? || r.phase.Posting? ==> !FailedSince(s.log, r.tab))
  }

  ghost predicate OwnerOk(s: State) {
    && (forall r :: r in s.renewals && Inside(s.renewals[r].phase) ==> PhaseOk(s, s.renewals[r]))
    && (s.lock.None? || s.lock.value.ByLogin? ==> InFlight(s.log).None?)
  }

  ghost predicate FlagsOk(s: State) {
    && (forall t :: t in s.tabs ==> s.tabs[t].failed == FailedSince(s.log, t))
    && (forall t :: t !in s.tabs ==> !FailedSince(s.log, t))
  }

  ghost predicate RequestsOk(s: State) {
    forall q :: q in s.requests ==> q < s.nextId && RequestOk(s, s.requests[q])
  }

  /** At most two sendings; the second only after a 401 and a renewal of the same tab that succeeded. */
  predicate RequestOk(s: State, request: Request) {
    && request.tab in s.tabs
    && 1 <= request.sent <= 2 && |request.replies| <= request.sent
    && (request.progress == FirstSent ==> request.sent == 1 && request.replies == [])
    && (request.progress.AwaitingRenewal? ==> request.sent == 1 && request.replies == [401] && PendingOk(s, request.tab, request.progress.renewal))
    && (request.progress == SecondSent ==> request.sent == 2 && request.replies == [401])
    && (request.sent == 2 ==> |request.replies| >= 1 && request.replies[0] == 401 && request.renewedBy.Some? && Renewed(s, request.tab, request.renewedBy.value))
  }

  predicate Renewed(s: State, tab: nat, r: nat) {
    r in s.renewals && s.renewals[r].tab == tab && s.renewals[r].phase.Settled? && s.renewals[r].phase.ok
  }

  ghost predicate Inv(s: State) {
    LockOk(s) && SharedOk(s) && OwnerOk(s) && FlagsOk(s) && RequestsOk(s) && LogOk(s.log)
  }

  /** Renewals and requests only move forward, so what a request relied on stays true. */
  lemma RequestsKept(s: State, s': State)
    requires RequestsOk(s) && s'.requests == s.requests && s.nextId <= s'.nextId && s.tabs.Keys <= s'.tabs.Keys
    requires forall r :: r in s.renewals ==> r in s'.renewals && s'.renewals[r].tab == s.renewals[r].tab
    requires forall r :: r in s.renewals && s.renewals[r].phase.Settled? ==> s'.renewals[r] == s.renewals[r]
    ensures RequestsOk(s')
  {
    forall q | q in s'.requests
      ensures RequestOk(s', s'.requests[q])
    {
      assert RequestOk(s, s.requests[q]);
    }
  }

  /** The event, if any, that a step writes. */
  function Written(s: State, step: Step): Option<Event>
    requires Enabled(s, step)
  {
    match step
    case Grant(_) => Some(LockTaken(s.holds))
    case LoginGrant(_) => Some(LockTaken(s.holds))
    case MeReply(r, status) => Some(MeAnswered(s.renewals[r].phase.hold, s.renewals[r].tab, status))
    case Post(r) => Some(PostSent(s.renewals[r].phase.hold, s.renewals[r].tab))
    case PostReply(r, ok) => Some(PostEnded(s.renewals[r].phase.hold, s.renewals[r].tab, ok))
    case LoginReply(t, ok) => if ok then Some(LoginSucceeded(t)) else None
    case Close(t) => Some(PageClosed(t))
    case _ => None
  }

  lemma LogWritten(s: State, step: Step)
    requires Enabled(s, step)
    ensures Taken(s, step).log == s.log + (if Written(s, step).Some? then [Written(s, step).value] else [])
  {
  }

  predicate ByRequest(step: Step) {
    step.Send? || step.Reply? || step.ReplyLost? || step.Resume?
  }

  /** What requests leave alone: the lock, the log, the pages' abilities and failures, every renewal there was. */
  ghost predicate LeftAlone(s: State, s': State) {
    && s'.lock == s.lock && s'.log == s.log && s'.tabs.Keys == s.tabs.Keys
    && (forall t :: t in s.tabs ==> s'.tabs[t].hasLocks == s.tabs[t].hasLocks && s'.tabs[t].failed == s.tabs[t].failed)
    && (forall r :: r in s.renewals ==> r in s'.renewals && s'.renewals[r] == s.renewals[r])
    && (forall r :: r in s'.renewals && Inside(s'.renewals[r].phase) ==> r in s.renewals)
  }

  lemma RequestsLeaveAlone(s: State, step: Step)
    requires SharedOk(s) && Enabled(s, step) && ByRequest(step)
    ensures LeftAlone(s, Taken(s, step))
  {
    hide Renew, Gone, Settle;
    if step.Reply? && s.requests[step.request].progress == FirstSent && step.status == 401 {
      RenewLeavesAlone(s, step.request);
    }
  }

  lemma RenewLeavesAlone(s: State, q: nat)
    requires SharedOk(s) && q in s.requests && s.requests[q].tab in s.tabs
    ensures LeftAlone(s, Renew(Rejected(s, q), q))
  {
  }

  lemma LeftAloneKeeps(s: State, s': State)
    requires LeftAlone(s, s') && LockOk(s) && OwnerOk(s) && FlagsOk(s)
    ensures LockOk(s') && OwnerOk(s') && FlagsOk(s')
  {
    hide FailedSince, RefusedNow, InFlight;
  }

  lemma GoneKeeps(s: State, t: nat)
    requires LockOk(s) && OwnerOk(s) && FlagsOk(s) && LogOk(s.log)
    ensures LockOk(Gone(s, t)) && OwnerOk(Gone(s, t)) && FlagsOk(Gone(s, t)) && LogOk(Gone(s, t).log)
  {
    hide FailedSince, RefusedNow, InFlight, LogOk;
    Appended(s.log, PageClosed(t));
  }

  predicate ByLock(step: Step) {
    !ByRequest(step) && !step.Close?
  }

  lemma LogKept(s: State, step: Step)
    requires Inv(s) && Enabled(s, step) && ByLock(step)
    ensures LogOk(Taken(s, step).log) && FlagsOk(Taken(s, step))
  {
    hide FailedSince, RefusedNow, InFlight, LogOk, SharedOk, RequestsOk, Renew, Gone;
    var e := Written(s, step);
    if e.Some? { Appended(s.log, e.value); }
  }

  lemma LockKept(s: State, step: Step)
    requires Inv(s) && Enabled(s, step) && ByLock(step)
    ensures LockOk(Taken(s, step))
  {
    hide FailedSince, RefusedNow, InFlight, LogOk, OwnerOk, RequestsOk, FlagsOk, Renew, Gone;
  }

  /** Request q once its first reply, a 401, has arrived. */
  function Rejected(s: State, q: nat): State
    requires q in s.requests
  {
    s.(requests := s.requests[q := s.requests[q].(replies := s.requests[q].replies + [401])])
  }

  /** Joining or creating a renewal keeps what callers share ... */
  lemma RenewKeepsShared(s: State, q: nat)
    requires SharedOk(s) && q in s.requests && s.requests[q].tab in s.tabs
    ensures SharedOk(Renew(Rejected(s, q), q))
  {
  }

  /** ... and what requests rely on. */
  lemma RenewKeepsRequests(s: State, q: nat)
    requires SharedOk(s) && RequestsOk(s)
    requires q in s.requests && s.requests[q].progress == FirstSent
    ensures s.requests[q].tab in s.tabs && RequestsOk(Renew(Rejected(s, q), q))
  {
    assert RequestOk(s, s.requests[q]);
    var s' := Renew(Rejected(s, q), q);
    assert s.requests[q].replies + [401] == [401];
    forall k | k in s'.requests
      ensures k < s'.nextId && RequestOk(s', s'.requests[k])
    {
      assert RequestOk(s, s.requests[k]);
    }
  }

  lemma SharedFrame(s: State, s': State)
    requires SharedOk(s) && s.nextId <= s'.nextId && s.tabs.Keys <= s'.tabs.Keys && s'.renewals.Keys == s.renewals.Keys
    requires forall t :: t in s.tabs ==> s'.tabs[t].hasLocks == s.tabs[t].hasLocks
    requires forall r :: r in s.renewals ==> s'.renewals[r].tab == s.renewals[r].tab && (s.renewals[r].phase.Settled? ==> s'.renewals[r].phase.Settled?)
    requires forall t :: t in s'.tabs ==> s'.tabs[t].pending == if t in s.tabs then s.tabs[t].pending else None
    ensures SharedOk(s')
  {
  }

  lemma ClearKeepsShared(s: State, r: nat)
    requires SharedOk(s) && Enabled(s, ClearPending(r))
    ensures SharedOk(Taken(s, ClearPending(r)))
  {
  }

  lemma GoneKeepsShared(s: State, t: nat)
    requires SharedOk(s)
    ensures SharedOk(Gone(s, t))
  {
  }

  lemma GoneKeepsRequests(s: State, t: nat)
    requires RequestsOk(s)
    ensures RequestsOk(Gone(s, t))
  {
    var s' := Gone(s, t);
    forall q | q in s'.requests
      ensures RequestOk(s', s'.requests[q])
    {
      assert RequestOk(s, s.requests[q]);
    }
  }

  lemma SharedKept(s: State, step: Step)
    requires Inv(s) && Enabled(s, step)
    ensures SharedOk(Taken(s, step))
  {
    hide FailedSince, RefusedNow, InFlight, LogOk, OwnerOk, RequestsOk, FlagsOk, LockOk, Renew, SharedOk, Gone;
    if step.Reply? && s.requests[step.request].progress == FirstSent && step.status == 401 {
      RenewKeepsShared(s, step.request);
    } else if step.ClearPending? {
      ClearKeepsShared(s, step.renewal);
    } else if step.Close? {
      GoneKeepsShared(s, step.tab);
    } else {
      SharedFrame(s, Taken(s, step));
    }
  }

  lemma OwnerKept(s: State, step: Step)
    requires Inv(s) && Enabled(s, step) && ByLock(step)
    ensures OwnerOk(Taken(s, step))
  {
    hide FailedSince, RefusedNow, InFlight, LogOk, RequestsOk, SharedOk, Renew, Gone;
    var e := Written(s, step);
    if e.Some? { Appended(s.log, e.value); }
  }

  lemma RequestStepsKept(s: State, step: Step)
    requires Inv(s) && Enabled(s, step) && (step.Reply? || step.ReplyLost? || step.Resume?)
    ensures RequestsOk(Taken(s, step))
  {
    hide FailedSince, RefusedNow, InFlight, LogOk, OwnerOk, FlagsOk, LockOk, SharedOk, Renew, Gone, Settle;
    var q := step.request;
    assert RequestOk(s, s.requests[q]) && q < s.nextId;
    if step.Reply? && s.requests[q].progress == FirstSent && step.status == 401 {
      RenewKeepsRequests(s, q);
    } else {
      hide RequestsOk;
      var s' := Taken(s, step);
      assert s' == s.(requests := s.requests[q := s'.requests[q]]);
      AddedKept(s, q, s'.requests[q]);
    }
  }

  lemma OtherStepsKept(s: State, step: Step)
    requires Inv(s) && Enabled(s, step) && !(step.Reply? || step.ReplyLost? || step.Resume?)
    ensures RequestsOk(Taken(s, step))
  {
    hide FailedSince, RefusedNow, InFlight, LogOk, OwnerOk, FlagsOk, LockOk, SharedOk, RequestsOk, Gone;
    if step.Send? {
      var s1 := s.(nextId := s.nextId + 1);
      RequestsKept(s, s1);
      AddedKept(s1, s.nextId, Request(step.tab, FirstSent, 1, [], None));
    } else if step.Close? {
      GoneKeepsRequests(s, step.tab);
    } else {
      RequestsKept(s, Taken(s, step));
    }
  }

  lemma AddedKept(s: State, q: nat, request: Request)
    requires RequestsOk(s) && q < s.nextId && RequestOk(s, request)
    ensures RequestsOk(s.(requests := s.requests[q := request]))
  {
    var s' := s.(requests := s.requests[q := request]);
    forall k | k in s'.requests
      ensures RequestOk(s', s'.requests[k])
    {
      if k != q { assert RequestOk(s, s.requests[k]); }
    }
  }

  lemma CloseIsGone(s: State, step: Step)
    requires Enabled(s, step) && step.Close?
    ensures Taken(s, step) == Gone(s, step.tab)
  {
  }

  lemma StepInv(s: State, step: Step)
    requires Inv(s) && Enabled(s, step)
    ensures Inv(Taken(s, step))
  {
    if step.Close? { CloseIsGone(s, step); }
    hide Taken, Enabled, LockOk, SharedOk, OwnerOk, FlagsOk, RequestsOk, LogOk, Gone;
    SharedKept(s, step);
    if ByRequest(step) {
      RequestsLeaveAlone(s, step);
      LeftAloneKeeps(s, Taken(s, step));
    } else if step.Close? {
      GoneKeeps(s, step.tab);
    } else {
      LogKept(s, step);
      LockKept(s, step);
      OwnerKept(s, step);
    }
    if step.Reply? || step.ReplyLost? || step.Resume? {
      RequestStepsKept(s, step);
    } else {
      OtherStepsKept(s, step);
    }
  }

  lemma {:induction false} BehaviourInv(states: seq<State>, steps: seq<Step>, i: nat)
    requires Behaviour(states, steps) && i < |states|
    ensures Inv(states[i])
  {
    hide Taken, Enabled;
    if i == 0 {
      StartInv(states[0]);
    } else {
      BehaviourInv(states, steps, i - 1);
      StepInv(states[i - 1], steps[i - 1]);
    }
  }

  lemma StartInv(s: State)
    requires Init(s)
    ensures Inv(s)
  {
  }

  // ---------------------------------------------------------------------------
  // The promises

  /** A renewal that has been created and has not settled. */
  predicate Pending(s: State, r: nat) {
    r in s.renewals && !s.renewals[r].phase.Settled?
  }

  /** Single flight: a tab never has two renewals pending. */
  lemma OneRenewalPerTab(states: seq<State>, steps: seq<Step>, i: nat, r1: nat, r2: nat)
    requires Behaviour(states, steps) && i < |states|
    requires Pending(states[i], r1) && Pending(states[i], r2) && states[i].renewals[r1].tab == states[i].renewals[r2].tab
    ensures r1 == r2
  {
    hide Taken, Enabled, LogOk, FlagsOk, RequestsOk, OwnerOk, LockOk;
    BehaviourInv(states, steps, i);
  }

  /** What takes a refresh POST out of the way: its end, or its page going away. */
  predicate Ends(e: Event, sent: Event)
    requires sent.PostSent?
  {
    (e.PostEnded? && e.hold == sent.hold && e.tab == sent.tab) || e == PageClosed(sent.tab)
  }

  /** The cross-tab lock: between two refresh POSTs, of whatever tabs, the first one ends or its page goes away. */
  lemma RefreshesNeverOverlap(states: seq<State>, steps: seq<Step>, i: nat, a: nat, b: nat)
    requires Behaviour(states, steps) && i < |states|
    requires a < b < |states[i].log| && states[i].log[a].PostSent? && states[i].log[b].PostSent?
    ensures exists k: nat :: a < k < b && Ends(states[i].log[k], states[i].log[a])
  {
    hide Taken, Enabled, FlagsOk, RequestsOk, OwnerOk, LockOk, SharedOk, Behaviour;
    BehaviourInv(states, steps, i);
    var log := states[i].log;
    assert Allowed(log[..b], log[b]);
    FlightEnds(log, a, b);
  }

  lemma {:induction false} FlightEnds(log: seq<Event>, a: nat, b: nat)
    requires LogOk(log) && a < b <= |log| && log[a].PostSent? && InFlight(log[..b]) != Some(log[a])
    ensures exists k: nat :: a < k < b && Ends(log[k], log[a])
    decreases b
  {
    hide FailedSince, RefusedNow;
    var e := log[b - 1];
    assert Allowed(log[..b - 1], e);
    assert log[..b] == log[..b - 1] + [e];
    Appended(log[..b - 1], e);
    if b - 1 > a {
      if InFlight(log[..b - 1]) != Some(log[a]) {
        FlightEnds(log, a, b - 1);
      } else {
        assert Ends(e, log[a]);
      }
    }
  }

  /** A refresh POST follows a 401 from /auth/me that the same tab got in the same hold of the lock. */
  lemma RefreshFollowsRefusal(states: seq<State>, steps: seq<Step>, i: nat, b: nat)
    requires Behaviour(states, steps) && i < |states| && b < |states[i].log| && states[i].log[b].PostSent?
    ensures exists k: nat :: k < b && states[i].log[k] == MeAnswered(states[i].log[b].hold, states[i].log[b].tab, 401) && SameHold(states[i].log, k, b)
  {
    hide Taken, Enabled, FlagsOk, RequestsOk, OwnerOk, LockOk, SharedOk, Behaviour;
    BehaviourInv(states, steps, i);
    var log := states[i].log;
    assert Allowed(log[..b], log[b]);
    RefusalFound(log, b);
  }

  /** Nobody took the lock between two places in the log. */
  predicate SameHold(log: seq<Event>, from: nat, to: nat)
    requires to <= |log|
  {
    forall j :: from <= j < to ==> !log[j].LockTaken?
  }

  lemma {:induction false} RefusalFound(log: seq<Event>, b: nat)
    requires b <= |log| && RefusedNow(log[..b]).Some?
    ensures exists k: nat :: k < b && Some(log[k]) == RefusedNow(log[..b]) && SameHold(log, k, b)
  {
    hide FailedSince, InFlight, LogOk;
    assert |log[..b]| == b;
    var e := log[b - 1];
    assert log[..b] == log[..b - 1] + [e];
    Appended(log[..b - 1], e);
    if e.MeAnswered? && e.status == 401 {
      assert SameHold(log, b - 1, b);
    } else {
      RefusalFound(log, b - 1);
      var k: nat :| k < b - 1 && Some(log[k]) == RefusedNow(log[..b - 1]) && SameHold(log, k, b - 1);
      assert SameHold(log, k, b);
    }
  }

  /** What makes a page forget its failure. */
  predicate Forgets(e: Event, tab: nat) {
    e == LoginSucceeded(tab) || e == PageClosed(tab)
  }

  /** A tab whose refresh POST failed sends no other until it has signed in or its page has gone away. */
  lemma FailureSticks(states: seq<State>, steps: seq<Step>, i: nat, a: nat, b: nat)
    requires Behaviour(states, steps) && i < |states| && a < b < |states[i].log|
    requires states[i].log[a].PostEnded? && !states[i].log[a].ok
    requires states[i].log[b].PostSent? && states[i].log[b].tab == states[i].log[a].tab
    ensures exists k: nat :: a < k < b && Forgets(states[i].log[k], states[i].log[a].tab)
  {
    hide Taken, Enabled, FlagsOk, RequestsOk, OwnerOk, LockOk, SharedOk, Behaviour;
    BehaviourInv(states, steps, i);
    var log := states[i].log;
    assert Allowed(log[..b], log[b]);
    ForgottenSince(log, a, b);
  }

  lemma {:induction false} ForgottenSince(log: seq<Event>, a: nat, b: nat)
    requires a < b <= |log| && log[a].PostEnded? && !log[a].ok && !FailedSince(log[..b], log[a].tab)
    ensures exists k: nat :: a < k < b && Forgets(log[k], log[a].tab)
    decreases b
  {
    hide RefusedNow, InFlight, LogOk;
    var e := log[b - 1];
    assert log[..b] == log[..b - 1] + [e];
    Appended(log[..b - 1], e);
    if b - 1 > a {
      if Forgets(e, log[a].tab) {
        assert Forgets(log[b - 1], log[a].tab);
      } else {
        ForgottenSince(log, a, b - 1);
      }
    }
  }

  /** One retry: a request goes out at most twice, the second time only after a 401 and a renewal that succeeded. */
  lemma AtMostOneRetry(states: seq<State>, steps: seq<Step>, i: nat, q: nat)
    requires Behaviour(states, steps) && i < |states| && q in states[i].requests
    ensures var request := states[i].requests[q];
            && 1 <= request.sent <= 2
            && (request.sent == 2 ==>
                  && |request.replies| >= 1 && request.replies[0] == 401
                  && request.renewedBy.Some? && Renewed(states[i], request.tab, request.renewedBy.value))
  {
    hide Taken, Enabled, FlagsOk, OwnerOk, LockOk, SharedOk, Behaviour, LogOk;
    BehaviourInv(states, steps, i);
    assert RequestOk(states[i], states[i].requests[q]);
  }

  // ---------------------------------------------------------------------------
  // What can still happen

  /** The steps lead from one state to the other. */
  ghost predicate Leads(s: State, steps: seq<Step>, s': State)
    decreases |steps|
  {
    if steps == [] then s' == s else Enabled(s, steps[0]) && Leads(Taken(s, steps[0]), steps[1..], s')
  }

  lemma Stepped(s: State, step: Step)
    requires Enabled(s, step)
    ensures Leads(s, [step], Taken(s, step))
  {
    hide Enabled, Taken;
    assert [step][1..] == [] && Leads(Taken(s, step), [], Taken(s, step));
  }

  lemma {:induction false} Joined(s: State, first: seq<Step>, s1: State, second: seq<Step>, s': State)
    requires Leads(s, first, s1) && Leads(s1, second, s')
    ensures Leads(s, first + second, s')
    decreases |first|
  {
    hide Enabled, Taken;
    if first == [] {
      assert first + second == second;
    } else {
      assert (first + second)[1..] == first[1..] + second;
      Joined(Taken(s, first[0]), first[1..], s1, second, s');
    }
  }

  lemma {:induction false} LeadsKeeps(s: State, steps: seq<Step>, s': State)
    requires Inv(s) && Leads(s, steps, s')
    ensures Inv(s') && s.log <= s'.log
    decreases |steps|
  {
    hide Enabled, Taken, Inv, LogOk, FlagsOk;
    if steps != [] {
      StepInv(s, steps[0]);
      LogWritten(s, steps[0]);
      LeadsKeeps(Taken(s, steps[0]), steps[1..], s');
    }
  }

  /** The tab's page is open, can take locks, and has not failed to refresh. */
  predicate Able(s: State, t: nat) {
    t in s.tabs && s.tabs[t].hasLocks && !s.tabs[t].failed
  }

  /** Nobody signs in, opens or closes a page. */
  predicate Calm(steps: seq<Step>) {
    forall k :: 0 <= k < |steps| ==> !steps[k].LoginGrant? && !(steps[k].LoginReply? && steps[k].ok) && !steps[k].Close? && !steps[k].OpenTab?
  }

  /** Pages, their abilities and their failures are as before. */
  ghost predicate SamePages(s: State, s': State) {
    s'.tabs.Keys == s.tabs.Keys && forall u :: u in s.tabs ==> s'.tabs[u].hasLocks == s.tabs[u].hasLocks && s'.tabs[u].failed == s.tabs[u].failed
  }

  /** Whoever holds the lock can settle without failing. */
  lemma Frees(s: State) returns (steps: seq<Step>, s': State)
    requires Inv(s)
    ensures Leads(s, steps, s') && Calm(steps) && s'.lock.None? && SamePages(s, s')
  {
    hide LogOk, RequestsOk, FailedSince, RefusedNow, InFlight, PhaseOk;
    steps, s' := [], s;
    if s.lock.Some? {
      match s.lock.value
      case ByLogin(u) =>
        steps, s' := [LoginReply(u, false)], Taken(s, LoginReply(u, false));
        Stepped(s, steps[0]);
      case ByRenewal(r) =>
        assert InPhase(s, r) && Inside(s.renewals[r].phase);
        steps, s' := HolderSettles(s, r);
    }
  }

  lemma HolderSettles(s: State, r: nat) returns (steps: seq<Step>, s': State)
    requires InPhase(s, r) && Inside(s.renewals[r].phase)
    ensures Leads(s, steps, s') && Calm(steps) && s'.lock.None? && SamePages(s, s')
  {
    hide Leads;
    var phase := s.renewals[r].phase;
    var step := if phase.Entered? then Enter(r) else if phase.Asking? then MeLost(r) else if phase.Refused? then Post(r) else PostReply(r, true);
    Stepped(s, step);
    steps, s' := [step], Taken(s, step);
    if (phase.Entered? && !s.tabs[s.renewals[r].tab].failed) || phase.Refused? {
      var next := if phase.Entered? then MeLost(r) else PostReply(r, true);
      Stepped(s', next);
      Joined(s, [step], s', [next], Taken(s', next));
      steps, s' := [step] + [next], Taken(s', next);
    }
  }

  /** An idle tab: nothing pending, the lock free. */
  predicate Idle(s: State, t: nat) {
    Able(s, t) && s.tabs[t].pending.None? && s.lock.None?
  }

  /** Its request is refused and a renewal queues for the lock. */
  lemma Queues(s: State, t: nat) returns (steps: seq<Step>, s': State)
    requires Idle(s, t)
    ensures Leads(s, steps, s') && Calm(steps) && SamePages(s, s') && s'.log == s.log && s'.lock.None? && s'.holds == s.holds
    ensures s.nextId + 1 in s'.renewals && s'.renewals[s.nextId + 1] == Renewal(t, Waiting)
    ensures forall u :: u in s.tabs && u != t ==> s'.tabs[u] == s.tabs[u]
  {
    hide Leads;
    var s1 := Taken(s, Send(t));
    Stepped(s, Send(t));
    s' := Taken(s1, Reply(s.nextId, 401));
    Stepped(s1, Reply(s.nextId, 401));
    steps := [Send(t)] + [Reply(s.nextId, 401)];
    Joined(s, [Send(t)], s1, [Reply(s.nextId, 401)], s');
  }

  /** A queued renewal gets the lock, is refused by /auth/me and sends its POST. */
  lemma SendsPost(s: State, r: nat) returns (steps: seq<Step>, s': State)
    requires r in s.renewals && s.renewals[r].phase == Waiting && Able(s, s.renewals[r].tab) && s.lock.None?
    ensures Leads(s, steps, s') && Calm(steps) && s'.tabs == s.tabs && s'.lock == Some(ByRenewal(r)) && s'.holds == s.holds + 1
    ensures r in s'.renewals && s'.renewals[r] == Renewal(s.renewals[r].tab, Posting(s.holds))
    ensures s'.log == s.log + [LockTaken(s.holds), MeAnswered(s.holds, s.renewals[r].tab, 401), PostSent(s.holds, s.renewals[r].tab)]
  {
    hide Leads;
    var s1 := Taken(s, Grant(r));
    Stepped(s, Grant(r));
    var s2 := Taken(s1, Enter(r));
    Stepped(s1, Enter(r));
    Joined(s, [Grant(r)], s1, [Enter(r)], s2);
    var s3 := Taken(s2, MeReply(r, 401));
    Stepped(s2, MeReply(r, 401));
    Joined(s, [Grant(r)] + [Enter(r)], s2, [MeReply(r, 401)], s3);
    s' := Taken(s3, Post(r));
    Stepped(s3, Post(r));
    steps := [Grant(r)] + [Enter(r)] + [MeReply(r, 401)] + [Post(r)];
    Joined(s, [Grant(r)] + [Enter(r)] + [MeReply(r, 401)], s3, [Post(r)], s');
  }

  lemma IdleTabPosts(s: State, t: nat) returns (steps: seq<Step>, s': State)
    requires Idle(s, t)
    ensures Leads(s, steps, s') && Calm(steps) && SamePages(s, s') && s'.holds == s.holds + 1
    ensures s'.log == s.log + [LockTaken(s.holds), MeAnswered(s.holds, t, 401), PostSent(s.holds, t)]
    ensures s'.lock == Some(ByRenewal(s.nextId + 1)) && s.nextId + 1 in s'.renewals && s'.renewals[s.nextId + 1] == Renewal(t, Posting(s.holds))
    ensures forall u :: u in s.tabs && u != t ==> s'.tabs[u] == s.tabs[u]
  {
    hide Leads;
    var first, s1 := Queues(s, t);
    var second;
    second, s' := SendsPost(s1, s.nextId + 1);
    Joined(s, first, s1, second, s');
    steps := first + second;
  }

  predicate LastIsPost(log: seq<Event>, t: nat) {
    |log| > 0 && log[|log| - 1].PostSent? && log[|log| - 1].tab == t
  }

  /** From every reachable state a tab that is able to can still send a refresh POST. */
  lemma AbleTabPosts(s: State, t: nat) returns (steps: seq<Step>, s': State)
    requires Inv(s) && Able(s, t)
    ensures Leads(s, steps, s') && Calm(steps) && |s.log| < |s'.log| && LastIsPost(s'.log, t)
  {
    hide Leads, Inv;
    var s1;
    steps, s1 := Frees(s);
    LeadsKeeps(s, steps, s1);
    var r := PendingPhase(s1, t);
    if r.Some? && s1.renewals[r.value].phase == Waiting {
      var more;
      more, s' := SendsPost(s1, r.value);
      Joined(s, steps, s1, more, s');
      steps := steps + more;
    } else {
      if r.Some? {
        Stepped(s1, ClearPending(r.value));
        var s2 := Taken(s1, ClearPending(r.value));
        Joined(s, steps, s1, [ClearPending(r.value)], s2);
        steps, s1 := steps + [ClearPending(r.value)], s2;
      }
      var more;
      more, s' := IdleTabPosts(s1, t);
      Joined(s, steps, s1, more, s');
      steps := steps + more;
    }
  }

  /** While the lock is free a pending renewal is waiting or settled. */
  lemma PendingPhase(s: State, t: nat) returns (r: Option<nat>)
    requires Inv(s) && s.lock.None? && t in s.tabs
    ensures r == s.tabs[t].pending
    ensures r.Some? ==> r.value in s.renewals && s.renewals[r.value].tab == t && (s.renewals[r.value].phase == Waiting || s.renewals[r.value].phase.Settled?)
  {
    hide LogOk, RequestsOk, OwnerOk, FlagsOk;
    r := s.tabs[t].pending;
    if r.Some? { assert PendingOk(s, t, r.value); }
  }

  /** The page of this tab stays, and it does not sign in. */
  predicate Undisturbed(steps: seq<Step>, t: nat) {
    forall k :: 0 <= k < |steps| ==> steps[k] != LoginReply(t, true) && steps[k] != Close(t) && !(steps[k].OpenTab? && steps[k].tab == t)
  }

  predicate PostsBetween(before: seq<Event>, after: seq<Event>, t: nat) {
    exists k :: |before| <= k < |after| && after[k].PostSent? && after[k].tab == t
  }

  ghost predicate CanRefresh(s: State, t: nat) {
    exists steps, s' :: Leads(s, steps, s') && Undisturbed(steps, t) && PostsBetween(s.log, s'.log, t)
  }

  lemma PostNeedsAble(s: State, step: Step, t: nat)
    requires Inv(s) && Enabled(s, step) && Written(s, step).Some? && Written(s, step).value.PostSent? && Written(s, step).value.tab == t
    ensures Able(s, t)
  {
    hide LogOk, RequestsOk, FailedSince, RefusedNow, InFlight;
    assert step.Post?;
    assert PhaseOk(s, s.renewals[step.renewal]);
  }

  lemma StaysUnable(s: State, step: Step, t: nat)
    requires Enabled(s, step) && !Able(s, t) && Undisturbed([step], t)
    ensures !Able(Taken(s, step), t)
  {
    assert [step][0] == step;
  }

  lemma {:induction false} UnableNeverPosts(s: State, steps: seq<Step>, s': State, t: nat, k: nat)
    requires Inv(s) && Leads(s, steps, s') && Undisturbed(steps, t) && !Able(s, t) && |s.log| <= k < |s'.log|
    ensures !(s'.log[k].PostSent? && s'.log[k].tab == t)
    decreases |steps|
  {
    hide Enabled, Taken, Inv, Able, LogOk, FlagsOk;
    if steps != [] {
      var s1 := Taken(s, steps[0]);
      StepInv(s, steps[0]);
      LogWritten(s, steps[0]);
      LeadsKeeps(s1, steps[1..], s');
      assert Undisturbed([steps[0]], t) && Undisturbed(steps[1..], t);
      StaysUnable(s, steps[0], t);
      if |s1.log| <= k {
        UnableNeverPosts(s1, steps[1..], s', t, k);
      } else {
        assert s'.log[k] == s1.log[k] == Written(s, steps[0]).value;
        if s'.log[k].PostSent? && s'.log[k].tab == t { PostNeedsAble(s, steps[0], t); }
      }
    }
  }

  /**
   The failure of one tab binds no other: as long as its page stays and it does not sign in, a tab can still
   send a refresh POST if and only if it is open, can take locks and has not itself failed.
   */
  lemma RefreshPossibleIff(states: seq<State>, steps: seq<Step>, t: nat)
    requires Behaviour(states, steps)
    ensures CanRefresh(states[|steps|], t) <==> Able(states[|steps|], t)
  {
    hide Behaviour, Leads, Able, Inv;
    BehaviourHasLast(states, steps);
    var s := states[|steps|];
    BehaviourInv(states, steps, |steps|);
    if Able(s, t) {
      var more, s' := AbleTabPosts(s, t);
      assert PostsBetween(s.log, s'.log, t);
    }
    if CanRefresh(s, t) && !Able(s, t) {
      var more, s' :| Leads(s, more, s') && Undisturbed(more, t) && PostsBetween(s.log, s'.log, t);
      var k :| |s.log| <= k < |s'.log| && s'.log[k].PostSent? && s'.log[k].tab == t;
      UnableNeverPosts(s, more, s', t, k);
    }
  }

  lemma BehaviourHasLast(states: seq<State>, steps: seq<Step>)
    requires Behaviour(states, steps)
    ensures |states| == |steps| + 1
  {
  }

  // ---------------------------------------------------------------------------
  // Runs that show what is not promised

  lemma {:induction false} Traced(s: State, steps: seq<Step>, s': State) returns (states: seq<State>)
    requires Leads(s, steps, s')
    ensures |states| == |steps| + 1 && states[0] == s && states[|steps|] == s'
    ensures forall i :: 0 <= i < |steps| ==> Enabled(states[i], steps[i]) && states[i + 1] == Taken(states[i], steps[i])
    decreases |steps|
  {
    hide Enabled, Taken;
    if steps == [] {
      states := [s];
    } else {
      var rest := Traced(Taken(s, steps[0]), steps[1..], s');
      states := [s] + rest;
      forall i | 0 <= i < |steps|
        ensures Enabled(states[i], steps[i]) && states[i + 1] == Taken(states[i], steps[i])
      {
        if i > 0 { assert steps[i] == steps[1..][i - 1] && states[i] == rest[i - 1] && states[i + 1] == rest[i]; }
      }
    }
  }

  /** Two tabs are opened, and a request of tab 0 is refused as far as its refresh POST. */
  lemma TabZeroPosts() returns (steps: seq<Step>, s0: State, s: State)
    ensures Init(s0) && Leads(s0, steps, s)
    ensures s.log == [LockTaken(0), MeAnswered(0, 0, 401), PostSent(0, 0)] && s.holds == 1
    ensures s.lock == Some(ByRenewal(1)) && 1 in s.renewals && s.renewals[1] == Renewal(0, Posting(0))
    ensures s.tabs.Keys == {0, 1} && s.tabs[1] == Tab(true, None, false) && s.tabs[0].hasLocks
  {
    hide Leads;
    s0 := State(map[], map[], None, 0, map[], 0, []);
    var s1 := Taken(s0, OpenTab(0, true));
    var s2 := Taken(s1, OpenTab(1, true));
    Stepped(s0, OpenTab(0, true));
    Stepped(s1, OpenTab(1, true));
    Joined(s0, [OpenTab(0, true)], s1, [OpenTab(1, true)], s2);
    var more;
    more, s := IdleTabPosts(s2, 0);
    Joined(s0, [OpenTab(0, true)] + [OpenTab(1, true)], s2, more, s);
    steps := [OpenTab(0, true)] + [OpenTab(1, true)] + more;
  }

  lemma Then(s0: State, steps: seq<Step>, s: State, step: Step)
    requires Leads(s0, steps, s) && Enabled(s, step)
    ensures Leads(s0, steps + [step], Taken(s, step))
  {
    hide Enabled, Taken, Leads;
    Stepped(s, step);
    Joined(s0, steps, s, [step], Taken(s, step));
  }

  /** The refresh of tab 0 fails; tab 1 sends one all the same, with no login in between. */
  lemma OneTabFailsAnotherRefreshes() returns (states: seq<State>, steps: seq<Step>)
    ensures Behaviour(states, steps)
    ensures states[|steps|].log == [LockTaken(0), MeAnswered(0, 0, 401), PostSent(0, 0), PostEnded(0, 0, false),
                                    LockTaken(1), MeAnswered(1, 1, 401), PostSent(1, 1)]
  {
    hide Leads;
    var s0, s;
    steps, s0, s := TabZeroPosts();
    Then(s0, steps, s, PostReply(1, false));
    var s1 := Taken(s, PostReply(1, false));
    steps := steps + [PostReply(1, false)];
    var more, s2 := IdleTabPosts(s1, 1);
    Joined(s0, steps, s1, more, s2);
    steps := steps + more;
    states := Traced(s0, steps, s2);
  }

  /** The refresh of tab 0 fails; reloaded, it sends another, with no login in between. */
  lemma ReloadForgetsFailure() returns (states: seq<State>, steps: seq<Step>)
    ensures Behaviour(states, steps)
    ensures states[|steps|].log == [LockTaken(0), MeAnswered(0, 0, 401), PostSent(0, 0), PostEnded(0, 0, false), PageClosed(0),
                                    LockTaken(1), MeAnswered(1, 0, 401), PostSent(1, 0)]
  {
    hide Leads;
    var s0, s;
    steps, s0, s := TabZeroPosts();
    Then(s0, steps, s, PostReply(1, false));
    var s1 := Taken(s, PostReply(1, false));
    Then(s0, steps + [PostReply(1, false)], s1, Close(0));
    var s2 := Taken(s1, Close(0));
    Then(s0, steps + [PostReply(1, false)] + [Close(0)], s2, OpenTab(0, true));
    var s3 := Taken(s2, OpenTab(0, true));
    steps := steps + [PostReply(1, false)] + [Close(0)] + [OpenTab(0, true)];
    var more, s4 := IdleTabPosts(s3, 0);
    Joined(s0, steps, s3, more, s4);
    steps := steps + more;
    states := Traced(s0, steps, s4);
  }

  /** Tab 0 is closed with its refresh POST in flight; tab 1 sends one before that has ended. */
  lemma ClosedPageOverlaps() returns (states: seq<State>, steps: seq<Step>)
    ensures Behaviour(states, steps)
    ensures states[|steps|].log == [LockTaken(0), MeAnswered(0, 0, 401), PostSent(0, 0), PageClosed(0),
                                    LockTaken(1), MeAnswered(1, 1, 401), PostSent(1, 1)]
  {
    hide Leads;
    var s0, s;
    steps, s0, s := TabZeroPosts();
    Then(s0, steps, s, Close(0));
    var s1 := Taken(s, Close(0));
    steps := steps + [Close(0)];
    var more, s2 := IdleTabPosts(s1, 1);
    Joined(s0, steps, s1, more, s2);
    steps := steps + more;
    states := Traced(s0, steps, s2);
  }
}
