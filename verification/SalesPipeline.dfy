/**
 The sales system joined with the event execution protocol: every appended fact gets one analytics
 delivery, and committing that delivery's effect IS delivering the fact to the projection.
 */
module SalesPipeline {
  import opened Options
  import opened SalesContributions
  import opened SalesProjection
  import S = SalesSystem
  import E = EventExecution

  datatype Pipeline = Pipeline(world: S.World, deliveries: map<Contribution, E.System>)

  datatype Action =
    | Business(command: S.Command)
    | Transport(fact: Contribution, step: E.Step, now: int, result: E.Result)

  /** What the analytics handler reports for a fact. */
  function HandlerOutcome(t: Tables, fact: Contribution): E.Outcome {
    if ShouldApply(Current(t.rows, fact.orderId), fact) then E.Processed else E.Skipped
  }

  ghost predicate Commits(step: E.Step, result: E.Result) {
    step.Effect? && result == E.Acknowledge
  }

  ghost predicate Next(policy: E.Policy, p: Pipeline, action: Action, p': Pipeline) {
    match action
    case Business(command) =>
      && !command.Deliver? && S.Next(p.world, command, p'.world)
      && p'.deliveries.Keys == p'.world.outbox
      && (forall f :: f in p.deliveries && f in p'.deliveries ==> p'.deliveries[f] == p.deliveries[f])
      && (forall f :: f in p'.deliveries && f !in p.deliveries ==> E.Init(p'.deliveries[f]))
    case Transport(fact, step, now, result) =>
      && fact in p.deliveries && fact in p'.deliveries
      && E.Next(policy, p.deliveries[fact], step, now, p'.deliveries[fact], result)
      && p'.deliveries == p.deliveries[fact := p'.deliveries[fact]]
      && (step.Effect? ==> step.outcome == HandlerOutcome(p.world.tables, fact))
      && (if Commits(step, result) then S.Next(p.world, S.Deliver(fact), p'.world) else p'.world == p.world)
  }

  ghost predicate Init(p: Pipeline) {
    S.Init(p.world) && p.deliveries == map[]
  }

  ghost predicate Behaviour(policy: E.Policy, ps: seq<Pipeline>, actions: seq<Action>) {
    && |ps| == |actions| + 1
    && Init(ps[0])
    && forall i :: 0 <= i < |actions| ==> Next(policy, ps[i], actions[i], ps[i + 1])
  }

  /** A delivery that succeeded is a fact the projection has seen. */
  ghost predicate Inv(policy: E.Policy, p: Pipeline) {
    && S.Inv(p.world)
    && p.deliveries.Keys == p.world.outbox
    && (forall f :: f in p.deliveries ==> E.Inv(policy, p.deliveries[f]))
    && (forall f :: f in p.deliveries && p.deliveries[f].d.status == E.Succeeded ==> f in p.world.seen)
  }

  lemma OutboxGrows(w: S.World, command: S.Command, w': S.World)
    requires S.Inv(w) && S.Next(w, command, w')
    ensures w.outbox <= w'.outbox && w.seen <= w'.seen
  {
    if command.Rebuild? {
      S.RebuildInv(w, command, w');
      assert S.SeenMarked(w);
    }
  }

  lemma NewDelivery(policy: E.Policy, s: E.System)
    requires E.Init(s)
    ensures E.Inv(policy, s) && s.d.status == E.Pending
  {
  }

  lemma BusinessInv(policy: E.Policy, p: Pipeline, action: Action, p': Pipeline)
    requires Inv(policy, p) && action.Business? && Next(policy, p, action, p')
    ensures Inv(policy, p')
  {
    hide S.Inv, S.Next, E.Inv, E.Init;
    S.NextInv(p.world, action.command, p'.world);
    OutboxGrows(p.world, action.command, p'.world);
    forall f | f in p'.deliveries
      ensures E.Inv(policy, p'.deliveries[f]) && (p'.deliveries[f].d.status == E.Succeeded ==> f in p'.world.seen)
    {
      if f !in p.deliveries {
        NewDelivery(policy, p'.deliveries[f]);
      }
    }
  }

  lemma DeliverEffect(w: S.World, f: Contribution, w': S.World)
    requires S.Next(w, S.Deliver(f), w')
    ensures w'.seen == w.seen + {f} && w'.outbox == w.outbox
  {
  }

  /** Only a committed effect makes a delivery succeed. */
  lemma SuccessIsCommitted(policy: E.Policy, s: E.System, step: E.Step, now: int, s': E.System, result: E.Result)
    requires E.Inv(policy, s) && E.Next(policy, s, step, now, s', result)
    ensures s'.d.status == E.Succeeded ==> s.d.status == E.Succeeded || Commits(step, result)
  {
  }

  lemma TransportInv(policy: E.Policy, p: Pipeline, action: Action, p': Pipeline)
    requires Inv(policy, p) && action.Transport? && Next(policy, p, action, p')
    ensures Inv(policy, p')
  {
    hide S.Inv, E.Inv, E.Next, S.Next;
    var f := action.fact;
    E.NextInv(policy, p.deliveries[f], action.step, action.now, p'.deliveries[f], action.result);
    SuccessIsCommitted(policy, p.deliveries[f], action.step, action.now, p'.deliveries[f], action.result);
    if Commits(action.step, action.result) {
      S.NextInv(p.world, S.Deliver(f), p'.world);
      DeliverEffect(p.world, f, p'.world);
    }
  }

  lemma {:induction false} BehaviourInv(policy: E.Policy, ps: seq<Pipeline>, actions: seq<Action>, i: nat)
    requires Behaviour(policy, ps, actions) && i < |ps|
    ensures Inv(policy, ps[i])
  {
    if i == 0 {
      S.InitInv(ps[0].world);
    } else {
      BehaviourInv(policy, ps, actions, i - 1);
      assert Next(policy, ps[i - 1], actions[i - 1], ps[i]);
      match actions[i - 1]
      case Business(_) => BusinessInv(policy, ps[i - 1], actions[i - 1], ps[i]);
      case Transport(_, _, _, _) => TransportInv(policy, ps[i - 1], actions[i - 1], ps[i]);
    }
  }

  /**
   In every interleaving of order commands, rebuilds, workers, crashes, recoveries and replays: when every
   analytics delivery has succeeded (and pre-outbox orders were seeded), each day's projected totals are the
   totals of the live completed orders, reconciliation with those reports a match, and each fact's effect was
   committed exactly once.
   */
  lemma AllSucceededMatchesOrders(policy: E.Policy, ps: seq<Pipeline>, actions: seq<Action>, i: nat, authoritative: Daily)
    requires Behaviour(policy, ps, actions) && i < |ps|
    requires forall f :: f in ps[i].deliveries ==> ps[i].deliveries[f].d.status == E.Succeeded
    requires ps[i].world.unseeded == {}
    ensures S.Authoritative(ps[i].world.tables.daily, ps[i].world.orders)
    ensures Matches(ps[i].world.tables.daily, authoritative) <==> S.Authoritative(authoritative, ps[i].world.orders)
    ensures forall f :: f in ps[i].world.outbox ==> f in ps[i].deliveries && ps[i].deliveries[f].d.effects == 1
  {
    var p := ps[i];
    BehaviourInv(policy, ps, actions, i);
    forall f | f in p.world.outbox ensures f in p.world.seen && f in p.deliveries && p.deliveries[f].d.effects == 1 {
      assert f in p.deliveries;
    }
    S.CaughtUpMatches(p.world, authoritative);
  }

  /** A maintenance rebuild brings the days back in step whatever the state of the deliveries. */
  lemma RebuildMatchesOrders(policy: E.Policy, ps: seq<Pipeline>, actions: seq<Action>, i: nat, authoritative: Daily)
    requires Behaviour(policy, ps, actions) && i < |actions|
    requires actions[i].Business? && actions[i].command.Rebuild?
    ensures S.Authoritative(ps[i + 1].world.tables.daily, ps[i + 1].world.orders)
    ensures Matches(ps[i + 1].world.tables.daily, authoritative) <==> S.Authoritative(authoritative, ps[i + 1].world.orders)
  {
    BehaviourInv(policy, ps, actions, i);
    BehaviourInv(policy, ps, actions, i + 1);
    S.RebuildInv(ps[i].world, actions[i].command, ps[i + 1].world);
    S.CaughtUpMatches(ps[i + 1].world, authoritative);
  }
}
