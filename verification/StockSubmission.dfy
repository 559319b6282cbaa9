/**
 Submitting stock from the inventory form when responses may be lost: the form keeps one idempotency key
 per pending payload, the ledger records each key once. Any number of forms share the ledger; a request
 that was sent may reach the ledger at any time, any number of times, or never.
 */
module StockSubmission {
  import opened Options
  import opened StockLedger
  import LowStockEpisodes

  /** Saving an ingredient's details carries no key. */
  datatype Action = Keyed(payload: Payload) | Details

  datatype Outcome = Succeeded | Lost | Status(code: int)

  datatype Pending = Pending(payload: Payload, key: nat)

  /** `current` is the save in flight; `key` is what it carries. */
  datatype Save = Save(action: Action, key: Option<nat>)

  datatype Form = Form(pending: Option<Pending>, accessLost: bool, current: Option<Save>)

  datatype Request = Request(payload: Payload, key: nat)

  datatype Answer = Answer(request: Request, reply: Reply)

  datatype World = World(forms: map<nat, Form>, ledger: Ledger, sent: set<Request>, answers: set<Answer>, nextKey: nat)

  datatype Step =
    | Open(form: nat)
    | Submit(form: nat, action: Action)
    | Execute(request: Request, id: nat)
    | Finish(form: nat, outcome: Outcome)
    | Consume(order: nat, needs: seq<Need>)
    | Edit(id: nat, name: string, threshold: int, active: bool)

  predicate AccessCode(code: int) { code == 401 || code == 403 || code == 404 }

  /** The form's key survives this outcome. */
  predicate Retains(form: Form, outcome: Outcome) {
    match outcome
    case Succeeded => form.accessLost
    case Lost => true
    case Status(code) => AccessCode(code) || code >= 500
  }

  function Finished(form: Form, outcome: Outcome): Form {
    Form(if Retains(form, outcome) then form.pending else None,
         form.accessLost || (outcome.Status? && AccessCode(outcome.code)), None)
  }

  /** The pending key if the payload is unchanged, else a new one. */
  function KeyFor(form: Form, payload: Payload, nextKey: nat): nat {
    if form.pending.Some? && form.pending.value.payload == payload then form.pending.value.key else nextKey
  }

  function Submitted(form: Form, action: Action, nextKey: nat): Form {
    match action
    case Details => form.(current := Some(Save(action, None)))
    case Keyed(payload) =>
      var key := KeyFor(form, payload, nextKey);
      form.(pending := Some(Pending(payload, key)), current := Some(Save(action, Some(key))))
  }

  /** The form's mutable reference, as `keyFor` and `run` read and write it. */
  class FormState {
    var pending: Option<Pending>
    var accessLost: bool
    var current: Option<Save>

    constructor ()
      ensures Value() == Form(None, false, None)
    {
      pending, accessLost, current := None, false, None;
    }

    function Value(): Form
      reads this
    {
      Form(pending, accessLost, current)
    }

    method Start(action: Action, newKey: nat) returns (key: Option<nat>)
      modifies this
      ensures Value() == Submitted(old(Value()), action, newKey) && Some(Save(action, key)) == current
    {
      key := None;
      if action.Keyed? {
        if pending.None? || pending.value.payload != action.payload {
          pending := Some(Pending(action.payload, newKey));
        }
        key := Some(pending.value.key);
      }
      current := Some(Save(action, key));
    }

    method Conclude(outcome: Outcome)
      modifies this
      ensures Value() == Finished(old(Value()), outcome)
    {
      current := None;
      match outcome
      case Succeeded =>
        if accessLost { return; }
        pending := None;
      case Lost =>
      case Status(code) =>
        if AccessCode(code) {
          accessLost := true;
          return;
        }
        if code < 500 { pending := None; }
    }
  }

  function Executed(ledger: Ledger, request: Request, id: nat): (Ledger, Reply)
    requires request.payload.Create? ==> id !in ledger.items
  {
    if request.payload.Stock? then Changed(ledger, request.payload, request.key) else Created(ledger, request.payload, request.key, id)
  }

  /** A success is only ever reported for a request the ledger accepted. */
  ghost predicate Honest(w: World, form: Form, outcome: Outcome) {
    outcome == Succeeded && form.current.Some? && form.current.value.action.Keyed? && form.current.value.key.Some? ==>
      exists answer :: answer in w.answers && Accepts(answer, Request(form.current.value.action.payload, form.current.value.key.value))
  }

  predicate Accepts(answer: Answer, request: Request) {
    answer.request == request && !answer.reply.Refused?
  }

  ghost predicate Enabled(w: World, step: Step) {
    match step
    case Open(f) => f !in w.forms
    case Submit(f, _) => f in w.forms && w.forms[f].current.None?
    case Execute(request, id) => request in w.sent && (request.payload.Create? ==> id !in w.ledger.items)
    case Finish(f, outcome) => f in w.forms && w.forms[f].current.Some? && Honest(w, w.forms[f], outcome)
    case Consume(_, needs) => Separate(needs)
    case Edit(_, _, _, _) => true
  }

  ghost function Taken(w: World, step: Step): World
    requires Enabled(w, step)
  {
    match step
    case Open(f) => w.(forms := w.forms[f := Form(None, false, None)])
    case Submit(f, action) =>
      var form := Submitted(w.forms[f], action, w.nextKey);
      w.(forms := w.forms[f := form],
         sent := if action.Keyed? then w.sent + {Request(action.payload, form.current.value.key.value)} else w.sent,
         nextKey := w.nextKey + 1)
    case Execute(request, id) =>
      var r := Executed(w.ledger, request, id);
      w.(ledger := r.0, answers := w.answers + {Answer(request, r.1)})
    case Finish(f, outcome) => w.(forms := w.forms[f := Finished(w.forms[f], outcome)])
    case Consume(order, needs) => w.(ledger := Consumed(w.ledger, order, needs).0)
    case Edit(id, name, threshold, active) => w.(ledger := Edited(w.ledger, id, name, threshold, active).0)
  }

  ghost predicate Behaviour(states: seq<World>, steps: seq<Step>) {
    && |states| == |steps| + 1 && states[0] == World(map[], Ledger(map[], []), {}, {}, 0)
    && forall i :: 0 <= i < |steps| ==> Enabled(states[i], steps[i]) && states[i + 1] == Taken(states[i], steps[i])
  }

  // ---------------------------------------------------------------------------
  // What every step keeps

  /** A key names one payload, forms only use keys that were handed out. */
  ghost predicate KeysOk(w: World) {
    && (forall r :: r in w.sent ==> r.key < w.nextKey)
    && (forall a, b :: a in w.sent && b in w.sent && a.key == b.key ==> a == b)
    && (forall f :: f in w.forms ==> FormOk(w, w.forms[f]))
  }

  predicate FormOk(w: World, form: Form) {
    && (form.pending.Some? ==> Request(form.pending.value.payload, form.pending.value.key) in w.sent)
    && (form.current.Some? && form.current.value.action.Keyed? ==> form.current.value.key.Some?)
  }

  /** Every keyed movement came from a request that was sent. */
  ghost predicate MovementsOk(w: World) {
    forall i :: 0 <= i < |w.ledger.movements| ==> CameFrom(w, w.ledger.movements[i])
  }

  predicate CameFrom(w: World, m: Movement) {
    m.key.Some? ==> m.request.Some? && Request(m.request.value, m.key.value) in w.sent && Fits(m, m.request.value)
  }

  predicate Fits(m: Movement, payload: Payload) {
    match payload
    case Stock(ingredient, kind, _, _, _) => m.ingredient == ingredient && m.kind == kind && kind != Opening
    case Create(_, _, _) => m.kind == Opening
  }

  ghost predicate AnswersOk(w: World) {
    forall a :: a in w.answers ==> a.request in w.sent && AnswerOk(w, a)
  }

  /** An accepted request has its movement; no honest client is told its key was used for something else. */
  ghost predicate AnswerOk(w: World, a: Answer) {
    && a.reply != Refused(KeyReused)
    && (!a.reply.Refused? ==> exists i :: 0 <= i < |w.ledger.movements| && Holds(w.ledger.movements[i], a.request))
  }

  predicate Holds(m: Movement, request: Request) {
    m.key == Some(request.key) && m.request == Some(request.payload)
  }

  ghost predicate OnePerKey(ledger: Ledger) {
    forall i, j :: 0 <= i < j < |ledger.movements| && ledger.movements[i].key.Some? ==> ledger.movements[i].key != ledger.movements[j].key
  }

  ghost predicate Inv(w: World) {
    KeysOk(w) && MovementsOk(w) && AnswersOk(w) && OnePerKey(w.ledger) && StockLedger.Inv(w.ledger)
  }

  /** A movement that carries a sent key is the answer to the one request with that key. */
  lemma KeyedMovement(w: World, request: Request, i: nat)
    requires KeysOk(w) && MovementsOk(w) && request in w.sent && i < |w.ledger.movements| && w.ledger.movements[i].key == Some(request.key)
    ensures Holds(w.ledger.movements[i], request) && Answers(w.ledger.movements[i], request.payload, request.key)
  {
    var m := w.ledger.movements[i];
    assert CameFrom(w, m);
    assert Request(m.request.value, m.key.value) == request;
  }

  /** Executing a sent request replays its movement or posts it as the first with its key. */
  lemma ExecutedEffect(w: World, request: Request, id: nat) returns (posted: Option<Movement>)
    requires KeysOk(w) && MovementsOk(w) && Enabled(w, Execute(request, id))
    ensures var (ledger, reply) := Executed(w.ledger, request, id);
            && reply != Refused(KeyReused)
            && ledger.movements == w.ledger.movements + (if posted.Some? then [posted.value] else [])
            && (posted.Some? ==> Holds(posted.value, request) && Fits(posted.value, request.payload))
            && (!reply.Refused? ==> exists i :: 0 <= i < |ledger.movements| && Holds(ledger.movements[i], request))
    ensures posted.Some? ==> forall i :: 0 <= i < |w.ledger.movements| ==> w.ledger.movements[i].key != Some(request.key)
  {
    hide KeysOk, MovementsOk;
    var movements := w.ledger.movements;
    var (ledger, reply) := Executed(w.ledger, request, id);
    var earlier := Earlier(movements, request.payload, request.key);
    if earlier.Some? {
      KeyedMovement(w, request, earlier.value);
    }
    posted := if reply == Recorded then Some(ledger.movements[|ledger.movements| - 1]) else None;
    if reply == Recorded {
      assert Holds(ledger.movements[|movements|], request);
      forall i | 0 <= i < |movements|
        ensures movements[i].key != Some(request.key)
      {
        if movements[i].key == Some(request.key) { KeyedMovement(w, request, i); }
      }
    }
  }

  /** Ledger rows that other commands write carry no key. */
  lemma {:induction false} ConsumedAppends(ledger: Ledger, order: nat, needs: seq<Need>) returns (rows: seq<Movement>)
    requires Separate(needs) && forall i :: 0 <= i < |needs| ==> Enough(ledger, needs[i])
    ensures ConsumedEach(ledger, order, needs).movements == ledger.movements + rows
    ensures forall i :: 0 <= i < |rows| ==> rows[i].key.None?
    decreases |needs|
  {
    if needs == [] {
      rows := [];
    } else {
      var next := ConsumedOne(ledger, order, needs[0]);
      forall i | 0 <= i < |needs| - 1
        ensures Enough(next, needs[1..][i])
      {
        assert Enough(ledger, needs[i + 1]);
      }
      var more := ConsumedAppends(next, order, needs[1..]);
      rows := [next.movements[|ledger.movements|]] + more;
    }
  }

  /** What a step adds to the movements. */
  lemma Added(w: World, step: Step) returns (rows: seq<Movement>)
    requires KeysOk(w) && MovementsOk(w) && Enabled(w, step)
    ensures Taken(w, step).ledger.movements == w.ledger.movements + rows
    ensures forall i :: 0 <= i < |rows| ==> rows[i].key.None? || (step.Execute? && |rows| == 1 && Holds(rows[i], step.request) && Fits(rows[i], step.request.payload))
    ensures forall i, j :: 0 <= i < |w.ledger.movements| && 0 <= j < |rows| && rows[j].key.Some? ==> w.ledger.movements[i].key != rows[j].key
  {
    hide KeysOk, MovementsOk, Executed, ConsumedEach, Fits;
    rows := [];
    match step
    case Execute(request, id) =>
      var posted := ExecutedEffect(w, request, id);
      rows := if posted.Some? then [posted.value] else [];
    case Consume(order, needs) =>
      if Consumed(w.ledger, order, needs).1 == Recorded {
        rows := ConsumedAppends(w.ledger, order, needs);
      }
    case _ =>
  }

  lemma KeysKept(w: World, step: Step)
    requires KeysOk(w) && Enabled(w, step)
    ensures KeysOk(Taken(w, step))
  {
    hide Executed, Consumed, Edited, Honest, Retains;
    var w' := Taken(w, step);
    forall f | f in w'.forms
      ensures FormOk(w', w'.forms[f])
    {
      if f in w.forms { assert FormOk(w, w.forms[f]); }
    }
    if step.Submit? { assert FormOk(w, w.forms[step.form]); }
  }

  lemma SentGrows(w: World, step: Step)
    requires Enabled(w, step)
    ensures w.sent <= Taken(w, step).sent && w.nextKey <= Taken(w, step).nextKey
    ensures Taken(w, step).answers == if step.Execute? then w.answers + {Answer(step.request, Executed(w.ledger, step.request, step.id).1)} else w.answers
  {
    hide Executed, Consumed, Edited, Honest;
  }

  lemma MovementsKept(w: World, step: Step)
    requires KeysOk(w) && MovementsOk(w) && AnswersOk(w) && OnePerKey(w.ledger) && Enabled(w, step)
    ensures MovementsOk(Taken(w, step)) && OnePerKey(Taken(w, step).ledger) && AnswersOk(Taken(w, step))
  {
    hide KeysOk, Taken, Executed, Honest, Fits;
    var w' := Taken(w, step);
    var rows := Added(w, step);
    SentGrows(w, step);
    ghost var before, after := w.ledger.movements, w'.ledger.movements;
    assert step.Execute? ==> step.request in w.sent;
    assert forall i :: |before| <= i < |after| ==> after[i] == rows[i - |before|];
    forall i | 0 <= i < |after|
      ensures CameFrom(w', after[i])
    {
      if i < |before| { assert CameFrom(w, before[i]); }
    }
    forall i, j | 0 <= i < j < |after| && after[i].key.Some?
      ensures after[i].key != after[j].key
    {
    }
    forall a | a in w'.answers
      ensures a.request in w'.sent && AnswerOk(w', a)
    {
      if a in w.answers {
        AnswerStays(w, w', a, rows);
      } else {
        NewAnswer(w, step, a);
      }
    }
  }

  lemma AnswerStays(w: World, w': World, a: Answer, rows: seq<Movement>)
    requires AnswerOk(w, a) && w'.ledger.movements == w.ledger.movements + rows
    ensures AnswerOk(w', a)
  {
    if !a.reply.Refused? {
      var i :| 0 <= i < |w.ledger.movements| && Holds(w.ledger.movements[i], a.request);
      assert Holds(w'.ledger.movements[i], a.request);
    }
  }

  lemma NewAnswer(w: World, step: Step, a: Answer)
    requires KeysOk(w) && MovementsOk(w) && Enabled(w, step) && step.Execute?
    requires a == Answer(step.request, Executed(w.ledger, step.request, step.id).1)
    ensures AnswerOk(Taken(w, step), a)
  {
    hide KeysOk, MovementsOk, Executed;
    var posted := ExecutedEffect(w, step.request, step.id);
  }

  lemma LedgerKept(w: World, step: Step)
    requires StockLedger.Inv(w.ledger) && Enabled(w, step)
    ensures StockLedger.Inv(Taken(w, step).ledger)
  {
    hide StockLedger.Inv, Changed, Created, Consumed, Edited;
    match step
    case Execute(request, id) =>
      if request.payload.Stock? { ChangedKeeps(w.ledger, request.payload, request.key); } else { CreatedKeeps(w.ledger, request.payload, request.key, id); }
    case Consume(order, needs) => ConsumedKeeps(w.ledger, order, needs);
    case Edit(id, name, threshold, active) => EditedKeeps(w.ledger, id, name, threshold, active);
    case _ =>
  }

  lemma {:induction false} BehaviourInv(states: seq<World>, steps: seq<Step>, i: nat)
    requires Behaviour(states, steps) && i < |states|
    ensures Inv(states[i])
  {
    hide KeysOk, MovementsOk, AnswersOk, OnePerKey, StockLedger.Inv, Taken, Enabled;
    if i == 0 {
      EmptyInv(states[0]);
    } else {
      BehaviourInv(states, steps, i - 1);
      KeysKept(states[i - 1], steps[i - 1]);
      MovementsKept(states[i - 1], steps[i - 1]);
      LedgerKept(states[i - 1], steps[i - 1]);
    }
  }

  lemma EmptyInv(w: World)
    requires w == World(map[], Ledger(map[], []), {}, {}, 0)
    ensures Inv(w)
  {
  }

  // ---------------------------------------------------------------------------
  // The promises

  /** In every run each key records at most one movement, and each balance is the sum of its movements. */
  lemma EachKeyRecordsOnce(states: seq<World>, steps: seq<Step>, i: nat)
    requires Behaviour(states, steps) && i < |states|
    ensures OnePerKey(states[i].ledger) && StockLedger.Inv(states[i].ledger)
  {
    hide Behaviour, OnePerKey, StockLedger.Inv;
    BehaviourInv(states, steps, i);
  }

  /** No form is ever told that its key was used for a different request. */
  lemma KeysNeverConflict(states: seq<World>, steps: seq<Step>, i: nat, a: Answer)
    requires Behaviour(states, steps) && i < |states| && a in states[i].answers
    ensures a.reply != Refused(KeyReused)
  {
    hide Behaviour, OnePerKey, StockLedger.Inv, KeysOk, MovementsOk;
    BehaviourInv(states, steps, i);
    assert AnswerOk(states[i], a);
  }

  /** A save that is reported as successful has exactly one movement, with its payload. */
  lemma SuccessIsRecordedOnce(states: seq<World>, steps: seq<Step>, i: nat) returns (m: nat)
    requires Behaviour(states, steps) && i < |steps| && steps[i].Finish? && steps[i].outcome == Succeeded
    requires states[i].forms[steps[i].form].current.value.action.Keyed?
    ensures var save := states[i].forms[steps[i].form].current.value; var movements := states[i].ledger.movements;
            && save.key.Some? && m < |movements| && Holds(movements[m], Request(save.action.payload, save.key.value))
            && forall j :: 0 <= j < |movements| && movements[j].key == save.key ==> j == m
  {
    hide MovementsOk, StockLedger.Inv, Taken;
    BehaviourInv(states, steps, i);
    var w := states[i];
    var form := w.forms[steps[i].form];
    assert FormOk(w, form);
    var request := Request(form.current.value.action.payload, form.current.value.key.value);
    var answer :| answer in w.answers && Accepts(answer, request);
    assert AnswerOk(w, answer);
    m :| 0 <= m < |w.ledger.movements| && Holds(w.ledger.movements[m], request);
  }

  /** This step of the run leaves the form's key for a payload in place. */
  ghost predicate Keeps(w: World, step: Step, f: nat, payload: Payload)
    requires Enabled(w, step)
  {
    && (step.Finish? && step.form == f ==> Retains(w.forms[f], step.outcome))
    && (step.Submit? && step.form == f && step.action.Keyed? ==> step.action.payload == payload)
  }

  /** The key that the submission at step i carries. */
  function KeyAt(states: seq<World>, steps: seq<Step>, i: nat): nat
    requires i < |steps| < |states| && steps[i].Submit? && steps[i].action.Keyed? && steps[i].form in states[i].forms
  {
    KeyFor(states[i].forms[steps[i].form], steps[i].action.payload, states[i].nextKey)
  }

  /** The form has moved on from a key: whatever it holds now is newer. */
  predicate Past(w: World, f: nat, key: nat) {
    f in w.forms && key < w.nextKey && (w.forms[f].pending.Some? ==> key < w.forms[f].pending.value.key)
  }

  predicate Holding(w: World, f: nat, pending: Pending) {
    f in w.forms && pending.key < w.nextKey && w.forms[f].pending == Some(pending)
  }

  lemma OneStep(w: World, step: Step, f: nat, pending: Pending)
    requires Enabled(w, step)
    ensures Past(w, f, pending.key) ==> Past(Taken(w, step), f, pending.key)
    ensures Holding(w, f, pending) ==> if Keeps(w, step, f, pending.payload) then Holding(Taken(w, step), f, pending) else Past(Taken(w, step), f, pending.key)
  {
    hide Executed, Consumed, Edited, Honest;
  }

  ghost predicate AllKeep(states: seq<World>, steps: seq<Step>, f: nat, payload: Payload, i: nat, j: nat)
    requires Behaviour(states, steps) && j < |states|
  {
    forall k :: i <= k < j ==> Keeps(states[k], steps[k], f, payload)
  }

  lemma {:induction false} Followed(states: seq<World>, steps: seq<Step>, f: nat, pending: Pending, i: nat, j: nat)
    requires Behaviour(states, steps) && i <= j < |states| && Holding(states[i], f, pending)
    ensures if AllKeep(states, steps, f, pending.payload, i, j) then Holding(states[j], f, pending) else Past(states[j], f, pending.key)
    decreases j
  {
    hide Taken, Keeps, Past, Holding;
    if i < j {
      Followed(states, steps, f, pending, i, j - 1);
      OneStep(states[j - 1], steps[j - 1], f, pending);
      assert AllKeep(states, steps, f, pending.payload, i, j) <==>
        AllKeep(states, steps, f, pending.payload, i, j - 1) && Keeps(states[j - 1], steps[j - 1], f, pending.payload);
    }
  }

  /**
   Two submissions of the same payload carry the same key exactly when nothing in between made the form
   forget it: every outcome was a lost response, a server error or a loss of access, and no other keyed
   payload was submitted.
   */
  lemma ResubmissionSharesKey(states: seq<World>, steps: seq<Step>, i: nat, j: nat)
    requires Behaviour(states, steps) && i < j < |steps| && steps[i].Submit? && steps[i].action.Keyed? && steps[j] == steps[i]
    ensures KeyAt(states, steps, i) == KeyAt(states, steps, j) <==> AllKeep(states, steps, steps[i].form, steps[i].action.payload, i + 1, j)
  {
    hide AllKeep, Executed, Consumed, Edited, Honest, StockLedger.Inv;
    var f, payload, key := steps[i].form, steps[i].action.payload, KeyAt(states, steps, i);
    BehaviourInv(states, steps, i);
    assert FormOk(states[i], states[i].forms[f]);
    assert Enabled(states[i], steps[i]) && states[i + 1] == Taken(states[i], steps[i]) && Enabled(states[j], steps[j]);
    Followed(states, steps, f, Pending(payload, key), i + 1, j);
  }

  /** Which outcomes make the form forget its key, and which take its access away. */
  lemma OutcomeForgetsKeyIff(form: Form, outcome: Outcome)
    requires form.pending.Some?
    ensures var form' := Finished(form, outcome);
            && (form'.pending.None? <==>
                  || (outcome == Succeeded && !form.accessLost)
                  || (outcome.Status? && outcome.code < 500 && outcome.code != 401 && outcome.code != 403 && outcome.code != 404))
            && (form'.pending.Some? ==> form'.pending == form.pending) && form'.current.None?
            && (form'.accessLost <==> form.accessLost || outcome == Status(401) || outcome == Status(403) || outcome == Status(404))
  {
  }

  lemma KeyUntil(states: seq<World>, steps: seq<Step>, i: nat, j: nat, a: nat)
    requires Behaviour(states, steps) && i <= a <= j < |steps| && steps[i].Submit? && steps[i].action.Keyed? && steps[a] == steps[i]
    requires AllKeep(states, steps, steps[i].form, steps[i].action.payload, i + 1, j)
    ensures KeyAt(states, steps, a) == KeyAt(states, steps, i)
  {
    hide Taken, Keeps, KeyAt;
    if i < a {
      assert AllKeep(states, steps, steps[i].form, steps[i].action.payload, i + 1, a);
      ResubmissionSharesKey(states, steps, i, a);
    }
  }

  /**
   However often a payload is submitted again while nothing makes the form forget its key, all those
   submissions together have at most one movement, now and at any later time.
   */
  lemma ResubmissionsRecordOnce(states: seq<World>, steps: seq<Step>, i: nat, j: nat, a: nat, b: nat, n: nat, m1: nat, m2: nat)
    requires Behaviour(states, steps) && i <= a <= j && i <= b <= j < |steps| && n < |states|
    requires steps[i].Submit? && steps[i].action.Keyed? && steps[a] == steps[i] && steps[b] == steps[i]
    requires AllKeep(states, steps, steps[i].form, steps[i].action.payload, i + 1, j)
    requires m1 < |states[n].ledger.movements| && states[n].ledger.movements[m1].key == Some(KeyAt(states, steps, a))
    requires m2 < |states[n].ledger.movements| && states[n].ledger.movements[m2].key == Some(KeyAt(states, steps, b))
    ensures m1 == m2
  {
    hide Taken, Keeps, KeyAt, Behaviour, StockLedger.Inv;
    KeyUntil(states, steps, i, j, a);
    KeyUntil(states, steps, i, j, b);
    EachKeyRecordsOnce(states, steps, n);
  }

  predicate Receivable(ledger: Ledger, payload: Payload, times: nat) {
    && payload.Stock? && payload.kind == Receipt && WellFormed(payload)
    && payload.ingredient in ledger.items && ledger.items[payload.ingredient].active && 0 <= ledger.items[payload.ingredient].quantity
    && ledger.items[payload.ingredient].quantity + times * payload.quantity <= LowStockEpisodes.MAX_QUANTITY
  }

  predicate Ready(w: World, f: nat) {
    f in w.forms && w.forms[f].pending.None? && w.forms[f].current.None? && !w.forms[f].accessLost
  }

  lemma Extended(states: seq<World>, steps: seq<Step>, step: Step)
    requires Behaviour(states, steps) && Enabled(states[|steps|], step)
    ensures Behaviour(states + [Taken(states[|steps|], step)], steps + [step])
  {
    hide Enabled, Taken;
  }

  /** A ready form submits a receipt under a new key and the ledger records it. */
  lemma Receives(states: seq<World>, steps: seq<Step>, f: nat, payload: Payload, times: nat) returns (states': seq<World>, key: nat)
    requires Behaviour(states, steps) && Ready(states[|steps|], f) && times > 0 && Receivable(states[|steps|].ledger, payload, times)
    ensures Behaviour(states', steps + [Submit(f, Keyed(payload)), Execute(Request(payload, key), 0)]) && |states'| == |steps| + 3
    ensures var w, w' := states[|steps|], states'[|steps| + 2];
            && payload.Stock? && payload.ingredient in w.ledger.items && payload.ingredient in w'.ledger.items
            && Receivable(w'.ledger, payload, times - 1) && f in w'.forms && w'.forms[f] == Form(Some(Pending(payload, key)), false, Some(Save(Keyed(payload), Some(key))))
            && w'.ledger.items[payload.ingredient].quantity == w.ledger.items[payload.ingredient].quantity + payload.quantity
  {
    hide StockLedger.Inv, OnePerKey, AnswersOk, Receivable, Changed;
    var w := states[|steps|];
    assert payload.Stock? && payload.ingredient in w.ledger.items by { StockPayload(w.ledger, payload, times); }
    BehaviourInv(states, steps, |steps|);
    key := w.nextKey;
    var submit, execute := Submit(f, Keyed(payload)), Execute(Request(payload, key), 0);
    Extended(states, steps, submit);
    var w1 := Taken(w, submit);
    NewKeyUnseen(w, payload);
    ReceiptRecorded(w.ledger, payload, key, times);
    Extended(states + [w1], steps + [submit], execute);
    states' := states + [w1] + [Taken(w1, execute)];
    assert steps + [submit] + [execute] == steps + [submit, execute];
  }

  lemma StockPayload(ledger: Ledger, payload: Payload, times: nat)
    requires Receivable(ledger, payload, times)
    ensures payload.Stock? && payload.ingredient in ledger.items
  {
  }

  lemma NewKeyUnseen(w: World, payload: Payload)
    requires KeysOk(w) && MovementsOk(w)
    ensures Earlier(w.ledger.movements, payload, w.nextKey).None?
  {
    forall i | 0 <= i < |w.ledger.movements|
      ensures w.ledger.movements[i].key != Some(w.nextKey)
    {
      assert CameFrom(w, w.ledger.movements[i]);
    }
  }

  lemma ReceiptRecorded(ledger: Ledger, payload: Payload, key: nat, times: nat)
    requires times > 0 && Receivable(ledger, payload, times) && Earlier(ledger.movements, payload, key).None?
    ensures var (ledger', reply) := Changed(ledger, payload, key);
            && payload.ingredient in ledger'.items && Receivable(ledger', payload, times - 1)
            && ledger'.items[payload.ingredient].quantity == ledger.items[payload.ingredient].quantity + payload.quantity
  {
    hide Earlier;
    assert times * payload.quantity == (times - 1) * payload.quantity + payload.quantity;
    assert (times - 1) * payload.quantity >= 0;
  }

  /**
   The key is forgotten too soon when another save succeeds in between: a receipt whose response was lost,
   then a successful save of an ingredient's details, then the same receipt again adds the stock twice.
   */
  lemma ForgottenKeyRecordsTwice(states: seq<World>, steps: seq<Step>, f: nat, payload: Payload) returns (states': seq<World>, k1: nat, k2: nat)
    requires Behaviour(states, steps) && Ready(states[|steps|], f) && Receivable(states[|steps|].ledger, payload, 2)
    ensures Behaviour(states', steps + [Submit(f, Keyed(payload)), Execute(Request(payload, k1), 0)]
                               + [Finish(f, Lost), Submit(f, Details), Finish(f, Succeeded)]
                               + [Submit(f, Keyed(payload)), Execute(Request(payload, k2), 0)])
    ensures var w, w' := states[|steps|], states'[|states'| - 1];
            && payload.ingredient in w'.ledger.items
            && w'.ledger.items[payload.ingredient].quantity == w.ledger.items[payload.ingredient].quantity + 2 * payload.quantity
  {
    hide Behaviour, Receivable, Executed, Consumed, Edited;
    states', k1 := Receives(states, steps, f, payload, 2);
    var done := steps + [Submit(f, Keyed(payload)), Execute(Request(payload, k1), 0)];
    states' := Distracted(states', done, f);
    states', k2 := Receives(states', done + [Finish(f, Lost), Submit(f, Details), Finish(f, Succeeded)], f, payload, 1);
  }

  /** The response is lost, then a save of details succeeds. */
  lemma Distracted(states: seq<World>, steps: seq<Step>, f: nat) returns (states': seq<World>)
    requires Behaviour(states, steps) && f in states[|steps|].forms && states[|steps|].forms[f].current.Some? && !states[|steps|].forms[f].accessLost
    ensures Behaviour(states', steps + [Finish(f, Lost), Submit(f, Details), Finish(f, Succeeded)]) && |states'| == |steps| + 4
    ensures states'[|steps| + 3].ledger == states[|steps|].ledger && Ready(states'[|steps| + 3], f)
  {
    hide Executed, Consumed, Edited;
    var w := states[|steps|];
    var w1 := Taken(w, Finish(f, Lost));
    var w2 := Taken(w1, Submit(f, Details));
    var w3 := Taken(w2, Finish(f, Succeeded));
    Extended(states, steps, Finish(f, Lost));
    Extended(states + [w1], steps + [Finish(f, Lost)], Submit(f, Details));
    Extended(states + [w1] + [w2], steps + [Finish(f, Lost)] + [Submit(f, Details)], Finish(f, Succeeded));
    states' := states + [w1] + [w2] + [w3];
    assert steps + [Finish(f, Lost)] + [Submit(f, Details)] + [Finish(f, Succeeded)] == steps + [Finish(f, Lost), Submit(f, Details), Finish(f, Succeeded)];
  }
}
