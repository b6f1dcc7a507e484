/**
 The status of a subscription and everyone who writes it: the state machine
 (app/services/subscriptions/fsm.py), activation and closing (subscription.py),
 the portal (portal.py), bulk operations (app/services/bulk/operations.py) and
 dunning (app/services/billing/dunning_service.py).
 */
module Subscriptions {
  import opened Wrappers

  datatype Status = Draft | Quotation | Confirmed | Active | Paused | Closed

  /** `created` numbers the rows in the order of their creation. */
  datatype Subscription = Subscription(customer: nat, plan: nat, status: Status, created: nat)

  /** `closable` holds the flag of each plan that exists; `factoryRuns` lists the subscriptions for
      which `create_from_subscription` made an invoice, in order. */
  datatype State = State(subs: map<nat, Subscription>, closable: map<nat, bool>, factoryRuns: seq<nat>)

  // ---- Specification ------------------------------------------------------

  /** The transition table has no entry for Paused. */
  function Transitions(current: Status): set<Status> {
    match current
    case Draft => {Quotation}
    case Quotation => {Confirmed, Draft}
    case Confirmed => {Active}
    case Active => {Closed}
    case Closed => {}
    case Paused => {}
  }

  function NextActivation(current: Status): Option<Status> {
    match current
    case Draft => Some(Quotation)
    case Quotation => Some(Confirmed)
    case Confirmed => Some(Active)
    case _ => None
  }

  /** An unknown plan does not block closing. */
  predicate Closable(s: State, plan: nat) {
    plan in s.closable ==> s.closable[plan]
  }

  predicate MayMove(s: State, id: nat, target: Status) {
    && id in s.subs && target in Transitions(s.subs[id].status)
    && (target == Closed ==> Closable(s, s.subs[id].plan))
  }

  function Put(s: State, id: nat, status: Status): State
    requires id in s.subs
  {
    s.(subs := s.subs[id := s.subs[id].(status := status)])
  }

  function DoTransition(s: State, id: nat, target: Status): Result<State> {
    if id !in s.subs then Err(NotFound)
    else if MayMove(s, id, target) then Ok(Put(s, id, target))
    else Err(Conflict)
  }

  function DoActivate(s: State, id: nat): Result<State> {
    if id !in s.subs then Err(NotFound)
    else match NextActivation(s.subs[id].status)
      case None => Err(Conflict)
      case Some(target) =>
        var moved := Put(s, id, target);
        Ok(if target == Active then moved.(factoryRuns := s.factoryRuns + [id]) else moved)
  }

  function OpenOf(s: State, customer: nat): set<nat> {
    set id | id in s.subs && s.subs[id].customer == customer && s.subs[id].status != Closed
  }

  function DoPortalCreate(s: State, id: nat, customer: nat, plan: nat): Result<State> {
    if OpenOf(s, customer) != {} then Err(Conflict)
    else if plan !in s.closable then Err(NotFound)
    else if id in s.subs then Err(Crash)
    else Ok(s.(subs := s.subs[id := Subscription(customer, plan, Active, |s.subs|)], factoryRuns := s.factoryRuns + [id]))
  }

  function DoCreate(s: State, id: nat, customer: nat, plan: nat): Result<State> {
    if plan !in s.closable then Err(NotFound)
    else if id in s.subs then Err(Crash)
    else Ok(s.(subs := s.subs[id := Subscription(customer, plan, Draft, |s.subs|)]))
  }

  /** A portal user's own subscription is never a paused or closed one. */
  predicate Shown(sub: Subscription, customer: nat) {
    sub.customer == customer && sub.status != Paused && sub.status != Closed
  }

  /** It is the latest of these. */
  predicate OwnedByPortal(s: State, id: nat, customer: nat) {
    && id in s.subs && Shown(s.subs[id], customer)
    && forall k | k in s.subs && Shown(s.subs[k], customer) :: s.subs[k].created <= s.subs[id].created
  }

  function DoPortalCancel(s: State, id: nat, customer: nat): Result<State> {
    if !OwnedByPortal(s, id, customer) || s.subs[id].plan !in s.closable then Err(NotFound)
    else DoTransition(s, id, Closed)
  }

  /** What a bulk operation makes of one found row; None reports it as failed. */
  function BulkActivated(status: Status): Option<Status> {
    if status == Confirmed || status == Paused then Some(Active) else None
  }

  function BulkClosed(status: Status): Option<Status> {
    if status != Closed && status != Draft then Some(Closed) else None
  }

  function PutAll(s: State, ids: set<nat>, change: Status -> Option<Status>): State {
    s.(subs := map id | id in s.subs ::
      if id in ids && change(s.subs[id].status).Some? then s.subs[id].(status := change(s.subs[id].status).value)
      else s.subs[id])
  }

  /** Dunning writes the status without looking at it. */
  function DoForce(s: State, id: nat, status: Status): Result<State> {
    if id in s.subs then Ok(Put(s, id, status)) else Err(NotFound)
  }

  datatype Op =
    | Create(id: nat, customer: nat, plan: nat)
    | PortalCreate(id: nat, customer: nat, plan: nat)
    | Activate(id: nat)
    | Transition(id: nat, target: Status)
    | Close(id: nat)
    | PortalCancel(id: nat, customer: nat)
    | BulkActivate(ids: set<nat>)
    | BulkClose(ids: set<nat>)
    | DunningSuspend(id: nat)
    | DunningCancel(id: nat)

  function Attempt(s: State, op: Op): Result<State> {
    match op
    case Create(id, customer, plan) => DoCreate(s, id, customer, plan)
    case PortalCreate(id, customer, plan) => DoPortalCreate(s, id, customer, plan)
    case Activate(id) => DoActivate(s, id)
    case Transition(id, target) => DoTransition(s, id, target)
    case Close(id) => DoTransition(s, id, Closed)
    case PortalCancel(id, customer) => DoPortalCancel(s, id, customer)
    case BulkActivate(ids) => Ok(PutAll(s, ids, BulkActivated))
    case BulkClose(ids) => Ok(PutAll(s, ids, BulkClosed))
    case DunningSuspend(id) => DoForce(s, id, Paused)
    case DunningCancel(id) => DoForce(s, id, Closed)
  }

  function Apply(s: State, op: Op): State {
    match Attempt(s, op)
    case Ok(t) => t
    case Err(_) => s
  }

  function Run(s: State, ops: seq<Op>): State
    decreases |ops|
  {
    if ops == [] then s else Run(Apply(s, ops[0]), ops[1..])
  }

  // ---- The services -------------------------------------------------------

  class SubscriptionStore {
    var subs: map<nat, Subscription>
    var factoryRuns: seq<nat>
    const closable: map<nat, bool>

    constructor (closable: map<nat, bool>)
      ensures Current() == State(map[], closable, [])
    {
      subs, factoryRuns := map[], [];
      this.closable := closable;
    }

    function Current(): State
      reads this
    {
      State(subs, closable, factoryRuns)
    }

    /** `SubscriptionStatusFSM.transition` on a loaded row. */
    method Move(id: nat, target: Status) returns (r: Result<State>)
      requires id in subs
      modifies this`subs
      ensures r == DoTransition(old(Current()), id, target)
      ensures Current() == if r.Ok? then r.value else old(Current())
    {
      if target !in Transitions(subs[id].status) {
        return Err(Conflict);
      }
      if target == Closed {
        var plan := subs[id].plan;
        if plan in closable && !closable[plan] {
          return Err(Conflict);
        }
      }
      subs := subs[id := subs[id].(status := target)];
      return Ok(Current());
    }

    method ActivateOne(id: nat) returns (r: Result<State>)
      modifies this
      ensures r == DoActivate(old(Current()), id)
      ensures Current() == if r.Ok? then r.value else old(Current())
    {
      if id !in subs {
        return Err(NotFound);
      }
      var target := NextActivation(subs[id].status);
      if target.None? {
        return Err(Conflict);
      }
      r := Move(id, target.value);
      assert r.Ok?;
      if target.value == Active {
        factoryRuns := factoryRuns + [id];
      }
      r := Ok(Current());
    }

    method CloseOne(id: nat) returns (r: Result<State>)
      modifies this
      ensures r == DoTransition(old(Current()), id, Closed)
      ensures Current() == if r.Ok? then r.value else old(Current())
    {
      if id !in subs {
        return Err(NotFound);
      }
      r := Move(id, Closed);
    }

    method CreateFromPortal(id: nat, customer: nat, plan: nat) returns (r: Result<State>)
      modifies this
      ensures r == DoPortalCreate(old(Current()), id, customer, plan)
      ensures Current() == if r.Ok? then r.value else old(Current())
    {
      if OpenOf(Current(), customer) != {} {
        return Err(Conflict);
      }
      if plan !in closable {
        return Err(NotFound);
      }
      if id in subs {
        return Err(Crash);
      }
      subs := subs[id := Subscription(customer, plan, Active, |subs|)];
      factoryRuns := factoryRuns + [id];
      return Ok(Current());
    }

    method CancelFromPortal(id: nat, customer: nat) returns (r: Result<State>)
      modifies this
      ensures r == DoPortalCancel(old(Current()), id, customer)
      ensures Current() == if r.Ok? then r.value else old(Current())
    {
      if !OwnedByPortal(Current(), id, customer) {
        return Err(NotFound);
      }
      if subs[id].plan !in closable {
        return Err(NotFound);
      }
      r := Move(id, Closed);
    }
  }

  // ---- What survives every writer ----------------------------------------

  function Stage(status: Status): nat {
    match status
    case Draft => 0
    case Quotation => 0
    case Confirmed => 1
    case _ => 2
  }

  function Count(log: seq<nat>, id: nat): nat {
    if log == [] then 0
    else Count(log[..|log| - 1], id) + if log[|log| - 1] == id then 1 else 0
  }

  lemma CountAppend(log: seq<nat>, x: nat, id: nat)
    ensures Count(log + [x], id) == Count(log, id) + if x == id then 1 else 0
  {
    assert (log + [x])[..|log|] == log;
  }

  /** An invoice from the factory means the subscription is past confirmed. */
  ghost predicate InvoicedAtMostOnce(s: State) {
    && (forall id | id in s.subs :: Count(s.factoryRuns, id) <= if Stage(s.subs[id].status) == 2 then 1 else 0)
    && (forall id | id in s.factoryRuns :: id in s.subs)
  }

  lemma {:induction false} NotListed(log: seq<nat>, id: nat)
    requires id !in log
    ensures Count(log, id) == 0
  {
    if log != [] {
      assert log[|log| - 1] in log;
      NotListed(log[..|log| - 1], id);
    }
  }

  lemma StepKeepsStage(s: State, op: Op, id: nat)
    requires id in s.subs
    ensures id in Apply(s, op).subs && Stage(s.subs[id].status) <= Stage(Apply(s, op).subs[id].status)
  {
  }

  lemma StepKeepsInvoicedOnce(s: State, op: Op)
    requires InvoicedAtMostOnce(s)
    ensures InvoicedAtMostOnce(Apply(s, op))
  {
    var t := Apply(s, op);
    forall id | id in t.subs
      ensures Count(t.factoryRuns, id) <= if Stage(t.subs[id].status) == 2 then 1 else 0
    {
      if id in s.subs {
        StepKeepsStage(s, op, id);
      } else {
        NotListed(s.factoryRuns, id);
      }
      if t.factoryRuns != s.factoryRuns {
        CountAppend(s.factoryRuns, op.id, id);
      }
    }
  }

  /** No writer ever moves a subscription back through draft or quotation,
      confirmed, and active, paused or closed. */
  lemma {:induction false} StagesNeverGoBack(s: State, ops: seq<Op>, id: nat)
    requires id in s.subs
    ensures id in Run(s, ops).subs && Stage(s.subs[id].status) <= Stage(Run(s, ops).subs[id].status)
    decreases |ops|
  {
    if ops != [] {
      StepKeepsStage(s, ops[0], id);
      StagesNeverGoBack(Apply(s, ops[0]), ops[1..], id);
    }
  }

  lemma {:induction false} RunKeepsInvoicedOnce(s: State, ops: seq<Op>)
    requires InvoicedAtMostOnce(s)
    ensures InvoicedAtMostOnce(Run(s, ops))
    decreases |ops|
  {
    if ops != [] {
      StepKeepsInvoicedOnce(s, ops[0]);
      RunKeepsInvoicedOnce(Apply(s, ops[0]), ops[1..]);
    }
  }

  /** So the factory invoices each subscription at most once in any run. */
  lemma FactoryRunsAtMostOnce(closable: map<nat, bool>, ops: seq<Op>, id: nat)
    ensures Count(Run(State(map[], closable, []), ops).factoryRuns, id) <= 1
  {
    var s := Run(State(map[], closable, []), ops);
    RunKeepsInvoicedOnce(State(map[], closable, []), ops);
    if id !in s.factoryRuns {
      NotListed(s.factoryRuns, id);
    }
  }

  ghost predicate Stamped(s: State) {
    && (forall id | id in s.subs :: s.subs[id].created < |s.subs|)
    && (forall i, j | i in s.subs && j in s.subs && i != j :: s.subs[i].created != s.subs[j].created)
  }

  predicate AddsRow(s: State, op: Op) {
    (op.Create? || op.PortalCreate?) && Attempt(s, op).Ok?
  }

  lemma StepKeepsCreated(s: State, op: Op, id: nat)
    requires id in s.subs
    ensures id in Apply(s, op).subs && Apply(s, op).subs[id].created == s.subs[id].created
  {
  }

  lemma StepAddsRow(s: State, op: Op)
    ensures if AddsRow(s, op) then op.id !in s.subs && Apply(s, op).subs.Keys == s.subs.Keys + {op.id}
                                && Apply(s, op).subs[op.id].created == |s.subs|
            else Apply(s, op).subs.Keys == s.subs.Keys
  {
  }

  lemma StepKeepsStamps(s: State, op: Op)
    requires Stamped(s)
    ensures Stamped(Apply(s, op))
  {
    StepAddsRow(s, op);
    forall id | id in s.subs ensures id in Apply(s, op).subs && Apply(s, op).subs[id].created == s.subs[id].created {
      StepKeepsCreated(s, op, id);
    }
    StampsGrow(s, Apply(s, op), if AddsRow(s, op) then {op.id} else {});
  }

  lemma StampsGrow(s: State, t: State, added: set<nat>)
    requires Stamped(s) && t.subs.Keys == s.subs.Keys + added && added !! s.subs.Keys
    requires forall i, j | i in added && j in added :: i == j
    requires forall id | id in s.subs :: t.subs[id].created == s.subs[id].created
    requires forall id | id in added :: t.subs[id].created == |s.subs|
    ensures Stamped(t)
  {
    assert |t.subs| == |t.subs.Keys| == |s.subs.Keys| + |added| && |s.subs| == |s.subs.Keys|;
    forall id | id in t.subs ensures t.subs[id].created < |t.subs| {
      assert id in added ==> added != {};
    }
  }

  lemma {:induction false} RunKeepsStamps(s: State, ops: seq<Op>)
    requires Stamped(s)
    ensures Stamped(Run(s, ops))
    decreases |ops|
  {
    if ops != [] {
      StepKeepsStamps(s, ops[0]);
      RunKeepsStamps(Apply(s, ops[0]), ops[1..]);
    }
  }

  /** "The customer's latest" names one subscription at most in any reachable state. */
  lemma OwnSubscriptionIsUnique(closable: map<nat, bool>, ops: seq<Op>, i: nat, j: nat, customer: nat)
    requires var s := Run(State(map[], closable, []), ops); OwnedByPortal(s, i, customer) && OwnedByPortal(s, j, customer)
    ensures i == j
  {
    RunKeepsStamps(State(map[], closable, []), ops);
  }

  /** A closed subscription is reopened by a dunning suspension and by nothing else. */
  lemma ClosedMovesIff(s: State, op: Op, id: nat)
    requires id in s.subs && s.subs[id].status == Closed
    ensures Apply(s, op).subs[id] != s.subs[id] <==> op == DunningSuspend(id)
  {
  }

  /** Paused is missing from the transition table: only bulk operations and a
      dunning cancellation move a paused subscription. */
  lemma PausedMovesIff(s: State, op: Op, id: nat)
    requires id in s.subs && s.subs[id].status == Paused
    ensures Apply(s, op).subs[id] != s.subs[id]
      <==> (op.BulkActivate? && id in op.ids) || (op.BulkClose? && id in op.ids) || op == DunningCancel(id)
  {
  }

  lemma {:induction false} ClosedForever(s: State, ops: seq<Op>, id: nat)
    requires id in s.subs && s.subs[id].status == Closed && DunningSuspend(id) !in ops
    ensures id in Run(s, ops).subs && Run(s, ops).subs[id] == s.subs[id]
    decreases |ops|
  {
    if ops != [] {
      StepKeepsStage(s, ops[0], id);
      ClosedMovesIff(s, ops[0], id);
      ClosedForever(Apply(s, ops[0]), ops[1..], id);
    }
  }

  /** What portal creation checks: no customer has two open subscriptions. */
  ghost predicate OneOpenEach(s: State) {
    forall i, j | i in s.subs && j in s.subs && s.subs[i].customer == s.subs[j].customer
      && s.subs[i].status != Closed && s.subs[j].status != Closed :: i == j
  }

  /** A step keeps it exactly when it is not a company-side creation for a customer
      with an open subscription, nor a suspension that reopens a closed one beside
      another. */
  lemma OneOpenEachIff(s: State, op: Op)
    requires OneOpenEach(s)
    ensures OneOpenEach(Apply(s, op)) <==>
      && !(op.Create? && op.plan in s.closable && op.id !in s.subs && OpenOf(s, op.customer) != {})
      && !(op.DunningSuspend? && op.id in s.subs && OpenOf(s, s.subs[op.id].customer) - {op.id} != {})
  {
    var t := Apply(s, op);
    if AddsRow(s, op) {
      NewRowKeepsOneOpenIff(s, t, op.id, op.customer);
    } else if op.DunningSuspend? && op.id in s.subs {
      SuspensionKeepsOneOpenIff(s, op.id);
    } else {
      NothingReopens(s, op);
      NoReopeningKeepsOneOpen(s, t);
    }
  }

  lemma NothingReopens(s: State, op: Op)
    requires !AddsRow(s, op) && !(op.DunningSuspend? && op.id in s.subs)
    ensures Apply(s, op).subs.Keys == s.subs.Keys
    ensures forall i | i in s.subs :: Apply(s, op).subs[i].customer == s.subs[i].customer
    ensures forall i | i in s.subs && s.subs[i].status == Closed :: Apply(s, op).subs[i].status == Closed
  {
  }

  lemma NoReopeningKeepsOneOpen(s: State, t: State)
    requires OneOpenEach(s) && t.subs.Keys == s.subs.Keys
    requires forall i | i in s.subs :: t.subs[i].customer == s.subs[i].customer
    requires forall i | i in s.subs && s.subs[i].status == Closed :: t.subs[i].status == Closed
    ensures OneOpenEach(t)
  {
  }

  lemma NewRowKeepsOneOpenIff(s: State, t: State, id: nat, customer: nat)
    requires OneOpenEach(s) && id !in s.subs && id in t.subs
    requires t.subs == s.subs[id := t.subs[id]] && t.subs[id].customer == customer && t.subs[id].status != Closed
    ensures OneOpenEach(t) <==> OpenOf(s, customer) == {}
  {
    if other :| other in OpenOf(s, customer) {
      assert id in t.subs && other in t.subs && other != id;
    }
    forall i | i in s.subs && s.subs[i].customer == customer && OpenOf(s, customer) == {}
      ensures s.subs[i].status == Closed
    {
      assert i !in OpenOf(s, customer);
    }
  }

  lemma SuspensionKeepsOneOpenIff(s: State, id: nat)
    requires OneOpenEach(s) && id in s.subs
    ensures OneOpenEach(Put(s, id, Paused)) <==> OpenOf(s, s.subs[id].customer) - {id} == {}
  {
    var t, rest := Put(s, id, Paused), OpenOf(s, s.subs[id].customer) - {id};
    if other :| other in rest {
      assert other in t.subs && t.subs[other] == s.subs[other] && t.subs[id].status == Paused;
    }
    forall i | i in s.subs && i != id && s.subs[i].customer == s.subs[id].customer && s.subs[i].status != Closed
      ensures i in rest
    {
    }
  }

  // ---- What each request is admitted for and writes -----------------------

  predicate OnlyStatus(s: State, t: State, id: nat, status: Status)
    requires id in s.subs
  {
    t == s.(subs := s.subs[id := s.subs[id].(status := status)], factoryRuns := t.factoryRuns)
  }

  /** The plan exists and bars closing. */
  predicate Barred(s: State, id: nat)
    requires id in s.subs
  {
    s.subs[id].plan in s.closable && !s.closable[s.subs[id].plan]
  }

  predicate IsMove(from: Status, to: Status) {
    (from, to) in {(Draft, Quotation), (Quotation, Confirmed), (Confirmed, Active), (Quotation, Draft), (Active, Closed)}
  }

  /** Besides the steps of activation the state machine only takes a quotation back to
      draft and an active subscription, unless its plan bars it, to closed. */
  lemma TransitionIff(s: State, id: nat, target: Status)
    ensures var r := Attempt(s, Transition(id, target));
      && (r == Err(NotFound) <==> id !in s.subs) && (r.Err? ==> r.error in {NotFound, Conflict})
      && (r.Ok? <==> id in s.subs && IsMove(s.subs[id].status, target) && (target == Closed ==> !Barred(s, id)))
      && (r.Ok? ==> OnlyStatus(s, r.value, id, target) && r.value.factoryRuns == s.factoryRuns)
  {
  }

  /** Activation takes the one step forward that the state machine has, and makes an
      invoice exactly on the step to active. */
  lemma ActivateIff(s: State, id: nat)
    ensures var r := Attempt(s, Activate(id));
      && (r == Err(NotFound) <==> id !in s.subs) && (r.Err? ==> r.error in {NotFound, Conflict})
      && (r.Ok? <==> id in s.subs && s.subs[id].status in {Draft, Quotation, Confirmed})
      && (r.Ok? ==>
            var from, to := s.subs[id].status, r.value.subs[id].status;
            && (from, to) in {(Draft, Quotation), (Quotation, Confirmed), (Confirmed, Active)}
            && OnlyStatus(s, r.value, id, to)
            && r.value.factoryRuns == if from == Confirmed then s.factoryRuns + [id] else s.factoryRuns)
  {
  }

  /** Both ways to close need an active subscription whose plan does not bar it. */
  lemma CloseIff(s: State, id: nat, customer: nat)
    ensures var r, q := Attempt(s, Close(id)), Attempt(s, PortalCancel(id, customer));
      && (r.Ok? <==> id in s.subs && s.subs[id].status == Active && !Barred(s, id))
      && (r.Ok? ==> OnlyStatus(s, r.value, id, Closed) && r.value.factoryRuns == s.factoryRuns)
      && (q.Ok? <==> r.Ok? && IsLatestShown(s, id, customer) && s.subs[id].plan in s.closable)
      && (q.Ok? ==> q == r)
      && (q == Err(NotFound) <==> !IsLatestShown(s, id, customer) || s.subs[id].plan !in s.closable)
  {
  }

  /** No later subscription of the customer is shown in the portal. */
  predicate IsLatestShown(s: State, id: nat, customer: nat) {
    && id in s.subs && s.subs[id].customer == customer && s.subs[id].status in {Draft, Quotation, Confirmed, Active}
    && forall k | k in s.subs && s.subs[k].customer == customer && s.subs[k].created > s.subs[id].created ::
         s.subs[k].status in {Paused, Closed}
  }

  /** The company creates drafts without an invoice; the portal creates one active
      subscription with its invoice for a customer whose others are all closed. */
  lemma CreateIff(s: State, id: nat, customer: nat, plan: nat)
    ensures var r, q := Attempt(s, Create(id, customer, plan)), Attempt(s, PortalCreate(id, customer, plan));
      var busy := exists k :: k in s.subs && s.subs[k].customer == customer && s.subs[k].status != Closed;
      && (r.Ok? <==> plan in s.closable && id !in s.subs) && (r == Err(NotFound) <==> plan !in s.closable)
      && (r.Err? ==> r.error in {NotFound, Crash}) && (q.Err? ==> q.error in {Conflict, NotFound, Crash})
      && (r.Ok? ==> r.value == s.(subs := s.subs[id := Subscription(customer, plan, Draft, |s.subs|)]))
      && (q.Ok? <==> !busy && plan in s.closable && id !in s.subs) && (q == Err(Conflict) <==> busy)
      && (q == Err(NotFound) <==> !busy && plan !in s.closable)
      && (q.Ok? ==> q.value == s.(subs := s.subs[id := Subscription(customer, plan, Active, |s.subs|)],
                                  factoryRuns := s.factoryRuns + [id]))
  {
    if k :| k in s.subs && s.subs[k].customer == customer && s.subs[k].status != Closed {
      assert k in OpenOf(s, customer);
    } else {
      assert OpenOf(s, customer) == {};
    }
  }

  lemma ForcingNeedsRow(s: State, id: nat)
    ensures id !in s.subs ==> Attempt(s, DunningSuspend(id)) == Attempt(s, DunningCancel(id)) == Err(NotFound)
  {
  }

  /** Dunning writes whatever the status was; bulk operations look at each row's. */
  lemma ForcedAndBulk(s: State, id: nat, ids: set<nat>)
    requires id in s.subs
    ensures OnlyStatus(s, Apply(s, DunningSuspend(id)), id, Paused) && OnlyStatus(s, Apply(s, DunningCancel(id)), id, Closed)
    ensures Apply(s, DunningSuspend(id)).factoryRuns == Apply(s, DunningCancel(id)).factoryRuns == s.factoryRuns
    ensures var a, c := Apply(s, BulkActivate(ids)), Apply(s, BulkClose(ids));
      && a.factoryRuns == c.factoryRuns == s.factoryRuns && a.subs.Keys == c.subs.Keys == s.subs.Keys
      && a.subs[id] == (if id in ids && s.subs[id].status in {Confirmed, Paused}
                        then s.subs[id].(status := Active) else s.subs[id])
      && c.subs[id] == (if id in ids && s.subs[id].status in {Quotation, Confirmed, Active, Paused}
                        then s.subs[id].(status := Closed) else s.subs[id])
  {
  }
}
