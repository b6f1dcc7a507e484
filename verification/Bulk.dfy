/**
 Bulk operations on subscriptions: pre-flight validation, execution in batches
 (app/services/bulk/operations.py, app/services/bulk/executor.py).
 */
module Bulk {
  import opened Wrappers
  import opened Subscriptions

  datatype Kind = Activation | Closing | PlanChange(plan: nat)

  type Rows = map<nat, Subscription>

  // ---- Specification ------------------------------------------------------

  /** The row the operation makes of a found one; None reports it as failed. */
  function Changed(kind: Kind, sub: Subscription): Option<Subscription> {
    match kind
    case Activation =>
      if BulkActivated(sub.status).Some? then Some(sub.(status := Active)) else None
    case Closing =>
      if BulkClosed(sub.status).Some? then Some(sub.(status := Closed)) else None
    case PlanChange(plan) =>
      if sub.status != Closed then Some(sub.(plan := plan)) else None
  }

  /** The query finds every existing id once, in any order. */
  ghost predicate IsAnswer(found: seq<nat>, ids: seq<nat>, existing: set<nat>) {
    && (forall id :: id in found <==> id in ids && id in existing)
    && (forall i, j | 0 <= i < j < |found| :: found[i] != found[j])
  }

  predicate Succeeds(kind: Kind, rows: Rows, id: nat) {
    id in rows && Changed(kind, rows[id]).Some?
  }

  function Successes(kind: Kind, rows: Rows, ids: set<nat>): set<nat> {
    set id | id in ids && Succeeds(kind, rows, id)
  }

  function Failures(kind: Kind, rows: Rows, ids: set<nat>): set<nat> {
    set id | id in ids && id in rows && !Succeeds(kind, rows, id)
  }

  /** Everything in `ids` changed at once. */
  function AllChanged(kind: Kind, rows: Rows, ids: set<nat>): (changed: Rows)
    ensures changed.Keys == rows.Keys
  {
    map id | id in rows :: if id in ids && Succeeds(kind, rows, id) then Changed(kind, rows[id]).value else rows[id]
  }

  function Elements(ids: seq<nat>): set<nat> {
    set id | id in ids
  }

  /** The found ids that succeed, or those that fail, in their order. */
  function Selected(kind: Kind, rows: Rows, found: seq<nat>, ok: bool): seq<nat> {
    if found == [] then []
    else
      var last := found[|found| - 1];
      Selected(kind, rows, found[..|found| - 1], ok) + if Succeeds(kind, rows, last) == ok then [last] else []
  }

  function Reported(conflicts: seq<ConflictItem>): set<nat> {
    set c | c in conflicts :: c.id
  }

  ghost predicate Distinct(ids: seq<nat>) {
    forall i, j | 0 <= i < j < |ids| :: ids[i] != ids[j]
  }

  datatype ConflictKind = Missing | InvalidStatus | AlreadyClosed | SamePlan | ClosedPlan

  datatype ConflictItem = ConflictItem(id: nat, kind: ConflictKind)

  /** What the pre-flight check reports of one found row. */
  function RowConflicts(kind: Kind, id: nat, sub: Subscription): seq<ConflictItem> {
    match kind
    case Activation =>
      if sub.status != Confirmed && sub.status != Paused then [ConflictItem(id, InvalidStatus)] else []
    case Closing =>
      if sub.status == Closed || sub.status == Draft then [ConflictItem(id, AlreadyClosed)] else []
    case PlanChange(plan) =>
      (if sub.plan == plan then [ConflictItem(id, SamePlan)] else [])
      + (if sub.status == Closed then [ConflictItem(id, ClosedPlan)] else [])
  }

  /** Everything the pre-flight check reports; a plan change does not report missing ids. */
  predicate IsConflict(kind: Kind, rows: Rows, ids: seq<nat>, c: ConflictItem) {
    c.id in ids
    && if c.id in rows then c in RowConflicts(kind, c.id, rows[c.id]) else !kind.PlanChange? && c.kind == Missing
  }

  /** The ids with a reported conflict. */
  predicate Conflicting(kind: Kind, rows: Rows, id: nat) {
    if id in rows then RowConflicts(kind, id, rows[id]) != [] else !kind.PlanChange?
  }

  function Clean(kind: Kind, rows: Rows, ids: set<nat>): set<nat> {
    set id | id in ids && !Conflicting(kind, rows, id)
  }

  // ---- The operation and its executor ------------------------------------

  class BulkOperation {
    const kind: Kind
    const store: SubscriptionStore

    constructor (kind: Kind, store: SubscriptionStore)
      ensures this.kind == kind && this.store == store
    {
      this.kind := kind;
      this.store := store;
    }

    method Validate(ids: seq<nat>, found: seq<nat>) returns (conflicts: seq<ConflictItem>)
      requires IsAnswer(found, ids, store.subs.Keys)
      ensures forall c :: c in conflicts <==> IsConflict(kind, store.subs, ids, c)
      ensures Reported(conflicts) == Elements(ids) - Clean(kind, store.subs, Elements(ids))
    {
      conflicts := [];
      if !kind.PlanChange? {
        conflicts := MissingIds(ids, found);
      }
      ghost var missing := conflicts;
      for i := 0 to |found|
        invariant forall c :: c in conflicts <==>
          c in missing || (c.id in found[..i] && c.id in store.subs && c in RowConflicts(kind, c.id, store.subs[c.id]))
      {
        var id := found[i];
        assert id in found;
        assert found[..i + 1] == found[..i] + [id];
        conflicts := conflicts + RowConflicts(kind, id, store.subs[id]);
      }
      assert found[..|found|] == found;
      ReportedIds(kind, store.subs, ids, conflicts);
    }

    method MissingIds(ids: seq<nat>, found: seq<nat>) returns (conflicts: seq<ConflictItem>)
      requires IsAnswer(found, ids, store.subs.Keys)
      ensures forall c :: c in conflicts <==> c.id in ids && c.id !in store.subs && c.kind == Missing
    {
      conflicts := [];
      for i := 0 to |ids|
        invariant forall c :: c in conflicts <==> c.id in ids[..i] && c.id !in store.subs && c.kind == Missing
      {
        assert ids[..i + 1] == ids[..i] + [ids[i]];
        if ids[i] !in found {
          conflicts := conflicts + [ConflictItem(ids[i], Missing)];
        }
        assert ids[i] in found <==> ids[i] in store.subs;
      }
      assert ids[..|ids|] == ids;
    }

    method Execute(ids: seq<nat>, found: seq<nat>) returns (success: seq<nat>, failed: seq<nat>)
      requires IsAnswer(found, ids, store.subs.Keys)
      modifies store`subs
      ensures store.subs == AllChanged(kind, old(store.subs), Elements(ids))
      ensures success == Selected(kind, old(store.subs), found, true)
      ensures failed == Selected(kind, old(store.subs), found, false)
    {
      success, failed := [], [];
      ghost var rows, done: set<nat> := store.subs, {};
      assert store.subs == AllChanged(kind, rows, {});
      for i := 0 to |found|
        invariant done == Elements(found[..i])
        invariant store.subs == AllChanged(kind, rows, done)
        invariant success == Selected(kind, rows, found[..i], true) && failed == Selected(kind, rows, found[..i], false)
      {
        var id := found[i];
        assert id in found && id !in done;
        OneMore(kind, rows, done, id);
        ElementsTake(found, i);
        assert found[..i + 1][..i] == found[..i];
        done := done + {id};
        var changed := Changed(kind, store.subs[id]);
        if changed.Some? {
          store.subs := store.subs[id := changed.value];
          success := success + [id];
        } else {
          failed := failed + [id];
        }
      }
      assert found[..|found|] == found;
      SameFound(kind, rows, done, Elements(ids));
    }
  }

  lemma ElementsTake(ids: seq<nat>, i: nat)
    requires i < |ids|
    ensures Elements(ids[..i + 1]) == Elements(ids[..i]) + {ids[i]}
  {
    assert ids[..i + 1] == ids[..i] + [ids[i]];
  }

  lemma ReportedIds(kind: Kind, rows: Rows, ids: seq<nat>, conflicts: seq<ConflictItem>)
    requires forall c :: c in conflicts <==> IsConflict(kind, rows, ids, c)
    ensures Reported(conflicts) == Elements(ids) - Clean(kind, rows, Elements(ids))
  {
    forall id | id in ids && Conflicting(kind, rows, id) ensures id in Reported(conflicts) {
      var c := if id in rows then RowConflicts(kind, id, rows[id])[0] else ConflictItem(id, Missing);
      assert c.id == id && IsConflict(kind, rows, ids, c);
    }
  }

  lemma OneMore(kind: Kind, rows: Rows, done: set<nat>, id: nat)
    requires id in rows && id !in done
    ensures AllChanged(kind, rows, done)[id] == rows[id]
    ensures AllChanged(kind, rows, done + {id}) == if Succeeds(kind, rows, id)
      then AllChanged(kind, rows, done)[id := Changed(kind, rows[id]).value] else AllChanged(kind, rows, done)
  {
  }

  /** Ids that are not in the table make no difference. */
  lemma SameFound(kind: Kind, rows: Rows, a: set<nat>, b: set<nat>)
    requires forall id | id in rows :: id in a <==> id in b
    ensures AllChanged(kind, rows, a) == AllChanged(kind, rows, b)
  {
  }

  function Without(ids: seq<nat>, skip: set<nat>): seq<nat> {
    if ids == [] then []
    else
      var rest := Without(ids[..|ids| - 1], skip);
      if ids[|ids| - 1] in skip then rest else rest + [ids[|ids| - 1]]
  }

  function Take(ids: seq<nat>, size: nat): seq<nat> {
    if |ids| <= size then ids else ids[..size]
  }

  function Drop(ids: seq<nat>, size: nat): seq<nat> {
    if |ids| <= size then [] else ids[size..]
  }

  /** One answer of the database for each batch's query. */
  ghost predicate AnswersFor(answers: seq<seq<nat>>, ids: seq<nat>, size: nat, existing: set<nat>)
    requires size > 0
    decreases |ids|
  {
    ids == [] || (&& answers != [] && IsAnswer(answers[0], Take(ids, size), existing)
                  && AnswersFor(answers[1..], Drop(ids, size), size, existing))
  }

  datatype Outcome = Outcome(rows: Rows, success: seq<nat>, failed: seq<nat>)

  /** What has been reported so far, then what is reported from here on. */
  function Joined(success: seq<nat>, failed: seq<nat>, rest: Outcome): Outcome {
    rest.(success := success + rest.success, failed := failed + rest.failed)
  }

  /** Executing the ids batch by batch. */
  ghost function Batched(kind: Kind, rows: Rows, ids: seq<nat>, size: nat, answers: seq<seq<nat>>): Outcome
    requires size > 0 && AnswersFor(answers, ids, size, rows.Keys)
    decreases |ids|
  {
    if ids == [] then Outcome(rows, [], [])
    else
      Joined(Selected(kind, rows, answers[0], true), Selected(kind, rows, answers[0], false),
             Batched(kind, AllChanged(kind, rows, Elements(Take(ids, size))), Drop(ids, size), size, answers[1..]))
  }

  lemma JoinedTwice(a: seq<nat>, b: seq<nat>, c: seq<nat>, d: seq<nat>, rest: Outcome)
    ensures Joined(a, b, Joined(c, d, rest)) == Joined(a + c, b + d, rest)
    ensures Joined([], [], rest) == rest
  {
    assert a + (c + rest.success) == a + c + rest.success;
    assert b + (d + rest.failed) == b + d + rest.failed;
  }

  lemma BatchDone(kind: Kind, rows: Rows, ids: seq<nat>, size: nat, answers: seq<seq<nat>>,
                  success: seq<nat>, failed: seq<nat>)
    requires size > 0 && ids != [] && AnswersFor(answers, ids, size, rows.Keys)
    ensures Joined(success, failed, Batched(kind, rows, ids, size, answers))
         == Joined(success + Selected(kind, rows, answers[0], true), failed + Selected(kind, rows, answers[0], false),
                   Batched(kind, AllChanged(kind, rows, Elements(Take(ids, size))), Drop(ids, size), size, answers[1..]))
  {
    JoinedTwice(success, failed, Selected(kind, rows, answers[0], true), Selected(kind, rows, answers[0], false),
                Batched(kind, AllChanged(kind, rows, Elements(Take(ids, size))), Drop(ids, size), size, answers[1..]));
  }

  class BulkExecutor {
    const op: BulkOperation

    constructor (op: BulkOperation)
      ensures this.op == op
    {
      this.op := op;
    }

    method Preview(ids: seq<nat>, found: seq<nat>) returns (clean: seq<nat>, conflicts: seq<ConflictItem>)
      requires IsAnswer(found, ids, op.store.subs.Keys)
      ensures Elements(clean) == Clean(op.kind, op.store.subs, Elements(ids))
      ensures Reported(conflicts) == Elements(ids) - Elements(clean)
    {
      conflicts := op.Validate(ids, found);
      clean := Without(ids, Reported(conflicts));
      WithoutElements(ids, Reported(conflicts));
    }

    /** Executes the ids that are not skipped, in batches of `size` (the program uses
        50); `answers` are the database's answers to the batches' queries. */
    method Run(ids: seq<nat>, skip: set<nat>, size: nat, answers: seq<seq<nat>>)
      returns (success: seq<nat>, failed: seq<nat>)
      requires size > 0
      requires AnswersFor(answers, Without(ids, skip), size, op.store.subs.Keys)
      modifies op.store`subs
      ensures Outcome(op.store.subs, success, failed)
           == Batched(op.kind, old(op.store.subs), Without(ids, skip), size, answers)
    {
      success, failed := [], [];
      var rest, replies := Without(ids, skip), answers;
      ghost var existing := op.store.subs.Keys;
      ghost var outcome := Batched(op.kind, op.store.subs, rest, size, replies);
      JoinedTwice([], [], [], [], outcome);
      while rest != []
        invariant op.store.subs.Keys == existing && AnswersFor(replies, rest, size, existing)
        invariant outcome == Joined(success, failed, Batched(op.kind, op.store.subs, rest, size, replies))
        decreases |rest|
      {
        var batch := Take(rest, size);
        ghost var rows := op.store.subs;
        var s, f := op.Execute(batch, replies[0]);
        BatchDone(op.kind, rows, rest, size, replies, success, failed);
        success, failed := success + s, failed + f;
        rest, replies := Drop(rest, size), replies[1..];
      }
    }
  }

  lemma {:induction false} SelectedIn(kind: Kind, rows: Rows, found: seq<nat>, ok: bool, id: nat)
    ensures id in Selected(kind, rows, found, ok) <==> id in found && Succeeds(kind, rows, id) == ok
  {
    if found != [] {
      var front, last := found[..|found| - 1], found[|found| - 1];
      assert found == front + [last];
      SelectedIn(kind, rows, front, ok, id);
    }
  }

  lemma SelectedElements(kind: Kind, rows: Rows, ids: seq<nat>, found: seq<nat>)
    requires IsAnswer(found, ids, rows.Keys)
    ensures Elements(Selected(kind, rows, found, true)) == Successes(kind, rows, Elements(ids))
    ensures Elements(Selected(kind, rows, found, false)) == Failures(kind, rows, Elements(ids))
  {
    forall id
      ensures id in Selected(kind, rows, found, true) <==> id in Successes(kind, rows, Elements(ids))
      ensures id in Selected(kind, rows, found, false) <==> id in Failures(kind, rows, Elements(ids))
    {
      SelectedIn(kind, rows, found, true, id);
      SelectedIn(kind, rows, found, false, id);
    }
  }

  /** For distinct ids the final rows and the two sets reported are those of one
      batch, whatever the batch size and the order of the answers. */
  lemma {:induction false} BatchSizeIsInvisible(kind: Kind, rows: Rows, ids: seq<nat>, size: nat, answers: seq<seq<nat>>)
    requires size > 0 && Distinct(ids) && AnswersFor(answers, ids, size, rows.Keys)
    ensures var outcome := Batched(kind, rows, ids, size, answers);
      && outcome.rows == AllChanged(kind, rows, Elements(ids))
      && Elements(outcome.success) == Successes(kind, rows, Elements(ids))
      && Elements(outcome.failed) == Failures(kind, rows, Elements(ids))
    decreases |ids|
  {
    if ids == [] {
      assert Elements(ids) == {} && AllChanged(kind, rows, {}) == rows;
      assert Successes(kind, rows, {}) == {} && Failures(kind, rows, {}) == {};
    } else {
      var batch := Elements(Take(ids, size));
      var now := AllChanged(kind, rows, batch);
      TakeDrop(ids, size);
      NextBatch(kind, rows, batch, Elements(Drop(ids, size)));
      SelectedElements(kind, rows, Take(ids, size), answers[0]);
      BatchSizeIsInvisible(kind, now, Drop(ids, size), size, answers[1..]);
      var rest := Batched(kind, now, Drop(ids, size), size, answers[1..]);
      ElementsAppend(Selected(kind, rows, answers[0], true), rest.success);
      ElementsAppend(Selected(kind, rows, answers[0], false), rest.failed);
    }
  }

  lemma ElementsAppend(a: seq<nat>, b: seq<nat>)
    ensures Elements(a + b) == Elements(a) + Elements(b)
  {
  }

  lemma TakeDrop(ids: seq<nat>, size: nat)
    requires Distinct(ids) && size > 0 && ids != []
    ensures Distinct(Drop(ids, size)) && |Drop(ids, size)| < |ids|
    ensures Elements(Take(ids, size)) !! Elements(Drop(ids, size))
    ensures Elements(ids) == Elements(Take(ids, size)) + Elements(Drop(ids, size))
  {
    assert ids == Take(ids, size) + Drop(ids, size);
    ElementsAppend(Take(ids, size), Drop(ids, size));
  }

  lemma {:induction false} WithoutElements(ids: seq<nat>, skip: set<nat>)
    ensures Elements(Without(ids, skip)) == Elements(ids) - skip
    ensures Distinct(ids) ==> Distinct(Without(ids, skip))
  {
    if ids != [] {
      var front, last := ids[..|ids| - 1], ids[|ids| - 1];
      WithoutElements(front, skip);
      assert ids == front + [last];
      ElementsAppend(front, [last]);
      ElementsAppend(Without(front, skip), [last]);
      forall id | id in Without(front, skip) ensures id in front {
        assert id in Elements(Without(front, skip));
      }
      if Distinct(ids) {
        forall i | 0 <= i < |front| ensures front[i] != last {
          assert ids[i] == front[i];
        }
        assert last !in front;
      }
    }
  }

  /** A batch disjoint from what is done acts as it would have from the start. */
  lemma NextBatch(kind: Kind, rows: Rows, done: set<nat>, batch: set<nat>)
    requires done !! batch
    ensures var now := AllChanged(kind, rows, done);
      && AllChanged(kind, now, batch) == AllChanged(kind, rows, done + batch)
      && Successes(kind, rows, done) + Successes(kind, now, batch) == Successes(kind, rows, done + batch)
      && Failures(kind, rows, done) + Failures(kind, now, batch) == Failures(kind, rows, done + batch)
  {
  }

  /** Every found id succeeds or fails, never both. */
  lemma OutcomeIsPartition(kind: Kind, rows: Rows, ids: set<nat>)
    ensures Successes(kind, rows, ids) !! Failures(kind, rows, ids)
    ensures Successes(kind, rows, ids) + Failures(kind, rows, ids) == ids * rows.Keys
  {
  }

  /** The preview predicts the successes of an activation or a closing exactly; of a
      plan change exactly when every id exists and none that is not closed is
      already on the plan. */
  lemma PreviewPredictsIff(kind: Kind, rows: Rows, ids: set<nat>)
    ensures Clean(kind, rows, ids) == Successes(kind, rows, ids) <==>
      || !kind.PlanChange?
      || (ids <= rows.Keys
          && forall id | id in ids && id in rows :: rows[id].status == Closed || rows[id].plan != kind.plan)
  {
    if !kind.PlanChange? {
      assert Clean(kind, rows, ids) == Successes(kind, rows, ids);
    } else {
      forall id | id in ids
        ensures (id in Clean(kind, rows, ids) <==> id in Successes(kind, rows, ids))
          <==> id in rows && (rows[id].status == Closed || rows[id].plan != kind.plan)
      {
      }
      if Clean(kind, rows, ids) == Successes(kind, rows, ids) {
        assert forall id | id in ids :: id in Clean(kind, rows, ids) <==> id in Successes(kind, rows, ids);
      }
    }
  }

  /** How many of the batches hold the id. */
  function BatchesWith(ids: seq<nat>, size: nat, id: nat): nat
    requires size > 0
    decreases |ids|
  {
    if ids == [] then 0
    else (if id in Take(ids, size) then 1 else 0) + BatchesWith(Drop(ids, size), size, id)
  }

  /** After a batch an id can succeed again only if it can be repeated. */
  lemma SucceedsAgain(kind: Kind, rows: Rows, batch: set<nat>, id: nat)
    requires id in rows
    ensures Succeeds(kind, AllChanged(kind, rows, batch), id) <==>
      Succeeds(kind, rows, id) && (id !in batch || kind.PlanChange?)
  {
  }

  /** What one batch does to the lists. */
  lemma OneBatch(kind: Kind, rows: Rows, ids: seq<nat>, size: nat, answers: seq<seq<nat>>, id: nat)
    requires size > 0 && ids != [] && AnswersFor(answers, ids, size, rows.Keys) && id in rows
    ensures var now := AllChanged(kind, rows, Elements(Take(ids, size)));
      var rest := Batched(kind, now, Drop(ids, size), size, answers[1..]);
      var outcome := Batched(kind, rows, ids, size, answers);
      && (id in outcome.success <==> (id in Take(ids, size) && Succeeds(kind, rows, id)) || id in rest.success)
      && (id in outcome.failed <==> (id in Take(ids, size) && !Succeeds(kind, rows, id)) || id in rest.failed)
  {
    SelectedIn(kind, rows, answers[0], true, id);
    SelectedIn(kind, rows, answers[0], false, id);
    assert id in answers[0] <==> id in Take(ids, size);
  }

  lemma {:induction false} SpentIdFails(kind: Kind, rows: Rows, ids: seq<nat>, size: nat, answers: seq<seq<nat>>, id: nat)
    requires size > 0 && AnswersFor(answers, ids, size, rows.Keys) && id in rows && !Succeeds(kind, rows, id)
    ensures id in Batched(kind, rows, ids, size, answers).failed <==> BatchesWith(ids, size, id) >= 1
    decreases |ids|
  {
    if ids != [] {
      OneBatch(kind, rows, ids, size, answers, id);
      SucceedsAgain(kind, rows, Elements(Take(ids, size)), id);
      SpentIdFails(kind, AllChanged(kind, rows, Elements(Take(ids, size))), Drop(ids, size), size, answers[1..], id);
    }
  }

  /** Distinct ids are needed: an id that succeeds is reported as failed as well
      exactly when it stands in two batches and the operation cannot be repeated. */
  lemma {:induction false} RepeatedIdFailsIff(kind: Kind, rows: Rows, ids: seq<nat>, size: nat,
                                              answers: seq<seq<nat>>, id: nat)
    requires size > 0 && AnswersFor(answers, ids, size, rows.Keys) && Succeeds(kind, rows, id)
    ensures var outcome := Batched(kind, rows, ids, size, answers);
      && (id in outcome.success <==> BatchesWith(ids, size, id) >= 1)
      && (id in outcome.failed <==> BatchesWith(ids, size, id) >= 2 && !kind.PlanChange?)
    decreases |ids|
  {
    if ids != [] {
      OneBatch(kind, rows, ids, size, answers, id);
      SucceedsAgain(kind, rows, Elements(Take(ids, size)), id);
      var now, rest := AllChanged(kind, rows, Elements(Take(ids, size))), Drop(ids, size);
      if Succeeds(kind, now, id) {
        RepeatedIdFailsIff(kind, now, rest, size, answers[1..], id);
      } else {
        SpentIdFails(kind, now, rest, size, answers[1..], id);
      }
    }
  }

  /** Bulk activation and closing are the lifecycle's steps of that name. */
  lemma BulkIsALifecycleStep(s: State, ids: set<nat>)
    ensures AllChanged(Activation, s.subs, ids) == Apply(s, BulkActivate(ids)).subs
    ensures AllChanged(Closing, s.subs, ids) == Apply(s, BulkClose(ids)).subs
  {
  }

  /** A plan change writes the plan it was given on the found rows that are not closed,
      and nothing else; these are its successes. */
  lemma PlanChangeEffect(rows: Rows, ids: set<nat>, plan: nat, id: nat)
    requires id in rows
    ensures AllChanged(PlanChange(plan), rows, ids)[id]
         == if id in ids && rows[id].status != Closed then rows[id].(plan := plan) else rows[id]
    ensures id in Successes(PlanChange(plan), rows, ids) <==> id in ids && rows[id].status != Closed
    ensures id in Failures(PlanChange(plan), rows, ids) <==> id in ids && rows[id].status == Closed
  {
  }

  /** When each kind of conflict is reported. */
  lemma ConflictKinds(kind: Kind, rows: Rows, ids: seq<nat>, id: nat)
    requires id in ids
    ensures IsConflict(kind, rows, ids, ConflictItem(id, Missing)) <==> id !in rows && !kind.PlanChange?
    ensures IsConflict(kind, rows, ids, ConflictItem(id, InvalidStatus)) <==>
      kind == Activation && id in rows && rows[id].status in {Draft, Quotation, Active, Closed}
    ensures IsConflict(kind, rows, ids, ConflictItem(id, AlreadyClosed)) <==>
      kind == Closing && id in rows && rows[id].status in {Draft, Closed}
    ensures IsConflict(kind, rows, ids, ConflictItem(id, SamePlan)) <==>
      kind.PlanChange? && id in rows && rows[id].plan == kind.plan
    ensures IsConflict(kind, rows, ids, ConflictItem(id, ClosedPlan)) <==>
      kind.PlanChange? && id in rows && rows[id].status == Closed
  {
  }
}
