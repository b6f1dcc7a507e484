/**
 Dunning: the escalation of an unpaid invoice
 (app/services/billing/dunning_service.py, app/config/dunning.py).
 */
module Dunning {
  import opened Wrappers
  import Subs = Subscriptions

  datatype Action = Retry | Suspend | Cancel

  datatype Status = Pending | Success | Failed | Skipped

  datatype Schedule = Schedule(invoice: nat, attempt: nat, action: Action, at: int, status: Status)

  /** What dunning reads of an invoice. */
  datatype Bill = Bill(subscription: nat, paid: bool)

  datatype State = State(schedules: map<nat, Schedule>, bills: map<nat, Bill>, life: Subs.State)

  datatype Step = Step(day: nat, action: Action)

  const STEPS := [Step(3, Retry), Step(7, Retry), Step(14, Suspend), Step(21, Cancel)]

  const DAY := 86400

  // ---- Specification ------------------------------------------------------

  /** The row that attempt k + 1 of an invoice starts as. */
  function NewRow(invoice: nat, base: int, k: nat): Schedule
    requires k < |STEPS|
  {
    Schedule(invoice, k + 1, STEPS[k].action, base + STEPS[k].day * DAY, Pending)
  }

  function Mark(s: State, id: nat, status: Status): State
    requires id in s.schedules
  {
    s.(schedules := s.schedules[id := s.schedules[id].(status := status)])
  }

  /** Executes one schedule.  A missing invoice leaves the row pending; a missing
      subscription raises. */
  function Execute(s: State, id: nat): Result<State>
    requires id in s.schedules
  {
    var row := s.schedules[id];
    if row.invoice !in s.bills then Ok(s)
    else if s.bills[row.invoice].paid then Ok(Mark(s, id, Skipped))
    else
      var sub := s.bills[row.invoice].subscription;
      match row.action
      case Retry => Ok(Mark(s, id, Failed))
      case Suspend =>
        if sub in s.life.subs then Ok(Mark(s, id, Success).(life := Subs.Apply(s.life, Subs.DunningSuspend(sub))))
        else Err(NotFound)
      case Cancel =>
        if sub in s.life.subs then Ok(Mark(s, id, Success).(life := Subs.Apply(s.life, Subs.DunningCancel(sub))))
        else Err(NotFound)
  }

  function ExecuteAll(s: State, rows: seq<nat>): (r: Result<State>)
    requires forall id | id in rows :: id in s.schedules
    ensures r.Ok? ==> r.value.schedules.Keys == s.schedules.Keys
  {
    if rows == [] then Ok(s)
    else
      match ExecuteAll(s, rows[..|rows| - 1])
      case Err(e) => Err(e)
      case Ok(t) => Execute(t, rows[|rows| - 1])
  }

  function Due(s: State, now: int): set<nat> {
    set id | id in s.schedules && s.schedules[id].status == Pending && s.schedules[id].at <= now
  }

  /** The query has no ordering: any enumeration of the due rows is an answer. */
  ghost predicate IsAnswer(rows: seq<nat>, ids: set<nat>) {
    && (forall id :: id in rows <==> id in ids)
    && (forall i, j | 0 <= i < j < |rows| :: rows[i] != rows[j])
  }

  /** One call of `process_pending`: its time and the order the rows came in. */
  datatype Batch = Batch(now: int, rows: seq<nat>)

  /** A batch that raises is rolled back as a whole. */
  function Processed(s: State, rows: seq<nat>): State
    requires forall id | id in rows :: id in s.schedules
  {
    match ExecuteAll(s, rows)
    case Ok(t) => t
    case Err(_) => s
  }

  ghost predicate Valid(s: State, batches: seq<Batch>, last: int)
    decreases |batches|
  {
    batches == [] ||
    var b := batches[0];
    b.now >= last && IsAnswer(b.rows, Due(s, b.now)) && Valid(Processed(s, b.rows), batches[1..], b.now)
  }

  ghost function Run(s: State, batches: seq<Batch>, last: int): State
    requires Valid(s, batches, last)
    decreases |batches|
  {
    if batches == [] then s
    else Run(Processed(s, batches[0].rows), batches[1..], batches[0].now)
  }

  function LastTime(batches: seq<Batch>, last: int): int {
    if batches == [] then last else batches[|batches| - 1].now
  }

  // ---- The service --------------------------------------------------------

  class DunningService {
    const store: Subs.SubscriptionStore
    var schedules: map<nat, Schedule>
    var bills: map<nat, Bill>

    constructor (store: Subs.SubscriptionStore, bills: map<nat, Bill>)
      ensures this.store == store && this.bills == bills && schedules == map[]
    {
      this.store := store;
      this.bills := bills;
      schedules := map[];
    }

    function Current(): State
      reads this, store
    {
      State(schedules, bills, store.Current())
    }

    /** `ids` are the new primary keys. */
    method CreateFromInvoice(invoice: nat, base: int, ids: seq<nat>)
      requires |ids| == |STEPS|
      requires forall i | 0 <= i < |ids| :: ids[i] !in schedules
      requires forall i, j | 0 <= i < j < |ids| :: ids[i] != ids[j]
      modifies this`schedules
      ensures forall k | 0 <= k < |STEPS| :: ids[k] in schedules && schedules[ids[k]] == NewRow(invoice, base, k)
      ensures forall id | id !in ids ::
        (id in schedules <==> id in old(schedules)) && (id in schedules ==> schedules[id] == old(schedules)[id])
      ensures StartsAlone(old(Current()), invoice)
        ==> OneSequence(Current(), invoice, base, ids) && Progress(Current(), base, ids, base)
    {
      for k := 0 to |STEPS|
        invariant forall j | 0 <= j < k :: ids[j] in schedules && schedules[ids[j]] == NewRow(invoice, base, j)
        invariant forall id | id !in ids ::
          (id in schedules <==> id in old(schedules)) && (id in schedules ==> schedules[id] == old(schedules)[id])
      {
        var step := STEPS[k];
        schedules := schedules[ids[k] := Schedule(invoice, k + 1, step.action, base + step.day * DAY, Pending)];
      }
      if StartsAlone(old(Current()), invoice) {
        NewSequence(old(Current()), Current(), invoice, base, ids);
      }
    }

    method ExecuteOne(id: nat) returns (ok: bool)
      requires id in schedules
      modifies this`schedules, store`subs
      ensures ok <==> Execute(old(Current()), id).Ok?
      ensures Current() == if ok then Execute(old(Current()), id).value else old(Current())
    {
      var row := schedules[id];
      if row.invoice !in bills {
        return true;
      }
      var bill := bills[row.invoice];
      if bill.paid {
        schedules := schedules[id := row.(status := Skipped)];
        return true;
      }
      match row.action {
        case Retry =>
          schedules := schedules[id := row.(status := Failed)];
        case Suspend =>
          if bill.subscription !in store.subs {
            return false;
          }
          store.subs := store.subs[bill.subscription := store.subs[bill.subscription].(status := Subs.Paused)];
          schedules := schedules[id := row.(status := Success)];
        case Cancel =>
          if bill.subscription !in store.subs {
            return false;
          }
          store.subs := store.subs[bill.subscription := store.subs[bill.subscription].(status := Subs.Closed)];
          schedules := schedules[id := row.(status := Success)];
      }
      return true;
    }

    /** `rows` is the database's answer to `find_pending_due`. */
    method ProcessPending(now: int, rows: seq<nat>) returns (ok: bool)
      requires IsAnswer(rows, Due(Current(), now))
      modifies this`schedules, store`subs
      ensures ok <==> ExecuteAll(old(Current()), rows).Ok?
      ensures Current() == Processed(old(Current()), rows)
    {
      var committedSchedules, committedSubs := schedules, store.subs;
      assert forall id: nat | id in rows :: id in Due(Current(), now) && id in schedules;
      for i := 0 to |rows|
        invariant forall id | id in rows[..i] :: id in rows
        invariant ExecuteAll(old(Current()), rows[..i]) == Ok(Current())
      {
        assert rows[..i + 1][..i] == rows[..i];
        assert rows[i] in rows;
        ok := ExecuteOne(rows[i]);
        if !ok {
          FailurePropagates(old(Current()), rows, i + 1);
          schedules, store.subs := committedSchedules, committedSubs;
          return;
        }
      }
      assert rows[..|rows|] == rows;
      return true;
    }
  }

  lemma {:induction false} FailurePropagates(s: State, rows: seq<nat>, n: nat)
    requires forall id | id in rows :: id in s.schedules
    requires n <= |rows| && ExecuteAll(s, rows[..n]).Err?
    ensures ExecuteAll(s, rows).Err?
  {
    if n == |rows| {
      assert rows[..n] == rows;
    } else {
      assert rows[..|rows| - 1][..n] == rows[..n];
      FailurePropagates(s, rows[..|rows| - 1], n);
    }
  }

  // ---- One batch ----------------------------------------------------------

  predicate Unpaid(s: State, id: nat) {
    id in s.schedules && s.schedules[id].invoice in s.bills && !s.bills[s.schedules[id].invoice].paid
  }

  /** The row, if executed now, writes the status of subscription x. */
  predicate Writes(s: State, id: nat, x: nat) {
    Unpaid(s, id) && s.bills[s.schedules[id].invoice].subscription == x && !s.schedules[id].action.Retry?
  }

  predicate Raises(s: State, id: nat) {
    Unpaid(s, id) && !s.schedules[id].action.Retry? && s.bills[s.schedules[id].invoice].subscription !in s.life.subs
  }

  function Executed(s: State, id: nat): Schedule
    requires id in s.schedules
  {
    var row := s.schedules[id];
    if row.invoice !in s.bills then row
    else if s.bills[row.invoice].paid then row.(status := Skipped)
    else row.(status := if row.action.Retry? then Failed else Success)
  }

  /** The status the last writing row leaves. */
  function LastWrite(s: State, rows: seq<nat>, x: nat): Subs.Status
    requires x in s.life.subs && forall id | id in rows :: id in s.schedules
  {
    if rows == [] then s.life.subs[x].status
    else
      var id := rows[|rows| - 1];
      if Writes(s, id, x) then (if s.schedules[id].action.Suspend? then Subs.Paused else Subs.Closed)
      else LastWrite(s, rows[..|rows| - 1], x)
  }

  /** The subscription as executing the row leaves it. */
  function Written(s: State, id: nat, x: nat): Subs.Subscription
    requires x in s.life.subs && id in s.schedules
  {
    var sub := s.life.subs[x];
    if !Writes(s, id, x) then sub
    else sub.(status := if s.schedules[id].action.Suspend? then Subs.Paused else Subs.Closed)
  }

  lemma OneRowEffect(s: State, id: nat)
    requires id in s.schedules
    ensures Execute(s, id).Err? <==> Raises(s, id)
    ensures Execute(s, id).Ok? ==> var t := Execute(s, id).value;
      && t.bills == s.bills && t.life.subs.Keys == s.life.subs.Keys
      && t.schedules == s.schedules[id := Executed(s, id)]
      && (forall x | x in s.life.subs :: t.life.subs[x] == Written(s, id, x))
  {
  }

  /** What a batch leaves: the subscriptions have their last write, the rows in
      `rows` are executed. */
  ghost predicate Effect(s: State, rows: seq<nat>, t: State)
    requires forall id | id in rows :: id in s.schedules
  {
    && t.bills == s.bills && t.life.subs.Keys == s.life.subs.Keys && t.schedules.Keys == s.schedules.Keys
    && (forall id | id in s.schedules :: t.schedules[id] == if id in rows then Executed(s, id) else s.schedules[id])
    && (forall x | x in s.life.subs :: t.life.subs[x] == s.life.subs[x].(status := LastWrite(s, rows, x)))
  }

  lemma EffectExtends(s: State, front: seq<nat>, t: State, last: nat)
    requires forall id | id in front + [last] :: id in s.schedules
    requires last !in front && Effect(s, front, t)
    ensures Execute(t, last).Err? <==> Raises(s, last)
    ensures Execute(t, last).Ok? ==> Effect(s, front + [last], Execute(t, last).value)
  {
    var rows := front + [last];
    assert last in rows && rows[..|rows| - 1] == front;
    OneRowEffect(t, last);
    if Execute(t, last).Ok? {
      var u := Execute(t, last).value;
      forall x | x in s.life.subs
        ensures u.life.subs[x] == s.life.subs[x].(status := LastWrite(s, rows, x))
      {
        assert Writes(t, last, x) == Writes(s, last, x);
      }
    }
  }

  /** A batch executes each of its rows once, on the state it started from but for
      the statuses; the last writing row decides each subscription. */
  lemma {:induction false} BatchEffect(s: State, rows: seq<nat>)
    requires forall id | id in rows :: id in s.schedules
    requires forall i, j | 0 <= i < j < |rows| :: rows[i] != rows[j]
    ensures ExecuteAll(s, rows).Err? <==> exists id :: id in rows && Raises(s, id)
    ensures ExecuteAll(s, rows).Ok? ==> Effect(s, rows, ExecuteAll(s, rows).value)
  {
    if rows != [] {
      var front, last := rows[..|rows| - 1], rows[|rows| - 1];
      assert rows == front + [last] && last !in front;
      BatchEffect(s, front);
      assert (exists id :: id in rows && Raises(s, id)) <==> Raises(s, last) || exists id :: id in front && Raises(s, id);
      if ExecuteAll(s, front).Ok? {
        EffectExtends(s, front, ExecuteAll(s, front).value, last);
      }
    }
  }

  /** One row whose subscription is gone makes every batch that holds it a no-op. */
  lemma BatchFailsIff(s: State, rows: seq<nat>, now: int)
    requires IsAnswer(rows, Due(s, now))
    ensures ExecuteAll(s, rows).Err? <==> exists id :: id in Due(s, now) && Raises(s, id)
  {
    BatchEffect(s, rows);
  }

  /** And for good: while the row is due, no later run executes anything at all. */
  lemma {:induction false} OrphanBlocksDunning(s: State, batches: seq<Batch>, last: int, id: nat)
    requires Valid(s, batches, last) && Raises(s, id)
    requires s.schedules[id].status == Pending && s.schedules[id].at <= last
    ensures Run(s, batches, last) == s
    decreases |batches|
  {
    if batches != [] {
      var b := batches[0];
      assert id in Due(s, b.now);
      BatchFailsIff(s, b.rows, b.now);
      OrphanBlocksDunning(s, batches[1..], b.now, id);
    }
  }

  lemma ProcessedSchedules(s: State, rows: seq<nat>, now: int)
    requires IsAnswer(rows, Due(s, now))
    ensures var t := Processed(s, rows);
      && t.bills == s.bills && t.life.subs.Keys == s.life.subs.Keys && t.schedules.Keys == s.schedules.Keys
      && (forall id | id in s.schedules ::
            && t.schedules[id] == s.schedules[id].(status := t.schedules[id].status)
            && (s.schedules[id].status != Pending ==> t.schedules[id] == s.schedules[id]))
  {
    BatchEffect(s, rows);
  }

  /** Every row takes effect at most once: after it has, it is never touched again. */
  lemma {:induction false} ExecutedRowsAreFrozen(s: State, batches: seq<Batch>, last: int, id: nat)
    requires Valid(s, batches, last) && id in s.schedules && s.schedules[id].status != Pending
    ensures id in Run(s, batches, last).schedules && Run(s, batches, last).schedules[id] == s.schedules[id]
    decreases |batches|
  {
    if batches != [] {
      var b := batches[0];
      ProcessedSchedules(s, b.rows, b.now);
      ExecutedRowsAreFrozen(Processed(s, b.rows), batches[1..], b.now, id);
    }
  }

  /** Nothing that could still write x. */
  ghost predicate NoneUnpaidFor(s: State, x: nat) {
    forall id | Unpaid(s, id) :: s.bills[s.schedules[id].invoice].subscription != x
  }

  lemma {:induction false} NoWriter(s: State, rows: seq<nat>, x: nat)
    requires x in s.life.subs && (forall id | id in rows :: id in s.schedules) && NoneUnpaidFor(s, x)
    ensures LastWrite(s, rows, x) == s.life.subs[x].status
  {
    if rows != [] {
      NoWriter(s, rows[..|rows| - 1], x);
    }
  }

  /** Once its invoices are paid no dunning run touches a subscription again. */
  lemma {:induction false} PaidStopsDunning(s: State, batches: seq<Batch>, last: int, x: nat)
    requires Valid(s, batches, last) && x in s.life.subs && NoneUnpaidFor(s, x)
    ensures x in Run(s, batches, last).life.subs && Run(s, batches, last).life.subs[x] == s.life.subs[x]
    decreases |batches|
  {
    if batches != [] {
      var b := batches[0];
      ProcessedSchedules(s, b.rows, b.now);
      BatchEffect(s, b.rows);
      NoWriter(s, b.rows, x);
      var t := Processed(s, b.rows);
      forall id | Unpaid(t, id) ensures t.bills[t.schedules[id].invoice].subscription != x {
        assert Unpaid(s, id);
      }
      PaidStopsDunning(t, batches[1..], b.now, x);
    }
  }

  // ---- One escalation, whatever the order of the rows --------------------

  /** Executing the row neither writes subscription x nor raises. */
  predicate Elsewhere(s: State, id: nat, x: nat) {
    !Writes(s, id, x) && !Raises(s, id)
  }

  /** `create_from_invoice` made these rows for an invoice that is present and unpaid,
      and whatever other rows there are concern other subscriptions. */
  ghost predicate OneSequence(s: State, invoice: nat, base: int, ids: seq<nat>) {
    && |ids| == |STEPS|
    && (forall i, j | 0 <= i < j < |ids| :: ids[i] != ids[j])
    && (forall k | 0 <= k < |ids| :: ids[k] in s.schedules
          && s.schedules[ids[k]] == NewRow(invoice, base, k).(status := s.schedules[ids[k]].status))
    && invoice in s.bills && !s.bills[invoice].paid && s.bills[invoice].subscription in s.life.subs
    && (forall id | id in s.schedules && id !in ids :: Elsewhere(s, id, s.bills[invoice].subscription))
  }

  /** The invoice is present and unpaid, and no row concerns its subscription yet. */
  predicate StartsAlone(s: State, invoice: nat) {
    && invoice in s.bills && !s.bills[invoice].paid && s.bills[invoice].subscription in s.life.subs
    && forall id | id in s.schedules :: Elsewhere(s, id, s.bills[invoice].subscription)
  }

  lemma NewSequence(s: State, t: State, invoice: nat, base: int, ids: seq<nat>)
    requires StartsAlone(s, invoice) && t.bills == s.bills && t.life == s.life
    requires |ids| == |STEPS| && forall i, j | 0 <= i < j < |ids| :: ids[i] != ids[j]
    requires forall k | 0 <= k < |STEPS| :: ids[k] in t.schedules && t.schedules[ids[k]] == NewRow(invoice, base, k)
    requires forall id | id in t.schedules && id !in ids :: id in s.schedules && t.schedules[id] == s.schedules[id]
    ensures OneSequence(t, invoice, base, ids) && Progress(t, base, ids, base)
  {
    forall id | id in t.schedules && id !in ids ensures Elsewhere(t, id, t.bills[invoice].subscription) {
      assert Elsewhere(s, id, s.bills[invoice].subscription);
    }
  }

  /** Exactly the rows scheduled after `now` are still pending. */
  ghost predicate Progress(s: State, base: int, ids: seq<nat>, now: int)
    requires |ids| == |STEPS| && forall k | 0 <= k < |ids| :: ids[k] in s.schedules
  {
    forall k | 0 <= k < |ids| :: s.schedules[ids[k]].status == Pending <==> base + STEPS[k].day * DAY > now
  }

  predicate Before(rows: seq<nat>, a: nat, b: nat) {
    exists i, j | 0 <= i < j < |rows| :: rows[i] == a && rows[j] == b
  }

  function StatusOf(s: State, invoice: nat): Subs.Status
    requires invoice in s.bills && s.bills[invoice].subscription in s.life.subs
  {
    s.life.subs[s.bills[invoice].subscription].status
  }

  /** The status after one batch. */
  ghost function Escalated(status: Subs.Status, rows: seq<nat>, suspend: nat, cancel: nat): Subs.Status {
    if suspend in rows && cancel in rows then (if Before(rows, suspend, cancel) then Subs.Closed else Subs.Paused)
    else if suspend in rows then Subs.Paused
    else if cancel in rows then Subs.Closed
    else status
  }

  lemma BeforeExtends(front: seq<nat>, last: nat, a: nat, b: nat)
    requires last !in front
    ensures last == b && a in front ==> Before(front + [last], a, b)
    ensures last == a ==> !Before(front + [last], a, b)
    ensures last != a && last != b ==> (Before(front + [last], a, b) <==> Before(front, a, b))
  {
    var rows := front + [last];
    if last == b && a in front {
      var i :| 0 <= i < |front| && front[i] == a;
      assert rows[i] == a && rows[|front|] == b;
    }
    if last != a && last != b && Before(front, a, b) {
      var i, j :| 0 <= i < j < |front| && front[i] == a && front[j] == b;
      assert rows[i] == a && rows[j] == b;
    }
    if last != a && Before(rows, a, b) {
      var i, j :| 0 <= i < j < |rows| && rows[i] == a && rows[j] == b;
      assert front[i] == a && (j < |front| ==> front[j] == b);
    }
  }

  lemma EscalatedExtends(status: Subs.Status, front: seq<nat>, last: nat, a: nat, b: nat)
    requires last !in front && a != b
    ensures Escalated(status, front + [last], a, b)
         == if last == a then Subs.Paused else if last == b then Subs.Closed else Escalated(status, front, a, b)
  {
    BeforeExtends(front, last, a, b);
  }

  lemma {:induction false} EscalatedIsLastWrite(s: State, invoice: nat, base: int, ids: seq<nat>, rows: seq<nat>)
    requires OneSequence(s, invoice, base, ids)
    requires forall id | id in rows :: id in s.schedules
    requires forall i, j | 0 <= i < j < |rows| :: rows[i] != rows[j]
    ensures LastWrite(s, rows, s.bills[invoice].subscription) == Escalated(StatusOf(s, invoice), rows, ids[2], ids[3])
  {
    if rows != [] {
      var front, last := rows[..|rows| - 1], rows[|rows| - 1];
      assert rows == front + [last] && last !in front;
      EscalatedIsLastWrite(s, invoice, base, ids, front);
      EscalatedExtends(StatusOf(s, invoice), front, last, ids[2], ids[3]);
      assert last in rows;
      SequenceWriters(s, invoice, base, ids, last);
    }
  }

  /** The third row suspends, the fourth cancels, the others write nothing. */
  lemma SequenceWriters(s: State, invoice: nat, base: int, ids: seq<nat>, id: nat)
    requires OneSequence(s, invoice, base, ids) && id in s.schedules
    ensures Writes(s, id, s.bills[invoice].subscription) <==> id == ids[2] || id == ids[3]
    ensures id == ids[2] || id == ids[3] ==> (s.schedules[id].action.Suspend? <==> id == ids[2])
    ensures !Raises(s, id)
  {
    if id in ids {
      var k :| 0 <= k < |ids| && ids[k] == id;
      assert s.schedules[id].action == STEPS[k].action && s.schedules[id].invoice == invoice;
    } else {
      assert Elsewhere(s, id, s.bills[invoice].subscription);
      assert ids[2] in ids && ids[3] in ids;
    }
  }

  /** Which of the rows a run finds due. */
  lemma DueOfSequence(s: State, invoice: nat, base: int, ids: seq<nat>, last: int, b: Batch, k: nat)
    requires OneSequence(s, invoice, base, ids) && Progress(s, base, ids, last) && k < |ids|
    requires IsAnswer(b.rows, Due(s, b.now))
    ensures ids[k] in b.rows <==> last < base + STEPS[k].day * DAY <= b.now
  {
    assert ids[k] in b.rows <==> ids[k] in Due(s, b.now);
  }

  lemma EscalationStep(s: State, invoice: nat, base: int, ids: seq<nat>, last: int, b: Batch)
    requires OneSequence(s, invoice, base, ids) && Progress(s, base, ids, last)
    requires b.now >= last && IsAnswer(b.rows, Due(s, b.now))
    ensures var t := Processed(s, b.rows);
      && OneSequence(t, invoice, base, ids) && Progress(t, base, ids, b.now)
      && StatusOf(t, invoice) == Escalated(StatusOf(s, invoice), b.rows, ids[2], ids[3])
    ensures ids[2] in b.rows <==> last < base + 14 * DAY <= b.now
    ensures ids[3] in b.rows <==> last < base + 21 * DAY <= b.now
  {
    forall id | id in b.rows ensures id in s.schedules && !Raises(s, id) {
      assert id in Due(s, b.now);
      SequenceWriters(s, invoice, base, ids, id);
    }
    BatchEffect(s, b.rows);
    EscalatedIsLastWrite(s, invoice, base, ids, b.rows);
    DueOfSequence(s, invoice, base, ids, last, b, 2);
    DueOfSequence(s, invoice, base, ids, last, b, 3);
    var t := Processed(s, b.rows);
    assert Effect(s, b.rows, t);
    forall id | id in t.schedules && id !in ids ensures Elsewhere(t, id, t.bills[invoice].subscription) {
      assert Elsewhere(s, id, s.bills[invoice].subscription);
    }
    forall k | 0 <= k < |ids|
      ensures t.schedules[ids[k]] == NewRow(invoice, base, k).(status := t.schedules[ids[k]].status)
      ensures t.schedules[ids[k]].status == Pending <==> base + STEPS[k].day * DAY > b.now
    {
      DueOfSequence(s, invoice, base, ids, last, b, k);
    }
  }

  /** Some run fell between the suspension and the cancellation, or the run that
      executed both had the suspension first. */
  ghost predicate SuspendsFirst(batches: seq<Batch>, base: int, ids: seq<nat>)
    requires |ids| == |STEPS|
  {
    exists b :: b in batches && SuspensionIsFirst(b, base, ids)
  }

  ghost predicate SuspensionIsFirst(b: Batch, base: int, ids: seq<nat>)
    requires |ids| == |STEPS|
  {
    base + 14 * DAY <= b.now < base + 21 * DAY || Before(b.rows, ids[2], ids[3])
  }

  lemma SuspendsFirstSplit(b: Batch, rest: seq<Batch>, base: int, ids: seq<nat>)
    requires |ids| == |STEPS|
    ensures SuspendsFirst([b] + rest, base, ids) <==> SuspensionIsFirst(b, base, ids) || SuspendsFirst(rest, base, ids)
  {
    assert b in [b] + rest;
    if SuspendsFirst(rest, base, ids) {
      var c :| c in rest && SuspensionIsFirst(c, base, ids);
      assert c in [b] + rest;
    }
  }

  /** Where runs up to `end` take a status found by the run at `last`: nothing is
      written before day 14, the subscription is paused from the first run in days
      14 to 20, and once a run is past day 21 it is closed exactly when the
      suspension was executed first; otherwise it stays paused for good. */
  function Outcome(status: Subs.Status, base: int, last: int, end: int, suspendsFirst: bool): Subs.Status {
    if end < base + 14 * DAY || last >= base + 21 * DAY then status
    else if end < base + 21 * DAY then (if last < base + 14 * DAY then Subs.Paused else status)
    else if last >= base + 14 * DAY || suspendsFirst then Subs.Closed
    else Subs.Paused
  }

  lemma OutcomeComposes(status: Subs.Status, base: int, last: int, b: Batch, end: int, ids: seq<nat>, later: bool)
    requires |ids| == |STEPS| && last <= b.now <= end
    requires ids[2] in b.rows <==> last < base + 14 * DAY <= b.now
    requires ids[3] in b.rows <==> last < base + 21 * DAY <= b.now
    requires b.now >= base + 21 * DAY ==> !later
    ensures Outcome(Escalated(status, b.rows, ids[2], ids[3]), base, b.now, end, later)
         == Outcome(status, base, last, end, SuspensionIsFirst(b, base, ids) || later)
  {
    assert Before(b.rows, ids[2], ids[3]) ==> ids[2] in b.rows && ids[3] in b.rows;
  }

  /** From any point of one escalation and for any later runs. */
  lemma {:induction false} Escalation(s: State, invoice: nat, base: int, ids: seq<nat>, batches: seq<Batch>, last: int)
    requires OneSequence(s, invoice, base, ids) && Progress(s, base, ids, last) && Valid(s, batches, last)
    ensures var t, end := Run(s, batches, last), LastTime(batches, last);
      && OneSequence(t, invoice, base, ids) && Progress(t, base, ids, end) && last <= end
      && StatusOf(t, invoice) == Outcome(StatusOf(s, invoice), base, last, end, SuspendsFirst(batches, base, ids))
    decreases |batches|
  {
    if batches != [] {
      var b, rest := batches[0], batches[1..];
      var t := Processed(s, b.rows);
      EscalationStep(s, invoice, base, ids, last, b);
      Escalation(t, invoice, base, ids, rest, b.now);
      assert LastTime(rest, b.now) == LastTime(batches, last);
      assert Run(s, batches, last) == Run(t, rest, b.now);
      assert batches == [b] + rest;
      SuspendsFirstSplit(b, rest, base, ids);
      if b.now >= base + 21 * DAY {
        LateRunsAreIdle(t, invoice, base, ids, rest, b.now);
      }
      OutcomeComposes(StatusOf(s, invoice), base, last, b, LastTime(rest, b.now), ids, SuspendsFirst(rest, base, ids));
    }
  }

  /** After day 21 has been processed no run finds anything of the sequence due. */
  lemma {:induction false} LateRunsAreIdle(s: State, invoice: nat, base: int, ids: seq<nat>, batches: seq<Batch>, last: int)
    requires OneSequence(s, invoice, base, ids) && Progress(s, base, ids, last) && Valid(s, batches, last)
    requires last >= base + 21 * DAY
    ensures !SuspendsFirst(batches, base, ids)
    decreases |batches|
  {
    if batches != [] {
      var b, rest := batches[0], batches[1..];
      EscalationStep(s, invoice, base, ids, last, b);
      LateRunsAreIdle(Processed(s, b.rows), invoice, base, ids, rest, b.now);
      assert batches == [b] + rest;
      SuspendsFirstSplit(b, rest, base, ids);
    }
  }

  /** With a run in days 14 to 20 and one from day 21 the subscription ends closed,
      whatever order the rows come in and however often the job runs. */
  lemma ClosedWhateverTheOrder(s: State, invoice: nat, base: int, ids: seq<nat>, batches: seq<Batch>)
    requires OneSequence(s, invoice, base, ids) && Progress(s, base, ids, base) && Valid(s, batches, base)
    requires exists b :: b in batches && base + 14 * DAY <= b.now < base + 21 * DAY
    requires LastTime(batches, base) >= base + 21 * DAY
    ensures var t := Run(s, batches, base); OneSequence(t, invoice, base, ids) && StatusOf(t, invoice) == Subs.Closed
  {
    assert exists b :: b in batches && SuspensionIsFirst(b, base, ids);
    Escalation(s, invoice, base, ids, batches, base);
  }

  ghost predicate CalledAt(batches: seq<Batch>, times: seq<int>) {
    |batches| == |times| && forall i | 0 <= i < |times| :: batches[i].now == times[i]
  }

  ghost predicate InOrder(times: seq<int>, from: int) {
    && (forall i | 0 <= i < |times| :: from <= times[i])
    && (forall i, j | 0 <= i < j < |times| :: times[i] <= times[j])
  }

  predicate InSuspensionWeek(time: int, base: int) {
    base + 14 * DAY <= time < base + 21 * DAY
  }

  lemma {:induction false} Enumerate(ids: set<nat>) returns (rows: seq<nat>)
    ensures IsAnswer(rows, ids)
  {
    if ids == {} {
      rows := [];
    } else {
      var id :| id in ids;
      var rest := Enumerate(ids - {id});
      rows := rest + [id];
    }
  }

  /** The database may always answer with the suspension last. */
  lemma BackwardAnswer(s: State, now: int, suspend: nat, cancel: nat) returns (rows: seq<nat>)
    requires suspend != cancel
    ensures IsAnswer(rows, Due(s, now)) && !Before(rows, suspend, cancel)
  {
    var rest := Enumerate(Due(s, now) - {suspend});
    assert suspend !in rest;
    rows := if suspend in Due(s, now) then rest + [suspend] else rest;
    assert forall i | 0 <= i < |rows| :: rows[i] == suspend ==> i == |rows| - 1;
  }

  /** Such answers for a whole list of calls. */
  lemma {:induction false} BackwardRun(s: State, invoice: nat, base: int, ids: seq<nat>, times: seq<int>, last: int)
    returns (batches: seq<Batch>)
    requires OneSequence(s, invoice, base, ids) && Progress(s, base, ids, last)
    requires InOrder(times, last)
    ensures Valid(s, batches, last) && CalledAt(batches, times)
    ensures forall b | b in batches :: !Before(b.rows, ids[2], ids[3])
    decreases |times|
  {
    if times == [] {
      batches := [];
    } else {
      var rows := BackwardAnswer(s, times[0], ids[2], ids[3]);
      var b := Batch(times[0], rows);
      EscalationStep(s, invoice, base, ids, last, b);
      var rest := BackwardRun(Processed(s, rows), invoice, base, ids, times[1..], times[0]);
      batches := [b] + rest;
      assert batches[1..] == rest;
    }
  }

  /** Without a run in days 14 to 20 some order of the rows undoes the cancellation:
      it comes before the suspension, and the subscription ends paused. */
  lemma OrderCanUndoTheCancellation(s: State, invoice: nat, base: int, ids: seq<nat>, times: seq<int>)
    returns (batches: seq<Batch>)
    requires OneSequence(s, invoice, base, ids) && Progress(s, base, ids, base)
    requires InOrder(times, base)
    requires times != [] && times[|times| - 1] >= base + 21 * DAY
    requires forall t | t in times :: !InSuspensionWeek(t, base)
    ensures Valid(s, batches, base) && CalledAt(batches, times)
    ensures var t := Run(s, batches, base); OneSequence(t, invoice, base, ids) && StatusOf(t, invoice) == Subs.Paused
  {
    batches := BackwardRun(s, invoice, base, ids, times, base);
    forall b | b in batches ensures !SuspensionIsFirst(b, base, ids) {
      assert b.now in times;
    }
    Escalation(s, invoice, base, ids, batches, base);
  }

  /** For any calls of the job from the start on, the last on or after day 21: the
      subscription ends closed whatever order the rows come in exactly when one of
      the calls falls in days 14 to 20. */
  lemma ClosedForEveryOrderIff(s: State, invoice: nat, base: int, ids: seq<nat>, times: seq<int>)
    requires OneSequence(s, invoice, base, ids) && Progress(s, base, ids, base)
    requires InOrder(times, base)
    requires times != [] && times[|times| - 1] >= base + 21 * DAY
    ensures (forall batches | Valid(s, batches, base) && CalledAt(batches, times) ::
               EndsClosed(Run(s, batches, base), invoice))
      <==> exists t :: t in times && InSuspensionWeek(t, base)
  {
    if t :| t in times && InSuspensionWeek(t, base) {
      forall batches | Valid(s, batches, base) && CalledAt(batches, times)
        ensures EndsClosed(Run(s, batches, base), invoice)
      {
        var i :| 0 <= i < |times| && times[i] == t;
        assert batches[i] in batches;
        ClosedWhateverTheOrder(s, invoice, base, ids, batches);
      }
    } else {
      var batches := OrderCanUndoTheCancellation(s, invoice, base, ids, times);
      assert !EndsClosed(Run(s, batches, base), invoice);
    }
  }

  predicate EndsClosed(s: State, invoice: nat) {
    invoice in s.bills && s.bills[invoice].subscription in s.life.subs && StatusOf(s, invoice) == Subs.Closed
  }

  // ---- What a batch leaves, row by row ------------------------------------

  /** Every row of a batch that went through is marked by what it met: left pending
      without an invoice, skipped when it was paid, failed after a retry, and a
      success after a suspension or cancellation.  No other row is touched. */
  lemma BatchMarks(s: State, rows: seq<nat>, id: nat)
    requires forall k | k in rows :: k in s.schedules
    requires forall i, j | 0 <= i < j < |rows| :: rows[i] != rows[j]
    requires ExecuteAll(s, rows).Ok? && id in s.schedules
    ensures var before, after := s.schedules[id], ExecuteAll(s, rows).value.schedules[id];
      && after == before.(status := after.status)
      && (id !in rows || before.invoice !in s.bills ==> after.status == before.status)
      && (id in rows && before.invoice in s.bills ==>
            if s.bills[before.invoice].paid then after.status == Skipped
            else if before.action == Retry then after.status == Failed
            else after.status == Success)
  {
    BatchEffect(s, rows);
  }

  /** The row suspends or cancels subscription x. */
  predicate ActsOn(s: State, id: nat, x: nat) {
    && id in s.schedules && s.schedules[id].action != Retry
    && s.schedules[id].invoice in s.bills && s.bills[s.schedules[id].invoice] == Bill(x, false)
  }

  lemma {:induction false} LastActorWrites(s: State, rows: seq<nat>, x: nat, k: nat)
    requires x in s.life.subs && (forall id | id in rows :: id in s.schedules) && k < |rows|
    requires ActsOn(s, rows[k], x) && forall i | k < i < |rows| :: !ActsOn(s, rows[i], x)
    ensures LastWrite(s, rows, x) == if s.schedules[rows[k]].action == Suspend then Subs.Paused else Subs.Closed
  {
    if k < |rows| - 1 {
      LastActorWrites(s, rows[..|rows| - 1], x, k);
    }
  }

  lemma {:induction false} NoActorWrites(s: State, rows: seq<nat>, x: nat)
    requires x in s.life.subs && (forall id | id in rows :: id in s.schedules)
    requires forall id | id in rows :: !ActsOn(s, id, x)
    ensures LastWrite(s, rows, x) == s.life.subs[x].status
  {
    if rows != [] {
      assert rows[|rows| - 1] in rows;
      NoActorWrites(s, rows[..|rows| - 1], x);
    }
  }

  /** The last row of a batch that suspends or cancels a subscription leaves it paused
      or closed; without one it stays as it was. */
  lemma LastActorDecides(s: State, rows: seq<nat>, x: nat)
    requires forall id | id in rows :: id in s.schedules
    requires forall i, j | 0 <= i < j < |rows| :: rows[i] != rows[j]
    requires ExecuteAll(s, rows).Ok? && x in s.life.subs
    ensures x in ExecuteAll(s, rows).value.life.subs
    ensures var before, after := s.life.subs[x], ExecuteAll(s, rows).value.life.subs[x];
      && after == before.(status := after.status)
      && ((forall id | id in rows :: !ActsOn(s, id, x)) ==> after == before)
      && (forall k | 0 <= k < |rows| && ActsOn(s, rows[k], x) && (forall i | k < i < |rows| :: !ActsOn(s, rows[i], x)) ::
            after.status == if s.schedules[rows[k]].action == Suspend then Subs.Paused else Subs.Closed)
  {
    BatchEffect(s, rows);
    if forall id | id in rows :: !ActsOn(s, id, x) {
      NoActorWrites(s, rows, x);
    }
    forall k | 0 <= k < |rows| && ActsOn(s, rows[k], x) && (forall i | k < i < |rows| :: !ActsOn(s, rows[i], x))
      ensures LastWrite(s, rows, x) == if s.schedules[rows[k]].action == Suspend then Subs.Paused else Subs.Closed
    {
      LastActorWrites(s, rows, x, k);
    }
  }

  /** The four rows of a sequence, with their attempt numbers and times. */
  lemma SequenceRows(invoice: nat, base: int)
    ensures NewRow(invoice, base, 0) == Schedule(invoice, 1, Retry, base + 3 * 24 * 3600, Pending)
    ensures NewRow(invoice, base, 1) == Schedule(invoice, 2, Retry, base + 7 * 24 * 3600, Pending)
    ensures NewRow(invoice, base, 2) == Schedule(invoice, 3, Suspend, base + 14 * 24 * 3600, Pending)
    ensures NewRow(invoice, base, 3) == Schedule(invoice, 4, Cancel, base + 21 * 24 * 3600, Pending)
  {
  }

  /** A batch fails with nothing but the missing subscription. */
  lemma {:induction false} BatchErrorIsNotFound(s: State, rows: seq<nat>)
    requires forall id | id in rows :: id in s.schedules
    ensures ExecuteAll(s, rows).Err? ==> ExecuteAll(s, rows) == Err(NotFound)
  {
    if rows != [] {
      BatchErrorIsNotFound(s, rows[..|rows| - 1]);
    }
  }
}
