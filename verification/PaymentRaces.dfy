/**
 Payments and cancellations of one invoice with their requests interleaved: each
 loads the invoice and later writes back what it computed from that, without a
 lock (app/services/billing/payment_service.py, invoice_service.py).
 */
module PaymentRaces {
  import opened Wrappers
  import opened BillingTables
  import Ledger

  /** Where a request stands.  The portal names no amount: it pays the balance.
      `seen` is the invoice as last read, when `version` payments were stored;
      `writes` is how often the invoice had been written when the checks were made. */
  datatype Pc =
    | Requested(asked: Option<int>)
    | Loaded(amount: int, seen: Invoice, version: nat, writes: nat)
    | CancelRequested
    | CancelLoaded(seen: Invoice, writes: nat)
    | Finished(ok: bool)

  datatype State = State(invoice: Invoice, payments: seq<int>, writes: nat, requests: map<nat, Pc>)

  /** Between its checks and its store a payment may read the invoice again, with the
      payment row it creates; the checks are not repeated. */
  datatype Event =
    | Arrive(id: nat, asked: Option<int>)
    | ArriveCancel(id: nat)
    | Load(id: nat)
    | Reread(id: nat)
    | Store(id: nat)

  predicate IsOpen(inv: Invoice) {
    inv.status == Confirmed || inv.status == Overdue
  }

  function Asked(inv: Invoice, asked: Option<int>): int {
    if asked.Some? then asked.value else inv.Due()
  }

  /** The checks are made on the row as loaded. */
  predicate Accepted(inv: Invoice, asked: Option<int>) {
    if asked.Some? then Ledger.PaymentError(inv, asked.value).None? else IsOpen(inv)
  }

  predicate Cancellable(inv: Invoice) {
    inv.paid <= 0 && inv.status != Paid
  }

  /** The update writes the paid amount, and the status once the total is reached. */
  function WrittenBack(row: Invoice, seen: Invoice, amount: int): Invoice {
    var paid := seen.paid + amount;
    if paid >= seen.total then row.(paid := paid, status := Paid) else row.(paid := paid)
  }

  function OnLoad(s: State, pc: Pc): Pc {
    match pc
    case Requested(asked) =>
      if Accepted(s.invoice, asked) then Loaded(Asked(s.invoice, asked), s.invoice, |s.payments|, s.writes)
      else Finished(false)
    case CancelRequested =>
      if Cancellable(s.invoice) then CancelLoaded(s.invoice, s.writes) else Finished(false)
    case _ => pc
  }

  function Next(s: State, e: Event): State {
    match e
    case Arrive(id, asked) =>
      if id in s.requests then s else s.(requests := s.requests[id := Requested(asked)])
    case ArriveCancel(id) =>
      if id in s.requests then s else s.(requests := s.requests[id := CancelRequested])
    case Load(id) =>
      if id !in s.requests then s else s.(requests := s.requests[id := OnLoad(s, s.requests[id])])
    case Reread(id) =>
      if id !in s.requests || !s.requests[id].Loaded? then s
      else s.(requests := s.requests[id := s.requests[id].(seen := s.invoice, version := |s.payments|)])
    case Store(id) => if id !in s.requests then s else OnStore(s, id)
  }

  /** A cancellation of an invoice seen as cancelled writes nothing. */
  function OnStore(s: State, id: nat): State
    requires id in s.requests
  {
    match s.requests[id]
    case Loaded(amount, seen, _, _) =>
      State(WrittenBack(s.invoice, seen, amount), s.payments + [amount], s.writes + 1, s.requests[id := Finished(true)])
    case CancelLoaded(seen, _) =>
      var row := if seen.status == Cancelled then s.invoice else s.invoice.(status := Cancelled);
      State(row, s.payments, s.writes + 1, s.requests[id := Finished(true)])
    case _ => s
  }

  function Run(s: State, events: seq<Event>): State
    decreases |events|
  {
    if events == [] then s else Run(Next(s, events[0]), events[1..])
  }

  function Sum(amounts: seq<int>): int {
    if amounts == [] then 0 else Sum(amounts[..|amounts| - 1]) + amounts[|amounts| - 1]
  }

  predicate Agrees(s: State) {
    s.invoice.paid == Sum(s.payments)
  }

  /** The event stores a payment although another was stored since it read the invoice. */
  predicate Overlaps(s: State, e: Event) {
    e.Store? && e.id in s.requests && s.requests[e.id].Loaded? && s.requests[e.id].version != |s.payments|
  }

  /** The event stores although the invoice was written since its checks. */
  predicate IsStale(s: State, e: Event) {
    e.Store? && e.id in s.requests &&
    match s.requests[e.id]
    case Loaded(_, _, _, writes) => writes != s.writes
    case CancelLoaded(_, writes) => writes != s.writes
    case _ => false
  }

  ghost predicate NoOverlap(s: State, events: seq<Event>)
    decreases |events|
  {
    events == [] || (!Overlaps(s, events[0]) && NoOverlap(Next(s, events[0]), events[1..]))
  }

  ghost predicate NoneStale(s: State, events: seq<Event>)
    decreases |events|
  {
    events == [] || (!IsStale(s, events[0]) && NoneStale(Next(s, events[0]), events[1..]))
  }

  /** The request schema admits positive amounts only. */
  predicate Schema(e: Event) {
    e.Arrive? && e.asked.Some? ==> e.asked.value > 0
  }

  // ---- Invariant ----------------------------------------------------------

  /** What a request knows: a positive amount, an invoice that is current unless a
      payment has been stored since, and checks that hold unless it was written. */
  ghost predicate KnowsPast(s: State, r: Pc) {
    match r
    case Requested(asked) => asked.Some? ==> asked.value > 0
    case Loaded(amount, seen, version, writes) =>
      && amount > 0 && seen.total == s.invoice.total
      && version <= |s.payments| && seen.paid <= Sum(s.payments[..version])
      && (version == |s.payments| ==> seen.paid == s.invoice.paid)
      && writes <= s.writes
      && (writes == s.writes ==> version == |s.payments| && IsOpen(s.invoice) && amount <= s.invoice.Due())
    case CancelLoaded(seen, writes) => writes <= s.writes && (writes == s.writes ==> seen == s.invoice && Cancellable(seen))
    case _ => true
  }

  ghost predicate Inv(s: State) {
    && (IsOpen(s.invoice) ==> s.invoice.paid < s.invoice.total)
    && s.invoice.paid <= Sum(s.payments)
    && (forall i | 0 <= i < |s.payments| :: s.payments[i] > 0)
    && (forall id | id in s.requests :: KnowsPast(s, s.requests[id]))
  }

  lemma SumPush(amounts: seq<int>, amount: int, n: nat)
    requires n <= |amounts|
    ensures Sum(amounts + [amount]) == Sum(amounts) + amount
    ensures (amounts + [amount])[..n] == amounts[..n]
  {
    assert (amounts + [amount])[..|amounts|] == amounts;
  }

  lemma {:induction false} SumGrows(amounts: seq<int>, n: nat)
    requires n <= |amounts| && forall i | 0 <= i < |amounts| :: amounts[i] > 0
    ensures if n == |amounts| then Sum(amounts[..n]) == Sum(amounts) else Sum(amounts[..n]) < Sum(amounts)
  {
    if n == |amounts| {
      assert amounts[..n] == amounts;
    } else {
      var front := amounts[..|amounts| - 1];
      SumGrows(front, n);
      assert front[..n] == amounts[..n];
    }
  }

  /** A payment is lost for good: by an overlap, or before. */
  lemma StoreAgreesIff(s: State, id: nat)
    requires Inv(s) && id in s.requests && s.requests[id].Loaded?
    ensures Agrees(Next(s, Store(id))) <==> Agrees(s) && !Overlaps(s, Store(id))
    ensures Next(s, Store(id)).invoice.paid <= Sum(Next(s, Store(id)).payments)
  {
    var r := s.requests[id];
    assert KnowsPast(s, r);
    SumGrows(s.payments, r.version);
    SumPush(s.payments, r.amount, 0);
  }

  lemma StoreKeepsKnowledge(s: State, id: nat, k: nat)
    requires Inv(s) && id in s.requests && s.requests[id].Loaded? && k in s.requests
    ensures KnowsPast(Next(s, Store(id)), Next(s, Store(id)).requests[k])
  {
    assert KnowsPast(s, s.requests[id]) && KnowsPast(s, s.requests[k]);
    if s.requests[k].Loaded? {
      SumPush(s.payments, s.requests[id].amount, s.requests[k].version);
    }
  }

  lemma StoreKeepsInv(s: State, id: nat)
    requires Inv(s) && id in s.requests && s.requests[id].Loaded?
    ensures Inv(Next(s, Store(id)))
    ensures Agrees(Next(s, Store(id))) <==> Agrees(s) && !Overlaps(s, Store(id))
  {
    var t := Next(s, Store(id));
    assert KnowsPast(s, s.requests[id]);
    StoreAgreesIff(s, id);
    forall k | k in t.requests ensures KnowsPast(t, t.requests[k]) {
      StoreKeepsKnowledge(s, id, k);
    }
  }

  lemma OtherKeepsKnowledge(s: State, e: Event, k: nat)
    requires Inv(s) && Schema(e) && k in Next(s, e).requests
    requires !(e.Store? && e.id in s.requests && s.requests[e.id].Loaded?)
    ensures KnowsPast(Next(s, e), Next(s, e).requests[k])
  {
    assert s.payments[..|s.payments|] == s.payments;
    assert k in s.requests ==> KnowsPast(s, s.requests[k]);
  }

  lemma NextKeepsInv(s: State, e: Event)
    requires Inv(s) && Schema(e)
    ensures Inv(Next(s, e))
    ensures Agrees(Next(s, e)) <==> Agrees(s) && !Overlaps(s, e)
  {
    if e.Store? && e.id in s.requests && s.requests[e.id].Loaded? {
      StoreKeepsInv(s, e.id);
    } else {
      var t := Next(s, e);
      forall k | k in t.requests ensures KnowsPast(t, t.requests[k]) {
        OtherKeepsKnowledge(s, e, k);
      }
    }
  }

  /** An open invoice with a positive total, nothing paid, no request. */
  predicate Fresh(s: State) {
    IsOpen(s.invoice) && s.invoice.paid == 0 < s.invoice.total && s.payments == [] && s.requests == map[]
  }

  lemma {:induction false} RunAgreesIff(s: State, events: seq<Event>)
    requires Inv(s) && forall e | e in events :: Schema(e)
    ensures Inv(Run(s, events))
    ensures Agrees(Run(s, events)) <==> Agrees(s) && NoOverlap(s, events)
    decreases |events|
  {
    if events != [] {
      assert Schema(events[0]);
      NextKeepsInv(s, events[0]);
      RunAgreesIff(Next(s, events[0]), events[1..]);
    }
  }

  /** Whatever cancellations interfere, the paid amount is the sum of the payments
      exactly when no payment was stored over another stored since it read the
      invoice; a payment once lost stays lost.  The paid amount is never more than
      the sum. */
  lemma PaidAgreesIff(s: State, events: seq<Event>)
    requires Fresh(s) && forall e | e in events :: Schema(e)
    ensures Agrees(Run(s, events)) <==> NoOverlap(s, events)
    ensures Run(s, events).invoice.paid <= Sum(Run(s, events).payments)
  {
    RunAgreesIff(s, events);
  }

  // ---- Runs without stale stores are sequential ---------------------------

  /** Storing a payment that is not stale is the sequential payment. */
  lemma SerialStoreIsPayment(s: State, id: nat)
    requires Inv(s) && id in s.requests && s.requests[id].Loaded? && !IsStale(s, Store(id))
    requires Ledger.GoodInvoice(s.invoice)
    ensures !Overlaps(s, Store(id))
    ensures Ledger.PaymentError(s.invoice, s.requests[id].amount).None?
    ensures Next(s, Store(id)).invoice == Ledger.WithPayment(s.invoice, s.requests[id].amount)
    ensures Ledger.GoodInvoice(Next(s, Store(id)).invoice)
  {
    assert KnowsPast(s, s.requests[id]);
  }

  /** Storing a cancellation that is not stale is the sequential one. */
  lemma SerialStoreIsCancellation(s: State, id: nat)
    requires Inv(s) && id in s.requests && s.requests[id].CancelLoaded? && !IsStale(s, Store(id))
    requires Ledger.GoodInvoice(s.invoice)
    ensures Cancellable(s.invoice) && Next(s, Store(id)).invoice == s.invoice.(status := Cancelled)
    ensures Ledger.GoodInvoice(Next(s, Store(id)).invoice)
  {
    assert KnowsPast(s, s.requests[id]);
  }

  lemma {:induction false} RunStaysGood(s: State, events: seq<Event>)
    requires Inv(s) && Ledger.GoodInvoice(s.invoice)
    requires (forall e | e in events :: Schema(e)) && NoneStale(s, events)
    ensures Ledger.GoodInvoice(Run(s, events).invoice) && NoOverlap(s, events)
    decreases |events|
  {
    if events != [] {
      var e := events[0];
      assert Schema(e);
      NextKeepsInv(s, e);
      if e.Store? && e.id in s.requests && s.requests[e.id].Loaded? {
        SerialStoreIsPayment(s, e.id);
      } else if e.Store? && e.id in s.requests && s.requests[e.id].CancelLoaded? {
        SerialStoreIsCancellation(s, e.id);
      }
      RunStaysGood(Next(s, e), events[1..]);
    }
  }

  /** So without stale stores the invoice stays good, its payments are all counted,
      and it is never overpaid. */
  lemma SerialRequestsStayGood(s: State, events: seq<Event>)
    requires Fresh(s) && (forall e | e in events :: Schema(e)) && NoneStale(s, events)
    ensures Ledger.GoodInvoice(Run(s, events).invoice)
    ensures Run(s, events).invoice.paid == Sum(Run(s, events).payments) <= Run(s, events).invoice.total
  {
    RunStaysGood(s, events);
    RunAgreesIff(s, events);
  }

  /** A payment whose two steps run back to back is the ledger's request: the same
      invoice, the same payment, or refused as there. */
  lemma UninterruptedPayment(s: State, request: nat, asked: Option<int>, t: Tables, id: nat)
    requires request !in s.requests && (asked.Some? ==> asked.value > 0)
    requires id in t.invoices && t.invoices[id] == s.invoice
    ensures var end := Run(s, [Arrive(request, asked), Load(request), Store(request)]);
      var op := if asked.Some? then Ledger.Record(id, asked.value) else Ledger.PortalPay(id, s.invoice.customer);
      request in end.requests &&
      match Ledger.Attempt(t, op)
      case Ok(t') =>
        && end.requests[request] == Finished(true) && end.invoice == t'.invoices[id]
        && exists p :: t'.payments == t.payments + [p] && p.invoice == id && end.payments == s.payments + [p.amount]
      case Err(_) => end.requests[request] == Finished(false) && end.invoice == s.invoice && end.payments == s.payments
  {
    RunThree(s, Arrive(request, asked), Load(request), Store(request));
    var amount := if asked.Some? then asked.value else s.invoice.Due();
    var p := Payment(id, s.invoice.customer, amount);
    if asked.Some? {
      Ledger.RecordIff(t, id, amount);
    } else {
      Ledger.PortalPayIff(t, id, s.invoice.customer);
    }
    assert Accepted(s.invoice, asked) ==> s.payments + [p.amount] == s.payments + [amount];
  }

  /** And so is such a cancellation. */
  lemma UninterruptedCancellation(s: State, request: nat, t: Tables, id: nat)
    requires request !in s.requests && id in t.invoices && t.invoices[id] == s.invoice
    ensures var end := Run(s, [ArriveCancel(request), Load(request), Store(request)]);
      && request in end.requests && end.payments == s.payments
      && match Ledger.Attempt(t, Ledger.Cancel(id))
         case Ok(t') => end.requests[request] == Finished(true) && end.invoice == t'.invoices[id]
         case Err(_) => end.requests[request] == Finished(false) && end.invoice == s.invoice
  {
    RunThree(s, ArriveCancel(request), Load(request), Store(request));
    Ledger.CancelIff(t, id);
  }

  lemma RunThree(s: State, a: Event, b: Event, c: Event)
    ensures Run(s, [a, b, c]) == Next(Next(Next(s, a), b), c)
  {
    assert [a, b, c][1..] == [b, c] && [b, c][1..] == [c] && [c][1..] == [];
    var t := Next(Next(s, a), b);
    assert Run(t, [c]) == Next(t, c);
    assert Run(Next(s, a), [b, c]) == Next(t, c);
  }

  // ---- What overlap can do ------------------------------------------------

  /** A customer can pay the whole balance twice. */
  lemma OverlapPaysTwice(s: State) returns (events: seq<Event>)
    requires Fresh(s)
    ensures forall e | e in events :: Schema(e)
    ensures Sum(Run(s, events).payments) == 2 * s.invoice.total && Run(s, events).invoice.paid == s.invoice.total
  {
    var total := s.invoice.total;
    var loaded := Loaded(total, s.invoice, 0, s.writes);
    var t := Next(Next(Next(s, Arrive(0, None)), Arrive(1, None)), Load(0));
    assert t.requests[0] == loaded && t.requests[1] == Requested(None);
    var u := Next(t, Load(1));
    assert u.requests[0] == loaded && u.requests[1] == loaded;
    var v := Next(u, Store(0));
    assert v.payments == [total] && v.requests[1] == loaded;
    var w := Next(v, Store(1));
    assert w.payments == [total] + [total] && w.invoice.paid == total;
    SumPush([], total, 0);
    SumPush([total], total, 0);
    assert [] + [total] == [total];
    RunThree(s, Arrive(0, None), Arrive(1, None), Load(0));
    RunThree(t, Load(1), Store(0), Store(1));
    RunAppend(s, [Arrive(0, None), Arrive(1, None), Load(0)], [Load(1), Store(0), Store(1)]);
    events := [Arrive(0, None), Arrive(1, None), Load(0)] + [Load(1), Store(0), Store(1)];
  }

  /** The payment is loaded and stored between the checks and the store of the
      cancellation. */
  function CancelAround(): seq<Event> {
    [ArriveCancel(0), Arrive(1, None), Load(0)] + [Load(1), Store(1), Store(0)]
  }

  lemma CancelAroundEnds(s: State)
    requires Fresh(s)
    ensures Run(s, CancelAround()).invoice == s.invoice.(paid := s.invoice.total, status := Cancelled)
    ensures Run(s, CancelAround()).payments == [s.invoice.total]
  {
    var total := s.invoice.total;
    var cancel, pay := CancelLoaded(s.invoice, s.writes), Loaded(total, s.invoice, 0, s.writes);
    var t := Next(Next(Next(s, ArriveCancel(0)), Arrive(1, None)), Load(0));
    assert t == s.(requests := map[0 := cancel, 1 := Requested(None)]);
    var u := Next(t, Load(1));
    assert u == s.(requests := map[0 := cancel, 1 := pay]);
    var v := Next(u, Store(1));
    assert v.invoice == s.invoice.(paid := total, status := Paid) && v.requests[0] == cancel && v.payments == [total];
    RunThree(s, ArriveCancel(0), Arrive(1, None), Load(0));
    RunThree(t, Load(1), Store(1), Store(0));
    RunAppend(s, [ArriveCancel(0), Arrive(1, None), Load(0)], [Load(1), Store(1), Store(0)]);
  }

  /** An invoice can end cancelled with its whole total paid and no payment lost,
      although neither request is admitted after the other. */
  lemma OverlapCancelsPaidInvoice(s: State) returns (events: seq<Event>)
    requires Fresh(s)
    ensures (forall e | e in events :: Schema(e)) && NoOverlap(s, events)
    ensures Run(s, events).invoice.status == Cancelled && Run(s, events).invoice.paid == s.invoice.total
    ensures !Ledger.GoodInvoice(Run(s, events).invoice)
  {
    events := CancelAround();
    CancelAroundEnds(s);
    SumPush([], s.invoice.total, 0);
    assert [] + [s.invoice.total] == [s.invoice.total];
    RunAgreesIff(s, events);
  }

  lemma {:induction false} RunAppend(s: State, a: seq<Event>, b: seq<Event>)
    ensures Run(s, a + b) == Run(Run(s, a), b)
    decreases |a|
  {
    if a == [] {
      assert a + b == b;
    } else {
      assert (a + b)[0] == a[0] && (a + b)[1..] == a[1..] + b;
      RunAppend(Next(s, a[0]), a[1..], b);
    }
  }

  /** A payment that has just read the invoice again overlaps with none stored before,
      though its checks may be stale. */
  lemma RereadEndsOverlap(s: State, id: nat)
    requires id in s.requests && s.requests[id].Loaded?
    ensures var t := Next(s, Reread(id));
      && !Overlaps(t, Store(id)) && t.requests[id].seen == t.invoice == s.invoice
      && (IsStale(t, Store(id)) <==> IsStale(s, Store(id)))
  {
  }
}
