/**
 The life of invoices and their payments (app/services/billing/invoice_service.py,
 payment_service.py, the ledger update of paypal_service.py) and the payment
 summary (app/routers/company.py).
 */
module Ledger {
  import opened Wrappers
  import opened BillingTables
  import opened InvoiceBuilding
  import opened Sums

  // ---- Specification ------------------------------------------------------

  /** What `_validate_payment` answers for an existing invoice. */
  function PaymentError(inv: Invoice, amount: int): Option<Error> {
    if inv.status == Cancelled || inv.status == Paid || inv.status == Draft then Some(Conflict)
    else if amount > inv.Due() then Some(Invalid)
    else None
  }

  function WithPayment(inv: Invoice, amount: int): Invoice {
    var paid := inv.paid + amount;
    if paid >= inv.total then inv.(paid := paid, status := Paid) else inv.(paid := paid)
  }

  function Pay(t: Tables, id: nat, customer: nat, amount: int): Tables
    requires id in t.invoices
  {
    t.(invoices := t.invoices[id := WithPayment(t.invoices[id], amount)],
       payments := t.payments + [Payment(id, customer, amount)])
  }

  function SetStatus(t: Tables, id: nat, status: Status): Tables
    requires id in t.invoices
  {
    t.(invoices := t.invoices[id := t.invoices[id].(status := status)])
  }

  /** The request schema rejects amounts that are not positive. */
  function DoRecord(t: Tables, id: nat, amount: int): Result<Tables> {
    if amount <= 0 then Err(Invalid)
    else if id !in t.invoices then Err(NotFound)
    else match PaymentError(t.invoices[id], amount)
      case Some(e) => Err(e)
      case None => Ok(Pay(t, id, t.invoices[id].customer, amount))
  }

  function DoPortalPay(t: Tables, id: nat, customer: nat): Result<Tables> {
    if id !in t.invoices || t.invoices[id].customer != customer then Err(NotFound)
    else if t.invoices[id].status != Confirmed && t.invoices[id].status != Overdue then Err(Conflict)
    else Ok(Pay(t, id, customer, t.invoices[id].Due()))
  }

  /** PayPal has already captured the money: no status check and no cap. */
  function DoCapture(t: Tables, id: nat, caller: Option<nat>, amount: int): Result<Tables> {
    if id !in t.invoices || (caller.Some? && t.invoices[id].customer != caller.value) then Err(NotFound)
    else Ok(Pay(t, id, t.invoices[id].customer, amount))
  }

  function DoConfirm(t: Tables, id: nat): Result<Tables> {
    if id !in t.invoices then Err(NotFound)
    else if t.invoices[id].status != Draft then Err(Conflict)
    else Ok(SetStatus(t, id, Confirmed))
  }

  function DoCancel(t: Tables, id: nat): Result<Tables> {
    if id !in t.invoices then Err(NotFound)
    else if t.invoices[id].paid > 0 || t.invoices[id].status == Paid then Err(Conflict)
    else Ok(SetStatus(t, id, Cancelled))
  }

  function Updated(inv: Invoice, due: Option<int>, status: Option<Status>): Invoice {
    inv.(dueDate := if due.Some? then due.value else inv.dueDate,
         status := if status.Some? then status.value else inv.status)
  }

  /** The request may name any status. */
  function DoUpdate(t: Tables, id: nat, due: Option<int>, status: Option<Status>): Result<Tables> {
    if id !in t.invoices then Err(NotFound)
    else if t.invoices[id].status != Draft && t.invoices[id].status != Confirmed then Err(Conflict)
    else Ok(t.(invoices := t.invoices[id := Updated(t.invoices[id], due, status)]))
  }

  /** An invoice of the plain factory: no discount, no tax. */
  function DoBill(t: Tables, id: nat, customer: nat, total: int, due: int): Result<Tables> {
    if id in t.invoices then Err(Crash)
    else
      var inv := Invoice(|t.invoices| + 1, customer, None, Draft, due, total, 0, 0, total, 0);
      Ok(t.(invoices := t.invoices[id := inv]))
  }

  datatype Op =
    | Build(id: nat, customer: nat, lines: seq<Line>, discount: Option<nat>, taxes: map<nat, int>, today: int)
    | Bill(id: nat, customer: nat, total: int, due: int)
    | Confirm(id: nat)
    | MarkOverdue(id: nat)
    | Cancel(id: nat)
    | Update(id: nat, newDue: Option<int>, status: Option<Status>)
    | Record(id: nat, amount: int)
    | PortalPay(id: nat, customer: nat)
    | Capture(id: nat, caller: Option<nat>, amount: int)

  function Attempt(t: Tables, op: Op): Result<Tables> {
    match op
    case Build(id, customer, lines, discount, taxes, today) => Generate(t, id, customer, lines, discount, taxes, today)
    case Bill(id, customer, total, due) => DoBill(t, id, customer, total, due)
    case Confirm(id) => DoConfirm(t, id)
    case MarkOverdue(id) =>
      if id in t.invoices && t.invoices[id].status == Confirmed then Ok(SetStatus(t, id, Overdue)) else Err(Conflict)
    case Cancel(id) => DoCancel(t, id)
    case Update(id, due, status) => DoUpdate(t, id, due, status)
    case Record(id, amount) => DoRecord(t, id, amount)
    case PortalPay(id, customer) => DoPortalPay(t, id, customer)
    case Capture(id, caller, amount) => DoCapture(t, id, caller, amount)
  }

  /** A request that raises changes nothing. */
  function Apply(t: Tables, op: Op): Tables {
    match Attempt(t, op)
    case Ok(t') => t'
    case Err(_) => t
  }

  function Run(t: Tables, ops: seq<Op>): Tables
    decreases |ops|
  {
    if ops == [] then t else Run(Apply(t, ops[0]), ops[1..])
  }

  // ---- The services -------------------------------------------------------

  class InvoiceService {
    const db: Database

    constructor (db: Database)
      ensures this.db == db
    {
      this.db := db;
    }

    method Confirm(id: nat) returns (r: Result<Tables>)
      modifies db
      ensures r == DoConfirm(old(db.Current()), id)
      ensures db.Current() == if r.Ok? then r.value else old(db.Current())
    {
      if id !in db.invoices {
        return Err(NotFound);
      }
      if db.invoices[id].status != Draft {
        return Err(Conflict);
      }
      db.invoices := db.invoices[id := db.invoices[id].(status := Confirmed)];
      return Ok(db.Current());
    }

    method Cancel(id: nat) returns (r: Result<Tables>)
      modifies db
      ensures r == DoCancel(old(db.Current()), id)
      ensures db.Current() == if r.Ok? then r.value else old(db.Current())
    {
      if id !in db.invoices {
        return Err(NotFound);
      }
      if db.invoices[id].paid > 0 {
        return Err(Conflict);
      }
      if db.invoices[id].status == Paid {
        return Err(Conflict);
      }
      db.invoices := db.invoices[id := db.invoices[id].(status := Cancelled)];
      return Ok(db.Current());
    }

    method UpdateInvoice(id: nat, due: Option<int>, status: Option<Status>) returns (r: Result<Tables>)
      modifies db
      ensures r == DoUpdate(old(db.Current()), id, due, status)
      ensures db.Current() == if r.Ok? then r.value else old(db.Current())
    {
      if id !in db.invoices {
        return Err(NotFound);
      }
      var inv := db.invoices[id];
      if inv.status !in {Draft, Confirmed} {
        return Err(Conflict);
      }
      if due.Some? {
        inv := inv.(dueDate := due.value);
      }
      if status.Some? {
        inv := inv.(status := status.value);
      }
      db.invoices := db.invoices[id := inv];
      return Ok(db.Current());
    }
  }

  class PaymentService {
    const db: Database

    constructor (db: Database)
      ensures this.db == db
    {
      this.db := db;
    }

    method RecordPayment(id: nat, amount: int) returns (r: Result<Tables>)
      modifies db
      ensures r == DoRecord(old(db.Current()), id, amount)
      ensures db.Current() == if r.Ok? then r.value else old(db.Current())
    {
      if amount <= 0 {
        return Err(Invalid);
      }
      if id !in db.invoices {
        return Err(NotFound);
      }
      var inv := db.invoices[id];
      if inv.status == Cancelled || inv.status == Paid || inv.status == Draft {
        return Err(Conflict);
      }
      if amount > inv.Due() {
        return Err(Invalid);
      }
      db.payments := db.payments + [Payment(id, inv.customer, amount)];
      UpdateInvoicePaid(id, amount);
      return Ok(db.Current());
    }

    method PortalPay(id: nat, customer: nat) returns (r: Result<Tables>)
      modifies db
      ensures r == DoPortalPay(old(db.Current()), id, customer)
      ensures db.Current() == if r.Ok? then r.value else old(db.Current())
    {
      if id !in db.invoices {
        return Err(NotFound);
      }
      var inv := db.invoices[id];
      if inv.customer != customer {
        return Err(NotFound);
      }
      if inv.status == Paid {
        return Err(Conflict);
      }
      if inv.status != Confirmed && inv.status != Overdue {
        return Err(Conflict);
      }
      var amount := inv.Due();
      db.payments := db.payments + [Payment(id, customer, amount)];
      UpdateInvoicePaid(id, amount);
      return Ok(db.Current());
    }

    /** The ledger part of `handle_success`. */
    method CapturePayPal(id: nat, caller: Option<nat>, amount: int) returns (r: Result<Tables>)
      modifies db
      ensures r == DoCapture(old(db.Current()), id, caller, amount)
      ensures db.Current() == if r.Ok? then r.value else old(db.Current())
    {
      if id !in db.invoices {
        return Err(NotFound);
      }
      var inv := db.invoices[id];
      if caller.Some? && inv.customer != caller.value {
        return Err(NotFound);
      }
      db.payments := db.payments + [Payment(id, inv.customer, amount)];
      UpdateInvoicePaid(id, amount);
      return Ok(db.Current());
    }

    method UpdateInvoicePaid(id: nat, amount: int)
      requires id in db.invoices
      modifies db`invoices
      ensures db.invoices == old(db.invoices)[id := WithPayment(old(db.invoices)[id], amount)]
    {
      var inv := db.invoices[id];
      var newPaid := inv.paid + amount;
      inv := inv.(paid := newPaid);
      if newPaid >= inv.total {
        inv := inv.(status := Paid);
      }
      db.invoices := db.invoices[id := inv];
    }
  }

  // ---- The summary --------------------------------------------------------

  function Received(payments: seq<Payment>): int {
    if payments == [] then 0 else Received(payments[..|payments| - 1]) + payments[|payments| - 1].amount
  }

  function PaidFor(payments: seq<Payment>, id: nat): int {
    if payments == [] then 0
    else
      var p := payments[|payments| - 1];
      PaidFor(payments[..|payments| - 1], id) + if p.invoice == id then p.amount else 0
  }

  function Outstanding(inv: Invoice): int {
    if inv.status == Confirmed then inv.Due() else 0
  }

  function OverdueDue(inv: Invoice): int {
    if inv.status == Overdue then inv.Due() else 0
  }

  function PaidAmount(inv: Invoice): int {
    inv.paid
  }

  /** What the tenant has billed: the total of an invoice that is confirmed, overdue or paid. */
  function Billed(inv: Invoice): int {
    if inv.status == Confirmed || inv.status == Overdue || inv.status == Paid then inv.total else 0
  }

  function Open(inv: Invoice): int {
    Outstanding(inv) + OverdueDue(inv)
  }

  method PaymentSummary(invoices: map<nat, Invoice>, payments: seq<Payment>)
    returns (received: int, outstanding: int, overdue: int)
    ensures received == Received(payments)
    ensures outstanding == SumBy(invoices, Outstanding) && overdue == SumBy(invoices, OverdueDue)
  {
    received, outstanding, overdue := 0, 0, 0;
    for i := 0 to |payments|
      invariant received == Received(payments[..i])
    {
      assert payments[..i + 1][..i] == payments[..i];
      received := received + payments[i].amount;
    }
    assert payments[..|payments|] == payments;
    var rest := invoices;
    while rest != map[]
      invariant outstanding + SumBy(rest, Outstanding) == SumBy(invoices, Outstanding)
      invariant overdue + SumBy(rest, OverdueDue) == SumBy(invoices, OverdueDue)
      decreases |rest|
    {
      var id :| id in rest;
      SumRemove(rest, Outstanding, id);
      SumRemove(rest, OverdueDue, id);
      if rest[id].status == Confirmed {
        outstanding := outstanding + (rest[id].total - rest[id].paid);
      } else if rest[id].status == Overdue {
        overdue := overdue + (rest[id].total - rest[id].paid);
      }
      rest := rest - {id};
    }
  }

  // ---- Invariants ---------------------------------------------------------

  /** Nothing paid on a draft or cancelled invoice, all paid on a paid one, and
      an open invoice with a payment is strictly underpaid. */
  predicate GoodInvoice(inv: Invoice) {
    && 0 <= inv.paid <= inv.total
    && (inv.status == Draft || inv.status == Cancelled ==> inv.paid == 0)
    && (inv.status == Paid ==> inv.paid == inv.total)
    && (inv.status != Paid && inv.paid > 0 ==> inv.paid < inv.total)
  }

  ghost predicate AllGood(t: Tables) {
    && (forall id | id in t.invoices :: GoodInvoice(t.invoices[id]))
    && (forall k | k in t.discounts :: GoodDiscount(t.discounts[k]))
  }

  /** The paid amount of every invoice is the sum of its payments. */
  ghost predicate PaidAgrees(t: Tables) {
    && (forall id | id in t.invoices :: t.invoices[id].paid == PaidFor(t.payments, id))
    && (forall i | 0 <= i < |t.payments| :: t.payments[i].invoice in t.invoices)
    && SumBy(t.invoices, PaidAmount) == Received(t.payments)
  }

  /** The invoices that carry a discount. */
  function Carrying(invoices: map<nat, Invoice>, d: nat): set<nat> {
    set id | id in invoices && invoices[id].discount == Some(d)
  }

  /** A discount's counter is the number of invoices that carry it, within its limit. */
  ghost predicate UsageAgrees(t: Tables) {
    forall k | k in t.discounts :: UseIsCounted(t.discounts[k], Carrying(t.invoices, k))
  }

  ghost predicate UseIsCounted(d: Discount, carriers: set<nat>) {
    d.usedCount == |carriers| && (d.usageLimit.Some? ==> d.usedCount <= d.usageLimit.value)
  }

  /** Sequential numbering gives each of the n invoices its own number in 1..n. */
  ghost predicate Numbered(t: Tables) {
    && (forall id | id in t.invoices :: 1 <= t.invoices[id].number <= |t.invoices|)
    && (forall i, j | i in t.invoices && j in t.invoices && i != j :: t.invoices[i].number != t.invoices[j].number)
  }

  /** Lines and rates as the schemas admit them, bills that are not negative. */
  predicate Schema(op: Op) {
    match op
    case Build(_, _, lines, _, taxes, _) => GoodLines(lines) && GoodTaxes(taxes)
    case Bill(_, _, total, _) => total >= 0
    case _ => true
  }

  /** New discounts: unused, with a limit that is not negative. */
  predicate Unused(d: Discount) {
    GoodDiscount(d) && d.usedCount == 0 && (d.usageLimit.Some? ==> d.usageLimit.value >= 0)
  }

  predicate Fresh(t: Tables) {
    t.invoices == map[] && t.payments == [] && forall k | k in t.discounts :: Unused(t.discounts[k])
  }

  /** The amount is within the balance, and the invoice is open or the amount settles it. */
  predicate Fits(inv: Invoice, amount: int) {
    amount <= inv.Due() && (inv.status == Confirmed || inv.status == Overdue || amount == inv.Due())
  }

  /** The status agrees with what is paid on the invoice. */
  predicate StatusFits(inv: Invoice, status: Status) {
    (status == Draft || status == Cancelled ==> inv.paid == 0) && (status == Paid ==> inv.paid == inv.total)
  }

  /** A PayPal capture is of an amount, and an update of a status, that fits its invoice. */
  predicate RequestFits(t: Tables, op: Op) {
    match op
    case Capture(id, _, amount) => id in t.invoices ==> amount > 0 && Fits(t.invoices[id], amount)
    case Update(id, _, status) => id in t.invoices && status.Some? ==> StatusFits(t.invoices[id], status.value)
    case _ => true
  }

  ghost predicate RequestsFit(t: Tables, ops: seq<Op>)
    decreases |ops|
  {
    ops == [] || (RequestFits(t, ops[0]) && RequestsFit(Apply(t, ops[0]), ops[1..]))
  }

  // ---- Preservation -------------------------------------------------------

  lemma StepKeepsGood(t: Tables, op: Op)
    requires AllGood(t) && Schema(op) && RequestFits(t, op)
    ensures AllGood(Apply(t, op))
  {
    if op.Build? && Attempt(t, op).Ok? {
      GeneratedAmounts(t, op.id, op.customer, op.lines, op.discount, op.taxes, op.today);
    }
  }

  lemma PayKeepsAgreement(t: Tables, id: nat, customer: nat, amount: int)
    requires PaidAgrees(t) && id in t.invoices
    ensures PaidAgrees(Pay(t, id, customer, amount))
  {
    var t' := Pay(t, id, customer, amount);
    assert t'.payments[..|t'.payments| - 1] == t.payments;
    SumUpdate(t.invoices, PaidAmount, id, t'.invoices[id]);
  }

  /** Changing an invoice but not what is paid on it. */
  lemma EditKeepsAgreement(t: Tables, id: nat, inv: Invoice)
    requires PaidAgrees(t) && id in t.invoices && inv.paid == t.invoices[id].paid
    ensures PaidAgrees(t.(invoices := t.invoices[id := inv]))
  {
    SumUpdate(t.invoices, PaidAmount, id, inv);
  }

  lemma {:induction false} NothingPaidYet(payments: seq<Payment>, id: nat)
    requires forall i | 0 <= i < |payments| :: payments[i].invoice != id
    ensures PaidFor(payments, id) == 0
  {
    if payments != [] {
      NothingPaidYet(payments[..|payments| - 1], id);
    }
  }

  lemma NewInvoiceKeepsAgreement(t: Tables, t': Tables, id: nat, inv: Invoice)
    requires PaidAgrees(t) && id !in t.invoices && inv.paid == 0
    requires t'.invoices == t.invoices[id := inv] && t'.payments == t.payments
    ensures PaidAgrees(t')
  {
    NothingPaidYet(t.payments, id);
    SumInsert(t.invoices, PaidAmount, id, inv);
  }

  /** This one holds of PayPal captures too. */
  lemma StepKeepsPaidAgreement(t: Tables, op: Op)
    requires PaidAgrees(t)
    ensures PaidAgrees(Apply(t, op))
  {
    if Attempt(t, op).Ok? {
      var t' := Apply(t, op);
      match op
      case Build(id, _, _, _, _, _) => NewInvoiceKeepsAgreement(t, t', id, t'.invoices[id]);
      case Bill(id, _, _, _) => NewInvoiceKeepsAgreement(t, t', id, t'.invoices[id]);
      case Record(id, amount) => PayKeepsAgreement(t, id, t.invoices[id].customer, amount);
      case PortalPay(id, customer) => PayKeepsAgreement(t, id, customer, t.invoices[id].Due());
      case Capture(id, _, amount) => PayKeepsAgreement(t, id, t.invoices[id].customer, amount);
      case _ => EditKeepsAgreement(t, op.id, t'.invoices[op.id]);
    }
  }

  /** Applying a discount increments its counter, which was below its limit. */
  ghost predicate CountsUse(before: map<nat, Discount>, after: map<nat, Discount>, id: Option<nat>) {
    if id.None? then after == before
    else
      && id.value in before
      && (var d := before[id.value];
          && (d.usageLimit.Some? ==> d.usedCount < d.usageLimit.value)
          && after == before[id.value := d.(usedCount := d.usedCount + 1)])
  }

  /** Every accepted request writes one invoice row; only the two builders add one. */
  lemma WritesOneRow(t: Tables, op: Op)
    requires Attempt(t, op).Ok?
    ensures var t' := Apply(t, op);
      && op.id in t'.invoices && t'.invoices == t.invoices[op.id := t'.invoices[op.id]]
      && (op.id !in t.invoices ==> t'.invoices[op.id].number == |t.invoices| + 1)
      && (op.id in t.invoices ==> t'.invoices[op.id].number == t.invoices[op.id].number)
      && (op.id in t.invoices ==>
            t'.invoices[op.id].discount == t.invoices[op.id].discount && t'.discounts == t.discounts)
      && (op.id !in t.invoices ==> CountsUse(t.discounts, t'.discounts, t'.invoices[op.id].discount))
  {
  }

  lemma StepKeepsUsage(t: Tables, op: Op)
    requires UsageAgrees(t)
    ensures UsageAgrees(Apply(t, op))
  {
    if Attempt(t, op).Ok? {
      WritesOneRow(t, op);
      OneRowKeepsUsage(t, Apply(t, op), op.id);
    }
  }

  lemma CarriersAfter(rows: map<nat, Invoice>, id: nat, inv: Invoice, k: nat)
    requires id in rows ==> inv.discount == rows[id].discount
    ensures var before, after := Carrying(rows, k), Carrying(rows[id := inv], k);
      if id !in rows && inv.discount == Some(k) then |after| == |before| + 1 else after == before
  {
    var before, after := Carrying(rows, k), Carrying(rows[id := inv], k);
    if id !in rows && inv.discount == Some(k) {
      assert after == before + {id} && id !in before;
    } else {
      assert after == before;
    }
  }

  lemma OneRowKeepsUsage(t: Tables, t': Tables, id: nat)
    requires UsageAgrees(t)
    requires id in t'.invoices && t'.invoices == t.invoices[id := t'.invoices[id]]
    requires id in t.invoices ==> t'.invoices[id].discount == t.invoices[id].discount && t'.discounts == t.discounts
    requires id !in t.invoices ==> CountsUse(t.discounts, t'.discounts, t'.invoices[id].discount)
    ensures UsageAgrees(t')
  {
    forall k | k in t'.discounts ensures UseIsCounted(t'.discounts[k], Carrying(t'.invoices, k)) {
      assert UseIsCounted(t.discounts[k], Carrying(t.invoices, k));
      CarriersAfter(t.invoices, id, t'.invoices[id], k);
    }
  }

  lemma StepKeepsNumbers(t: Tables, op: Op)
    requires Numbered(t)
    ensures Numbered(Apply(t, op))
  {
    if Attempt(t, op).Ok? {
      WritesOneRow(t, op);
      OneRowKeepsNumbers(t, Apply(t, op), op.id);
    }
  }

  lemma OneRowKeepsNumbers(t: Tables, t': Tables, id: nat)
    requires Numbered(t)
    requires id in t'.invoices && t'.invoices == t.invoices[id := t'.invoices[id]]
    requires id !in t.invoices ==> t'.invoices[id].number == |t.invoices| + 1
    requires id in t.invoices ==> t'.invoices[id].number == t.invoices[id].number
    ensures Numbered(t')
  {
    assert id in t.invoices ==> t'.invoices.Keys == t.invoices.Keys;
    assert |t'.invoices| == |t'.invoices.Keys| && |t.invoices| == |t.invoices.Keys|;
  }

  // ---- Whole runs ---------------------------------------------------------

  lemma {:induction false} RunKeeps(t: Tables, ops: seq<Op>)
    requires forall op | op in ops :: Schema(op)
    requires PaidAgrees(t) && UsageAgrees(t) && Numbered(t)
    ensures var t' := Run(t, ops); PaidAgrees(t') && UsageAgrees(t') && Numbered(t')
    ensures AllGood(t) && RequestsFit(t, ops) ==> AllGood(Run(t, ops))
    decreases |ops|
  {
    if ops != [] {
      var op := ops[0];
      StepKeepsPaidAgreement(t, op);
      StepKeepsUsage(t, op);
      StepKeepsNumbers(t, op);
      if AllGood(t) && RequestFits(t, op) {
        StepKeepsGood(t, op);
      }
      RunKeeps(Apply(t, op), ops[1..]);
    }
  }

  lemma FreshHolds(t: Tables)
    requires Fresh(t)
    ensures PaidAgrees(t) && UsageAgrees(t) && Numbered(t) && AllGood(t)
  {
    forall k | k in t.discounts ensures Carrying(t.invoices, k) == {} {
    }
  }

  /** In every run whose captures and status updates fit, each invoice is in a good
      state and its paid amount is the sum of its payments. */
  lemma InvoicesStayGood(t: Tables, ops: seq<Op>, id: nat)
    requires Fresh(t) && (forall op | op in ops :: Schema(op)) && RequestsFit(t, ops)
    requires id in Run(t, ops).invoices
    ensures GoodInvoice(Run(t, ops).invoices[id])
    ensures Run(t, ops).invoices[id].paid == PaidFor(Run(t, ops).payments, id)
  {
    FreshHolds(t);
    RunKeeps(t, ops);
  }

  /** With any captures the sum of payments still agrees, invoice by invoice and in all. */
  lemma PaidAmountsAgree(t: Tables, ops: seq<Op>)
    requires Fresh(t) && forall op | op in ops :: Schema(op)
    ensures PaidAgrees(Run(t, ops))
  {
    FreshHolds(t);
    RunKeeps(t, ops);
  }

  /** Conservation: everything billed is received, outstanding or overdue, as the
      summary computes the three. */
  lemma BilledIsConserved(t: Tables, ops: seq<Op>)
    requires Fresh(t) && (forall op | op in ops :: Schema(op)) && RequestsFit(t, ops)
    ensures var t' := Run(t, ops);
      SumBy(t'.invoices, Billed)
        == Received(t'.payments) + SumBy(t'.invoices, Outstanding) + SumBy(t'.invoices, OverdueDue)
    ensures Conserved(Run(t, ops))
  {
    FreshHolds(t);
    RunKeeps(t, ops);
    var rows := Run(t, ops).invoices;
    forall id | id in rows ensures Billed(rows[id]) == PaidAmount(rows[id]) + Open(rows[id]) {
      assert GoodInvoice(rows[id]);
    }
    SumSplit(rows, Billed, PaidAmount, Open);
    SumSplit(rows, Open, Outstanding, OverdueDue);
  }

  /** Neither a capture nor an update of a status. */
  predicate Plain(op: Op) {
    !op.Capture? && (op.Update? ==> op.status.None?)
  }

  lemma {:induction false} PlainRequestsFit(t: Tables, ops: seq<Op>)
    requires forall op | op in ops :: Plain(op)
    ensures RequestsFit(t, ops)
    decreases |ops|
  {
    if ops != [] {
      assert Plain(ops[0]);
      PlainRequestsFit(Apply(t, ops[0]), ops[1..]);
    }
  }

  /** Both hold of every run without captures and status updates. */
  lemma PlainRunsConserve(t: Tables, ops: seq<Op>)
    requires Fresh(t) && forall op | op in ops :: Schema(op) && Plain(op)
    ensures Conserved(Run(t, ops))
    ensures forall id | id in Run(t, ops).invoices :: GoodInvoice(Run(t, ops).invoices[id])
  {
    PlainRequestsFit(t, ops);
    BilledIsConserved(t, ops);
    FreshHolds(t);
    RunKeeps(t, ops);
  }

  /** Over any run a discount's counter is the number of invoices that carry it and
      never passes its limit. */
  lemma DiscountUsageIsExact(t: Tables, ops: seq<Op>, k: nat)
    requires Fresh(t) && forall op | op in ops :: Schema(op)
    requires k in Run(t, ops).discounts
    ensures UseIsCounted(Run(t, ops).discounts[k], Carrying(Run(t, ops).invoices, k))
  {
    FreshHolds(t);
    RunKeeps(t, ops);
  }

  lemma InvoiceNumbersAreUnique(t: Tables, ops: seq<Op>)
    requires Fresh(t) && forall op | op in ops :: Schema(op)
    ensures Numbered(Run(t, ops))
  {
    FreshHolds(t);
    RunKeeps(t, ops);
  }

  /** A paid or cancelled invoice is never written again but by a capture. */
  lemma {:induction false} SettledForever(t: Tables, ops: seq<Op>, id: nat)
    requires forall op | op in ops :: !op.Capture?
    requires id in t.invoices && (t.invoices[id].status == Paid || t.invoices[id].status == Cancelled)
    ensures id in Run(t, ops).invoices && Run(t, ops).invoices[id] == t.invoices[id]
    decreases |ops|
  {
    if ops != [] {
      assert !ops[0].Capture?;
      SettledForever(Apply(t, ops[0]), ops[1..], id);
    }
  }

  /** Draft, confirmed, overdue, then settled: paid or cancelled. */
  function Stage(status: Status): nat {
    match status
    case Draft => 0
    case Confirmed => 1
    case Overdue => 2
    case Paid => 3
    case Cancelled => 3
  }

  ghost predicate MovesOn(before: Invoice, after: Invoice) {
    && Stage(before.status) <= Stage(after.status)
    && after == before.(status := after.status, paid := after.paid, dueDate := after.dueDate)
    && before.paid <= after.paid
  }

  lemma StepMovesOn(t: Tables, op: Op, id: nat)
    requires AllGood(t) && RequestFits(t, op) && id in t.invoices
    requires op.Update? ==> op.status.None?
    ensures id in Apply(t, op).invoices && MovesOn(t.invoices[id], Apply(t, op).invoices[id])
  {
    assert GoodInvoice(t.invoices[id]);
  }

  /** No invoice is ever dropped, moved back, re-numbered, re-addressed or re-priced. */
  lemma {:induction false} LifecycleNeverGoesBack(t: Tables, ops: seq<Op>, id: nat)
    requires AllGood(t) && (forall op | op in ops :: Schema(op)) && RequestsFit(t, ops)
    requires forall op | op in ops && op.Update? :: op.status.None?
    requires id in t.invoices
    ensures id in Run(t, ops).invoices && MovesOn(t.invoices[id], Run(t, ops).invoices[id])
    decreases |ops|
  {
    if ops != [] {
      StepKeepsGood(t, ops[0]);
      StepMovesOn(t, ops[0], id);
      LifecycleNeverGoesBack(Apply(t, ops[0]), ops[1..], id);
    }
  }

  ghost predicate Conserved(t: Tables) {
    SumBy(t.invoices, Billed) == Received(t.payments) + SumBy(t.invoices, Open)
  }

  lemma PaymentFits(inv: Invoice, amount: int)
    requires GoodInvoice(inv) && amount > 0
    ensures var after := WithPayment(inv, amount);
      && (GoodInvoice(after) <==> Fits(inv, amount))
      && (Billed(after) - Billed(inv) == amount + Open(after) - Open(inv) <==> Fits(inv, amount))
  {
  }

  lemma PaymentMovesSums(t: Tables, id: nat, customer: nat, amount: int)
    requires id in t.invoices
    ensures var t', inv := Pay(t, id, customer, amount), t.invoices[id];
      var after := WithPayment(inv, amount);
      && Received(t'.payments) == Received(t.payments) + amount
      && SumBy(t'.invoices, Billed) == SumBy(t.invoices, Billed) - Billed(inv) + Billed(after)
      && SumBy(t'.invoices, Open) == SumBy(t.invoices, Open) - Open(inv) + Open(after)
  {
    var t', after := Pay(t, id, customer, amount), WithPayment(t.invoices[id], amount);
    assert t'.payments[..|t'.payments| - 1] == t.payments;
    SumUpdate(t.invoices, Billed, id, after);
    SumUpdate(t.invoices, Open, id, after);
  }

  lemma OneRowDecidesGood(t: Tables, id: nat, customer: nat, amount: int)
    requires AllGood(t) && id in t.invoices
    ensures AllGood(Pay(t, id, customer, amount)) <==> GoodInvoice(WithPayment(t.invoices[id], amount))
  {
    var t' := Pay(t, id, customer, amount);
    assert t'.invoices[id] == WithPayment(t.invoices[id], amount);
    assert forall k | k in t'.invoices && k != id :: t'.invoices[k] == t.invoices[k];
  }

  /** A PayPal capture checks neither the status nor the balance: it keeps the
      invoices good, and it keeps conservation, exactly when the amount fits. */
  lemma CaptureIsGoodIff(t: Tables, id: nat, caller: Option<nat>, amount: int)
    requires AllGood(t) && Conserved(t) && id in t.invoices && amount > 0
    requires DoCapture(t, id, caller, amount).Ok?
    ensures var t' := DoCapture(t, id, caller, amount).value;
      (AllGood(t') <==> Fits(t.invoices[id], amount)) && (Conserved(t') <==> Fits(t.invoices[id], amount))
  {
    var customer := t.invoices[id].customer;
    assert GoodInvoice(t.invoices[id]);
    PaymentFits(t.invoices[id], amount);
    PaymentMovesSums(t, id, customer, amount);
    OneRowDecidesGood(t, id, customer, amount);
  }

  /** Updates that name a status keep the invoices good, and keep conservation,
      exactly when the status fits. */
  lemma UpdateIsGoodIff(t: Tables, id: nat, due: Option<int>, status: Status)
    requires AllGood(t) && Conserved(t) && id in t.invoices
    requires t.invoices[id].status == Draft || t.invoices[id].status == Confirmed
    ensures DoUpdate(t, id, due, Some(status)).Ok?
    ensures var t' := DoUpdate(t, id, due, Some(status)).value;
      && (AllGood(t') <==> StatusFits(t.invoices[id], status))
      && (Conserved(t') <==> StatusFits(t.invoices[id], status))
  {
    var t', after := DoUpdate(t, id, due, Some(status)).value, Updated(t.invoices[id], due, Some(status));
    assert GoodInvoice(t.invoices[id]);
    StatusDecides(t.invoices[id], due, status);
    SumUpdate(t.invoices, Billed, id, after);
    SumUpdate(t.invoices, Open, id, after);
    assert t'.invoices[id] == after;
    assert forall k | k in t'.invoices && k != id :: t'.invoices[k] == t.invoices[k];
  }

  lemma StatusDecides(inv: Invoice, due: Option<int>, status: Status)
    requires GoodInvoice(inv) && (inv.status == Draft || inv.status == Confirmed)
    ensures var after := Updated(inv, due, Some(status));
      && (GoodInvoice(after) <==> StatusFits(inv, status))
      && (Billed(after) - Billed(inv) == Open(after) - Open(inv) <==> StatusFits(inv, status))
  {
  }

  // ---- What each request is admitted for and writes -----------------------

  /** The tables with one invoice row written, and nothing else. */
  predicate OnlyInvoice(t: Tables, t': Tables, id: nat, inv: Invoice) {
    t' == t.(invoices := t.invoices[id := inv])
  }

  /** A manual payment is admitted exactly for a positive amount up to the balance of
      a confirmed or overdue invoice; it settles the invoice exactly when it is the
      whole balance. */
  lemma RecordIff(t: Tables, id: nat, amount: int)
    ensures var r := Attempt(t, Record(id, amount));
      && (r.Ok? <==> amount > 0 && id in t.invoices && t.invoices[id].status in {Confirmed, Overdue}
                     && t.invoices[id].paid + amount <= t.invoices[id].total)
      && (r == Err(NotFound) <==> amount > 0 && id !in t.invoices)
      && (r == Err(Conflict) <==> amount > 0 && id in t.invoices && t.invoices[id].status in {Draft, Paid, Cancelled})
      && (r.Err? ==> r.error in {NotFound, Conflict, Invalid})
      && (r.Ok? ==>
            var inv, after := t.invoices[id], r.value.invoices[id];
            && after == inv.(paid := inv.paid + amount, status := after.status)
            && after.status == (if inv.paid + amount == inv.total then Paid else inv.status)
            && OnlyInvoice(t.(payments := t.payments + [Payment(id, inv.customer, amount)]), r.value, id, after))
  {
  }

  /** The portal is admitted exactly for the owner's confirmed or overdue invoice; it
      pays what was left to pay, in one payment, and the invoice is then paid in full. */
  lemma PortalPayIff(t: Tables, id: nat, customer: nat)
    ensures var r := Attempt(t, PortalPay(id, customer));
      && (r.Ok? <==> id in t.invoices && t.invoices[id].customer == customer
                     && t.invoices[id].status in {Confirmed, Overdue})
      && (r == Err(NotFound) <==> !(id in t.invoices && t.invoices[id].customer == customer))
      && (r.Err? ==> r.error in {NotFound, Conflict})
      && (r.Ok? ==>
            var inv := t.invoices[id];
            OnlyInvoice(t.(payments := t.payments + [Payment(id, customer, inv.total - inv.paid)]), r.value, id,
                        inv.(status := Paid, paid := inv.total)))
  {
  }

  /** A capture is admitted for any existing invoice of the caller, if one is named. */
  lemma CaptureIff(t: Tables, id: nat, caller: Option<nat>, amount: int)
    ensures var r := Attempt(t, Capture(id, caller, amount));
      && (r.Ok? <==> id in t.invoices && (caller == None || caller == Some(t.invoices[id].customer)))
      && (r.Err? ==> r == Err(NotFound))
      && (r.Ok? ==>
            var inv, after := t.invoices[id], r.value.invoices[id];
            && after == inv.(paid := inv.paid + amount, status := after.status)
            && after.status == (if inv.paid + amount < inv.total then inv.status else Paid)
            && OnlyInvoice(t.(payments := t.payments + [Payment(id, inv.customer, amount)]), r.value, id, after))
  {
  }

  /** Confirming takes a draft to confirmed, and nothing else anywhere. */
  lemma ConfirmIff(t: Tables, id: nat)
    ensures var r := Attempt(t, Confirm(id));
      && (r.Ok? <==> id in t.invoices && t.invoices[id].status == Draft)
      && (r == Err(NotFound) <==> id !in t.invoices) && (r.Err? ==> r.error in {NotFound, Conflict})
      && (r.Ok? ==> OnlyInvoice(t, r.value, id, t.invoices[id].(status := Confirmed)))
  {
  }

  /** Cancelling takes an invoice with nothing paid that is not paid to cancelled. */
  lemma CancelIff(t: Tables, id: nat)
    ensures var r := Attempt(t, Cancel(id));
      && (r.Ok? <==> id in t.invoices && t.invoices[id].paid <= 0 && t.invoices[id].status != Paid)
      && (r == Err(NotFound) <==> id !in t.invoices) && (r.Err? ==> r.error in {NotFound, Conflict})
      && (r.Ok? ==> OnlyInvoice(t, r.value, id, t.invoices[id].(status := Cancelled)))
  {
  }

  /** An update writes what it names, on a draft or a confirmed invoice only. */
  lemma UpdateIff(t: Tables, id: nat, due: Option<int>, status: Option<Status>)
    ensures var r := Attempt(t, Update(id, due, status));
      && (r.Ok? <==> id in t.invoices && t.invoices[id].status in {Draft, Confirmed})
      && (r == Err(NotFound) <==> id !in t.invoices) && (r.Err? ==> r.error in {NotFound, Conflict})
      && (r.Ok? ==>
            var after := r.value.invoices[id];
            && (due.Some? ==> after.dueDate == due.value) && (status.Some? ==> after.status == status.value)
            && (due.None? ==> after.dueDate == t.invoices[id].dueDate)
            && (status.None? ==> after.status == t.invoices[id].status)
            && OnlyInvoice(t, r.value, id, t.invoices[id].(dueDate := after.dueDate, status := after.status)))
  {
  }

  /** A factory bill is a draft over its whole total with nothing paid. */
  lemma BillIff(t: Tables, id: nat, customer: nat, total: int, due: int)
    ensures var r := Attempt(t, Bill(id, customer, total, due));
      && (r.Ok? <==> id !in t.invoices) && (r.Err? ==> r.error == Crash)
      && (r.Ok? ==>
            var inv := r.value.invoices[id];
            && OnlyInvoice(t, r.value, id, inv)
            && inv.customer == customer && inv.dueDate == due && inv.status == Draft && inv.discount == None
            && inv.total == inv.subtotal == total && inv.taxTotal == inv.discountTotal == inv.paid == 0)
  {
  }

  /** The summary's two balances: confirming an invoice adds what it still owes to
      the outstanding one, falling overdue moves it to the overdue one, and a payment
      takes its amount from the one the invoice was in. */
  lemma SummaryMoves(t: Tables, op: Op)
    requires AllGood(t) && Attempt(t, op).Ok? && (op.Confirm? || op.MarkOverdue? || op.Record? || op.PortalPay?)
    ensures var t', inv := Apply(t, op), t.invoices[op.id];
      var owed := inv.total - inv.paid;
      var paid := Received(t'.payments) - Received(t.payments);
      var outstanding := SumBy(t'.invoices, Outstanding) - SumBy(t.invoices, Outstanding);
      var overdue := SumBy(t'.invoices, OverdueDue) - SumBy(t.invoices, OverdueDue);
      match op
      case Confirm(_) => paid == 0 && outstanding == owed && overdue == 0
      case MarkOverdue(_) => paid == 0 && outstanding == -owed && overdue == owed
      case Record(_, amount) => paid == amount && outstanding == (if inv.status == Confirmed then -amount else 0)
                                && overdue == (if inv.status == Overdue then -amount else 0)
      case _ => paid == owed && outstanding == (if inv.status == Confirmed then -owed else 0)
                && overdue == (if inv.status == Overdue then -owed else 0)
  {
    var t' := Apply(t, op);
    assert GoodInvoice(t.invoices[op.id]);
    SumUpdate(t.invoices, Outstanding, op.id, t'.invoices[op.id]);
    SumUpdate(t.invoices, OverdueDue, op.id, t'.invoices[op.id]);
    if op.Record? || op.PortalPay? {
      assert t'.payments[..|t'.payments| - 1] == t.payments;
    }
  }
}
