/**
 Building a draft invoice from a subscription's lines
 (app/services/billing/invoice_builder.py, discount_strategies.py), and the
 plain factory beside it (app/services/subscriptions/invoice_factory.py).
 */
module InvoiceBuilding {
  import opened Wrappers
  import opened BillingTables
  import opened Rounding

  /** `find_all` returns at most this many rows. */
  const PAGE_LIMIT := 100

  const DUE_IN_DAYS := 30

  // ---- Specification ------------------------------------------------------

  function Page(lines: seq<Line>): seq<Line> {
    if |lines| <= PAGE_LIMIT then lines else lines[..PAGE_LIMIT]
  }

  function LineTotal(l: Line): int {
    l.unitPrice * l.qty
  }

  function Subtotal(lines: seq<Line>): int {
    if lines == [] then 0 else Subtotal(lines[..|lines| - 1]) + LineTotal(lines[|lines| - 1])
  }

  /** The rate of a line's first tax, in hundredths of a percent; 0 without one. */
  function Rate(l: Line, taxes: map<nat, int>): int {
    if l.taxIds != [] && l.taxIds[0] in taxes then taxes[l.taxIds[0]] else 0
  }

  function LineTax(l: Line, taxes: map<nat, int>): int {
    HalfUp(LineTotal(l) * Rate(l, taxes), 10000)
  }

  function TaxTotal(lines: seq<Line>, taxes: map<nat, int>): int {
    if lines == [] then 0
    else TaxTotal(lines[..|lines| - 1], taxes) + LineTax(lines[|lines| - 1], taxes)
  }

  /** The tax before rounding, in units of 1/10000 cent. */
  function UnroundedTax(lines: seq<Line>, taxes: map<nat, int>): int {
    if lines == [] then 0
    else
      var l := lines[|lines| - 1];
      UnroundedTax(lines[..|lines| - 1], taxes) + LineTotal(l) * Rate(l, taxes)
  }

  function DiscountAmount(d: Discount, subtotal: int): int {
    match d.kind
    case Fixed => if d.amount <= subtotal then d.amount else subtotal
    case Percent => HalfUp(subtotal * d.amount, 10000)
  }

  datatype Applied = Applied(amount: int, id: Option<nat>, discounts: map<nat, Discount>)

  /** An exhausted discount is an error; an unknown, undated or too large one is
      silently not applied.  A missing end date is compared only when the start
      date has passed, and then fails. */
  function DiscountOutcome(id: Option<nat>, subtotal: int, discounts: map<nat, Discount>, today: int): Result<Applied> {
    var none := Ok(Applied(0, None, discounts));
    if id.None? || id.value !in discounts then none
    else
      var d := discounts[id.value];
      if d.usageLimit.Some? && d.usedCount >= d.usageLimit.value then Err(Invalid)
      else if d.startDate > today then none
      else if d.endDate.None? then Err(Crash)
      else if today > d.endDate.value || subtotal < d.minPurchase then none
      else
        Ok(Applied(DiscountAmount(d, subtotal), id, discounts[id.value := d.(usedCount := d.usedCount + 1)]))
  }

  function DraftInvoice(number: nat, customer: nat, discount: Option<nat>, today: int,
                        subtotal: int, discountTotal: int, taxTotal: int): Invoice
  {
    Invoice(number, customer, discount, Draft, today + DUE_IN_DAYS, subtotal, discountTotal, taxTotal,
            subtotal - discountTotal + taxTotal, 0)
  }

  /** The tables after a generation; on an error everything is rolled back. */
  function Generate(t: Tables, id: nat, customer: nat, lines: seq<Line>, discount: Option<nat>,
                    taxes: map<nat, int>, today: int): Result<Tables>
  {
    var page := Page(lines);
    var subtotal := Subtotal(page);
    match DiscountOutcome(discount, subtotal, t.discounts, today)
    case Err(e) => Err(e)
    case Ok(a) =>
      if id in t.invoices then Err(Crash)
      else
        var inv := DraftInvoice(|t.invoices| + 1, customer, a.id, today, subtotal, a.amount, TaxTotal(page, taxes));
        Ok(t.(invoices := t.invoices[id := inv], discounts := a.discounts))
  }

  // ---- The builder --------------------------------------------------------

  class InvoiceBuilder {
    const db: Database
    var invoiceLines: seq<Line>
    var subtotal: int
    var discountTotal: int
    var taxTotal: int
    var discountId: Option<nat>

    constructor (db: Database)
      ensures this.db == db
      ensures invoiceLines == [] && subtotal == 0 && discountTotal == 0 && taxTotal == 0 && discountId == None
    {
      this.db := db;
      invoiceLines, subtotal, discountTotal, taxTotal, discountId := [], 0, 0, 0, None;
    }

    method AddLines(lines: seq<Line>)
      modifies this`invoiceLines, this`subtotal
      ensures invoiceLines == old(invoiceLines) + Page(lines)
      ensures subtotal == old(subtotal) + Subtotal(Page(lines))
    {
      var page := Page(lines);
      for i := 0 to |page|
        invariant invoiceLines == old(invoiceLines) + page[..i]
        invariant subtotal == old(subtotal) + Subtotal(page[..i])
      {
        assert page[..i + 1][..i] == page[..i];
        subtotal := subtotal + LineTotal(page[i]);
        invoiceLines := invoiceLines + [page[i]];
      }
      assert page[..|page|] == page;
    }

    method ApplyDiscount(id: Option<nat>, today: int) returns (r: Result<()>)
      modifies this`discountTotal, this`discountId, db`discounts
      ensures match DiscountOutcome(id, subtotal, old(db.discounts), today)
        case Err(e) => r == Err(e) && unchanged(this) && unchanged(db)
        case Ok(a) => r == Ok(()) && db.discounts == a.discounts && if a.id.None? then unchanged(this)
                      else discountTotal == a.amount && discountId == a.id
    {
      if id.None? || id.value !in db.discounts {
        return Ok(());
      }
      var d := db.discounts[id.value];
      if d.usageLimit.Some? && d.usedCount >= d.usageLimit.value {
        return Err(Invalid);
      }
      if d.startDate > today {
        return Ok(());
      }
      if d.endDate.None? {
        return Err(Crash);
      }
      if today > d.endDate.value || subtotal < d.minPurchase {
        return Ok(());
      }
      discountTotal, discountId := DiscountAmount(d, subtotal), id;
      db.discounts := db.discounts[id.value := d.(usedCount := d.usedCount + 1)];
      return Ok(());
    }

    method ApplyTax(taxes: map<nat, int>)
      modifies this`taxTotal
      ensures taxTotal == old(taxTotal) + TaxTotal(invoiceLines, taxes)
    {
      for i := 0 to |invoiceLines|
        invariant taxTotal == old(taxTotal) + TaxTotal(invoiceLines[..i], taxes)
      {
        var l := invoiceLines[i];
        assert invoiceLines[..i + 1][..i] == invoiceLines[..i];
        if l.taxIds != [] && l.taxIds[0] in taxes {
          taxTotal := taxTotal + HalfUp(l.unitPrice * l.qty * taxes[l.taxIds[0]], 10000);
        }
      }
      assert invoiceLines[..|invoiceLines|] == invoiceLines;
    }

    /** Fails only on a repeated primary key. */
    method Build(id: nat, customer: nat, today: int) returns (r: Result<()>)
      modifies db`invoices
      ensures r == if id in old(db.invoices) then Err(Crash) else Ok(())
      ensures db.invoices == if id in old(db.invoices) then old(db.invoices)
        else old(db.invoices)[id := DraftInvoice(|old(db.invoices)| + 1, customer, discountId, today,
                                                 subtotal, discountTotal, taxTotal)]
    {
      if id in db.invoices {
        return Err(Crash);
      }
      var total := subtotal - discountTotal + taxTotal;
      db.invoices := db.invoices[id := Invoice(|db.invoices| + 1, customer, discountId, Draft, today + DUE_IN_DAYS,
                                              subtotal, discountTotal, taxTotal, total, 0)];
      return Ok(());
    }
  }

  /** Runs the four builder steps in one transaction. */
  method GenerateFromSubscription(db: Database, id: nat, customer: nat, lines: seq<Line>, discount: Option<nat>,
                                  taxes: map<nat, int>, today: int) returns (r: Result<()>)
    modifies db
    ensures match Generate(old(db.Current()), id, customer, lines, discount, taxes, today)
      case Ok(t) => r == Ok(()) && db.Current() == t
      case Err(e) => r == Err(e) && db.Current() == old(db.Current())
  {
    ghost var page, before := Page(lines), db.Current();
    ghost var outcome := DiscountOutcome(discount, Subtotal(page), db.discounts, today);
    var committed := db.discounts;
    var builder := new InvoiceBuilder(db);
    builder.AddLines(lines);
    assert builder.invoiceLines == page && builder.subtotal == Subtotal(page);
    r := builder.ApplyDiscount(discount, today);
    if r.Err? {
      return;
    }
    assert outcome == Ok(Applied(builder.discountTotal, builder.discountId, db.discounts));
    builder.ApplyTax(taxes);
    assert builder.taxTotal == TaxTotal(page, taxes);
    assert db.Current() == before.(discounts := outcome.value.discounts);
    r := builder.Build(id, customer, today);
    if r.Err? {
      db.discounts := committed;
    }
  }

  /** `create_from_subscription` adds up the loaded lines without a page limit. */
  method FactoryTotal(lines: seq<Line>) returns (subtotal: int)
    ensures subtotal == Subtotal(lines)
  {
    subtotal := 0;
    for i := 0 to |lines|
      invariant subtotal == Subtotal(lines[..i])
    {
      assert lines[..i + 1][..i] == lines[..i];
      subtotal := subtotal + lines[i].unitPrice * lines[i].qty;
    }
    assert lines[..|lines|] == lines;
  }

  // ---- What the amounts satisfy ------------------------------------------

  predicate GoodLine(l: Line) {
    l.qty >= 1 && l.unitPrice >= 1
  }

  predicate GoodLines(lines: seq<Line>) {
    forall l | l in lines :: GoodLine(l)
  }

  /** Rates lie between 0 and 100 percent. */
  predicate GoodTaxes(taxes: map<nat, int>) {
    forall k | k in taxes :: 0 <= taxes[k] <= 10000
  }

  predicate GoodDiscount(d: Discount) {
    d.amount >= 0 && (d.kind.Percent? ==> d.amount <= 10000)
  }

  lemma LineTotalPositive(l: Line)
    requires GoodLine(l)
    ensures LineTotal(l) >= 1
  {
    MulLe(l.unitPrice, 1, l.qty);
  }

  lemma LineTaxBounds(l: Line, taxes: map<nat, int>)
    requires GoodLine(l) && GoodTaxes(taxes)
    ensures 0 <= LineTax(l, taxes) <= LineTotal(l)
    ensures -10000 <= 20000 * LineTax(l, taxes) - 2 * (LineTotal(l) * Rate(l, taxes)) <= 10000
    ensures LineTotal(l) >= 1
  {
    LineTotalPositive(l);
    var n, rate := LineTotal(l), Rate(l, taxes);
    assert 0 <= rate <= 10000;
    MulLe(n, 0, rate);
    MulLe(n, rate, 10000);
    HalfUpAtMost(n * rate, 10000, n);
  }

  /** Tax is between nothing and everything, and off by at most half a cent a line. */
  lemma {:induction false} TaxBounds(lines: seq<Line>, taxes: map<nat, int>)
    requires GoodLines(lines) && GoodTaxes(taxes)
    ensures 0 <= TaxTotal(lines, taxes) <= Subtotal(lines)
    ensures -10000 * |lines| <= 20000 * TaxTotal(lines, taxes) - 2 * UnroundedTax(lines, taxes) <= 10000 * |lines|
    ensures |lines| <= Subtotal(lines)
  {
    if lines != [] {
      TaxBounds(lines[..|lines| - 1], taxes);
      LineTaxBounds(lines[|lines| - 1], taxes);
    }
  }

  lemma DiscountBounds(d: Discount, subtotal: int)
    requires GoodDiscount(d) && subtotal >= 0
    ensures 0 <= DiscountAmount(d, subtotal) <= subtotal
  {
    if d.kind.Percent? {
      MulLe(subtotal, 0, d.amount);
      MulLe(subtotal, d.amount, 10000);
      HalfUpAtMost(subtotal * d.amount, 10000, subtotal);
    }
  }

  lemma {:induction false} SubtotalSplits(a: seq<Line>, b: seq<Line>)
    ensures Subtotal(a + b) == Subtotal(a) + Subtotal(b)
  {
    if b == [] {
      assert a + b == a;
    } else {
      assert (a + b)[..|a + b| - 1] == a + b[..|b| - 1];
      SubtotalSplits(a, b[..|b| - 1]);
    }
  }

  /** The subtotal is additive, and one line costs its quantity times its price: this
      fixes it for all lists of lines. */
  lemma SubtotalIsExact(a: seq<Line>, b: seq<Line>, l: Line)
    ensures Subtotal([]) == 0 && Subtotal([l]) == l.qty * l.unitPrice
    ensures Subtotal(a + b) == Subtotal(a) + Subtotal(b)
  {
    assert [l][..0] == [];
    SubtotalSplits(a, b);
  }

  lemma {:induction false} TaxSplits(a: seq<Line>, b: seq<Line>, taxes: map<nat, int>)
    ensures TaxTotal(a + b, taxes) == TaxTotal(a, taxes) + TaxTotal(b, taxes)
  {
    if b == [] {
      assert a + b == a;
    } else {
      assert (a + b)[..|a + b| - 1] == a + b[..|b| - 1];
      TaxSplits(a, b[..|b| - 1], taxes);
    }
  }

  /** The amount is the nearest cent to x / 10000 cents, and the higher one of two. */
  predicate Nearest(amount: int, x: int) {
    -10000 < 20000 * amount - 2 * x <= 10000
  }

  /** The tax is additive too; one line's tax is the nearest cent to the first tax it
      lists, on its quantity times its price, and nothing when that tax is unknown. */
  lemma TaxIsExact(a: seq<Line>, b: seq<Line>, l: Line, taxes: map<nat, int>)
    ensures TaxTotal([], taxes) == 0 && TaxTotal(a + b, taxes) == TaxTotal(a, taxes) + TaxTotal(b, taxes)
    ensures l.taxIds == [] || l.taxIds[0] !in taxes ==> TaxTotal([l], taxes) == 0
    ensures l.taxIds != [] && l.taxIds[0] in taxes && l.qty * l.unitPrice * taxes[l.taxIds[0]] >= 0 ==>
      Nearest(TaxTotal([l], taxes), l.qty * l.unitPrice * taxes[l.taxIds[0]])
  {
    assert [l][..0] == [];
    TaxSplits(a, b, taxes);
    assert LineTotal(l) == l.qty * l.unitPrice;
  }

  /** What a discount takes off: a percentage to the nearest cent, a fixed amount as far
      as the subtotal goes. */
  predicate TakesOff(d: Discount, subtotal: int, amount: int) {
    match d.kind
    case Percent => Nearest(amount, subtotal * d.amount)
    case Fixed => amount == if d.amount <= subtotal then d.amount else subtotal
  }

  /** The discount may be used today on this subtotal. */
  predicate Applicable(d: Discount, subtotal: int, today: int) {
    && (d.usageLimit.Some? ==> d.usedCount < d.usageLimit.value)
    && d.startDate <= today && d.endDate.Some? && today <= d.endDate.value && d.minPurchase <= subtotal
  }

  /** A generation fails exactly on an exhausted discount, a discount without an end
      that has started, or a repeated key; the invoice carries the discount exactly
      when it exists and may be used, and no other table row changes. */
  lemma GeneratedDiscountIff(t: Tables, id: nat, customer: nat, lines: seq<Line>, discount: Option<nat>,
                             taxes: map<nat, int>, today: int)
    ensures var r, subtotal := Generate(t, id, customer, lines, discount, taxes, today), Subtotal(Page(lines));
      var known := discount.Some? && discount.value in t.discounts;
      && (r == Err(Invalid) <==> known && Exhausted(t.discounts[discount.value]))
      && (r == Err(Crash) <==>
            && !(known && Exhausted(t.discounts[discount.value]))
            && ((known && t.discounts[discount.value].startDate <= today && t.discounts[discount.value].endDate.None?)
                || id in t.invoices))
      && (r.Err? ==> r.error in {Invalid, Crash})
      && (r.Ok? ==>
            var inv := r.value.invoices[id];
            && r.value == t.(invoices := t.invoices[id := inv], discounts := r.value.discounts)
            && inv.discount == (if known && Applicable(t.discounts[discount.value], subtotal, today) then discount else None)
            && r.value.discounts == if inv.discount.None? then t.discounts
                 else var d := t.discounts[discount.value]; t.discounts[discount.value := d.(usedCount := d.usedCount + 1)])
  {
  }

  predicate Exhausted(d: Discount) {
    d.usageLimit.Some? && d.usageLimit.value <= d.usedCount
  }

  /** Every generated invoice: a draft for the customer, due in 30 days and unpaid, over
      the first 100 lines; an exact subtotal; what its discount takes off, or nothing;
      bounded discount and tax, and a total between the tax and twice the subtotal. */
  lemma GeneratedAmounts(t: Tables, id: nat, customer: nat, lines: seq<Line>, discount: Option<nat>,
                         taxes: map<nat, int>, today: int)
    requires GoodLines(lines) && GoodTaxes(taxes)
    requires forall k | k in t.discounts :: GoodDiscount(t.discounts[k])
    requires Generate(t, id, customer, lines, discount, taxes, today).Ok?
    ensures var inv := Generate(t, id, customer, lines, discount, taxes, today).value.invoices[id];
      && inv.status == Draft && inv.customer == customer && inv.dueDate == today + 30 && inv.paid == 0
      && Page(lines) <= lines && |Page(lines)| == (if |lines| < 100 then |lines| else 100)
      && inv.subtotal == Subtotal(Page(lines)) && inv.taxTotal == TaxTotal(Page(lines), taxes)
      && (inv.discount.Some? ==>
            inv.discount.value in t.discounts && TakesOff(t.discounts[inv.discount.value], inv.subtotal, inv.discountTotal))
      && (inv.discount.None? ==> inv.discountTotal == 0)
      && 0 <= inv.discountTotal <= inv.subtotal
      && 0 <= inv.taxTotal <= inv.subtotal
      && -10000 * |Page(lines)| <= 20000 * inv.taxTotal - 2 * UnroundedTax(Page(lines), taxes) <= 10000 * |Page(lines)|
      && inv.total == inv.subtotal - inv.discountTotal + inv.taxTotal
      && inv.taxTotal <= inv.total <= 2 * inv.subtotal
  {
    var page := Page(lines);
    TaxBounds(page, taxes);
    if discount.Some? && discount.value in t.discounts {
      MulLe(Subtotal(page), 0, t.discounts[discount.value].amount);
      DiscountBounds(t.discounts[discount.value], Subtotal(page));
    }
  }

  lemma {:induction false} SubtotalGrows(lines: seq<Line>, n: nat)
    requires GoodLines(lines) && n <= |lines|
    ensures Subtotal(lines[..n]) + (|lines| - n) <= Subtotal(lines)
  {
    if n == |lines| {
      assert lines[..n] == lines;
    } else {
      var front := lines[..|lines| - 1];
      SubtotalGrows(front, n);
      assert front[..n] == lines[..n];
      LineTotalPositive(lines[|lines| - 1]);
    }
  }

  /** The builder bills every line exactly when there are at most 100; the factory
      always does. */
  lemma BuilderBillsAllLinesIff(lines: seq<Line>)
    requires GoodLines(lines)
    ensures Subtotal(Page(lines)) == Subtotal(lines) <==> |lines| <= PAGE_LIMIT
  {
    if |lines| > PAGE_LIMIT {
      SubtotalGrows(lines, PAGE_LIMIT);
    }
  }
}
