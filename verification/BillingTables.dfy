/** The billing tables (app/models) with money in whole cents. */
module BillingTables {
  import opened Wrappers

  datatype Status = Draft | Confirmed | Paid | Cancelled | Overdue

  datatype Invoice = Invoice(
    number: nat,
    customer: nat,
    discount: Option<nat>,
    status: Status,
    dueDate: int,
    subtotal: int,
    discountTotal: int,
    taxTotal: int,
    total: int,
    paid: int)
  {
    function Due(): int {
      total - paid
    }
  }

  datatype Payment = Payment(invoice: nat, customer: nat, amount: int)

  datatype DiscountKind = Fixed | Percent

  /** `amount` is in cents for a fixed discount and in hundredths of a percent for
      a percentage. */
  datatype Discount = Discount(
    kind: DiscountKind,
    amount: int,
    minPurchase: int,
    startDate: int,
    endDate: Option<int>,
    usageLimit: Option<int>,
    usedCount: int)

  /** A subscription line: quantity, unit price in cents, tax ids. */
  datatype Line = Line(product: nat, qty: int, unitPrice: int, taxIds: seq<nat>)

  datatype Tables = Tables(
    invoices: map<nat, Invoice>,
    payments: seq<Payment>,
    discounts: map<nat, Discount>)

  class Database {
    var invoices: map<nat, Invoice>
    var payments: seq<Payment>
    var discounts: map<nat, Discount>

    constructor (discounts: map<nat, Discount>)
      ensures Current() == Tables(map[], [], discounts)
    {
      invoices, payments := map[], [];
      this.discounts := discounts;
    }

    function Current(): Tables
      reads this
    {
      Tables(invoices, payments, discounts)
    }
  }
}
