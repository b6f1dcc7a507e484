/**
 Revenue recognition: splitting an invoice over twelve months
 (app/services/revenue/strategies.py), storing the rows and reading them back as a
 timeline (app/services/revenue/service.py).
 */
module Revenue {
  import opened Calendar
  import opened Rounding
  import opened Sums

  const MONTHS := 12

  datatype Recognition = Recognition(amount: int, date: Date)

  // ---- Strategies ---------------------------------------------------------

  function PerMonth(total: int): int {
    HalfUp(total, MONTHS)
  }

  function LastMonth(total: int): int {
    total - (MONTHS - 1) * PerMonth(total)
  }

  /** Eleven equal months and a last one that takes up the rounding. */
  function RatableRow(total: int, start: Date, i: nat): Recognition
    requires IsDate(start)
  {
    Recognition(if i < MONTHS - 1 then PerMonth(total) else LastMonth(total), MonthsAfter(start, i))
  }

  function Ratable(total: int, start: Date): (rows: seq<Recognition>)
    requires IsDate(start)
    ensures |rows| == if total <= 0 then 0 else MONTHS
  {
    if total <= 0 then [] else seq(MONTHS, (i: nat) => RatableRow(total, start, i))
  }

  method PerMonthAndRemainder(total: int) returns (perMonth: int, remainder: int)
    ensures perMonth == PerMonth(total) && perMonth + remainder == LastMonth(total)
  {
    perMonth := HalfUp(total, MONTHS);
    remainder := total - perMonth * MONTHS;
  }

  method RecognizeRatable(total: int, dueDate: Date) returns (rows: seq<Recognition>)
    requires IsDate(dueDate)
    ensures rows == Ratable(total, dueDate)
  {
    rows := [];
    if total <= 0 {
      return;
    }
    var perMonth, remainder := PerMonthAndRemainder(total);
    var current := dueDate;
    ghost var expected := Ratable(total, dueDate);
    for i := 0 to MONTHS
      invariant current == MonthsAfter(dueDate, i)
      invariant rows == expected[..i]
    {
      assert expected[i] == RatableRow(total, dueDate, i);
      var amount := perMonth;
      if i == MONTHS - 1 {
        amount := amount + remainder;
      }
      rows := rows + [Recognition(amount, current)];
      current := AddMonth(current);
    }
  }

  /** The whole amount on the due date. */
  function Milestone(total: int, due: Date): seq<Recognition> {
    if total <= 0 then [] else [Recognition(total, due)]
  }

  function SumOf(rows: seq<Recognition>): int {
    if rows == [] then 0 else SumOf(rows[..|rows| - 1]) + rows[|rows| - 1].amount
  }

  lemma {:induction false} EqualAmounts(rows: seq<Recognition>, per: int, k: nat)
    requires k <= |rows| && forall i | 0 <= i < k :: rows[i].amount == per
    ensures SumOf(rows[..k]) == k * per
  {
    if k > 0 {
      EqualAmounts(rows, per, k - 1);
      assert rows[..k][..k - 1] == rows[..k - 1] && rows[..k][k - 1] == rows[k - 1];
    }
  }

  /** The twelve rows add up to the total exactly; the last differs from the others
      by -6 to +5 cents; k rows are within k/2 cents of k twelfths of the total. */
  lemma RatableIsExact(total: int, start: Date, k: nat)
    requires IsDate(start) && total > 0 && k < MONTHS
    ensures SumOf(Ratable(total, start)) == total
    ensures -6 <= LastMonth(total) - PerMonth(total) <= 5
    ensures -6 * k <= 12 * SumOf(Ratable(total, start)[..k]) - k * total <= 6 * k
  {
    var rows := Ratable(total, start);
    EqualAmounts(rows, PerMonth(total), MONTHS - 1);
    assert rows[..MONTHS - 1] == rows[..|rows| - 1];
    EqualAmounts(rows, PerMonth(total), k);
    PrefixError(total, k, PerMonth(total));
  }

  lemma PrefixError(total: int, k: nat, per: int)
    requires -6 <= 12 * per - total <= 6
    ensures -6 * k <= 12 * (k * per) - k * total <= 6 * k
  {
    var error := 12 * per - total;
    assert 12 * (k * per) - k * total == k * error;
    MulLe(k, -6, error);
    MulLe(k, error, 6);
  }

  /** The totals for which the last month comes out negative. */
  predicate NegativeLast(total: int) {
    6 <= total <= 10 || 18 <= total <= 21 || 30 <= total <= 32 || 42 <= total <= 43 || total == 54
  }

  /** No row is negative, but for fifteen totals up to 54 cents. */
  lemma RowsAreNegativeIff(total: int, start: Date)
    requires IsDate(start) && total > 0
    ensures (exists r :: r in Ratable(total, start) && r.amount < 0) <==> NegativeLast(total)
  {
    var rows, per := Ratable(total, start), PerMonth(total);
    assert rows[11].amount == LastMonth(total) && rows[11] in rows;
    assert per >= 0;
    assert LastMonth(total) < 0 <==> NegativeLast(total) by {
      if total >= 66 {
        assert 12 * per <= total + 6;
      }
    }
    forall r | r in rows && r.amount < 0 ensures r.amount == LastMonth(total) {
    }
  }

  /** Twelve strictly increasing dates in twelve consecutive months. */
  lemma RatableDates(total: int, start: Date, i: nat, j: nat)
    requires IsDate(start) && total > 0 && i < j < MONTHS
    ensures var rows := Ratable(total, start);
      Before(rows[i].date, rows[j].date) && Month(rows[j].date) == Month(rows[i].date) + (j - i)
  {
    StepsAreIncreasing(start, i, j);
  }

  // ---- The table ----------------------------------------------------------

  datatype Entry = Entry(invoice: nat, amount: int, date: Date)

  datatype Invoice = Invoice(total: int, dueDate: Date)

  datatype Strategy = RatableStrategy | MilestoneStrategy

  function Recognize(strategy: Strategy, inv: Invoice): seq<Recognition>
    requires IsDate(inv.dueDate)
  {
    match strategy
    case RatableStrategy => Ratable(inv.total, inv.dueDate)
    case MilestoneStrategy => Milestone(inv.total, inv.dueDate)
  }

  function Entries(id: nat, rows: seq<Recognition>): seq<Entry> {
    if rows == [] then []
    else Entries(id, rows[..|rows| - 1]) + [Entry(id, rows[|rows| - 1].amount, rows[|rows| - 1].date)]
  }

  function Remove(entries: seq<Entry>, id: nat): seq<Entry> {
    if entries == [] then []
    else
      var e := entries[|entries| - 1];
      Remove(entries[..|entries| - 1], id) + if e.invoice == id then [] else [e]
  }

  predicate Dated(invoices: map<nat, Invoice>) {
    forall id | id in invoices :: IsDate(invoices[id].dueDate)
  }

  /** Deletes the invoice's rows and stores them anew. */
  function Processed(strategy: Strategy, invoices: map<nat, Invoice>, entries: seq<Entry>, id: nat): seq<Entry>
    requires Dated(invoices)
  {
    if id in invoices then Remove(entries, id) + Entries(id, Recognize(strategy, invoices[id])) else entries
  }

  function Run(strategy: Strategy, invoices: map<nat, Invoice>, entries: seq<Entry>, ids: seq<nat>): seq<Entry>
    requires Dated(invoices)
  {
    if ids == [] then entries
    else Processed(strategy, invoices, Run(strategy, invoices, entries, ids[..|ids| - 1]), ids[|ids| - 1])
  }

  class RevenueService {
    const strategy: Strategy
    var invoices: map<nat, Invoice>
    var entries: seq<Entry>

    constructor (strategy: Strategy, invoices: map<nat, Invoice>)
      ensures this.strategy == strategy && this.invoices == invoices && entries == []
    {
      this.strategy := strategy;
      this.invoices := invoices;
      entries := [];
    }

    method Process(id: nat) returns (count: nat)
      requires Dated(invoices)
      modifies this`entries
      ensures entries == Processed(strategy, invoices, old(entries), id)
      ensures count == if id in invoices then |Recognize(strategy, invoices[id])| else 0
    {
      if id !in invoices {
        return 0;
      }
      DeleteRows(id);
      var rows: seq<Recognition>;
      match strategy {
        case RatableStrategy => rows := RecognizeRatable(invoices[id].total, invoices[id].dueDate);
        case MilestoneStrategy => rows := Milestone(invoices[id].total, invoices[id].dueDate);
      }
      StoreRows(id, rows);
      return |rows|;
    }

    method DeleteRows(id: nat)
      modifies this`entries
      ensures entries == Remove(old(entries), id)
    {
      var kept: seq<Entry> := [];
      for i := 0 to |entries|
        invariant kept == Remove(entries[..i], id)
      {
        assert entries[..i + 1][..i] == entries[..i];
        if entries[i].invoice != id {
          kept := kept + [entries[i]];
        }
      }
      assert entries[..|entries|] == entries;
      entries := kept;
    }

    method StoreRows(id: nat, rows: seq<Recognition>)
      modifies this`entries
      ensures entries == old(entries) + Entries(id, rows)
    {
      for i := 0 to |rows|
        invariant entries == old(entries) + Entries(id, rows[..i])
      {
        assert rows[..i + 1][..i] == rows[..i];
        entries := entries + [Entry(id, rows[i].amount, rows[i].date)];
      }
      assert rows[..|rows|] == rows;
    }
  }

  function Total(entries: seq<Entry>): int {
    if entries == [] then 0 else Total(entries[..|entries| - 1]) + entries[|entries| - 1].amount
  }

  function RecognizedFor(entries: seq<Entry>, id: nat): int {
    if entries == [] then 0
    else
      var e := entries[|entries| - 1];
      RecognizedFor(entries[..|entries| - 1], id) + if e.invoice == id then e.amount else 0
  }

  lemma {:induction false} Concatenated(a: seq<Entry>, b: seq<Entry>, id: nat)
    ensures Total(a + b) == Total(a) + Total(b)
    ensures RecognizedFor(a + b, id) == RecognizedFor(a, id) + RecognizedFor(b, id)
    ensures Remove(a + b, id) == Remove(a, id) + Remove(b, id)
  {
    if b == [] {
      assert a + b == a;
    } else {
      assert (a + b)[..|a + b| - 1] == a + b[..|b| - 1];
      Concatenated(a, b[..|b| - 1], id);
    }
  }

  lemma {:induction false} Removed(entries: seq<Entry>, id: nat, other: nat)
    ensures RecognizedFor(Remove(entries, id), other) == if other == id then 0 else RecognizedFor(entries, other)
    ensures Total(Remove(entries, id)) == Total(entries) - RecognizedFor(entries, id)
  {
    if entries != [] {
      var front, e := entries[..|entries| - 1], entries[|entries| - 1];
      Removed(front, id, other);
      Concatenated(Remove(front, id), [e], other);
      assert Remove(front, id) + [] == Remove(front, id);
    }
  }

  lemma {:induction false} Entered(id: nat, rows: seq<Recognition>, other: nat)
    ensures Total(Entries(id, rows)) == SumOf(rows)
    ensures RecognizedFor(Entries(id, rows), other) == if other == id then SumOf(rows) else 0
    ensures Remove(Entries(id, rows), other) == if other == id then [] else Entries(id, rows)
  {
    if rows != [] {
      var front := rows[..|rows| - 1];
      Entered(id, front, other);
      assert Entries(id, rows)[..|rows| - 1] == Entries(id, front) by {
        EntriesLength(id, front);
      }
      EntriesLength(id, rows);
    }
  }

  lemma {:induction false} EntriesLength(id: nat, rows: seq<Recognition>)
    ensures |Entries(id, rows)| == |rows|
  {
    if rows != [] {
      EntriesLength(id, rows[..|rows| - 1]);
    }
  }

  function Positive(inv: Invoice): int {
    if inv.total > 0 then inv.total else 0
  }

  lemma RecognizesTotal(strategy: Strategy, inv: Invoice)
    requires IsDate(inv.dueDate)
    ensures SumOf(Recognize(strategy, inv)) == Positive(inv)
  {
    if inv.total > 0 && strategy.RatableStrategy? {
      RatableIsExact(inv.total, inv.dueDate, 0);
    }
  }

  lemma ProcessedTotals(strategy: Strategy, invoices: map<nat, Invoice>, entries: seq<Entry>, id: nat, other: nat)
    requires Dated(invoices) && id in invoices
    ensures var after := Processed(strategy, invoices, entries, id);
      && RecognizedFor(after, other) == (if other == id then Positive(invoices[id]) else RecognizedFor(entries, other))
      && Total(after) == Total(entries) - RecognizedFor(entries, id) + Positive(invoices[id])
  {
    var rows := Recognize(strategy, invoices[id]);
    RecognizesTotal(strategy, invoices[id]);
    Removed(entries, id, other);
    Entered(id, rows, other);
    Concatenated(Remove(entries, id), Entries(id, rows), other);
  }

  /** Whatever was processed, in whatever order and however often, every processed
      invoice has rows that sum to its total, and no other invoice is touched. */
  lemma {:induction false} EveryProcessedInvoiceIsFullyRecognized(
    strategy: Strategy, invoices: map<nat, Invoice>, entries: seq<Entry>, ids: seq<nat>, id: nat)
    requires Dated(invoices)
    ensures RecognizedFor(Run(strategy, invoices, entries, ids), id)
      == if id in ids && id in invoices then Positive(invoices[id]) else RecognizedFor(entries, id)
  {
    if ids != [] {
      var front, last := ids[..|ids| - 1], ids[|ids| - 1];
      assert ids == front + [last];
      EveryProcessedInvoiceIsFullyRecognized(strategy, invoices, entries, front, id);
      if last in invoices {
        ProcessedTotals(strategy, invoices, Run(strategy, invoices, entries, front), last, id);
      }
    }
  }

  function Chosen(invoices: map<nat, Invoice>, ids: seq<nat>): map<nat, Invoice> {
    map id | id in invoices && id in ids :: invoices[id]
  }

  /** Conservation: from an empty table the whole of it adds up to the totals of the
      distinct invoices processed. */
  lemma {:induction false} RecognizedRevenueIsConserved(strategy: Strategy, invoices: map<nat, Invoice>, ids: seq<nat>)
    requires Dated(invoices)
    ensures Total(Run(strategy, invoices, [], ids)) == SumBy(Chosen(invoices, ids), Positive)
  {
    if ids == [] {
      assert Chosen(invoices, ids) == map[];
    } else {
      var front, last := ids[..|ids| - 1], ids[|ids| - 1];
      assert ids == front + [last];
      RecognizedRevenueIsConserved(strategy, invoices, front);
      if last in invoices {
        ProcessedTotals(strategy, invoices, Run(strategy, invoices, [], front), last, last);
        EveryProcessedInvoiceIsFullyRecognized(strategy, invoices, [], front, last);
        if last in front {
          assert Chosen(invoices, ids) == Chosen(invoices, front);
        } else {
          assert Chosen(invoices, ids) == Chosen(invoices, front)[last := invoices[last]];
          SumInsert(Chosen(invoices, front), Positive, last, invoices[last]);
        }
      } else {
        assert Chosen(invoices, ids) == Chosen(invoices, front);
      }
    }
  }

  /** The rows of one invoice. */
  function Keep(entries: seq<Entry>, id: nat): seq<Entry> {
    if entries == [] then []
    else
      var e := entries[|entries| - 1];
      Keep(entries[..|entries| - 1], id) + if e.invoice == id then [e] else []
  }

  /** One more row, kept on one side of a split. */
  lemma SplitGrows(rows: seq<Entry>, a: seq<Entry>, b: seq<Entry>, e: Entry)
    requires multiset(rows) == multiset(a) + multiset(b)
    ensures multiset(rows + [e]) == multiset(a + [e]) + multiset(b) == multiset(a) + multiset(b + [e])
  {
  }

  lemma {:induction false} KeepAndRemove(entries: seq<Entry>, id: nat)
    ensures multiset(entries) == multiset(Remove(entries, id)) + multiset(Keep(entries, id))
  {
    if entries != [] {
      var front, e := entries[..|entries| - 1], entries[|entries| - 1];
      KeepAndRemove(front, id);
      SplitGrows(front, Remove(front, id), Keep(front, id), e);
      assert entries == front + [e];
      if e.invoice == id {
        assert Remove(entries, id) == Remove(front, id);
        assert Keep(entries, id) == Keep(front, id) + [e];
      } else {
        assert Remove(entries, id) == Remove(front, id) + [e];
        assert Keep(entries, id) == Keep(front, id);
      }
    }
  }

  lemma {:induction false} KeepConcatenated(a: seq<Entry>, b: seq<Entry>, id: nat)
    ensures Keep(a + b, id) == Keep(a, id) + Keep(b, id)
  {
    if b == [] {
      assert a + b == a;
    } else {
      assert (a + b)[..|a + b| - 1] == a + b[..|b| - 1];
      KeepConcatenated(a, b[..|b| - 1], id);
    }
  }

  lemma {:induction false} KeepRemoved(entries: seq<Entry>, id: nat, other: nat)
    ensures Keep(Remove(entries, id), other) == if other == id then [] else Keep(entries, other)
  {
    if entries != [] {
      var front, e := entries[..|entries| - 1], entries[|entries| - 1];
      KeepRemoved(front, id, other);
      KeepConcatenated(Remove(front, id), [e], other);
      assert Remove(front, id) + [] == Remove(front, id);
    }
  }

  lemma {:induction false} KeepEntries(id: nat, rows: seq<Recognition>, other: nat)
    ensures Keep(Entries(id, rows), other) == if other == id then Entries(id, rows) else []
  {
    if rows != [] {
      var front, last := rows[..|rows| - 1], rows[|rows| - 1];
      KeepEntries(id, front, other);
      KeepConcatenated(Entries(id, front), [Entry(id, last.amount, last.date)], other);
    }
  }

  lemma {:induction false} RowsOfProcessed(
    strategy: Strategy, invoices: map<nat, Invoice>, entries: seq<Entry>, ids: seq<nat>, id: nat)
    requires Dated(invoices) && id in ids && id in invoices
    ensures Keep(Run(strategy, invoices, entries, ids), id) == Entries(id, Recognize(strategy, invoices[id]))
  {
    var front, last := ids[..|ids| - 1], ids[|ids| - 1];
    assert ids == front + [last];
    var before := Run(strategy, invoices, entries, front);
    if last in invoices {
      var rows := Recognize(strategy, invoices[last]);
      KeepConcatenated(Remove(before, last), Entries(last, rows), id);
      KeepRemoved(before, last, id);
      KeepEntries(last, rows, id);
    }
    if last != id {
      RowsOfProcessed(strategy, invoices, entries, front, id);
    }
  }

  /** Processing an invoice again changes nothing but the place of its rows. */
  lemma ProcessingIsIdempotent(strategy: Strategy, invoices: map<nat, Invoice>, entries: seq<Entry>, ids: seq<nat>, id: nat)
    requires Dated(invoices) && id in ids && id in invoices
    ensures var table := Run(strategy, invoices, entries, ids);
      multiset(Processed(strategy, invoices, table, id)) == multiset(table)
  {
    RowsOfProcessed(strategy, invoices, entries, ids, id);
    KeepAndRemove(Run(strategy, invoices, entries, ids), id);
  }

  // ---- The timeline -------------------------------------------------------

  datatype Group = Group(period: string, amount: int)

  datatype Point = Point(period: string, recognized: int, deferred: int, cumulative: int)

  /** The rows of a date range; an absent bound admits everything. */
  function InRange(entries: seq<Entry>, admits: Date -> bool): seq<Entry> {
    if entries == [] then []
    else
      var e := entries[|entries| - 1];
      InRange(entries[..|entries| - 1], admits) + if admits(e.date) then [e] else []
  }

  function TotalIn(entries: seq<Entry>, periods: set<string>): int {
    if entries == [] then 0
    else
      var e := entries[|entries| - 1];
      TotalIn(entries[..|entries| - 1], periods) + if Period(e.date) in periods then e.amount else 0
  }

  function Periods(groups: seq<Group>): set<string> {
    set g | g in groups :: g.period
  }

  /** The answer to the grouping query: one group for each period string that a row
      has, in the order of the strings. */
  ghost predicate IsGrouping(groups: seq<Group>, entries: seq<Entry>) {
    && (forall i, j | 0 <= i < j < |groups| :: LexLess(groups[i].period, groups[j].period))
    && (forall g | g in groups :: g.amount == TotalIn(entries, {g.period}))
    && (forall e | e in entries :: Period(e.date) in Periods(groups))
  }

  function GroupSum(groups: seq<Group>): int {
    if groups == [] then 0 else GroupSum(groups[..|groups| - 1]) + groups[|groups| - 1].amount
  }

  /** What the timeline says of the k-th group; the deferred rest is never shown
      below zero. */
  predicate IsPoint(p: Point, total: int, groups: seq<Group>, k: nat)
    requires k < |groups|
  {
    && p.period == groups[k].period && p.recognized == groups[k].amount
    && p.cumulative == GroupSum(groups[..k + 1])
    && p.deferred == if total >= p.cumulative then total - p.cumulative else 0
  }

  predicate IsTimeline(timeline: seq<Point>, total: int, groups: seq<Group>) {
    |timeline| == |groups| && forall k | 0 <= k < |groups| :: IsPoint(timeline[k], total, groups, k)
  }

  method GetTimeline(total: int, groups: seq<Group>) returns (timeline: seq<Point>)
    ensures IsTimeline(timeline, total, groups)
  {
    timeline := [];
    var cumulative := 0;
    for i := 0 to |groups|
      invariant |timeline| == i && cumulative == GroupSum(groups[..i])
      invariant forall k | 0 <= k < i :: IsPoint(timeline[k], total, groups, k)
    {
      assert groups[..i + 1][..i] == groups[..i];
      cumulative := cumulative + groups[i].amount;
      var deferred := total - cumulative;
      timeline := timeline + [Point(groups[i].period, groups[i].amount, if deferred > 0 then deferred else 0, cumulative)];
    }
  }

  ghost predicate NonNegative(entries: seq<Entry>) {
    forall e | e in entries :: e.amount >= 0
  }

  lemma {:induction false} EntriesKeepSign(id: nat, rows: seq<Recognition>)
    requires forall r | r in rows :: r.amount >= 0
    ensures NonNegative(Entries(id, rows))
  {
    if rows != [] {
      assert rows[|rows| - 1] in rows;
      EntriesKeepSign(id, rows[..|rows| - 1]);
    }
  }

  lemma {:induction false} RemoveKeepsSign(entries: seq<Entry>, id: nat)
    requires NonNegative(entries)
    ensures NonNegative(Remove(entries, id))
  {
    if entries != [] {
      assert entries[|entries| - 1] in entries;
      RemoveKeepsSign(entries[..|entries| - 1], id);
    }
  }

  /** Tables built from invoices outside the fifteen small totals have no negative row. */
  lemma {:induction false} ProcessedRowsAreNonNegative(invoices: map<nat, Invoice>, ids: seq<nat>)
    requires Dated(invoices) && forall id | id in invoices :: !NegativeLast(invoices[id].total)
    ensures NonNegative(Run(RatableStrategy, invoices, [], ids))
  {
    if ids != [] {
      var last := ids[|ids| - 1];
      ProcessedRowsAreNonNegative(invoices, ids[..|ids| - 1]);
      if last in invoices {
        var inv := invoices[last];
        if inv.total > 0 {
          RowsAreNegativeIff(inv.total, inv.dueDate);
        }
        EntriesKeepSign(last, Ratable(inv.total, inv.dueDate));
        RemoveKeepsSign(Run(RatableStrategy, invoices, [], ids[..|ids| - 1]), last);
      }
    }
  }

  lemma {:induction false} TotalInSplits(entries: seq<Entry>, periods: set<string>, p: string)
    requires p !in periods
    ensures TotalIn(entries, periods + {p}) == TotalIn(entries, periods) + TotalIn(entries, {p})
  {
    if entries != [] {
      TotalInSplits(entries[..|entries| - 1], periods, p);
    }
  }

  lemma {:induction false} TotalInBounds(entries: seq<Entry>, periods: set<string>)
    requires NonNegative(entries)
    ensures 0 <= TotalIn(entries, periods) <= Total(entries)
  {
    if entries != [] {
      assert entries[|entries| - 1] in entries;
      TotalInBounds(entries[..|entries| - 1], periods);
    }
  }

  lemma {:induction false} TotalInAll(entries: seq<Entry>, periods: set<string>)
    requires forall e | e in entries :: Period(e.date) in periods
    ensures TotalIn(entries, periods) == Total(entries)
  {
    if entries != [] {
      assert entries[|entries| - 1] in entries;
      TotalInAll(entries[..|entries| - 1], periods);
    }
  }

  lemma {:induction false} GroupSumIsTotalIn(groups: seq<Group>, entries: seq<Entry>, k: nat)
    requires IsGrouping(groups, entries) && k <= |groups|
    ensures GroupSum(groups[..k]) == TotalIn(entries, Periods(groups[..k]))
  {
    if k == 0 {
      assert Periods(groups[..0]) == {};
      NothingInNoPeriod(entries);
    } else {
      var g := groups[k - 1];
      assert groups[..k][..k - 1] == groups[..k - 1];
      assert groups[..k] == groups[..k - 1] + [g];
      assert Periods(groups[..k]) == Periods(groups[..k - 1]) + {g.period};
      LexIrreflexive(g.period);
      assert g.period !in Periods(groups[..k - 1]);
      assert g in groups;
      GroupSumIsTotalIn(groups, entries, k - 1);
      TotalInSplits(entries, Periods(groups[..k - 1]), g.period);
    }
  }

  lemma {:induction false} NothingInNoPeriod(entries: seq<Entry>)
    ensures TotalIn(entries, {}) == 0
  {
    if entries != [] {
      NothingInNoPeriod(entries[..|entries| - 1]);
    }
  }

  lemma {:induction false} RangeKeeps(entries: seq<Entry>, admits: Date -> bool)
    requires NonNegative(entries)
    ensures NonNegative(InRange(entries, admits)) && Total(InRange(entries, admits)) <= Total(entries)
  {
    if entries != [] {
      var front, e := entries[..|entries| - 1], entries[|entries| - 1];
      assert e in entries && entries == front + [e];
      RangeKeeps(front, admits);
      Concatenated(InRange(front, admits), [e], 0);
      assert InRange(front, admits) + [] == InRange(front, admits);
    }
  }

  /** With rows that are not negative and any date filter, every point balances:
      cumulative plus deferred is the tenant's whole recognized revenue, cumulative
      never falls, and the last point defers exactly what the filter leaves out. */
  lemma TimelineBalances(entries: seq<Entry>, admits: Date -> bool, groups: seq<Group>, timeline: seq<Point>)
    requires NonNegative(entries) && IsGrouping(groups, InRange(entries, admits))
    requires IsTimeline(timeline, Total(entries), groups)
    ensures forall k | 0 <= k < |timeline| :: timeline[k].cumulative + timeline[k].deferred == Total(entries)
    ensures forall k | 0 < k < |timeline| :: timeline[k - 1].cumulative <= timeline[k].cumulative
    ensures timeline != [] ==> timeline[|timeline| - 1].deferred == Total(entries) - Total(InRange(entries, admits))
  {
    var rows := InRange(entries, admits);
    RangeKeeps(entries, admits);
    forall k | 0 <= k < |timeline|
      ensures timeline[k].cumulative + timeline[k].deferred == Total(entries)
      ensures k > 0 ==> timeline[k - 1].cumulative <= timeline[k].cumulative
    {
      GroupSumIsTotalIn(groups, rows, k + 1);
      TotalInBounds(rows, Periods(groups[..k + 1]));
      assert groups[..k + 1][..k] == groups[..k] && groups[k] in groups;
      TotalInBounds(rows, {groups[k].period});
    }
    if timeline != [] {
      assert groups[..|groups|] == groups;
      GroupSumIsTotalIn(groups, rows, |groups|);
      TotalInAll(rows, Periods(groups));
    }
  }

  /** Sorting the strings puts the points in the order of time: rows that fall in an
      earlier point are of an earlier month. */
  lemma TimelineIsChronological(entries: seq<Entry>, groups: seq<Group>, k: nat, l: nat, e: Entry, f: Entry)
    requires IsGrouping(groups, entries) && k < l < |groups| && e in entries && f in entries
    requires IsDate(e.date) && IsDate(f.date) && 1000 <= e.date.year <= 9999 && 1000 <= f.date.year <= 9999
    requires Period(e.date) == groups[k].period && Period(f.date) == groups[l].period
    ensures Month(e.date) < Month(f.date)
  {
    PeriodsSortAsMonths(e.date, f.date);
  }

  /** With negative rows too, a point recognizes what the rows of its period come to,
      the cumulative amount rises by just that, and the rest of the total is deferred
      unless it is negative. */
  lemma PointsAddUp(entries: seq<Entry>, total: int, groups: seq<Group>, timeline: seq<Point>, k: nat)
    requires IsGrouping(groups, entries) && IsTimeline(timeline, total, groups) && k < |timeline|
    ensures timeline[k].period == groups[k].period
    ensures timeline[k].recognized == TotalIn(entries, {timeline[k].period})
    ensures timeline[k].recognized == timeline[k].cumulative - if k > 0 then timeline[k - 1].cumulative else 0
    ensures timeline[k].cumulative <= total ==> timeline[k].cumulative + timeline[k].deferred == total
    ensures timeline[k].cumulative > total ==> timeline[k].deferred == 0
  {
    assert IsPoint(timeline[k], total, groups, k) && groups[k] in groups;
    assert groups[..k + 1][..k] == groups[..k] && groups[..k + 1][k] == groups[k];
    if k > 0 {
      assert IsPoint(timeline[k - 1], total, groups, k - 1);
    } else {
      assert groups[..1] == [groups[0]] && [groups[0]][..0] == [];
      assert GroupSum([groups[0]]) == GroupSum([]) + groups[0].amount;
    }
  }

  lemma {:induction false} EverythingInRange(entries: seq<Entry>)
    ensures InRange(entries, (d: Date) => true) == entries
  {
    if entries != [] {
      EverythingInRange(entries[..|entries| - 1]);
    }
  }

  /** Without a filter the timeline ends with everything recognized and nothing deferred. */
  lemma NothingIsDeferredInTheEnd(entries: seq<Entry>, groups: seq<Group>, timeline: seq<Point>)
    requires NonNegative(entries) && IsGrouping(groups, entries)
    requires IsTimeline(timeline, Total(entries), groups) && timeline != []
    ensures timeline[|timeline| - 1].deferred == 0 && timeline[|timeline| - 1].cumulative == Total(entries)
  {
    EverythingInRange(entries);
    TimelineBalances(entries, (d: Date) => true, groups, timeline);
  }

  // ---- The rows an invoice has in the table -------------------------------

  lemma {:induction false} EntriesAt(id: nat, rows: seq<Recognition>, i: nat)
    requires i < |rows|
    ensures |Entries(id, rows)| == |rows| && Entries(id, rows)[i] == Entry(id, rows[i].amount, rows[i].date)
  {
    EntriesLength(id, rows);
    EntriesLength(id, rows[..|rows| - 1]);
    if i < |rows| - 1 {
      EntriesAt(id, rows[..|rows| - 1], i);
    }
  }

  lemma {:induction false} KeepIs(entries: seq<Entry>, id: nat, e: Entry)
    ensures e in Keep(entries, id) <==> e in entries && e.invoice == id
  {
    if entries != [] {
      var front, last := entries[..|entries| - 1], entries[|entries| - 1];
      assert entries == front + [last];
      KeepIs(front, id, e);
    }
  }

  /** After any run of the ratable strategy, the rows of a processed invoice are twelve,
      the first on the due date and one in each month from there on; each falls on
      the least of the due day and the lengths of the months passed since; each is
      a twelfth to the nearest cent but for the last, which makes up the total. */
  lemma RatableRowsInTable(invoices: map<nat, Invoice>, entries: seq<Entry>, ids: seq<nat>, id: nat, i: nat)
    requires Dated(invoices) && id in ids && id in invoices && invoices[id].total > 0 && i < 12
    ensures var inv, rows := invoices[id], Keep(Run(RatableStrategy, invoices, entries, ids), id);
      && |rows| == 12 && rows[0].date == inv.dueDate
      && Month(rows[i].date) == Month(inv.dueDate) + i
      && IsLeastVisited(rows[i].date.day, inv.dueDate.day, Month(inv.dueDate), Month(inv.dueDate) + i)
      && (i < 11 ==> -12 < 24 * rows[i].amount - 2 * inv.total <= 12)
      && (i < 11 ==> rows[i].amount == rows[0].amount)
      && 11 * rows[0].amount + rows[11].amount == inv.total
  {
    var inv := invoices[id];
    var rows := Ratable(inv.total, inv.dueDate);
    RowsOfProcessed(RatableStrategy, invoices, entries, ids, id);
    EntriesAt(id, rows, 0);
    EntriesAt(id, rows, i);
    EntriesAt(id, rows, 11);
    DayIsLeastVisited(inv.dueDate, i);
    assert rows[0] == RatableRow(inv.total, inv.dueDate, 0);
    assert rows[i] == RatableRow(inv.total, inv.dueDate, i);
    assert rows[11] == RatableRow(inv.total, inv.dueDate, 11);
  }

  /** Under the milestone strategy it has one row, of the whole total on the due date;
      under either it has none when the total is not positive. */
  lemma OtherRowsInTable(strategy: Strategy, invoices: map<nat, Invoice>, entries: seq<Entry>, ids: seq<nat>, id: nat)
    requires Dated(invoices) && id in ids && id in invoices
    requires strategy.MilestoneStrategy? || invoices[id].total <= 0
    ensures Keep(Run(strategy, invoices, entries, ids), id)
         == if invoices[id].total > 0 then [Entry(id, invoices[id].total, invoices[id].dueDate)] else []
  {
    RowsOfProcessed(strategy, invoices, entries, ids, id);
  }

  /** Processing leaves the rows of every other invoice alone, in their order. */
  lemma OthersAreKept(strategy: Strategy, invoices: map<nat, Invoice>, entries: seq<Entry>, id: nat, other: nat)
    requires Dated(invoices) && (other != id || id !in invoices)
    ensures Keep(Processed(strategy, invoices, entries, id), other) == Keep(entries, other)
  {
    if id in invoices {
      var rows := Recognize(strategy, invoices[id]);
      KeepConcatenated(Remove(entries, id), Entries(id, rows), other);
      KeepRemoved(entries, id, other);
      KeepEntries(id, rows, other);
    }
  }

  lemma {:induction false} InRangeIs(entries: seq<Entry>, admits: Date -> bool, e: Entry)
    ensures e in InRange(entries, admits) <==> e in entries && admits(e.date)
  {
    if entries != [] {
      var front, last := entries[..|entries| - 1], entries[|entries| - 1];
      assert entries == front + [last];
      InRangeIs(front, admits, e);
    }
  }
}
