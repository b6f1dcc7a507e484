/**
 Changing the plan of a running subscription: pro-rata charges
 (app/services/subscriptions/pro_rata.py), immediate upgrades (upgrade.py),
 scheduled downgrades (downgrade.py) and the portal's choice between them
 (portal.py).
 */
module PlanChange {
  import opened Wrappers
  import opened Rounding
  import Subs = Subscriptions

  // ---- Pro-rata -----------------------------------------------------------

  datatype ProRata = ProRata(
    oldDailyRate: int,
    newDailyRate: int,
    remainingDays: int,
    billingDays: int,
    credit: int,
    charge: int,
    amountDue: int)

  /** A cycle without days counts as one day. */
  function CycleDays(billingDays: int): (days: int)
    ensures days > 0
  {
    if billingDays <= 0 then 1 else billingDays
  }

  function DailyRate(price: int, billingDays: int): int {
    HalfUp(price, CycleDays(billingDays))
  }

  function Calculate(oldPrice: int, newPrice: int, billingDays: int, remainingDays: int): ProRata {
    var oldDaily, newDaily := DailyRate(oldPrice, billingDays), DailyRate(newPrice, billingDays);
    var credit, charge := oldDaily * remainingDays, newDaily * remainingDays;
    var due := charge - credit;
    ProRata(oldDaily, newDaily, remainingDays, CycleDays(billingDays), credit, charge, if due > 0 then due else 0)
  }

  function RemainingDays(expiry: int, today: int): (r: int)
    ensures r >= 0
  {
    if expiry - today > 0 then expiry - today else 0
  }

  function BillingDays(start: int, expiry: int): (r: int)
    ensures r >= 1
  {
    if expiry - start > 1 then expiry - start else 1
  }

  function AmountDue(oldPrice: int, newPrice: int, billingDays: int, remainingDays: int): int {
    Calculate(oldPrice, newPrice, billingDays, remainingDays).amountDue
  }

  /** Charge less credit, before the clamp at zero. */
  function Delta(oldPrice: int, newPrice: int, billingDays: int, remainingDays: int): int {
    var p := Calculate(oldPrice, newPrice, billingDays, remainingDays);
    p.charge - p.credit
  }

  /** The clamp never acts when the price does not fall. */
  lemma NoClampOnUpgrade(oldPrice: int, newPrice: int, billingDays: int, remainingDays: nat)
    requires oldPrice <= newPrice
    ensures AmountDue(oldPrice, newPrice, billingDays, remainingDays)
         == Delta(oldPrice, newPrice, billingDays, remainingDays) >= 0
  {
    var p := Calculate(oldPrice, newPrice, billingDays, remainingDays);
    HalfUpMonotone(oldPrice, newPrice, p.billingDays);
    MulLe(remainingDays, p.oldDailyRate, p.newDailyRate);
  }

  /** What a chain of same-day plan changes costs in total. */
  function ChainCost(prices: seq<int>, billingDays: int, remainingDays: int): int {
    if |prices| < 2 then 0
    else
      var last := |prices| - 1;
      ChainCost(prices[..last], billingDays, remainingDays)
      + AmountDue(prices[last - 1], prices[last], billingDays, remainingDays)
  }

  /** How far the daily rates of a chain go up in all, and how far down. */
  function Rises(prices: seq<int>, billingDays: int): nat {
    if |prices| < 2 then 0
    else
      var last := |prices| - 1;
      var step := DailyRate(prices[last], billingDays) - DailyRate(prices[last - 1], billingDays);
      Rises(prices[..last], billingDays) + if step > 0 then step else 0
  }

  function Drops(prices: seq<int>, billingDays: int): nat {
    if |prices| < 2 then 0
    else
      var last := |prices| - 1;
      var step := DailyRate(prices[last], billingDays) - DailyRate(prices[last - 1], billingDays);
      Drops(prices[..last], billingDays) + if step < 0 then -step else 0
  }

  ghost predicate NeverFalls(prices: seq<int>, billingDays: int) {
    forall i | 0 < i < |prices| :: DailyRate(prices[i - 1], billingDays) <= DailyRate(prices[i], billingDays)
  }

  ghost predicate NeverRises(prices: seq<int>, billingDays: int) {
    forall i | 0 < i < |prices| :: DailyRate(prices[i - 1], billingDays) >= DailyRate(prices[i], billingDays)
  }

  lemma DueIsRise(oldPrice: int, newPrice: int, billingDays: int, remainingDays: nat)
    ensures var step := DailyRate(newPrice, billingDays) - DailyRate(oldPrice, billingDays);
      AmountDue(oldPrice, newPrice, billingDays, remainingDays) == remainingDays * if step > 0 then step else 0
  {
    var p, q := DailyRate(oldPrice, billingDays), DailyRate(newPrice, billingDays);
    assert q * remainingDays - p * remainingDays == remainingDays * (q - p);
    if q - p > 0 {
      MulLe(remainingDays, 0, q - p);
    } else {
      MulLe(remainingDays, q - p, 0);
    }
  }

  lemma {:induction false} ChainPaysTheRises(prices: seq<int>, billingDays: int, remainingDays: nat)
    requires |prices| > 0
    ensures ChainCost(prices, billingDays, remainingDays) == remainingDays * Rises(prices, billingDays)
    ensures Rises(prices, billingDays) - Drops(prices, billingDays)
         == DailyRate(prices[|prices| - 1], billingDays) - DailyRate(prices[0], billingDays)
    ensures Rises(prices, billingDays) == 0 <==> NeverRises(prices, billingDays)
    ensures Drops(prices, billingDays) == 0 <==> NeverFalls(prices, billingDays)
  {
    if |prices| > 1 {
      var last := |prices| - 1;
      var front := prices[..last];
      ChainPaysTheRises(front, billingDays, remainingDays);
      DueIsRise(prices[last - 1], prices[last], billingDays, remainingDays);
      var step := DailyRate(prices[last], billingDays) - DailyRate(prices[last - 1], billingDays);
      Distribute(remainingDays, Rises(front, billingDays), if step > 0 then step else 0);
      LastStep(prices, billingDays);
    }
  }

  lemma Distribute(r: int, a: int, b: int)
    ensures r * (a + b) == r * a + r * b
  {
  }

  lemma LastStep(prices: seq<int>, billingDays: int)
    requires |prices| > 1
    ensures var last := |prices| - 1;
      var before, after := DailyRate(prices[last - 1], billingDays), DailyRate(prices[last], billingDays);
      && (NeverFalls(prices, billingDays) <==> NeverFalls(prices[..last], billingDays) && before <= after)
      && (NeverRises(prices, billingDays) <==> NeverRises(prices[..last], billingDays) && before >= after)
  {
    var last := |prices| - 1;
    var front := prices[..last];
    assert forall i | 0 <= i < last :: front[i] == prices[i];
    if NeverFalls(front, billingDays) && DailyRate(prices[last - 1], billingDays) <= DailyRate(prices[last], billingDays) {
      forall i | 0 < i < |prices| ensures DailyRate(prices[i - 1], billingDays) <= DailyRate(prices[i], billingDays) {
        assert i < last ==> DailyRate(front[i - 1], billingDays) <= DailyRate(front[i], billingDays);
      }
    }
    if NeverRises(front, billingDays) && DailyRate(prices[last - 1], billingDays) >= DailyRate(prices[last], billingDays) {
      forall i | 0 < i < |prices| ensures DailyRate(prices[i - 1], billingDays) >= DailyRate(prices[i], billingDays) {
        assert i < last ==> DailyRate(front[i - 1], billingDays) >= DailyRate(front[i], billingDays);
      }
    }
  }

  /** Any chain of same-day changes costs at least the direct change, and exactly
      that when no day remains or the daily rates, in whole cents, go one way only. */
  lemma ChainsCostTheDirectChangeIff(prices: seq<int>, billingDays: int, remainingDays: nat)
    requires |prices| > 0
    ensures var direct, chain := AmountDue(prices[0], prices[|prices| - 1], billingDays, remainingDays),
                                 ChainCost(prices, billingDays, remainingDays);
      && direct <= chain
      && (direct == chain <==> remainingDays == 0 || NeverFalls(prices, billingDays) || NeverRises(prices, billingDays))
  {
    ChainPaysTheRises(prices, billingDays, remainingDays);
    DueIsRise(prices[0], prices[|prices| - 1], billingDays, remainingDays);
    var up, down := Rises(prices, billingDays), Drops(prices, billingDays);
    var net := if up > down then up - down else 0;
    MulLe(remainingDays, net, up);
    if net < up {
      MulLe(remainingDays, net + 1, up);
      Distribute(remainingDays, net, 1);
    }
  }

  /** Prices that never fall have daily rates that never fall, so such a chain costs
      exactly the direct change. */
  lemma ChainsTelescope(prices: seq<int>, billingDays: int, remainingDays: nat)
    requires |prices| > 0 && forall i | 0 < i < |prices| :: prices[i - 1] <= prices[i]
    ensures ChainCost(prices, billingDays, remainingDays)
         == AmountDue(prices[0], prices[|prices| - 1], billingDays, remainingDays)
  {
    forall i | 0 < i < |prices| ensures DailyRate(prices[i - 1], billingDays) <= DailyRate(prices[i], billingDays) {
      HalfUpMonotone(prices[i - 1], prices[i], CycleDays(billingDays));
    }
    ChainsCostTheDirectChangeIff(prices, billingDays, remainingDays);
  }

  /** The charge differs from the exact pro-rata amount by less than a cent a day. */
  lemma ProRataError(oldPrice: nat, newPrice: nat, billingDays: int, remainingDays: nat)
    requires billingDays > 0 && remainingDays > 0
    ensures var exact := (newPrice - oldPrice) * remainingDays;
      -(billingDays * remainingDays) < Delta(oldPrice, newPrice, billingDays, remainingDays) * billingDays - exact
        < billingDays * remainingDays
  {
    var b, r := billingDays, remainingDays;
    var p, q := HalfUp(oldPrice, b), HalfUp(newPrice, b);
    RateError(oldPrice, p, b);
    RateError(newPrice, q, b);
    assert b * (q - p) == b * q - b * p;
    ScaledError(b, r, p, q, newPrice - oldPrice);
  }

  lemma RateError(price: int, rate: int, b: int)
    requires b * (2 * rate - 1) <= 2 * price < b * (2 * rate + 1)
    ensures -b <= 2 * price - 2 * (b * rate) < b
  {
    assert b * (2 * rate - 1) == 2 * (b * rate) - b && b * (2 * rate + 1) == 2 * (b * rate) + b;
  }

  lemma ScaledError(b: int, r: int, p: int, q: int, d: int)
    requires r > 0 && -b < b * (q - p) - d < b
    ensures -(b * r) < (q * r - p * r) * b - d * r < b * r
  {
    var error := b * (q - p) - d;
    assert (q * r - p * r) * b - d * r == r * error;
    MulLe(r, error, b - 1);
    MulLe(r, 1 - b, error);
    assert r * (b - 1) == b * r - r && r * (1 - b) == r - b * r;
  }

  // ---- Upgrades and downgrades -------------------------------------------

  /** A subscription row with its plan and its pending downgrade, and the totals of
      the delta invoices made for it. */
  datatype State = State(
    status: Subs.Status,
    plan: nat,
    start: int,
    expiry: int,
    downgradeAt: Option<int>,
    downgradeTo: Option<nat>,
    deltas: seq<int>)

  function DoUpgrade(s: State, plan: nat, prices: map<nat, int>, today: int): Result<State> {
    if s.status != Subs.Active || s.plan == plan then Err(Conflict)
    else if s.plan !in prices || plan !in prices then Err(NotFound)
    else
      var due := AmountDue(prices[s.plan], prices[plan], BillingDays(s.start, s.expiry), RemainingDays(s.expiry, today));
      Ok(s.(plan := plan, deltas := s.deltas + [due]))
  }

  function DoDowngrade(s: State, plan: nat, prices: map<nat, int>): Result<State> {
    if s.status != Subs.Active || s.downgradeAt.Some? || s.plan == plan then Err(Conflict)
    else if plan !in prices then Err(NotFound)
    else Ok(s.(downgradeAt := Some(s.expiry), downgradeTo := Some(plan)))
  }

  function DoFinalize(s: State): State {
    if s.downgradeTo.None? then s
    else s.(plan := s.downgradeTo.value, downgradeAt := None, downgradeTo := None)
  }

  /** The portal upgrades to a dearer plan and schedules anything else.  It does not
      find a paused or closed subscription. */
  function DoChange(s: State, plan: nat, prices: map<nat, int>, today: int): Result<State> {
    if s.status == Subs.Paused || s.status == Subs.Closed || s.plan !in prices || plan !in prices then Err(NotFound)
    else if prices[plan] > prices[s.plan] then DoUpgrade(s, plan, prices, today)
    else DoDowngrade(s, plan, prices)
  }

  class PlanChangeService {
    var status: Subs.Status
    var plan: nat
    const start: int
    const expiry: int
    var downgradeAt: Option<int>
    var downgradeTo: Option<nat>
    var deltas: seq<int>

    constructor (status: Subs.Status, plan: nat, start: int, expiry: int)
      ensures Current() == State(status, plan, start, expiry, None, None, [])
    {
      this.status, this.plan, this.start, this.expiry := status, plan, start, expiry;
      downgradeAt, downgradeTo, deltas := None, None, [];
    }

    function Current(): State
      reads this
    {
      State(status, plan, start, expiry, downgradeAt, downgradeTo, deltas)
    }

    method Upgrade(newPlan: nat, prices: map<nat, int>, today: int) returns (r: Result<State>)
      modifies this
      ensures r == DoUpgrade(old(Current()), newPlan, prices, today)
      ensures Current() == if r.Ok? then r.value else old(Current())
    {
      if status != Subs.Active {
        return Err(Conflict);
      }
      if plan == newPlan {
        return Err(Conflict);
      }
      if plan !in prices || newPlan !in prices {
        return Err(NotFound);
      }
      var billing := BillingDays(start, expiry);
      var remaining := RemainingDays(expiry, today);
      var proRata := Calculate(prices[plan], prices[newPlan], billing, remaining);
      deltas := deltas + [proRata.amountDue];
      plan := newPlan;
      return Ok(Current());
    }

    method Downgrade(newPlan: nat, prices: map<nat, int>) returns (r: Result<State>)
      modifies this
      ensures r == DoDowngrade(old(Current()), newPlan, prices)
      ensures Current() == if r.Ok? then r.value else old(Current())
    {
      if status != Subs.Active {
        return Err(Conflict);
      }
      if downgradeAt.Some? {
        return Err(Conflict);
      }
      if plan == newPlan {
        return Err(Conflict);
      }
      if newPlan !in prices {
        return Err(NotFound);
      }
      downgradeAt, downgradeTo := Some(expiry), Some(newPlan);
      return Ok(Current());
    }

    method Finalize()
      modifies this
      ensures Current() == DoFinalize(old(Current()))
    {
      if downgradeTo.None? {
        return;
      }
      plan := downgradeTo.value;
      downgradeAt, downgradeTo := None, None;
    }

    method ChangePlan(newPlan: nat, prices: map<nat, int>, today: int) returns (r: Result<State>)
      modifies this
      ensures r == DoChange(old(Current()), newPlan, prices, today)
      ensures Current() == if r.Ok? then r.value else old(Current())
    {
      if status == Subs.Paused || status == Subs.Closed || plan !in prices || newPlan !in prices {
        return Err(NotFound);
      }
      if prices[newPlan] > prices[plan] {
        r := Upgrade(newPlan, prices, today);
      } else {
        r := Downgrade(newPlan, prices);
      }
    }
  }

  /** Portal requests on one day; a refused one changes nothing. */
  function RunChanges(s: State, plans: seq<nat>, prices: map<nat, int>, today: int): State {
    if plans == [] then s
    else
      var t := RunChanges(s, plans[..|plans| - 1], prices, today);
      match DoChange(t, plans[|plans| - 1], prices, today)
      case Ok(u) => u
      case Err(_) => t
  }

  function SumOf(amounts: seq<int>): int {
    if amounts == [] then 0 else SumOf(amounts[..|amounts| - 1]) + amounts[|amounts| - 1]
  }

  /** Whatever plans a customer asks for in one day, the delta invoices add up to
      what the direct change to the final plan costs, and the price never falls. */
  lemma {:induction false} PortalChangesCostTheDirectUpgrade(s: State, plans: seq<nat>, prices: map<nat, int>, today: int)
    requires s.plan in prices
    ensures var t := RunChanges(s, plans, prices, today);
      && t.plan in prices && prices[s.plan] <= prices[t.plan]
      && t.start == s.start && t.expiry == s.expiry
      && SumOf(t.deltas) == SumOf(s.deltas)
           + AmountDue(prices[s.plan], prices[t.plan], BillingDays(s.start, s.expiry), RemainingDays(s.expiry, today))
  {
    var b, r := BillingDays(s.start, s.expiry), RemainingDays(s.expiry, today);
    if plans == [] {
      NoClampOnUpgrade(prices[s.plan], prices[s.plan], b, r);
    } else {
      var t := RunChanges(s, plans[..|plans| - 1], prices, today);
      PortalChangesCostTheDirectUpgrade(s, plans[..|plans| - 1], prices, today);
      var plan := plans[|plans| - 1];
      if plan in prices && prices[plan] > prices[t.plan] && DoUpgrade(t, plan, prices, today).Ok? {
        var due := AmountDue(prices[t.plan], prices[plan], b, r);
        assert (t.deltas + [due])[..|t.deltas|] == t.deltas;
        NoClampOnUpgrade(prices[s.plan], prices[t.plan], b, r);
        NoClampOnUpgrade(prices[t.plan], prices[plan], b, r);
        NoClampOnUpgrade(prices[s.plan], prices[plan], b, r);
      }
    }
  }

  /** A pending downgrade has a date exactly when it has a plan. */
  predicate Consistent(s: State) {
    s.downgradeAt.Some? <==> s.downgradeTo.Some?
  }

  lemma {:induction false} ChangesKeepConsistent(s: State, plans: seq<nat>, prices: map<nat, int>, today: int)
    requires Consistent(s)
    ensures Consistent(RunChanges(s, plans, prices, today))
  {
    if plans != [] {
      ChangesKeepConsistent(s, plans[..|plans| - 1], prices, today);
    }
  }

  /** An upgrade does not cancel a scheduled downgrade: whatever is bought in the
      meantime, finalizing applies the plan scheduled first. */
  lemma {:induction false} ScheduledDowngradeSurvives(s: State, plans: seq<nat>, prices: map<nat, int>, today: int)
    requires Consistent(s) && s.downgradeTo.Some?
    ensures var t := RunChanges(s, plans, prices, today);
      t.downgradeTo == s.downgradeTo && t.downgradeAt == s.downgradeAt && DoFinalize(t).plan == s.downgradeTo.value
  {
    if plans != [] {
      ScheduledDowngradeSurvives(s, plans[..|plans| - 1], prices, today);
    }
  }

  /** The daily rates are the exact ones to the nearest cent, the higher of two; the
      amount due is the rise of the daily rate for each remaining day, if it rises. */
  lemma CalculatedAmounts(oldPrice: nat, newPrice: nat, billingDays: int, remainingDays: nat)
    ensures var p := Calculate(oldPrice, newPrice, billingDays, remainingDays);
      var days := if billingDays > 0 then billingDays else 1;
      && p.billingDays == days && p.remainingDays == remainingDays
      && days * (2 * p.oldDailyRate - 1) <= 2 * oldPrice < days * (2 * p.oldDailyRate + 1)
      && days * (2 * p.newDailyRate - 1) <= 2 * newPrice < days * (2 * p.newDailyRate + 1)
      && p.credit == p.oldDailyRate * remainingDays && p.charge == p.newDailyRate * remainingDays
      && (p.charge >= p.credit ==> p.amountDue == p.charge - p.credit) && (p.charge < p.credit ==> p.amountDue == 0)
  {
  }

  /** An upgrade is admitted exactly for an active subscription and another existing
      plan.  Its delta invoice is within a cent a remaining day of the exact share of
      the price difference, counted from today to the expiry. */
  lemma UpgradeIff(s: State, plan: nat, prices: map<nat, int>, today: int)
    requires forall p | p in prices :: prices[p] >= 0
    ensures var r := DoUpgrade(s, plan, prices, today);
      && (r.Ok? <==> s.status == Subs.Active && plan != s.plan && s.plan in prices && plan in prices)
      && (r == Err(Conflict) <==> s.status != Subs.Active || plan == s.plan) && (r.Err? ==> r.error in {Conflict, NotFound})
      && (r.Ok? ==>
            && |r.value.deltas| == |s.deltas| + 1
            && var due, left := r.value.deltas[|s.deltas|], s.expiry - today;
            var cycle := if s.start < s.expiry then s.expiry - s.start else 1;
            && r.value == s.(plan := plan, deltas := s.deltas + [due]) && due >= 0
            && (left <= 0 || prices[plan] <= prices[s.plan] ==> due == 0)
            && (left > 0 && prices[plan] >= prices[s.plan] ==>
                  -(cycle * left) < due * cycle - (prices[plan] - prices[s.plan]) * left < cycle * left))
  {
    if DoUpgrade(s, plan, prices, today).Ok? {
      var b, r := BillingDays(s.start, s.expiry), RemainingDays(s.expiry, today);
      DueIsRise(prices[s.plan], prices[plan], b, r);
      if prices[plan] <= prices[s.plan] {
        HalfUpMonotone(prices[plan], prices[s.plan], CycleDays(b));
      } else {
        NoClampOnUpgrade(prices[s.plan], prices[plan], b, r);
        if r > 0 {
          ProRataError(prices[s.plan], prices[plan], b, r);
        }
      }
      if prices[plan] == prices[s.plan] && r > 0 {
        ProRataError(prices[s.plan], prices[plan], b, r);
      }
    }
  }

  /** A downgrade is admitted exactly for an active subscription with none pending and
      another existing plan; the plan stays, and changes when it is finalized. */
  lemma DowngradeIff(s: State, plan: nat, prices: map<nat, int>)
    ensures var r := DoDowngrade(s, plan, prices);
      && (r.Ok? <==> s.status == Subs.Active && s.downgradeAt == None && plan != s.plan && plan in prices)
      && (r == Err(NotFound) <==> s.status == Subs.Active && s.downgradeAt == None && plan != s.plan && plan !in prices)
      && (r.Err? ==> r.error in {Conflict, NotFound})
      && (r.Ok? ==> r.value == s.(downgradeAt := Some(s.expiry), downgradeTo := Some(plan))
                    && DoFinalize(r.value) == s.(plan := plan, downgradeTo := None))
    ensures s.downgradeTo == None ==> DoFinalize(s) == s
  {
  }

  /** The portal's change is the one or the other by the prices alone. */
  lemma ChangeIff(s: State, plan: nat, prices: map<nat, int>, today: int)
    ensures var r := DoChange(s, plan, prices, today);
      if s.status in {Subs.Paused, Subs.Closed} || s.plan !in prices || plan !in prices then r == Err(NotFound)
      else if prices[s.plan] < prices[plan] then r == DoUpgrade(s, plan, prices, today)
      else r == DoDowngrade(s, plan, prices)
  {
  }
}
