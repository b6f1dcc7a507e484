/**
 Invoice generations with one discount interleaved: each loads the discount, checks
 its limit and later writes back its counter plus one, without a lock
 (app/services/billing/invoice_builder.py).
 */
module DiscountRaces {
  import opened Wrappers
  import BillingTables
  import InvoiceBuilding

  /** Where a generation stands: `seen` is the counter it loaded, `version` how many
      invoices carried the discount then. */
  datatype Pc =
    | Requested
    | Loaded(seen: int, version: nat)
    | Finished(ok: bool)

  /** `carriers` counts the invoices that carry the discount. */
  datatype State = State(usedCount: int, usageLimit: Option<int>, carriers: nat, requests: map<nat, Pc>)

  datatype Event =
    | Arrive(id: nat)
    | Load(id: nat)
    | Store(id: nat)

  predicate Exhausted(s: State) {
    s.usageLimit.Some? && s.usedCount >= s.usageLimit.value
  }

  function Next(s: State, e: Event): State {
    match e
    case Arrive(id) => if id in s.requests then s else s.(requests := s.requests[id := Requested])
    case Load(id) =>
      if id !in s.requests || !s.requests[id].Requested? then s
      else s.(requests := s.requests[id := if Exhausted(s) then Finished(false) else Loaded(s.usedCount, s.carriers)])
    case Store(id) =>
      if id !in s.requests || !s.requests[id].Loaded? then s
      else
        s.(usedCount := s.requests[id].seen + 1, carriers := s.carriers + 1, requests := s.requests[id := Finished(true)])
  }

  function Run(s: State, events: seq<Event>): State
    decreases |events|
  {
    if events == [] then s else Run(Next(s, events[0]), events[1..])
  }

  /** The event stores a use although another was stored since it loaded. */
  predicate Overlaps(s: State, e: Event) {
    e.Store? && e.id in s.requests && s.requests[e.id].Loaded? && s.requests[e.id].version != s.carriers
  }

  ghost predicate NoOverlap(s: State, events: seq<Event>)
    decreases |events|
  {
    events == [] || (!Overlaps(s, events[0]) && NoOverlap(Next(s, events[0]), events[1..]))
  }

  ghost predicate KnowsPast(s: State, r: Pc) {
    r.Loaded? ==>
      && r.version <= s.carriers && r.seen <= r.version && (r.version == s.carriers ==> r.seen == s.usedCount)
      && (s.usageLimit.Some? ==> r.seen < s.usageLimit.value)
  }

  ghost predicate Inv(s: State) {
    && s.usedCount <= s.carriers && (s.usageLimit.Some? ==> s.usedCount <= s.usageLimit.value)
    && forall id | id in s.requests :: KnowsPast(s, s.requests[id])
  }

  lemma NextKeepsInv(s: State, e: Event)
    requires Inv(s)
    ensures Inv(Next(s, e))
    ensures Next(s, e).usedCount == Next(s, e).carriers <==> s.usedCount == s.carriers && !Overlaps(s, e)
  {
    var t := Next(s, e);
    if e.Store? && e.id in s.requests {
      assert KnowsPast(s, s.requests[e.id]);
    }
    forall k | k in t.requests ensures KnowsPast(t, t.requests[k]) {
      assert k in s.requests ==> KnowsPast(s, s.requests[k]);
    }
  }

  /** A new discount: unused, with a limit that is not negative. */
  predicate Fresh(s: State) {
    s.usedCount == 0 == s.carriers && s.requests == map[] && (s.usageLimit.Some? ==> s.usageLimit.value >= 0)
  }

  lemma {:induction false} RunCountsIff(s: State, events: seq<Event>)
    requires Inv(s)
    ensures Inv(Run(s, events))
    ensures Run(s, events).usedCount == Run(s, events).carriers <==> s.usedCount == s.carriers && NoOverlap(s, events)
    decreases |events|
  {
    if events != [] {
      NextKeepsInv(s, events[0]);
      RunCountsIff(Next(s, events[0]), events[1..]);
    }
  }

  /** The counter is the number of invoices that carry the discount exactly when no
      use was stored over another stored since it loaded, and then the limit bounds
      both.  The counter itself never passes the limit. */
  lemma UsesAreCountedIff(s: State, events: seq<Event>)
    requires Fresh(s)
    ensures var t := Run(s, events);
      && (t.usedCount == t.carriers <==> NoOverlap(s, events))
      && (t.usageLimit.Some? ==> t.usedCount <= t.usageLimit.value)
  {
    RunCountsIff(s, events);
  }

  // ---- What overlap can do ------------------------------------------------

  function Arrivals(n: nat): seq<Event> {
    if n == 0 then [] else Arrivals(n - 1) + [Arrive(n - 1), Load(n - 1)]
  }

  function Stores(n: nat): seq<Event> {
    if n == 0 then [] else Stores(n - 1) + [Store(n - 1)]
  }

  lemma {:induction false} RunAppend(s: State, a: seq<Event>, b: seq<Event>)
    ensures Run(s, a + b) == Run(Run(s, a), b)
    decreases |a|
  {
    if a == [] {
      assert a + b == b;
    } else {
      assert (a + b)[0] == a[0] && (a + b)[1..] == a[1..] + b;
      RunAppend(Next(s, a[0]), a[1..], b);
    }
  }

  lemma RunOne(s: State, e: Event)
    ensures Run(s, [e]) == Next(s, e)
  {
    assert Run(Next(s, e), [e][1..]) == Next(s, e);
  }

  lemma {:induction false} AllLoaded(s: State, n: nat)
    requires Fresh(s) && !Exhausted(s)
    ensures var t := Run(s, Arrivals(n));
      && t == s.(requests := t.requests)
      && forall k: nat :: if k < n then k in t.requests && t.requests[k] == Loaded(0, 0) else k !in t.requests
  {
    if n > 0 {
      AllLoaded(s, n - 1);
      var t := Run(s, Arrivals(n - 1));
      assert [Arrive(n - 1), Load(n - 1)] == [Arrive(n - 1)] + [Load(n - 1)];
      RunAppend(s, Arrivals(n - 1), [Arrive(n - 1), Load(n - 1)]);
      RunAppend(t, [Arrive(n - 1)], [Load(n - 1)]);
      RunOne(t, Arrive(n - 1));
      RunOne(Next(t, Arrive(n - 1)), Load(n - 1));
    }
  }

  lemma {:induction false} AllStored(s: State, n: nat)
    requires s.usedCount == 0 && forall k: nat | k < n :: k in s.requests && s.requests[k] == Loaded(0, 0)
    ensures var t := Run(s, Stores(n));
      && t.carriers == s.carriers + n && t.usedCount == (if n == 0 then 0 else 1)
      && forall k | k in s.requests && k >= n :: k in t.requests && t.requests[k] == s.requests[k]
  {
    if n > 0 {
      AllStored(s, n - 1);
      RunAppend(s, Stores(n - 1), [Store(n - 1)]);
      RunOne(Run(s, Stores(n - 1)), Store(n - 1));
    }
  }

  /** Any number of overlapping generations pass a limit of one. */
  lemma OverlapPassesTheLimit(s: State, n: nat) returns (events: seq<Event>)
    requires Fresh(s) && !Exhausted(s) && n >= 1
    ensures Run(s, events).carriers == n && Run(s, events).usedCount == 1
  {
    events := Arrivals(n) + Stores(n);
    RunAppend(s, Arrivals(n), Stores(n));
    AllLoaded(s, n);
    AllStored(Run(s, Arrivals(n)), n);
  }

  /** A generation whose two steps run back to back counts its use as the builder does,
      or is refused as there. */
  lemma UninterruptedUse(s: State, request: nat, d: BillingTables.Discount, subtotal: int, today: int)
    requires request !in s.requests && s.usedCount == d.usedCount && s.usageLimit == d.usageLimit
    requires d.startDate <= today && d.endDate.Some? && today <= d.endDate.value && d.minPurchase <= subtotal
    ensures var end := Run(s, [Arrive(request), Load(request)] + [Store(request)]);
      request in end.requests &&
      match InvoiceBuilding.DiscountOutcome(Some(0), subtotal, map[0 := d], today)
      case Ok(a) =>
        && end.requests[request] == Finished(true) && end.carriers == s.carriers + 1
        && a.id == Some(0) && 0 in a.discounts && end.usedCount == a.discounts[0].usedCount
      case Err(e) => e == Invalid && end.requests[request] == Finished(false) && end == s.(requests := end.requests)
  {
    assert [Arrive(request), Load(request)] == [Arrive(request)] + [Load(request)];
    RunAppend(s, [Arrive(request)], [Load(request)]);
    RunAppend(s, [Arrive(request), Load(request)], [Store(request)]);
    RunOne(s, Arrive(request));
    RunOne(Next(s, Arrive(request)), Load(request));
    RunOne(Next(Next(s, Arrive(request)), Load(request)), Store(request));
  }
}
