/**
 Activations of one subscription interleaved: each loads the status and later writes
 the next one, without a lock (app/services/subscriptions/subscription.py).
 */
module ActivationRaces {
  import opened Wrappers
  import Subs = Subscriptions

  datatype Pc =
    | Requested
    | Loaded(seen: Subs.Status)
    | Finished(ok: bool)

  /** `written` lists the statuses the activations have stored; the factory makes an
      invoice with every Active. */
  datatype State = State(status: Subs.Status, written: seq<Subs.Status>, requests: map<nat, Pc>)

  datatype Event =
    | Arrive(id: nat)
    | Load(id: nat)
    | Store(id: nat)

  function Next(s: State, e: Event): State {
    match e
    case Arrive(id) => if id in s.requests then s else s.(requests := s.requests[id := Requested])
    case Load(id) =>
      if id !in s.requests || !s.requests[id].Requested? then s
      else
        s.(requests := s.requests[id :=
          if Subs.NextActivation(s.status).None? then Finished(false) else Loaded(s.status)])
    case Store(id) =>
      if id !in s.requests || !s.requests[id].Loaded? || Subs.NextActivation(s.requests[id].seen).None? then s
      else
        var target := Subs.NextActivation(s.requests[id].seen).value;
        State(target, s.written + [target], s.requests[id := Finished(true)])
  }

  function Run(s: State, events: seq<Event>): State
    decreases |events|
  {
    if events == [] then s else Run(Next(s, events[0]), events[1..])
  }

  function Invoices(written: seq<Subs.Status>): nat {
    if written == [] then 0
    else Invoices(written[..|written| - 1]) + if written[|written| - 1] == Subs.Active then 1 else 0
  }

  /** The status stored is not the one that follows the current status. */
  predicate IsStale(s: State, e: Event) {
    e.Store? && e.id in s.requests && s.requests[e.id].Loaded? && s.requests[e.id].seen != s.status
  }

  ghost predicate NoneStale(s: State, events: seq<Event>)
    decreases |events|
  {
    events == [] || (!IsStale(s, events[0]) && NoneStale(Next(s, events[0]), events[1..]))
  }

  /** The way from draft to active. */
  const PATH := [Subs.Quotation, Subs.Confirmed, Subs.Active]

  /** The status after the first n steps of the way. */
  function OnPath(n: nat): Subs.Status
    requires n <= |PATH|
  {
    if n == 0 then Subs.Draft else PATH[n - 1]
  }

  /** The activations so far went the way, each step once; or they have left it. */
  ghost predicate Inv(s: State) {
    && (s.written <= PATH ==> s.status == OnPath(|s.written|))
    && forall id | id in s.requests && s.requests[id].Loaded? :: Subs.NextActivation(s.requests[id].seen).Some?
  }

  lemma NextKeepsInv(s: State, e: Event)
    requires Inv(s)
    ensures Inv(Next(s, e))
    ensures Next(s, e).written <= PATH <==> s.written <= PATH && !IsStale(s, e)
  {
    if e.Store? && e.id in s.requests && s.requests[e.id].Loaded? {
      var target := Subs.NextActivation(s.requests[e.id].seen).value;
      var t := Next(s, e);
      assert t.written <= PATH ==> s.written <= PATH;
      if s.written <= PATH {
        assert t.written <= PATH <==> |s.written| < |PATH| && PATH[|s.written|] == target;
      }
    }
  }

  lemma {:induction false} RunStaysOnPathIff(s: State, events: seq<Event>)
    requires Inv(s)
    ensures Inv(Run(s, events))
    ensures Run(s, events).written <= PATH <==> s.written <= PATH && NoneStale(s, events)
    decreases |events|
  {
    if events != [] {
      NextKeepsInv(s, events[0]);
      RunStaysOnPathIff(Next(s, events[0]), events[1..]);
    }
  }

  function Init(): State {
    State(Subs.Draft, [], map[])
  }

  /** A draft takes the way to active step by step, each step once, exactly when no
      activation stores the successor of a status that is no longer current; then
      the factory makes at most one invoice. */
  lemma ActivationsGoTheWayIff(events: seq<Event>)
    ensures Run(Init(), events).written <= PATH <==> NoneStale(Init(), events)
    ensures NoneStale(Init(), events) ==> Invoices(Run(Init(), events).written) <= 1
  {
    RunStaysOnPathIff(Init(), events);
    var written := Run(Init(), events).written;
    if written <= PATH {
      OneInvoice(written);
    }
  }

  lemma OneInvoice(written: seq<Subs.Status>)
    requires written <= PATH
    ensures Invoices(written) <= 1
  {
    assert written == PATH[..|written|];
    NoInvoiceYet(written[..if |written| < 2 then |written| else 2]);
    if |written| == 3 {
      assert written[..2] == written[..|written| - 1];
    } else {
      assert written[..|written|] == written;
    }
  }

  lemma NoInvoiceYet(written: seq<Subs.Status>)
    requires |written| <= 2 && written <= PATH
    ensures Invoices(written) == 0
  {
    if |written| == 2 {
      assert written[..1] == [written[0]];
      assert [written[0]][..0] == [];
      assert Invoices([written[0]]) == 0;
    }
  }

  // ---- What overlap can do ------------------------------------------------

  lemma {:induction false} RunAppend(s: State, a: seq<Event>, b: seq<Event>)
    ensures Run(s, a + b) == Run(Run(s, a), b)
    decreases |a|
  {
    if a == [] {
      assert a + b == b;
    } else {
      assert (a + b)[0] == a[0] && (a + b)[1..] == a[1..] + b;
      RunAppend(Next(s, a[0]), a[1..], b);
    }
  }

  lemma RunThree(s: State, a: Event, b: Event, c: Event)
    ensures Run(s, [a, b, c]) == Next(Next(Next(s, a), b), c)
  {
    assert [a, b, c][1..] == [b, c] && [b, c][1..] == [c] && [c][1..] == [];
    var t := Next(Next(s, a), b);
    assert Run(t, [c]) == Next(t, c);
    assert Run(Next(s, a), [b, c]) == Next(t, c);
  }

  /** Two activations of a confirmed subscription that overlap make two invoices. */
  lemma OverlapInvoicesTwice(s: State) returns (events: seq<Event>)
    requires s.status == Subs.Confirmed && s.requests == map[] && s.written == []
    ensures Invoices(Run(s, events).written) == 2
  {
    var a, b := [Arrive(0), Arrive(1), Load(0)], [Load(1), Store(0), Store(1)];
    events := a + b;
    var t := Next(Next(Next(s, Arrive(0)), Arrive(1)), Load(0));
    assert t.requests == map[0 := Loaded(Subs.Confirmed), 1 := Requested];
    var u := Next(Next(Next(t, Load(1)), Store(0)), Store(1));
    assert u.written == [Subs.Active, Subs.Active];
    RunThree(s, Arrive(0), Arrive(1), Load(0));
    RunThree(t, Load(1), Store(0), Store(1));
    RunAppend(s, a, b);
    assert u.written[..1] == [Subs.Active] && [Subs.Active][..0] == [];
    assert Invoices([Subs.Active]) == 1;
  }

  /** An activation whose two steps run back to back is the lifecycle's: the same status
      and the same invoice, or refused as there. */
  lemma UninterruptedActivation(s: State, request: nat, life: Subs.State, id: nat)
    requires request !in s.requests && id in life.subs && life.subs[id].status == s.status
    ensures var end := Run(s, [Arrive(request), Load(request), Store(request)]);
      request in end.requests &&
      match Subs.Attempt(life, Subs.Activate(id))
      case Ok(after) =>
        && end.requests[request] == Finished(true) && end.status == after.subs[id].status
        && end.written == s.written + [end.status]
        && Invoices(end.written) - Invoices(s.written) == |after.factoryRuns| - |life.factoryRuns|
      case Err(_) => end.requests[request] == Finished(false) && end.status == s.status && end.written == s.written
  {
    RunThree(s, Arrive(request), Load(request), Store(request));
    var end := Run(s, [Arrive(request), Load(request), Store(request)]);
    assert end.written != s.written ==> end.written[..|s.written|] == s.written;
  }
}
