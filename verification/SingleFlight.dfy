/**
 The client's refresh mutex: the 401 branch of the response interceptor in
 frontend/src/lib/axios.ts.  JavaScript runs one callback at a time, so a state
 machine whose steps are whole callbacks between two awaits is exact.
 */
module SingleFlight {
  import opened Sums

  /** Where a request's promise stands. */
  datatype Phase =
    | InFlight      // sent, no answer yet
    | Leading       // waits for the refresh it started
    | Queued        // waits in failedQueue
    | Resolved
    | Rejected

  /** `retry` is the `_retry` mark; `sends` counts how often the request went out
      and `settles` how often its promise was settled. */
  datatype Request = Request(isAuth: bool, retry: bool, phase: Phase, sends: nat, settles: nat)

  datatype Answer = Success | Unauthorized | Forbidden | OtherError

  type Requests = map<nat, Request>

  /** `refreshes` counts the refresh calls in flight. */
  datatype State = State(requests: Requests, isRefreshing: bool, failedQueue: seq<nat>, leader: nat, refreshes: nat)

  datatype Event =
    | Send(id: nat, isAuth: bool)
    | Reply(id: nat, answer: Answer)
    | RefreshEnds(ok: bool)

  // ---- Specification ------------------------------------------------------

  function Init(): State {
    State(map[], false, [], 0, 0)
  }

  function Settled(r: Request, phase: Phase): Request {
    r.(phase := phase, settles := r.settles + 1)
  }

  /** What the end of the refresh does to one waiting request. */
  function Released(r: Request, ok: bool): Request {
    if ok then r.(phase := InFlight, sends := r.sends + 1) else Settled(r, Rejected)
  }

  /** The response interceptor on an answer to request id. */
  function OnReply(s: State, id: nat, answer: Answer): State
    requires id in s.requests
  {
    var r := s.requests[id];
    if answer == Success then
      s.(requests := s.requests[id := Settled(r, Resolved)])
    else if r.isAuth || answer != Unauthorized || r.retry then
      s.(requests := s.requests[id := Settled(r, Rejected)])
    else if s.isRefreshing then
      s.(requests := s.requests[id := r.(retry := true, phase := Queued)], failedQueue := s.failedQueue + [id])
    else
      s.(requests := s.requests[id := r.(retry := true, phase := Leading)],
         isRefreshing := true, leader := id, refreshes := s.refreshes + 1)
  }

  function ReleaseAll(requests: Requests, ids: seq<nat>, ok: bool): (r: Requests)
    requires forall id | id in ids :: id in requests
    ensures r.Keys == requests.Keys
  {
    if ids == [] then requests
    else
      var before := ReleaseAll(requests, ids[..|ids| - 1], ok);
      var id := ids[|ids| - 1];
      before[id := Released(before[id], ok)]
  }

  predicate Known(s: State) {
    s.leader in s.requests && forall id | id in s.failedQueue :: id in s.requests
  }

  /** The queue is processed, then the leader, then the flag falls. */
  function OnRefreshEnd(s: State, ok: bool): State
    requires Known(s) && s.refreshes > 0
  {
    var released := ReleaseAll(s.requests, s.failedQueue, ok);
    s.(requests := released[s.leader := Released(released[s.leader], ok)],
       isRefreshing := false, failedQueue := [], refreshes := s.refreshes - 1)
  }

  predicate Enabled(s: State, e: Event) {
    match e
    case Send(id, _) => id !in s.requests
    case Reply(id, _) => id in s.requests && s.requests[id].phase == InFlight
    case RefreshEnds(_) => s.isRefreshing && Known(s) && s.refreshes > 0
  }

  function Next(s: State, e: Event): State {
    if !Enabled(s, e) then s
    else
      match e
      case Send(id, isAuth) => s.(requests := s.requests[id := Request(isAuth, false, InFlight, 1, 0)])
      case Reply(id, answer) => OnReply(s, id, answer)
      case RefreshEnds(ok) => OnRefreshEnd(s, ok)
  }

  function Run(s: State, events: seq<Event>): State
    decreases |events|
  {
    if events == [] then s else Run(Next(s, events[0]), events[1..])
  }

  // ---- The interceptor ----------------------------------------------------

  class Client {
    var requests: Requests
    var isRefreshing: bool
    var failedQueue: seq<nat>
    var leader: nat
    var refreshes: nat

    constructor ()
      ensures Current() == Init()
    {
      requests, isRefreshing, failedQueue, leader, refreshes := map[], false, [], 0, 0;
    }

    function Current(): State
      reads this
    {
      State(requests, isRefreshing, failedQueue, leader, refreshes)
    }

    method OnResponse(id: nat, answer: Answer)
      requires id in requests
      modifies this
      ensures Current() == OnReply(old(Current()), id, answer)
    {
      var r := requests[id];
      if answer == Success {
        requests := requests[id := Settled(r, Resolved)];
        return;
      }
      if r.isAuth {
        requests := requests[id := Settled(r, Rejected)];
        return;
      }
      if answer == Unauthorized && !r.retry {
        r := r.(retry := true);
        if isRefreshing {
          requests := requests[id := r.(phase := Queued)];
          failedQueue := failedQueue + [id];
          return;
        }
        isRefreshing := true;
        leader, refreshes := id, refreshes + 1;
        requests := requests[id := r.(phase := Leading)];
        return;
      }
      requests := requests[id := Settled(r, Rejected)];
    }

    method ProcessQueue(ok: bool)
      requires Known(Current())
      modifies this`requests, this`failedQueue
      ensures requests == ReleaseAll(old(requests), old(failedQueue), ok) && failedQueue == []
    {
      var queue := failedQueue;
      for i := 0 to |queue|
        invariant forall id | id in queue[..i] :: id in queue
        invariant requests == ReleaseAll(old(requests), queue[..i], ok)
      {
        assert queue[..i + 1][..i] == queue[..i];
        var id := queue[i];
        assert id in queue;
        requests := requests[id := Released(requests[id], ok)];
      }
      assert queue[..|queue|] == queue;
      failedQueue := [];
    }

    /** What follows the awaited refresh call, the `finally` block included. */
    method AfterRefresh(ok: bool)
      requires Known(Current()) && refreshes > 0
      modifies this
      ensures Current() == OnRefreshEnd(old(Current()), ok)
    {
      refreshes := refreshes - 1;
      ProcessQueue(ok);
      requests := requests[leader := Released(requests[leader], ok)];
      isRefreshing := false;
    }
  }

  // ---- Invariant ----------------------------------------------------------

  /** Sent at most twice, the second time only after its one 401; settled once,
      when its promise is resolved or rejected. */
  predicate GoodRequest(r: Request) {
    && 1 <= r.sends <= 2
    && (r.phase == InFlight ==> (r.retry <==> r.sends == 2))
    && (r.phase == Leading || r.phase == Queued ==> r.retry && r.sends == 1)
    && r.settles == (if r.phase == Resolved || r.phase == Rejected then 1 else 0)
    && (r.isAuth ==> r.sends == 1 && (r.phase != Leading && r.phase != Queued))
  }

  ghost predicate Inv(s: State) {
    && s.refreshes == (if s.isRefreshing then 1 else 0)
    && (!s.isRefreshing ==> s.failedQueue == [])
    && (forall i, j | 0 <= i < j < |s.failedQueue| :: s.failedQueue[i] != s.failedQueue[j])
    && (forall id | id in s.failedQueue :: id in s.requests)
    && (forall id | id in s.requests :: s.requests[id].phase == Queued <==> id in s.failedQueue)
    && (forall id | id in s.requests :: s.requests[id].phase == Leading <==> s.isRefreshing && id == s.leader)
    && (s.isRefreshing ==> s.leader in s.requests)
    && (forall id | id in s.requests :: GoodRequest(s.requests[id]))
  }

  lemma {:induction false} ReleasedAll(requests: Requests, ids: seq<nat>, ok: bool)
    requires forall id | id in ids :: id in requests
    requires forall i, j | 0 <= i < j < |ids| :: ids[i] != ids[j]
    ensures forall id | id in requests ::
      ReleaseAll(requests, ids, ok)[id] == if id in ids then Released(requests[id], ok) else requests[id]
  {
    if ids != [] {
      var front, last := ids[..|ids| - 1], ids[|ids| - 1];
      ReleasedAll(requests, front, ok);
      assert ids == front + [last] && last !in front;
    }
  }

  /** The end of a refresh releases every waiting request exactly once, and no other. */
  lemma RefreshEndReleasesWaiters(s: State, ok: bool)
    requires Inv(s) && s.isRefreshing
    ensures var t := OnRefreshEnd(s, ok);
      && t.requests.Keys == s.requests.Keys && t.failedQueue == [] && !t.isRefreshing && t.refreshes == 0
      && (forall id | id in s.requests :: t.requests[id] ==
            if s.requests[id].phase == Queued || s.requests[id].phase == Leading then Released(s.requests[id], ok)
            else s.requests[id])
  {
    ReleasedAll(s.requests, s.failedQueue, ok);
    assert s.requests[s.leader].phase == Leading;
    assert s.leader !in s.failedQueue;
  }

  lemma NextKeepsInv(s: State, e: Event)
    requires Inv(s)
    ensures Inv(Next(s, e))
  {
    if Enabled(s, e) {
      match e
      case Send(id, isAuth) => SendKeepsInv(s, id, isAuth);
      case Reply(id, answer) => ReplyKeepsInv(s, id, answer);
      case RefreshEnds(ok) => RefreshEndKeepsInv(s, ok);
    }
  }

  lemma SendKeepsInv(s: State, id: nat, isAuth: bool)
    requires Inv(s) && id !in s.requests
    ensures Inv(s.(requests := s.requests[id := Request(isAuth, false, InFlight, 1, 0)]))
  {
  }

  lemma RefreshEndKeepsInv(s: State, ok: bool)
    requires Inv(s) && s.isRefreshing
    ensures Inv(OnRefreshEnd(s, ok))
  {
    RefreshEndReleasesWaiters(s, ok);
    var t := OnRefreshEnd(s, ok);
    forall id | id in t.requests
      ensures GoodRequest(t.requests[id]) && t.requests[id].phase != Queued && t.requests[id].phase != Leading
    {
      assert GoodRequest(s.requests[id]);
    }
  }

  lemma ReplyKeepsInv(s: State, id: nat, answer: Answer)
    requires Inv(s) && id in s.requests && s.requests[id].phase == InFlight
    ensures Inv(OnReply(s, id, answer))
  {
    var t := OnReply(s, id, answer);
    assert id !in s.failedQueue;
    assert GoodRequest(t.requests[id]);
    forall k | k in t.requests && k != id ensures t.requests[k] == s.requests[k] {
    }
    assert forall k :: k in t.failedQueue ==> k in s.failedQueue || k == id;
  }

  lemma {:induction false} RunKeepsInv(s: State, events: seq<Event>)
    requires Inv(s)
    ensures Inv(Run(s, events))
    decreases |events|
  {
    if events != [] {
      NextKeepsInv(s, events[0]);
      RunKeepsInv(Next(s, events[0]), events[1..]);
    }
  }

  /** In every reachable state at most one refresh is in flight, the queue is empty
      unless one is, and every request is sent at most twice and settled at most once. */
  lemma SingleFlightHolds(events: seq<Event>)
    ensures var s := Run(Init(), events);
      && s.refreshes <= 1 && (s.refreshes == 1 <==> s.isRefreshing)
      && (s.failedQueue != [] ==> s.isRefreshing)
      && (forall id | id in s.requests :: 1 <= s.requests[id].sends <= 2 && s.requests[id].settles <= 1)
  {
    RunKeepsInv(Init(), events);
  }

  /** No request is stranded: when nothing is in flight every promise is settled. */
  lemma NothingIsStranded(events: seq<Event>)
    requires var s := Run(Init(), events);
      s.refreshes == 0 && forall id | id in s.requests :: s.requests[id].phase != InFlight
    ensures var s := Run(Init(), events);
      forall id | id in s.requests :: s.requests[id].settles == 1
  {
    RunKeepsInv(Init(), events);
    var s := Run(Init(), events);
    assert forall id | id in s.requests :: s.requests[id].phase != Queued && s.requests[id].phase != Leading;
    assert forall id | id in s.requests :: GoodRequest(s.requests[id]);
  }

  // ---- Progress -----------------------------------------------------------

  /** How many more callbacks a request can cause. */
  function Weight(r: Request): int {
    match r.phase
    case InFlight => if r.retry then 1 else 3
    case Leading => 2
    case Queued => 2
    case _ => 0
  }

  /** The callbacks of a run that are not new requests. */
  function Callbacks(s: State, events: seq<Event>): nat
    decreases |events|
  {
    if events == [] then 0
    else (if Enabled(s, events[0]) && !events[0].Send? then 1 else 0) + Callbacks(Next(s, events[0]), events[1..])
  }

  lemma {:induction false} ReleasingLightens(requests: Requests, ids: seq<nat>, ok: bool)
    requires forall id | id in ids :: id in requests && requests[id].phase == Queued && requests[id].retry
    requires forall i, j | 0 <= i < j < |ids| :: ids[i] != ids[j]
    ensures SumBy(ReleaseAll(requests, ids, ok), Weight) <= SumBy(requests, Weight)
  {
    if ids != [] {
      var front, last := ids[..|ids| - 1], ids[|ids| - 1];
      assert ids == front + [last] && last !in front;
      ReleasingLightens(requests, front, ok);
      ReleasedAll(requests, front, ok);
      var before := ReleaseAll(requests, front, ok);
      SumUpdate(before, Weight, last, Released(before[last], ok));
    }
  }

  lemma CallbackLightens(s: State, e: Event)
    requires Inv(s) && Enabled(s, e)
    ensures e.Send? ==> SumBy(Next(s, e).requests, Weight) == SumBy(s.requests, Weight) + 3
    ensures !e.Send? ==> SumBy(Next(s, e).requests, Weight) < SumBy(s.requests, Weight)
  {
    match e
    case Send(id, isAuth) =>
      SumInsert(s.requests, Weight, id, Request(isAuth, false, InFlight, 1, 0));
    case Reply(id, answer) =>
      SumUpdate(s.requests, Weight, id, Next(s, e).requests[id]);
    case RefreshEnds(ok) =>
      forall id | id in s.failedQueue ensures s.requests[id].phase == Queued && s.requests[id].retry {
        assert GoodRequest(s.requests[id]);
      }
      ReleasingLightens(s.requests, s.failedQueue, ok);
      ReleasedAll(s.requests, s.failedQueue, ok);
      var released := ReleaseAll(s.requests, s.failedQueue, ok);
      assert s.requests[s.leader].phase == Leading && s.leader !in s.failedQueue;
      assert GoodRequest(s.requests[s.leader]);
      SumUpdate(released, Weight, s.leader, Released(released[s.leader], ok));
  }

  lemma {:induction false} CallbacksAreBounded(s: State, events: seq<Event>)
    requires Inv(s)
    ensures Callbacks(s, events) + SumBy(Run(s, events).requests, Weight)
         <= SumBy(s.requests, Weight) + 3 * (|Run(s, events).requests| - |s.requests|)
    decreases |events|
  {
    if events != [] {
      var e := events[0];
      NextKeepsInv(s, e);
      if Enabled(s, e) {
        CallbackLightens(s, e);
        NextCounts(s, e);
      }
      CallbacksAreBounded(Next(s, e), events[1..]);
    }
  }

  lemma NextCounts(s: State, e: Event)
    requires Enabled(s, e)
    ensures |Next(s, e).requests| == |s.requests| + if e.Send? then 1 else 0
  {
    var t := Next(s, e);
    if !e.Send? {
      assert t.requests.Keys == s.requests.Keys;
      assert |t.requests| == |t.requests.Keys| && |s.requests| == |s.requests.Keys|;
    }
  }

  lemma {:induction false} WeightIsNonNegative(requests: Requests)
    ensures SumBy(requests, Weight) >= 0
    decreases |requests|
  {
    if requests != map[] {
      var k :| k in requests;
      SumRemove(requests, Weight, k);
      WeightIsNonNegative(requests - {k});
    }
  }

  /** n requests cause at most 3n answers and refresh ends, in any run: the client
      cannot refresh or resend for ever. */
  lemma ClientQuiesces(events: seq<Event>)
    ensures Callbacks(Init(), events) <= 3 * |Run(Init(), events).requests|
  {
    CallbacksAreBounded(Init(), events);
    WeightIsNonNegative(Run(Init(), events).requests);
  }

  // ---- How promises are settled -------------------------------------------

  predicate Waits(s: State, id: nat) {
    id in s.requests && (s.requests[id].phase == Queued || s.requests[id].phase == Leading)
  }

  /** The request is answered with success. */
  predicate Succeeds(s: State, e: Event, id: nat) {
    Enabled(s, e) && e == Reply(id, Success)
  }

  /** The request is answered with an error that no refresh can mend (it goes to an
      auth URL, the answer is not a 401, or it was sent again already), or the
      refresh it waits for fails. */
  predicate Fails(s: State, e: Event, id: nat) {
    Enabled(s, e) &&
    match e
    case Reply(k, answer) =>
      k == id && answer != Success && (s.requests[id].isAuth || answer != Unauthorized || s.requests[id].sends == 2)
    case RefreshEnds(ok) => !ok && Waits(s, id)
    case Send(_, _) => false
  }

  /** The refresh it waits for succeeds. */
  predicate Resumes(s: State, e: Event, id: nat) {
    Enabled(s, e) && e == RefreshEnds(true) && Waits(s, id)
  }

  ghost predicate SuccessOccurs(s: State, events: seq<Event>, id: nat)
    decreases |events|
  {
    events != [] && (Succeeds(s, events[0], id) || SuccessOccurs(Next(s, events[0]), events[1..], id))
  }

  ghost predicate FailureOccurs(s: State, events: seq<Event>, id: nat)
    decreases |events|
  {
    events != [] && (Fails(s, events[0], id) || FailureOccurs(Next(s, events[0]), events[1..], id))
  }

  ghost predicate ResumptionOccurs(s: State, events: seq<Event>, id: nat)
    decreases |events|
  {
    events != [] && (Resumes(s, events[0], id) || ResumptionOccurs(Next(s, events[0]), events[1..], id))
  }

  predicate IsIn(s: State, id: nat, phase: Phase) {
    id in s.requests && s.requests[id].phase == phase
  }

  predicate SentTwice(s: State, id: nat) {
    id in s.requests && s.requests[id].sends == 2
  }

  lemma StepSettles(s: State, e: Event, id: nat)
    requires Inv(s)
    ensures IsIn(Next(s, e), id, Resolved) <==> IsIn(s, id, Resolved) || Succeeds(s, e, id)
    ensures IsIn(Next(s, e), id, Rejected) <==> IsIn(s, id, Rejected) || Fails(s, e, id)
    ensures SentTwice(Next(s, e), id) <==> SentTwice(s, id) || Resumes(s, e, id)
  {
    if id in s.requests {
      assert GoodRequest(s.requests[id]);
    }
    if Enabled(s, e) && e.RefreshEnds? {
      RefreshEndReleasesWaiters(s, e.ok);
    }
  }

  lemma {:induction false} RunSettles(s: State, events: seq<Event>, id: nat)
    requires Inv(s)
    ensures IsIn(Run(s, events), id, Resolved) <==> IsIn(s, id, Resolved) || SuccessOccurs(s, events, id)
    ensures IsIn(Run(s, events), id, Rejected) <==> IsIn(s, id, Rejected) || FailureOccurs(s, events, id)
    ensures SentTwice(Run(s, events), id) <==> SentTwice(s, id) || ResumptionOccurs(s, events, id)
    decreases |events|
  {
    if events != [] {
      StepSettles(s, events[0], id);
      NextKeepsInv(s, events[0]);
      RunSettles(Next(s, events[0]), events[1..], id);
    }
  }

  /** Over any run: a promise is resolved exactly when its request was answered with
      success, rejected exactly when it failed for good, and the request was sent
      again exactly when a refresh that it waited for succeeded. */
  lemma SettledAsAnswered(events: seq<Event>, id: nat)
    ensures IsIn(Run(Init(), events), id, Resolved) <==> SuccessOccurs(Init(), events, id)
    ensures IsIn(Run(Init(), events), id, Rejected) <==> FailureOccurs(Init(), events, id)
    ensures SentTwice(Run(Init(), events), id) <==> ResumptionOccurs(Init(), events, id)
  {
    RunSettles(Init(), events, id);
  }

  /** In any reachable state the first 401 of a request that is not for an auth URL
      settles nothing: the request starts the refresh if none is in flight, joins
      the end of the queue otherwise, and every other request is left alone. */
  lemma FirstUnauthorizedWaits(events: seq<Event>, id: nat)
    requires var s := Run(Init(), events);
      IsIn(s, id, InFlight) && !s.requests[id].isAuth && s.requests[id].sends == 1
    ensures var s := Run(Init(), events);
      var t := Next(s, Reply(id, Unauthorized));
      && Waits(t, id) && t.requests[id].settles == 0 && t.requests[id].sends == 1 && t.refreshes == 1
      && (s.refreshes == 0 ==> t.leader == id && t.failedQueue == s.failedQueue && t.requests[id].phase == Leading)
      && (s.refreshes == 1 ==> t.leader == s.leader && t.failedQueue == s.failedQueue + [id])
      && t.requests.Keys == s.requests.Keys && forall k | k in s.requests && k != id :: t.requests[k] == s.requests[k]
  {
    RunKeepsInv(Init(), events);
    assert GoodRequest(Run(Init(), events).requests[id]);
  }

  /** Whatever has happened, an answer can reach every request in flight and an end every
      refresh in flight, with either outcome; nothing else is ever enabled. */
  lemma EnabledIff(events: seq<Event>, id: nat, answer: Answer, ok: bool)
    ensures var s := Run(Init(), events);
      && (Enabled(s, Reply(id, answer)) <==> IsIn(s, id, InFlight))
      && (Enabled(s, RefreshEnds(ok)) <==> s.refreshes == 1)
  {
    RunKeepsInv(Init(), events);
  }

  /** A waiting request is moved by the end of the refresh and by nothing else: sent
      again if it succeeded, rejected if not. */
  lemma WaitersFollowTheRefresh(events: seq<Event>, e: Event, id: nat)
    requires var s := Run(Init(), events); Waits(s, id) && Enabled(s, e)
    ensures var s := Run(Init(), events);
      var t := Next(s, e);
      && id in t.requests
      && (!e.RefreshEnds? ==> t.requests[id] == s.requests[id])
      && (e == RefreshEnds(true) ==>
            t.requests[id].phase == InFlight && t.requests[id].sends == 2 && t.requests[id].settles == 0)
      && (e == RefreshEnds(false) ==>
            t.requests[id].phase == Rejected && t.requests[id].sends == 1 && t.requests[id].settles == 1)
  {
    RunKeepsInv(Init(), events);
    var s := Run(Init(), events);
    assert GoodRequest(s.requests[id]);
    if e.RefreshEnds? {
      RefreshEndReleasesWaiters(s, e.ok);
    }
  }
}
