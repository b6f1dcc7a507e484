/**
 One token family over both stores with its requests interleaved: every Redis
 command, every read of the session row and every commit is one step
 (app/services/token_family.py, app/services/auth.py, app/services/portal.py).
 */
module SessionRaces {
  import opened TokenFamily
  import FamilyInterleaving

  /** What a request does next; rotations are named by their place in the log. */
  datatype Pc =
    | RotateSrem(oldHash: Hash, newHash: Hash)
    | RotateSadd(i: nat)
    | ReadRow(i: nat)
    | WriteRow(i: nat)
    | RotateDelete
    | PortalRead
    | RevokeDelete
    | CommitRevoke
    | Done

  /** How far the table has followed a rotation.  It is missed when the row, as read,
      is revoked or does not hold the old hash. */
  datatype Phase = Unread | Found | Missed | Written

  datatype Rotation = Rotation(request: nat, oldHash: Hash, newHash: Hash, phase: Phase)

  /** The row holds the token that was current after the first `taken` rotations. */
  datatype Row = Row(hash: Hash, revoked: bool, taken: nat)

  datatype State = State(members: set<Hash>, row: Row, requests: map<nat, Pc>, log: seq<Rotation>)

  datatype Event =
    | StartRefresh(id: nat, oldHash: Hash, newHash: Hash)
    | StartLogout(id: nat)
    | StartPortalRevocation(id: nat)
    | Step(id: nat)
    | KeyExpires

  /** A login has completed. */
  function Init(first: Hash): State {
    State({first}, Row(first, false, 0), map[], [])
  }

  function Started(s: State, id: nat, pc: Pc): State {
    if id in s.requests then s else s.(requests := s.requests[id := pc])
  }

  function Next(s: State, e: Event): State {
    match e
    case StartRefresh(id, o, n) => Started(s, id, RotateSrem(o, n))
    case StartLogout(id) => Started(s, id, RevokeDelete)
    case StartPortalRevocation(id) => Started(s, id, PortalRead)
    case Step(id) => if id in s.requests && WellPlaced(s, id) then Command(s, id) else s
    case KeyExpires => s.(members := {})
  }

  predicate WellPlaced(s: State, id: nat)
    requires id in s.requests
  {
    match s.requests[id]
    case RotateSadd(i) => i < |s.log|
    case ReadRow(i) => i < |s.log|
    case WriteRow(i) => i < |s.log|
    case _ => true
  }

  /** The rotation mints another token than the one it consumes.  Otherwise the hash
      it assigns is the one it read, and the update writes no hash. */
  predicate Changing(log: seq<Rotation>, i: nat)
    requires i < |log|
  {
    log[i].oldHash != log[i].newHash
  }

  function Command(s: State, id: nat): State
    requires id in s.requests && WellPlaced(s, id)
  {
    match s.requests[id]
    case RotateSrem(o, n) =>
      if o in s.members then
        s.(members := s.members - {o}, requests := s.requests[id := RotateSadd(|s.log|)],
           log := s.log + [Rotation(id, o, n, Unread)])
      else s.(requests := s.requests[id := RotateDelete])
    case RotateSadd(i) =>
      s.(members := s.members + {s.log[i].newHash}, requests := s.requests[id := ReadRow(i)])
    case ReadRow(i) =>
      if !s.row.revoked && s.row.hash == s.log[i].oldHash then
        s.(requests := s.requests[id := WriteRow(i)], log := s.log[i := s.log[i].(phase := Found)])
      else
        s.(requests := s.requests[id := Done], log := s.log[i := s.log[i].(phase := Missed)])
    case WriteRow(i) =>
      s.(row := if Changing(s.log, i) then s.row.(hash := s.log[i].newHash, taken := i + 1) else s.row,
         requests := s.requests[id := Done], log := s.log[i := s.log[i].(phase := Written)])
    case RotateDelete => s.(members := {}, requests := s.requests[id := Done])
    case PortalRead => s.(requests := s.requests[id := if s.row.revoked then Done else RevokeDelete])
    case RevokeDelete => s.(members := {}, requests := s.requests[id := CommitRevoke])
    case CommitRevoke => s.(row := s.row.(revoked := true), requests := s.requests[id := Done])
    case Done => s
  }

  function Run(s: State, events: seq<Event>): State
    decreases |events|
  {
    if events == [] then s else Run(Next(s, events[0]), events[1..])
  }

  /** The current token after the first n rotations. */
  function Current(log: seq<Rotation>, n: nat, first: Hash): Hash
    requires n <= |log|
  {
    if n == 0 then first else log[n - 1].newHash
  }

  ghost predicate RenewingEvents(events: seq<Event>) {
    forall e | e in events && e.StartRefresh? :: FamilyInterleaving.Renews(e.oldHash, e.newHash)
  }

  /** Rotation i consumed the token that was current before it, and renewed it. */
  ghost predicate Linked(log: seq<Rotation>, first: Hash, i: nat)
    requires i < |log|
  {
    log[i].oldHash == Current(log, i, first) && FamilyInterleaving.Renews(log[i].oldHash, log[i].newHash)
  }

  /** Seconds of issue never fall, so a token is current again only if it stayed so. */
  lemma {:induction false} SameCurrentIff(log: seq<Rotation>, first: Hash, a: nat, b: nat)
    requires a <= b <= |log| && forall i | a <= i < b :: Linked(log, first, i)
    ensures FamilyInterleaving.Renews(Current(log, a, first), Current(log, b, first))
    ensures Current(log, a, first) == Current(log, b, first) <==> forall i | a <= i < b :: !Changing(log, i)
    decreases b
  {
    if a < b {
      assert Linked(log, first, b - 1);
      SameCurrentIff(log, first, a, b - 1);
      if Current(log, a, first) == Current(log, b, first) {
        RenewedBack(Current(log, b - 1, first), Current(log, b, first));
      }
      assert (forall i | a <= i < b :: !Changing(log, i))
        <==> (forall i | a <= i < b - 1 :: !Changing(log, i)) && !Changing(log, b - 1);
    }
  }

  lemma RenewedBack(o: Hash, n: Hash)
    requires FamilyInterleaving.Renews(o, n) && FamilyInterleaving.Renews(n, o)
    ensures o == n
  {
  }

  // ---- Invariant ----------------------------------------------------------

  /** Rotation i, its request and its phase belong together. */
  ghost predicate Placed(s: State, first: Hash, i: nat)
    requires i < |s.log|
  {
    var r := s.log[i];
    && Linked(s.log, first, i)
    && r.request in s.requests
    && match r.phase
       case Unread => s.requests[r.request] == RotateSadd(i) || s.requests[r.request] == ReadRow(i)
       case Found => s.requests[r.request] == WriteRow(i)
       case _ => s.requests[r.request] == Done
  }

  /** A request that points into the log is the one logged there; one that has yet to
      rotate renews its token. */
  ghost predicate Points(s: State, id: nat)
    requires id in s.requests
  {
    match s.requests[id]
    case RotateSrem(o, n) => FamilyInterleaving.Renews(o, n)
    case RotateSadd(i) => i == |s.log| - 1 && s.log[i].request == id && s.log[i].phase == Unread && s.members == {}
    case ReadRow(i) => i < |s.log| && s.log[i].request == id && s.log[i].phase == Unread
    case WriteRow(i) => i < |s.log| && s.log[i].request == id && s.log[i].phase == Found
    case _ => true
  }

  /** Of the rotations that change the token, the row has taken over exactly those
      before `taken`, and a found one is the next of them. */
  ghost predicate Follows(s: State, first: Hash) {
    && s.row.taken <= |s.log| && s.row.hash == Current(s.log, s.row.taken, first)
    && forall i | 0 <= i < |s.log| && Changing(s.log, i) :: Followed(s.log, s.row.taken, i)
  }

  ghost predicate Followed(log: seq<Rotation>, taken: nat, i: nat)
    requires i < |log|
  {
    && (log[i].phase == Written <==> i < taken)
    && (log[i].phase == Found ==> forall j | taken <= j < i :: !Changing(log, j))
  }

  ghost predicate Inv(s: State, first: Hash) {
    && s.members <= {Current(s.log, |s.log|, first)}
    && (forall i | 0 <= i < |s.log| :: Placed(s, first, i))
    && (forall id | id in s.requests :: Points(s, id))
    && Follows(s, first)
  }

  /** Changing one entry's phase changes no token. */
  lemma SameTokens(log: seq<Rotation>, i: nat, phase: Phase, first: Hash, n: nat)
    requires i < |log| && n <= |log|
    ensures Current(log[i := log[i].(phase := phase)], n, first) == Current(log, n, first)
  {
  }

  lemma SremKeepsInv(s: State, id: nat, first: Hash)
    requires Inv(s, first) && id in s.requests && s.requests[id].RotateSrem?
    ensures Inv(Command(s, id), first)
  {
    var t := Command(s, id);
    if s.requests[id].oldHash in s.members {
      forall n | 0 <= n <= |s.log| ensures Current(t.log, n, first) == Current(s.log, n, first) {
      }
      forall i | 0 <= i < |t.log| && Changing(t.log, i) ensures Followed(t.log, t.row.taken, i) {
        assert i < |s.log| ==> Changing(s.log, i) && Followed(s.log, s.row.taken, i);
        assert forall j | 0 <= j < |s.log| :: Changing(t.log, j) == Changing(s.log, j);
      }
      forall i | 0 <= i < |t.log| ensures Placed(t, first, i) {
        assert i < |s.log| ==> Placed(s, first, i);
      }
      forall k | k in t.requests ensures Points(t, k) {
        assert Points(s, k);
      }
    } else {
      OtherKeepsInv(s, t, id, first);
    }
  }

  /** Steps that touch neither the log nor the row, and add no member. */
  lemma OtherKeepsInv(s: State, t: State, id: nat, first: Hash)
    requires Inv(s, first) && t.log == s.log && t.members <= s.members
    requires t.row == s.row.(revoked := t.row.revoked)
    requires id in t.requests && t.requests == s.requests[id := t.requests[id]]
    requires t.requests[id].RotateSrem? ==> Points(t, id)
    requires id in s.requests ==> !s.requests[id].RotateSadd? && !s.requests[id].ReadRow? && !s.requests[id].WriteRow?
    requires id in s.requests && s.requests[id].Done? ==> t.requests[id].Done?
    requires !t.requests[id].RotateSadd? && !t.requests[id].ReadRow? && !t.requests[id].WriteRow?
    ensures Inv(t, first)
  {
    forall i | 0 <= i < |t.log| ensures Placed(t, first, i) {
      assert Placed(s, first, i);
    }
    forall k | k in t.requests ensures Points(t, k) {
      assert k in s.requests ==> Points(s, k);
    }
  }

  lemma SaddKeepsInv(s: State, id: nat, first: Hash)
    requires Inv(s, first) && id in s.requests && s.requests[id].RotateSadd?
    ensures WellPlaced(s, id) && Inv(Command(s, id), first)
  {
    assert Points(s, id);
    var t := Command(s, id);
    forall i | 0 <= i < |t.log| ensures Placed(t, first, i) {
      assert Placed(s, first, i);
    }
    forall k | k in t.requests ensures Points(t, k) {
      assert Points(s, k);
    }
  }

  lemma SameLinks(log: seq<Rotation>, j: nat, phase: Phase, first: Hash, i: nat)
    requires j < |log| && i < |log|
    ensures var after := log[j := log[j].(phase := phase)];
      (Linked(after, first, i) <==> Linked(log, first, i)) && (Changing(after, i) <==> Changing(log, i))
  {
    SameTokens(log, j, phase, first, i);
  }

  /** The read finds the row exactly when it is not revoked and the rotations since
      the last one taken over changed nothing. */
  lemma ReadFollows(s: State, id: nat, first: Hash)
    requires Inv(s, first) && id in s.requests && s.requests[id].ReadRow?
    ensures WellPlaced(s, id) && Follows(Command(s, id), first)
  {
    assert Points(s, id);
    var t, j := Command(s, id), s.requests[id].i;
    forall i | 0 <= i < |s.log| ensures Linked(s.log, first, i) && (Changing(t.log, i) <==> Changing(s.log, i)) {
      assert Placed(s, first, i);
      SameLinks(s.log, j, t.log[j].phase, first, i);
    }
    SameTokens(s.log, j, t.log[j].phase, first, s.row.taken);
    if Changing(s.log, j) {
      assert Followed(s.log, s.row.taken, j);
      SameCurrentIff(s.log, first, s.row.taken, j);
    }
    forall i | 0 <= i < |t.log| && Changing(t.log, i) ensures Followed(t.log, t.row.taken, i) {
      assert Followed(s.log, s.row.taken, i);
    }
  }

  lemma WriteFollows(s: State, id: nat, first: Hash)
    requires Inv(s, first) && id in s.requests && s.requests[id].WriteRow?
    ensures WellPlaced(s, id) && Follows(Command(s, id), first)
  {
    assert Points(s, id);
    var t, j := Command(s, id), s.requests[id].i;
    forall i | 0 <= i < |s.log| ensures Changing(t.log, i) <==> Changing(s.log, i) {
      SameLinks(s.log, j, Written, first, i);
    }
    SameTokens(s.log, j, Written, first, t.row.taken);
    if Changing(s.log, j) {
      assert Followed(s.log, s.row.taken, j);
    }
    forall i | 0 <= i < |t.log| && Changing(t.log, i) ensures Followed(t.log, t.row.taken, i) {
      assert Followed(s.log, s.row.taken, i);
    }
  }

  lemma RowStepPlaced(s: State, id: nat, first: Hash, i: nat)
    requires Inv(s, first) && id in s.requests && (s.requests[id].ReadRow? || s.requests[id].WriteRow?)
    requires i < |s.log|
    ensures WellPlaced(s, id) && |Command(s, id).log| == |s.log| && Placed(Command(s, id), first, i)
  {
    assert Points(s, id) && Placed(s, first, i) && Placed(s, first, s.requests[id].i);
    SameLinks(s.log, s.requests[id].i, Command(s, id).log[s.requests[id].i].phase, first, i);
  }

  /** The read and the commit of one rotation. */
  lemma RowStepKeepsInv(s: State, id: nat, first: Hash)
    requires Inv(s, first) && id in s.requests && (s.requests[id].ReadRow? || s.requests[id].WriteRow?)
    ensures WellPlaced(s, id) && Inv(Command(s, id), first)
  {
    assert Points(s, id);
    var t, j := Command(s, id), s.requests[id].i;
    SameTokens(s.log, j, t.log[j].phase, first, |s.log|);
    forall i | 0 <= i < |t.log| ensures Placed(t, first, i) {
      RowStepPlaced(s, id, first, i);
    }
    forall k | k in t.requests ensures Points(t, k) {
      assert Points(s, k);
    }
    if s.requests[id].ReadRow? {
      ReadFollows(s, id, first);
    } else {
      WriteFollows(s, id, first);
    }
  }

  lemma NextKeepsInv(s: State, e: Event, first: Hash)
    requires Inv(s, first) && (e.StartRefresh? ==> FamilyInterleaving.Renews(e.oldHash, e.newHash))
    ensures Inv(Next(s, e), first)
  {
    var t := Next(s, e);
    match e
    case Step(id) =>
      if id in s.requests && WellPlaced(s, id) {
        match s.requests[id] {
          case RotateSrem(_, _) => SremKeepsInv(s, id, first);
          case RotateSadd(_) => SaddKeepsInv(s, id, first);
          case ReadRow(_) => RowStepKeepsInv(s, id, first);
          case WriteRow(_) => RowStepKeepsInv(s, id, first);
          case _ => OtherKeepsInv(s, t, id, first);
        }
      }
    case KeyExpires =>
      forall i | 0 <= i < |t.log| ensures Placed(t, first, i) {
        assert Placed(s, first, i);
      }
      forall k | k in t.requests ensures Points(t, k) {
        assert Points(s, k);
      }
    case _ =>
      if e.id !in s.requests {
        OtherKeepsInv(s, t, e.id, first);
      }
  }

  lemma {:induction false} RunKeepsInv(s: State, events: seq<Event>, first: Hash)
    requires Inv(s, first) && RenewingEvents(events)
    ensures Inv(Run(s, events), first)
    decreases |events|
  {
    if events != [] {
      assert events[0] in events;
      NextKeepsInv(s, events[0], first);
      RunKeepsInv(Next(s, events[0]), events[1..], first);
    }
  }

  // ---- What survives ------------------------------------------------------

  ghost predicate Quiet(s: State) {
    forall id | id in s.requests :: s.requests[id].Done?
  }

  /** The accepted hash, if any, is held by the unrevoked row. */
  ghost predicate Agree(s: State) {
    forall h | h in s.members :: h == s.row.hash && !s.row.revoked
  }

  /** Every rotation that changed the token found the row. */
  ghost predicate NoneLost(log: seq<Rotation>) {
    forall i | 0 <= i < |log| && Changing(log, i) :: log[i].phase != Missed
  }

  /** When every request has ended, the two stores agree exactly when Redis accepts
      nothing, or the row is not revoked and no rotation that changed the token read
      the row before the change preceding it was committed. */
  lemma QuietAgreesIff(first: Hash, events: seq<Event>)
    requires RenewingEvents(events) && Quiet(Run(Init(first), events))
    ensures var s := Run(Init(first), events);
      Agree(s) <==> s.members == {} || (!s.row.revoked && NoneLost(s.log))
  {
    RunKeepsInv(Init(first), events, first);
    var s := Run(Init(first), events);
    forall i | 0 <= i < |s.log| ensures Linked(s.log, first, i) && (s.log[i].phase == Written || s.log[i].phase == Missed) {
      assert Placed(s, first, i);
    }
    SameCurrentIff(s.log, first, s.row.taken, |s.log|);
    forall i | 0 <= i < |s.log| && Changing(s.log, i) ensures s.log[i].phase == Missed <==> i >= s.row.taken {
      assert Followed(s.log, s.row.taken, i);
    }
    if h :| h in s.members {
      assert h == Current(s.log, |s.log|, first);
    }
  }

  lemma {:induction false} RevokedStays(s: State, events: seq<Event>)
    requires s.row.revoked
    ensures Run(s, events).row.revoked
    decreases |events|
  {
    if events != [] {
      RevokedStays(Next(s, events[0]), events[1..]);
    }
  }

  /** Once a revocation has committed, the stores agree in the end exactly when Redis
      accepts nothing. */
  lemma AfterRevocationAgreesIff(first: Hash, before: seq<Event>, after: seq<Event>)
    requires RenewingEvents(before + after) && Quiet(Run(Init(first), before + after))
    requires Run(Init(first), before).row.revoked
    ensures var s := Run(Init(first), before + after); Agree(s) <==> s.members == {}
  {
    RunAppend(Init(first), before, after);
    RevokedStays(Run(Init(first), before), after);
    QuietAgreesIff(first, before + after);
  }

  lemma {:induction false} RunAppend(s: State, a: seq<Event>, b: seq<Event>)
    ensures Run(s, a + b) == Run(Run(s, a), b)
    decreases |a|
  {
    if a == [] {
      assert a + b == b;
    } else {
      assert (a + b)[0] == a[0] && (a + b)[1..] == a[1..] + b;
      RunAppend(Next(s, a[0]), a[1..], b);
    }
  }

  lemma RunStep(s: State, events: seq<Event>, e: Event)
    ensures Run(s, events + [e]) == Next(Run(s, events), e)
  {
    RunAppend(s, events, [e]);
    assert Run(Next(Run(s, events), e), [e][1..]) == Next(Run(s, events), e);
  }

  lemma RunFour(s: State, a: Event, b: Event, c: Event, d: Event)
    ensures Run(s, [a, b, c, d]) == Next(Next(Next(Next(s, a), b), c), d)
  {
    assert [a] + [b] == [a, b] && [a, b] + [c] == [a, b, c] && [a, b, c] + [d] == [a, b, c, d];
    assert [] + [a] == [a] && Run(s, []) == s;
    RunStep(s, [], a);
    RunStep(s, [a], b);
    RunStep(s, [a, b], c);
    RunStep(s, [a, b, c], d);
  }

  /** The first refresh has consumed the login's token. */
  lemma FirstRemoval(first: Hash, n: Hash)
    ensures Next(Next(Init(first), StartRefresh(1, first, n)), Step(1))
         == State({}, Row(first, false, 0), map[1 := RotateSadd(0)], [Rotation(1, first, n, Unread)])
  {
  }

  lemma LogoutBetween(first: Hash, n: Hash)
    ensures Run(Init(first), [StartRefresh(1, first, n), Step(1), StartLogout(2), Step(2)])
         == State({}, Row(first, false, 0), map[1 := RotateSadd(0), 2 := CommitRevoke], [Rotation(1, first, n, Unread)])
  {
    FirstRemoval(first, n);
    RunFour(Init(first), StartRefresh(1, first, n), Step(1), StartLogout(2), Step(2));
  }

  /** A logout between a refresh's two commands: in the end the row is revoked and
      Redis accepts the new token. */
  lemma LogoutLeavesToken(first: Hash, n: Hash) returns (events: seq<Event>)
    requires FamilyInterleaving.Renews(first, n)
    ensures RenewingEvents(events)
    ensures var s := Run(Init(first), events); Quiet(s) && s.row.revoked && s.members == {n} && !Agree(s)
  {
    var a := [StartRefresh(1, first, n), Step(1), StartLogout(2), Step(2)];
    var b := [Step(1), Step(1), Step(1), Step(2)];
    events := a + b;
    LogoutBetween(first, n);
    var t := Run(Init(first), a);
    var u := Next(Next(t, Step(1)), Step(1));
    assert u == State({n}, t.row, map[1 := WriteRow(0), 2 := CommitRevoke], [Rotation(1, first, n, Found)]);
    RunFour(t, Step(1), Step(1), Step(1), Step(2));
    RunAppend(Init(first), a, b);
  }

  lemma SecondStarts(first: Hash, n: Hash, m: Hash)
    ensures Run(Init(first), [StartRefresh(1, first, n), Step(1), Step(1), StartRefresh(2, n, m)])
         == State({n}, Row(first, false, 0), map[1 := ReadRow(0), 2 := RotateSrem(n, m)], [Rotation(1, first, n, Unread)])
  {
    FirstRemoval(first, n);
    RunFour(Init(first), StartRefresh(1, first, n), Step(1), Step(1), StartRefresh(2, n, m));
  }

  lemma SecondMisses(t: State, first: Hash, n: Hash, m: Hash)
    requires first != n
    requires t == State({n}, Row(first, false, 0), map[1 := ReadRow(0), 2 := RotateSrem(n, m)], [Rotation(1, first, n, Unread)])
    ensures Run(t, [Step(2), Step(2), Step(2), Step(1)])
         == State({m}, Row(first, false, 0), map[1 := WriteRow(0), 2 := Done],
                  [Rotation(1, first, n, Found), Rotation(2, n, m, Missed)])
  {
    var u := Next(Next(t, Step(2)), Step(2));
    assert u == State({m}, t.row, map[1 := ReadRow(0), 2 := ReadRow(1)],
                      [Rotation(1, first, n, Unread), Rotation(2, n, m, Unread)]);
    RunFour(t, Step(2), Step(2), Step(2), Step(1));
  }

  /** A second refresh before the first has committed: in the end Redis accepts the
      last token and the unrevoked row holds the one before it. */
  lemma EarlyRefreshIsLost(first: Hash, n: Hash, m: Hash) returns (events: seq<Event>)
    requires FamilyInterleaving.Renews(first, n) && FamilyInterleaving.Renews(n, m) && first != n && n != m
    ensures RenewingEvents(events)
    ensures var s := Run(Init(first), events);
      Quiet(s) && !s.row.revoked && s.row.hash == n && s.members == {m} && !Agree(s)
  {
    var a := [StartRefresh(1, first, n), Step(1), Step(1), StartRefresh(2, n, m)];
    var b := [Step(2), Step(2), Step(2), Step(1)];
    events := a + b + [Step(1)];
    SecondStarts(first, n, m);
    SecondMisses(Run(Init(first), a), first, n, m);
    RunAppend(Init(first), a, b);
    RunStep(Init(first), a + b, Step(1));
  }

  /** The event consumes a token although an earlier rotation is not committed. */
  predicate OutOfTurn(s: State, e: Event) {
    && e.Step? && e.id in s.requests && s.requests[e.id].RotateSrem? && s.requests[e.id].oldHash in s.members
    && exists i :: 0 <= i < |s.log| && s.log[i].phase != Written
  }

  ghost predicate InTurn(s: State, events: seq<Event>)
    decreases |events|
  {
    events == [] || (!OutOfTurn(s, events[0]) && InTurn(Next(s, events[0]), events[1..]))
  }

  /** All rotations but the last are committed, and a missed one was revoked. */
  ghost predicate TurnInv(s: State) {
    && (forall i | 0 <= i < |s.log| - 1 :: s.log[i].phase == Written)
    && ((exists i :: 0 <= i < |s.log| && s.log[i].phase == Missed) ==> s.row.revoked)
  }

  /** When all before the last are committed, the row holds what the last consumed. */
  lemma NothingSince(s: State, last: nat, first: Hash)
    requires Inv(s, first) && TurnInv(s) && last == |s.log| - 1 && s.log[last].phase == Unread
    ensures s.row.hash == s.log[last].oldHash
  {
    forall i | 0 <= i < |s.log| ensures Linked(s.log, first, i) {
      assert Placed(s, first, i);
    }
    forall i | 0 <= i < |s.log| && Changing(s.log, i) ensures i < last <==> i < s.row.taken {
      assert Followed(s.log, s.row.taken, i);
    }
    if s.row.taken <= last {
      assert forall i | s.row.taken <= i < last :: !Changing(s.log, i);
      SameCurrentIff(s.log, first, s.row.taken, last);
    } else {
      assert !Changing(s.log, last);
      SameCurrentIff(s.log, first, last, s.row.taken);
    }
    assert Linked(s.log, first, last);
  }

  lemma NextKeepsTurn(s: State, e: Event, first: Hash)
    requires Inv(s, first) && TurnInv(s) && !OutOfTurn(s, e)
    ensures TurnInv(Next(s, e))
  {
    if e.Step? && e.id in s.requests && WellPlaced(s, e.id) {
      assert Points(s, e.id);
      if s.requests[e.id].ReadRow? {
        var i := s.requests[e.id].i;
        assert Placed(s, first, i);
        assert i == |s.log| - 1;
        NothingSince(s, i, first);
      }
    }
  }

  lemma {:induction false} RunKeepsTurn(s: State, events: seq<Event>, first: Hash)
    requires Inv(s, first) && TurnInv(s) && InTurn(s, events) && RenewingEvents(events)
    ensures TurnInv(Run(s, events))
    decreases |events|
  {
    if events != [] {
      assert events[0] in events;
      NextKeepsInv(s, events[0], first);
      NextKeepsTurn(s, events[0], first);
      RunKeepsTurn(Next(s, events[0]), events[1..], first);
    }
  }

  /** If tokens are presented only after the refresh that issued them has committed,
      revocation alone decides: the stores agree in the end exactly when Redis
      accepts nothing or no revocation has committed. */
  lemma InTurnAgreesIff(first: Hash, events: seq<Event>)
    requires RenewingEvents(events) && Quiet(Run(Init(first), events)) && InTurn(Init(first), events)
    ensures var s := Run(Init(first), events); Agree(s) <==> s.members == {} || !s.row.revoked
  {
    QuietAgreesIff(first, events);
    RunKeepsTurn(Init(first), events, first);
  }

  // ---- Requests without interference --------------------------------------

  lemma RunThree(s: State, a: Event, b: Event, c: Event)
    ensures Run(s, [a, b, c]) == Next(Next(Next(s, a), b), c)
  {
    assert [] + [a] == [a] && [a] + [b] == [a, b] && [a, b] + [c] == [a, b, c] && Run(s, []) == s;
    RunStep(s, [], a);
    RunStep(s, [a], b);
    RunStep(s, [a, b], c);
  }

  /** A logout run back to back leaves nothing accepted and the row revoked; expiry
      takes what is accepted and no more. */
  lemma UninterruptedLogout(s: State, id: nat)
    requires id !in s.requests
    ensures Next(s, KeyExpires) == s.(members := {})
    ensures var t := Run(s, [StartLogout(id), Step(id), Step(id)]);
      && t.members == {} && t.row == s.row.(revoked := true) && t.log == s.log && id in t.requests && t.requests[id].Done?
  {
    RunThree(s, StartLogout(id), Step(id), Step(id));
  }

  /** A portal revocation does the same, unless the row is revoked already. */
  lemma UninterruptedPortalRevocation(s: State, id: nat)
    requires id !in s.requests
    ensures var t := Run(s, [StartPortalRevocation(id), Step(id), Step(id), Step(id)]);
      && t.row == s.row.(revoked := true) && t.members == (if s.row.revoked then s.members else {})
      && t.log == s.log && id in t.requests && t.requests[id].Done?
  {
    RunFour(s, StartPortalRevocation(id), Step(id), Step(id), Step(id));
  }

  /** A refresh run back to back moves both stores to the new token; of a token that is
      not accepted it empties the family and leaves the row. */
  lemma UninterruptedRefresh(s: State, id: nat, o: Hash, n: Hash)
    requires id !in s.requests && s.members <= {o} && s.row.hash == o && !s.row.revoked
    ensures var t := Run(s, [StartRefresh(id, o, n), Step(id), Step(id), Step(id)] + [Step(id)]);
      && id in t.requests && t.requests[id].Done? && !t.row.revoked
      && t.members == (if o in s.members then {n} else {}) && t.row.hash == (if o in s.members then n else o)
  {
    var a := [StartRefresh(id, o, n), Step(id), Step(id), Step(id)];
    RunFour(s, StartRefresh(id, o, n), Step(id), Step(id), Step(id));
    RunStep(s, a, Step(id));
  }

  /** A token that is not accepted costs the family everything it accepts; the row
      stays, and no rotation is recorded. */
  lemma RefusedRefresh(s: State, id: nat, o: Hash, n: Hash)
    requires id !in s.requests && o !in s.members
    ensures var t := Run(s, [StartRefresh(id, o, n), Step(id), Step(id)]);
      && t == State({}, s.row, s.requests[id := Done], s.log)
  {
    RunThree(s, StartRefresh(id, o, n), Step(id), Step(id));
  }
}
