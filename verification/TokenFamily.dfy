/**
 Refresh tokens, the Redis sets that hold their families, and the service that
 rotates them (app/services/token_family.py over app/core/redis.py).
 */
module TokenFamily {

  /** A refresh token carries its user, its family and the second of issue. */
  datatype Token = Token(user: nat, family: nat, issuedAt: nat)

  /** SHA-256 taken as injective: a hash remembers its token. */
  datatype Hash = Hash(token: Token)

  type Sets = map<nat, set<Hash>>

  /** Redis does not tell an absent key from an empty set. */
  function Members(sets: Sets, family: nat): set<Hash> {
    if family in sets then sets[family] else {}
  }

  /** What one rotation makes of a family's members when nothing intervenes. */
  function Rotated(members: set<Hash>, oldHash: Hash, newHash: Hash): set<Hash> {
    if oldHash in members then members - {oldHash} + {newHash} else {}
  }

  function RotatedSets(sets: Sets, family: nat, oldHash: Hash, newHash: Hash): Sets {
    var members := Members(sets, family);
    if oldHash in members then sets[family := Rotated(members, oldHash, newHash)] else sets - {family}
  }

  class Redis {
    var sets: Sets

    constructor ()
      ensures sets == map[]
    {
      sets := map[];
    }

    method Sadd(key: nat, value: Hash) returns (added: nat)
      modifies this
      ensures sets == old(sets)[key := Members(old(sets), key) + {value}]
      ensures added == if value in Members(old(sets), key) then 0 else 1
    {
      if key !in sets {
        sets := sets[key := {}];
      }
      added := 0;
      if value !in sets[key] {
        sets := sets[key := sets[key] + {value}];
        added := 1;
      }
      assert sets[key] == Members(old(sets), key) + {value};
      assert sets == old(sets)[key := sets[key]];
    }

    method Srem(key: nat, value: Hash) returns (removed: nat)
      modifies this
      ensures removed == if value in Members(old(sets), key) then 1 else 0
      ensures sets == if removed == 0 then old(sets) else old(sets)[key := old(sets)[key] - {value}]
    {
      removed := 0;
      if key in sets && value in sets[key] {
        sets := sets[key := sets[key] - {value}];
        removed := 1;
      }
    }

    method Delete(key: nat) returns (deleted: nat)
      modifies this
      ensures sets == old(sets) - {key}
      ensures deleted == if key in old(sets) then 1 else 0
    {
      deleted := 0;
      if key in sets {
        sets := sets - {key};
        deleted := 1;
      }
    }
  }

  class TokenFamilyService {
    const redis: Redis

    constructor (redis: Redis)
      ensures this.redis == redis
    {
      this.redis := redis;
    }

    method Register(family: nat, token: Token)
      modifies redis
      ensures redis.sets == old(redis.sets)[family := Members(old(redis.sets), family) + {Hash(token)}]
    {
      var _ := redis.Sadd(family, Hash(token));
    }

    /** False reports a token that is not in its family; the family is then gone. */
    method ValidateAndRotate(family: nat, oldToken: Token, newToken: Token) returns (ok: bool)
      modifies redis
      ensures ok <==> Hash(oldToken) in Members(old(redis.sets), family)
      ensures redis.sets == RotatedSets(old(redis.sets), family, Hash(oldToken), Hash(newToken))
    {
      var removed := redis.Srem(family, Hash(oldToken));
      if removed == 0 {
        var _ := redis.Delete(family);
        return false;
      }
      var _ := redis.Sadd(family, Hash(newToken));
      return true;
    }

    method RevokeFamily(family: nat)
      modifies redis
      ensures redis.sets == old(redis.sets) - {family}
    {
      var _ := redis.Delete(family);
    }
  }
}

/**
 The same protocol with its requests interleaved: any number of refreshes,
 logouts and revocations of one family run at once, every Redis command is one
 step, and the key may expire between any two steps.
 */
module FamilyInterleaving {
  import opened TokenFamily

  /** Where a request stands: the Redis command it issues next. */
  datatype Pc =
    | RegisterSadd(first: Hash)
    | RotateSrem(oldHash: Hash, newHash: Hash)
    | RotateSadd(newHash: Hash)
    | RotateDelete
    | RevokeDelete
    | SetTtl
    | Done(ok: bool)

  /** One successful consumption: `request` removed `oldHash` and will add `newHash`. */
  datatype Rotation = Rotation(request: nat, oldHash: Hash, newHash: Hash)

  datatype State = State(
    members: set<Hash>,
    requests: map<nat, Pc>,
    log: seq<Rotation>)

  datatype Event =
    | StartRefresh(id: nat, oldHash: Hash, newHash: Hash)
    | StartRevoke(id: nat)
    | Step(id: nat)
    | KeyExpires

  /** A login has chosen a new family and is about to register its first token. */
  function Init(first: Hash): State {
    State({}, map[0 := RegisterSadd(first)], [])
  }

  function Next(s: State, e: Event): State {
    match e
    case StartRefresh(id, o, n) =>
      if id in s.requests then s else s.(requests := s.requests[id := RotateSrem(o, n)])
    case StartRevoke(id) =>
      if id in s.requests then s else s.(requests := s.requests[id := RevokeDelete])
    case Step(id) => if id in s.requests then Command(s, id) else s
    case KeyExpires => s.(members := {})
  }

  /** Executes the pending Redis command of one request. */
  function Command(s: State, id: nat): State
    requires id in s.requests
  {
    match s.requests[id]
    case RegisterSadd(h) =>
      s.(members := s.members + {h}, requests := s.requests[id := SetTtl])
    case RotateSrem(o, n) =>
      if o in s.members then
        s.(members := s.members - {o}, requests := s.requests[id := RotateSadd(n)],
           log := s.log + [Rotation(id, o, n)])
      else
        s.(requests := s.requests[id := RotateDelete])
    case RotateSadd(n) =>
      s.(members := s.members + {n}, requests := s.requests[id := SetTtl])
    case RotateDelete =>
      s.(members := {}, requests := s.requests[id := Done(false)])
    case RevokeDelete =>
      s.(members := {}, requests := s.requests[id := Done(true)])
    case SetTtl => s.(requests := s.requests[id := Done(true)])
    case Done(_) => s
  }

  function Run(s: State, events: seq<Event>): State
    decreases |events|
  {
    if events == [] then s else Run(Next(s, events[0]), events[1..])
  }

  /** The requests whose next command adds a token to the family. */
  function Adders(s: State): set<nat> {
    set id | id in s.requests && (s.requests[id].RegisterSadd? || s.requests[id].RotateSadd?)
  }

  /** The token that the last successful rotation issued. */
  function Newest(s: State, first: Hash): Hash {
    if s.log == [] then first else s.log[|s.log| - 1].newHash
  }

  /** The token that was current before the i-th successful rotation. */
  function Before(log: seq<Rotation>, i: nat, first: Hash): Hash
    requires i < |log|
  {
    if i == 0 then first else log[i - 1].newHash
  }

  ghost predicate Chain(log: seq<Rotation>, first: Hash) {
    forall i | 0 <= i < |log| :: log[i].oldHash == Before(log, i, first)
  }

  /** A request about to add is alone and sees an empty family; otherwise the
      family has at most one member. */
  ghost predicate OneHolder(s: State) {
    && (forall h, k | h in s.members && k in s.members :: h == k)
    && (forall i, j | IsAdder(s, i) && IsAdder(s, j) :: i == j)
    && (forall h, i | h in s.members :: !IsAdder(s, i))
  }

  ghost predicate IsAdder(s: State, id: nat) {
    id in s.requests && (s.requests[id].RegisterSadd? || s.requests[id].RotateSadd?)
  }

  /** What a request that is about to add a token has already done. */
  ghost predicate AdderIsNewest(s: State, first: Hash, id: nat)
    requires id in s.requests
  {
    match s.requests[id]
    case RegisterSadd(h) => h == first && s.log == []
    case RotateSadd(n) => n == Newest(s, first) && s.log != []
    case _ => true
  }

  ghost predicate ChainInv(s: State, first: Hash) {
    && s.members <= {Newest(s, first)}
    && Chain(s.log, first)
    && (forall id | id in s.requests :: AdderIsNewest(s, first, id))
  }

  /** What `create_refresh_token` makes of the token presented: the same user and
      family, and a second of issue that is not earlier. */
  predicate Renews(o: Hash, n: Hash) {
    && n.token.user == o.token.user && n.token.family == o.token.family
    && o.token.issuedAt <= n.token.issuedAt
  }

  ghost predicate RenewingEvents(events: seq<Event>) {
    forall e | e in events && e.StartRefresh? :: Renews(e.oldHash, e.newHash)
  }

  /** Every refresh under way, and every one that has rotated, renews its token. */
  ghost predicate AllRenew(s: State) {
    && (forall id | id in s.requests && s.requests[id].RotateSrem? ::
          Renews(s.requests[id].oldHash, s.requests[id].newHash))
    && (forall i | 0 <= i < |s.log| :: Renews(s.log[i].oldHash, s.log[i].newHash))
  }

  ghost predicate Inv(s: State, first: Hash) {
    OneHolder(s) && ChainInv(s, first)
  }

  lemma InitInv(first: Hash)
    ensures Inv(Init(first), first)
  {
  }

  /** A step of one request moves no other request in or out of the adders. */
  lemma StepKeepsOneHolder(s: State, id: nat)
    requires OneHolder(s) && id in s.requests
    ensures OneHolder(Command(s, id))
  {
    var t := Command(s, id);
    assert forall i | i != id :: IsAdder(t, i) == IsAdder(s, i);
    if IsAdder(s, id) {
      assert !IsAdder(t, id) && s.members == {};
    } else if s.requests[id].RotateSrem? && s.requests[id].oldHash in s.members {
      assert forall i :: !IsAdder(s, i);
      assert t.members == {};
    } else {
      assert !IsAdder(t, id);
    }
  }

  lemma NextKeepsOneHolder(s: State, e: Event)
    requires OneHolder(s)
    ensures OneHolder(Next(s, e))
  {
    if e.Step? && e.id in s.requests {
      StepKeepsOneHolder(s, e.id);
    } else {
      assert forall i :: IsAdder(Next(s, e), i) == IsAdder(s, i);
    }
  }

  lemma OneHolderCounts(s: State)
    requires OneHolder(s)
    ensures |s.members| + |Adders(s)| <= 1
  {
    if h :| h in s.members {
      assert s.members == {h};
      if i :| i in Adders(s) {
        assert IsAdder(s, i);
      }
    } else if i :| i in Adders(s) {
      assert IsAdder(s, i);
      forall j | j in Adders(s) ensures j == i {
        assert IsAdder(s, j);
      }
      assert Adders(s) == {i};
    }
  }

  lemma StepKeepsChain(s: State, id: nat, first: Hash)
    requires OneHolder(s) && ChainInv(s, first) && id in s.requests
    ensures ChainInv(Command(s, id), first)
  {
    var t := Command(s, id);
    assert AdderIsNewest(s, first, id);
    if s.requests[id].RotateSrem? && s.requests[id].oldHash in s.members {
      RemovalExtendsChain(s, id, first);
    } else {
      forall k | k in t.requests ensures AdderIsNewest(t, first, k) {
        assert AdderIsNewest(s, first, k);
      }
    }
  }

  lemma RemovalExtendsChain(s: State, id: nat, first: Hash)
    requires OneHolder(s) && ChainInv(s, first)
    requires id in s.requests && s.requests[id].RotateSrem? && s.requests[id].oldHash in s.members
    ensures ChainInv(Command(s, id), first)
  {
    var t := Command(s, id);
    assert t.log[|s.log|].oldHash == Newest(s, first);
    forall i | 0 <= i < |t.log| ensures t.log[i].oldHash == Before(t.log, i, first) {
      assert i < |s.log| ==> s.log[i].oldHash == Before(s.log, i, first);
    }
    forall k | k in t.requests ensures AdderIsNewest(t, first, k) {
      assert !IsAdder(s, k);
    }
    assert t.members == {};
  }

  lemma NextKeepsChain(s: State, e: Event, first: Hash)
    requires OneHolder(s) && ChainInv(s, first)
    ensures ChainInv(Next(s, e), first)
  {
    if e.Step? && e.id in s.requests {
      StepKeepsChain(s, e.id, first);
    } else {
      var t := Next(s, e);
      forall k | k in t.requests ensures AdderIsNewest(t, first, k) {
        assert k in s.requests ==> AdderIsNewest(s, first, k);
      }
    }
  }

  lemma {:induction false} RunInv(s: State, events: seq<Event>, first: Hash)
    requires Inv(s, first)
    ensures Inv(Run(s, events), first)
    decreases |events|
  {
    if events != [] {
      NextKeepsOneHolder(s, events[0]);
      NextKeepsChain(s, events[0], first);
      RunInv(Next(s, events[0]), events[1..], first);
    }
  }

  /** In every interleaving at most one token is accepted or about to be added. */
  lemma AtMostOneLiveToken(first: Hash, events: seq<Event>)
    ensures var s := Run(Init(first), events);
            |s.members| + |Adders(s)| <= 1 && s.members <= {Newest(s, first)}
  {
    InitInv(first);
    RunInv(Init(first), events, first);
    OneHolderCounts(Run(Init(first), events));
  }

  /** Successful rotations form one chain that starts at the login's token; this
      needs no assumption on the new tokens. */
  lemma RotationsFormOneChain(first: Hash, events: seq<Event>)
    ensures Chain(Run(Init(first), events).log, first)
  {
    InitInv(first);
    RunInv(Init(first), events, first);
  }

  lemma {:induction false} RunRenews(s: State, events: seq<Event>)
    requires AllRenew(s)
    requires RenewingEvents(events)
    ensures AllRenew(Run(s, events))
    decreases |events|
  {
    if events != [] {
      assert events[0] in events;
      RunRenews(Next(s, events[0]), events[1..]);
    }
  }

  ghost predicate NoneTwice(log: seq<Rotation>) {
    forall i, j | 0 <= i < j < |log| :: log[i].oldHash != log[j].oldHash
  }

  /** Every rotation but the last took place in a later second than the one in which
      the token it consumed was issued. */
  ghost predicate SecondsApart(log: seq<Rotation>) {
    forall i | 0 <= i < |log| - 1 :: log[i].oldHash.token.issuedAt < log[i].newHash.token.issuedAt
  }

  function IssuedAt(log: seq<Rotation>, i: nat): nat
    requires i < |log|
  {
    log[i].oldHash.token.issuedAt
  }

  lemma {:induction false} IssueTimesRise(log: seq<Rotation>, i: nat, j: nat)
    requires forall k | 0 <= k < |log| - 1 :: IssuedAt(log, k) < IssuedAt(log, k + 1)
    requires i < j < |log|
    ensures IssuedAt(log, i) < IssuedAt(log, j)
    decreases j
  {
    assert IssuedAt(log, j - 1) < IssuedAt(log, j - 1 + 1);
    if i < j - 1 {
      IssueTimesRise(log, i, j - 1);
    }
  }

  /** No token is consumed twice exactly when no rotation but the last takes place in
      the second of issue of the token it consumes.  Refreshes that never rotate do
      not matter, nor how many of them mint the same token. */
  lemma ConsumedOnceIff(first: Hash, events: seq<Event>)
    requires RenewingEvents(events)
    ensures var log := Run(Init(first), events).log; NoneTwice(log) <==> SecondsApart(log)
  {
    RotationsFormOneChain(first, events);
    RunRenews(Init(first), events);
    var log := Run(Init(first), events).log;
    if SecondsApart(log) {
      forall k | 0 <= k < |log| - 1 ensures IssuedAt(log, k) < IssuedAt(log, k + 1) {
        assert log[k + 1].oldHash == Before(log, k + 1, first);
      }
      forall i, j | 0 <= i < j < |log| ensures log[i].oldHash != log[j].oldHash {
        IssueTimesRise(log, i, j);
      }
    } else {
      var i :| 0 <= i < |log| - 1 && log[i].oldHash.token.issuedAt >= log[i].newHash.token.issuedAt;
      assert Renews(log[i].oldHash, log[i].newHash);
      assert log[i + 1].oldHash == Before(log, i + 1, first) == log[i].oldHash;
    }
  }

  /** The condition does fail: a refresh within the second of the login mints the
      login's own token, which is then consumed twice. */
  lemma SameSecondTokenIsConsumedTwice(first: Hash)
    ensures exists events :: RenewingEvents(events) && !NoneTwice(Run(Init(first), events).log)
  {
    var events := [Step(0), StartRefresh(1, first, first), Step(1), Step(1),
                   StartRefresh(2, first, first), Step(2)];
    var s1 := Next(Init(first), Step(0));
    var s2 := Next(Next(s1, StartRefresh(1, first, first)), Step(1));
    var s3 := Next(s2, Step(1));
    var s4 := Next(Next(s3, StartRefresh(2, first, first)), Step(2));
    assert s2.log == [Rotation(1, first, first)];
    assert s3.members == {first};
    assert s4.log == [Rotation(1, first, first), Rotation(2, first, first)];
    RunSix(Init(first), events);
    assert Run(Init(first), events) == s4;
    assert s4.log[0].oldHash == s4.log[1].oldHash;
  }

  lemma RunOne(s: State, e: Event)
    ensures Run(s, [e]) == Next(s, e)
  {
    assert Run(Next(s, e), [e][1..]) == Next(s, e);
  }

  lemma RunThree(s: State, a: Event, b: Event, c: Event)
    ensures Run(s, [a, b, c]) == Next(Next(Next(s, a), b), c)
  {
    RunOne(Next(Next(s, a), b), c);
    assert [a, b, c][1..] == [b, c] && [b, c][1..] == [c];
  }

  lemma RunSix(s: State, es: seq<Event>)
    requires |es| == 6
    ensures Run(s, es) == Next(Next(Next(Next(Next(Next(s, es[0]), es[1]), es[2]), es[3]), es[4]), es[5])
  {
    var a, b := [es[0], es[1], es[2]], [es[3], es[4], es[5]];
    assert es == a + b;
    RunAppend(s, a, b);
    RunThree(s, es[0], es[1], es[2]);
    RunThree(Run(s, a), es[3], es[4], es[5]);
  }

  /** Nothing accepted and nothing about to be added. */
  ghost predicate Dead(s: State) {
    s.members == {} && forall id :: !IsAdder(s, id)
  }

  lemma DeadNext(s: State, e: Event)
    requires Dead(s)
    ensures Dead(Next(s, e)) && Next(s, e).log == s.log
  {
    assert e.Step? ==> !IsAdder(s, e.id);
    forall id ensures !IsAdder(Next(s, e), id) {
      assert !IsAdder(s, id);
    }
  }

  lemma {:induction false} DeadForever(s: State, events: seq<Event>)
    requires Dead(s)
    ensures Dead(Run(s, events)) && Run(s, events).log == s.log
    decreases |events|
  {
    if events != [] {
      DeadNext(s, events[0]);
      DeadForever(Next(s, events[0]), events[1..]);
    }
  }

  /** A revocation is final exactly when it leaves no request between its removal
      and its addition: otherwise that request's addition brings the deleted
      family back, and its token can be rotated again. */
  lemma RevocationIsFinalIff(s: State)
    ensures (forall events :: Run(s, events).log == s.log) <==> Dead(s)
  {
    if Dead(s) {
      forall events ensures Run(s, events).log == s.log {
        DeadForever(s, events);
      }
    } else {
      var t, prefix := s, [];
      if s.members == {} {
        var id :| IsAdder(s, id);
        t, prefix := Next(s, Step(id)), [Step(id)];
        RunOne(s, Step(id));
      }
      var h :| h in t.members;
      var id := UnusedId(t.requests.Keys);
      assert id !in t.requests.Keys;
      var suffix := [StartRefresh(id, h, h), Step(id)];
      RunOne(Next(t, suffix[0]), Step(id));
      assert suffix[1..] == [Step(id)];
      assert |Run(t, suffix).log| == |s.log| + 1;
      RunAppend(s, prefix, suffix);
      assert Run(s, prefix + suffix).log != s.log;
    }
  }

  /** Such a state is reached: a refresh is between its two commands when a
      revocation completes, and its token is accepted afterwards. */
  lemma RotationOutlivesRevocation(first: Hash, newHash: Hash)
    ensures exists events :: var s := Run(Init(first), events);
      2 in s.requests && s.requests[2] == Done(true) && s.members == {newHash}
  {
    var events := [Step(0), StartRefresh(1, first, newHash), Step(1), StartRevoke(2), Step(2), Step(1)];
    var s1 := Next(Next(Init(first), Step(0)), StartRefresh(1, first, newHash));
    var s2 := Next(Next(s1, Step(1)), StartRevoke(2));
    var s3 := Next(s2, Step(2));
    assert s2.members == {} && s2.requests[2] == RevokeDelete;
    assert s3.requests[1] == RotateSadd(newHash) && s3.requests[2] == Done(true);
    assert Next(s3, Step(1)).members == {newHash};
    RunSix(Init(first), events);
  }

  lemma {:induction false} RunAppend(s: State, a: seq<Event>, b: seq<Event>)
    ensures Run(s, a + b) == Run(Run(s, a), b)
    decreases |a|
  {
    if a == [] {
      assert a + b == b;
    } else {
      assert (a + b)[0] == a[0] && (a + b)[1..] == a[1..] + b;
      RunAppend(Next(s, a[0]), a[1..], b);
    }
  }

  lemma {:induction false} UnusedId(used: set<nat>) returns (id: nat)
    ensures forall k | k in used :: k < id
  {
    if used == {} {
      id := 0;
    } else {
      var k :| k in used;
      var rest := UnusedId(used - {k});
      id := if rest <= k then k + 1 else rest;
      forall j | j in used ensures j < id {
        assert j != k ==> j in used - {k};
      }
    }
  }

  /** A refresh whose commands run back to back does what the service promises. */
  lemma UninterruptedRefresh(s: State, id: nat, o: Hash, n: Hash)
    requires id !in s.requests
    ensures var t := Run(s, [StartRefresh(id, o, n), Step(id), Step(id), Step(id)]);
            t.members == Rotated(s.members, o, n) && id in t.requests && t.requests[id] == Done(o in s.members)
  {
    var a := StartRefresh(id, o, n);
    RunThree(Next(s, a), Step(id), Step(id), Step(id));
    assert [a, Step(id), Step(id), Step(id)][1..] == [Step(id), Step(id), Step(id)];
  }

  /** A revocation that starts ends with an empty family, whatever it held; so does
      the expiry of the key. */
  lemma UninterruptedRevocation(s: State, id: nat)
    requires id !in s.requests
    ensures Next(s, KeyExpires) == s.(members := {})
    ensures var t := Run(s, [StartRevoke(id), Step(id)]);
      t.members == {} && t.log == s.log && id in t.requests && t.requests[id] == Done(true)
  {
    assert [StartRevoke(id), Step(id)][1..] == [Step(id)];
    RunOne(Next(s, StartRevoke(id)), Step(id));
  }
}
