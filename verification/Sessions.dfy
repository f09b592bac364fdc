/** The provider session store (ansible_issuer/go/internal/provider/memory_session_store.go).

    `Step` specifies one call at one clock reading; `MemorySessionStore` is the source's object.
    Runs are lists of timed calls. */
module Sessions {
  import opened Wrappers

  type Time = int

  datatype AuthSession = AuthSession(offerId: string, did: string, email: string, state: string,
                                     commitment: string, expiresAt: Time, consumed: bool)
  datatype VerifiedSession = VerifiedSession(offerId: string, did: string, email: string, commitment: string,
                                             verifiedAt: Time, expiresAt: Time, consumed: bool)

  datatype Store = Store(auth: map<string, AuthSession>, verified: map<string, VerifiedSession>,
                         replay: map<string, Time>)

  datatype Op =
    | CreateAuth(session: AuthSession)
    | ConsumeAuth(state: string, replayId: string)
    | MarkReplay(replayId: string, expiresAt: Time)
    | StoreVerified(verified: VerifiedSession)
    | GetVerified(offerId: string)
    | ConsumeVerified(offerId: string)
    | Cleanup(retention: int)

  datatype Error = MissingField | Replayed | StateNotFound | ExpiredState | VerifiedNotFound
  datatype Reply = Done | Auth(session: AuthSession) | Verified(verified: VerifiedSession) | Failed(error: Error)

  // --------------------------------------------------------------------------- one call

  function ReplayKey(state: string, replayId: string): string {
    if replayId == "" then state else replayId
  }

  predicate SeenReplay(s: Store, id: string, now: Time) {
    id in s.replay && s.replay[id] > now
  }

  function StepConsumeAuth(s: Store, state: string, replayId: string, now: Time): (Store, Reply) {
    var id := ReplayKey(state, replayId);
    if id != "" && SeenReplay(s, id, now) then (s, Failed(Replayed))
    else if state !in s.auth then (s, Failed(StateNotFound))
    else if s.auth[state].consumed then (s, Failed(Replayed))
    else if s.auth[state].expiresAt <= now then (s, Failed(ExpiredState))
    else
      var session := s.auth[state].(consumed := true);
      (s.(auth := s.auth[state := session],
          replay := if id != "" then s.replay[id := session.expiresAt] else s.replay),
       Auth(session))
  }

  predicate LiveVerified(s: Store, offerId: string, now: Time) {
    offerId in s.verified && !s.verified[offerId].consumed && s.verified[offerId].expiresAt > now
  }

  /** `expiredBeyondRetention`: a negative retention counts as zero. */
  predicate Stale(expiresAt: Time, retention: int, now: Time) {
    expiresAt + (if retention < 0 then 0 else retention) <= now
  }

  function Kept<V>(m: map<string, V>, expiry: V -> Time, retention: int, now: Time): map<string, V> {
    map k | k in m && !Stale(expiry(m[k]), retention, now) :: m[k]
  }

  function AuthExpiry(v: AuthSession): Time { v.expiresAt }
  function VerifiedExpiry(v: VerifiedSession): Time { v.expiresAt }
  function ReplayExpiry(t: Time): Time { t }

  function StepCleanup(s: Store, retention: int, now: Time): Store {
    Store(Kept(s.auth, AuthExpiry, retention, now), Kept(s.verified, VerifiedExpiry, retention, now),
          Kept(s.replay, ReplayExpiry, retention, now))
  }

  function Step(s: Store, op: Op, now: Time): (Store, Reply) {
    match op
    case CreateAuth(a) =>
      if a.offerId == "" || a.state == "" || a.did == "" then (s, Failed(MissingField))
      else (s.(auth := s.auth[a.state := a]), Done)
    case ConsumeAuth(state, replayId) => StepConsumeAuth(s, state, replayId, now)
    case MarkReplay(id, expiresAt) =>
      if id == "" then (s, Failed(MissingField))
      else if SeenReplay(s, id, now) then (s, Failed(Replayed))
      else (s.(replay := s.replay[id := expiresAt]), Done)
    case StoreVerified(v) =>
      if v.offerId == "" || v.did == "" || v.commitment == "" then (s, Failed(MissingField))
      else (s.(verified := s.verified[v.offerId := v]), Done)
    case GetVerified(offerId) =>
      if LiveVerified(s, offerId, now) then (s, Verified(s.verified[offerId])) else (s, Failed(VerifiedNotFound))
    case ConsumeVerified(offerId) =>
      if !LiveVerified(s, offerId, now) then (s, Failed(VerifiedNotFound))
      else
        var v := s.verified[offerId].(consumed := true);
        (s.(verified := s.verified[offerId := v]), Verified(v))
    case Cleanup(retention) => (StepCleanup(s, retention, now), Done)
  }

  /** `GetAuthSessionByOfferID` returns what the first session met in the map's unspecified
      iteration order gives; `reply` is a possible answer. */
  ghost predicate OfferLookup(s: Store, offerId: string, now: Time, reply: Reply) {
    if forall state <- s.auth :: s.auth[state].offerId != offerId then reply == Failed(StateNotFound)
    else exists state <- s.auth :: s.auth[state].offerId == offerId
           && reply == if s.auth[state].expiresAt <= now then Failed(ExpiredState) else Auth(s.auth[state])
  }

  // --------------------------------------------------------------------------- the object

  class MemorySessionStore {
    var authSessions: map<string, AuthSession>
    var verifiedSessions: map<string, VerifiedSession>
    var replayIds: map<string, Time>

    ghost function State(): Store
      reads this
    {
      Store(authSessions, verifiedSessions, replayIds)
    }

    constructor ()
      ensures State() == Store(map[], map[], map[])
    {
      authSessions, verifiedSessions, replayIds := map[], map[], map[];
    }

    method CreateAuthSession(session: AuthSession, now: Time) returns (r: Reply)
      modifies this
      ensures (State(), r) == Step(old(State()), CreateAuth(session), now)
    {
      if session.offerId == "" || session.state == "" || session.did == "" { return Failed(MissingField); }
      authSessions := authSessions[session.state := session];
      return Done;
    }

    method ConsumeAuthState(state: string, replayId: string, now: Time) returns (r: Reply)
      modifies this
      ensures (State(), r) == Step(old(State()), ConsumeAuth(state, replayId), now)
    {
      var id := replayId;
      if id == "" { id := state; }
      if id != "" {
        if id in replayIds && replayIds[id] > now { return Failed(Replayed); }
      }
      if state !in authSessions { return Failed(StateNotFound); }
      var session := authSessions[state];
      if session.consumed { return Failed(Replayed); }
      if session.expiresAt <= now { return Failed(ExpiredState); }
      session := session.(consumed := true);
      authSessions := authSessions[state := session];
      if id != "" { replayIds := replayIds[id := session.expiresAt]; }
      return Auth(session);
    }

    method MarkReplayIdConsumed(replayId: string, expiresAt: Time, now: Time) returns (r: Reply)
      modifies this
      ensures (State(), r) == Step(old(State()), MarkReplay(replayId, expiresAt), now)
    {
      if replayId == "" { return Failed(MissingField); }
      if replayId in replayIds && replayIds[replayId] > now { return Failed(Replayed); }
      replayIds := replayIds[replayId := expiresAt];
      return Done;
    }

    method StoreVerifiedSession(session: VerifiedSession, now: Time) returns (r: Reply)
      modifies this
      ensures (State(), r) == Step(old(State()), StoreVerified(session), now)
    {
      if session.offerId == "" || session.did == "" || session.commitment == "" { return Failed(MissingField); }
      verifiedSessions := verifiedSessions[session.offerId := session];
      return Done;
    }

    method GetVerifiedSession(offerId: string, now: Time) returns (r: Reply)
      ensures (State(), r) == Step(State(), GetVerified(offerId), now)
    {
      if offerId !in verifiedSessions || verifiedSessions[offerId].consumed
         || verifiedSessions[offerId].expiresAt <= now { return Failed(VerifiedNotFound); }
      return Verified(verifiedSessions[offerId]);
    }

    method ConsumeVerifiedSession(offerId: string, now: Time) returns (r: Reply)
      modifies this
      ensures (State(), r) == Step(old(State()), ConsumeVerified(offerId), now)
    {
      var found := GetVerifiedSession(offerId, now);
      if found.Failed? { return found; }
      var session := found.verified.(consumed := true);
      verifiedSessions := verifiedSessions[offerId := session];
      return Verified(session);
    }

    method GetAuthSessionByOfferId(offerId: string, now: Time) returns (r: Reply)
      ensures OfferLookup(State(), offerId, now, r)
    {
      var left := authSessions.Keys;
      while left != {}
        invariant left <= authSessions.Keys
        invariant forall k <- authSessions.Keys - left :: authSessions[k].offerId != offerId
        decreases left
      {
        var k :| k in left;
        if authSessions[k].offerId == offerId {
          if authSessions[k].expiresAt <= now { return Failed(ExpiredState); }
          return Auth(authSessions[k]);
        }
        left := left - {k};
      }
      return Failed(StateNotFound);
    }

    method CleanupExpired(retention: int, now: Time)
      modifies this
      ensures (State(), Done) == Step(old(State()), Cleanup(retention), now)
    {
      authSessions := DropStale(authSessions, AuthExpiry, retention, now);
      verifiedSessions := DropStale(verifiedSessions, VerifiedExpiry, retention, now);
      replayIds := DropStale(replayIds, ReplayExpiry, retention, now);
    }
  }

  /** One of the three deletion loops: entries are deleted while the map is being iterated. */
  method DropStale<V>(m: map<string, V>, expiry: V -> Time, retention: int, now: Time) returns (r: map<string, V>)
    ensures r == Kept(m, expiry, retention, now)
  {
    r := m;
    var left := m.Keys;
    while left != {}
      invariant left <= m.Keys
      invariant forall k <- m :: k in left ==> k in r && r[k] == m[k]
      invariant forall k <- m :: k !in left ==> (k in r <==> !Stale(expiry(m[k]), retention, now))
      invariant forall k <- r :: k in m && r[k] == m[k]
      decreases left
    {
      var k :| k in left;
      if Stale(expiry(m[k]), retention, now) { r := r - {k}; }
      left := left - {k};
    }
  }

  // --------------------------------------------------------------------------------- runs

  datatype Call = Call(op: Op, now: Time)

  ghost predicate Monotone(calls: seq<Call>) {
    forall i, j :: 0 <= i < j < |calls| ==> calls[i].now <= calls[j].now
  }

  function Run(s: Store, calls: seq<Call>): Store
    decreases |calls|
  {
    if calls == [] then s else Run(Step(s, calls[0].op, calls[0].now).0, calls[1..])
  }

  /** What callers see: for every call but cleanup, its value, or that it failed. */
  function Observed(s: Store, calls: seq<Call>): seq<Option<Reply>>
    decreases |calls|
  {
    if calls == [] then []
    else
      var (s', r) := Step(s, calls[0].op, calls[0].now);
      Seen(calls[0].op, r) + Observed(s', calls[1..])
  }

  function Seen(op: Op, r: Reply): seq<Option<Reply>> {
    if op.Cleanup? then [] else [if r.Failed? then None else Some(r)]
  }

  function WithoutCleanup(calls: seq<Call>): seq<Call> {
    if calls == [] then []
    else (if calls[0].op.Cleanup? then [] else [calls[0]]) + WithoutCleanup(calls[1..])
  }

  /** `part` is `full` with some entries missing, each already expired at `now`. */
  ghost predicate Pruned<V>(full: map<string, V>, part: map<string, V>, expiry: V -> Time, now: Time) {
    && (forall k <- part :: k in full && part[k] == full[k])
    && (forall k <- full :: k in part || expiry(full[k]) <= now)
  }

  ghost predicate Similar(full: Store, part: Store, now: Time) {
    && Pruned(full.auth, part.auth, AuthExpiry, now)
    && Pruned(full.verified, part.verified, VerifiedExpiry, now)
    && Pruned(full.replay, part.replay, ReplayExpiry, now)
  }

  lemma SimilarLater(full: Store, part: Store, now: Time, later: Time)
    requires Similar(full, part, now) && now <= later
    ensures Similar(full, part, later)
  {
  }

  lemma SimilarConsume(full: Store, part: Store, state: string, replayId: string, now: Time)
    requires Similar(full, part, now)
    ensures
      var (f, rf), (p, rp) := StepConsumeAuth(full, state, replayId, now), StepConsumeAuth(part, state, replayId, now);
      Similar(f, p, now) && (rf.Failed? <==> rp.Failed?) && (!rf.Failed? ==> rf == rp)
  {
    var id := ReplayKey(state, replayId);
    assert SeenReplay(full, id, now) == SeenReplay(part, id, now);
  }

  /** One call keeps the two stores similar and succeeds on both or on neither, with the same value. */
  lemma SimilarStep(full: Store, part: Store, op: Op, now: Time)
    requires Similar(full, part, now) && !op.Cleanup?
    ensures
      var (f, rf), (p, rp) := Step(full, op, now), Step(part, op, now);
      Similar(f, p, now) && Seen(op, rf) == Seen(op, rp)
  {
    match op
    case CreateAuth(_) =>
    case ConsumeAuth(state, replayId) => SimilarConsume(full, part, state, replayId, now);
    case MarkReplay(id, _) => assert SeenReplay(full, id, now) == SeenReplay(part, id, now);
    case StoreVerified(_) =>
    case GetVerified(offerId) => assert LiveVerified(full, offerId, now) == LiveVerified(part, offerId, now);
    case ConsumeVerified(offerId) => assert LiveVerified(full, offerId, now) == LiveVerified(part, offerId, now);
  }

  lemma SimilarCleanup(full: Store, part: Store, retention: int, now: Time)
    requires Similar(full, part, now)
    ensures Similar(full, StepCleanup(part, retention, now), now)
  {
  }

  /** The same simulation for a whole run, ending in similar stores. */
  lemma {:induction false} CleanupSimulation(full: Store, part: Store, calls: seq<Call>, t: Time, end: Time)
    requires Similar(full, part, t) && Monotone(calls)
    requires t <= end && forall c <- calls :: t <= c.now <= end
    ensures Observed(part, calls) == Observed(full, WithoutCleanup(calls))
    ensures Similar(Run(full, WithoutCleanup(calls)), Run(part, calls), end)
    decreases |calls|
  {
    if calls == [] {
      SimilarLater(full, part, t, end);
    } else {
      var c, rest := calls[0], calls[1..];
      SimilarLater(full, part, t, c.now);
      var part' := Step(part, c.op, c.now).0;
      if c.op.Cleanup? {
        SimilarCleanup(full, part, c.op.retention, c.now);
        CleanupSimulation(full, part', rest, c.now, end);
        assert WithoutCleanup(calls) == WithoutCleanup(rest);
      } else {
        SimilarStep(full, part, c.op, c.now);
        CleanupSimulation(Step(full, c.op, c.now).0, part', rest, c.now, end);
        assert WithoutCleanup(calls) == [c] + WithoutCleanup(rest);
        assert WithoutCleanup(calls)[1..] == WithoutCleanup(rest);
      }
    }
  }

  /** With a monotone clock, running cleanup at arbitrary points never changes which calls succeed
      nor what they return. */
  lemma CleanupUnobservable(s: Store, calls: seq<Call>)
    requires Monotone(calls)
    ensures Observed(s, calls) == Observed(s, WithoutCleanup(calls))
  {
    if calls != [] { CleanupSimulation(s, s, calls, calls[0].now, calls[|calls| - 1].now); }
  }

  ghost predicate UniqueOffers(s: Store) {
    forall a, b :: a in s.auth && b in s.auth && s.auth[a].offerId == s.auth[b].offerId ==> a == b
  }

  /** The lookup by offer id is unaffected as well, if offer ids are unique. */
  lemma CleanupKeepsOfferLookup(s: Store, calls: seq<Call>, offerId: string, now: Time, cleaned: Reply, full: Reply)
    requires Monotone(calls) && forall c <- calls :: c.now <= now
    requires UniqueOffers(Run(s, WithoutCleanup(calls)))
    requires OfferLookup(Run(s, calls), offerId, now, cleaned)
    requires OfferLookup(Run(s, WithoutCleanup(calls)), offerId, now, full)
    ensures (cleaned.Failed? <==> full.Failed?) && (!full.Failed? ==> cleaned == full)
  {
    var f, p := Run(s, WithoutCleanup(calls)), Run(s, calls);
    if calls != [] { CleanupSimulation(s, s, calls, calls[0].now, now); }
    assert Similar(f, p, now);
  }

  // --------------------------------------------------------------------------- single use

  /** The store after the first `n` calls, and the reply to call `n`. */
  function At(s: Store, calls: seq<Call>, n: nat): Store
    requires n <= |calls|
  {
    if n == 0 then s else Step(At(s, calls, n - 1), calls[n - 1].op, calls[n - 1].now).0
  }

  function ReplyAt(s: Store, calls: seq<Call>, n: nat): Reply
    requires n < |calls|
  {
    Step(At(s, calls, n), calls[n].op, calls[n].now).1
  }

  ghost predicate ConsumedAt(s: Store, calls: seq<Call>, state: string, n: nat)
    requires n < |calls|
  {
    calls[n].op.ConsumeAuth? && calls[n].op.state == state && ReplyAt(s, calls, n).Auth?
  }

  /** Call `n` succeeded in creating the state. */
  ghost predicate CreatedAt(s: Store, calls: seq<Call>, state: string, n: nat)
    requires n < |calls|
  {
    calls[n].op.CreateAuth? && calls[n].op.session.state == state && ReplyAt(s, calls, n) == Done
  }

  lemma SpentStep(s: Store, op: Op, now: Time, state: string)
    requires state in s.auth ==> s.auth[state].consumed
    requires !(op.CreateAuth? && op.session.state == state && Step(s, op, now).1 == Done)
    ensures var s' := Step(s, op, now).0; state in s'.auth ==> s'.auth[state].consumed
  {
  }

  lemma VerifiedSpentStep(s: Store, op: Op, now: Time, offerId: string)
    requires offerId in s.verified ==> s.verified[offerId].consumed
    requires !(op.StoreVerified? && op.verified.offerId == offerId && Step(s, op, now).1 == Done)
    ensures var s' := Step(s, op, now).0; offerId in s'.verified ==> s'.verified[offerId].consumed
  {
  }

  lemma ReplayEntryStep(s: Store, op: Op, now: Time, id: string)
    requires SeenReplay(s, id, now) && id != ""
    ensures var s' := Step(s, op, now).0; id in s'.replay && s'.replay[id] == s.replay[id]
  {
  }

  lemma {:induction false} SpentStays(s: Store, calls: seq<Call>, state: string, i: nat, j: nat)
    requires i <= j <= |calls|
    requires state in At(s, calls, i).auth ==> At(s, calls, i).auth[state].consumed
    requires forall k :: i <= k < j ==> !CreatedAt(s, calls, state, k)
    ensures state in At(s, calls, j).auth ==> At(s, calls, j).auth[state].consumed
    decreases j
  {
    if i < j {
      SpentStays(s, calls, state, i, j - 1);
      assert !CreatedAt(s, calls, state, j - 1);
      SpentStep(At(s, calls, j - 1), calls[j - 1].op, calls[j - 1].now, state);
    }
  }

  /** In every run, with cleanups and marks anywhere, two successful consumptions of one state have
      a successful creation of that state between them: each created auth state is consumed at most once. */
  lemma AuthStateConsumedOnce(s: Store, calls: seq<Call>, state: string, i: nat, j: nat)
    requires i < j < |calls|
    requires ConsumedAt(s, calls, state, i) && ConsumedAt(s, calls, state, j)
    ensures exists k :: i < k < j && CreatedAt(s, calls, state, k)
  {
    if forall k :: i < k < j ==> !CreatedAt(s, calls, state, k) {
      SpentStays(s, calls, state, i + 1, j);
      assert false;
    }
  }

  ghost predicate ConsumedVerifiedAt(s: Store, calls: seq<Call>, offerId: string, n: nat)
    requires n < |calls|
  {
    calls[n].op.ConsumeVerified? && calls[n].op.offerId == offerId && ReplyAt(s, calls, n).Verified?
  }

  /** Call `n` succeeded in storing a session for the offer. */
  ghost predicate StoredVerifiedAt(s: Store, calls: seq<Call>, offerId: string, n: nat)
    requires n < |calls|
  {
    calls[n].op.StoreVerified? && calls[n].op.verified.offerId == offerId && ReplyAt(s, calls, n) == Done
  }

  lemma {:induction false} VerifiedSpentStays(s: Store, calls: seq<Call>, offerId: string, i: nat, j: nat)
    requires i <= j <= |calls|
    requires offerId in At(s, calls, i).verified ==> At(s, calls, i).verified[offerId].consumed
    requires forall k :: i <= k < j ==> !StoredVerifiedAt(s, calls, offerId, k)
    ensures offerId in At(s, calls, j).verified ==> At(s, calls, j).verified[offerId].consumed
    decreases j
  {
    if i < j {
      VerifiedSpentStays(s, calls, offerId, i, j - 1);
      assert !StoredVerifiedAt(s, calls, offerId, j - 1);
      VerifiedSpentStep(At(s, calls, j - 1), calls[j - 1].op, calls[j - 1].now, offerId);
    }
  }

  /** Likewise for verified sessions: one consumption per successful store. */
  lemma VerifiedSessionConsumedOnce(s: Store, calls: seq<Call>, offerId: string, i: nat, j: nat)
    requires i < j < |calls|
    requires ConsumedVerifiedAt(s, calls, offerId, i) && ConsumedVerifiedAt(s, calls, offerId, j)
    ensures exists k :: i < k < j && StoredVerifiedAt(s, calls, offerId, k)
  {
    if forall k :: i < k < j ==> !StoredVerifiedAt(s, calls, offerId, k) {
      VerifiedSpentStays(s, calls, offerId, i + 1, j);
      assert false;
    }
  }

  /** While the clock is before `expiry`, a replay entry with that expiry is neither replaced nor cleaned. */
  lemma {:induction false} ReplayEntryStays(s: Store, calls: seq<Call>, id: string, expiry: Time, i: nat, j: nat)
    requires i <= j <= |calls| && id != ""
    requires id in At(s, calls, i).replay && At(s, calls, i).replay[id] == expiry
    requires forall k :: i <= k < j ==> calls[k].now < expiry
    ensures id in At(s, calls, j).replay && At(s, calls, j).replay[id] == expiry
    decreases j
  {
    if i < j {
      ReplayEntryStays(s, calls, id, expiry, i, j - 1);
      ReplayEntryStep(At(s, calls, j - 1), calls[j - 1].op, calls[j - 1].now, id);
    }
  }

  /** Two successful consumptions under one replay id are at least the first session's lifetime
      apart: the second happens no earlier than the first session's expiry. */
  lemma ReplaySeparation(s: Store, calls: seq<Call>, i: nat, j: nat)
    requires Monotone(calls) && i < j < |calls|
    requires calls[i].op.ConsumeAuth? && ReplyAt(s, calls, i).Auth?
    requires calls[j].op.ConsumeAuth? && ReplyAt(s, calls, j).Auth?
    requires ReplayKey(calls[i].op.state, calls[i].op.replayId) == ReplayKey(calls[j].op.state, calls[j].op.replayId) != ""
    ensures calls[j].now >= ReplyAt(s, calls, i).session.expiresAt
  {
    var expiry := ReplyAt(s, calls, i).session.expiresAt;
    var id := ReplayKey(calls[i].op.state, calls[i].op.replayId);
    if calls[j].now < expiry {
      assert At(s, calls, i + 1).replay[id] == expiry;
      ReplayEntryStays(s, calls, id, expiry, i + 1, j);
      assert SeenReplay(At(s, calls, j), id, calls[j].now);
      assert false;
    }
  }

  // --------------------------------------------------------------------- exactly what is consumed

  const NOTHING := Store(map[], map[], map[])

  /** Call `i` is the last before `n` that created the state. */
  ghost predicate LastCreation(calls: seq<Call>, i: nat, n: nat, state: string) {
    i < n <= |calls| && CreatedAt(NOTHING, calls, state, i) && forall j :: i < j < n ==> !CreatedAt(NOTHING, calls, state, j)
  }

  ghost predicate UnconsumedSince(calls: seq<Call>, i: nat, n: nat, state: string)
    requires n <= |calls|
  {
    forall k :: i < k < n ==> !ConsumedAt(NOTHING, calls, state, k)
  }

  ghost predicate ClockReached(calls: seq<Call>, i: nat, n: nat, expiry: Time)
    requires n <= |calls|
  {
    exists j :: i < j < n && calls[j].now >= expiry
  }

  /** What the store holds for a state before call `n`: the session as created, consumed if it was consumed since; it can
      only be missing if the clock has reached its expiry. */
  ghost predicate HoldsAuth(calls: seq<Call>, i: nat, n: nat, state: string)
    requires i < n <= |calls| && calls[i].op.CreateAuth?
  {
    var s, session := At(NOTHING, calls, n), calls[i].op.session;
    && (state in s.auth ==>
          s.auth[state] == session.(consumed := session.consumed || !UnconsumedSince(calls, i, n, state)))
    && (state !in s.auth ==> ClockReached(calls, i, n, session.expiresAt))
  }

  lemma HoldsAuthStep(calls: seq<Call>, i: nat, n: nat, state: string)
    requires i < n < |calls| && calls[i].op.CreateAuth? && HoldsAuth(calls, i, n, state)
    requires !CreatedAt(NOTHING, calls, state, n) && Monotone(calls)
    ensures HoldsAuth(calls, i, n + 1, state)
  {
    hide SeenReplay, LiveVerified;
    var s, session := At(NOTHING, calls, n), calls[i].op.session;
    assert UnconsumedSince(calls, i, n + 1, state) <==> UnconsumedSince(calls, i, n, state) && !ConsumedAt(NOTHING, calls, state, n);
    if calls[n].now >= session.expiresAt { assert ClockReached(calls, i, n + 1, session.expiresAt); }
    if ClockReached(calls, i, n, session.expiresAt) {
      var j :| i < j < n && calls[j].now >= session.expiresAt;
      assert ClockReached(calls, i, n + 1, session.expiresAt);
    }
  }

  lemma {:induction false} HoldsAuthAt(calls: seq<Call>, i: nat, n: nat, state: string)
    requires Monotone(calls) && i < n && LastCreation(calls, i, n, state)
    ensures HoldsAuth(calls, i, n, state)
    decreases n
  {
    if n > i + 1 {
      HoldsAuthAt(calls, i, n - 1, state);
      HoldsAuthStep(calls, i, n - 1, state);
    }
  }

  lemma {:induction false} NeverCreated(calls: seq<Call>, n: nat, state: string)
    requires n <= |calls| && forall j :: 0 <= j < n ==> !CreatedAt(NOTHING, calls, state, j)
    ensures state !in At(NOTHING, calls, n).auth
  {
    if n > 0 { NeverCreated(calls, n - 1, state); assert !CreatedAt(NOTHING, calls, state, n - 1); }
  }

  lemma {:induction false} FindCreation(calls: seq<Call>, i: nat, n: nat, state: string) returns (l: nat)
    requires i < n <= |calls| && CreatedAt(NOTHING, calls, state, i)
    ensures LastCreation(calls, l, n, state)
    decreases n
  {
    if CreatedAt(NOTHING, calls, state, n - 1) { l := n - 1; } else { l := FindCreation(calls, i, n - 1, state); }
  }

  /** Call `j` recorded the replay id until `expiry`: a successful consumption under it, or a successful mark. */
  ghost predicate RecordedAt(calls: seq<Call>, j: nat, id: string, expiry: Time)
    requires j < |calls|
  {
    match calls[j].op
    case ConsumeAuth(state, replayId) =>
      && (if replayId == "" then state else replayId) == id
      && ReplyAt(NOTHING, calls, j).Auth? && ReplyAt(NOTHING, calls, j).session.expiresAt == expiry
    case MarkReplay(replayId, expiresAt) => replayId == id && expiresAt == expiry && ReplyAt(NOTHING, calls, j) == Done
    case _ => false
  }

  /** The replay id is recorded beyond the time of call `n`. */
  ghost predicate Blocked(calls: seq<Call>, n: nat, id: string)
    requires n < |calls|
  {
    exists j: nat, expiry: Time :: j < n && RecordedAt(calls, j, id, expiry) && expiry > calls[n].now
  }

  /** The replay entries go back to recordings, and a recording beyond `t` is still there. */
  ghost predicate ReplayHolds(calls: seq<Call>, n: nat, id: string, t: Time)
    requires n <= |calls|
  {
    var s := At(NOTHING, calls, n);
    && (id in s.replay ==> exists j: nat :: j < n && RecordedAt(calls, j, id, s.replay[id]))
    && (forall j: nat, expiry: Time :: j < n && RecordedAt(calls, j, id, expiry) && expiry > t ==>
          id in s.replay && s.replay[id] == expiry)
  }

  ghost predicate Records(op: Op, reply: Reply, id: string, expiry: Time) {
    match op
    case ConsumeAuth(state, replayId) =>
      (if replayId == "" then state else replayId) == id && reply.Auth? && reply.session.expiresAt == expiry
    case MarkReplay(replayId, expiresAt) => replayId == id && expiresAt == expiry && reply == Done
    case _ => false
  }

  /** What one call does to one replay entry. */
  lemma ReplayAfter(s: Store, op: Op, now: Time, id: string)
    requires id != ""
    ensures var (s', reply) := Step(s, op, now);
      && (forall expiry :: Records(op, reply, id, expiry) ==>
            id in s'.replay && s'.replay[id] == expiry && !(id in s.replay && s.replay[id] > now))
      && ((forall expiry :: !Records(op, reply, id, expiry)) ==>
            && (id in s'.replay ==> id in s.replay && s'.replay[id] == s.replay[id])
            && (id in s.replay && s.replay[id] > now ==> id in s'.replay))
  {
    hide LiveVerified;
    var (s', reply) := Step(s, op, now);
    if reply.Auth? && op.ConsumeAuth? {
      assert ReplayKey(op.state, op.replayId) == id ==> Records(op, reply, id, reply.session.expiresAt);
    }
    if op.MarkReplay? && reply == Done { assert op.replayId == id ==> Records(op, reply, id, op.expiresAt); }
  }

  lemma RecordedIs(calls: seq<Call>, n: nat, id: string, expiry: Time)
    requires n < |calls|
    ensures RecordedAt(calls, n, id, expiry) <==> Records(calls[n].op, ReplyAt(NOTHING, calls, n), id, expiry)
  {
    hide At;
  }

  lemma ReplayHoldsStep(calls: seq<Call>, n: nat, id: string, t: Time)
    requires n < |calls| && id != "" && calls[n].now <= t && ReplayHolds(calls, n, id, t)
    ensures ReplayHolds(calls, n + 1, id, t)
  {
    var s, s' := At(NOTHING, calls, n), At(NOTHING, calls, n + 1);
    ReplayAfter(s, calls[n].op, calls[n].now, id);
    assert s' == Step(s, calls[n].op, calls[n].now).0;
    hide Step, At, RecordedAt, Records;
    forall e ensures RecordedAt(calls, n, id, e) <==> Records(calls[n].op, ReplyAt(NOTHING, calls, n), id, e) {
      RecordedIs(calls, n, id, e);
    }
    if e :| Records(calls[n].op, ReplyAt(NOTHING, calls, n), id, e) { assert RecordedAt(calls, n, id, e); }
  }

  lemma {:induction false} ReplayHoldsAt(calls: seq<Call>, n: nat, id: string, t: Time)
    requires n <= |calls| && id != "" && forall k :: 0 <= k < n ==> calls[k].now <= t
    ensures ReplayHolds(calls, n, id, t)
  {
    if n > 0 {
      ReplayHoldsAt(calls, n - 1, id, t);
      ReplayHoldsStep(calls, n - 1, id, t);
    }
  }

  lemma BlockedIff(calls: seq<Call>, n: nat, id: string)
    requires Monotone(calls) && n < |calls| && id != ""
    ensures SeenReplay(At(NOTHING, calls, n), id, calls[n].now) <==> Blocked(calls, n, id)
  {
    ReplayHoldsAt(calls, n, id, calls[n].now);
  }

  /** The session created by call `i` is what call `n` may consume: it was created unconsumed, has not expired and has not
      been consumed since. */
  ghost predicate Consumable(calls: seq<Call>, i: nat, n: nat, state: string)
    requires n < |calls|
  {
    && LastCreation(calls, i, n, state) && UnconsumedSince(calls, i, n, state)
    && !calls[i].op.session.consumed && calls[n].now < calls[i].op.session.expiresAt
  }

  /** Over every run with a monotone clock, with cleanups and marks anywhere, a consumption succeeds if and only if the last
      session created under that state is unconsumed and unexpired and no consumption or mark recorded the replay id beyond
      now; it returns that session, as created, marked consumed. */
  lemma ConsumeAuthIff(calls: seq<Call>, n: nat)
    requires Monotone(calls) && n < |calls| && calls[n].op.ConsumeAuth?
    ensures var state, replayId := calls[n].op.state, calls[n].op.replayId;
      var id := if replayId == "" then state else replayId;
      && (ReplyAt(NOTHING, calls, n).Auth? <==> (exists i: nat :: Consumable(calls, i, n, state)) && (id == "" || !Blocked(calls, n, id)))
      && (forall i: nat :: ReplyAt(NOTHING, calls, n).Auth? && Consumable(calls, i, n, state) ==>
            ReplyAt(NOTHING, calls, n) == Auth(calls[i].op.session.(consumed := true)))
  {
    var state, replayId := calls[n].op.state, calls[n].op.replayId;
    var id := if replayId == "" then state else replayId;
    var s := At(NOTHING, calls, n);
    if id != "" { BlockedIff(calls, n, id); }
    hide Blocked, At, CreatedAt, SeenReplay;
    if i :| 0 <= i < n && CreatedAt(NOTHING, calls, state, i) {
      var l := FindCreation(calls, i, n, state);
      CreationIs(calls, l, state);
      HoldsAuthAt(calls, l, n, state);
      if ClockReached(calls, l, n, calls[l].op.session.expiresAt) {
        var j :| l < j < n && calls[j].now >= calls[l].op.session.expiresAt;
        assert calls[j].now <= calls[n].now;
      }
      forall k: nat | Consumable(calls, k, n, state) ensures k == l {}
      assert state in s.auth && !s.auth[state].consumed && s.auth[state].expiresAt > calls[n].now
        <==> Consumable(calls, l, n, state);
    } else {
      NeverCreated(calls, n, state);
    }
  }

  lemma CreationIs(calls: seq<Call>, i: nat, state: string)
    requires i < |calls| && CreatedAt(NOTHING, calls, state, i)
    ensures calls[i].op.CreateAuth? && calls[i].op.session.state == state
  {
  }

  // ----------------------------------------------------------------------- verified sessions

  ghost predicate LastStore(calls: seq<Call>, i: nat, n: nat, offerId: string) {
    && i < n <= |calls| && StoredVerifiedAt(NOTHING, calls, offerId, i)
    && forall j :: i < j < n ==> !StoredVerifiedAt(NOTHING, calls, offerId, j)
  }

  ghost predicate UnusedSince(calls: seq<Call>, i: nat, n: nat, offerId: string)
    requires n <= |calls|
  {
    forall k :: i < k < n ==> !ConsumedVerifiedAt(NOTHING, calls, offerId, k)
  }

  ghost predicate HoldsVerified(calls: seq<Call>, i: nat, n: nat, offerId: string)
    requires i < n <= |calls| && calls[i].op.StoreVerified?
  {
    var s, v := At(NOTHING, calls, n), calls[i].op.verified;
    && (offerId in s.verified ==>
          s.verified[offerId] == v.(consumed := v.consumed || !UnusedSince(calls, i, n, offerId)))
    && (offerId !in s.verified ==> ClockReached(calls, i, n, v.expiresAt))
  }

  lemma HoldsVerifiedStep(calls: seq<Call>, i: nat, n: nat, offerId: string)
    requires i < n < |calls| && calls[i].op.StoreVerified? && HoldsVerified(calls, i, n, offerId)
    requires !StoredVerifiedAt(NOTHING, calls, offerId, n)
    ensures HoldsVerified(calls, i, n + 1, offerId)
  {
    hide SeenReplay;
    var v := calls[i].op.verified;
    assert UnusedSince(calls, i, n + 1, offerId) <==> UnusedSince(calls, i, n, offerId) && !ConsumedVerifiedAt(NOTHING, calls, offerId, n);
    if calls[n].now >= v.expiresAt { assert ClockReached(calls, i, n + 1, v.expiresAt); }
    if ClockReached(calls, i, n, v.expiresAt) {
      var j :| i < j < n && calls[j].now >= v.expiresAt;
      assert ClockReached(calls, i, n + 1, v.expiresAt);
    }
  }

  lemma {:induction false} HoldsVerifiedAt(calls: seq<Call>, i: nat, n: nat, offerId: string)
    requires i < n && LastStore(calls, i, n, offerId)
    ensures HoldsVerified(calls, i, n, offerId)
    decreases n
  {
    if n > i + 1 {
      HoldsVerifiedAt(calls, i, n - 1, offerId);
      HoldsVerifiedStep(calls, i, n - 1, offerId);
    }
  }

  lemma {:induction false} NeverStored(calls: seq<Call>, n: nat, offerId: string)
    requires n <= |calls| && forall j :: 0 <= j < n ==> !StoredVerifiedAt(NOTHING, calls, offerId, j)
    ensures offerId !in At(NOTHING, calls, n).verified
  {
    if n > 0 { NeverStored(calls, n - 1, offerId); assert !StoredVerifiedAt(NOTHING, calls, offerId, n - 1); }
  }

  lemma {:induction false} FindStore(calls: seq<Call>, i: nat, n: nat, offerId: string) returns (l: nat)
    requires i < n <= |calls| && StoredVerifiedAt(NOTHING, calls, offerId, i)
    ensures LastStore(calls, l, n, offerId)
    decreases n
  {
    if StoredVerifiedAt(NOTHING, calls, offerId, n - 1) { l := n - 1; } else { l := FindStore(calls, i, n - 1, offerId); }
  }

  ghost predicate Usable(calls: seq<Call>, i: nat, n: nat, offerId: string)
    requires n < |calls|
  {
    && LastStore(calls, i, n, offerId) && UnusedSince(calls, i, n, offerId)
    && !calls[i].op.verified.consumed && calls[n].now < calls[i].op.verified.expiresAt
  }

  /** Likewise for verified sessions, read or consumed: exactly the last one stored for the offer, if it is unconsumed and
      unexpired. */
  lemma VerifiedIff(calls: seq<Call>, n: nat, offerId: string)
    requires Monotone(calls) && n < |calls| && calls[n].op in {GetVerified(offerId), ConsumeVerified(offerId)}
    ensures ReplyAt(NOTHING, calls, n).Verified? <==> exists i: nat :: Usable(calls, i, n, offerId)
    ensures forall i: nat :: Usable(calls, i, n, offerId) ==>
      ReplyAt(NOTHING, calls, n) == Verified(calls[i].op.verified.(consumed := calls[n].op.ConsumeVerified?))
  {
    var s := At(NOTHING, calls, n);
    hide At, StoredVerifiedAt;
    if i :| 0 <= i < n && StoredVerifiedAt(NOTHING, calls, offerId, i) {
      var l := FindStore(calls, i, n, offerId);
      StoreIs(calls, l, offerId);
      HoldsVerifiedAt(calls, l, n, offerId);
      if ClockReached(calls, l, n, calls[l].op.verified.expiresAt) {
        var j :| l < j < n && calls[j].now >= calls[l].op.verified.expiresAt;
        assert calls[j].now <= calls[n].now;
      }
      forall k: nat | Usable(calls, k, n, offerId) ensures k == l {}
      assert LiveVerified(s, offerId, calls[n].now) <==> Usable(calls, l, n, offerId);
    } else {
      NeverStored(calls, n, offerId);
    }
  }

  lemma StoreIs(calls: seq<Call>, i: nat, offerId: string)
    requires i < |calls| && StoredVerifiedAt(NOTHING, calls, offerId, i)
    ensures calls[i].op.StoreVerified? && calls[i].op.verified.offerId == offerId
  {
  }

  /** A create, store or mark call succeeds exactly with its fields filled in, and a mark only if the id is not taken. */
  lemma FieldsDemanded(s: Store, a: AuthSession, v: VerifiedSession, id: string, expiresAt: Time, now: Time)
    ensures Step(s, CreateAuth(a), now).1 == Done <==> a.offerId != "" && a.state != "" && a.did != ""
    ensures Step(s, StoreVerified(v), now).1 == Done <==> v.offerId != "" && v.did != "" && v.commitment != ""
    ensures Step(s, MarkReplay(id, expiresAt), now).1 == Done <==> id != "" && !(id in s.replay && now < s.replay[id])
  {
  }

  /** Cleanup drops exactly what expired, by at least the retention, and leaves the rest as it is. */
  lemma CleanupDrops(s: Store, retention: int, now: Time, k: string)
    ensures var s' := Step(s, Cleanup(retention), now).0;
      var extra := if retention < 0 then 0 else retention;
      && (k in s'.auth <==> k in s.auth && now < s.auth[k].expiresAt + extra)
      && (k in s'.verified <==> k in s.verified && now < s.verified[k].expiresAt + extra)
      && (k in s'.replay <==> k in s.replay && now < s.replay[k] + extra)
      && (k in s'.auth ==> s'.auth[k] == s.auth[k]) && (k in s'.verified ==> s'.verified[k] == s.verified[k])
      && (k in s'.replay ==> s'.replay[k] == s.replay[k])
  {
  }
}
