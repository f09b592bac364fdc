/** What each step of an offer or issue call demands and does, field by field
    (ansible_issuer/go/internal/oid4vci/issuer.go:187-279), and by which call every record was written. The conditions are
    written out in the rows and the data of the call, so that they stand beside the machine of `Issuance`. */
module IssuanceSteps {
  import opened Wrappers
  import opened HostedStore
  import HI = HostedInvariants
  import opened MemoryStores
  import opened Issuance
  import opened IssuanceSafety
  import opened IssuanceTheorems
  import G = GovernanceRuns
  import SS = StateStore

  /** The process of call `pid` after one step. */
  ghost function Stepped(b: Builder, s: System, pid: nat, input: Input): System {
    Next(b, s, Advance(pid, input))
  }

  ghost predicate Stands(s: System, pid: nat, stage: Stage) {
    pid in s.procs && s.procs[pid].IssueCall? && s.procs[pid].stage == stage
  }

  /** A call starts exactly under an unused number and from its beginning. */
  lemma StartStep(b: Builder, s: System, pid: nat, p: Process)
    ensures Next(b, s, Start(pid, p)) ==
      if pid !in s.procs && ((p.OfferCall? && p.taken == None)
                             || (p.IssueCall? && p.stage == ReadingAccess && p.access == None && p.delegation == None))
      then s.(procs := s.procs[pid := p]) else s
  {
  }

  // ---------------------------------------------------------------------------- the access check

  /** The row of the token: unexpired, of this tenant, for the membership configuration, bound to this holder and to a
      forum host and a board. */
  ghost predicate MayIssue(db: SS.Tables, p: Process, now: Time)
    requires p.IssueCall?
  {
    && p.token in db.access
    && (var a := db.access[p.token];
        && now < a.expiresAt && a.tenantId == p.tenant && a.configurationId == "PoliticalPartyMembershipCredential-v1"
        && a.subjectDid == p.holder && a.forumHostId != "" && a.boardId != "")
  }

  /** The first step goes on exactly then, with the row as read, and otherwise ends the call; it changes nothing else. */
  lemma AccessStep(b: Builder, s: System, pid: nat, input: Input)
    requires Stands(s, pid, ReadingAccess)
    ensures var s', p := Stepped(b, s, pid, input), s.procs[pid];
      && s' == s.(procs := s'.procs) && s'.procs.Keys == s.procs.Keys
      && s'.procs[pid] == if MayIssue(s.db, p, input.now) then p.(access := Some(s.db.access[p.token]), stage := SpendingNonce)
                          else Ended
  {
  }

  /** Over every run: an event takes an `Issue` call past the access check if and only if its token's row allows it. */
  lemma PassesAccessIff(b: Builder, events: seq<Event>, i: nat)
    requires i < |events| && events[i].Advance? && Stands(Before(b, events, i), events[i].pid, ReadingAccess)
    ensures var p, pid := Before(b, events, i).procs[events[i].pid], events[i].pid;
      && pid in Before(b, events, i + 1).procs
      && (Before(b, events, i + 1).procs[pid].IssueCall? <==> MayIssue(Before(b, events, i).db, p, events[i].input.now))
      && (Before(b, events, i + 1).procs[pid].IssueCall? ==> Before(b, events, i + 1).procs[pid].stage == SpendingNonce)
  {
    hide Next, Before, MayIssue;
    BeforeStep(b, events, i);
    AccessStep(b, Before(b, events, i), events[i].pid, events[i].input);
  }

  // ------------------------------------------------------------------------------ the other steps

  /** The nonce: issued, unspent and unexpired. */
  lemma NonceStep(b: Builder, s: System, pid: nat, input: Input)
    requires Stands(s, pid, SpendingNonce)
    ensures var s', p := Stepped(b, s, pid, input), s.procs[pid];
      var good := p.nonce in s.db.nonces && s.db.nonces[p.nonce].consumedAt == None && input.now < s.db.nonces[p.nonce].expiresAt;
      && s'.procs == s.procs[pid := if good then p.(stage := ReadingOrganization) else Ended]
      && s'.world == s.world && s'.db.access == s.db.access && s'.db.grants == s.db.grants
      && (good ==> s'.db.nonces == s.db.nonces[p.nonce := s.db.nonces[p.nonce].(consumedAt := Some(input.now))])
      && (!good ==> s'.db == s.db)
  {
  }

  lemma OrganizationStep(b: Builder, s: System, pid: nat, input: Input)
    requires Stands(s, pid, ReadingOrganization)
    ensures var s', p, t := Stepped(b, s, pid, input), s.procs[pid], At(s.world, s.procs[pid].tenant).tenant;
      s' == s.(procs := s.procs[pid := if t.Some? then p.(organization := t.value.organizationDid, stage := ReadingDelegation) else Ended])
  {
  }

  /** The delegation: active and inside its validity period. */
  lemma DelegationStep(b: Builder, s: System, pid: nat, input: Input)
    requires Stands(s, pid, ReadingDelegation) && Enumerates(input.order, At(s.world, s.procs[pid].tenant).delegations)
    ensures var s', p, ts := Stepped(b, s, pid, input), s.procs[pid], At(s.world, s.procs[pid].tenant);
      var current := ts.tenant.Some? && exists k <- ts.delegations ::
        ts.delegations[k].state == Active && ts.delegations[k].notBefore <= input.now < ts.delegations[k].expiresAt;
      && s' == s.(procs := s'.procs) && s'.procs.Keys == s.procs.Keys
      && (s'.procs[pid].IssueCall? <==> current) && (!current ==> s'.procs[pid] == Ended)
      && (current ==> exists k <- ts.delegations ::
            && ts.delegations[k].state == Active && ts.delegations[k].notBefore <= input.now < ts.delegations[k].expiresAt
            && s'.procs[pid] == p.(delegation := Some(ts.delegations[k]), stage := ReadingKey))
  {
    hide First;
    HI.FirstSpec(At(s.world, s.procs[pid].tenant).delegations, input.order, CurrentAt(input.now));
  }

  /** The key of that delegation, which must allow membership credentials; a token with an index needs an issue time. */
  lemma KeyStep(b: Builder, s: System, pid: nat, input: Input)
    requires Stands(s, pid, ReadingKey) && s.procs[pid].access.Some? && s.procs[pid].delegation.Some?
    ensures var s', p, keys := Stepped(b, s, pid, input), s.procs[pid], At(s.world, s.procs[pid].tenant).signingKeys;
      var d, a := p.delegation.value, p.access.value;
      var good := d.signingKeyId in keys && "PoliticalPartyMembershipCredential" in d.credentialTypes
                  && (a.statusIndex == None || a.issuedAt != None);
      && s' == s.(procs := s'.procs) && s'.procs.Keys == s.procs.Keys
      && (!good ==> s'.procs[pid] == Ended)
      && (good ==> s'.procs[pid] == p.(kmsKey := keys[d.signingKeyId].kmsKeyVersion,
                                       stage := if a.statusIndex == None then ReservingIndex else Writing))
  {
  }

  /** A fresh index of the tenant, among at most 256 draws. */
  lemma ReserveStep(b: Builder, s: System, pid: nat, input: Input)
    requires Stands(s, pid, ReservingIndex)
    ensures var s', p, ts := Stepped(b, s, pid, input), s.procs[pid], At(s.world, s.procs[pid].tenant);
      var free := ts.tenant.Some? && exists i :: 0 <= i < |input.draws| && i < 256 && input.draws[i] !in ts.indexes;
      && s'.db == s.db && s'.procs.Keys == s.procs.Keys
      && (!free ==> s'.procs[pid] == Ended && s'.world == s.world)
      && (free ==>
            && s'.procs[pid].IssueCall? && s'.procs[pid] == p.(index := s'.procs[pid].index, stage := Preparing)
            && s'.procs[pid].index in input.draws && s'.procs[pid].index !in ts.indexes
            && s'.world == s.world[p.tenant := ts.(indexes := ts.indexes + {s'.procs[pid].index})])
  {
    hide FirstFree;
    var ts := At(s.world, s.procs[pid].tenant);
    var tried := Attempted(input.draws);
    HI.FirstFreeSpec(ts.indexes, tried);
    assert forall i :: 0 <= i < |tried| ==> tried[i] == input.draws[i] && tried[i] in tried;
    if FirstFree(ts.indexes, tried).Some? {
      var i :| 0 <= i < |tried| && tried[i] == FirstFree(ts.indexes, tried).value;
      assert input.draws[i] !in ts.indexes;
    }
  }

  /** Writing index and issue time into the row, unless they are there. */
  lemma PrepareStep(b: Builder, s: System, pid: nat, input: Input)
    requires Stands(s, pid, Preparing)
    ensures var s', p := Stepped(b, s, pid, input), s.procs[pid];
      var live := p.token in s.db.access && input.now < s.db.access[p.token].expiresAt;
      && s'.world == s.world && s'.procs == s.procs[pid := if live then p.(stage := Rereading, clock := input.now) else Ended]
      && (!live ==> s'.db == s.db)
      && (live ==>
            var a := s.db.access[p.token];
            s'.db == s.db.(access := s.db.access[p.token :=
              a.(statusIndex := if a.statusIndex == None then Some(p.index) else a.statusIndex,
                 issuedAt := if a.issuedAt == None then Some(input.issuedAt) else a.issuedAt)]))
  {
  }

  lemma RereadStep(b: Builder, s: System, pid: nat, input: Input)
    requires Stands(s, pid, Rereading)
    ensures var s', p := Stepped(b, s, pid, input), s.procs[pid];
      var good := p.token in s.db.access && p.clock < s.db.access[p.token].expiresAt
                  && s.db.access[p.token].statusIndex != None && s.db.access[p.token].issuedAt != None;
      s' == s.(procs := s.procs[pid := if good then p.(access := Some(s.db.access[p.token]), stage := Writing) else Ended])
  {
  }

  const NINETY: int := 7_776_000_000_000_000

  /** The record a call writes: the token's index and issue time, ninety days of validity, the holder's hash and the hash of
      the signed claims, active, under the policy of the delegation. */
  ghost predicate RecordFits(b: Builder, p: Process, t: string, r: Record, claims: Claims)
    requires Prepared(p)
  {
    var a := p.access.value;
    && r == Record(claims.issuerUrl + "/credentials/" + b.digest(claims.issuerDid, claims.holderDid, claims.statusIndex, claims.issuedAt),
                   t, b.jwtHash(p.kmsKey, claims), "PoliticalPartyMembershipCredential", a.subjectHash, a.issuedAt.value,
                   a.issuedAt.value + NINETY, a.statusIndex.value, "active", b.hash(p.delegation.value.canonicalJson))
    && claims == Claims(p.organization, b.baseUrl + "/tenants/" + t, a.subjectDid, p.jwk, a.membershipClass, a.forumHostId, a.boardId,
                        a.statusIndex.value, a.issuedAt.value)
  }

  /** Writing succeeds exactly under a reserved index and, if the id is taken, with the same hash; only a new id adds a record,
      and that is the one of the call's own data. */
  lemma WriteStep(b: Builder, s: System, pid: nat, input: Input, r: Record, claims: Claims)
    requires Stands(s, pid, Writing) && Prepared(s.procs[pid]) && RecordFits(b, s.procs[pid], s.procs[pid].tenant, r, claims)
    ensures var s', p, ts := Stepped(b, s, pid, input), s.procs[pid], At(s.world, s.procs[pid].tenant);
      var good := r.statusIndex in ts.indexes
                  && (r.credentialId in ts.credentials ==> ts.credentials[r.credentialId].credentialHash == r.credentialHash);
      && s'.db == s.db && s'.procs == s.procs[pid := if good then p.(stage := Marking) else Ended]
      && (!good || r.credentialId in ts.credentials ==> s'.world == s.world && s'.history == s.history)
      && (good && r.credentialId !in ts.credentials ==>
            && s'.world == s.world[p.tenant := ts.(credentials := ts.credentials[r.credentialId := r])]
            && s'.history == s.history.(writer := s.history.writer[(p.tenant, r.credentialId) := Written(p.token, claims, p.kmsKey)]))
  {
    var p := s.procs[pid];
    assert ClaimsOf(b, p) == claims;
    assert RecordOf(b, p).(tenantId := p.tenant) == r;
  }

  lemma MarkStep(b: Builder, s: System, pid: nat, input: Input)
    requires Stands(s, pid, Marking)
    ensures var s', p := Stepped(b, s, pid, input), s.procs[pid];
      var live := p.token in s.db.access && input.now < s.db.access[p.token].expiresAt;
      && s'.world == s.world && s'.procs == s.procs[pid := if live then p.(stage := Auditing) else Ended]
      && (!live ==> s'.db == s.db)
      && (live ==>
            var a := s.db.access[p.token];
            s'.db == s.db.(access := s.db.access[p.token :=
              a.(consumedAt := if a.consumedAt == None then Some(input.now) else a.consumedAt)]))
  {
  }

  // -------------------------------------------------------------------------------------- offers

  /** An offer call takes its request exactly when that is approved and unexpired, and then makes a grant exactly for a
      named tenant, a named holder and one of the two classes, under a new code; the grant carries the request's data. */
  lemma OfferSteps(b: Builder, s: System, pid: nat, input: Input)
    requires pid in s.procs && s.procs[pid].OfferCall?
    ensures var s', p, requests := Stepped(b, s, pid, input), s.procs[pid], At(s.world, s.procs[pid].tenant).requests;
      && (p.taken.None? ==>
            && (s'.procs[pid].OfferCall? <==>
                  p.requestId in requests && requests[p.requestId].state == Approved && input.now < requests[p.requestId].expiresAt)
            && (s'.procs[pid].OfferCall? ==> s'.procs[pid].taken == Some(requests[p.requestId].(state := Offered)))
            && s'.db == s.db)
      && (p.taken.Some? ==>
            var r := p.taken.value;
            var good := p.tenant != "" && r.applicantDid != "" && r.membershipClass in {"member", "moderator"} && input.code !in s.db.grants;
            && s'.world == s.world && s'.procs == s.procs[pid := Ended]
            && (!good ==> s'.db == s.db && s'.history == s.history)
            && (good ==>
                  && s'.db == s.db.(grants := s.db.grants[input.code :=
                       SS.Grant(input.code, p.tenant, "PoliticalPartyMembershipCredential-v1", b.hash(r.applicantDid), r.applicantDid,
                                r.membershipClass, r.forumHostId, r.boardId, input.expiry, None)])
                  && s'.history == s.history.(origin := s.history.origin[input.code := (p.tenant, p.requestId)])))
  {
  }

  // ------------------------------------------------------------- what one step does to the stores

  /** The store call, if any, that a step of an offer or issue call makes. */
  function CallIn(b: Builder, p: Process, input: Input): Option<Op> {
    match p
    case Ended => None
    case OfferCall(_, requestId, taken) => if taken.None? then Some(OnRequests(Consuming(requestId, input.now))) else None
    case IssueCall(_, _, _, _, _, stage, _, _, _, _, _, _) =>
      match stage
      case ReservingIndex => Some(OnCredentials(Reserving(input.draws)))
      case Writing => if Prepared(p) then Some(OnCredentials(PuttingRecord(RecordOf(b, p)))) else None
      case Auditing => Some(OnAudit(Appending(input.event)))
      case _ => None
  }

  ghost predicate SameWorld(w: World, w': World) {
    forall t :: At(w, t) == At(w', t)
  }

  ghost function StepWorld(w: World, t: string, op: Op): World {
    w[t := Step(At(w, t), t, op).0]
  }

  /** Every step of an offer or issue call is at most one store call for its tenant. */
  lemma MoveIsCall(b: Builder, s: System, pid: nat, p: Process, input: Input)
    ensures var call := CallIn(b, p, input);
      && (p.Ended? || call.None? ==> Move(b, s, pid, p, input).world == s.world)
      && (!p.Ended? && call.Some? ==> SameWorld(Move(b, s, pid, p, input).world, StepWorld(s.world, p.tenant, call.value)))
      && (call.Some? ==> !G.Reserved(call.value) && forall ts :: Feasible(ts, call.value))
  {
    hide ConsumeRequest, ReserveIndex, PutRecord, AppendAudit, RecordOf, ActiveDelegation, Accepts;
    hide SS.PutGrant, SS.ConsumeNonce, SS.PrepareUpdate, SS.ConsumeAccess, SS.AccessByHash;
    var call := CallIn(b, p, input);
    if !p.Ended? && call.Some? {
      var ts := At(s.world, p.tenant);
      RefusedSame(ts, p.tenant, call.value);
    }
  }

  /** A call that is refused changes nothing. */
  lemma RefusedSame(ts: TenantState, id: string, op: Op)
    ensures match op
      case OnRequests(Consuming(r, now)) => !ConsumeRequest(ts, r, now).1.RequestIs? ==> Step(ts, id, op).0 == ts
      case OnCredentials(Reserving(draws)) => !ReserveIndex(ts, draws).1.IndexIs? ==> Step(ts, id, op).0 == ts
      case OnCredentials(PuttingRecord(r)) =>
        PutRecord(ts, id, r).1 != Done || r.credentialId in ts.credentials ==> Step(ts, id, op).0 == ts
      case _ => true
  {
  }

  // -------------------------------------------------------------------- by which call a record was written

  /** The call has read an active delegation of its tenant that allows membership credentials, and the key it names. */
  ghost predicate SignerOk(w: World, p: Process) {
    && (Past(p, {ReadingAccess, SpendingNonce, ReadingOrganization, ReadingDelegation}) ==>
          p.delegation.Some? && p.delegation.value.state == Active)
    && (Past(p, {ReadingAccess, SpendingNonce, ReadingOrganization, ReadingDelegation, ReadingKey}) ==>
          && p.delegation.Some? && "PoliticalPartyMembershipCredential" in p.delegation.value.credentialTypes
          && (var keys := At(w, p.tenant).signingKeys;
              p.delegation.value.signingKeyId in keys && keys[p.delegation.value.signingKeyId].kmsKeyVersion == p.kmsKey))
  }

  ghost predicate SignerInv(s: System) {
    forall pid <- s.procs :: SignerOk(s.world, s.procs[pid])
  }

  /** Signing keys stay as they are filed. */
  ghost predicate KeysStay(w: World, w': World) {
    forall t, k :: k in At(w, t).signingKeys ==> k in At(w', t).signingKeys && At(w', t).signingKeys[k] == At(w, t).signingKeys[k]
  }

  lemma StepKeys(ts: TenantState, id: string, op: Op)
    ensures var ts' := Step(ts, id, op).0;
      forall k <- ts.signingKeys :: k in ts'.signingKeys && ts'.signingKeys[k] == ts.signingKeys[k]
  {
    hide StepDelegations, StepTemplates, StepRequests, StepCredentials, StepAudit, Bootstrap, Create, PutAdministrator;
  }

  lemma NextKeys(b: Builder, s: System, e: Event)
    ensures KeysStay(s.world, Next(b, s, e).world)
  {
    hide Step, Move, CallIn, SS.ExchangeGrant, SS.PutNonce, Feasible;
    var s' := Next(b, s, e);
    if e.Advance? && e.pid in s.procs {
      var p := s.procs[e.pid];
      MoveIsCall(b, s, e.pid, p, e.input);
      if !p.Ended? && CallIn(b, p, e.input).Some? {
        StepKeys(At(s.world, p.tenant), p.tenant, CallIn(b, p, e.input).value);
        assert forall t :: At(s'.world, t) == At(StepWorld(s.world, p.tenant, CallIn(b, p, e.input).value), t);
      }
    }
    if e.Other? { StepKeys(At(s.world, e.tenant), e.tenant, e.op); }
  }

  lemma DelegationRead(b: Builder, s: System, pid: nat, p: Process, input: Input)
    requires p.IssueCall? && p.stage == ReadingDelegation
    ensures SignerOk(s.world, ReadDelegation(s, pid, p, input).procs[pid])
  {
    hide First;
    HI.FirstSpec(At(s.world, p.tenant).delegations, input.order, CurrentAt(input.now));
  }

  /** The step keeps what the call has read of delegation and key, or comes before that, or ends the call. */
  ghost predicate SignerKept(p: Process, q: Process) {
    || !q.IssueCall? || q.stage in {SpendingNonce, ReadingOrganization, ReadingDelegation}
    || (p.IssueCall? && p.stage !in {ReadingAccess, SpendingNonce, ReadingOrganization, ReadingDelegation, ReadingKey}
        && q.delegation == p.delegation && q.kmsKey == p.kmsKey && q.tenant == p.tenant)
  }

  lemma KeptSigner(w: World, p: Process, q: Process)
    requires SignerOk(w, p) && SignerKept(p, q) && !(q.IssueCall? && q.stage == ReadingAccess)
    ensures SignerOk(w, q)
  {
  }

  lemma EarlyKept(b: Builder, s: System, pid: nat, p: Process, input: Input)
    requires p.IssueCall? && p.stage in {ReadingAccess, SpendingNonce, ReadingOrganization}
    ensures var s' := Move(b, s, pid, p, input);
      pid in s'.procs && s'.procs == s.procs[pid := s'.procs[pid]] && SignerKept(p, s'.procs[pid])
      && !(s'.procs[pid].IssueCall? && s'.procs[pid].stage == ReadingAccess)
  {
    hide Accepts, SS.ConsumeNonce, SS.AccessByHash;
  }

  lemma LateKept(b: Builder, s: System, pid: nat, p: Process, input: Input)
    requires p.IssueCall? && p.stage in {ReservingIndex, Preparing, Rereading, Writing, Marking, Auditing}
    ensures var s' := Move(b, s, pid, p, input);
      pid in s'.procs && s'.procs == s.procs[pid := s'.procs[pid]] && SignerKept(p, s'.procs[pid])
      && !(s'.procs[pid].IssueCall? && s'.procs[pid].stage == ReadingAccess)
  {
    hide ReserveIndex, PutRecord, AppendAudit, RecordOf, ClaimsOf, SS.PrepareUpdate, SS.ConsumeAccess, SS.AccessByHash;
  }

  lemma KeyRead(b: Builder, s: System, pid: nat, p: Process, input: Input)
    requires p.IssueCall? && p.stage == ReadingKey && SignerOk(s.world, p)
    ensures var s' := Move(b, s, pid, p, input);
      pid in s'.procs && s'.procs == s.procs[pid := s'.procs[pid]] && SignerOk(s.world, s'.procs[pid])
  {
  }

  lemma OfferKept(b: Builder, s: System, pid: nat, p: Process, input: Input)
    requires p.OfferCall?
    ensures var s' := Move(b, s, pid, p, input);
      pid in s'.procs && s'.procs == s.procs[pid := s'.procs[pid]] && !s'.procs[pid].IssueCall?
  {
    hide ConsumeRequest, SS.PutGrant, GrantFor;
  }

  lemma MoveSigner(b: Builder, s: System, pid: nat, p: Process, input: Input)
    requires SignerOk(s.world, p) && !p.Ended?
    ensures var s' := Move(b, s, pid, p, input);
      pid in s'.procs && s'.procs == s.procs[pid := s'.procs[pid]] && SignerOk(s.world, s'.procs[pid])
  {
    var s' := Move(b, s, pid, p, input);
    if p.OfferCall? {
      hide Move, SignerKept;
      OfferKept(b, s, pid, p, input);
    } else if p.stage == ReadingKey {
      hide Move, SignerKept;
      KeyRead(b, s, pid, p, input);
    } else if p.stage == ReadingDelegation {
      hide ActiveDelegation, SignerOk;
      DelegationRead(b, s, pid, p, input);
    } else {
      hide Move, SignerKept, SignerOk;
      if p.stage in {ReadingAccess, SpendingNonce, ReadingOrganization} { EarlyKept(b, s, pid, p, input); }
      else { LateKept(b, s, pid, p, input); }
      KeptSigner(s.world, p, s'.procs[pid]);
    }
  }

  lemma SignerStays(w: World, w': World, p: Process)
    requires SignerOk(w, p) && KeysStay(w, w')
    ensures SignerOk(w', p)
  {
  }

  lemma NextSigner(b: Builder, s: System, e: Event)
    requires SignerInv(s)
    ensures SignerInv(Next(b, s, e))
  {
    hide Move, SignerOk, KeysStay, Step, SS.ExchangeGrant, SS.PutNonce;
    var s' := Next(b, s, e);
    NextKeys(b, s, e);
    if e.Advance? && e.pid in s.procs && !s.procs[e.pid].Ended? { MoveSigner(b, s, e.pid, s.procs[e.pid], e.input); }
    if e.Start? && Fresh(e.process) { FreshSigner(s.world, e.process); }
    if e.Advance? && e.pid in s.procs && s.procs[e.pid].Ended? { EndedStays(b, s, e.pid, e.input); }
    forall i <- s'.procs ensures SignerOk(s'.world, s'.procs[i]) {
      assert SignerOk(s.world, s'.procs[i]);
      SignerStays(s.world, s'.world, s'.procs[i]);
    }
  }

  lemma FreshSigner(w: World, p: Process)
    requires Fresh(p)
    ensures SignerOk(w, p)
  {
  }

  lemma EndedStays(b: Builder, s: System, pid: nat, input: Input)
    ensures Move(b, s, pid, Ended, input) == s
  {
  }

  /** Event `i` of the run writes this entry: the call is for this tenant and token, its proof is by the holder that the
      claims name, with the key they carry, and it has read an active delegation that allows membership credentials and
      whose signing key of this tenant signed. */
  ghost predicate WritesAt(b: Builder, events: seq<Event>, i: nat, t: string, w: Written) {
    && i < |events| && events[i].Advance? && events[i].pid in Before(b, events, i).procs
    && Writes(Before(b, events, i), Before(b, events, i).procs[events[i].pid], t, w)
  }

  ghost predicate Writes(s: System, p: Process, t: string, w: Written) {
    && p.IssueCall? && p.stage == Writing && p.tenant == t && p.token == w.token && p.kmsKey == w.kmsKey
    && p.holder == w.claims.holderDid && p.jwk == w.claims.jwk
    && p.delegation.Some? && p.delegation.value.state == Active
    && "PoliticalPartyMembershipCredential" in p.delegation.value.credentialTypes
    && (var keys := At(s.world, t).signingKeys;
        p.delegation.value.signingKeyId in keys && keys[p.delegation.value.signingKeyId].kmsKeyVersion == w.kmsKey)
  }

  lemma HolderIsClaimed(b: Builder, s: System, pid: nat)
    requires Inv(b, s) && Stands(s, pid, Writing)
    ensures Prepared(s.procs[pid]) && ClaimsOf(b, s.procs[pid]).holderDid == s.procs[pid].holder
  {
    hide GrantInv, AccessInv, RecordInv, NonceInv, NoClash;
    assert ProcessOk(s, pid, s.procs[pid]);
  }

  lemma NextWriter(b: Builder, s: System, e: Event, t: string, c: string)
    requires Inv(b, s) && SignerInv(s) && (t, c) in Next(b, s, e).history.writer
    requires !((t, c) in s.history.writer && Next(b, s, e).history.writer[(t, c)] == s.history.writer[(t, c)])
    ensures e.Advance? && e.pid in s.procs && Writes(s, s.procs[e.pid], t, Next(b, s, e).history.writer[(t, c)])
  {
    hide Inv, TakeRequest, MakeGrant, ReadAccess, SpendNonce, ReadOrganization, ReadDelegation, ReadKey, Reserve, Reread, Audit, Prepare, Mark;
    hide Step, SS.ExchangeGrant, SS.PutNonce, RecordOf, PutRecord;
    WriterKept(b, s, e);
    HolderIsClaimed(b, s, e.pid);
    assert SignerOk(s.world, s.procs[e.pid]);
  }

  /** Only the writing step touches the record of who wrote what. */
  lemma WriterKept(b: Builder, s: System, e: Event)
    ensures Next(b, s, e).history.writer == s.history.writer
            || (e.Advance? && Stands(s, e.pid, Writing) && Prepared(s.procs[e.pid]))
  {
    hide ConsumeRequest, ReserveIndex, PutRecord, AppendAudit, RecordOf, ActiveDelegation, Accepts, Step;
    hide SS.PutGrant, SS.ConsumeNonce, SS.PrepareUpdate, SS.ConsumeAccess, SS.AccessByHash, SS.ExchangeGrant, SS.PutNonce;
  }

  lemma BeforeAll(b: Builder, events: seq<Event>)
    ensures Before(b, events, 0) == INITIAL
  {
    assert events[..0] == [];
  }

  lemma {:induction false} SignerBefore(b: Builder, events: seq<Event>, n: nat)
    requires n <= |events|
    ensures SignerInv(Before(b, events, n))
  {
    hide Next;
    if n > 0 {
      SignerBefore(b, events, n - 1);
      BeforeStep(b, events, n - 1);
      NextSigner(b, Before(b, events, n - 1), events[n - 1]);
    } else {
      BeforeAll(b, events);
    }
  }

  /** Every entry of the record of who wrote what was written by a call that fits it. */
  lemma {:induction false} WrittenBy(b: Builder, events: seq<Event>, n: nat, t: string, c: string)
    requires n <= |events| && (t, c) in Before(b, events, n).history.writer
    ensures exists i: nat :: i < n && WritesAt(b, events, i, t, Before(b, events, n).history.writer[(t, c)])
  {
    hide Next, Inv, SignerInv, Writes;
    if n == 0 {
      BeforeAll(b, events);
    } else {
      var s, s' := Before(b, events, n - 1), Before(b, events, n);
      BeforeStep(b, events, n - 1);
      if (t, c) in s.history.writer && s'.history.writer[(t, c)] == s.history.writer[(t, c)] {
        WrittenBy(b, events, n - 1, t, c);
      } else {
        ReachedInv(b, events[..n - 1]);
        SignerBefore(b, events, n - 1);
        NextWriter(b, s, events[n - 1], t, c);
        assert WritesAt(b, events, n - 1, t, s'.history.writer[(t, c)]);
      }
    }
  }

  /** Over every run: every credential record was written by a call whose proof is by the holder that the record's claims
      name, for the token the record was written for, and was signed with a key of the tenant that an active delegation for
      membership credentials named. */
  lemma RecordHasCall(b: Builder, events: seq<Event>, t: string, c: string)
    requires c in At(Reached(b, events).world, t).credentials
    ensures (t, c) in Reached(b, events).history.writer
    ensures exists i: nat :: WritesAt(b, events, i, t, Reached(b, events).history.writer[(t, c)])
  {
    hide Run, WritesAt;
    RecordCarriesToken(b, events, t, c);
    assert events[..|events|] == events;
    WrittenBy(b, events, |events|, t, c);
  }

  // ------------------------------------------------------------------------- what is in every record

  /** A membership credential, valid for ninety days. */
  ghost predicate Shaped(r: Record) {
    r.credentialType == "PoliticalPartyMembershipCredential" && r.expiresAt == r.issuedAt + NINETY
  }

  ghost predicate AllShaped(w: World) {
    forall t, c :: c in At(w, t).credentials ==> Shaped(At(w, t).credentials[c])
  }

  lemma StepShaped(ts: TenantState, id: string, op: Op)
    requires !(op.OnCredentials? && op.credentialOp.PuttingRecord?) && forall c <- ts.credentials :: Shaped(ts.credentials[c])
    ensures forall c <- Step(ts, id, op).0.credentials :: Shaped(Step(ts, id, op).0.credentials[c])
  {
    hide StepTenant, StepDelegations, StepTemplates, StepRequests, StepAudit, FirstFree, Attempted;
  }

  lemma NextShaped(b: Builder, s: System, e: Event)
    requires AllShaped(s.world)
    ensures AllShaped(Next(b, s, e).world)
  {
    hide Step, Move, CallIn, SS.ExchangeGrant, SS.PutNonce, Feasible, Shaped;
    var s' := Next(b, s, e);
    if e.Advance? && e.pid in s.procs {
      var p := s.procs[e.pid];
      var call := CallIn(b, p, e.input);
      MoveIsCall(b, s, e.pid, p, e.input);
      if !p.Ended? && call.Some? {
        CallShaped(b, At(s.world, p.tenant), p, e.input);
        SetShaped(s.world, p.tenant, Step(At(s.world, p.tenant), p.tenant, call.value).0);
        SameShaped(StepWorld(s.world, p.tenant, call.value), s'.world);
      }
    }
    if e.Other? && !Reserved(e.op) {
      StepShaped(At(s.world, e.tenant), e.tenant, e.op);
      SetShaped(s.world, e.tenant, Step(At(s.world, e.tenant), e.tenant, e.op).0);
    }
  }

  lemma SameShaped(w: World, w': World)
    requires AllShaped(w) && SameWorld(w', w)
    ensures AllShaped(w')
  {
    hide Shaped;
    forall u, c | c in At(w', u).credentials ensures Shaped(At(w', u).credentials[c]) {
      assert At(w', u) == At(w, u);
    }
  }

  lemma SetShaped(w: World, t: string, ts: TenantState)
    requires AllShaped(w) && forall c <- ts.credentials :: Shaped(ts.credentials[c])
    ensures AllShaped(w[t := ts])
  {
    hide Shaped;
    var w' := w[t := ts];
    forall u, c | c in At(w', u).credentials ensures Shaped(At(w', u).credentials[c]) {
      if u != t { assert At(w', u) == At(w, u); }
    }
  }

  lemma CallShaped(b: Builder, ts: TenantState, p: Process, input: Input)
    requires !p.Ended? && CallIn(b, p, input).Some? && forall c <- ts.credentials :: Shaped(ts.credentials[c])
    ensures var ts' := Step(ts, p.tenant, CallIn(b, p, input).value).0;
      forall c <- ts'.credentials :: Shaped(ts'.credentials[c])
  {
    hide RecordOf, Shaped, ConsumeRequest, ReserveIndex, AppendAudit;
    var op := CallIn(b, p, input).value;
    if op.OnCredentials? && op.credentialOp.PuttingRecord? {
      NewShaped(b, p);
    } else {
      StepShaped(ts, p.tenant, op);
    }
  }

  lemma NewShaped(b: Builder, p: Process)
    requires Prepared(p)
    ensures Shaped(RecordOf(b, p).(tenantId := p.tenant))
  {
    hide CredentialId;
  }

  lemma {:induction false} RunShaped(b: Builder, s: System, events: seq<Event>)
    requires AllShaped(s.world)
    ensures AllShaped(Run(b, s, events).world)
    decreases |events|
  {
    hide Next, AllShaped;
    if events != [] {
      NextShaped(b, s, events[0]);
      RunShaped(b, Next(b, s, events[0]), events[1..]);
    }
  }

  /** Over every run: each record is a membership credential valid for ninety days, issued by the tenant's organization under
      the tenant's address, for the hash of its holder. */
  lemma RecordContents(b: Builder, events: seq<Event>, t: string, c: string)
    requires c in At(Reached(b, events).world, t).credentials
    ensures var s := Reached(b, events);
      var ts := At(s.world, t);
      && (t, c) in s.history.writer && ts.tenant.Some?
      && (var r, w := ts.credentials[c], s.history.writer[(t, c)];
          && r.tenantId == t && r.credentialType == "PoliticalPartyMembershipCredential"
          && r.expiresAt == r.issuedAt + 7_776_000_000_000_000
          && r.subjectHash == b.hash(w.claims.holderDid) && r.credentialHash == b.jwtHash(w.kmsKey, w.claims)
          && w.claims.issuerDid == ts.tenant.value.organizationDid && w.claims.issuerUrl == b.baseUrl + "/tenants/" + t)
  {
    hide GrantInv, AccessInv, NonceInv, NoClash, ProcessOk, Run, CredentialId;
    var s := Reached(b, events);
    ReachedInv(b, events);
    assert RecordOk(b, At(s.world, t), s.db.access, t, c, s.history.writer[(t, c)]);
    TokenHasGrant(b, events, s.history.writer[(t, c)].token);
    assert AllShaped(s.world) by { RunShaped(b, INITIAL, events); }
    assert Shaped(At(s.world, t).credentials[c]);
  }
}
