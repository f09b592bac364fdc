/** What every call on the hosted-issuer store keeps, over every run of one tenant's calls. */
module HostedInvariants {
  import opened Wrappers
  import opened HostedStore
  import Cursor

  // -------------------------------------------------------------------- runs of one tenant

  function Run(ts: TenantState, id: string, ops: seq<Op>): TenantState
    decreases |ops|
  {
    if ops == [] then ts else Run(Step(ts, id, ops[0]).0, id, ops[1..])
  }

  ghost predicate FeasibleRun(ts: TenantState, id: string, ops: seq<Op>)
    decreases |ops|
  {
    ops == [] || (Feasible(ts, ops[0]) && FeasibleRun(Step(ts, id, ops[0]).0, id, ops[1..]))
  }

  // --------------------------------------------------------------------------- delegations

  /** At most one delegation is active; an active one has a threshold of approvals and its tenant is
      active; approvals come from registered administrators, of whom there are never more than a
      positive administrator count allows. */
  ghost predicate DelegationInv(tenant: Option<Tenant>, admins: map<string, Administrator>,
                                delegations: map<string, Delegation>)
  {
    && (forall k <- delegations :: delegations[k].id == k && delegations[k].approvals.Keys <= admins.Keys)
    && (forall j, k :: (j in delegations && k in delegations
                        && delegations[j].state == Active && delegations[k].state == Active) ==> j == k)
    && (forall k <- delegations :: delegations[k].state == Active ==>
          tenant.Some? && tenant.value.status == TenantActive && |delegations[k].approvals| >= tenant.value.threshold)
    && (tenant.None? ==> admins == map[] && delegations == map[])
    && (tenant.Some? ==> tenant.value.threshold >= 1)
    && (tenant.Some? && tenant.value.administratorCount > 0 ==> |admins| <= tenant.value.administratorCount)
  }

  ghost predicate GovernanceInv(ts: TenantState) {
    DelegationInv(ts.tenant, ts.admins, ts.delegations)
  }

  lemma InsertSize<V>(m: map<string, V>, k: string, v: V)
    ensures |m[k := v]| == if k in m then |m| else |m| + 1
  {
    assert m[k := v].Keys == m.Keys + {k};
  }

  lemma PutAdministratorKeeps(ts: TenantState, id: string, a: Administrator)
    requires GovernanceInv(ts)
    ensures GovernanceInv(PutAdministrator(ts, id, a).0)
  {
    InsertSize(ts.admins, a.did, a.(tenantId := id));
  }

  lemma ProposeKeeps(ts: TenantState, id: string, d: Delegation)
    requires GovernanceInv(ts)
    ensures GovernanceInv(Propose(ts, id, d).0)
  {
  }

  lemma WithApproval(tenant: Option<Tenant>, admins: map<string, Administrator>, ds: map<string, Delegation>,
                     k: string, who: string, signature: seq<int>)
    requires DelegationInv(tenant, admins, ds) && k in ds && who in admins
    ensures DelegationInv(tenant, admins, ds[k := ds[k].(approvals := ds[k].approvals[who := signature])])
  {
    InsertSize(ds[k].approvals, who, signature);
  }

  lemma ApproveKeeps(ts: TenantState, delegationId: string, who: string, signature: seq<int>)
    requires GovernanceInv(ts)
    ensures GovernanceInv(Approve(ts, delegationId, who, signature).0)
  {
    hide DelegationInv;
    if delegationId in ts.delegations && who in ts.admins {
      WithApproval(ts.tenant, ts.admins, ts.delegations, delegationId, who, signature);
    }
  }

  lemma ActivateKeeps(ts: TenantState, delegationId: string, now: Time)
    requires GovernanceInv(ts)
    ensures GovernanceInv(Activate(ts, delegationId, now).0)
  {
  }

  lemma RevokeKeeps(ts: TenantState, delegationId: string)
    requires GovernanceInv(ts)
    ensures GovernanceInv(Revoke(ts, delegationId).0)
  {
  }

  lemma BootstrapKeeps(ts: TenantState, t: Tenant, owner: Administrator)
    requires GovernanceInv(ts)
    ensures GovernanceInv(Bootstrap(ts, t, owner).0)
  {
    InsertSize(map[], owner.did, owner);
  }

  lemma CreateKeeps(ts: TenantState, t: Tenant)
    requires GovernanceInv(ts)
    ensures GovernanceInv(Create(ts, t).0)
  {
  }

  lemma TenantOpKeeps(ts: TenantState, id: string, op: TenantOp)
    requires GovernanceInv(ts)
    ensures GovernanceInv(StepTenant(ts, id, op).0)
  {
    hide Bootstrap, Create, PutAdministrator, PutSigningKey, DelegationInv;
    match op
    case Bootstrapping(t, owner) => BootstrapKeeps(ts, t, owner);
    case Creating(t) => CreateKeeps(ts, t);
    case PuttingAdministrator(a) => PutAdministratorKeeps(ts, id, a);
    case _ =>
  }

  lemma DelegationOpKeeps(ts: TenantState, id: string, op: DelegationOp)
    requires GovernanceInv(ts)
    ensures GovernanceInv(StepDelegations(ts, id, op).0)
  {
    hide Propose, Approve, Activate, Revoke, ActiveDelegation, DelegationInv;
    match op
    case Proposing(d) => ProposeKeeps(ts, id, d);
    case Approving(d, who, signature) => ApproveKeeps(ts, d, who, signature);
    case Activating(d, now) => ActivateKeeps(ts, d, now);
    case Revoking(d) => RevokeKeeps(ts, d);
    case ReadingActive(_, _) =>
  }

  /** Every call of the store keeps the delegation invariant. */
  lemma GovernanceStep(ts: TenantState, id: string, op: Op)
    requires GovernanceInv(ts)
    ensures GovernanceInv(Step(ts, id, op).0)
  {
    hide StepTenant, StepDelegations, StepTemplates, StepRequests, StepCredentials, StepAudit, DelegationInv;
    match op
    case OnTenant(o) => TenantOpKeeps(ts, id, o);
    case OnDelegations(o) => DelegationOpKeeps(ts, id, o);
    case _ =>
  }

  /** The empty store satisfies it. */
  lemma InitialGovernance()
    ensures GovernanceInv(EMPTY)
  {
  }

  /** So the invariant holds after every run from the empty store. */
  lemma {:induction false} GovernanceRun(ts: TenantState, id: string, ops: seq<Op>)
    requires GovernanceInv(ts)
    ensures GovernanceInv(Run(ts, id, ops))
    decreases |ops|
  {
    hide Step, DelegationInv;
    if ops != [] {
      GovernanceStep(ts, id, ops[0]);
      GovernanceRun(Step(ts, id, ops[0]).0, id, ops[1..]);
    }
  }

  /** The unique active delegation is found whatever the iteration order. */
  lemma ActiveDelegationUnique(ts: TenantState, now: Time, order: seq<string>, k: string)
    requires GovernanceInv(ts) && Enumerates(order, ts.delegations)
    requires k in ts.delegations && CurrentAt(now)(ts.delegations[k])
    ensures ActiveDelegation(ts, now, order) == (ts, DelegationIs(ts.delegations[k]))
  {
    FirstSpec(ts.delegations, order, CurrentAt(now));
    assert k in order;
  }

  lemma {:induction false} FirstSpec<V(!new)>(m: map<string, V>, order: seq<string>, p: V -> bool)
    ensures
      match First(m, order, p)
      case Some(v) => exists k <- order :: k in m && m[k] == v && p(v)
      case None => forall k <- order :: k in m ==> !p(m[k])
  {
    if order != [] { FirstSpec(m, order[1..], p); }
  }

  // --------------------------------------------------------------------- proposal sequence

  /** `h` is the highest sequence ever held by the listed delegations; 0 if there is none. */
  ghost predicate IsHighest(delegations: map<string, Delegation>, h: int) {
    if delegations == map[] then h == 0
    else (exists k <- delegations :: delegations[k].sequence == h)
         && forall k <- delegations :: delegations[k].sequence <= h
  }

  ghost predicate SequencesPositive(ts: TenantState) {
    forall k <- ts.delegations :: ts.delegations[k].sequence >= 1
  }

  lemma SequencesOnly(a: map<string, Delegation>, b: map<string, Delegation>, h: int, h': int)
    requires SameSequences(a, b)
    requires IsHighest(a, h) && IsHighest(b, h')
    ensures h == h'
  {
    if a != map[] {
      var k :| k in a && a[k].sequence == h;
      var j :| j in b && b[j].sequence == h';
      assert b[k].sequence <= h' && a[j].sequence <= h;
    }
  }

  lemma ProposeRaises(ts: TenantState, id: string, d: Delegation, h: int, h': int)
    requires SequencesPositive(ts) && Propose(ts, id, d).1 == Done
    requires IsHighest(ts.delegations, h) && IsHighest(Propose(ts, id, d).0.delegations, h')
    ensures h' == d.sequence > h
  {
    var ds := Propose(ts, id, d).0.delegations;
    assert d.id in ds && ds[d.id].sequence == d.sequence;
    assert d.sequence <= h';
    var k :| k in ds && ds[k].sequence == h';
    assert k == d.id || k in ts.delegations;
    if ts.delegations != map[] { var j :| j in ts.delegations && ts.delegations[j].sequence == h; }
  }

  /** Same delegations, same sequences. */
  ghost predicate SameSequences(a: map<string, Delegation>, b: map<string, Delegation>) {
    a.Keys == b.Keys && forall k <- a :: a[k].sequence == b[k].sequence
  }

  lemma ApproveSequences(ts: TenantState, d: string, who: string, signature: seq<int>)
    ensures SameSequences(ts.delegations, Approve(ts, d, who, signature).0.delegations)
  {
  }

  lemma ActivateSequences(ts: TenantState, d: string, now: Time)
    ensures SameSequences(ts.delegations, Activate(ts, d, now).0.delegations)
  {
  }

  lemma RevokeSequences(ts: TenantState, d: string)
    ensures SameSequences(ts.delegations, Revoke(ts, d).0.delegations)
  {
  }

  predicate IsProposal(op: Op) {
    op.OnDelegations? && op.delegationOp.Proposing?
  }

  lemma KeepsSequences(ts: TenantState, id: string, op: DelegationOp)
    requires !op.Proposing?
    ensures SameSequences(ts.delegations, StepDelegations(ts, id, op).0.delegations)
  {
    hide Propose, Approve, Activate, Revoke, ActiveDelegation;
    match op
    case Approving(d, who, signature) => ApproveSequences(ts, d, who, signature);
    case Activating(d, now) => ActivateSequences(ts, d, now);
    case Revoking(d) => RevokeSequences(ts, d);
    case ReadingActive(_, _) =>
  }

  /** Each accepted proposal strictly raises the tenant's highest sequence; nothing else moves it. */
  lemma HighestSequence(ts: TenantState, id: string, op: Op, h: int, h': int)
    requires SequencesPositive(ts)
    requires IsHighest(ts.delegations, h) && IsHighest(Step(ts, id, op).0.delegations, h')
    ensures if IsProposal(op) && Step(ts, id, op).1 == Done then h' > h else h' == h
    ensures SequencesPositive(Step(ts, id, op).0)
  {
    hide StepTenant, StepTemplates, StepRequests, StepCredentials, StepAudit, IsHighest;
    hide Approve, Activate, Revoke, ActiveDelegation;
    if IsProposal(op) && Step(ts, id, op).1 == Done {
      ProposeRaises(ts, id, op.delegationOp.delegation, h, h');
    } else {
      if op.OnDelegations? && !IsProposal(op) { KeepsSequences(ts, id, op.delegationOp); }
      SequencesOnly(ts.delegations, Step(ts, id, op).0.delegations, h, h');
    }
  }

  lemma {:induction false} HighestExists(delegations: map<string, Delegation>) returns (h: int)
    ensures IsHighest(delegations, h)
    decreases |delegations|
  {
    if delegations == map[] {
      h := 0;
    } else {
      var k :| k in delegations;
      var rest := delegations - {k};
      assert delegations.Keys == rest.Keys + {k};
      var h' := HighestExists(rest);
      h := if rest == map[] || delegations[k].sequence > h' then delegations[k].sequence else h';
      if h != delegations[k].sequence {
        var j :| j in rest && rest[j].sequence == h;
        assert delegations[j].sequence == h;
      }
      forall j <- delegations ensures delegations[j].sequence <= h { if j != k { assert j in rest; } }
    }
  }

  /** The sequences of the proposals that a run accepts, in order. */
  function AcceptedSequences(ts: TenantState, id: string, ops: seq<Op>): seq<int>
    decreases |ops|
  {
    if ops == [] then []
    else
      var (ts', r) := Step(ts, id, ops[0]);
      (if IsProposal(ops[0]) && r == Done then [ops[0].delegationOp.delegation.sequence] else [])
      + AcceptedSequences(ts', id, ops[1..])
  }

  /** The new highest sequence is that of the accepted proposal. */
  lemma HighestIsAccepted(ts: TenantState, id: string, op: Op, h': int)
    requires SequencesPositive(ts) && IsProposal(op) && Step(ts, id, op).1 == Done
    requires IsHighest(Step(ts, id, op).0.delegations, h')
    ensures h' == op.delegationOp.delegation.sequence
  {
    hide IsHighest, Propose;
    var h := HighestExists(ts.delegations);
    ProposeRaises(ts, id, op.delegationOp.delegation, h, h');
  }

  ghost predicate Increasing(s: seq<int>) {
    forall i, j :: 0 <= i < j < |s| ==> s[i] < s[j]
  }

  /** Over every run the sequences of accepted proposals strictly increase, all above the highest at the start;
      the last of them is the highest at the end. */
  lemma {:induction false} SequencesIncrease(ts: TenantState, id: string, ops: seq<Op>, h: int, end: int)
    requires SequencesPositive(ts) && IsHighest(ts.delegations, h) && IsHighest(Run(ts, id, ops).delegations, end)
    ensures var accepted := AcceptedSequences(ts, id, ops);
      && Increasing(accepted) && (forall n <- accepted :: h < n)
      && end == if accepted == [] then h else accepted[|accepted| - 1]
    decreases |ops|
  {
    hide Step, IsHighest, SequencesPositive, IsProposal, Increasing;
    if ops == [] {
      IncreasingNone();
      SameHighest(ts.delegations, h, end);
    } else {
      var ts' := Step(ts, id, ops[0]).0;
      var h' := HighestExists(ts'.delegations);
      HighestSequence(ts, id, ops[0], h, h');
      SequencesIncrease(ts', id, ops[1..], h', end);
      var rest := AcceptedSequences(ts', id, ops[1..]);
      assert [] + rest == rest;
      if IsProposal(ops[0]) && Step(ts, id, ops[0]).1 == Done {
        HighestIsAccepted(ts, id, ops[0], h');
        IncreasingCons(h', rest);
      }
    }
  }

  lemma IncreasingNone()
    ensures Increasing([])
  {
  }

  lemma IncreasingCons(n: int, s: seq<int>)
    requires Increasing(s) && forall m <- s :: n < m
    ensures Increasing([n] + s)
  {
    forall i | 0 <= i < |s| ensures n < s[i] { assert s[i] in s; }
  }

  lemma SameHighest(delegations: map<string, Delegation>, h: int, h': int)
    requires IsHighest(delegations, h) && IsHighest(delegations, h')
    ensures h == h'
  {
    hide IsHighest;
    SequencesOnly(delegations, delegations, h, h');
  }

  // ------------------------------------------------------------------- revoked delegations

  /** In this store "revoked" is not terminal: activating a revoked delegation succeeds exactly when it still has
      a threshold of approvals and the call falls into its validity period. */
  lemma RevokedReactivatesIff(ts: TenantState, delegationId: string, now: Time)
    requires ts.tenant.Some? && delegationId in ts.delegations && ts.delegations[delegationId].state == Revoked
    ensures var d := ts.delegations[delegationId];
            Activate(ts, delegationId, now).0.delegations[delegationId].state == Active
            <==> |d.approvals| >= ts.tenant.value.threshold && d.notBefore <= now < d.expiresAt
  {
  }

  /** The guards of `ProposeDelegation`. */
  ghost predicate MayPropose(ts: TenantState, id: string, d: Delegation) {
    && ts.tenant.Some? && InScope(d.tenantId, id) && d.id != "" && d.sequence >= 1 && d.payloadHash != ""
    && d.expiresAt != ZERO_TIME && forall k <- ts.delegations :: ts.delegations[k].sequence < d.sequence
  }

  /** The two calls that end the revoked state: activating the delegation with a threshold of approvals inside
      its validity period, and proposing another delegation under its id with a higher sequence than any. */
  ghost predicate Revives(ts: TenantState, id: string, op: Op, k: string)
    requires k in ts.delegations
  {
    match op
    case OnDelegations(Activating(d, now)) =>
      && d == k && ts.tenant.Some? && |ts.delegations[k].approvals| >= ts.tenant.value.threshold
      && ts.delegations[k].notBefore <= now < ts.delegations[k].expiresAt
    case OnDelegations(Proposing(d)) => d.id == k && MayPropose(ts, id, d)
    case _ => false
  }

  ghost predicate IsRevoked(ts: TenantState, k: string) {
    k in ts.delegations && ts.delegations[k].state == Revoked
  }

  lemma ProposeRevokedIff(ts: TenantState, id: string, d: Delegation, k: string)
    requires IsRevoked(ts, k)
    ensures IsRevoked(Propose(ts, id, d).0, k) <==> !(d.id == k && MayPropose(ts, id, d))
    ensures k in Propose(ts, id, d).0.delegations
  {
    hide InScope;
  }

  lemma ApproveKeepsRevoked(ts: TenantState, d: string, who: string, signature: seq<int>, k: string)
    requires IsRevoked(ts, k)
    ensures IsRevoked(Approve(ts, d, who, signature).0, k)
  {
  }

  lemma ActivateRevokedIff(ts: TenantState, id: string, d: string, now: Time, k: string)
    requires IsRevoked(ts, k)
    ensures IsRevoked(Activate(ts, d, now).0, k) <==> !Revives(ts, id, OnDelegations(Activating(d, now)), k)
    ensures k in Activate(ts, d, now).0.delegations
  {
  }

  lemma RevokeKeepsRevoked(ts: TenantState, d: string, k: string)
    requires IsRevoked(ts, k)
    ensures IsRevoked(Revoke(ts, d).0, k)
  {
  }

  lemma DelegationOpRevokedIff(ts: TenantState, id: string, op: DelegationOp, k: string)
    requires IsRevoked(ts, k)
    ensures IsRevoked(StepDelegations(ts, id, op).0, k) <==> !Revives(ts, id, OnDelegations(op), k)
    ensures k in StepDelegations(ts, id, op).0.delegations
  {
    hide Propose, Approve, Activate, Revoke, MayPropose, ActiveDelegation;
    match op
    case Proposing(d) => ProposeRevokedIff(ts, id, d, k);
    case Approving(d, who, signature) => ApproveKeepsRevoked(ts, d, who, signature, k);
    case Activating(d, now) => ActivateRevokedIff(ts, id, d, now, k);
    case Revoking(d) => RevokeKeepsRevoked(ts, d, k);
    case ReadingActive(_, _) =>
  }

  /** Every call of the store leaves a revoked delegation revoked, except exactly those two. */
  lemma RevokedStaysIff(ts: TenantState, id: string, op: Op, k: string)
    requires IsRevoked(ts, k)
    ensures IsRevoked(Step(ts, id, op).0, k) <==> !Revives(ts, id, op, k)
    ensures k in Step(ts, id, op).0.delegations
  {
    hide StepTenant, StepDelegations, StepTemplates, StepRequests, StepCredentials, StepAudit, MayPropose;
    if op.OnDelegations? { DelegationOpRevokedIff(ts, id, op.delegationOp, k); }
  }

  /** The delegation is revoked before and after every call of the run. */
  ghost predicate RevokedThroughout(ts: TenantState, id: string, ops: seq<Op>, k: string)
    decreases |ops|
  {
    IsRevoked(ts, k) && (ops == [] || RevokedThroughout(Step(ts, id, ops[0]).0, id, ops[1..], k))
  }

  /** No call of the run revives it. */
  ghost predicate NeverRevived(ts: TenantState, id: string, ops: seq<Op>, k: string)
    decreases |ops|
  {
    ops == [] || (k in ts.delegations && !Revives(ts, id, ops[0], k) && NeverRevived(Step(ts, id, ops[0]).0, id, ops[1..], k))
  }

  /** Over every run a revoked delegation stays revoked if and only if no call of the run revives it. */
  lemma {:induction false} RevokedForGoodIff(ts: TenantState, id: string, ops: seq<Op>, k: string)
    requires IsRevoked(ts, k)
    ensures RevokedThroughout(ts, id, ops, k) <==> NeverRevived(ts, id, ops, k)
    decreases |ops|
  {
    hide Step, Revives;
    if ops != [] {
      RevokedStaysIff(ts, id, ops[0], k);
      if IsRevoked(Step(ts, id, ops[0]).0, k) { RevokedForGoodIff(Step(ts, id, ops[0]).0, id, ops[1..], k); }
    }
  }

  /** A store where it happens: an approved delegation is activated, revoked and activated again. */
  lemma RevokedReactivates(ts: TenantState, delegationId: string, now: Time)
    requires ts.tenant.Some? && delegationId in ts.delegations
    requires Activate(ts, delegationId, now).1 == Done
    ensures
      var revoked := Revoke(Activate(ts, delegationId, now).0, delegationId).0;
      && revoked.delegations[delegationId].state == Revoked
      && Activate(revoked, delegationId, now).1 == Done
      && Activate(revoked, delegationId, now).0.delegations[delegationId].state == Active
  {
  }

  // -------------------------------------------------------------------------- status indexes

  lemma {:induction false} FirstFreeSpec(used: set<int>, draws: seq<int>)
    ensures
      match FirstFree(used, draws)
      case Some(i) => i in draws && i !in used
      case None => forall d <- draws :: d in used
  {
    if draws != [] { FirstFreeSpec(used, draws[1..]); }
  }

  /** Reserving succeeds exactly when one of the first 256 draws is free; the index is then a drawn one that
      nobody held, and the only one added. */
  lemma ReserveFindsFree(ts: TenantState, draws: seq<int>)
    requires ts.tenant.Some? && forall d <- draws :: 0 <= d < INDEX_SPACE
    ensures var (ts', r) := ReserveIndex(ts, draws);
      && (r.IndexIs? <==> exists d <- Attempted(draws) :: d !in ts.indexes)
      && (r.IndexIs? ==> r.index !in ts.indexes && 0 <= r.index < INDEX_SPACE && ts'.indexes == ts.indexes + {r.index})
      && (!r.IndexIs? ==> ts' == ts && r == Refused(if |draws| < 256 then RandomFailed else CollisionLimit))
  {
    FirstFreeSpec(ts.indexes, Attempted(draws));
    assert forall d <- Attempted(draws) :: d in draws;
  }

  // ----------------------------------------------------------------------------- templates

  /** The map key determines id and version, although ids may contain colons and digits. */
  lemma TemplateKeyInjective(a: string, v: int, b: string, w: int)
    requires v >= 0 && w >= 0 && TemplateKey(a, v) == TemplateKey(b, w)
    ensures a == b && v == w
  {
    var x, y := Cursor.Digits(v), Cursor.Digits(w);
    NoColonInDigits(a, x, b, y);
    Cursor.DigitsRoundTrip(v);
    Cursor.DigitsRoundTrip(w);
  }

  /** The last colon splits the key. */
  lemma NoColonInDigits(a: string, x: string, b: string, y: string)
    requires a + ":" + x == b + ":" + y
    requires (forall c <- x :: Cursor.IsDigit(c)) && (forall c <- y :: Cursor.IsDigit(c))
    ensures a == b && x == y
  {
    var s := a + ":" + x;
    assert s[|a|] == ':' && s[|b|] == ':';
    assert forall i :: |a| < i < |s| ==> s[i] == x[i - |a| - 1] && Cursor.IsDigit(s[i]);
    assert forall i :: |b| < i < |s| ==> s[i] == y[i - |b| - 1] && Cursor.IsDigit(s[i]);
    assert |a| == |b|;
    assert a == s[..|a|] == b;
    assert x == s[|a| + 1..] == y;
  }

  /** Templates are filed under their own id and version, and at most one version of an id is active. */
  ghost predicate TemplateInv(templates: map<string, Template>) {
    && (forall k <- templates :: templates[k].version >= 1 && k == TemplateKey(templates[k].id, templates[k].version))
    && (forall j, k :: (j in templates && k in templates && templates[j].active && templates[k].active
                        && templates[j].id == templates[k].id) ==> j == k)
  }

  /** `after` is `before` with some versions of `id` deactivated. */
  ghost predicate Deactivated(before: map<string, Template>, after: map<string, Template>, id: string) {
    && before.Keys == after.Keys
    && forall k <- before :: after[k] == before[k]
                         || (before[k].id == id && after[k] == before[k].(active := false))
  }

  lemma {:induction false} SupersedeSpec(templates: map<string, Template>, t: Template, order: seq<string>)
    ensures
      var (after, ok) := Supersede(templates, t, order);
      && Deactivated(templates, after, t.id)
      && (ok ==> forall k <- order :: k in templates && templates[k].id == t.id ==>
                   templates[k].version < t.version && (t.active ==> !after[k].active))
    decreases |order|
  {
    if order != [] {
      var k := order[0];
      if k in templates && templates[k].id == t.id && t.version > templates[k].version && t.active {
        SupersedeSpec(templates[k := templates[k].(active := false)], t, order[1..]);
      } else if !(k in templates && templates[k].id == t.id && t.version <= templates[k].version) {
        SupersedeSpec(templates, t, order[1..]);
      }
    }
  }

  lemma DeactivatedKeeps(before: map<string, Template>, after: map<string, Template>, id: string)
    requires TemplateInv(before) && Deactivated(before, after, id)
    ensures TemplateInv(after) && TemplatesEvolve(before, after)
  {
  }

  /** A fresh version under its own key, with the older versions inactive if it is active. */
  lemma AddTemplate(before: map<string, Template>, after: map<string, Template>, t: Template, filed: Template)
    requires TemplateInv(before) && Deactivated(before, after, t.id)
    requires t.version >= 1 && filed.id == t.id && filed.version == t.version && filed.active == t.active
    requires forall k <- before :: before[k].id == t.id ==>
               before[k].version < t.version && (t.active ==> !after[k].active)
    ensures TemplateKey(t.id, t.version) !in before
    ensures TemplateInv(after[TemplateKey(t.id, t.version) := filed])
    ensures TemplatesEvolve(before, after[TemplateKey(t.id, t.version) := filed])
  {
    hide TemplateKey;
    var key := TemplateKey(t.id, t.version);
    if key in before { TemplateKeyInjective(t.id, t.version, before[key].id, before[key].version); }
    DeactivatedKeeps(before, after, t.id);
  }

  /** For any iteration order at most one version stays active, even when the call fails half-way. */
  lemma PutTemplateKeeps(ts: TenantState, id: string, t: Template, order: seq<string>)
    requires TemplateInv(ts.templates) && Enumerates(order, ts.templates)
    ensures TemplateInv(PutTemplate(ts, id, t, order).0.templates)
    ensures TemplatesEvolve(ts.templates, PutTemplate(ts, id, t, order).0.templates)
    ensures PutTemplate(ts, id, t, order).1 == Done ==>
              && TemplateKey(t.id, t.version) !in ts.templates
              && forall k <- ts.templates :: ts.templates[k].id == t.id ==> ts.templates[k].version < t.version
  {
    hide Supersede, TemplateKey, TemplateInv, TemplatesEvolve, Deactivated;
    SupersedeSpec(ts.templates, t, order);
    var (after, ok) := Supersede(ts.templates, t, order);
    DeactivatedKeeps(ts.templates, after, t.id);
    if ok && t.version >= 1 { AddTemplate(ts.templates, after, t, t.(tenantId := id)); }
    TemplatesEvolveRefl(ts.templates);
  }

  lemma TemplatesEvolveRefl(templates: map<string, Template>)
    ensures TemplatesEvolve(templates, templates)
  {
  }

  /** Entries are never removed or rewritten, except that an active one may be deactivated. */
  ghost predicate TemplatesEvolve(before: map<string, Template>, after: map<string, Template>) {
    forall k <- before :: k in after && (after[k] == before[k] || after[k] == before[k].(active := false))
  }

  lemma TemplateStep(ts: TenantState, id: string, op: Op)
    requires TemplateInv(ts.templates) && Feasible(ts, op)
    ensures TemplateInv(Step(ts, id, op).0.templates)
    ensures TemplatesEvolve(ts.templates, Step(ts, id, op).0.templates)
  {
    hide StepTenant, StepDelegations, StepRequests, StepCredentials, StepAudit;
    hide PutTemplate, TemplateInv, TemplatesEvolve, Enumerates;
    TemplatesEvolveRefl(ts.templates);
    if op.OnTemplates? && op.templateOp.PuttingTemplate? {
      PutTemplateKeeps(ts, id, op.templateOp.template, op.templateOp.order);
    }
  }

  /** Over every run: at most one active version per id, and a deactivated version never becomes
      active again. */
  lemma {:induction false} TemplateRun(ts: TenantState, id: string, ops: seq<Op>)
    requires TemplateInv(ts.templates) && FeasibleRun(ts, id, ops)
    ensures TemplateInv(Run(ts, id, ops).templates)
    ensures TemplatesEvolve(ts.templates, Run(ts, id, ops).templates)
    decreases |ops|
  {
    hide Step, TemplateInv;
    if ops != [] {
      TemplateStep(ts, id, ops[0]);
      TemplateRun(Step(ts, id, ops[0]).0, id, ops[1..]);
    }
  }

  /** An accepted template is a higher version than every earlier one of its id, at the end of any run. */
  lemma TemplateVersionsIncrease(id: string, ops: seq<Op>, t: Template, order: seq<string>)
    requires FeasibleRun(EMPTY, id, ops) && Enumerates(order, Run(EMPTY, id, ops).templates)
    requires PutTemplate(Run(EMPTY, id, ops), id, t, order).1 == Done
    ensures forall k <- Run(EMPTY, id, ops).templates ::
              Run(EMPTY, id, ops).templates[k].id == t.id ==> Run(EMPTY, id, ops).templates[k].version < t.version
  {
    hide Run, FeasibleRun, PutTemplate, TemplateKey;
    TemplateRun(EMPTY, id, ops);
    PutTemplateKeeps(Run(EMPTY, id, ops), id, t, order);
  }

  /** The active version is found whatever the iteration order. */
  lemma ActiveTemplateUnique(ts: TenantState, order: seq<string>, k: string)
    requires TemplateInv(ts.templates) && Enumerates(order, ts.templates)
    requires k in ts.templates && ts.templates[k].active
    ensures ActiveTemplate(ts, ts.templates[k].id, order) == (ts, TemplateIs(ts.templates[k]))
  {
    FirstSpec(ts.templates, order, ActiveWithId(ts.templates[k].id));
    assert k in order;
  }
}
