/** The multi-tenant in-memory store (ansible_issuer/go/internal/hostedissuer/store.go): maps from tenant
    ids to each tenant's data. Every method is proved to do to the named tenant what `HostedStore` says and
    nothing at all to any other. */
module MemoryStores {
  import opened Wrappers
  import opened HostedStore

  /** `m[id]`, where a missing entry reads as an empty map. */
  function Sub<V>(m: map<string, map<string, V>>, id: string): map<string, V> {
    if id in m then m[id] else map[]
  }

  class MemoryStore {
    var tenants: map<string, Tenant>
    var admins: map<string, map<string, Administrator>>
    var delegations: map<string, map<string, Delegation>>
    var audit: map<string, seq<AuditEvent>>
    var signingKeys: map<string, map<string, SigningKey>>
    var credentials: map<string, map<string, Record>>
    var templates: map<string, map<string, Template>>
    var requests: map<string, map<string, Request>>
    var approvals: map<string, map<string, map<string, Approval>>>
    var statusIndexes: map<string, set<int>>

    /** One tenant's part of the store. */
    ghost function View(id: string): TenantState
      reads this
    {
      TenantState(
        if id in tenants then Some(tenants[id]) else None,
        Sub(admins, id), Sub(delegations, id), if id in audit then audit[id] else [],
        Sub(signingKeys, id), Sub(credentials, id), Sub(templates, id), Sub(requests, id), Sub(approvals, id),
        if id in statusIndexes then statusIndexes[id] else {})
    }

    constructor ()
      ensures forall id :: View(id) == EMPTY
      ensures Represents(this, map[])
    {
      tenants, admins, delegations, audit, signingKeys := map[], map[], map[], map[], map[];
      credentials, templates, requests, approvals, statusIndexes := map[], map[], map[], map[], map[];
    }

    // ------------------------------------------------------------------ tenants, administrators

    method BootstrapTenant(given: Tenant, owner: Administrator) returns (r: Reply)
      modifies this
      ensures (View(given.id), r) == Bootstrap(old(View(given.id)), given, owner)
      ensures forall u :: u != given.id ==> View(u) == old(View(u))
    {
      var t := given;
      if t.administratorCount == 0 { t := t.(administratorCount := t.threshold); }
      if t.id == "" || t.organizationDid == "" || t.serviceSlug == "" || t.threshold < 1
         || t.administratorCount < t.threshold
         || owner.did == "" || owner.custody != "hardware" || owner.signingAlgorithm != "p256-sha256" {
        return Refused(DelegationInvalid);
      }
      if t.id in tenants { return Refused(TenantExists); }
      var o := owner.(tenantId := t.id, role := "owner", state := "active");
      tenants := tenants[t.id := t];
      admins := admins[t.id := map[o.did := o]];
      return Done;
    }

    method CreateTenant(given: Tenant) returns (r: Reply)
      modifies this
      ensures (View(given.id), r) == Create(old(View(given.id)), given)
      ensures forall u :: u != given.id ==> View(u) == old(View(u))
    {
      var t := given;
      if t.administratorCount == 0 { t := t.(administratorCount := t.threshold); }
      if t.id == "" || t.organizationDid == "" || t.serviceSlug == "" || t.threshold < 1 {
        return Refused(DelegationInvalid);
      }
      if t.id in tenants { return Refused(TenantExists); }
      tenants := tenants[t.id := t];
      return Done;
    }

    method PutAdministrator(id: string, a: Administrator) returns (r: Reply)
      modifies this
      ensures (View(id), r) == HostedStore.PutAdministrator(old(View(id)), id, a)
      ensures forall u :: u != id ==> View(u) == old(View(u))
    {
      if id !in tenants { return Refused(NotFound); }
      if a.tenantId != "" && a.tenantId != id { return Refused(TenantScope); }
      var t := tenants[id];
      if a.did !in Sub(admins, id) && t.administratorCount > 0 && |Sub(admins, id)| >= t.administratorCount {
        return Refused(ThresholdNotMet);
      }
      var a' := a.(tenantId := id);
      admins := admins[id := Sub(admins, id)[a'.did := a']];
      return Done;
    }

    method PutSigningKey(id: string, k: SigningKey) returns (r: Reply)
      modifies this
      ensures (View(id), r) == HostedStore.PutSigningKey(old(View(id)), id, k)
      ensures forall u :: u != id ==> View(u) == old(View(u))
    {
      if id !in tenants { return Refused(NotFound); }
      if k.tenantId != "" && k.tenantId != id { return Refused(TenantScope); }
      var k' := k.(tenantId := id);
      if k'.id in Sub(signingKeys, id) { return Refused(DelegationInvalid); }
      signingKeys := signingKeys[id := Sub(signingKeys, id)[k'.id := k']];
      return Done;
    }

    // -------------------------------------------------------------- status indexes, credentials

    method ReserveStatusIndex(id: string, draws: seq<int>) returns (r: Reply)
      modifies this
      ensures (View(id), r) == ReserveIndex(old(View(id)), draws)
      ensures forall u :: u != id ==> View(u) == old(View(u))
    {
      if id !in tenants { return Refused(NotFound); }
      if id !in statusIndexes { statusIndexes := statusIndexes[id := {}]; }
      var attempt := 0;
      ghost var tried := Attempted(draws);
      ghost var used := statusIndexes[id];
      assert tried[0..] == tried;
      while attempt < INDEX_ATTEMPTS
        invariant 0 <= attempt <= |tried|
        invariant FirstFree(used, tried) == FirstFree(used, tried[attempt..])
        invariant id in statusIndexes && statusIndexes[id] == used && View(id) == old(View(id))
        invariant forall u :: u != id ==> View(u) == old(View(u))
      {
        if attempt >= |draws| { return Refused(RandomFailed); }
        var index := draws[attempt];
        assert tried[attempt..][0] == index && tried[attempt..][1..] == tried[attempt + 1..];
        if index !in statusIndexes[id] {
          statusIndexes := statusIndexes[id := statusIndexes[id] + {index}];
          return IndexIs(index);
        }
        attempt := attempt + 1;
      }
      return Refused(CollisionLimit);
    }

    method PutCredentialRecord(id: string, record: Record) returns (r: Reply)
      modifies this
      ensures (View(id), r) == PutRecord(old(View(id)), id, record)
      ensures forall u :: u != id ==> View(u) == old(View(u))
    {
      if record.tenantId != "" && record.tenantId != id { return Refused(TenantScope); }
      if id !in statusIndexes || record.statusIndex !in statusIndexes[id] { return Refused(DelegationInvalid); }
      var record' := record.(tenantId := id);
      if record.credentialId in Sub(credentials, id) {
        if credentials[id][record.credentialId].credentialHash == record.credentialHash { return Done; }
        return Refused(DelegationInvalid);
      }
      credentials := credentials[id := Sub(credentials, id)[record.credentialId := record']];
      return Done;
    }

    method SetCredentialStatus(id: string, credentialId: string, status: string) returns (r: Reply)
      modifies this
      ensures (View(id), r) == SetStatus(old(View(id)), credentialId, status)
      ensures forall u :: u != id ==> View(u) == old(View(u))
    {
      if credentialId !in Sub(credentials, id) { return Refused(NotFound); }
      if status != "active" && status != "revoked" && status != "suspended" { return Refused(DelegationInvalid); }
      var record := credentials[id][credentialId].(status := status);
      credentials := credentials[id := credentials[id][credentialId := record]];
      return Done;
    }

    // --------------------------------------------------------------------------------- templates

    method PutCredentialTemplate(id: string, t: Template, order: seq<string>) returns (r: Reply)
      requires Enumerates(order, Sub(templates, id))
      modifies this
      ensures (View(id), r) == PutTemplate(old(View(id)), id, t, order)
      ensures forall u :: u != id ==> View(u) == old(View(u))
    {
      hide Supersede, TemplateKey, ValidTemplate;
      if id !in tenants { return Refused(NotFound); }
      if t.tenantId != "" && t.tenantId != id { return Refused(TenantScope); }
      if !ValidTemplate(t) { return Refused(DelegationInvalid); }
      var known, ok := SupersedeOlder(Sub(templates, id), t, order);
      if !ok {
        FileTemplates(id, known);
        return Refused(DelegationReplay);
      }
      FileTemplates(id, known[TemplateKey(t.id, t.version) := t.(tenantId := id)]);
      return Done;
    }

    method FileTemplates(id: string, known: map<string, Template>)
      modifies this`templates
      ensures View(id) == old(View(id)).(templates := known)
      ensures forall u :: u != id ==> View(u) == old(View(u))
    {
      templates := templates[id := known];
    }

    method ActiveCredentialTemplate(id: string, templateId: string, order: seq<string>) returns (r: Reply)
      requires Enumerates(order, Sub(templates, id))
      ensures (View(id), r) == ActiveTemplate(View(id), templateId, order)
    {
      var known := Sub(templates, id);
      assert order[0..] == order;
      for i := 0 to |order|
        invariant First(known, order, ActiveWithId(templateId)) == First(known, order[i..], ActiveWithId(templateId))
      {
        var t := known[order[i]];
        assert order[i..][1..] == order[i + 1..];
        if t.id == templateId && t.active { return TemplateIs(t); }
      }
      return Refused(NotFound);
    }

    // --------------------------------------------------------------------------------- requests

    method PutIssuanceRequest(id: string, request: Request) returns (r: Reply)
      modifies this
      ensures (View(id), r) == PutRequest(old(View(id)), id, request)
      ensures forall u :: u != id ==> View(u) == old(View(u))
    {
      if request.tenantId != "" && request.tenantId != id { return Refused(TenantScope); }
      if request.id == "" || request.templateId == "" || request.templateVersion < 1 || request.applicantDid == ""
         || request.payloadHash == "" || request.expiresAt == ZERO_TIME { return Refused(DelegationInvalid); }
      if request.id in Sub(requests, id) { return Refused(DelegationReplay); }
      requests := requests[id := Sub(requests, id)[request.id := request.(tenantId := id, state := Pending)]];
      return Done;
    }

    method DecideIssuanceRequest(id: string, given: Approval, threshold: int) returns (r: Reply)
      modifies this
      ensures (View(id), r) == Decide(old(View(id)), id, given, threshold)
      ensures forall u :: u != id ==> View(u) == old(View(u))
    {
      hide Approvers, MayDecide;
      var rid, who := given.requestId, given.approverDid;
      if !MayDecide(Sub(requests, id), Sub(admins, id), given) { return Refused(DelegationInvalid); }
      var request := requests[id][rid];
      var decisions := ApprovalMap(id, rid);
      if who in decisions {
        if decisions[who].decision == given.decision && decisions[who].signedIntentHash == given.signedIntentHash {
          return RequestIs(request);
        }
        return Refused(DelegationReplay);
      }
      decisions := decisions[who := given.(tenantId := id)];
      request := Settle(request, decisions, given.decision, threshold);
      FileDecision(id, rid, decisions, request);
      return RequestIs(request);
    }

    method FileDecision(id: string, rid: string, decisions: map<string, Approval>, request: Request)
      requires id in requests
      modifies this`approvals, this`requests
      ensures View(id) == old(View(id)).(approvals := old(View(id)).approvals[rid := decisions],
                                         requests := old(View(id)).requests[rid := request])
      ensures forall u :: u != id ==> View(u) == old(View(u))
    {
      approvals := approvals[id := Sub(approvals, id)[rid := decisions]];
      requests := requests[id := requests[id][rid := request]];
    }

    function ApprovalMap(id: string, rid: string): map<string, Approval>
      reads this
    {
      if rid in Sub(approvals, id) then approvals[id][rid] else map[]
    }

    method ConsumeApprovedIssuanceRequest(id: string, requestId: string, now: Time) returns (r: Reply)
      modifies this
      ensures (View(id), r) == ConsumeRequest(old(View(id)), requestId, now)
      ensures forall u :: u != id ==> View(u) == old(View(u))
    {
      if requestId !in Sub(requests, id) || requests[id][requestId].state != Approved
         || now >= requests[id][requestId].expiresAt { return Refused(DelegationInvalid); }
      var request := requests[id][requestId].(state := Offered);
      requests := requests[id := requests[id][requestId := request]];
      return RequestIs(request);
    }

    // ------------------------------------------------------------------------------- delegations

    method ProposeDelegation(id: string, d: Delegation) returns (r: Reply)
      modifies this
      ensures (View(id), r) == Propose(old(View(id)), id, d)
      ensures forall u :: u != id ==> View(u) == old(View(u))
    {
      if id !in tenants { return Refused(NotFound); }
      if d.tenantId != "" && d.tenantId != id { return Refused(TenantScope); }
      if d.id == "" || d.sequence < 1 || d.payloadHash == "" || d.expiresAt == ZERO_TIME {
        return Refused(DelegationInvalid);
      }
      var known := Sub(delegations, id);
      var left := known.Keys;
      while left != {}
        invariant left <= known.Keys
        invariant forall k <- known :: k !in left ==> d.sequence > known[k].sequence
        decreases left
      {
        var k :| k in left;
        if d.sequence <= known[k].sequence { return Refused(DelegationReplay); }
        left := left - {k};
      }
      var d' := d.(tenantId := id, state := Proposed, approvals := map[]);
      delegations := delegations[id := known[d'.id := d']];
      return Done;
    }

    method ApproveDelegation(id: string, delegationId: string, who: string, signature: seq<int>) returns (r: Reply)
      modifies this
      ensures (View(id), r) == Approve(old(View(id)), delegationId, who, signature)
      ensures forall u :: u != id ==> View(u) == old(View(u))
    {
      if delegationId !in Sub(delegations, id) { return Refused(NotFound); }
      if who !in Sub(admins, id) || admins[id][who].state != "active" || |signature| == 0 {
        return Refused(DelegationInvalid);
      }
      var d := delegations[id][delegationId];
      d := d.(approvals := d.approvals[who := signature]);
      delegations := delegations[id := delegations[id][delegationId := d]];
      return Done;
    }

    method ActivateDelegation(id: string, delegationId: string, now: Time) returns (r: Reply)
      modifies this
      ensures (View(id), r) == Activate(old(View(id)), delegationId, now)
      ensures forall u :: u != id ==> View(u) == old(View(u))
    {
      if id !in tenants { return Refused(NotFound); }
      if delegationId !in Sub(delegations, id) { return Refused(NotFound); }
      var t, d := tenants[id], delegations[id][delegationId];
      if |d.approvals| < t.threshold { return Refused(ThresholdNotMet); }
      if now < d.notBefore || now >= d.expiresAt { return Refused(DelegationInvalid); }
      var demoted := DemoteActive(delegations[id]);
      delegations := delegations[id := demoted[delegationId := d.(state := Active)]];
      tenants := tenants[id := t.(status := TenantActive)];
      return Done;
    }

    method RevokeDelegation(id: string, delegationId: string, now: Time) returns (r: Reply)
      modifies this
      ensures (View(id), r) == Revoke(old(View(id)), delegationId)
      ensures forall u :: u != id ==> View(u) == old(View(u))
    {
      if id !in tenants { return Refused(NotFound); }
      if delegationId !in Sub(delegations, id) { return Refused(NotFound); }
      var t, d := tenants[id], delegations[id][delegationId];
      if d.state == Revoked { return Done; }
      var wasActive := d.state == Active;
      delegations := delegations[id := delegations[id][delegationId := d.(state := Revoked)]];
      if wasActive { tenants := tenants[id := t.(status := TenantPaused)]; }
      return Done;
    }

    method FindActiveDelegation(id: string, now: Time, order: seq<string>) returns (r: Reply)
      requires Enumerates(order, Sub(delegations, id))
      ensures (View(id), r) == ActiveDelegation(View(id), now, order)
    {
      if id !in tenants { return Refused(NotFound); }
      var known := Sub(delegations, id);
      assert order[0..] == order;
      for i := 0 to |order|
        invariant First(known, order, CurrentAt(now)) == First(known, order[i..], CurrentAt(now))
      {
        var d := known[order[i]];
        assert order[i..][1..] == order[i + 1..];
        if d.state == Active && now >= d.notBefore && now < d.expiresAt { return DelegationIs(d); }
      }
      return Refused(NotFound);
    }

    // ------------------------------------------------------------------------------------- audit

    method AppendAuditEvent(id: string, e: AuditEvent) returns (r: Reply)
      modifies this
      ensures (View(id), r) == AppendAudit(old(View(id)), id, e)
      ensures forall u :: u != id ==> View(u) == old(View(u))
    {
      if id !in tenants { return Refused(NotFound); }
      if e.tenantId != "" && e.tenantId != id { return Refused(TenantScope); }
      audit := audit[id := (if id in audit then audit[id] else []) + [e.(tenantId := id)]];
      return Done;
    }

    // ---------------------------------------------------------------------------------- readers

    method ReadTenant(id: string) returns (r: Reply)
      ensures (View(id), r) == StepTenant(View(id), id, ReadingTenant)
    {
      if id !in tenants { return Refused(NotFound); }
      return TenantIs(tenants[id]);
    }

    method ReadAdministrators(id: string) returns (r: Reply)
      ensures (View(id), r) == StepTenant(View(id), id, ReadingAdministrators)
    {
      if id !in tenants { return Refused(NotFound); }
      return AdminsAre(Sub(admins, id));
    }

    method ReadSigningKey(id: string, keyId: string) returns (r: Reply)
      ensures (View(id), r) == StepTenant(View(id), id, ReadingSigningKey(keyId))
    {
      if keyId !in Sub(signingKeys, id) { return Refused(NotFound); }
      return KeyIs(signingKeys[id][keyId]);
    }

    method ReadIssuanceRequest(id: string, requestId: string) returns (r: Reply)
      ensures (View(id), r) == StepRequests(View(id), id, ReadingRequest(requestId))
    {
      if requestId !in Sub(requests, id) { return Refused(NotFound); }
      return RequestIs(requests[id][requestId]);
    }

    method ReadCredentialRecords(id: string) returns (r: Reply)
      ensures (View(id), r) == StepCredentials(View(id), id, ReadingRecords)
    {
      if id !in tenants { return Refused(NotFound); }
      return RecordsAre(Sub(credentials, id));
    }

    method ReadAudit(id: string) returns (r: Reply)
      ensures (View(id), r) == StepAudit(View(id), id, ReadingAudit)
    {
      if id !in tenants { return Refused(NotFound); }
      return AuditIs(if id in audit then audit[id] else []);
    }
  }

  /** One call through the store interface: whatever the call, it does to the named tenant what `Step` says
      and nothing to any other. */
  method Perform(store: MemoryStore, c: Call) returns (r: Reply)
    requires Feasible(store.View(c.tenant), c.op)
    requires c.op.OnTenant? && (c.op.tenantOp.Bootstrapping? || c.op.tenantOp.Creating?) ==>
               c.op.tenantOp.tenant.id == c.tenant
    modifies store
    ensures (store.View(c.tenant), r) == Step(old(store.View(c.tenant)), c.tenant, c.op)
    ensures forall u :: u != c.tenant ==> store.View(u) == old(store.View(u))
  {
    hide StepTenant, StepDelegations, StepTemplates, StepRequests, StepCredentials, StepAudit, Enumerates;
    match c.op
    case OnTenant(o) => r := PerformTenant(store, c.tenant, o);
    case OnDelegations(o) => r := PerformDelegation(store, c.tenant, o);
    case OnTemplates(o) => r := PerformTemplate(store, c.tenant, o);
    case OnRequests(o) => r := PerformRequest(store, c.tenant, o);
    case OnCredentials(o) => r := PerformCredential(store, c.tenant, o);
    case OnAudit(o) => r := PerformAudit(store, c.tenant, o);
  }

  method PerformTenant(store: MemoryStore, id: string, op: TenantOp) returns (r: Reply)
    requires op.Bootstrapping? || op.Creating? ==> op.tenant.id == id
    modifies store
    ensures (store.View(id), r) == StepTenant(old(store.View(id)), id, op)
    ensures forall u :: u != id ==> store.View(u) == old(store.View(u))
  {
    hide Bootstrap, Create, HostedStore.PutAdministrator, HostedStore.PutSigningKey;
    match op
    case Bootstrapping(t, owner) => r := store.BootstrapTenant(t, owner);
    case Creating(t) => r := store.CreateTenant(t);
    case ReadingTenant => r := store.ReadTenant(id);
    case PuttingAdministrator(a) => r := store.PutAdministrator(id, a);
    case ReadingAdministrators => r := store.ReadAdministrators(id);
    case PuttingSigningKey(k) => r := store.PutSigningKey(id, k);
    case ReadingSigningKey(k) => r := store.ReadSigningKey(id, k);
  }

  method PerformDelegation(store: MemoryStore, id: string, op: DelegationOp) returns (r: Reply)
    requires op.ReadingActive? ==> Enumerates(op.order, store.View(id).delegations)
    modifies store
    ensures (store.View(id), r) == StepDelegations(old(store.View(id)), id, op)
    ensures forall u :: u != id ==> store.View(u) == old(store.View(u))
  {
    hide Propose, Approve, Activate, Revoke, ActiveDelegation, Enumerates;
    match op
    case Proposing(d) => r := store.ProposeDelegation(id, d);
    case Approving(d, who, signature) => r := store.ApproveDelegation(id, d, who, signature);
    case Activating(d, now) => r := store.ActivateDelegation(id, d, now);
    case Revoking(d) => r := store.RevokeDelegation(id, d, 0);
    case ReadingActive(now, order) => r := store.FindActiveDelegation(id, now, order);
  }

  method PerformTemplate(store: MemoryStore, id: string, op: TemplateOp) returns (r: Reply)
    requires Enumerates(op.order, store.View(id).templates)
    modifies store
    ensures (store.View(id), r) == StepTemplates(old(store.View(id)), id, op)
    ensures forall u :: u != id ==> store.View(u) == old(store.View(u))
  {
    hide PutTemplate, ActiveTemplate, Enumerates;
    match op
    case PuttingTemplate(t, order) => r := store.PutCredentialTemplate(id, t, order);
    case ReadingTemplate(t, order) => r := store.ActiveCredentialTemplate(id, t, order);
  }

  method PerformRequest(store: MemoryStore, id: string, op: RequestOp) returns (r: Reply)
    modifies store
    ensures (store.View(id), r) == StepRequests(old(store.View(id)), id, op)
    ensures forall u :: u != id ==> store.View(u) == old(store.View(u))
  {
    hide PutRequest, Decide, ConsumeRequest;
    match op
    case PuttingRequest(request) => r := store.PutIssuanceRequest(id, request);
    case ReadingRequest(requestId) => r := store.ReadIssuanceRequest(id, requestId);
    case Deciding(a, threshold) => r := store.DecideIssuanceRequest(id, a, threshold);
    case Consuming(requestId, now) => r := store.ConsumeApprovedIssuanceRequest(id, requestId, now);
  }

  method PerformCredential(store: MemoryStore, id: string, op: CredentialOp) returns (r: Reply)
    modifies store
    ensures (store.View(id), r) == StepCredentials(old(store.View(id)), id, op)
    ensures forall u :: u != id ==> store.View(u) == old(store.View(u))
  {
    hide ReserveIndex, PutRecord, SetStatus;
    match op
    case Reserving(draws) => r := store.ReserveStatusIndex(id, draws);
    case PuttingRecord(record) => r := store.PutCredentialRecord(id, record);
    case SettingStatus(c, status) => r := store.SetCredentialStatus(id, c, status);
    case ReadingRecords => r := store.ReadCredentialRecords(id);
  }

  method PerformAudit(store: MemoryStore, id: string, op: AuditOp) returns (r: Reply)
    modifies store
    ensures (store.View(id), r) == StepAudit(old(store.View(id)), id, op)
    ensures forall u :: u != id ==> store.View(u) == old(store.View(u))
  {
    hide AppendAudit;
    match op
    case Appending(e) => r := store.AppendAuditEvent(id, e);
    case ReadingAudit => r := store.ReadAudit(id);
  }

  /** The loop of `PutCredentialTemplate` over the existing templates, in iteration order: it may stop
      with an error after some versions were already deactivated. */
  method SupersedeOlder(known: map<string, Template>, t: Template, order: seq<string>)
    returns (after: map<string, Template>, ok: bool)
    requires forall k <- order :: k in known
    ensures (after, ok) == Supersede(known, t, order)
  {
    after := known;
    assert order[0..] == order;
    for i := 0 to |order|
      invariant after.Keys == known.Keys
      invariant Supersede(known, t, order) == Supersede(after, t, order[i..])
    {
      var current := after[order[i]];
      assert order[i..][1..] == order[i + 1..];
      if current.id == t.id {
        if t.version <= current.version { return after, false; }
        if t.active { after := after[order[i] := current.(active := false)]; }
      }
    }
    return after, true;
  }

  /** The counting loop of `DecideIssuanceRequest`. */
  method CountApprovals(decisions: map<string, Approval>) returns (approved: nat)
    ensures approved == |Approvers(decisions)|
  {
    approved := 0;
    var left := decisions.Keys;
    ghost var counted: set<string> := {};
    while left != {}
      invariant left <= decisions.Keys
      invariant counted == Approvers(decisions) - left && approved == |counted|
      decreases left
    {
      var k :| k in left;
      left := left - {k};
      if decisions[k].decision == "approve" {
        approved := approved + 1;
        counted := counted + {k};
      }
    }
    assert counted == Approvers(decisions);
  }

  /** The end of `DecideIssuanceRequest`: deny at once, or approve once enough have approved. */
  method Settle(request: Request, decisions: map<string, Approval>, decision: string, threshold: int)
    returns (r: Request)
    requires request.state == Pending
    ensures r == request.(state := if decision == "deny" then Denied
                                   else if |Approvers(decisions)| >= threshold then Approved else Pending)
  {
    r := request;
    if decision == "deny" {
      r := r.(state := Denied);
    } else {
      var approved := CountApprovals(decisions);
      if approved >= threshold { r := r.(state := Approved); }
    }
  }

  /** The loop of `ActivateDelegation` that supersedes whatever is active. */
  method DemoteActive(known: map<string, Delegation>) returns (r: map<string, Delegation>)
    ensures r == map k | k in known :: Demoted(known[k])
  {
    r := known;
    var left := known.Keys;
    while left != {}
      invariant left <= known.Keys && r.Keys == known.Keys
      invariant forall k <- known :: r[k] == if k in left then known[k] else Demoted(known[k])
      decreases left
    {
      var k :| k in left;
      left := left - {k};
      var current := r[k];
      if current.state == Active { r := r[k := current.(state := Superseded)]; }
    }
  }

  // ------------------------------------------------------------------------ tenant projection

  /** A call with the tenant it is for. */
  datatype Call = Call(tenant: string, op: Op)

  type World = map<string, TenantState>

  function At(w: World, id: string): TenantState {
    if id in w then w[id] else EMPTY
  }

  function RunAll(w: World, calls: seq<Call>): (World, seq<(string, Reply)>)
    decreases |calls|
  {
    if calls == [] then (w, [])
    else
      var c := calls[0];
      var (ts, r) := Step(At(w, c.tenant), c.tenant, c.op);
      var (w', rest) := RunAll(w[c.tenant := ts], calls[1..]);
      (w', [(c.tenant, r)] + rest)
  }

  function OnlyCalls(calls: seq<Call>, id: string): seq<Call> {
    if calls == [] then []
    else (if calls[0].tenant == id then [calls[0]] else []) + OnlyCalls(calls[1..], id)
  }

  function OnlyReplies(replies: seq<(string, Reply)>, id: string): seq<(string, Reply)> {
    if replies == [] then []
    else (if replies[0].0 == id then [replies[0]] else []) + OnlyReplies(replies[1..], id)
  }

  /** For every mixed run, one tenant's replies and final state are those of the run from which all
      other tenants' calls are removed, even if the other tenants' data were different to start with. */
  lemma {:induction false} TenantProjection(w: World, v: World, calls: seq<Call>, id: string)
    requires At(w, id) == At(v, id)
    ensures At(RunAll(w, calls).0, id) == At(RunAll(v, OnlyCalls(calls, id)).0, id)
    ensures OnlyReplies(RunAll(w, calls).1, id) == RunAll(v, OnlyCalls(calls, id)).1
    decreases |calls|
  {
    if calls != [] {
      hide Step, RunAll, OnlyReplies, OnlyCalls;
      var c, tail := calls[0], calls[1..];
      var (ts, r) := Step(At(w, c.tenant), c.tenant, c.op);
      var w' := w[c.tenant := ts];
      RunAllStep(w, calls);
      RepliesStep((c.tenant, r), RunAll(w', tail).1, id);
      CallsStep(calls, id);
      if c.tenant == id {
        var v' := v[id := ts];
        assert At(w', id) == At(v', id) == ts;
        TenantProjection(w', v', tail, id);
        RunAllStep(v, OnlyCalls(calls, id));
      } else {
        assert At(w', id) == At(w, id);
        TenantProjection(w', v, tail, id);
      }
    }
  }

  lemma CallsStep(calls: seq<Call>, id: string)
    requires calls != []
    ensures if calls[0].tenant == id
            then OnlyCalls(calls, id) != [] && OnlyCalls(calls, id)[0] == calls[0]
                 && OnlyCalls(calls, id)[1..] == OnlyCalls(calls[1..], id)
            else OnlyCalls(calls, id) == OnlyCalls(calls[1..], id)
  {
  }

  lemma RunAllStep(w: World, calls: seq<Call>)
    requires calls != []
    ensures
      var (ts, r) := Step(At(w, calls[0].tenant), calls[0].tenant, calls[0].op);
      var (w', rest) := RunAll(w[calls[0].tenant := ts], calls[1..]);
      RunAll(w, calls) == (w', [(calls[0].tenant, r)] + rest)
  {
    hide Step;
  }

  lemma RepliesStep(head: (string, Reply), rest: seq<(string, Reply)>, id: string)
    ensures OnlyReplies([head] + rest, id) == (if head.0 == id then [head] else []) + OnlyReplies(rest, id)
  {
    assert ([head] + rest)[1..] == rest;
  }

  // -------------------------------------------------------------------- runs of the store itself

  /** Every call of the run gets an iteration order of the maps as they then are, and names its own tenant. */
  ghost predicate FeasibleCalls(w: World, calls: seq<Call>)
    decreases |calls|
  {
    calls == [] || (FeasibleCall(w, calls[0]) && FeasibleCalls(After(w, calls[0]), calls[1..]))
  }

  ghost predicate FeasibleCall(w: World, c: Call) {
    && Feasible(At(w, c.tenant), c.op)
    && (c.op.OnTenant? && (c.op.tenantOp.Bootstrapping? || c.op.tenantOp.Creating?) ==>
          c.op.tenantOp.tenant.id == c.tenant)
  }

  function After(w: World, c: Call): World {
    w[c.tenant := Step(At(w, c.tenant), c.tenant, c.op).0]
  }

  /** The store's nested maps hold, tenant by tenant, what `w` says. */
  ghost predicate Represents(store: MemoryStore, w: World)
    reads store
  {
    forall id :: store.View(id) == At(w, id)
  }

  /** A run of the nested-map store computes the run of the tenants' states. */
  method PerformAll(store: MemoryStore, calls: seq<Call>, ghost w: World) returns (replies: seq<(string, Reply)>)
    requires Represents(store, w) && FeasibleCalls(w, calls)
    modifies store
    ensures replies == RunAll(w, calls).1
    ensures Represents(store, RunAll(w, calls).0)
    decreases |calls|
  {
    hide Step, RunAll, Feasible;
    if |calls| == 0 {
      RunAllNone(w);
      return [];
    }
    var c := calls[0];
    var r := Perform(store, c);
    RunAllStep(w, calls);
    var rest := PerformAll(store, calls[1..], After(w, c));
    return [(c.tenant, r)] + rest;
  }

  lemma RunAllNone(w: World)
    ensures RunAll(w, []) == (w, [])
  {
  }

  lemma {:induction false} FeasibleProjection(w: World, v: World, calls: seq<Call>, id: string)
    requires At(w, id) == At(v, id) && FeasibleCalls(w, calls)
    ensures FeasibleCalls(v, OnlyCalls(calls, id))
    decreases |calls|
  {
    hide Step, Feasible, OnlyCalls;
    if calls == [] {
      NoCalls(id);
    } else {
      var c := calls[0];
      CallsStep(calls, id);
      FeasibleProjection(After(w, c), if c.tenant == id then After(v, c) else v, calls[1..], id);
    }
  }

  lemma NoCalls(id: string)
    ensures OnlyCalls([], id) == []
  {
  }

  /** Two stores that hold the same for one tenant: one performs a mixed run, the other only that tenant's calls.
      The tenant gets the same replies from both and ends up with the same data in both. */
  method StoreProjection(mixed: MemoryStore, lone: MemoryStore, calls: seq<Call>, id: string, ghost w: World, ghost v: World)
    returns (all: seq<(string, Reply)>, own: seq<(string, Reply)>)
    requires mixed != lone && Represents(mixed, w) && Represents(lone, v) && mixed.View(id) == lone.View(id)
    requires FeasibleCalls(w, calls)
    modifies mixed, lone
    ensures OnlyReplies(all, id) == own && |all| == |calls|
    ensures mixed.View(id) == lone.View(id)
  {
    hide RunAll, FeasibleCalls, OnlyCalls, OnlyReplies;
    FeasibleProjection(w, v, calls, id);
    TenantProjection(w, v, calls, id);
    RepliesCount(w, calls);
    all := PerformAll(mixed, calls, w);
    own := PerformAll(lone, OnlyCalls(calls, id), v);
  }

  lemma {:induction false} RepliesCount(w: World, calls: seq<Call>)
    ensures |RunAll(w, calls).1| == |calls|
    decreases |calls|
  {
    hide Step, RunAll;
    if calls == [] {
      RunAllNone(w);
    } else {
      RunAllStep(w, calls);
      RepliesCount(After(w, calls[0]), calls[1..]);
    }
  }
}
