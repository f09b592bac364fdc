/** When each call of the hosted-issuer store succeeds and what it then changes, field by field; that it changes nothing
    else is in the contracts of the step functions
    (ansible_issuer/go/internal/hostedissuer/store.go:52-563). The conditions are written out in the data of the tenant and
    of the call, so that they stand on their own beside the step functions of `HostedStore`. */
module HostedEffects {
  import opened Wrappers
  import opened HostedStore
  import opened HostedInvariants

  /** A tenant id inside an argument is absent or the tenant the call is for. */
  ghost predicate ForTenant(given: string, id: string) { given == "" || given == id }

  // ------------------------------------------------------------------ tenants and administrators

  /** A tenant is bootstrapped exactly once, with id, organization and slug, a positive threshold that its (given or
      defaulted) administrator count reaches, and an owner with a hardware P-256 key, who becomes its only,
      active administrator. */
  lemma BootstrapEffect(ts: TenantState, t: Tenant, owner: Administrator)
    ensures var (ts', r) := Bootstrap(ts, t, owner);
      var count := if t.administratorCount == 0 then t.threshold else t.administratorCount;
      && (r == Done <==>
            && ts.tenant.None? && t.id != "" && t.organizationDid != "" && t.serviceSlug != ""
            && t.threshold >= 1 && count >= t.threshold
            && owner.did != "" && owner.custody == "hardware" && owner.signingAlgorithm == "p256-sha256")
      && (r != Done ==> ts' == ts)
      && (r == Done ==>
            && ts'.tenant == Some(Tenant(t.id, t.organizationDid, t.serviceSlug, t.status, t.threshold, count))
            && ts'.admins.Keys == {owner.did}
            && ts'.admins[owner.did] == Administrator(t.id, owner.did, "owner", "active", "p256-sha256", "hardware")
            && ts'.(tenant := ts.tenant, admins := ts.admins) == ts)
  {
  }

  lemma CreateEffect(ts: TenantState, t: Tenant)
    ensures var (ts', r) := Create(ts, t);
      && (r == Done <==> ts.tenant.None? && t.id != "" && t.organizationDid != "" && t.serviceSlug != "" && t.threshold >= 1)
      && (r != Done ==> ts' == ts)
      && (r == Done ==>
            && ts'.tenant == Some(Tenant(t.id, t.organizationDid, t.serviceSlug, t.status, t.threshold,
                                         if t.administratorCount == 0 then t.threshold else t.administratorCount))
            && ts'.(tenant := ts.tenant) == ts)
  {
  }

  /** An administrator is filed exactly when the tenant exists and either the DID is already registered or a positive
      administrator count is not yet reached. */
  lemma PutAdministratorEffect(ts: TenantState, id: string, a: Administrator)
    ensures var (ts', r) := PutAdministrator(ts, id, a);
      && (r == Done <==>
            && ts.tenant.Some? && ForTenant(a.tenantId, id)
            && (a.did in ts.admins || ts.tenant.value.administratorCount <= 0 || |ts.admins| < ts.tenant.value.administratorCount))
      && (r != Done ==> ts' == ts)
      && (r == Done ==>
            && ts'.admins.Keys == ts.admins.Keys + {a.did}
            && ts'.admins[a.did] == Administrator(id, a.did, a.role, a.state, a.signingAlgorithm, a.custody)
            && (forall d <- ts.admins :: d != a.did ==> ts'.admins[d] == ts.admins[d])
            && ts'.(admins := ts.admins) == ts)
  {
  }

  /** A signing key is filed once and never replaced. */
  lemma PutSigningKeyEffect(ts: TenantState, id: string, k: SigningKey)
    ensures var (ts', r) := PutSigningKey(ts, id, k);
      && (r == Done <==> ts.tenant.Some? && ForTenant(k.tenantId, id) && k.id !in ts.signingKeys)
      && (r != Done ==> ts' == ts)
      && (r == Done ==>
            && ts'.signingKeys.Keys == ts.signingKeys.Keys + {k.id}
            && ts'.signingKeys[k.id] == SigningKey(k.id, id, k.kmsKeyVersion)
            && (forall x <- ts.signingKeys :: ts'.signingKeys[x] == ts.signingKeys[x])
            && ts'.(signingKeys := ts.signingKeys) == ts)
  {
  }

  // ------------------------------------------------------------------------------- credentials

  /** A record is accepted exactly under a reserved index, and if its id is taken, with the same hash; only a new id
      adds anything, and no record on file changes. */
  lemma PutRecordEffect(ts: TenantState, id: string, record: Record)
    ensures var (ts', r) := PutRecord(ts, id, record);
      && (r == Done <==>
            && ForTenant(record.tenantId, id) && record.statusIndex in ts.indexes
            && (record.credentialId in ts.credentials ==>
                  ts.credentials[record.credentialId].credentialHash == record.credentialHash))
      && (r != Done || record.credentialId in ts.credentials ==> ts' == ts)
      && (r == Done && record.credentialId !in ts.credentials ==>
            && ts'.credentials.Keys == ts.credentials.Keys + {record.credentialId}
            && ts'.credentials[record.credentialId] == record.(tenantId := id)
            && (forall c <- ts.credentials :: ts'.credentials[c] == ts.credentials[c])
            && ts'.(credentials := ts.credentials) == ts)
  {
  }

  /** A status is set exactly for a credential on file and one of the three known statuses; it becomes the given one,
      and nothing else changes. */
  lemma SetStatusEffect(ts: TenantState, credentialId: string, status: string)
    ensures var (ts', r) := SetStatus(ts, credentialId, status);
      && (r == Done <==> credentialId in ts.credentials && status in {"active", "revoked", "suspended"})
      && (r != Done ==> ts' == ts)
      && (r == Done ==>
            && ts'.credentials.Keys == ts.credentials.Keys
            && ts'.credentials[credentialId].status == status
            && ts'.credentials[credentialId].(status := ts.credentials[credentialId].status) == ts.credentials[credentialId]
            && (forall c <- ts.credentials :: c != credentialId ==> ts'.credentials[c] == ts.credentials[c])
            && ts'.(credentials := ts.credentials) == ts)
  {
  }

  // --------------------------------------------------------------------------------- templates

  /** A template version is accepted exactly when it is well formed and newer than every version of its id on file. */
  lemma PutTemplateAccepts(ts: TenantState, id: string, t: Template, order: seq<string>)
    requires Enumerates(order, ts.templates)
    ensures PutTemplate(ts, id, t, order).1 == Done <==>
      && ts.tenant.Some? && ForTenant(t.tenantId, id)
      && t.id != "" && t.version >= 1 && t.credentialType != "" && t.approvalThreshold >= 1 && t.maxTtlDays >= 1
      && forall k <- ts.templates :: ts.templates[k].id == t.id ==> ts.templates[k].version < t.version
  {
    hide TemplateKey, Supersede, Enumerates;
    OrderCovers(order, ts.templates);
    SupersedeExact(ts.templates, t, order);
  }

  /** `filed` is new under `key`; if it is active the other versions of its id are deactivated; the rest stays. */
  ghost predicate FiledAs(before: map<string, Template>, after: map<string, Template>, key: string, filed: Template) {
    && key !in before && after.Keys == before.Keys + {key} && after[key] == filed
    && (forall k <- before ::
          after[k] == if filed.active && before[k].id == filed.id then before[k].(active := false) else before[k])
  }

  lemma FiledOver(before: map<string, Template>, superseded: map<string, Template>, key: string, filed: Template)
    requires key !in before && superseded.Keys == before.Keys
    requires forall k <- before ::
      superseded[k] == if filed.active && before[k].id == filed.id then before[k].(active := false) else before[k]
    ensures FiledAs(before, superseded[key := filed], key, filed)
  {
  }

  /** An accepted version is filed as given, and if active it deactivates the older ones; a refused one may leave older
      versions of its id deactivated, and nothing else. */
  lemma PutTemplateEffect(ts: TenantState, id: string, t: Template, order: seq<string>)
    requires TemplateInv(ts.templates) && Enumerates(order, ts.templates)
    ensures var (ts', r) := PutTemplate(ts, id, t, order);
      && (r == Done ==> FiledAs(ts.templates, ts'.templates, TemplateKey(t.id, t.version), t.(tenantId := id)))
      && (r == Refused(DelegationReplay) ==> exists j: nat :: StopsAt(ts.templates, ts'.templates, t, order, j))
      && (r in {Refused(NotFound), Refused(TenantScope), Refused(DelegationInvalid)} ==> ts' == ts)
      && (r == Done || r in {Refused(DelegationReplay), Refused(NotFound), Refused(TenantScope), Refused(DelegationInvalid)})
  {
    hide TemplateKey, TemplateInv, Supersede, Enumerates, FiledAs, StopsAt;
    if !Supersede(ts.templates, t, order).1 { StopExact(ts.templates, t, order); }
    var (after, ok) := Supersede(ts.templates, t, order);
    if ok && ValidTemplate(t) {
      OrderCovers(order, ts.templates);
      SupersedeExact(ts.templates, t, order);
      KeyIsFree(ts.templates, t);
      FiledOver(ts.templates, after, TemplateKey(t.id, t.version), t.(tenantId := id));
    }
  }

  /** The loop stops at the `j`-th entry, a version of the id that is not older; if the given version is active, the versions
      met before have been deactivated, and nothing else has changed. */
  ghost predicate StopsAt(before: map<string, Template>, after: map<string, Template>, t: Template, order: seq<string>, j: nat) {
    && j < |order| && order[j] in before && before[order[j]].id == t.id && t.version <= before[order[j]].version
    && after == Off(before, t, order[..j])
    && (forall i :: 0 <= i < j && order[i] in before && before[order[i]].id == t.id ==> before[order[i]].version < t.version)
  }

  lemma {:induction false} StopExact(templates: map<string, Template>, t: Template, order: seq<string>)
    requires !Supersede(templates, t, order).1
    ensures exists j: nat :: StopsAt(templates, Supersede(templates, t, order).0, t, order, j)
    decreases |order|
  {
    var k, after := order[0], Supersede(templates, t, order).0;
    if k in templates && templates[k].id == t.id && t.version <= templates[k].version {
      assert Off(templates, t, order[..0]) == templates;
      assert StopsAt(templates, after, t, order, 0);
    } else {
      var next := Off(templates, t, [k]);
      assert next == if k in templates && templates[k].id == t.id && t.active then templates[k := templates[k].(active := false)] else templates;
      assert Supersede(next, t, order[1..]).0 == after;
      StopExact(next, t, order[1..]);
      var j: nat :| StopsAt(next, after, t, order[1..], j);
      StopLater(templates, after, t, order, j);
    }
  }

  /** `m` with the listed versions of the template's id deactivated, if the template is active. */
  function Off(m: map<string, Template>, t: Template, keys: seq<string>): map<string, Template> {
    map k | k in m :: if t.active && k in keys && m[k].id == t.id then m[k].(active := false) else m[k]
  }

  lemma OffCons(m: map<string, Template>, t: Template, head: string, tail: seq<string>)
    ensures Off(Off(m, t, [head]), t, tail) == Off(m, t, [head] + tail)
  {
  }

  lemma StopLater(templates: map<string, Template>, after: map<string, Template>, t: Template, order: seq<string>, j: nat)
    requires order != []
    requires !(order[0] in templates && templates[order[0]].id == t.id && t.version <= templates[order[0]].version)
    requires StopsAt(Off(templates, t, [order[0]]), after, t, order[1..], j)
    ensures StopsAt(templates, after, t, order, j + 1)
  {
    var head, rest := order[0], order[1..];
    assert rest[j] == order[j + 1] && order[..j + 1] == [head] + rest[..j];
    OffCons(templates, t, head, rest[..j]);
    forall i | 0 <= i < j + 1 && order[i] in templates && templates[order[i]].id == t.id
      ensures templates[order[i]].version < t.version
    {
      if i > 0 { assert rest[i - 1] == order[i]; }
    }
  }

  /** The key of a version newer than all on file is free. */
  lemma KeyIsFree(templates: map<string, Template>, t: Template)
    requires TemplateInv(templates) && ValidTemplate(t)
    ensures (forall k <- templates :: templates[k].id == t.id ==> templates[k].version < t.version) ==>
              TemplateKey(t.id, t.version) !in templates
    ensures TemplateKey(t.id, t.version) in templates ==> templates[TemplateKey(t.id, t.version)].id == t.id
  {
    hide TemplateKey;
    var key := TemplateKey(t.id, t.version);
    if key in templates { TemplateKeyInjective(t.id, t.version, templates[key].id, templates[key].version); }
  }


  lemma OrderCovers(order: seq<string>, m: map<string, Template>)
    requires Enumerates(order, m)
    ensures (forall i, j :: 0 <= i < j < |order| ==> order[i] != order[j]) && forall k :: k in order <==> k in m
  {
  }

  /** What the loop leaves behind when it does not stop, and when it stops. */
  lemma {:induction false} SupersedeExact(templates: map<string, Template>, t: Template, order: seq<string>)
    requires forall i, j :: 0 <= i < j < |order| ==> order[i] != order[j]
    ensures var (after, ok) := Supersede(templates, t, order);
      && after.Keys == templates.Keys
      && (ok <==> forall k <- order :: k in templates && templates[k].id == t.id ==> templates[k].version < t.version)
      && (ok ==> forall k <- templates ::
            after[k] == if k in order && t.active && templates[k].id == t.id then templates[k].(active := false) else templates[k])
      && (forall k <- templates :: templates[k].id != t.id ==> after[k] == templates[k])
    decreases |order|
  {
    if order != [] {
      var k := order[0];
      assert k !in order[1..];
      if k in templates && templates[k].id == t.id && t.version > templates[k].version && t.active {
        SupersedeExact(templates[k := templates[k].(active := false)], t, order[1..]);
      } else if !(k in templates && templates[k].id == t.id && t.version <= templates[k].version) {
        SupersedeExact(templates, t, order[1..]);
      }
    }
  }

  /** The lookup finds a template exactly when an active one with that id is on file. */
  lemma ActiveTemplateIff(ts: TenantState, templateId: string, order: seq<string>)
    requires Enumerates(order, ts.templates)
    ensures var r := ActiveTemplate(ts, templateId, order).1;
      && (r.TemplateIs? <==> exists k <- ts.templates :: ts.templates[k].id == templateId && ts.templates[k].active)
      && (r.TemplateIs? ==> r.template.id == templateId && r.template.active
                            && exists k <- ts.templates :: ts.templates[k] == r.template)
      && (!r.TemplateIs? ==> r == Refused(NotFound))
  {
    FirstSpec(ts.templates, order, ActiveWithId(templateId));
  }

  // ---------------------------------------------------------------------------------- requests

  /** A request is filed exactly when it is complete and its id is new; it is filed as pending. */
  lemma PutRequestEffect(ts: TenantState, id: string, q: Request)
    ensures var (ts', r) := PutRequest(ts, id, q);
      && (r == Done <==>
            && ForTenant(q.tenantId, id) && q.id != "" && q.templateId != "" && q.templateVersion >= 1
            && q.applicantDid != "" && q.payloadHash != "" && q.expiresAt != ZERO_TIME && q.id !in ts.requests)
      && (r != Done ==> ts' == ts)
      && (r == Done ==>
            && ts'.requests.Keys == ts.requests.Keys + {q.id}
            && ts'.requests[q.id] == q.(tenantId := id, state := Pending)
            && (forall x <- ts.requests :: ts'.requests[x] == ts.requests[x])
            && ts'.(requests := ts.requests) == ts)
  {
  }

  /** This decision is a new one: the request is pending, the approver is registered and active, the decision is one of
      the two, the intent is signed, and that approver has not decided before. */
  ghost predicate NewDecision(ts: TenantState, a: Approval) {
    && a.requestId in ts.requests && ts.requests[a.requestId].state == Pending
    && a.approverDid in ts.admins && ts.admins[a.approverDid].state == "active"
    && a.decision in {"approve", "deny"} && a.signedIntentHash != ""
    && !(a.requestId in ts.approvals && a.approverDid in ts.approvals[a.requestId])
  }

  /** The same decision with the same signed intent, once more. */
  ghost predicate RepeatedDecision(ts: TenantState, a: Approval) {
    && a.requestId in ts.requests && ts.requests[a.requestId].state == Pending
    && a.approverDid in ts.admins && ts.admins[a.approverDid].state == "active"
    && a.decision in {"approve", "deny"} && a.signedIntentHash != ""
    && a.requestId in ts.approvals && a.approverDid in ts.approvals[a.requestId]
    && ts.approvals[a.requestId][a.approverDid].decision == a.decision
    && ts.approvals[a.requestId][a.approverDid].signedIntentHash == a.signedIntentHash
  }

  /** A decision is filed exactly when it is new, and then under the approver's DID; a repeated one returns the request;
      every other is refused; nothing but the decided request and the decisions on it ever changes. */
  lemma DecideEffect(ts: TenantState, id: string, a: Approval, threshold: int)
    ensures var (ts', r) := Decide(ts, id, a, threshold);
      && (r.RequestIs? <==> NewDecision(ts, a) || RepeatedDecision(ts, a))
      && (!r.RequestIs? ==> r.Refused?)
      && (!NewDecision(ts, a) ==> ts' == ts)
      && (RepeatedDecision(ts, a) ==> r == RequestIs(ts.requests[a.requestId]))
      && (NewDecision(ts, a) ==>
            && ts'.approvals.Keys == ts.approvals.Keys + {a.requestId}
            && ts'.approvals[a.requestId].Keys
               == (if a.requestId in ts.approvals then ts.approvals[a.requestId].Keys else {}) + {a.approverDid}
            && ts'.approvals[a.requestId][a.approverDid]
               == Approval(id, a.requestId, a.approverDid, a.decision, a.signedIntentHash)
            && (forall q <- ts.approvals :: q != a.requestId ==> ts'.approvals[q] == ts.approvals[q])
            && (a.requestId in ts.approvals ==>
                  forall d <- ts.approvals[a.requestId] :: ts'.approvals[a.requestId][d] == ts.approvals[a.requestId][d])
            && ts'.requests.Keys == ts.requests.Keys && r == RequestIs(ts'.requests[a.requestId])
            && (forall q <- ts.requests :: q != a.requestId ==> ts'.requests[q] == ts.requests[q])
            && ts'.requests[a.requestId].(state := Pending) == ts.requests[a.requestId])
  {
    hide Approvers;
  }

  /** The state a new decision leads to: denied by a denial, approved by the approval that completes the threshold,
      pending otherwise. */
  lemma DecideOutcome(ts: TenantState, id: string, a: Approval, threshold: int)
    requires NewDecision(ts, a)
    ensures var ts' := Decide(ts, id, a, threshold).0;
      var earlier := if a.requestId in ts.approvals then ts.approvals[a.requestId] else map[];
      var approved := set d | d in earlier && earlier[d].decision == "approve";
      && a.requestId in ts'.requests
      && (ts'.requests[a.requestId].state == Denied <==> a.decision == "deny")
      && (ts'.requests[a.requestId].state == Approved <==> a.decision == "approve" && |approved| + 1 >= threshold)
      && (ts'.requests[a.requestId].state == Pending <==> a.decision == "approve" && |approved| + 1 < threshold)
  {
    hide Approvers;
    var earlier := if a.requestId in ts.approvals then ts.approvals[a.requestId] else map[];
    ApproversAfter(earlier, a.approverDid, a.(tenantId := id));
  }

  lemma ApproversAfter(earlier: map<string, Approval>, who: string, a: Approval)
    requires who !in earlier
    ensures Approvers(earlier) == set d | d in earlier && earlier[d].decision == "approve"
    ensures a.decision == "approve" ==> |Approvers(earlier[who := a])| == |Approvers(earlier)| + 1
  {
    if a.decision == "approve" { assert Approvers(earlier[who := a]) == Approvers(earlier) + {who}; }
  }

  /** A request is offered exactly when it is approved and has not expired. */
  lemma ConsumeRequestEffect(ts: TenantState, requestId: string, now: Time)
    ensures var (ts', r) := ConsumeRequest(ts, requestId, now);
      && (r.RequestIs? <==>
            requestId in ts.requests && ts.requests[requestId].state == Approved && now < ts.requests[requestId].expiresAt)
      && (!r.RequestIs? ==> ts' == ts && r.Refused?)
      && (r.RequestIs? ==>
            && ts'.requests.Keys == ts.requests.Keys && r == RequestIs(ts'.requests[requestId])
            && ts'.requests[requestId].state == Offered
            && ts'.requests[requestId].(state := Approved) == ts.requests[requestId]
            && (forall q <- ts.requests :: q != requestId ==> ts'.requests[q] == ts.requests[q])
            && ts'.(requests := ts.requests) == ts)
  {
  }

  // -------------------------------------------------------------------------------- delegations

  /** A proposal is accepted exactly when it is complete and its sequence exceeds every sequence on file; it is filed as
      proposed and without approvals, possibly over an earlier one with its id. */
  lemma ProposeEffect(ts: TenantState, id: string, d: Delegation)
    ensures var (ts', r) := Propose(ts, id, d);
      && (r == Done <==>
            && ts.tenant.Some? && ForTenant(d.tenantId, id) && d.id != "" && d.sequence >= 1 && d.payloadHash != ""
            && d.expiresAt != ZERO_TIME && forall k <- ts.delegations :: ts.delegations[k].sequence < d.sequence)
      && (r != Done ==> ts' == ts)
      && (r == Done ==>
            && ts'.delegations.Keys == ts.delegations.Keys + {d.id}
            && ts'.delegations[d.id] == d.(tenantId := id, state := Proposed, approvals := map[])
            && (forall k <- ts.delegations :: k != d.id ==> ts'.delegations[k] == ts.delegations[k])
            && ts'.(delegations := ts.delegations) == ts)
  {
  }

  /** An approval counts exactly for a delegation on file, from a registered active administrator with a signature; the
      signature is stored under that DID. The delegation's state does not matter. */
  lemma ApproveEffect(ts: TenantState, delegationId: string, who: string, signature: seq<int>)
    ensures var (ts', r) := Approve(ts, delegationId, who, signature);
      && (r == Done <==>
            delegationId in ts.delegations && who in ts.admins && ts.admins[who].state == "active" && |signature| > 0)
      && (r != Done ==> ts' == ts)
      && (r == Done ==>
            && ts'.delegations.Keys == ts.delegations.Keys
            && ts'.delegations[delegationId].approvals == ts.delegations[delegationId].approvals[who := signature]
            && ts'.delegations[delegationId].(approvals := ts.delegations[delegationId].approvals) == ts.delegations[delegationId]
            && (forall k <- ts.delegations :: k != delegationId ==> ts'.delegations[k] == ts.delegations[k])
            && ts'.(delegations := ts.delegations) == ts)
  {
  }

  /** Activation succeeds exactly with a threshold of approvals inside the validity period; that delegation alone is
      then active, what was active is superseded, and the tenant is active. */
  lemma ActivateEffect(ts: TenantState, delegationId: string, now: Time)
    ensures var (ts', r) := Activate(ts, delegationId, now);
      && (r == Done <==>
            && ts.tenant.Some? && delegationId in ts.delegations
            && |ts.delegations[delegationId].approvals| >= ts.tenant.value.threshold
            && ts.delegations[delegationId].notBefore <= now < ts.delegations[delegationId].expiresAt)
      && (r != Done ==> ts' == ts)
      && (r == Done ==>
            && ts'.delegations.Keys == ts.delegations.Keys && ts'.delegations[delegationId].state == Active
            && (forall k <- ts.delegations :: ts'.delegations[k].(state := ts.delegations[k].state) == ts.delegations[k])
            && (forall k <- ts.delegations :: k != delegationId ==>
                  ts'.delegations[k].state == if ts.delegations[k].state == Active then Superseded else ts.delegations[k].state)
            && ts'.tenant == Some(ts.tenant.value.(status := TenantActive)))
  {
  }

  /** Revocation succeeds exactly for a delegation on file; it is then revoked, no other changes, and the tenant is
      paused exactly when the delegation was active. */
  lemma RevokeEffect(ts: TenantState, delegationId: string)
    ensures var (ts', r) := Revoke(ts, delegationId);
      && (r == Done <==> ts.tenant.Some? && delegationId in ts.delegations)
      && (r != Done ==> ts' == ts)
      && (r == Done ==>
            && ts'.delegations.Keys == ts.delegations.Keys && ts'.delegations[delegationId].state == Revoked
            && ts'.delegations[delegationId].(state := ts.delegations[delegationId].state) == ts.delegations[delegationId]
            && (forall k <- ts.delegations :: k != delegationId ==> ts'.delegations[k] == ts.delegations[k])
            && ts'.tenant == Some(if ts.delegations[delegationId].state == Active
                                  then ts.tenant.value.(status := TenantPaused) else ts.tenant.value))
  {
  }

  /** The lookup finds a delegation exactly when one on file is active and inside its validity period. */
  lemma ActiveDelegationIff(ts: TenantState, now: Time, order: seq<string>)
    requires Enumerates(order, ts.delegations)
    ensures var r := ActiveDelegation(ts, now, order).1;
      && (r.DelegationIs? <==>
            ts.tenant.Some? && exists k <- ts.delegations ::
              ts.delegations[k].state == Active && ts.delegations[k].notBefore <= now < ts.delegations[k].expiresAt)
      && (r.DelegationIs? ==>
            && r.delegation.state == Active && r.delegation.notBefore <= now < r.delegation.expiresAt
            && exists k <- ts.delegations :: ts.delegations[k] == r.delegation)
      && (!r.DelegationIs? ==> r == Refused(NotFound))
  {
    FirstSpec(ts.delegations, order, CurrentAt(now));
  }

  lemma AppendAuditEffect(ts: TenantState, id: string, e: AuditEvent)
    ensures var (ts', r) := AppendAudit(ts, id, e);
      && (r == Done <==> ts.tenant.Some? && ForTenant(e.tenantId, id))
      && (r != Done ==> ts' == ts)
      && (r == Done ==> |ts'.audit| == |ts.audit| + 1 && ts.audit <= ts'.audit
                        && ts'.audit[|ts.audit|] == e.(tenantId := id) && ts'.(audit := ts.audit) == ts)
  {
  }

  /** What the readers return. */
  lemma ReadEffect(ts: TenantState, id: string, keyId: string, requestId: string)
    ensures StepTenant(ts, id, ReadingTenant) == (ts, if ts.tenant.Some? then TenantIs(ts.tenant.value) else Refused(NotFound))
    ensures StepTenant(ts, id, ReadingAdministrators) == (ts, if ts.tenant.Some? then AdminsAre(ts.admins) else Refused(NotFound))
    ensures StepTenant(ts, id, ReadingSigningKey(keyId))
         == (ts, if keyId in ts.signingKeys then KeyIs(ts.signingKeys[keyId]) else Refused(NotFound))
    ensures StepRequests(ts, id, ReadingRequest(requestId))
         == (ts, if requestId in ts.requests then RequestIs(ts.requests[requestId]) else Refused(NotFound))
    ensures StepCredentials(ts, id, ReadingRecords) == (ts, if ts.tenant.Some? then RecordsAre(ts.credentials) else Refused(NotFound))
    ensures StepAudit(ts, id, ReadingAudit) == (ts, if ts.tenant.Some? then AuditIs(ts.audit) else Refused(NotFound))
  {
  }
}
