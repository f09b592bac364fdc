/** One tenant of the hosted-issuer store (ansible_issuer/go/internal/hostedissuer/store.go): its data
    and what every store method does to it.

    The order in which a Go map is iterated and the values drawn from the random source are
    arguments of the calls whose outcome depends on them. */
module HostedStore {
  import opened Wrappers
  import Cursor

  type Time = int

  /** `time.Time{}`, in nanoseconds since the Unix epoch. */
  const ZERO_TIME: Time := -62135596800_000_000_000

  // ----------------------------------------------------------------------------- data

  datatype TenantStatus = TenantDraft | TenantActive | TenantPaused
  datatype Tenant = Tenant(id: string, organizationDid: string, serviceSlug: string, status: TenantStatus,
                           threshold: int, administratorCount: int)
  datatype Administrator = Administrator(tenantId: string, did: string, role: string, state: string,
                                         signingAlgorithm: string, custody: string)
  datatype DelegationState = Proposed | Active | Superseded | Revoked
  datatype Delegation = Delegation(id: string, tenantId: string, signingKeyId: string, sequence: int,
                                   payloadHash: string, credentialTypes: seq<string>, canonicalJson: string,
                                   notBefore: Time, expiresAt: Time, state: DelegationState,
                                   approvals: map<string, seq<int>>)
  datatype SigningKey = SigningKey(id: string, tenantId: string, kmsKeyVersion: string)
  datatype Template = Template(id: string, tenantId: string, version: int, credentialType: string,
                               approvalThreshold: int, maxTtlDays: int, active: bool)
  datatype RequestState = Pending | Approved | Denied | Offered
  /** `snapshotThreshold` is `PolicySnapshot["approval_threshold"]`. */
  datatype Request = Request(id: string, tenantId: string, templateId: string, templateVersion: int,
                             applicantDid: string, payloadHash: string, membershipClass: string,
                             forumHostId: string, boardId: string, state: RequestState,
                             snapshotThreshold: int, expiresAt: Time, createdAt: Time)
  datatype Approval = Approval(tenantId: string, requestId: string, approverDid: string, decision: string,
                               signedIntentHash: string)
  datatype Record = Record(credentialId: string, tenantId: string, credentialHash: string, credentialType: string,
                           subjectHash: string, issuedAt: Time, expiresAt: Time, statusIndex: int,
                           status: string, policyHash: string)
  datatype AuditEvent = AuditEvent(id: string, tenantId: string, eventType: string, actorDid: string,
                                   requestHash: string, policyVersion: int)

  datatype TenantState = TenantState(
    tenant: Option<Tenant>,
    admins: map<string, Administrator>,
    delegations: map<string, Delegation>,
    audit: seq<AuditEvent>,
    signingKeys: map<string, SigningKey>,
    credentials: map<string, Record>,
    templates: map<string, Template>,
    requests: map<string, Request>,
    approvals: map<string, map<string, Approval>>,
    indexes: set<int>)

  const EMPTY := TenantState(None, map[], map[], [], map[], map[], map[], map[], map[], {})

  datatype Error =
    | NotFound | TenantScope | ThresholdNotMet | DelegationReplay | DelegationInvalid
    | TenantExists | RandomFailed | CollisionLimit

  datatype Reply =
    | Done | Refused(error: Error)
    | TenantIs(tenant: Tenant) | KeyIs(key: SigningKey) | RequestIs(request: Request) | IndexIs(index: int)
    | TemplateIs(template: Template) | DelegationIs(delegation: Delegation)
    | AdminsAre(admins: map<string, Administrator>) | RecordsAre(records: map<string, Record>)
    | AuditIs(events: seq<AuditEvent>)

  type Outcome = (TenantState, Reply)

  /** A tenant id inside an argument, if given, must be the tenant the call is for. */
  predicate InScope(given: string, tenantId: string) {
    given == "" || given == tenantId
  }

  // ----------------------------------------------------------------- tenants and administrators

  function Capacity(t: Tenant): Tenant {
    if t.administratorCount == 0 then t.(administratorCount := t.threshold) else t
  }

  function Bootstrap(ts: TenantState, given: Tenant, owner: Administrator): (outcome: Outcome)
    ensures outcome.0 == ts.(tenant := outcome.0.tenant, admins := outcome.0.admins)
  {
    var t := Capacity(given);
    if t.id == "" || t.organizationDid == "" || t.serviceSlug == "" || t.threshold < 1
       || t.administratorCount < t.threshold
       || owner.did == "" || owner.custody != "hardware" || owner.signingAlgorithm != "p256-sha256"
    then (ts, Refused(DelegationInvalid))
    else if ts.tenant.Some? then (ts, Refused(TenantExists))
    else
      var o := owner.(tenantId := t.id, role := "owner", state := "active");
      (ts.(tenant := Some(t), admins := map[o.did := o]), Done)
  }

  function Create(ts: TenantState, given: Tenant): (outcome: Outcome)
    ensures outcome.0 == ts.(tenant := outcome.0.tenant)
  {
    var t := Capacity(given);
    if t.id == "" || t.organizationDid == "" || t.serviceSlug == "" || t.threshold < 1
    then (ts, Refused(DelegationInvalid))
    else if ts.tenant.Some? then (ts, Refused(TenantExists))
    else (ts.(tenant := Some(t)), Done)
  }

  function PutAdministrator(ts: TenantState, id: string, a: Administrator): (outcome: Outcome)
    ensures outcome.0 == ts.(admins := outcome.0.admins)
  {
    if ts.tenant.None? then (ts, Refused(NotFound))
    else if !InScope(a.tenantId, id) then (ts, Refused(TenantScope))
    else if a.did !in ts.admins && ts.tenant.value.administratorCount > 0
            && |ts.admins| >= ts.tenant.value.administratorCount then (ts, Refused(ThresholdNotMet))
    else (ts.(admins := ts.admins[a.did := a.(tenantId := id)]), Done)
  }

  function PutSigningKey(ts: TenantState, id: string, k: SigningKey): (outcome: Outcome)
    ensures outcome.0 == ts.(signingKeys := outcome.0.signingKeys)
  {
    if ts.tenant.None? then (ts, Refused(NotFound))
    else if !InScope(k.tenantId, id) then (ts, Refused(TenantScope))
    else if k.id in ts.signingKeys then (ts, Refused(DelegationInvalid))
    else (ts.(signingKeys := ts.signingKeys[k.id := k.(tenantId := id)]), Done)
  }

  // ------------------------------------------------------------- status indexes and credentials

  const INDEX_SPACE: int := 131072
  const INDEX_ATTEMPTS: nat := 256

  function FirstFree(used: set<int>, draws: seq<int>): Option<int> {
    if draws == [] then None
    else if draws[0] !in used then Some(draws[0])
    else FirstFree(used, draws[1..])
  }

  function Attempted(draws: seq<int>): seq<int> {
    if |draws| > INDEX_ATTEMPTS then draws[..INDEX_ATTEMPTS] else draws
  }

  /** `draws` are the values the random source yields; fewer than 256 means that it then fails. */
  function ReserveIndex(ts: TenantState, draws: seq<int>): (outcome: Outcome)
    ensures outcome.0 == ts.(indexes := outcome.0.indexes)
  {
    if ts.tenant.None? then (ts, Refused(NotFound))
    else
      match FirstFree(ts.indexes, Attempted(draws))
      case Some(i) => (ts.(indexes := ts.indexes + {i}), IndexIs(i))
      case None => (ts, Refused(if |draws| < INDEX_ATTEMPTS then RandomFailed else CollisionLimit))
  }

  function PutRecord(ts: TenantState, id: string, r: Record): (outcome: Outcome)
    ensures outcome.0 == ts.(credentials := outcome.0.credentials)
  {
    if !InScope(r.tenantId, id) then (ts, Refused(TenantScope))
    else if r.statusIndex !in ts.indexes then (ts, Refused(DelegationInvalid))
    else if r.credentialId in ts.credentials then
      (ts, if ts.credentials[r.credentialId].credentialHash == r.credentialHash then Done else Refused(DelegationInvalid))
    else (ts.(credentials := ts.credentials[r.credentialId := r.(tenantId := id)]), Done)
  }

  function SetStatus(ts: TenantState, credentialId: string, status: string): (outcome: Outcome)
    ensures outcome.0 == ts.(credentials := outcome.0.credentials)
  {
    if credentialId !in ts.credentials then (ts, Refused(NotFound))
    else if status != "active" && status != "revoked" && status != "suspended" then (ts, Refused(DelegationInvalid))
    else (ts.(credentials := ts.credentials[credentialId := ts.credentials[credentialId].(status := status)]), Done)
  }

  // ------------------------------------------------------------------------------ templates

  /** `fmt.Sprintf("%s:%d", id, version)`. */
  function TemplateKey(id: string, version: int): string {
    id + ":" + Cursor.PrintInt(version)
  }

  /** The loop over existing templates in iteration order `order`: stops at a version that is not
      older, having perhaps already deactivated others. */
  function Supersede(templates: map<string, Template>, t: Template, order: seq<string>): (map<string, Template>, bool)
    decreases |order|
  {
    if order == [] then (templates, true)
    else if order[0] in templates && templates[order[0]].id == t.id then
      var current := templates[order[0]];
      if t.version <= current.version then (templates, false)
      else Supersede(if t.active then templates[order[0] := current.(active := false)] else templates, t, order[1..])
    else Supersede(templates, t, order[1..])
  }

  predicate ValidTemplate(t: Template) {
    t.id != "" && t.version >= 1 && t.credentialType != "" && t.approvalThreshold >= 1 && t.maxTtlDays >= 1
  }

  function PutTemplate(ts: TenantState, id: string, t: Template, order: seq<string>): (outcome: Outcome)
    ensures outcome.0 == ts.(templates := outcome.0.templates)
  {
    if ts.tenant.None? then (ts, Refused(NotFound))
    else if !InScope(t.tenantId, id) then (ts, Refused(TenantScope))
    else if !ValidTemplate(t) then (ts, Refused(DelegationInvalid))
    else
      var (templates, ok) := Supersede(ts.templates, t, order);
      if !ok then (ts.(templates := templates), Refused(DelegationReplay))
      else (ts.(templates := templates[TemplateKey(t.id, t.version) := t.(tenantId := id)]), Done)
  }

  /** The first entry in iteration order that satisfies `p`. */
  function First<V>(m: map<string, V>, order: seq<string>, p: V -> bool): Option<V> {
    if order == [] then None
    else if order[0] in m && p(m[order[0]]) then Some(m[order[0]])
    else First(m, order[1..], p)
  }

  function ActiveWithId(id: string): Template -> bool {
    (t: Template) => t.id == id && t.active
  }

  function ActiveTemplate(ts: TenantState, templateId: string, order: seq<string>): (outcome: Outcome)
    ensures outcome.0 == ts
  {
    match First(ts.templates, order, ActiveWithId(templateId))
    case Some(t) => (ts, TemplateIs(t))
    case None => (ts, Refused(NotFound))
  }

  // ----------------------------------------------------------------------- issuance requests

  function PutRequest(ts: TenantState, id: string, r: Request): (outcome: Outcome)
    ensures outcome.0 == ts.(requests := outcome.0.requests)
  {
    if !InScope(r.tenantId, id) then (ts, Refused(TenantScope))
    else if r.id == "" || r.templateId == "" || r.templateVersion < 1 || r.applicantDid == ""
            || r.payloadHash == "" || r.expiresAt == ZERO_TIME then (ts, Refused(DelegationInvalid))
    else if r.id in ts.requests then (ts, Refused(DelegationReplay))
    else (ts.(requests := ts.requests[r.id := r.(tenantId := id, state := Pending)]), Done)
  }

  function ApprovalsOf(ts: TenantState, requestId: string): map<string, Approval> {
    if requestId in ts.approvals then ts.approvals[requestId] else map[]
  }

  /** The administrators who approved. */
  function Approvers(decisions: map<string, Approval>): set<string> {
    set d | d in decisions && decisions[d].decision == "approve"
  }

  /** An active administrator, a pending request, a known decision and a signed intent. */
  predicate MayDecide(requests: map<string, Request>, admins: map<string, Administrator>, given: Approval)
    ensures MayDecide(requests, admins, given) ==>
              given.requestId in requests && requests[given.requestId].state == Pending && given.approverDid in admins
  {
    && given.requestId in requests && given.approverDid in admins
    && admins[given.approverDid].state == "active" && requests[given.requestId].state == Pending
    && (given.decision == "approve" || given.decision == "deny") && given.signedIntentHash != ""
  }

  function Decide(ts: TenantState, id: string, given: Approval, threshold: int): (outcome: Outcome)
    ensures outcome.0 == ts.(requests := outcome.0.requests, approvals := outcome.0.approvals)
  {
    var who, rid := given.approverDid, given.requestId;
    if !MayDecide(ts.requests, ts.admins, given) then (ts, Refused(DelegationInvalid))
    else
      var decisions := ApprovalsOf(ts, rid);
      if who in decisions then
        (ts, if decisions[who].decision == given.decision && decisions[who].signedIntentHash == given.signedIntentHash
             then RequestIs(ts.requests[rid]) else Refused(DelegationReplay))
      else
        var decisions' := decisions[who := given.(tenantId := id)];
        var state := if given.decision == "deny" then Denied
                     else if |Approvers(decisions')| >= threshold then Approved else Pending;
        var request := ts.requests[rid].(state := state);
        (ts.(approvals := ts.approvals[rid := decisions'], requests := ts.requests[rid := request]), RequestIs(request))
  }

  function ConsumeRequest(ts: TenantState, requestId: string, now: Time): (outcome: Outcome)
    ensures outcome.0 == ts.(requests := outcome.0.requests)
  {
    if requestId !in ts.requests || ts.requests[requestId].state != Approved || now >= ts.requests[requestId].expiresAt
    then (ts, Refused(DelegationInvalid))
    else
      var request := ts.requests[requestId].(state := Offered);
      (ts.(requests := ts.requests[requestId := request]), RequestIs(request))
  }

  // ---------------------------------------------------------------------------- delegations

  function Propose(ts: TenantState, id: string, d: Delegation): (outcome: Outcome)
    ensures outcome.0 == ts.(delegations := outcome.0.delegations)
  {
    if ts.tenant.None? then (ts, Refused(NotFound))
    else if !InScope(d.tenantId, id) then (ts, Refused(TenantScope))
    else if d.id == "" || d.sequence < 1 || d.payloadHash == "" || d.expiresAt == ZERO_TIME
    then (ts, Refused(DelegationInvalid))
    else if exists k <- ts.delegations :: d.sequence <= ts.delegations[k].sequence then (ts, Refused(DelegationReplay))
    else (ts.(delegations := ts.delegations[d.id := d.(tenantId := id, state := Proposed, approvals := map[])]), Done)
  }

  function Approve(ts: TenantState, delegationId: string, who: string, signature: seq<int>): (outcome: Outcome)
    ensures outcome.0 == ts.(delegations := outcome.0.delegations)
  {
    if delegationId !in ts.delegations then (ts, Refused(NotFound))
    else if who !in ts.admins || ts.admins[who].state != "active" || signature == [] then (ts, Refused(DelegationInvalid))
    else
      var d := ts.delegations[delegationId];
      (ts.(delegations := ts.delegations[delegationId := d.(approvals := d.approvals[who := signature])]), Done)
  }

  function Demoted(d: Delegation): Delegation {
    if d.state == Active then d.(state := Superseded) else d
  }

  function Activate(ts: TenantState, delegationId: string, now: Time): (outcome: Outcome)
    ensures outcome.0 == ts.(delegations := outcome.0.delegations, tenant := outcome.0.tenant)
  {
    if ts.tenant.None? || delegationId !in ts.delegations then (ts, Refused(NotFound))
    else
      var t, d := ts.tenant.value, ts.delegations[delegationId];
      if |d.approvals| < t.threshold then (ts, Refused(ThresholdNotMet))
      else if now < d.notBefore || now >= d.expiresAt then (ts, Refused(DelegationInvalid))
      else
        var others := map k | k in ts.delegations :: Demoted(ts.delegations[k]);
        (ts.(delegations := others[delegationId := d.(state := Active)],
             tenant := Some(t.(status := TenantActive))), Done)
  }

  function Revoke(ts: TenantState, delegationId: string): (outcome: Outcome)
    ensures outcome.0 == ts.(delegations := outcome.0.delegations, tenant := outcome.0.tenant)
  {
    if ts.tenant.None? || delegationId !in ts.delegations then (ts, Refused(NotFound))
    else
      var t, d := ts.tenant.value, ts.delegations[delegationId];
      if d.state == Revoked then (ts, Done)
      else (ts.(delegations := ts.delegations[delegationId := d.(state := Revoked)],
                tenant := Some(if d.state == Active then t.(status := TenantPaused) else t)), Done)
  }

  function CurrentAt(now: Time): Delegation -> bool {
    (d: Delegation) => d.state == Active && d.notBefore <= now < d.expiresAt
  }

  function ActiveDelegation(ts: TenantState, now: Time, order: seq<string>): (outcome: Outcome)
    ensures outcome.0 == ts
  {
    if ts.tenant.None? then (ts, Refused(NotFound))
    else
      match First(ts.delegations, order, CurrentAt(now))
      case Some(d) => (ts, DelegationIs(d))
      case None => (ts, Refused(NotFound))
  }

  // ---------------------------------------------------------------------------------- audit

  function AppendAudit(ts: TenantState, id: string, e: AuditEvent): (outcome: Outcome)
    ensures outcome.0 == ts.(audit := outcome.0.audit)
  {
    if ts.tenant.None? then (ts, Refused(NotFound))
    else if !InScope(e.tenantId, id) then (ts, Refused(TenantScope))
    else (ts.(audit := ts.audit + [e.(tenantId := id)]), Done)
  }

  // ------------------------------------------------------------------------------ all calls

  datatype TenantOp =
    | Bootstrapping(tenant: Tenant, owner: Administrator)
    | Creating(tenant: Tenant)
    | ReadingTenant
    | PuttingAdministrator(admin: Administrator)
    | ReadingAdministrators
    | PuttingSigningKey(key: SigningKey)
    | ReadingSigningKey(keyId: string)
  datatype DelegationOp =
    | Proposing(delegation: Delegation)
    | Approving(delegationId: string, who: string, signature: seq<int>)
    | Activating(delegationId: string, now: Time)
    | Revoking(delegationId: string)
    | ReadingActive(now: Time, order: seq<string>)
  datatype TemplateOp =
    | PuttingTemplate(template: Template, order: seq<string>)
    | ReadingTemplate(templateId: string, order: seq<string>)
  datatype RequestOp =
    | PuttingRequest(request: Request)
    | ReadingRequest(requestId: string)
    | Deciding(approval: Approval, threshold: int)
    | Consuming(requestId: string, now: Time)
  datatype CredentialOp =
    | Reserving(draws: seq<int>)
    | PuttingRecord(record: Record)
    | SettingStatus(credentialId: string, status: string)
    | ReadingRecords
  datatype AuditOp = Appending(event: AuditEvent) | ReadingAudit

  datatype Op =
    | OnTenant(tenantOp: TenantOp)
    | OnDelegations(delegationOp: DelegationOp)
    | OnTemplates(templateOp: TemplateOp)
    | OnRequests(requestOp: RequestOp)
    | OnCredentials(credentialOp: CredentialOp)
    | OnAudit(auditOp: AuditOp)

  function IfTenant(ts: TenantState, reply: Reply): Outcome {
    (ts, if ts.tenant.Some? then reply else Refused(NotFound))
  }

  function StepTenant(ts: TenantState, id: string, op: TenantOp): (outcome: Outcome)
    ensures outcome.0 == ts.(tenant := outcome.0.tenant, admins := outcome.0.admins, signingKeys := outcome.0.signingKeys)
  {
    match op
    case Bootstrapping(t, owner) => Bootstrap(ts, t, owner)
    case Creating(t) => Create(ts, t)
    case ReadingTenant => (ts, if ts.tenant.Some? then TenantIs(ts.tenant.value) else Refused(NotFound))
    case PuttingAdministrator(a) => PutAdministrator(ts, id, a)
    case ReadingAdministrators => IfTenant(ts, AdminsAre(ts.admins))
    case PuttingSigningKey(k) => PutSigningKey(ts, id, k)
    case ReadingSigningKey(k) => (ts, if k in ts.signingKeys then KeyIs(ts.signingKeys[k]) else Refused(NotFound))
  }

  function StepDelegations(ts: TenantState, id: string, op: DelegationOp): (outcome: Outcome)
    ensures outcome.0 == ts.(delegations := outcome.0.delegations, tenant := outcome.0.tenant)
  {
    match op
    case Proposing(d) => Propose(ts, id, d)
    case Approving(d, who, signature) => Approve(ts, d, who, signature)
    case Activating(d, now) => Activate(ts, d, now)
    case Revoking(d) => Revoke(ts, d)
    case ReadingActive(now, order) => ActiveDelegation(ts, now, order)
  }

  function StepTemplates(ts: TenantState, id: string, op: TemplateOp): (outcome: Outcome)
    ensures outcome.0 == ts.(templates := outcome.0.templates)
  {
    match op
    case PuttingTemplate(t, order) => PutTemplate(ts, id, t, order)
    case ReadingTemplate(t, order) => ActiveTemplate(ts, t, order)
  }

  function StepRequests(ts: TenantState, id: string, op: RequestOp): (outcome: Outcome)
    ensures outcome.0 == ts.(requests := outcome.0.requests, approvals := outcome.0.approvals)
  {
    match op
    case PuttingRequest(r) => PutRequest(ts, id, r)
    case ReadingRequest(r) => (ts, if r in ts.requests then RequestIs(ts.requests[r]) else Refused(NotFound))
    case Deciding(a, threshold) => Decide(ts, id, a, threshold)
    case Consuming(r, now) => ConsumeRequest(ts, r, now)
  }

  function StepCredentials(ts: TenantState, id: string, op: CredentialOp): (outcome: Outcome)
    ensures outcome.0 == ts.(indexes := outcome.0.indexes, credentials := outcome.0.credentials)
  {
    match op
    case Reserving(draws) => ReserveIndex(ts, draws)
    case PuttingRecord(r) => PutRecord(ts, id, r)
    case SettingStatus(c, status) => SetStatus(ts, c, status)
    case ReadingRecords => IfTenant(ts, RecordsAre(ts.credentials))
  }

  function StepAudit(ts: TenantState, id: string, op: AuditOp): (outcome: Outcome)
    ensures outcome.0 == ts.(audit := outcome.0.audit)
  {
    match op
    case Appending(e) => AppendAudit(ts, id, e)
    case ReadingAudit => IfTenant(ts, AuditIs(ts.audit))
  }

  /** One call for tenant `id`. */
  function Step(ts: TenantState, id: string, op: Op): Outcome {
    match op
    case OnTenant(o) => StepTenant(ts, id, o)
    case OnDelegations(o) => StepDelegations(ts, id, o)
    case OnTemplates(o) => StepTemplates(ts, id, o)
    case OnRequests(o) => StepRequests(ts, id, o)
    case OnCredentials(o) => StepCredentials(ts, id, o)
    case OnAudit(o) => StepAudit(ts, id, o)
  }

  /** `order` is a complete iteration of the map's keys. */
  ghost predicate Enumerates<V>(order: seq<string>, m: map<string, V>) {
    (forall i, j :: 0 <= i < j < |order| ==> order[i] != order[j]) && (forall k :: k in order <==> k in m)
  }

  /** The iteration orders handed to a call are iterations of the maps as they are. */
  ghost predicate Feasible(ts: TenantState, op: Op) {
    match op
    case OnTemplates(o) => Enumerates(o.order, ts.templates)
    case OnDelegations(ReadingActive(_, order)) => Enumerates(order, ts.delegations)
    case _ => true
  }
}
