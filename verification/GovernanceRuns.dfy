/** Request approval under interleaving (ansible_issuer/go/internal/oid4vci/issuer.go:82-164).

    `PutMembershipTemplate`, `CreateBoardIssuanceRequest` and `DecideIssuanceRequest` each make several
    store calls; between two of them any other call may happen. A call in progress is a process with the
    values it has read so far; each store call is one atomic step; a process may stop for good anywhere. */
module GovernanceRuns {
  import opened Wrappers
  import opened HostedStore
  import opened HostedInvariants

  const WEEK: int := 7 * 24 * 3600 * 1_000_000_000

  // ------------------------------------------------------------------------------ processes

  datatype Process =
    | TemplateCall(version: int, ttlDays: int, active: bool, tenant: Option<Tenant>)
    | RequestCall(id: string, holder: string, membershipClass: string, host: string, board: string, payloadHash: string,
                 basis: Option<Template>)
    | DecisionCall(given: Approval, request: Option<Request>, checked: Option<Template>)
    | Returned(reply: Reply)

  predicate Fresh(p: Process) {
    match p
    case TemplateCall(_, _, _, tenant) => tenant.None?
    case RequestCall(_, _, _, _, _, _, basis) => basis.None?
    case DecisionCall(_, request, checked) => request.None? && checked.None?
    case Returned(_) => false
  }

  datatype System = System(store: TenantState, procs: map<nat, Process>)

  datatype Event =
    | Start(pid: nat, process: Process)
    | Advance(pid: nat, order: seq<string>, now: Time)
    | Other(op: Op)

  predicate HasPrefix(s: string, prefix: string) {
    |prefix| <= |s| && s[..|prefix|] == prefix
  }

  predicate Blank(s: string) {
    forall c <- s :: c == ' ' || c == '\t' || c == '\n' || c == '\r'
  }

  predicate ValidApplication(holder: string, membershipClass: string, host: string, board: string) {
    HasPrefix(holder, "did:jwk:") && (membershipClass == "member" || membershipClass == "moderator") && !Blank(host) && !Blank(board)
  }

  function MembershipTemplate(version: int, threshold: int, ttlDays: int, active: bool): Template {
    Template("membership", "", version, "PoliticalPartyMembershipCredential", threshold, ttlDays, active)
  }

  function NewRequest(p: Process, t: Template, now: Time): Request
    requires p.RequestCall?
  {
    Request(p.id, "", t.id, t.version, p.holder, p.payloadHash, p.membershipClass, p.host, p.board, Pending,
            t.approvalThreshold, now + WEEK, now)
  }

  /** One store call of a process. */
  function Move(ts: TenantState, id: string, p: Process, order: seq<string>, now: Time): (TenantState, Process) {
    match p
    case TemplateCall(version, ttlDays, active, tenant) =>
      if tenant.None? then
        if ts.tenant.None? || version < 1 || ts.tenant.value.threshold < 1 || ttlDays < 1 || ttlDays > 365
        then (ts, Returned(Refused(DelegationInvalid)))
        else (ts, p.(tenant := ts.tenant))
      else
        var (ts', r) := PutTemplate(ts, id, MembershipTemplate(version, tenant.value.threshold, ttlDays, active), order);
        (ts', Returned(r))
    case RequestCall(_, holder, membershipClass, host, board, _, basis) =>
      if basis.None? then
        var r := ActiveTemplate(ts, "membership", order).1;
        if !r.TemplateIs? || !ValidApplication(holder, membershipClass, host, board)
        then (ts, Returned(Refused(DelegationInvalid)))
        else (ts, p.(basis := Some(r.template)))
      else
        var (ts', r) := PutRequest(ts, id, NewRequest(p, basis.value, now));
        (ts', Returned(r))
    case DecisionCall(given, request, checked) =>
      if request.None? then
        if given.requestId in ts.requests then (ts, p.(request := Some(ts.requests[given.requestId])))
        else (ts, Returned(Refused(NotFound)))
      else if checked.None? then
        var r := ActiveTemplate(ts, request.value.templateId, order).1;
        if !r.TemplateIs? || r.template.version != request.value.templateVersion
        then (ts, Returned(Refused(DelegationInvalid)))
        else (ts, p.(checked := Some(r.template)))
      else
        var (ts', r) := Decide(ts, id, given, checked.value.approvalThreshold);
        (ts', Returned(r))
    case Returned(_) => (ts, p)
  }

  /** Calls that reach the request and approval tables only through the issuer. */
  predicate Reserved(op: Op) {
    op.OnRequests? && (op.requestOp.PuttingRequest? || op.requestOp.Deciding?)
  }

  function Next(s: System, id: string, e: Event): System {
    match e
    case Start(pid, p) => if pid in s.procs || !Fresh(p) then s else s.(procs := s.procs[pid := p])
    case Advance(pid, order, now) =>
      if pid !in s.procs then s
      else
        var (ts, p) := Move(s.store, id, s.procs[pid], order, now);
        System(ts, s.procs[pid := p])
    case Other(op) => if Reserved(op) then s else s.(store := Step(s.store, id, op).0)
  }

  function Run(s: System, id: string, events: seq<Event>): System
    decreases |events|
  {
    if events == [] then s else Run(Next(s, id, events[0]), id, events[1..])
  }

  /** Iteration orders are iterations of the template map as it is. */
  ghost predicate Possible(s: System, e: Event) {
    match e
    case Start(_, _) => true
    case Advance(_, order, _) => Enumerates(order, s.store.templates)
    case Other(op) => Feasible(s.store, op)
  }

  ghost predicate PossibleRun(s: System, id: string, events: seq<Event>)
    decreases |events|
  {
    events == [] || (Possible(s, events[0]) && PossibleRun(Next(s, id, events[0]), id, events[1..]))
  }

  // ------------------------------------------------------------------------------ invariant

  ghost predicate NoDenial(decisions: map<string, Approval>) {
    forall d <- decisions :: decisions[d].decision != "deny"
  }

  /** What a request's state says about the decisions on it, by the threshold of its creation. */
  ghost predicate StateFits(r: Request, decisions: map<string, Approval>) {
    match r.state
    case Pending => |Approvers(decisions)| < r.snapshotThreshold && NoDenial(decisions)
    case Approved => |Approvers(decisions)| >= r.snapshotThreshold && NoDenial(decisions)
    case Offered => |Approvers(decisions)| >= r.snapshotThreshold && NoDenial(decisions)
    case Denied => !NoDenial(decisions)
  }

  ghost predicate RequestInv(ts: TenantState) {
    && ts.approvals.Keys <= ts.requests.Keys
    && forall r <- ts.requests :: ts.requests[r].id == r && StateFits(ts.requests[r], ApprovalsOf(ts, r))
  }

  /** The template is on file, up to its active flag, which may have been cleared since it was read. */
  ghost predicate Known(templates: map<string, Template>, t: Template) {
    var key := TemplateKey(t.id, t.version);
    key in templates && templates[key].(active := t.active) == t
  }

  /** Every request carries the threshold of the template version it was made under. */
  ghost predicate SnapshotInv(templates: map<string, Template>, requests: map<string, Request>) {
    forall r <- requests :: Snapshot(templates, requests[r])
  }

  ghost predicate Snapshot(templates: map<string, Template>, r: Request) {
    var key := TemplateKey(r.templateId, r.templateVersion);
    && key in templates && templates[key].approvalThreshold == r.snapshotThreshold
    && templates[key].id == r.templateId && templates[key].version == r.templateVersion
    && WellMade(r)
  }

  /** What every request on file was made with: a membership request of a `did:jwk` holder for a member or moderator, on
      a named forum host and board, open for seven days. */
  ghost predicate WellMade(r: Request) {
    && r.templateId == "membership" && "did:jwk:" <= r.applicantDid && r.membershipClass in {"member", "moderator"}
    && Named(r.forumHostId) && Named(r.boardId) && r.expiresAt == r.createdAt + 604_800_000_000_000
  }

  /** Not only white space. */
  ghost predicate Named(s: string) {
    exists i :: 0 <= i < |s| && s[i] !in {' ', '\t', '\n', '\r'}
  }

  ghost predicate Thresholds(templates: map<string, Template>) {
    forall k <- templates :: templates[k].approvalThreshold >= 1
  }

  /** `r` is an earlier reading of a request on file. */
  ghost predicate Reading(requests: map<string, Request>, r: Request) {
    r.id in requests && requests[r.id].(state := r.state) == r
  }

  ghost predicate ProcessInv(ts: TenantState, p: Process) {
    match p
    case TemplateCall(_, _, _, tenant) => tenant.Some? ==> tenant.value.threshold >= 1
    case RequestCall(_, holder, membershipClass, host, board, _, basis) =>
      basis.Some? ==>
        && Known(ts.templates, basis.value) && basis.value.id == "membership"
        && "did:jwk:" <= holder && membershipClass in {"member", "moderator"} && Named(host) && Named(board)
    case DecisionCall(given, request, checked) =>
      && (request.Some? ==> request.value.id == given.requestId && Reading(ts.requests, request.value))
      && (checked.Some? ==> request.Some? && Known(ts.templates, checked.value)
                            && checked.value.id == request.value.templateId
                            && checked.value.version == request.value.templateVersion)
    case Returned(_) => true
  }

  ghost predicate StoreInv(ts: TenantState) {
    TemplateInv(ts.templates) && Thresholds(ts.templates) && SnapshotInv(ts.templates, ts.requests) && RequestInv(ts)
  }

  ghost predicate Inv(s: System) {
    StoreInv(s.store) && forall pid <- s.procs :: ProcessInv(s.store, s.procs[pid])
  }

  // -------------------------------------------------------------------- what store calls keep

  /** Requests are never removed; only their state moves. */
  ghost predicate RequestsEvolve(before: map<string, Request>, after: map<string, Request>) {
    forall r <- before :: r in after && after[r].(state := before[r].state) == before[r]
                          && Later(before[r].state, after[r].state)
  }

  /** Denied and offered are terminal; approved can only become offered. */
  predicate Later(a: RequestState, b: RequestState) {
    a == b || a == Pending || (a == Approved && b == Offered)
  }

  ghost predicate Evolves(before: TenantState, after: TenantState) {
    TemplatesEvolve(before.templates, after.templates) && RequestsEvolve(before.requests, after.requests)
  }

  lemma KnownStays(before: map<string, Template>, after: map<string, Template>, t: Template)
    requires TemplatesEvolve(before, after) && Known(before, t)
    ensures Known(after, t)
  {
    hide TemplateKey;
  }

  lemma SnapshotStays(before: map<string, Template>, after: map<string, Template>, requests: map<string, Request>)
    requires TemplatesEvolve(before, after) && SnapshotInv(before, requests)
    ensures SnapshotInv(after, requests)
  {
    hide TemplateKey;
    forall r <- requests ensures Snapshot(after, requests[r]) {
      assert Snapshot(before, requests[r]);
    }
  }

  lemma ProcessStays(before: TenantState, after: TenantState, p: Process)
    requires Evolves(before, after) && ProcessInv(before, p)
    ensures ProcessInv(after, p)
  {
    hide TemplateKey, Known, TemplatesEvolve;
    if p.RequestCall? && p.basis.Some? { KnownStays(before.templates, after.templates, p.basis.value); }
    if p.DecisionCall? && p.checked.Some? { KnownStays(before.templates, after.templates, p.checked.value); }
  }

  lemma EvolvesRefl(ts: TenantState)
    ensures Evolves(ts, ts)
  {
  }

  lemma ThresholdsPut(ts: TenantState, id: string, t: Template, order: seq<string>)
    requires Thresholds(ts.templates)
    ensures Thresholds(PutTemplate(ts, id, t, order).0.templates)
  {
    hide TemplateKey;
    SupersedeSpec(ts.templates, t, order);
  }

  lemma PutTemplateInv(ts: TenantState, id: string, t: Template, order: seq<string>)
    requires StoreInv(ts) && Enumerates(order, ts.templates)
    ensures StoreInv(PutTemplate(ts, id, t, order).0) && Evolves(ts, PutTemplate(ts, id, t, order).0)
  {
    hide PutTemplate, TemplateInv, SnapshotInv, TemplatesEvolve, Thresholds, Enumerates, StateFits, TemplateKey;
    var ts' := PutTemplate(ts, id, t, order).0;
    PutTemplateKeeps(ts, id, t, order);
    ThresholdsPut(ts, id, t, order);
    SnapshotStays(ts.templates, ts'.templates, ts.requests);
    assert forall r <- ts.requests :: ApprovalsOf(ts', r) == ApprovalsOf(ts, r);
  }

  /** Filing or moving one request, with the decisions on it. */
  lemma SetRequest(ts: TenantState, r: Request, approvals: map<string, map<string, Approval>>)
    requires StoreInv(ts) && Snapshot(ts.templates, r)
    requires approvals.Keys <= ts.requests.Keys + {r.id}
    requires forall q :: q != r.id ==>
               ApprovalsOf(ts.(approvals := approvals), q) == ApprovalsOf(ts, q)
    requires StateFits(r, ApprovalsOf(ts.(approvals := approvals), r.id))
    requires r.id in ts.requests ==> r.(state := ts.requests[r.id].state) == ts.requests[r.id]
                                     && Later(ts.requests[r.id].state, r.state)
    ensures var ts' := ts.(requests := ts.requests[r.id := r], approvals := approvals);
            StoreInv(ts') && Evolves(ts, ts')
  {
    hide TemplateInv, Thresholds, StateFits, Snapshot, TemplatesEvolve;
    EvolvesSame(ts);
    var ts' := ts.(requests := ts.requests[r.id := r], approvals := approvals);
    forall q <- ts'.requests ensures ts'.requests[q].id == q && StateFits(ts'.requests[q], ApprovalsOf(ts', q)) {
      assert ApprovalsOf(ts', q) == ApprovalsOf(ts.(approvals := approvals), q);
    }
  }

  lemma EmptyFits(r: Request)
    requires r.state == Pending && r.snapshotThreshold >= 1
    ensures StateFits(r, map[])
  {
    assert Approvers(map[]) == {};
  }

  lemma PutRequestInv(ts: TenantState, id: string, r: Request, t: Template)
    requires StoreInv(ts) && Known(ts.templates, t)
    requires r.templateId == t.id && r.templateVersion == t.version && r.snapshotThreshold == t.approvalThreshold
    requires WellMade(r)
    ensures StoreInv(PutRequest(ts, id, r).0) && Evolves(ts, PutRequest(ts, id, r).0)
  {
    hide TemplateInv, TemplateKey, StateFits, Evolves, SnapshotInv;
    EvolvesRefl(ts);
    if r.id !in ts.requests {
      var filed := r.(tenantId := id, state := Pending);
      assert Snapshot(ts.templates, filed);
      EmptyFits(filed);
      SetRequest(ts, filed, ts.approvals);
    }
  }

  /** The new state of a decided request fits, if the snapshot threshold was used. */
  lemma DecisionFits(r: Request, decisions: map<string, Approval>, who: string, a: Approval)
    requires r.state == Pending && StateFits(r, decisions) && who !in decisions
    requires a.decision == "approve" || a.decision == "deny"
    ensures
      var decisions' := decisions[who := a];
      StateFits(r.(state := if a.decision == "deny" then Denied
                            else if |Approvers(decisions')| >= r.snapshotThreshold then Approved else Pending),
                decisions')
  {
    hide Approvers;
    var decisions' := decisions[who := a];
    if a.decision == "deny" {
      assert decisions'[who].decision == "deny";
    } else {
      assert a.decision != "deny";
    }
  }

  lemma DecideInv(ts: TenantState, id: string, given: Approval, threshold: int)
    requires StoreInv(ts)
    requires given.requestId in ts.requests ==> threshold == ts.requests[given.requestId].snapshotThreshold
    ensures StoreInv(Decide(ts, id, given, threshold).0) && Evolves(ts, Decide(ts, id, given, threshold).0)
  {
    hide TemplateInv, Approvers, StateFits, Evolves, Snapshot;
    EvolvesRefl(ts);
    var rid, who := given.requestId, given.approverDid;
    if MayDecide(ts.requests, ts.admins, given) && who !in ApprovalsOf(ts, rid) {
      var filed := given.(tenantId := id);
      var request := Decide(ts, id, given, threshold).0.requests[rid];
      DecisionFits(ts.requests[rid], ApprovalsOf(ts, rid), who, filed);
      SnapshotSame(ts.templates, ts.requests[rid], request.state);
      SetRequest(ts, request, ts.approvals[rid := ApprovalsOf(ts, rid)[who := filed]]);
    }
  }

  lemma SnapshotSame(templates: map<string, Template>, r: Request, state: RequestState)
    requires Snapshot(templates, r)
    ensures Snapshot(templates, r.(state := state))
  {
  }

  lemma OfferedFits(r: Request, decisions: map<string, Approval>)
    requires r.state == Approved && StateFits(r, decisions)
    ensures StateFits(r.(state := Offered), decisions)
  {
  }

  lemma ConsumeInv(ts: TenantState, requestId: string, now: Time)
    requires StoreInv(ts)
    ensures StoreInv(ConsumeRequest(ts, requestId, now).0) && Evolves(ts, ConsumeRequest(ts, requestId, now).0)
  {
    hide TemplateInv, StateFits, Evolves, Snapshot;
    EvolvesRefl(ts);
    if ConsumeRequest(ts, requestId, now).1.RequestIs? {
      var r := ts.requests[requestId];
      OfferedFits(r, ApprovalsOf(ts, requestId));
      SnapshotSame(ts.templates, r, Offered);
      SetRequest(ts, r.(state := Offered), ts.approvals);
      assert ts.(approvals := ts.approvals) == ts;
    }
  }

  lemma OtherInv(ts: TenantState, id: string, op: Op)
    requires StoreInv(ts) && Feasible(ts, op) && !Reserved(op)
    ensures StoreInv(Step(ts, id, op).0) && Evolves(ts, Step(ts, id, op).0)
  {
    hide StepTenant, StepDelegations, StepCredentials, StepAudit, PutTemplate, ConsumeRequest;
    hide TemplateInv, SnapshotInv, Thresholds, Enumerates, StateFits, TemplatesEvolve, RequestsEvolve;
    EvolvesSame(ts);
    match op
    case OnTemplates(o) => if o.PuttingTemplate? { PutTemplateInv(ts, id, o.template, o.order); }
    case OnRequests(o) => if o.Consuming? { ConsumeInv(ts, o.requestId, o.now); }
    case _ =>
      var ts' := Step(ts, id, op).0;
      assert forall r <- ts.requests :: ApprovalsOf(ts', r) == ApprovalsOf(ts, r);
  }

  lemma EvolvesSame(ts: TenantState)
    ensures TemplatesEvolve(ts.templates, ts.templates) && RequestsEvolve(ts.requests, ts.requests)
  {
  }

  // ------------------------------------------------------------------------- steps and runs

  lemma ActiveTemplateKnown(ts: TenantState, templateId: string, order: seq<string>)
    requires TemplateInv(ts.templates) && ActiveTemplate(ts, templateId, order).1.TemplateIs?
    ensures var t := ActiveTemplate(ts, templateId, order).1.template;
            Known(ts.templates, t) && t.id == templateId && ts.templates[TemplateKey(t.id, t.version)].active
  {
    hide TemplateKey;
    FirstSpec(ts.templates, order, ActiveWithId(templateId));
  }

  lemma MoveTemplate(ts: TenantState, id: string, p: Process, order: seq<string>, now: Time)
    requires p.TemplateCall? && StoreInv(ts) && ProcessInv(ts, p) && Enumerates(order, ts.templates)
    ensures var (ts', p') := Move(ts, id, p, order, now);
            StoreInv(ts') && Evolves(ts, ts') && ProcessInv(ts', p')
  {
    hide StoreInv, Evolves, Enumerates, PutTemplate;
    EvolvesRefl(ts);
    if p.tenant.Some? {
      PutTemplateInv(ts, id, MembershipTemplate(p.version, p.tenant.value.threshold, p.ttlDays, p.active), order);
    }
  }

  lemma MoveRequest(ts: TenantState, id: string, p: Process, order: seq<string>, now: Time)
    requires p.RequestCall? && StoreInv(ts) && ProcessInv(ts, p)
    ensures var (ts', p') := Move(ts, id, p, order, now);
            StoreInv(ts') && Evolves(ts, ts') && ProcessInv(ts', p')
  {
    hide Evolves, PutRequest, ActiveTemplate, ValidApplication, Known, TemplateInv, SnapshotInv, RequestInv, Thresholds;
    EvolvesRefl(ts);
    if p.basis.Some? {
      PutRequestInv(ts, id, NewRequest(p, p.basis.value, now), p.basis.value);
    } else if ActiveTemplate(ts, "membership", order).1.TemplateIs? {
      ActiveTemplateKnown(ts, "membership", order);
      ValidMeans(p.holder, p.membershipClass, p.host, p.board);
    }
  }

  lemma ValidMeans(holder: string, membershipClass: string, host: string, board: string)
    ensures ValidApplication(holder, membershipClass, host, board) <==>
      "did:jwk:" <= holder && membershipClass in {"member", "moderator"} && Named(host) && Named(board)
  {
    BlankMeans(host);
    BlankMeans(board);
    assert HasPrefix(holder, "did:jwk:") <==> "did:jwk:" <= holder;
  }

  lemma BlankMeans(s: string)
    ensures Named(s) <==> !Blank(s)
  {
    if i :| 0 <= i < |s| && s[i] !in {' ', '\t', '\n', '\r'} { assert s[i] in s; }
    if !Blank(s) {
      var c :| c in s && c !in {' ', '\t', '\n', '\r'};
      var i :| 0 <= i < |s| && s[i] == c;
    }
  }

  lemma SnapshotOf(ts: TenantState, r: Request, t: Template)
    requires SnapshotInv(ts.templates, ts.requests) && Reading(ts.requests, r)
    requires Known(ts.templates, t) && t.id == r.templateId && t.version == r.templateVersion
    ensures t.approvalThreshold == ts.requests[r.id].snapshotThreshold
  {
    hide TemplateKey;
    assert Snapshot(ts.templates, ts.requests[r.id]);
  }

  lemma MoveDecision(ts: TenantState, id: string, p: Process, order: seq<string>, now: Time)
    requires p.DecisionCall? && StoreInv(ts) && ProcessInv(ts, p)
    ensures var (ts', p') := Move(ts, id, p, order, now);
            StoreInv(ts') && Evolves(ts, ts') && ProcessInv(ts', p')
  {
    hide Evolves, Decide, ActiveTemplate, Known, TemplateInv, SnapshotInv, StateFits, Thresholds;
    EvolvesRefl(ts);
    if p.request.Some? && p.checked.Some? {
      SnapshotOf(ts, p.request.value, p.checked.value);
      DecideInv(ts, id, p.given, p.checked.value.approvalThreshold);
    } else if p.request.Some? && ActiveTemplate(ts, p.request.value.templateId, order).1.TemplateIs? {
      ActiveTemplateKnown(ts, p.request.value.templateId, order);
    }
  }

  /** Every event keeps the invariant. */
  lemma NextKeeps(s: System, id: string, e: Event)
    requires Inv(s) && Possible(s, e)
    ensures Inv(Next(s, id, e)) && Evolves(s.store, Next(s, id, e).store)
  {
    hide StoreInv, Evolves, Move, Step, ProcessInv, Enumerates, Feasible;
    var s' := Next(s, id, e);
    EvolvesRefl(s.store);
    match e
    case Start(pid, p) => if Fresh(p) { FreshInv(s.store, p); }
    case Advance(pid, order, now) =>
      if pid in s.procs {
        MoveKeeps(s.store, id, s.procs[pid], order, now);
        OthersStay(s, s'.store);
      }
    case Other(op) =>
      if !Reserved(op) {
        OtherInv(s.store, id, op);
        OthersStay(s, s'.store);
      }
  }

  lemma FreshInv(ts: TenantState, p: Process)
    requires Fresh(p)
    ensures ProcessInv(ts, p)
  {
  }

  lemma OthersStay(s: System, after: TenantState)
    requires Inv(s) && Evolves(s.store, after)
    ensures forall pid <- s.procs :: ProcessInv(after, s.procs[pid])
  {
    hide Evolves, ProcessInv, StoreInv;
    forall pid <- s.procs ensures ProcessInv(after, s.procs[pid]) {
      ProcessStays(s.store, after, s.procs[pid]);
    }
  }

  lemma MoveKeeps(ts: TenantState, id: string, p: Process, order: seq<string>, now: Time)
    requires StoreInv(ts) && ProcessInv(ts, p) && Enumerates(order, ts.templates)
    ensures var (ts', p') := Move(ts, id, p, order, now);
            StoreInv(ts') && Evolves(ts, ts') && ProcessInv(ts', p')
  {
    hide StoreInv, Evolves, ProcessInv, Enumerates;
    match p
    case TemplateCall(_, _, _, _) => MoveTemplate(ts, id, p, order, now);
    case RequestCall(_, _, _, _, _, _, _) => MoveRequest(ts, id, p, order, now);
    case DecisionCall(_, _, _) => MoveDecision(ts, id, p, order, now);
    case Returned(_) => EvolvesRefl(ts);
  }

  lemma EvolvesTrans(a: TenantState, b: TenantState, c: TenantState)
    requires Evolves(a, b) && Evolves(b, c)
    ensures Evolves(a, c)
  {
  }

  /** In every interleaving: decisions use the threshold snapshotted at the request's creation, so that a
      pending request has fewer approvals than that and no denial, an approved or offered one at least that
      many distinct approvers and no denial; and denied and offered are terminal. */
  lemma {:induction false} RequestsInEveryRun(s: System, id: string, events: seq<Event>)
    requires Inv(s) && PossibleRun(s, id, events)
    ensures Inv(Run(s, id, events))
    ensures Evolves(s.store, Run(s, id, events).store)
    decreases |events|
  {
    hide Inv, Evolves, Next, Possible;
    if events == [] {
      EvolvesRefl(s.store);
    } else {
      NextKeeps(s, id, events[0]);
      RequestsInEveryRun(Next(s, id, events[0]), id, events[1..]);
      EvolvesTrans(s.store, Next(s, id, events[0]).store, Run(s, id, events).store);
    }
  }

  /** The empty system satisfies the invariant. */
  lemma InitialInv()
    ensures Inv(System(EMPTY, map[]))
  {
  }

  // -------------------------------------------------------------------- superseded templates

  /** The request's template version is deactivated and no decision call is past its template check. */
  ghost predicate Dead(s: System, rid: string) {
    && rid in s.store.requests && s.store.requests[rid].state in {Pending, Denied}
    && (var key := TemplateKey(s.store.requests[rid].templateId, s.store.requests[rid].templateVersion);
        key in s.store.templates && !s.store.templates[key].active)
    && forall pid <- s.procs :: s.procs[pid].DecisionCall? && s.procs[pid].given.requestId == rid ==>
         s.procs[pid].checked.None?
  }

  lemma DeadStore(ts: TenantState, after: TenantState, rid: string)
    requires Evolves(ts, after) && rid in ts.requests
    requires var key := TemplateKey(ts.requests[rid].templateId, ts.requests[rid].templateVersion);
             key in ts.templates && !ts.templates[key].active
    ensures rid in after.requests
    ensures var key := TemplateKey(after.requests[rid].templateId, after.requests[rid].templateVersion);
            key in after.templates && !after.templates[key].active
  {
    hide TemplateKey;
  }

  /** A process without a template reading for `rid` neither approves it nor gets such a reading. */
  lemma DeadMove(ts: TenantState, id: string, p: Process, order: seq<string>, now: Time, rid: string)
    requires StoreInv(ts) && ProcessInv(ts, p) && rid in ts.requests && ts.requests[rid].state in {Pending, Denied}
    requires p.DecisionCall? && p.given.requestId == rid ==> p.checked.None?
    requires var key := TemplateKey(ts.requests[rid].templateId, ts.requests[rid].templateVersion);
             key in ts.templates && !ts.templates[key].active
    ensures
      var (ts', p') := Move(ts, id, p, order, now);
      && rid in ts'.requests && ts'.requests[rid].state == ts.requests[rid].state
      && (p'.DecisionCall? && p'.given.requestId == rid ==> p'.checked.None?)
  {
    hide TemplateInv, SnapshotInv, RequestInv, Thresholds, TemplateKey, ActiveTemplate, PutTemplate, ValidApplication, Approvers;
    if p.DecisionCall? && p.request.Some? && p.checked.None? {
      if ActiveTemplate(ts, p.request.value.templateId, order).1.TemplateIs? {
        ActiveTemplateKnown(ts, p.request.value.templateId, order);
      }
    }
  }

  lemma DeadNext(s: System, id: string, e: Event, rid: string)
    requires Inv(s) && Possible(s, e) && Dead(s, rid)
    ensures Dead(Next(s, id, e), rid)
  {
    hide StoreInv, Evolves, Move, Step, ProcessInv, Enumerates, Feasible, TemplateKey;
    var s' := Next(s, id, e);
    NextKeeps(s, id, e);
    DeadStore(s.store, s'.store, rid);
    match e
    case Start(pid, p) =>
    case Advance(pid, order, now) =>
      if pid in s.procs { DeadMove(s.store, id, s.procs[pid], order, now, rid); }
    case Other(op) =>
      if !Reserved(op) { OtherNeverApproves(s.store, id, op, rid); }
  }

  lemma OtherNeverApproves(ts: TenantState, id: string, op: Op, rid: string)
    requires !Reserved(op) && rid in ts.requests && ts.requests[rid].state != Approved
    ensures var ts' := Step(ts, id, op).0; rid in ts'.requests && ts'.requests[rid].state == ts.requests[rid].state
  {
    hide StepTenant, StepDelegations, StepTemplates, StepCredentials, StepAudit;
  }

  /** A request whose template version was superseded before any open decision call had checked it can
      never be newly approved, whatever happens later. */
  lemma {:induction false} SupersededNeverApproved(s: System, id: string, events: seq<Event>, rid: string)
    requires Inv(s) && PossibleRun(s, id, events) && Dead(s, rid)
    ensures Dead(Run(s, id, events), rid)
    ensures Run(s, id, events).store.requests[rid].state != Approved
    decreases |events|
  {
    if events != [] {
      hide Inv, Dead, Next, Possible;
      NextKeeps(s, id, events[0]);
      DeadNext(s, id, events[0], rid);
      SupersededNeverApproved(Next(s, id, events[0]), id, events[1..], rid);
    }
  }

  // ------------------------------------------------------------------------ what approves

  /** The last store call of this process would approve the request. */
  ghost predicate AboutToApprove(s: System, pid: nat, rid: string) {
    && pid in s.procs && s.procs[pid].DecisionCall? && s.procs[pid].given.requestId == rid
    && s.procs[pid].request.Some? && s.procs[pid].checked.Some?
    && (var a := s.procs[pid].given;
        && a.decision == "approve" && a.signedIntentHash != ""
        && a.approverDid in s.store.admins && s.store.admins[a.approverDid].state == "active"
        && !(rid in s.store.approvals && a.approverDid in s.store.approvals[rid]))
    && rid in s.store.requests && s.store.requests[rid].state == Pending
    && |Approvers(ApprovalsOf(s.store, rid))| + 1 >= s.store.requests[rid].snapshotThreshold
  }

  lemma ApproversGrow(decisions: map<string, Approval>, who: string, a: Approval)
    requires who !in decisions && a.decision == "approve"
    ensures |Approvers(decisions[who := a])| == |Approvers(decisions)| + 1
  {
    assert Approvers(decisions[who := a]) == Approvers(decisions) + {who};
  }

  /** Only a decision on this request, past its template check, can approve it. */
  lemma OtherMoves(ts: TenantState, id: string, p: Process, order: seq<string>, now: Time, rid: string)
    requires rid in ts.requests
    requires !(p.DecisionCall? && p.given.requestId == rid && p.request.Some? && p.checked.Some?)
    ensures var ts' := Move(ts, id, p, order, now).0; rid in ts'.requests && ts'.requests[rid] == ts.requests[rid]
  {
    hide ActiveTemplate, PutTemplate, ValidApplication, Approvers, MayDecide, InScope;
  }

  lemma DecideApprovesIff(ts: TenantState, id: string, given: Approval)
    requires given.requestId in ts.requests && ts.requests[given.requestId].state != Approved
    ensures
      var rid := given.requestId;
      var threshold := ts.requests[rid].snapshotThreshold;
      var ts' := Decide(ts, id, given, threshold).0;
      && rid in ts'.requests
      && (ts'.requests[rid].state == Approved <==>
            && given.decision == "approve" && MayDecide(ts.requests, ts.admins, given)
            && given.approverDid !in ApprovalsOf(ts, rid) && |Approvers(ApprovalsOf(ts, rid))| + 1 >= threshold)
  {
    hide Approvers;
    if given.decision == "approve" && given.approverDid !in ApprovalsOf(ts, given.requestId) {
      ApproversGrow(ApprovalsOf(ts, given.requestId), given.approverDid, given.(tenantId := id));
    }
  }

  lemma MoveApprovesIff(s: System, id: string, pid: nat, order: seq<string>, now: Time, rid: string)
    requires Inv(s) && pid in s.procs && rid in s.store.requests && s.store.requests[rid].state != Approved
    ensures var ts' := Move(s.store, id, s.procs[pid], order, now).0;
      rid in ts'.requests && (ts'.requests[rid].state == Approved <==> AboutToApprove(s, pid, rid))
  {
    hide Decide, ActiveTemplate, PutTemplate, PutRequest, ValidApplication, Approvers;
    hide TemplateInv, SnapshotInv, RequestInv, Thresholds, Known, Reading;
    var ts, p := s.store, s.procs[pid];
    assert ProcessInv(ts, p);
    if p.DecisionCall? && p.given.requestId == rid && p.request.Some? && p.checked.Some? {
      SnapshotOf(ts, p.request.value, p.checked.value);
      DecideApprovesIff(ts, id, p.given);
    } else {
      OtherMoves(ts, id, p, order, now, rid);
    }
  }

  /** A request becomes approved exactly by the last store call of a decision call that is past its template
      check, comes from a new active approver and completes the snapshotted threshold. */
  lemma NewlyApprovedIff(s: System, id: string, e: Event, rid: string)
    requires Inv(s) && Possible(s, e) && rid in s.store.requests && s.store.requests[rid].state != Approved
    ensures rid in Next(s, id, e).store.requests
    ensures Next(s, id, e).store.requests[rid].state == Approved <==> e.Advance? && AboutToApprove(s, e.pid, rid)
  {
    hide Inv, Move, Step, AboutToApprove, Possible;
    match e
    case Start(_, _) =>
    case Advance(pid, order, now) =>
      if pid in s.procs { MoveApprovesIff(s, id, pid, order, now, rid); } else { NoProcess(s, pid, rid); }
    case Other(op) => if !Reserved(op) { OtherNeverApproves(s.store, id, op, rid); }
  }

  lemma NoProcess(s: System, pid: nat, rid: string)
    requires pid !in s.procs
    ensures !AboutToApprove(s, pid, rid)
  {
  }

  /** The race that remains: a new template version that comes in between the template check of a decision call
      and its last store call deactivates the request's version, and the request is approved all the same. */
  lemma CheckedCallStillApproves(s: System, id: string, pid: nat, rid: string, t: Template, order: seq<string>,
                                 order': seq<string>, now: Time)
    requires Inv(s) && AboutToApprove(s, pid, rid) && Enumerates(order, s.store.templates)
    requires t.active && t.id == s.store.requests[rid].templateId && PutTemplate(s.store, id, t, order).1 == Done
    ensures var s' := Next(s, id, Other(OnTemplates(PuttingTemplate(t, order))));
      var s'' := Next(s', id, Advance(pid, order', now));
      var key := TemplateKey(s.store.requests[rid].templateId, s.store.requests[rid].templateVersion);
      && key in s'.store.templates && !s'.store.templates[key].active
      && rid in s''.store.requests && s''.store.requests[rid].state == Approved
  {
    hide TemplateKey, RequestInv, Thresholds, ProcessInv, Move, PutTemplate, Enumerates, TemplateInv;
    var e := Other(OnTemplates(PuttingTemplate(t, order)));
    var s' := Next(s, id, e);
    NextKeeps(s, id, e);
    assert s'.store == PutTemplate(s.store, id, t, order).0;
    OlderInactive(s.store, id, t, order, rid);
    MoveApprovesIff(s', id, pid, order', now, rid);
  }

  lemma OlderInactive(ts: TenantState, id: string, t: Template, order: seq<string>, rid: string)
    requires TemplateInv(ts.templates) && SnapshotInv(ts.templates, ts.requests) && Enumerates(order, ts.templates)
    requires rid in ts.requests && t.active && t.id == ts.requests[rid].templateId
    requires PutTemplate(ts, id, t, order).1 == Done
    ensures var key := TemplateKey(ts.requests[rid].templateId, ts.requests[rid].templateVersion);
      key in PutTemplate(ts, id, t, order).0.templates && !PutTemplate(ts, id, t, order).0.templates[key].active
  {
    hide TemplateKey, Supersede;
    var key := TemplateKey(ts.requests[rid].templateId, ts.requests[rid].templateVersion);
    assert Snapshot(ts.templates, ts.requests[rid]);
    SupersedeSpec(ts.templates, t, order);
    PutTemplateKeeps(ts, id, t, order);
    assert key in order;
  }

  // ------------------------------------------------------------------- store calls by the policy

  /** A request is filed with a threshold, and decided with the threshold it was filed with. */
  ghost predicate PolicyOp(ts: TenantState, op: Op) {
    match op
    case OnRequests(PuttingRequest(r)) => r.snapshotThreshold >= 1
    case OnRequests(Deciding(a, threshold)) =>
      a.requestId in ts.requests ==> threshold == ts.requests[a.requestId].snapshotThreshold
    case _ => true
  }

  /** The store call that changes something in a step, if any. */
  function CallOf(p: Process, order: seq<string>, now: Time): Option<Op> {
    match p
    case TemplateCall(version, ttlDays, active, Some(t)) =>
      Some(OnTemplates(PuttingTemplate(MembershipTemplate(version, t.threshold, ttlDays, active), order)))
    case RequestCall(_, _, _, _, _, _, Some(t)) => Some(OnRequests(PuttingRequest(NewRequest(p, t, now))))
    case DecisionCall(given, Some(_), Some(t)) => Some(OnRequests(Deciding(given, t.approvalThreshold)))
    case _ => None
  }

  /** In every reachable state, whatever an issuer call does to the store is one store call by the policy. */
  lemma MoveFollowsPolicy(s: System, id: string, pid: nat, order: seq<string>, now: Time)
    requires Inv(s) && pid in s.procs
    ensures var call := CallOf(s.procs[pid], order, now);
      && Move(s.store, id, s.procs[pid], order, now).0 == (if call.None? then s.store else Step(s.store, id, call.value).0)
      && (call.Some? ==> PolicyOp(s.store, call.value))
  {
    hide Decide, ActiveTemplate, PutTemplate, PutRequest, ValidApplication;
    hide TemplateInv, SnapshotInv, RequestInv, Reading, TemplateKey;
    var p := s.procs[pid];
    assert ProcessInv(s.store, p);
    if p.DecisionCall? && p.request.Some? && p.checked.Some? { SnapshotOf(s.store, p.request.value, p.checked.value); }
    if p.RequestCall? && p.basis.Some? { assert s.store.templates[TemplateKey(p.basis.value.id, p.basis.value.version)].approvalThreshold >= 1; }
  }

  // ------------------------------------------------------------------------ what each step demands

  /** A template call goes on exactly for an existing tenant with a positive threshold, a positive version and a lifetime
      of one to 365 days, and then puts the membership template with the tenant's threshold. */
  lemma TemplateCallSteps(ts: TenantState, id: string, version: int, ttlDays: int, active: bool, t: Tenant,
                          order: seq<string>, now: Time)
    ensures
      && (Move(ts, id, TemplateCall(version, ttlDays, active, None), order, now)
            == (ts, TemplateCall(version, ttlDays, active, ts.tenant)) && ts.tenant.Some?
          <==> ts.tenant.Some? && version >= 1 && ts.tenant.value.threshold >= 1 && 1 <= ttlDays <= 365)
      && Move(ts, id, TemplateCall(version, ttlDays, active, Some(t)), order, now).0
           == PutTemplate(ts, id, Template("membership", "", version, "PoliticalPartyMembershipCredential", t.threshold,
                                           ttlDays, active), order).0
  {
    hide PutTemplate;
  }

  /** A request call goes on exactly with an active membership template and a valid application, and then files a request
      that carries the application and the template's id, version and threshold. */
  lemma RequestCallSteps(ts: TenantState, id: string, p: Process, order: seq<string>, now: Time)
    requires p.RequestCall? && Enumerates(order, ts.templates)
    ensures var (ts', p') := Move(ts, id, p, order, now);
      && (p.basis.None? ==>
            && ts' == ts
            && (p'.RequestCall? <==>
                  && (exists k <- ts.templates :: ts.templates[k].id == "membership" && ts.templates[k].active)
                  && "did:jwk:" <= p.holder && p.membershipClass in {"member", "moderator"} && Named(p.host) && Named(p.board)))
      && (p.basis.Some? && p.id !in ts.requests && p.id in ts'.requests ==>
            var t := p.basis.value;
            ts'.requests[p.id] == Request(p.id, id, t.id, t.version, p.holder, p.payloadHash, p.membershipClass, p.host, p.board,
                                          Pending, t.approvalThreshold, now + 604_800_000_000_000, now))
      && (p.basis.Some? ==> forall q <- ts'.requests :: q in ts.requests || q == p.id)
  {
    hide ValidApplication, First;
    ValidMeans(p.holder, p.membershipClass, p.host, p.board);
    FirstSpec(ts.templates, order, ActiveWithId("membership"));
  }

  /** A decision call goes on exactly when the request is on file and an active version of its template is the one it was
      made under. */
  lemma DecisionCallSteps(ts: TenantState, id: string, given: Approval, r: Request, order: seq<string>, now: Time)
    requires TemplateInv(ts.templates) && Enumerates(order, ts.templates)
    ensures
      && (Move(ts, id, DecisionCall(given, None, None), order, now)
            == if given.requestId in ts.requests then (ts, DecisionCall(given, Some(ts.requests[given.requestId]), None))
               else (ts, Returned(Refused(NotFound))))
      && (Move(ts, id, DecisionCall(given, Some(r), None), order, now).1.DecisionCall? <==>
            exists k <- ts.templates :: ts.templates[k].id == r.templateId && ts.templates[k].active
                                        && ts.templates[k].version == r.templateVersion)
      && Move(ts, id, DecisionCall(given, Some(r), None), order, now).0 == ts
  {
    hide First, TemplateKey;
    FirstSpec(ts.templates, order, ActiveWithId(r.templateId));
    if k :| k in ts.templates && ts.templates[k].id == r.templateId && ts.templates[k].active {
      ActiveTemplateUnique(ts, order, k);
    }
  }
}
