/** From the administrators' decisions to the credential record, in one machine: template, request and decision
    calls of any tenant interleave with offers, exchanges and issuances. Requests are filed and decided by the
    issuer's calls alone; that those use the threshold of the request's creation is proved here, not assumed. */
module EndToEnd {
  import opened Wrappers
  import opened HostedStore
  import opened MemoryStores
  import opened Issuance
  import opened IssuanceTheorems
  import opened IssuanceSteps
  import G = GovernanceRuns
  import SS = StateStore

  /** Every request's state fits the decisions on it, by a threshold of at least one, and whoever decided is a
      registered administrator. */
  ghost predicate Governed(ts: TenantState) {
    && G.RequestInv(ts) && (forall r <- ts.requests :: ts.requests[r].snapshotThreshold >= 1)
    && Registered(ts)
  }

  ghost predicate Registered(ts: TenantState) {
    && (ts.tenant.None? ==> ts.admins == map[])
    && forall r <- ts.approvals :: ts.approvals[r].Keys <= ts.admins.Keys
  }

  ghost predicate GovernedWorld(w: World) {
    forall t :: Governed(At(w, t))
  }

  /** Requests are filed and decided by the policy. */
  ghost predicate PolicyEvent(s: System, e: Event) {
    e.Other? ==> G.PolicyOp(At(s.world, e.tenant), e.op)
  }

  ghost predicate PolicyRun(b: Builder, s: System, events: seq<Event>)
    decreases |events|
  {
    events == [] || (PolicyEvent(s, events[0]) && PolicyRun(b, Next(b, s, events[0]), events[1..]))
  }

  // ------------------------------------------------------------------------------ store calls

  /** Filing or moving one request together with the decisions on it. */
  lemma SetGoverned(ts: TenantState, ts': TenantState, r: Request)
    requires Governed(ts) && r.snapshotThreshold >= 1 && ts'.requests == ts.requests[r.id := r]
    requires ts'.approvals.Keys <= ts'.requests.Keys
    requires forall q :: q != r.id ==> ApprovalsOf(ts', q) == ApprovalsOf(ts, q)
    requires G.StateFits(r, ApprovalsOf(ts', r.id)) && Registered(ts')
    ensures Governed(ts')
  {
    hide G.StateFits, ApprovalsOf;
  }

  lemma PutRequestGoverned(ts: TenantState, id: string, r: Request)
    requires Governed(ts) && r.snapshotThreshold >= 1
    ensures Governed(PutRequest(ts, id, r).0)
  {
    hide G.StateFits;
    var (ts', reply) := PutRequest(ts, id, r);
    if reply == Done {
      var filed := r.(tenantId := id, state := Pending);
      G.EmptyFits(filed);
      SetGoverned(ts, ts', filed);
    }
  }

  lemma DecideGoverned(ts: TenantState, id: string, given: Approval, threshold: int)
    requires Governed(ts)
    requires given.requestId in ts.requests ==> threshold == ts.requests[given.requestId].snapshotThreshold
    ensures Governed(Decide(ts, id, given, threshold).0)
  {
    hide G.StateFits, Approvers;
    var rid, who := given.requestId, given.approverDid;
    if MayDecide(ts.requests, ts.admins, given) && who !in ApprovalsOf(ts, rid) {
      var ts' := Decide(ts, id, given, threshold).0;
      G.DecisionFits(ts.requests[rid], ApprovalsOf(ts, rid), who, given.(tenantId := id));
      SetGoverned(ts, ts', ts'.requests[rid]);
    }
  }

  lemma ConsumeGoverned(ts: TenantState, requestId: string, now: Time)
    requires Governed(ts)
    ensures Governed(ConsumeRequest(ts, requestId, now).0)
  {
    hide G.StateFits;
    var (ts', reply) := ConsumeRequest(ts, requestId, now);
    if reply.RequestIs? {
      G.OfferedFits(ts.requests[requestId], ApprovalsOf(ts, requestId));
      SetGoverned(ts, ts', reply.request);
    }
  }

  /** Nothing but the request calls touches requests and decisions. */
  lemma SameGoverned(ts: TenantState, ts': TenantState)
    requires Governed(ts) && ts'.requests == ts.requests && ts'.approvals == ts.approvals
    requires AdminsStay(ts, ts')
    ensures Governed(ts')
  {
    hide G.StateFits;
    assert forall r :: ApprovalsOf(ts', r) == ApprovalsOf(ts, r);
  }

  /** Administrators are never removed; there are none before the tenant is. */
  ghost predicate AdminsStay(ts: TenantState, ts': TenantState) {
    (ts.tenant.None? ==> ts.admins == map[]) ==>
      ts.admins.Keys <= ts'.admins.Keys && (ts'.tenant.None? ==> ts'.admins == map[])
  }

  lemma TenantAdmins(ts: TenantState, id: string, op: TenantOp)
    ensures AdminsStay(ts, StepTenant(ts, id, op).0)
  {
  }

  lemma DelegationAdmins(ts: TenantState, id: string, op: DelegationOp)
    ensures AdminsStay(ts, StepDelegations(ts, id, op).0)
  {
    hide Propose, Approve, ActiveDelegation;
  }

  lemma StepAdmins(ts: TenantState, id: string, op: Op)
    ensures AdminsStay(ts, Step(ts, id, op).0)
  {
    hide StepTenant, StepDelegations, StepTemplates, StepRequests, StepCredentials, StepAudit;
    match op
    case OnTenant(o) => TenantAdmins(ts, id, o);
    case OnDelegations(o) => DelegationAdmins(ts, id, o);
    case _ =>
  }

  lemma StepGoverned(ts: TenantState, id: string, op: Op)
    requires Governed(ts) && G.PolicyOp(ts, op)
    ensures Governed(Step(ts, id, op).0)
  {
    hide StepTenant, StepDelegations, StepTemplates, StepCredentials, StepAudit;
    hide Governed, PutRequest, Decide, ConsumeRequest, AdminsStay;
    StepAdmins(ts, id, op);
    match op
    case OnRequests(PuttingRequest(r)) => PutRequestGoverned(ts, id, r);
    case OnRequests(Deciding(a, threshold)) => DecideGoverned(ts, id, a, threshold);
    case OnRequests(Consuming(r, now)) => ConsumeGoverned(ts, r, now);
    case _ => SameGoverned(ts, Step(ts, id, op).0);
  }

  // ----------------------------------------------------------------------------------- events

  lemma SetWorld(w: World, t: string, ts: TenantState)
    requires GovernedWorld(w) && Governed(ts)
    ensures GovernedWorld(w[t := ts])
  {
    hide Governed;
    var w' := w[t := ts];
    forall u ensures Governed(At(w', u)) {
      if u != t { assert At(w', u) == At(w, u); }
    }
  }

  lemma MoveGoverned(b: Builder, s: System, pid: nat, p: Process, input: Input)
    requires GovernedWorld(s.world)
    ensures GovernedWorld(Move(b, s, pid, p, input).world)
  {
    hide GovernedWorld, Governed, Move, Step, CallIn, Feasible;
    var call := CallIn(b, p, input);
    MoveIsCall(b, s, pid, p, input);
    if !p.Ended? && call.Some? {
      AtGoverned(s.world, p.tenant);
      StepGoverned(At(s.world, p.tenant), p.tenant, call.value);
      SetWorld(s.world, p.tenant, Step(At(s.world, p.tenant), p.tenant, call.value).0);
      SameGovernedWorld(StepWorld(s.world, p.tenant, call.value), Move(b, s, pid, p, input).world);
    }
  }

  lemma SameGovernedWorld(w: World, w': World)
    requires GovernedWorld(w) && SameWorld(w', w)
    ensures GovernedWorld(w')
  {
    hide Governed;
    forall t ensures Governed(At(w', t)) { assert At(w', t) == At(w, t); }
  }

  lemma AtGoverned(w: World, t: string)
    requires GovernedWorld(w)
    ensures Governed(At(w, t))
  {
  }

  lemma NextGoverned(b: Builder, s: System, e: Event)
    requires GovernedWorld(s.world) && PolicyEvent(s, e)
    ensures GovernedWorld(Next(b, s, e).world)
  {
    hide GovernedWorld, Governed, Move, Step, SS.ExchangeGrant, SS.PutNonce, G.PolicyOp;
    match e
    case Advance(pid, input) => if pid in s.procs { MoveGoverned(b, s, pid, s.procs[pid], input); }
    case Other(t, op) =>
      AtGoverned(s.world, t);
      StepGoverned(At(s.world, t), t, op);
      SetWorld(s.world, t, Step(At(s.world, t), t, op).0);
    case _ =>
  }

  lemma {:induction false} RunGoverned(b: Builder, s: System, events: seq<Event>)
    requires GovernedWorld(s.world) && PolicyRun(b, s, events)
    ensures GovernedWorld(Run(b, s, events).world)
    decreases |events|
  {
    hide GovernedWorld, Next, PolicyEvent;
    if events != [] {
      NextGoverned(b, s, events[0]);
      RunGoverned(b, Next(b, s, events[0]), events[1..]);
    }
  }

  // ------------------------------------------------------------------------- the joint machine

  /** A template, request or decision call of one tenant in progress. */
  datatype Office = Office(tenant: string, process: G.Process)

  datatype Joint = Joint(system: System, offices: map<nat, Office>)

  datatype JointEvent =
    | Issuing(event: Event)
    | Opening(pid: nat, office: Office)
    | Working(pid: nat, order: seq<string>, now: Time)

  const START := Joint(INITIAL, map[])

  /** Filing and deciding requests belongs to the offices; iteration orders are iterations of the maps as they
      are. An event that is not possible does nothing. */
  ghost predicate Possible(j: Joint, e: JointEvent) {
    match e
    case Issuing(Other(t, op)) => !G.Reserved(op) && Feasible(At(j.system.world, t), op)
    case Issuing(_) => true
    case Opening(pid, office) => pid !in j.offices && G.Fresh(office.process)
    case Working(pid, order, _) =>
      pid in j.offices && Enumerates(order, At(j.system.world, j.offices[pid].tenant).templates)
  }

  /** A step that only reads changes nothing. */
  function PutTenant(s: System, t: string, ts: TenantState): System {
    if ts == At(s.world, t) then s else SetTenant(s, t, ts)
  }

  ghost function NextJoint(b: Builder, j: Joint, e: JointEvent): Joint {
    if !Possible(j, e) then j
    else
      match e
      case Issuing(event) => j.(system := Next(b, j.system, event))
      case Opening(pid, office) => j.(offices := j.offices[pid := office])
      case Working(pid, order, now) =>
        var office := j.offices[pid];
        var (ts, p) := G.Move(At(j.system.world, office.tenant), office.tenant, office.process, order, now);
        Joint(PutTenant(j.system, office.tenant, ts), j.offices[pid := office.(process := p)])
  }

  ghost function RunJoint(b: Builder, j: Joint, events: seq<JointEvent>): Joint
    decreases |events|
  {
    if events == [] then j else RunJoint(b, NextJoint(b, j, events[0]), events[1..])
  }

  ghost predicate WorldInv(w: World) {
    forall t :: G.StoreInv(At(w, t))
  }

  ghost predicate JointInv(j: Joint) {
    && WorldInv(j.system.world)
    && forall pid <- j.offices :: G.ProcessInv(At(j.system.world, j.offices[pid].tenant), j.offices[pid].process)
  }

  // ------------------------------------------------------------------- the invariant in every run

  /** A call for tenant `t` that the issuer does not reserve keeps every store and every office in order. */
  lemma StoreMoves(j: Joint, t: string, ts: TenantState)
    requires JointInv(j) && G.StoreInv(ts) && G.Evolves(At(j.system.world, t), ts)
    ensures JointInv(j.(system := SetTenant(j.system, t, ts)))
  {
    hide G.StoreInv, G.Evolves, G.ProcessInv;
    var w, w' := j.system.world, j.system.world[t := ts];
    forall u ensures G.StoreInv(At(w', u)) {
      if u != t { assert At(w', u) == At(w, u); }
    }
    forall pid <- j.offices ensures G.ProcessInv(At(w', j.offices[pid].tenant), j.offices[pid].process) {
      if j.offices[pid].tenant == t {
        G.ProcessStays(At(w, t), ts, j.offices[pid].process);
      } else {
        assert At(w', j.offices[pid].tenant) == At(w, j.offices[pid].tenant);
      }
    }
  }

  lemma AtInv(w: World, t: string)
    requires WorldInv(w)
    ensures G.StoreInv(At(w, t))
  {
  }

  lemma CallMoves(j: Joint, t: string, op: Op)
    requires JointInv(j) && !G.Reserved(op) && Feasible(At(j.system.world, t), op)
    ensures JointInv(j.(system := j.system.(world := StepWorld(j.system.world, t, op))))
  {
    hide JointInv, G.StoreInv, G.Evolves, G.ProcessInv, Step, Feasible;
    assert WorldInv(j.system.world) by { JointHasWorld(j); }
    AtInv(j.system.world, t);
    G.OtherInv(At(j.system.world, t), t, op);
    StoreMoves(j, t, Step(At(j.system.world, t), t, op).0);
  }

  lemma JointHasWorld(j: Joint)
    requires JointInv(j)
    ensures WorldInv(j.system.world)
  {
  }

  /** The invariant looks at the tenants' states only. */
  lemma SameJointInv(j: Joint, s: System)
    requires JointInv(j) && SameWorld(s.world, j.system.world)
    ensures JointInv(j.(system := s))
  {
    hide G.StoreInv, G.ProcessInv;
    forall t ensures G.StoreInv(At(s.world, t)) { assert At(s.world, t) == At(j.system.world, t); }
  }

  lemma IssuingKeeps(b: Builder, j: Joint, e: Event)
    requires JointInv(j) && Possible(j, Issuing(e))
    ensures JointInv(j.(system := Next(b, j.system, e)))
  {
    hide JointInv, Move, Step, Feasible, G.Reserved, SS.ExchangeGrant, SS.PutNonce, CallIn;
    var s := j.system;
    var s' := Next(b, s, e);
    if e.Advance? && e.pid in s.procs {
      var p := s.procs[e.pid];
      var call := CallIn(b, p, e.input);
      MoveIsCall(b, s, e.pid, p, e.input);
      if !p.Ended? && call.Some? {
        CallMoves(j, p.tenant, call.value);
        SameJointInv(j.(system := s.(world := StepWorld(s.world, p.tenant, call.value))), s');
      } else {
        SameJointInv(j, s');
      }
    } else if e.Other? && !Reserved(e.op) {
      CallMoves(j, e.tenant, e.op);
    } else {
      SameJointInv(j, s');
    }
  }

  lemma OfficeMoves(j: Joint, pid: nat, office: Office)
    requires JointInv(j) && G.ProcessInv(At(j.system.world, office.tenant), office.process)
    ensures JointInv(j.(offices := j.offices[pid := office]))
  {
    hide G.StoreInv, G.ProcessInv;
  }

  lemma WorkingKeeps(b: Builder, j: Joint, pid: nat, order: seq<string>, now: Time)
    requires JointInv(j) && Possible(j, Working(pid, order, now))
    ensures JointInv(NextJoint(b, j, Working(pid, order, now)))
  {
    hide G.StoreInv, G.Evolves, G.ProcessInv, G.Move, Enumerates;
    var office := j.offices[pid];
    var ts := At(j.system.world, office.tenant);
    var (ts', p) := G.Move(ts, office.tenant, office.process, order, now);
    G.MoveKeeps(ts, office.tenant, office.process, order, now);
    StoreMoves(j, office.tenant, ts');
    OfficeMoves(j.(system := PutTenant(j.system, office.tenant, ts')), pid, office.(process := p));
  }

  /** Every event of the joint machine keeps the invariant. */
  lemma JointKeeps(b: Builder, j: Joint, e: JointEvent)
    requires JointInv(j)
    ensures JointInv(NextJoint(b, j, e))
  {
    if Possible(j, e) {
      hide JointInv, Possible, Next, G.Move;
      match e
      case Issuing(event) => IssuingKeeps(b, j, event);
      case Opening(pid, office) =>
        assert G.Fresh(office.process) by { OpeningIsFresh(j, pid, office); }
        G.FreshInv(At(j.system.world, office.tenant), office.process);
        OfficeMoves(j, pid, office);
      case Working(pid, order, now) => WorkingKeeps(b, j, pid, order, now);
    }
  }

  lemma OpeningIsFresh(j: Joint, pid: nat, office: Office)
    requires Possible(j, Opening(pid, office))
    ensures G.Fresh(office.process)
  {
  }

  lemma StartInv()
    ensures JointInv(START)
  {
    G.InitialInv();
  }

  // ------------------------------------------------------------------------ the projected run

  /** The store call that a step of an office makes, if it changes anything. */
  ghost function OfficeCall(j: Joint, pid: nat, order: seq<string>, now: Time): Option<Event>
    requires pid in j.offices
  {
    var office := j.offices[pid];
    var ts := At(j.system.world, office.tenant);
    var call := G.CallOf(office.process, order, now);
    if G.Move(ts, office.tenant, office.process, order, now).0 == ts || call.None? then None
    else Some(Other(office.tenant, call.value))
  }

  /** What a joint event is to the offers and issuances: nothing, the event itself, or a store call. */
  ghost function Projected(j: Joint, e: JointEvent): Option<Event> {
    if !Possible(j, e) then None
    else
      match e
      case Issuing(event) => Some(event)
      case Opening(_, _) => None
      case Working(pid, order, now) => OfficeCall(j, pid, order, now)
  }

  ghost function ProjectedRun(b: Builder, j: Joint, events: seq<JointEvent>): seq<Event>
    decreases |events|
  {
    if events == [] then []
    else
      var rest := ProjectedRun(b, NextJoint(b, j, events[0]), events[1..]);
      if Projected(j, events[0]).None? then rest else [Projected(j, events[0]).value] + rest
  }

  /** What an office does is a store call by the policy. */
  lemma OfficeProjects(b: Builder, j: Joint, pid: nat, order: seq<string>, now: Time)
    requires JointInv(j) && Possible(j, Working(pid, order, now))
    ensures var call := OfficeCall(j, pid, order, now);
      var system := NextJoint(b, j, Working(pid, order, now)).system;
      && (call.None? ==> system == j.system)
      && (call.Some? ==> PolicyEvent(j.system, call.value) && system == Next(b, j.system, call.value))
  {
    hide G.StoreInv, G.ProcessInv, G.Move, Step, G.PolicyOp, Enumerates;
    var office := j.offices[pid];
    var ts := At(j.system.world, office.tenant);
    var alone := G.System(ts, map[pid := office.process]);
    assert G.Inv(alone);
    G.MoveFollowsPolicy(alone, office.tenant, pid, order, now);
    var call := G.CallOf(office.process, order, now);
    assert call.Some? ==> !Reserved(call.value);
  }

  lemma EventProjects(b: Builder, j: Joint, e: JointEvent)
    requires JointInv(j)
    ensures var p := Projected(j, e);
      && (p.None? ==> NextJoint(b, j, e).system == j.system)
      && (p.Some? ==> PolicyEvent(j.system, p.value) && NextJoint(b, j, e).system == Next(b, j.system, p.value))
  {
    hide JointInv, Next, G.Move, OfficeCall, Feasible, Enumerates;
    if e.Working? && Possible(j, e) { OfficeProjects(b, j, e.pid, e.order, e.now); }
    if e.Issuing? && Possible(j, e) { assert PolicyEvent(j.system, e.event); }
  }

  /** A joint run is, to the offers and issuances, a run in which requests are filed and decided by the policy. */
  lemma {:induction false} JointProjects(b: Builder, j: Joint, events: seq<JointEvent>)
    requires JointInv(j)
    ensures JointInv(RunJoint(b, j, events))
    ensures Run(b, j.system, ProjectedRun(b, j, events)) == RunJoint(b, j, events).system
    ensures PolicyRun(b, j.system, ProjectedRun(b, j, events))
    decreases |events|
  {
    hide JointInv, NextJoint, Next, Projected, PolicyEvent;
    if events != [] {
      var j' := NextJoint(b, j, events[0]);
      JointKeeps(b, j, events[0]);
      EventProjects(b, j, events[0]);
      JointProjects(b, j', events[1..]);
      var p, rest := Projected(j, events[0]), ProjectedRun(b, j', events[1..]);
      if p.Some? { assert ([p.value] + rest)[1..] == rest; }
    }
  }

  /** Everything reachable. */
  ghost function Reachable(b: Builder, events: seq<JointEvent>): System {
    RunJoint(b, START, events).system
  }

  lemma ReachableIsReached(b: Builder, events: seq<JointEvent>)
    ensures Reachable(b, events) == Reached(b, ProjectedRun(b, START, events))
    ensures PolicyRun(b, INITIAL, ProjectedRun(b, START, events))
  {
    hide JointInv, Run, RunJoint;
    StartInv();
    JointProjects(b, START, events);
  }

  /** Every request of every tenant carries the threshold of the template version it was made under, and every
      open call has read what the stores still say. */
  lemma JointInvInEveryRun(b: Builder, events: seq<JointEvent>)
    ensures JointInv(RunJoint(b, START, events))
  {
    hide JointInv, RunJoint;
    StartInv();
    JointProjects(b, START, events);
  }

  /** In every interleaving of everybody's calls: each tenant's requests are in the state their decisions give
      them, by the threshold of their creation, and administrators made those decisions. */
  lemma GovernedInEveryRun(b: Builder, events: seq<JointEvent>)
    ensures GovernedWorld(Reachable(b, events).world)
  {
    hide Reachable, Run, PolicyRun, Governed;
    ReachableIsReached(b, events);
    InitialGoverned();
    RunGoverned(b, INITIAL, ProjectedRun(b, START, events));
  }

  lemma InitialGoverned()
    ensures GovernedWorld(INITIAL.world)
  {
  }

  // --------------------------------------------------------------------------- the end-to-end result

  /** At least as many registered administrators as the request demanded when it was made, and at least one,
      approved it; none denied it. */
  ghost predicate DulyApproved(ts: TenantState, rid: string) {
    && rid in ts.requests && ts.requests[rid].snapshotThreshold >= 1
    && |Approvers(ApprovalsOf(ts, rid))| >= ts.requests[rid].snapshotThreshold
    && Approvers(ApprovalsOf(ts, rid)) <= ts.admins.Keys && G.NoDenial(ApprovalsOf(ts, rid))
  }

  ghost predicate ClaimsMatch(claims: Claims, r: Request) {
    && claims.holderDid == r.applicantDid && claims.membershipClass == r.membershipClass
    && claims.forumHostId == r.forumHostId && claims.boardId == r.boardId
  }

  /** Whatever the interleaving of everybody's calls, a credential record exists only for a request that was well made
      and duly approved, and says about holder, class, forum host and board what that request says. */
  lemma RecordMeansApproved(b: Builder, events: seq<JointEvent>, t: string, c: string)
    requires c in At(Reachable(b, events).world, t).credentials
    ensures (t, c) in Reachable(b, events).history.writer
    ensures exists rid: string ::
              && DulyApproved(At(Reachable(b, events).world, t), rid)
              && G.WellMade(At(Reachable(b, events).world, t).requests[rid])
              && ClaimsMatch(Reachable(b, events).history.writer[(t, c)].claims,
                             At(Reachable(b, events).world, t).requests[rid])
  {
    hide G.StateFits, Reachable, Reached, MadeFor, CredentialId;
    var s := Reachable(b, events);
    ReachableIsReached(b, events);
    RecordMatchesRequest(b, ProjectedRun(b, START, events), t, c);
    GovernedInEveryRun(b, events);
    AtGoverned(s.world, t);
    var ts := At(s.world, t);
    var claims := s.history.writer[(t, c)].claims;
    var rid :| rid in ts.requests && ts.requests[rid].state == Offered && ClaimsMatch(claims, ts.requests[rid]);
    OfferedMeans(ts.requests[rid], ApprovalsOf(ts, rid));
    assert DulyApproved(ts, rid);
    WellMadeInEveryRun(b, events, t, rid);
  }

  /** In every interleaving each request on file is well made. */
  lemma WellMadeInEveryRun(b: Builder, events: seq<JointEvent>, t: string, rid: string)
    requires rid in At(Reachable(b, events).world, t).requests
    ensures G.WellMade(At(Reachable(b, events).world, t).requests[rid])
  {
    hide G.WellMade, G.ProcessInv, G.RequestInv, RunJoint;
    JointInvInEveryRun(b, events);
    var ts := At(RunJoint(b, START, events).system.world, t);
    AtInv(RunJoint(b, START, events).system.world, t);
    assert G.Snapshot(ts.templates, ts.requests[rid]);
  }

  lemma OfferedMeans(r: Request, decisions: map<string, Approval>)
    requires r.state == Offered && G.StateFits(r, decisions)
    ensures |Approvers(decisions)| >= r.snapshotThreshold && G.NoDenial(decisions)
  {
  }
}
