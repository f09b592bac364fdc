/** What holds in every interleaving of offers, exchanges and issuances. */
module IssuanceSafety {
  import opened Wrappers
  import opened HostedStore
  import opened MemoryStores
  import opened Issuance
  import SS = StateStore

  // ------------------------------------------------------------------------------ invariant

  /** A grant carries the data of the offered request it was made for. */
  ghost predicate GrantOk(b: Builder, world: World, c: string, g: SS.Grant, origin: (string, string)) {
    var requests := At(world, origin.0).requests;
    && origin.1 in requests && requests[origin.1].state == Offered
    && g == GrantFor(b, origin.0, requests[origin.1], c, g.expiresAt).(consumedAt := g.consumedAt)
  }

  /** At most one grant per request. */
  ghost predicate GrantInv(b: Builder, world: World, grants: map<string, SS.Grant>, origin: map<string, (string, string)>) {
    && origin.Keys == grants.Keys
    && (forall c <- grants :: GrantOk(b, world, c, grants[c], origin[c]))
    && (forall c, d :: c in origin && d in origin && origin[c] == origin[d] ==> c == d)
  }

  ghost predicate AccessOk(world: World, grants: map<string, SS.Grant>, k: string, a: SS.Access) {
    && a.grantCodeHash in grants && grants[a.grantCodeHash].consumedAt.Some?
    && a.(statusIndex := None, issuedAt := None, consumedAt := None) == SS.NewAccess(grants[a.grantCodeHash], k, a.expiresAt)
    && (a.statusIndex.Some? <==> a.issuedAt.Some?)
    && (a.statusIndex.Some? ==> a.statusIndex.value in At(world, a.tenantId).indexes)
  }

  /** At most one token per grant. */
  ghost predicate OneTokenPerGrant(access: map<string, SS.Access>) {
    forall j, k :: j in access && k in access && access[j].grantCodeHash == access[k].grantCodeHash ==> j == k
  }

  /** No two tokens of a tenant share a status index. */
  ghost predicate IndexesDiffer(access: map<string, SS.Access>) {
    forall j, k :: (j in access && k in access && access[j].tenantId == access[k].tenantId
                    && access[j].statusIndex.Some? && access[j].statusIndex == access[k].statusIndex) ==> j == k
  }

  ghost predicate AccessInv(world: World, grants: map<string, SS.Grant>, access: map<string, SS.Access>) {
    && (forall k <- access :: AccessOk(world, grants, k, access[k]))
    && OneTokenPerGrant(access) && IndexesDiffer(access)
  }

  predicate Past(p: Process, stages: set<Stage>) {
    p.IssueCall? && p.stage !in stages
  }

  /** The token row a call has read is still there, and is what the row has grown from. */
  ghost predicate RowOk(access: map<string, SS.Access>, p: Process) {
    Past(p, {ReadingAccess}) ==>
      p.access.Some? && Accepts(p, p.access.value) && p.token in access && SS.RowEvolves(p.access.value, access[p.token])
  }

  ghost predicate NonceOk(spentBy: map<string, nat>, pid: nat, p: Process) {
    Past(p, {ReadingAccess, SpendingNonce}) ==> p.nonce in spentBy && spentBy[p.nonce] == pid
  }

  ghost predicate OrganizationOk(world: World, p: Process) {
    Past(p, {ReadingAccess, SpendingNonce, ReadingOrganization}) ==>
      At(world, p.tenant).tenant.Some? && At(world, p.tenant).tenant.value.organizationDid == p.organization
  }

  ghost predicate ShapeOk(p: Process) {
    && (Past(p, {ReadingAccess, SpendingNonce, ReadingOrganization, ReadingDelegation}) ==> p.delegation.Some?)
    && (p.IssueCall? && p.stage in {Writing, Marking, Auditing} ==> Prepared(p))
  }

  ghost predicate Holds(p: Process, tenant: string, index: int) {
    p.IssueCall? && p.stage == Preparing && p.tenant == tenant && p.index == index
  }

  ghost predicate Assigned(access: map<string, SS.Access>, tenant: string, index: int) {
    exists k <- access :: access[k].tenantId == tenant && access[k].statusIndex == Some(index)
  }

  /** A reserved index in a call's hands is reserved in the store and assigned to no token. */
  ghost predicate IndexOk(world: World, access: map<string, SS.Access>, p: Process) {
    p.IssueCall? && p.stage == Preparing ==>
      p.index in At(world, p.tenant).indexes && !Assigned(access, p.tenant, p.index)
  }

  ghost predicate Took(p: Process, tenant: string, requestId: string) {
    p.OfferCall? && p.taken.Some? && p.tenant == tenant && p.requestId == requestId
  }

  /** A taken request is offered and has no grant yet. */
  ghost predicate TakenOk(world: World, origin: map<string, (string, string)>, p: Process) {
    p.OfferCall? && p.taken.Some? ==>
      && p.requestId in At(world, p.tenant).requests
      && At(world, p.tenant).requests[p.requestId] == p.taken.value && p.taken.value.state == Offered
      && forall c <- origin :: origin[c] != (p.tenant, p.requestId)
  }

  ghost predicate ProcessOk(s: System, pid: nat, p: Process) {
    && RowOk(s.db.access, p) && NonceOk(s.history.spentBy, pid, p) && OrganizationOk(s.world, p) && ShapeOk(p)
    && IndexOk(s.world, s.db.access, p) && TakenOk(s.world, s.history.origin, p)
  }

  /** No two calls hold the same reserved index or the same taken request. */
  ghost predicate NoClash(procs: map<nat, Process>) {
    && (forall i, j :: i in procs && j in procs && i != j && procs[i].IssueCall? ==>
          !(Holds(procs[i], procs[i].tenant, procs[i].index) && Holds(procs[j], procs[i].tenant, procs[i].index)))
    && (forall i, j :: i in procs && j in procs && i != j && procs[i].OfferCall? ==>
          !(Took(procs[i], procs[i].tenant, procs[i].requestId) && Took(procs[j], procs[i].tenant, procs[i].requestId)))
  }

  /** What a record says is what its token says. */
  ghost predicate RecordOk(b: Builder, ts: TenantState, access: map<string, SS.Access>, t: string, c: string, w: Written) {
    && c in ts.credentials && w.token in access && ts.tenant.Some?
    && (var a, r := access[w.token], ts.credentials[c];
        && a.tenantId == t && a.statusIndex == Some(r.statusIndex) && a.issuedAt == Some(r.issuedAt)
        && r.subjectHash == a.subjectHash && r.tenantId == t && r.credentialHash == b.jwtHash(w.kmsKey, w.claims)
        && w.claims == Claims(ts.tenant.value.organizationDid, IssuerUrl(b, t), a.subjectDid, w.claims.jwk,
                              a.membershipClass, a.forumHostId, a.boardId, r.statusIndex, r.issuedAt)
        && c == CredentialId(b, w.claims))
  }

  ghost predicate RecordInv(b: Builder, world: World, access: map<string, SS.Access>, writer: map<(string, string), Written>) {
    forall t, c :: c in At(world, t).credentials ==>
      (t, c) in writer && RecordOk(b, At(world, t), access, t, c, writer[(t, c)])
  }

  ghost predicate NonceInv(nonces: map<string, SS.Nonce>, spentBy: map<string, nat>) {
    forall n <- spentBy :: n in nonces && nonces[n].consumedAt.Some?
  }

  ghost predicate Inv(b: Builder, s: System) {
    && GrantInv(b, s.world, s.db.grants, s.history.origin)
    && AccessInv(s.world, s.db.grants, s.db.access)
    && RecordInv(b, s.world, s.db.access, s.history.writer)
    && NonceInv(s.db.nonces, s.history.spentBy)
    && NoClash(s.procs)
    && forall pid <- s.procs :: ProcessOk(s, pid, s.procs[pid])
  }

  // ------------------------------------------------------------ what other store calls may do

  /** Organization, reserved indexes, written records (but for their status) and offered requests stay. */
  ghost predicate Quiet(ts: TenantState, ts': TenantState) {
    && (ts.tenant.Some? ==> ts'.tenant.Some? && ts'.tenant.value.organizationDid == ts.tenant.value.organizationDid)
    && ts.indexes <= ts'.indexes
    && SameButStatus(ts.credentials, ts'.credentials)
    && OfferedStay(ts.requests, ts'.requests)
  }

  ghost predicate SameButStatus(a: map<string, Record>, b: map<string, Record>) {
    a.Keys == b.Keys && forall c <- a :: b[c].(status := a[c].status) == a[c]
  }

  ghost predicate OfferedStay(a: map<string, Request>, b: map<string, Request>) {
    forall r <- a :: a[r].state == Offered ==> r in b && b[r] == a[r]
  }

  lemma QuietTenant(ts: TenantState, id: string, op: TenantOp)
    ensures Quiet(ts, StepTenant(ts, id, op).0)
  {
  }

  lemma QuietDelegations(ts: TenantState, id: string, op: DelegationOp)
    ensures Quiet(ts, StepDelegations(ts, id, op).0)
  {
    hide Propose, Approve, ActiveDelegation;
    match op
    case Activating(d, now) => assert Quiet(ts, Activate(ts, d, now).0);
    case Revoking(d) => assert Quiet(ts, Revoke(ts, d).0);
    case _ =>
  }

  lemma QuietRequests(ts: TenantState, id: string, op: RequestOp)
    ensures Quiet(ts, StepRequests(ts, id, op).0)
  {
    hide Approvers, InScope;
  }

  lemma QuietCredentials(ts: TenantState, id: string, op: CredentialOp)
    requires !op.PuttingRecord?
    ensures Quiet(ts, StepCredentials(ts, id, op).0)
  {
    hide FirstFree, Attempted;
  }

  /** Every call but writing a record is quiet. */
  lemma QuietStep(ts: TenantState, id: string, op: Op)
    requires !(op.OnCredentials? && op.credentialOp.PuttingRecord?)
    ensures Quiet(ts, Step(ts, id, op).0)
  {
    hide StepTenant, StepDelegations, StepTemplates, StepRequests, StepCredentials, StepAudit;
    match op
    case OnTenant(o) => QuietTenant(ts, id, o);
    case OnDelegations(o) => QuietDelegations(ts, id, o);
    case OnRequests(o) => QuietRequests(ts, id, o);
    case OnCredentials(o) => QuietCredentials(ts, id, o);
    case _ =>
  }

  ghost predicate QuietWorld(w: World, w': World) {
    forall t :: Quiet(At(w, t), At(w', t))
  }

  lemma QuietSet(w: World, t: string, ts: TenantState)
    requires Quiet(At(w, t), ts)
    ensures QuietWorld(w, w[t := ts])
  {
    forall u ensures Quiet(At(w, u), At(w[t := ts], u)) {
      if u != t { assert At(w[t := ts], u) == At(w, u); }
    }
  }

  // -------------------------------------------------------------- the invariant as the world moves

  lemma GrantsQuiet(b: Builder, w: World, w': World, grants: map<string, SS.Grant>, origin: map<string, (string, string)>)
    requires QuietWorld(w, w') && GrantInv(b, w, grants, origin)
    ensures GrantInv(b, w', grants, origin)
  {
    hide GrantFor;
    forall c <- grants ensures GrantOk(b, w', c, grants[c], origin[c]) {
      assert GrantOk(b, w, c, grants[c], origin[c]);
      assert Quiet(At(w, origin[c].0), At(w', origin[c].0));
    }
  }

  lemma AccessQuiet(w: World, w': World, grants: map<string, SS.Grant>, access: map<string, SS.Access>)
    requires QuietWorld(w, w') && AccessInv(w, grants, access)
    ensures AccessInv(w', grants, access)
  {
    hide OneTokenPerGrant, IndexesDiffer;
    forall k <- access ensures AccessOk(w', grants, k, access[k]) {
      assert AccessOk(w, grants, k, access[k]);
      assert Quiet(At(w, access[k].tenantId), At(w', access[k].tenantId));
    }
  }

  lemma RecordsQuiet(b: Builder, w: World, w': World, access: map<string, SS.Access>, writer: map<(string, string), Written>)
    requires QuietWorld(w, w') && RecordInv(b, w, access, writer)
    ensures RecordInv(b, w', access, writer)
  {
    hide CredentialId, IssuerUrl, OfferedStay;
    forall t, c | c in At(w', t).credentials
      ensures (t, c) in writer && RecordOk(b, At(w', t), access, t, c, writer[(t, c)])
    {
      assert Quiet(At(w, t), At(w', t));
      assert c in At(w, t).credentials;
      assert RecordOk(b, At(w, t), access, t, c, writer[(t, c)]);
    }
  }

  lemma ProcessQuiet(s: System, w': World, pid: nat, p: Process)
    requires QuietWorld(s.world, w') && ProcessOk(s, pid, p)
    ensures ProcessOk(s.(world := w'), pid, p)
  {
    hide RowOk, NonceOk, ShapeOk, Assigned, SameButStatus;
    if !p.Ended? { assert Quiet(At(s.world, p.tenant), At(w', p.tenant)); }
  }

  lemma WorldMoves(b: Builder, s: System, w': World)
    requires Inv(b, s) && QuietWorld(s.world, w')
    ensures Inv(b, s.(world := w'))
  {
    hide GrantInv, AccessInv, RecordInv, NonceInv, NoClash, ProcessOk, QuietWorld;
    GrantsQuiet(b, s.world, w', s.db.grants, s.history.origin);
    AccessQuiet(s.world, w', s.db.grants, s.db.access);
    RecordsQuiet(b, s.world, w', s.db.access, s.history.writer);
    forall pid <- s.procs ensures ProcessOk(s.(world := w'), pid, s.procs[pid]) {
      ProcessQuiet(s, w', pid, s.procs[pid]);
    }
  }

  /** Any other call for any tenant keeps the invariant. */
  lemma TenantMoves(b: Builder, s: System, t: string, ts: TenantState)
    requires Inv(b, s) && Quiet(At(s.world, t), ts)
    ensures Inv(b, SetTenant(s, t, ts))
  {
    hide Inv, Quiet, QuietWorld;
    QuietSet(s.world, t, ts);
    WorldMoves(b, s, s.world[t := ts]);
  }

  // ------------------------------------------------------------- the invariant as one process moves

  /** The process holds no index and no request. */
  predicate Light(p: Process) {
    match p
    case Ended => true
    case OfferCall(_, _, taken) => taken.None?
    case IssueCall(_, _, _, _, _, stage, _, _, _, _, _, _) => stage != Preparing
  }

  lemma LightClash(procs: map<nat, Process>, pid: nat, p: Process)
    requires NoClash(procs) && Light(p)
    ensures NoClash(procs[pid := p])
  {
  }

  lemma ProcessMoves(b: Builder, s: System, pid: nat, p: Process)
    requires Inv(b, s) && Light(p) && ProcessOk(s, pid, p)
    ensures Inv(b, SetProcess(s, pid, p))
  {
    hide GrantInv, AccessInv, RecordInv, NonceInv, NoClash;
    hide RowOk, NonceOk, OrganizationOk, ShapeOk, IndexOk, TakenOk, Light;
    LightClash(s.procs, pid, p);
    var s' := SetProcess(s, pid, p);
    forall i <- s'.procs ensures ProcessOk(s', i, s'.procs[i]) {
      assert i != pid ==> ProcessOk(s, i, s.procs[i]);
    }
  }

  lemma EndedOk(s: System, pid: nat)
    ensures ProcessOk(s, pid, Ended)
  {
  }

  lemma EndMoves(b: Builder, s: System, pid: nat)
    requires Inv(b, s)
    ensures Inv(b, SetProcess(s, pid, Ended))
  {
    hide Inv, ProcessOk;
    EndedOk(s, pid);
    ProcessMoves(b, s, pid, Ended);
  }

  // -------------------------------------------------------------- the invariant as the tables move

  lemma RecordsEvolve(b: Builder, w: World, access: map<string, SS.Access>, access': map<string, SS.Access>,
                      writer: map<(string, string), Written>)
    requires RecordInv(b, w, access, writer) && SS.AccessEvolves(access, access')
    ensures RecordInv(b, w, access', writer)
  {
    hide CredentialId, IssuerUrl;
    forall t, c | c in At(w, t).credentials
      ensures (t, c) in writer && RecordOk(b, At(w, t), access', t, c, writer[(t, c)])
    {
      assert RecordOk(b, At(w, t), access, t, c, writer[(t, c)]);
    }
  }

  lemma RowEvolvesTrans(a: SS.Access, b: SS.Access, c: SS.Access)
    requires SS.RowEvolves(a, b) && SS.RowEvolves(b, c)
    ensures SS.RowEvolves(a, c)
  {
  }

  lemma RowsEvolve(access: map<string, SS.Access>, access': map<string, SS.Access>, p: Process)
    requires SS.AccessEvolves(access, access') && RowOk(access, p)
    ensures RowOk(access', p)
  {
    hide Accepts;
    if Past(p, {ReadingAccess}) { RowEvolvesTrans(p.access.value, access[p.token], access'[p.token]); }
  }

  /** No token gets an index, except perhaps the one `given` to a token of its tenant. */
  ghost predicate NoNewIndex(access: map<string, SS.Access>, access': map<string, SS.Access>, given: Option<(string, int)>) {
    forall k <- access' :: access'[k].statusIndex.Some? ==>
      (k in access && access[k].tenantId == access'[k].tenantId && access[k].statusIndex == access'[k].statusIndex)
      || given == Some((access'[k].tenantId, access'[k].statusIndex.value))
  }

  ghost predicate HeldBy(p: Process, given: Option<(string, int)>) {
    given.Some? && Holds(p, given.value.0, given.value.1)
  }

  lemma IndexEvolves(w: World, access: map<string, SS.Access>, access': map<string, SS.Access>, p: Process,
                     given: Option<(string, int)>)
    requires IndexOk(w, access, p) && NoNewIndex(access, access', given) && !HeldBy(p, given)
    ensures IndexOk(w, access', p)
  {
  }

  /** New tables under which grants, tokens and spent nonces are in order leave the processes in order,
      as long as nobody holds the index that was assigned. */
  lemma TablesMove(b: Builder, s: System, db: SS.Tables, given: Option<(string, int)>)
    requires Inv(b, s)
    requires GrantInv(b, s.world, db.grants, s.history.origin) && AccessInv(s.world, db.grants, db.access)
    requires NonceInv(db.nonces, s.history.spentBy)
    requires SS.AccessEvolves(s.db.access, db.access) && NoNewIndex(s.db.access, db.access, given)
    requires forall pid <- s.procs :: !HeldBy(s.procs[pid], given)
    ensures Inv(b, s.(db := db))
  {
    hide GrantInv, AccessInv, RecordInv, NonceInv, NoClash, SS.AccessEvolves, NoNewIndex, HeldBy;
    hide RowOk, NonceOk, OrganizationOk, ShapeOk, IndexOk, TakenOk;
    RecordsEvolve(b, s.world, s.db.access, db.access, s.history.writer);
    var s' := s.(db := db);
    forall pid <- s'.procs ensures ProcessOk(s', pid, s'.procs[pid]) {
      var p := s.procs[pid];
      assert ProcessOk(s, pid, p);
      RowsEvolve(s.db.access, db.access, p);
      IndexEvolves(s.world, s.db.access, db.access, p, given);
    }
  }

  lemma NoChange(access: map<string, SS.Access>)
    ensures SS.AccessEvolves(access, access) && NoNewIndex(access, access, None)
  {
  }

  // --------------------------------------------------------------------------------- offers

  lemma TakeMoves(b: Builder, s: System, pid: nat, input: Input)
    requires Inv(b, s) && pid in s.procs && s.procs[pid].OfferCall? && s.procs[pid].taken.None?
    ensures Inv(b, TakeRequest(s, pid, s.procs[pid], input))
  {
    var p := s.procs[pid];
    var ts := At(s.world, p.tenant);
    var (ts', r) := ConsumeRequest(ts, p.requestId, input.now);
    if r.RequestIs? {
      QuietStep(ts, p.tenant, OnRequests(Consuming(p.requestId, input.now)));
      TenantMoves(b, s, p.tenant, ts');
      TakenMoves(b, SetTenant(s, p.tenant, ts'), s, pid, r.request);
    } else {
      EndMoves(b, s, pid);
    }
  }

  /** A request that was approved until now is in nobody's hands and has no grant. */
  lemma TakenMoves(b: Builder, s: System, before: System, pid: nat, r: Request)
    requires Inv(b, s) && Inv(b, before) && pid in s.procs && s.procs[pid].OfferCall? && s.procs[pid].taken.None?
    requires s.procs == before.procs && s.history == before.history && s.db == before.db
    requires var p := s.procs[pid];
      && p.requestId in At(before.world, p.tenant).requests && At(before.world, p.tenant).requests[p.requestId].state == Approved
      && p.requestId in At(s.world, p.tenant).requests && At(s.world, p.tenant).requests[p.requestId] == r && r.state == Offered
    ensures Inv(b, SetProcess(s, pid, s.procs[pid].(taken := Some(r))))
  {
    hide AccessInv, RecordInv, NonceInv, GrantFor;
    var p := s.procs[pid];
    var q := p.(taken := Some(r));
    var s' := SetProcess(s, pid, q);
    forall c <- s.history.origin ensures s.history.origin[c] != (p.tenant, p.requestId) {
      assert GrantOk(b, before.world, c, before.db.grants[c], before.history.origin[c]);
    }
    assert ProcessOk(s', pid, q);
    forall i <- s'.procs ensures ProcessOk(s', i, s'.procs[i]) {
      if i != pid { assert ProcessOk(s, i, s.procs[i]); }
    }
    forall j | j in s.procs && j != pid ensures !Took(s.procs[j], p.tenant, p.requestId) {
      assert ProcessOk(before, j, before.procs[j]);
    }
    TookClash(s.procs, pid, q);
  }

  lemma TookClash(procs: map<nat, Process>, pid: nat, q: Process)
    requires NoClash(procs) && q.OfferCall?
    requires forall j <- procs :: j != pid ==> !Took(procs[j], q.tenant, q.requestId)
    ensures NoClash(procs[pid := q])
  {
  }

  lemma GrantMoves(b: Builder, s: System, pid: nat, input: Input)
    requires Inv(b, s) && pid in s.procs && s.procs[pid].OfferCall? && s.procs[pid].taken.Some?
    ensures Inv(b, MakeGrant(b, s, pid, s.procs[pid], input))
  {
    hide GrantInv, AccessInv, RecordInv, NonceInv, NoClash, GrantFor;
    var p := s.procs[pid];
    var g := GrantFor(b, p.tenant, p.taken.value, input.code, input.expiry);
    GrantForIs(b, p.tenant, p.taken.value, input.code, input.expiry);
    assert ProcessOk(s, pid, p);
    EndMoves(b, s, pid);
    if input.code !in s.db.grants {
      var origin := s.history.origin[input.code := (p.tenant, p.requestId)];
      var db := s.db.(grants := s.db.grants[input.code := g]);
      AddGrant(b, s, p, input.code, g, origin);
      MoreGrants(s.world, s.db.grants, db.grants, s.db.access);
      OthersNotTaken(s, pid, origin, input.code);
      AddedGrant(b, SetProcess(s, pid, Ended), db, origin);
    }
  }

  lemma GrantForIs(b: Builder, tenant: string, r: Request, code: string, expiry: Time)
    ensures GrantFor(b, tenant, r, code, expiry).codeHash == code
    ensures GrantFor(b, tenant, r, code, expiry).expiresAt == expiry
    ensures GrantFor(b, tenant, r, code, expiry).consumedAt == None
  {
  }

  lemma AddGrant(b: Builder, s: System, p: Process, code: string, g: SS.Grant, origin: map<string, (string, string)>)
    requires GrantInv(b, s.world, s.db.grants, s.history.origin) && TakenOk(s.world, s.history.origin, p)
    requires p.OfferCall? && p.taken.Some? && code !in s.db.grants
    requires g == GrantFor(b, p.tenant, p.taken.value, code, g.expiresAt) && g.consumedAt == None
    requires origin == s.history.origin[code := (p.tenant, p.requestId)]
    ensures GrantInv(b, s.world, s.db.grants[code := g], origin)
  {
    hide GrantFor;
    var grants := s.db.grants[code := g];
    forall c <- grants ensures GrantOk(b, s.world, c, grants[c], origin[c]) {
      if c != code { assert GrantOk(b, s.world, c, s.db.grants[c], s.history.origin[c]); }
    }
  }

  lemma MoreGrants(w: World, grants: map<string, SS.Grant>, grants': map<string, SS.Grant>, access: map<string, SS.Access>)
    requires AccessInv(w, grants, access) && forall c <- grants :: c in grants' && grants'[c] == grants[c]
    ensures AccessInv(w, grants', access)
  {
    hide OneTokenPerGrant, IndexesDiffer, SS.NewAccess;
    forall k <- access ensures AccessOk(w, grants', k, access[k]) {
      assert AccessOk(w, grants, k, access[k]);
    }
  }

  lemma OthersNotTaken(s: System, pid: nat, origin: map<string, (string, string)>, code: string)
    requires pid in s.procs && s.procs[pid].OfferCall? && s.procs[pid].taken.Some?
    requires NoClash(s.procs) && forall i <- s.procs :: ProcessOk(s, i, s.procs[i])
    requires origin == s.history.origin[code := (s.procs[pid].tenant, s.procs[pid].requestId)]
    ensures forall i <- s.procs :: i != pid ==> TakenOk(s.world, origin, s.procs[i])
  {
    hide RowOk, NonceOk, OrganizationOk, ShapeOk, IndexOk;
    var p := s.procs[pid];
    forall i <- s.procs | i != pid ensures TakenOk(s.world, origin, s.procs[i]) {
      assert ProcessOk(s, i, s.procs[i]);
      assert Took(p, p.tenant, p.requestId);
    }
  }

  lemma AddedGrant(b: Builder, s: System, db: SS.Tables, origin: map<string, (string, string)>)
    requires Inv(b, s) && db == s.db.(grants := db.grants)
    requires GrantInv(b, s.world, db.grants, origin) && AccessInv(s.world, db.grants, db.access)
    requires forall i <- s.procs :: TakenOk(s.world, origin, s.procs[i])
    ensures Inv(b, s.(db := db, history := s.history.(origin := origin)))
  {
    hide GrantInv, AccessInv, RecordInv, NonceInv, NoClash, RowOk, NonceOk, OrganizationOk, ShapeOk, IndexOk, TakenOk;
    var s' := s.(db := db, history := s.history.(origin := origin));
    forall i <- s'.procs ensures ProcessOk(s', i, s'.procs[i]) {
      assert ProcessOk(s, i, s.procs[i]);
    }
  }

  // -------------------------------------------------------------------------- token endpoint

  lemma ExchangeMoves(b: Builder, s: System, code: string, tenant: string, token: string, expiry: Time, now: Time)
    requires Inv(b, s)
    ensures Inv(b, s.(db := SS.ExchangeGrant(s.db, code, tenant, token, expiry, now).0))
  {
    hide RecordInv, NonceInv, NoClash, ProcessOk;
    if SS.Redeemable(s.db, code, tenant, now) && token !in s.db.access {
      var db := SS.ExchangeGrant(s.db, code, tenant, token, expiry, now).0;
      ConsumeGrantOk(b, s.world, s.db.grants, s.history.origin, code, now);
      NewTokenOk(s.world, s.db, code, token, expiry, now);
      TablesMove(b, s, db, None);
    }
  }

  lemma ConsumeGrantOk(b: Builder, w: World, grants: map<string, SS.Grant>, origin: map<string, (string, string)>, code: string, now: Time)
    requires GrantInv(b, w, grants, origin) && code in grants
    ensures GrantInv(b, w, grants[code := grants[code].(consumedAt := Some(now))], origin)
  {
    hide GrantFor;
    var grants' := grants[code := grants[code].(consumedAt := Some(now))];
    forall c <- grants' ensures GrantOk(b, w, c, grants'[c], origin[c]) {
      assert GrantOk(b, w, c, grants[c], origin[c]);
    }
  }

  lemma NewTokenOk(w: World, db: SS.Tables, code: string, token: string, expiry: Time, now: Time)
    requires AccessInv(w, db.grants, db.access) && token !in db.access
    requires code in db.grants && db.grants[code].consumedAt.None? && db.grants[code].codeHash == code
    ensures
      var grants := db.grants[code := db.grants[code].(consumedAt := Some(now))];
      var access := db.access[token := SS.NewAccess(db.grants[code], token, expiry)];
      && AccessInv(w, grants, access)
      && SS.AccessEvolves(db.access, access) && NoNewIndex(db.access, access, None)
  {
    hide IndexesDiffer, OneTokenPerGrant, NoNewIndex;
    var grants := db.grants[code := db.grants[code].(consumedAt := Some(now))];
    var access := db.access[token := SS.NewAccess(db.grants[code], token, expiry)];
    forall k <- access ensures AccessOk(w, grants, k, access[k]) {
      if k != token { assert AccessOk(w, db.grants, k, db.access[k]); }
    }
    forall k <- db.access ensures db.access[k].grantCodeHash != code {
      assert AccessOk(w, db.grants, k, db.access[k]);
    }
    NewTokenDiffers(db.access, token, access[token]);
  }

  lemma NewTokenDiffers(access: map<string, SS.Access>, token: string, a: SS.Access)
    requires IndexesDiffer(access) && OneTokenPerGrant(access) && token !in access && a.statusIndex.None?
    requires forall k <- access :: access[k].grantCodeHash != a.grantCodeHash
    ensures IndexesDiffer(access[token := a]) && OneTokenPerGrant(access[token := a])
    ensures NoNewIndex(access, access[token := a], None)
  {
  }

  lemma NonceMoves(b: Builder, s: System, n: SS.Nonce)
    requires Inv(b, s)
    ensures Inv(b, s.(db := SS.PutNonce(s.db, n).0))
  {
    hide GrantInv, AccessInv, RecordInv, NoClash, ProcessOk, SS.AccessEvolves, NoNewIndex;
    NoChange(s.db.access);
    TablesMove(b, s, SS.PutNonce(s.db, n).0, None);
  }

  // --------------------------------------------------------------------- credential endpoint

  lemma ReadAccessMoves(b: Builder, s: System, pid: nat, p: Process, input: Input)
    requires Inv(b, s) && p.IssueCall? && p.stage == ReadingAccess
    ensures Inv(b, ReadAccess(s, pid, p, input))
  {
    hide Inv, Accepts;
    EndMoves(b, s, pid);
    var r := SS.AccessByHash(s.db, p.token, input.now);
    if r.Ok? && Accepts(p, r.value) {
      var q := p.(access := Some(r.value), stage := SpendingNonce);
      AcceptsSame(p, q, r.value);
      ProcessMoves(b, s, pid, q);
    }
  }

  lemma AcceptsSame(p: Process, q: Process, a: SS.Access)
    requires p.IssueCall? && q.IssueCall? && p.tenant == q.tenant && p.holder == q.holder
    ensures Accepts(p, a) == Accepts(q, a)
  {
  }

  lemma AcceptsTenant(p: Process, a: SS.Access)
    requires p.IssueCall? && Accepts(p, a)
    ensures a.tenantId == p.tenant
  {
  }

  lemma SpendNonceMoves(b: Builder, s: System, pid: nat, input: Input)
    requires Inv(b, s) && pid in s.procs && s.procs[pid].IssueCall? && s.procs[pid].stage == SpendingNonce
    ensures Inv(b, SpendNonce(s, pid, s.procs[pid], input))
  {
    hide GrantInv, AccessInv, RecordInv, NoClash, Accepts;
    hide RowOk, OrganizationOk, ShapeOk, IndexOk, TakenOk, SS.AccessEvolves, NoNewIndex;
    var p := s.procs[pid];
    EndMoves(b, s, pid);
    var (db, r) := SS.ConsumeNonce(s.db, p.nonce, input.now);
    if r.Ok? {
      var spent := s.history.spentBy[p.nonce := pid];
      var s1 := s.(db := db, history := s.history.(spentBy := spent));
      forall i <- s1.procs ensures ProcessOk(s1, i, s1.procs[i]) {
        assert ProcessOk(s, i, s.procs[i]);
      }
      assert Inv(b, s1);
      AdvanceShape(s1, pid, p, p.(stage := ReadingOrganization));
      ProcessMoves(b, s1, pid, p.(stage := ReadingOrganization));
    }
  }

  /** Moving past the nonce only needs the nonce to be spent by this very call. */
  lemma AdvanceShape(s: System, pid: nat, p: Process, q: Process)
    requires ProcessOk(s, pid, p) && p.IssueCall? && p.stage == SpendingNonce && q == p.(stage := ReadingOrganization)
    requires p.nonce in s.history.spentBy && s.history.spentBy[p.nonce] == pid
    ensures ProcessOk(s, pid, q)
  {
    hide Accepts;
    if p.access.Some? { AcceptsSame(p, q, p.access.value); }
  }

  lemma ReadOrganizationMoves(b: Builder, s: System, pid: nat)
    requires Inv(b, s) && pid in s.procs && s.procs[pid].IssueCall? && s.procs[pid].stage == ReadingOrganization
    ensures Inv(b, ReadOrganization(s, pid, s.procs[pid]))
  {
    hide GrantInv, AccessInv, RecordInv, NoClash, NonceInv, Accepts;
    var p := s.procs[pid];
    EndMoves(b, s, pid);
    var t := At(s.world, p.tenant).tenant;
    assert ProcessOk(s, pid, p);
    if t.Some? {
      var q := p.(organization := t.value.organizationDid, stage := ReadingDelegation);
      AcceptsSame(p, q, p.access.value);
      ProcessMoves(b, s, pid, q);
    }
  }

  lemma ReadDelegationMoves(b: Builder, s: System, pid: nat, input: Input)
    requires Inv(b, s) && pid in s.procs && s.procs[pid].IssueCall? && s.procs[pid].stage == ReadingDelegation
    ensures Inv(b, ReadDelegation(s, pid, s.procs[pid], input))
  {
    hide GrantInv, AccessInv, RecordInv, NoClash, NonceInv, Accepts, ActiveDelegation;
    var p := s.procs[pid];
    EndMoves(b, s, pid);
    var r := ActiveDelegation(At(s.world, p.tenant), input.now, input.order).1;
    assert ProcessOk(s, pid, p);
    if r.DelegationIs? {
      var q := p.(delegation := Some(r.delegation), stage := ReadingKey);
      AcceptsSame(p, q, p.access.value);
      ProcessMoves(b, s, pid, q);
    }
  }

  lemma ReadKeyMoves(b: Builder, s: System, pid: nat)
    requires Inv(b, s) && pid in s.procs && s.procs[pid].IssueCall? && s.procs[pid].stage == ReadingKey
    requires s.procs[pid].access.Some? && s.procs[pid].delegation.Some?
    ensures Inv(b, ReadKey(s, pid, s.procs[pid]))
  {
    hide GrantInv, AccessInv, RecordInv, NoClash, NonceInv, Accepts;
    var p := s.procs[pid];
    EndMoves(b, s, pid);
    assert ProcessOk(s, pid, p);
    var d, keys := p.delegation.value, At(s.world, p.tenant).signingKeys;
    if d.signingKeyId in keys && MEMBERSHIP in d.credentialTypes {
      var kms := keys[d.signingKeyId].kmsKeyVersion;
      var q := p.(kmsKey := kms, stage := if p.access.value.statusIndex.None? then ReservingIndex else Writing);
      AcceptsSame(p, q, p.access.value);
      if p.access.value.statusIndex.None? || p.access.value.issuedAt.Some? { ProcessMoves(b, s, pid, q); }
    }
  }

  lemma {:induction false} FirstFreeIsFree(used: set<int>, draws: seq<int>)
    ensures FirstFree(used, draws).Some? ==> FirstFree(used, draws).value !in used
  {
    if draws != [] { FirstFreeIsFree(used, draws[1..]); }
  }

  lemma ReserveMoves(b: Builder, s: System, pid: nat, input: Input)
    requires Inv(b, s) && pid in s.procs && s.procs[pid].IssueCall? && s.procs[pid].stage == ReservingIndex
    ensures Inv(b, Reserve(s, pid, s.procs[pid], input))
  {
    hide Inv, Quiet, ReserveIndex;
    var p := s.procs[pid];
    EndMoves(b, s, pid);
    var ts := At(s.world, p.tenant);
    var (ts', r) := ReserveIndex(ts, input.draws);
    if r.IndexIs? {
      QuietStep(ts, p.tenant, OnCredentials(Reserving(input.draws)));
      assert ReserveIndex(ts, input.draws) == Step(ts, p.tenant, OnCredentials(Reserving(input.draws)));
      TenantMoves(b, s, p.tenant, ts');
      ReserveIndexFresh(ts, input.draws);
      HoldMoves(b, SetTenant(s, p.tenant, ts'), s, pid, r.index);
    }
  }

  lemma ReserveIndexFresh(ts: TenantState, draws: seq<int>)
    requires ReserveIndex(ts, draws).1.IndexIs?
    ensures var (ts', r) := ReserveIndex(ts, draws); r.index !in ts.indexes && ts'.indexes == ts.indexes + {r.index}
  {
    FirstFreeIsFree(ts.indexes, Attempted(draws));
  }

  /** An index that was not reserved until now is in nobody's hands and assigned to no token. */
  lemma HoldMoves(b: Builder, s: System, before: System, pid: nat, index: int)
    requires Inv(b, s) && Inv(b, before) && pid in s.procs && s.procs[pid].IssueCall? && s.procs[pid].stage == ReservingIndex
    requires s.procs == before.procs && s.history == before.history && s.db == before.db
    requires index !in At(before.world, s.procs[pid].tenant).indexes && index in At(s.world, s.procs[pid].tenant).indexes
    ensures Inv(b, SetProcess(s, pid, s.procs[pid].(index := index, stage := Preparing)))
  {
    hide GrantInv, RecordInv, NonceInv, Accepts, SS.NewAccess, OneTokenPerGrant, IndexesDiffer;
    var p := s.procs[pid];
    var q := p.(index := index, stage := Preparing);
    var s' := SetProcess(s, pid, q);
    assert ProcessOk(s, pid, p);
    AcceptsSame(p, q, p.access.value);
    forall k <- s.db.access ensures !(s.db.access[k].tenantId == p.tenant && s.db.access[k].statusIndex == Some(index)) {
      assert AccessOk(before.world, before.db.grants, k, before.db.access[k]);
    }
    assert !Assigned(s.db.access, p.tenant, index);
    assert ProcessOk(s', pid, q);
    forall i <- s'.procs ensures ProcessOk(s', i, s'.procs[i]) {
      if i != pid { assert ProcessOk(s, i, s.procs[i]); }
    }
    forall j | j in s.procs && j != pid ensures !Holds(s.procs[j], p.tenant, index) {
      assert ProcessOk(before, j, before.procs[j]);
    }
    HoldClash(s.procs, pid, q);
  }

  lemma HoldClash(procs: map<nat, Process>, pid: nat, q: Process)
    requires NoClash(procs) && q.IssueCall?
    requires forall j <- procs :: j != pid ==> !Holds(procs[j], q.tenant, q.index)
    ensures NoClash(procs[pid := q])
  {
  }

  lemma PrepareMoves(b: Builder, s: System, pid: nat, input: Input)
    requires Inv(b, s) && pid in s.procs && s.procs[pid].IssueCall? && s.procs[pid].stage == Preparing
    ensures Inv(b, Prepare(s, pid, s.procs[pid], input))
  {
    hide GrantInv, RecordInv, NonceInv, AccessInv, Accepts, NoNewIndex, SS.AccessEvolves, SS.PrepareUpdate;
    var p := s.procs[pid];
    EndMoves(b, s, pid);
    assert ProcessOk(s, pid, p);
    var (db, r) := SS.PrepareUpdate(s.db, p.token, p.index, input.issuedAt, input.now);
    if r.Ok? {
      var q := p.(stage := Rereading, clock := input.now);
      AcceptsSame(p, q, p.access.value);
      AcceptsTenant(p, p.access.value);
      ProcessMoves(b, s, pid, q);
      var s1 := SetProcess(s, pid, q);
      PreparedTables(s.world, s.db, p.token, p.tenant, p.index, input.issuedAt, input.now);
      forall i <- s1.procs ensures !HeldBy(s1.procs[i], Some((p.tenant, p.index))) {
        if i != pid { assert Holds(p, p.tenant, p.index); }
      }
      TablesMove(b, s1, db, Some((p.tenant, p.index)));
    }
  }

  /** Same rows up to issue time and consumption. */
  ghost predicate SameKeysAndIndexes(access: map<string, SS.Access>, access': map<string, SS.Access>) {
    access.Keys == access'.Keys
    && forall k <- access :: access[k].grantCodeHash == access'[k].grantCodeHash
                             && access[k].tenantId == access'[k].tenantId && access[k].statusIndex == access'[k].statusIndex
  }

  lemma SameIndexesDiffer(access: map<string, SS.Access>, access': map<string, SS.Access>)
    requires SameKeysAndIndexes(access, access') && IndexesDiffer(access) && OneTokenPerGrant(access)
    ensures IndexesDiffer(access') && OneTokenPerGrant(access') && NoNewIndex(access, access', None)
  {
  }

  /** One token of the tenant receives an index that no token of the tenant had. */
  lemma NewIndexDiffers(access: map<string, SS.Access>, token: string, a: SS.Access, index: int)
    requires IndexesDiffer(access) && OneTokenPerGrant(access) && token in access
    requires a.tenantId == access[token].tenantId && a.grantCodeHash == access[token].grantCodeHash
    requires a.statusIndex == SS.Coalesce(access[token].statusIndex, index) && !Assigned(access, a.tenantId, index)
    ensures IndexesDiffer(access[token := a]) && OneTokenPerGrant(access[token := a])
    ensures NoNewIndex(access, access[token := a], Some((a.tenantId, index)))
  {
  }

  /** Preparing a token with a reserved, unassigned index. */
  lemma PreparedTables(w: World, db: SS.Tables, token: string, tenant: string, index: int, issuedAt: Time, now: Time)
    requires AccessInv(w, db.grants, db.access) && SS.PrepareUpdate(db, token, index, issuedAt, now).1.Ok?
    requires token in db.access && db.access[token].tenantId == tenant
    requires index in At(w, tenant).indexes && !Assigned(db.access, tenant, index)
    ensures var db' := SS.PrepareUpdate(db, token, index, issuedAt, now).0;
      && db' == db.(access := db'.access) && AccessInv(w, db.grants, db'.access)
      && SS.AccessEvolves(db.access, db'.access) && NoNewIndex(db.access, db'.access, Some((tenant, index)))
  {
    hide SS.NewAccess, IndexesDiffer, OneTokenPerGrant, NoNewIndex, Assigned;
    var access' := SS.PrepareUpdate(db, token, index, issuedAt, now).0.access;
    NewIndexDiffers(db.access, token, access'[token], index);
    assert AccessOk(w, db.grants, token, db.access[token]);
    forall k <- access' ensures AccessOk(w, db.grants, k, access'[k]) {
      assert AccessOk(w, db.grants, k, db.access[k]);
    }
  }

  lemma RereadMoves(b: Builder, s: System, pid: nat)
    requires Inv(b, s) && pid in s.procs && s.procs[pid].IssueCall? && s.procs[pid].stage == Rereading
    ensures Inv(b, Reread(s, pid, s.procs[pid]))
  {
    hide GrantInv, AccessInv, RecordInv, NoClash, NonceInv, SS.Bound;
    var p := s.procs[pid];
    EndMoves(b, s, pid);
    assert ProcessOk(s, pid, p);
    var r := SS.AccessByHash(s.db, p.token, p.clock);
    if r.Ok? && r.value.statusIndex.Some? && r.value.issuedAt.Some? {
      var q := p.(access := Some(r.value), stage := Writing);
      AcceptsEvolves(p, p.access.value, r.value);
      AcceptsSame(p, q, r.value);
      ProcessMoves(b, s, pid, q);
    }
  }

  lemma AcceptsEvolves(p: Process, a: SS.Access, a': SS.Access)
    requires p.IssueCall? && Accepts(p, a) && SS.RowEvolves(a, a')
    ensures Accepts(p, a')
  {
  }

  lemma WriteMoves(b: Builder, s: System, pid: nat)
    requires Inv(b, s) && pid in s.procs && s.procs[pid].IssueCall? && s.procs[pid].stage == Writing
    ensures Prepared(s.procs[pid]) && Inv(b, Write(b, s, pid, s.procs[pid]))
  {
    hide GrantInv, AccessInv, RecordInv, NoClash, NonceInv, Accepts, RecordOf, CredentialId, PutRecord;
    var p := s.procs[pid];
    EndMoves(b, s, pid);
    assert ProcessOk(s, pid, p);
    var q := p.(stage := Marking);
    AcceptsSame(p, q, p.access.value);
    var record := RecordOf(b, p);
    var (ts, r) := PutRecord(At(s.world, p.tenant), p.tenant, record);
    if r == Done {
      ProcessMoves(b, s, pid, q);
      if record.credentialId !in At(s.world, p.tenant).credentials {
        AddRecord(b, SetProcess(s, pid, q), p);
      }
    }
  }

  lemma AddRecord(b: Builder, s: System, p: Process)
    requires Inv(b, s) && Prepared(p) && RowOk(s.db.access, p) && OrganizationOk(s.world, p) && p.stage == Writing
    requires PutRecord(At(s.world, p.tenant), p.tenant, RecordOf(b, p)).1 == Done
    requires RecordOf(b, p).credentialId !in At(s.world, p.tenant).credentials
    ensures
      var ts := PutRecord(At(s.world, p.tenant), p.tenant, RecordOf(b, p)).0;
      var writer := s.history.writer[(p.tenant, RecordOf(b, p).credentialId) := Written(p.token, ClaimsOf(b, p), p.kmsKey)];
      Inv(b, SetTenant(s, p.tenant, ts).(history := s.history.(writer := writer)))
  {
    hide GrantInv, AccessInv, NoClash, NonceInv, RecordInv, ProcessOk, RecordOf, PutRecord;
    var ts := PutRecord(At(s.world, p.tenant), p.tenant, RecordOf(b, p)).0;
    var id := RecordOf(b, p).credentialId;
    var writer := s.history.writer[(p.tenant, id) := Written(p.token, ClaimsOf(b, p), p.kmsKey)];
    var w' := s.world[p.tenant := ts];
    PutRecordAdds(b, s.world, p);
    AddRecordInv(b, s, p, ts, writer);
    OnlyCredentials(b, s, p.tenant, ts, writer);
  }

  lemma PutRecordAdds(b: Builder, w: World, p: Process)
    requires Prepared(p)
    requires PutRecord(At(w, p.tenant), p.tenant, RecordOf(b, p)).1 == Done
    requires RecordOf(b, p).credentialId !in At(w, p.tenant).credentials
    ensures
      var before := At(w, p.tenant);
      var record := RecordOf(b, p);
      && PutRecord(before, p.tenant, record).0
         == before.(credentials := before.credentials[record.credentialId := record.(tenantId := p.tenant)])
      && record.credentialId == CredentialId(b, ClaimsOf(b, p))
      && record.statusIndex == p.access.value.statusIndex.value && record.issuedAt == p.access.value.issuedAt.value
      && record.subjectHash == p.access.value.subjectHash
      && record.credentialHash == b.jwtHash(p.kmsKey, ClaimsOf(b, p))
  {
    hide CredentialId;
  }

  lemma AddRecordInv(b: Builder, s: System, p: Process, ts: TenantState, writer: map<(string, string), Written>)
    requires RecordInv(b, s.world, s.db.access, s.history.writer) && Prepared(p) && p.stage == Writing
    requires RowOk(s.db.access, p) && OrganizationOk(s.world, p)
    requires var before := At(s.world, p.tenant);
      var id := RecordOf(b, p).credentialId;
      && id !in before.credentials && id == CredentialId(b, ClaimsOf(b, p))
      && RecordOf(b, p).statusIndex == p.access.value.statusIndex.value
      && RecordOf(b, p).issuedAt == p.access.value.issuedAt.value
      && RecordOf(b, p).subjectHash == p.access.value.subjectHash
      && RecordOf(b, p).credentialHash == b.jwtHash(p.kmsKey, ClaimsOf(b, p))
      && ts == before.(credentials := before.credentials[id := RecordOf(b, p).(tenantId := p.tenant)])
      && writer == s.history.writer[(p.tenant, id) := Written(p.token, ClaimsOf(b, p), p.kmsKey)]
    ensures RecordInv(b, s.world[p.tenant := ts], s.db.access, writer)
  {
    hide CredentialId, RecordOf, IssuerUrl, SS.Bound;
    var w' := s.world[p.tenant := ts];
    var id := RecordOf(b, p).credentialId;
    forall t, c | c in At(w', t).credentials
      ensures (t, c) in writer && RecordOk(b, At(w', t), s.db.access, t, c, writer[(t, c)])
    {
      if (t, c) != (p.tenant, id) {
        assert c in At(s.world, t).credentials;
        assert RecordOk(b, At(s.world, t), s.db.access, t, c, s.history.writer[(t, c)]);
      }
    }
  }

  /** Adding credentials to one tenant concerns nothing but the records. */
  lemma OnlyCredentials(b: Builder, s: System, t: string, ts: TenantState, writer: map<(string, string), Written>)
    requires Inv(b, s) && ts == At(s.world, t).(credentials := ts.credentials)
    requires RecordInv(b, s.world[t := ts], s.db.access, writer)
    ensures Inv(b, SetTenant(s, t, ts).(history := s.history.(writer := writer)))
  {
    hide RecordInv, NoClash, NonceInv;
    var w' := s.world[t := ts];
    var s' := SetTenant(s, t, ts).(history := s.history.(writer := writer));
    GrantsSame(b, s.world, w', s.db.grants, s.history.origin);
    AccessSame(s.world, w', s.db.grants, s.db.access);
    forall i <- s'.procs ensures ProcessOk(s', i, s'.procs[i]) {
      assert ProcessOk(s, i, s.procs[i]);
      ProcessSame(s, s', i, s.procs[i]);
    }
  }

  /** The two worlds agree on requests, indexes and tenants. */
  ghost predicate Alike(w: World, w': World) {
    forall t :: At(w, t).requests == At(w', t).requests && At(w, t).indexes == At(w', t).indexes
                && At(w, t).tenant == At(w', t).tenant
  }

  lemma GrantsSame(b: Builder, w: World, w': World, grants: map<string, SS.Grant>, origin: map<string, (string, string)>)
    requires Alike(w, w') && GrantInv(b, w, grants, origin)
    ensures GrantInv(b, w', grants, origin)
  {
    hide GrantFor;
    forall c <- grants ensures GrantOk(b, w', c, grants[c], origin[c]) {
      assert GrantOk(b, w, c, grants[c], origin[c]);
    }
  }

  lemma AccessSame(w: World, w': World, grants: map<string, SS.Grant>, access: map<string, SS.Access>)
    requires Alike(w, w') && AccessInv(w, grants, access)
    ensures AccessInv(w', grants, access)
  {
    hide OneTokenPerGrant, IndexesDiffer;
    forall k <- access ensures AccessOk(w', grants, k, access[k]) {
      assert AccessOk(w, grants, k, access[k]);
    }
  }

  lemma ProcessSame(s: System, s': System, pid: nat, p: Process)
    requires Alike(s.world, s'.world) && ProcessOk(s, pid, p)
    requires s'.db == s.db && s'.history.origin == s.history.origin && s'.history.spentBy == s.history.spentBy
    ensures ProcessOk(s', pid, p)
  {
    hide RowOk, NonceOk, ShapeOk;
  }

  lemma MarkMoves(b: Builder, s: System, pid: nat, input: Input)
    requires Inv(b, s) && pid in s.procs && s.procs[pid].IssueCall? && s.procs[pid].stage == Marking
    ensures Inv(b, Mark(s, pid, s.procs[pid], input))
  {
    hide GrantInv, RecordInv, NonceInv, AccessInv, NoClash, Accepts, NoNewIndex, SS.AccessEvolves;
    var p := s.procs[pid];
    EndMoves(b, s, pid);
    assert ProcessOk(s, pid, p);
    var (db, r) := SS.ConsumeAccess(s.db, p.token, input.now);
    if r.Ok? {
      var q := p.(stage := Auditing);
      AcceptsSame(p, q, p.access.value);
      ProcessMoves(b, s, pid, q);
      MarkedTables(s.world, s.db, p.token, input.now);
      TablesMove(b, SetProcess(s, pid, q), db, None);
    }
  }

  lemma MarkedTables(w: World, db: SS.Tables, token: string, now: Time)
    requires AccessInv(w, db.grants, db.access) && SS.ConsumeAccess(db, token, now).1.Ok?
    ensures var db' := SS.ConsumeAccess(db, token, now).0;
      && db' == db.(access := db'.access) && AccessInv(w, db.grants, db'.access)
      && SS.AccessEvolves(db.access, db'.access) && NoNewIndex(db.access, db'.access, None)
  {
    hide SS.NewAccess, IndexesDiffer, OneTokenPerGrant, NoNewIndex;
    var access' := SS.ConsumeAccess(db, token, now).0.access;
    SameIndexesDiffer(db.access, access');
    forall k <- access' ensures AccessOk(w, db.grants, k, access'[k]) {
      assert AccessOk(w, db.grants, k, db.access[k]);
    }
  }

  lemma AuditMoves(b: Builder, s: System, pid: nat, p: Process, input: Input)
    requires Inv(b, s) && p.IssueCall?
    ensures Inv(b, Audit(s, pid, p, input))
  {
    hide Inv, Quiet, AppendAudit;
    var ts := At(s.world, p.tenant);
    QuietStep(ts, p.tenant, OnAudit(Appending(input.event)));
    assert AppendAudit(ts, p.tenant, input.event) == Step(ts, p.tenant, OnAudit(Appending(input.event)));
    TenantMoves(b, s, p.tenant, AppendAudit(ts, p.tenant, input.event).0);
    EndMoves(b, SetTenant(s, p.tenant, AppendAudit(ts, p.tenant, input.event).0), pid);
  }

  // -------------------------------------------------------------------------- every event

  lemma IssueMoves(b: Builder, s: System, pid: nat, input: Input)
    requires Inv(b, s) && pid in s.procs && s.procs[pid].IssueCall?
    ensures Inv(b, Move(b, s, pid, s.procs[pid], input))
  {
    hide Inv, ReadAccess, SpendNonce, ReadOrganization, ReadDelegation, ReadKey, Reserve, Prepare, Reread, Write, Mark, Audit;
    EndMoves(b, s, pid);
    var p := s.procs[pid];
    match p.stage
    case ReadingAccess => ReadAccessMoves(b, s, pid, p, input);
    case SpendingNonce => SpendNonceMoves(b, s, pid, input);
    case ReadingOrganization => ReadOrganizationMoves(b, s, pid);
    case ReadingDelegation => ReadDelegationMoves(b, s, pid, input);
    case ReadingKey => if p.access.Some? && p.delegation.Some? { ReadKeyMoves(b, s, pid); }
    case ReservingIndex => ReserveMoves(b, s, pid, input);
    case Preparing => PrepareMoves(b, s, pid, input);
    case Rereading => RereadMoves(b, s, pid);
    case Writing => WriteMoves(b, s, pid);
    case Marking => MarkMoves(b, s, pid, input);
    case Auditing => AuditMoves(b, s, pid, p, input);
  }

  lemma FreshOk(s: System, pid: nat, p: Process)
    requires Fresh(p)
    ensures ProcessOk(s, pid, p) && Light(p)
  {
  }

  /** Every event keeps the invariant. */
  lemma NextKeeps(b: Builder, s: System, e: Event)
    requires Inv(b, s)
    ensures Inv(b, Next(b, s, e))
  {
    hide Inv, TakeRequest, MakeGrant, ReadAccess, SpendNonce, ReadOrganization, ReadDelegation, ReadKey, Reserve;
    hide Prepare, Reread, Write, Mark, Audit, Step, SS.ExchangeGrant, SS.PutNonce, Quiet, ProcessOk, Light;
    match e
    case Start(pid, p) =>
      if pid !in s.procs && Fresh(p) {
        FreshOk(s, pid, p);
        ProcessMoves(b, s, pid, p);
      }
    case Advance(pid, input) =>
      if pid in s.procs {
        match s.procs[pid]
        case Ended =>
        case OfferCall(_, _, taken) =>
          if taken.None? { TakeMoves(b, s, pid, input); } else { GrantMoves(b, s, pid, input); }
        case IssueCall(_, _, _, _, _, _, _, _, _, _, _, _) => IssueMoves(b, s, pid, input);
      }
    case Exchange(code, tenant, token, expiry, now) => ExchangeMoves(b, s, code, tenant, token, expiry, now);
    case NewNonce(n) => NonceMoves(b, s, n);
    case Other(t, op) =>
      if !Reserved(op) {
        QuietStep(At(s.world, t), t, op);
        TenantMoves(b, s, t, Step(At(s.world, t), t, op).0);
      }
  }

  lemma {:induction false} RunKeeps(b: Builder, s: System, events: seq<Event>)
    requires Inv(b, s)
    ensures Inv(b, Run(b, s, events))
    decreases |events|
  {
    hide Inv, Next;
    if events != [] {
      NextKeeps(b, s, events[0]);
      RunKeeps(b, Next(b, s, events[0]), events[1..]);
    }
  }

  lemma InitialInv(b: Builder)
    ensures Inv(b, INITIAL)
  {
  }
}
