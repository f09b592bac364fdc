/** Offer, exchange and issuance under interleaving
    (ansible_issuer/go/internal/oid4vci/issuer.go:187-279 over postgres_store.go and hostedissuer).

    `CreateOfferForApprovedRequest` and `Issue` make several store calls each. A call in progress is a
    process with a program counter and the values it has read; each store call is one atomic step; between
    two steps anything else may happen; a process may stop for good after any step. The model keeps a
    history beside the stores: which request a grant was made for, which token a record was written for and
    with which claims, and which call spent a nonce. */
module Issuance {
  import opened Wrappers
  import opened HostedStore
  import opened MemoryStores
  import SS = StateStore

  const CONFIGURATION := "PoliticalPartyMembershipCredential-v1"
  const MEMBERSHIP := "PoliticalPartyMembershipCredential"
  const NINETY_DAYS: int := 90 * 24 * 3600 * 1_000_000_000

  // ----------------------------------------------------------------- building a credential

  /** The request handed to `vc.IssueMembershipJWT`. */
  datatype Claims = Claims(issuerDid: string, issuerUrl: string, holderDid: string, jwk: string,
                           membershipClass: string, forumHostId: string, boardId: string,
                           statusIndex: int, issuedAt: Time)

  /** Hashing and signing, as functions: `digest` makes the id, `jwtHash` hashes the signed token. */
  datatype Builder = Builder(
    baseUrl: string,
    hash: string -> string,
    digest: (string, string, int, Time) -> string,
    jwtHash: (string, Claims) -> string)

  function IssuerUrl(b: Builder, tenant: string): string {
    b.baseUrl + "/tenants/" + tenant
  }

  function CredentialId(b: Builder, c: Claims): string {
    c.issuerUrl + "/credentials/" + b.digest(c.issuerDid, c.holderDid, c.statusIndex, c.issuedAt)
  }

  // ------------------------------------------------------------------------------- system

  datatype Stage =
    | ReadingAccess | SpendingNonce | ReadingOrganization | ReadingDelegation | ReadingKey
    | ReservingIndex | Preparing | Rereading | Writing | Marking | Auditing

  datatype Process =
    | OfferCall(tenant: string, requestId: string, taken: Option<Request>)
    | IssueCall(tenant: string, token: string, nonce: string, holder: string, jwk: string, stage: Stage,
                access: Option<SS.Access>, organization: string, delegation: Option<Delegation>, kmsKey: string,
                index: int, clock: Time)
    | Ended

  predicate Fresh(p: Process) {
    match p
    case OfferCall(_, _, taken) => taken.None?
    case IssueCall(_, _, _, _, _, stage, access, _, delegation, _, _, _) =>
      stage == ReadingAccess && access.None? && delegation.None?
    case Ended => false
  }

  datatype Written = Written(token: string, claims: Claims, kmsKey: string)

  datatype History = History(origin: map<string, (string, string)>, writer: map<(string, string), Written>,
                             spentBy: map<string, nat>)

  datatype System = System(world: World, db: SS.Tables, procs: map<nat, Process>, history: History)

  const INITIAL := System(map[], SS.Tables(map[], map[], map[]), map[], History(map[], map[], map[]))

  /** What one step draws from outside: clock readings, random values, map iteration order, ids. */
  datatype Input = Input(now: Time, issuedAt: Time, draws: seq<int>, order: seq<string>, code: string,
                         expiry: Time, event: AuditEvent)

  datatype Event =
    | Start(pid: nat, process: Process)
    | Advance(pid: nat, input: Input)
    | Exchange(code: string, tenant: string, token: string, expiry: Time, now: Time)
    | NewNonce(nonce: SS.Nonce)
    | Other(tenant: string, op: Op)

  /** Store calls that only `Issue` and `CreateOfferForApprovedRequest` make. */
  predicate Reserved(op: Op) {
    (op.OnCredentials? && op.credentialOp.PuttingRecord?) || (op.OnRequests? && op.requestOp.Consuming?)
  }

  function SetTenant(s: System, id: string, ts: TenantState): System {
    s.(world := s.world[id := ts])
  }

  function SetProcess(s: System, pid: nat, p: Process): System {
    s.(procs := s.procs[pid := p])
  }

  /** `w'` differs from `w` in one tenant, and not in its records. */
  ghost predicate SameRecords(w: World, w': World, t: string) {
    At(w', t).credentials == At(w, t).credentials && forall u :: u != t ==> At(w', u) == At(w, u)
  }

  // -------------------------------------------------------------------------------- offers

  function GrantFor(b: Builder, tenant: string, r: Request, code: string, expiry: Time): SS.Grant {
    SS.Grant(code, tenant, CONFIGURATION, b.hash(r.applicantDid), r.applicantDid, r.membershipClass,
             r.forumHostId, r.boardId, expiry, None)
  }

  function TakeRequest(s: System, pid: nat, p: Process, input: Input): (r: System)
    requires p.OfferCall?
    ensures r.db == s.db && r.history == s.history && SameRecords(s.world, r.world, p.tenant)
  {
    var (ts, r) := ConsumeRequest(At(s.world, p.tenant), p.requestId, input.now);
    if r.RequestIs? then SetProcess(SetTenant(s, p.tenant, ts), pid, p.(taken := Some(r.request)))
    else SetProcess(s, pid, Ended)
  }

  function MakeGrant(b: Builder, s: System, pid: nat, p: Process, input: Input): (r: System)
    requires p.OfferCall? && p.taken.Some?
    ensures r.world == s.world && r.db.access == s.db.access && r.db.nonces == s.db.nonces
  {
    var r := p.taken.value;
    if p.tenant == "" || r.applicantDid == "" || (r.membershipClass != "member" && r.membershipClass != "moderator")
    then SetProcess(s, pid, Ended)
    else
      var (db, result) := SS.PutGrant(s.db, GrantFor(b, p.tenant, r, input.code, input.expiry));
      if result.Err? then SetProcess(s, pid, Ended)
      else SetProcess(s.(db := db, history := s.history.(origin := s.history.origin[input.code := (p.tenant, p.requestId)])),
                      pid, Ended)
  }

  // ------------------------------------------------------------------------------ issuance

  /** The access check and the holder and board binding. */
  predicate Accepts(p: Process, a: SS.Access)
    requires p.IssueCall?
  {
    a.tenantId == p.tenant && a.configurationId == CONFIGURATION && SS.Bound(a, p.holder)
  }

  function ReadAccess(s: System, pid: nat, p: Process, input: Input): (r: System)
    requires p.IssueCall?
    ensures r == s.(procs := r.procs)
  {
    var r := SS.AccessByHash(s.db, p.token, input.now);
    if r.Ok? && Accepts(p, r.value) then SetProcess(s, pid, p.(access := Some(r.value), stage := SpendingNonce))
    else SetProcess(s, pid, Ended)
  }

  function SpendNonce(s: System, pid: nat, p: Process, input: Input): (r: System)
    requires p.IssueCall?
    ensures r.world == s.world && r.db.access == s.db.access && r.db.grants == s.db.grants
  {
    var (db, r) := SS.ConsumeNonce(s.db, p.nonce, input.now);
    if r.Err? then SetProcess(s, pid, Ended)
    else SetProcess(s.(db := db, history := s.history.(spentBy := s.history.spentBy[p.nonce := pid])),
                    pid, p.(stage := ReadingOrganization))
  }

  function ReadOrganization(s: System, pid: nat, p: Process): (r: System)
    requires p.IssueCall?
    ensures r == s.(procs := r.procs)
  {
    var t := At(s.world, p.tenant).tenant;
    if t.None? then SetProcess(s, pid, Ended)
    else SetProcess(s, pid, p.(organization := t.value.organizationDid, stage := ReadingDelegation))
  }

  function ReadDelegation(s: System, pid: nat, p: Process, input: Input): (r: System)
    requires p.IssueCall?
    ensures r == s.(procs := r.procs)
  {
    var r := ActiveDelegation(At(s.world, p.tenant), input.now, input.order).1;
    if r.DelegationIs? then SetProcess(s, pid, p.(delegation := Some(r.delegation), stage := ReadingKey))
    else SetProcess(s, pid, Ended)
  }

  function ReadKey(s: System, pid: nat, p: Process): (r: System)
    requires p.IssueCall? && p.access.Some? && p.delegation.Some?
    ensures r == s.(procs := r.procs)
  {
    var d, keys := p.delegation.value, At(s.world, p.tenant).signingKeys;
    if d.signingKeyId !in keys || MEMBERSHIP !in d.credentialTypes then SetProcess(s, pid, Ended)
    else
      var q := p.(kmsKey := keys[d.signingKeyId].kmsKeyVersion);
      if p.access.value.statusIndex.None? then SetProcess(s, pid, q.(stage := ReservingIndex))
      else if p.access.value.issuedAt.None? then SetProcess(s, pid, Ended)
      else SetProcess(s, pid, q.(stage := Writing))
  }

  function Reserve(s: System, pid: nat, p: Process, input: Input): (r: System)
    requires p.IssueCall?
    ensures r.db == s.db && r.history == s.history && SameRecords(s.world, r.world, p.tenant)
  {
    var (ts, r) := ReserveIndex(At(s.world, p.tenant), input.draws);
    if r.IndexIs? then SetProcess(SetTenant(s, p.tenant, ts), pid, p.(index := r.index, stage := Preparing))
    else SetProcess(s, pid, Ended)
  }

  function Prepare(s: System, pid: nat, p: Process, input: Input): (r: System)
    requires p.IssueCall?
    ensures r.world == s.world && r.history == s.history && r.db == s.db.(access := r.db.access)
  {
    var (db, r) := SS.PrepareUpdate(s.db, p.token, p.index, input.issuedAt, input.now);
    if r.Ok? then SetProcess(s.(db := db), pid, p.(stage := Rereading, clock := input.now))
    else SetProcess(s, pid, Ended)
  }

  function Reread(s: System, pid: nat, p: Process): (r: System)
    requires p.IssueCall?
    ensures r == s.(procs := r.procs)
  {
    var r := SS.AccessByHash(s.db, p.token, p.clock);
    if r.Ok? && r.value.statusIndex.Some? && r.value.issuedAt.Some?
    then SetProcess(s, pid, p.(access := Some(r.value), stage := Writing))
    else SetProcess(s, pid, Ended)
  }

  predicate Prepared(p: Process) {
    p.IssueCall? && p.access.Some? && p.access.value.statusIndex.Some? && p.access.value.issuedAt.Some?
    && p.delegation.Some?
  }

  function ClaimsOf(b: Builder, p: Process): Claims
    requires Prepared(p)
  {
    var a := p.access.value;
    Claims(p.organization, IssuerUrl(b, p.tenant), a.subjectDid, p.jwk, a.membershipClass, a.forumHostId, a.boardId,
           a.statusIndex.value, a.issuedAt.value)
  }

  function RecordOf(b: Builder, p: Process): Record
    requires Prepared(p)
  {
    var a, c := p.access.value, ClaimsOf(b, p);
    Record(CredentialId(b, c), "", b.jwtHash(p.kmsKey, c), MEMBERSHIP, a.subjectHash, c.issuedAt,
           c.issuedAt + NINETY_DAYS, c.statusIndex, "active", b.hash(p.delegation.value.canonicalJson))
  }

  function Write(b: Builder, s: System, pid: nat, p: Process): (r: System)
    requires Prepared(p)
    ensures r.db == s.db
  {
    var record := RecordOf(b, p);
    var (ts, r) := PutRecord(At(s.world, p.tenant), p.tenant, record);
    if r != Done then SetProcess(s, pid, Ended)
    else if record.credentialId in At(s.world, p.tenant).credentials then SetProcess(s, pid, p.(stage := Marking))
    else
      var written := s.history.writer[(p.tenant, record.credentialId) := Written(p.token, ClaimsOf(b, p), p.kmsKey)];
      SetProcess(SetTenant(s, p.tenant, ts).(history := s.history.(writer := written)), pid, p.(stage := Marking))
  }

  function Mark(s: System, pid: nat, p: Process, input: Input): (r: System)
    requires p.IssueCall?
    ensures r.world == s.world && r.history == s.history && r.db == s.db.(access := r.db.access)
  {
    var (db, r) := SS.ConsumeAccess(s.db, p.token, input.now);
    if r.Ok? then SetProcess(s.(db := db), pid, p.(stage := Auditing)) else SetProcess(s, pid, Ended)
  }

  function Audit(s: System, pid: nat, p: Process, input: Input): (r: System)
    requires p.IssueCall?
    ensures r.db == s.db && r.history == s.history && SameRecords(s.world, r.world, p.tenant)
  {
    SetProcess(SetTenant(s, p.tenant, AppendAudit(At(s.world, p.tenant), p.tenant, input.event).0), pid, Ended)
  }

  /** One step of a process. A program counter that its locals do not fit is unreachable; such a process
      just ends. */
  function Move(b: Builder, s: System, pid: nat, p: Process, input: Input): System {
    match p
    case Ended => s
    case OfferCall(_, _, taken) =>
      if taken.None? then TakeRequest(s, pid, p, input) else MakeGrant(b, s, pid, p, input)
    case IssueCall(_, _, _, _, _, stage, access, _, delegation, _, _, _) =>
      match stage
      case ReadingAccess => ReadAccess(s, pid, p, input)
      case SpendingNonce => SpendNonce(s, pid, p, input)
      case ReadingOrganization => ReadOrganization(s, pid, p)
      case ReadingDelegation => ReadDelegation(s, pid, p, input)
      case ReadingKey => if access.Some? && delegation.Some? then ReadKey(s, pid, p) else SetProcess(s, pid, Ended)
      case ReservingIndex => Reserve(s, pid, p, input)
      case Preparing => Prepare(s, pid, p, input)
      case Rereading => Reread(s, pid, p)
      case Writing => if Prepared(p) then Write(b, s, pid, p) else SetProcess(s, pid, Ended)
      case Marking => Mark(s, pid, p, input)
      case Auditing => Audit(s, pid, p, input)
  }

  function Next(b: Builder, s: System, e: Event): System {
    match e
    case Start(pid, p) => if pid in s.procs || !Fresh(p) then s else SetProcess(s, pid, p)
    case Advance(pid, input) => if pid in s.procs then Move(b, s, pid, s.procs[pid], input) else s
    case Exchange(code, tenant, token, expiry, now) => s.(db := SS.ExchangeGrant(s.db, code, tenant, token, expiry, now).0)
    case NewNonce(n) => s.(db := SS.PutNonce(s.db, n).0)
    case Other(t, op) => if Reserved(op) then s else SetTenant(s, t, Step(At(s.world, t), t, op).0)
  }

  function Run(b: Builder, s: System, events: seq<Event>): System
    decreases |events|
  {
    if events == [] then s else Run(b, Next(b, s, events[0]), events[1..])
  }

  lemma {:induction false} RunSnoc(b: Builder, s: System, events: seq<Event>, e: Event)
    ensures Run(b, s, events + [e]) == Next(b, Run(b, s, events), e)
    decreases |events|
  {
    hide Next;
    if events == [] {
      assert (events + [e])[1..] == [];
      assert Run(b, Next(b, s, e), []) == Next(b, s, e);
    } else {
      assert (events + [e])[1..] == events[1..] + [e];
      RunSnoc(b, Next(b, s, events[0]), events[1..], e);
    }
  }
}
