/** The promises of the issuance flow, for every run from the empty system. */
module IssuanceTheorems {
  import opened Wrappers
  import opened HostedStore
  import opened MemoryStores
  import opened Issuance
  import opened IssuanceSafety
  import SS = StateStore

  // ------------------------------------------------------------------- write-once table rows

  lemma RowsRefl(db: SS.Tables)
    ensures SS.RowsKept(db, db)
  {
  }

  lemma GrantRows(b: Builder, s: System, pid: nat, p: Process, input: Input)
    requires p.OfferCall? && p.taken.Some?
    ensures SS.RowsKept(s.db, MakeGrant(b, s, pid, p, input).db)
  {
    hide GrantFor;
  }

  lemma SpendRows(db: SS.Tables, nonce: string, now: Time)
    ensures SS.RowsKept(db, SS.ConsumeNonce(db, nonce, now).0)
  {
  }

  lemma PrepareRows(db: SS.Tables, token: string, index: int, issuedAt: Time, now: Time)
    ensures SS.RowsKept(db, SS.PrepareUpdate(db, token, index, issuedAt, now).0)
  {
  }

  lemma MarkRows(db: SS.Tables, token: string, now: Time)
    ensures SS.RowsKept(db, SS.ConsumeAccess(db, token, now).0)
  {
  }

  lemma TokenRows(s: System, pid: nat, p: Process, input: Input)
    requires p.IssueCall?
    ensures SS.RowsKept(s.db, SpendNonce(s, pid, p, input).db)
    ensures SS.RowsKept(s.db, Prepare(s, pid, p, input).db)
    ensures SS.RowsKept(s.db, Mark(s, pid, p, input).db)
  {
    hide SS.RowsKept, SS.ConsumeNonce, SS.PrepareUpdate, SS.ConsumeAccess;
    RowsRefl(s.db);
    SpendRows(s.db, p.nonce, input.now);
    PrepareRows(s.db, p.token, p.index, input.issuedAt, input.now);
    MarkRows(s.db, p.token, input.now);
  }

  lemma ExchangeRows(db: SS.Tables, code: string, tenant: string, token: string, expiry: Time, now: Time)
    ensures SS.RowsKept(db, SS.ExchangeGrant(db, code, tenant, token, expiry, now).0)
  {
  }

  lemma NonceRows(db: SS.Tables, n: SS.Nonce)
    ensures SS.RowsKept(db, SS.PutNonce(db, n).0)
  {
  }

  lemma NextRows(b: Builder, s: System, e: Event)
    ensures SS.RowsKept(s.db, Next(b, s, e).db)
  {
    hide TakeRequest, MakeGrant, ReadAccess, SpendNonce, ReadOrganization, ReadDelegation, ReadKey, Reserve, Reread, Write, Audit, Prepare, Mark;
    hide Step, SS.RowsKept, SS.ExchangeGrant, SS.PutNonce;
    RowsRefl(s.db);
    match e
    case Advance(pid, input) =>
      if pid in s.procs {
        var p := s.procs[pid];
        if p.IssueCall? { TokenRows(s, pid, p, input); }
        if p.OfferCall? && p.taken.Some? { GrantRows(b, s, pid, p, input); }
      }
    case Exchange(code, tenant, token, expiry, now) => ExchangeRows(s.db, code, tenant, token, expiry, now);
    case NewNonce(n) => NonceRows(s.db, n);
    case _ =>
  }

  lemma EvolvesTrans(a: map<string, SS.Access>, b: map<string, SS.Access>, c: map<string, SS.Access>)
    requires SS.AccessEvolves(a, b) && SS.AccessEvolves(b, c)
    ensures SS.AccessEvolves(a, c)
  {
    hide SS.RowEvolves;
    forall t <- a ensures t in c && SS.RowEvolves(a[t], c[t]) {
      RowEvolvesTrans(a[t], b[t], c[t]);
    }
  }

  lemma RowsTrans(a: SS.Tables, b: SS.Tables, c: SS.Tables)
    requires SS.RowsKept(a, b) && SS.RowsKept(b, c)
    ensures SS.RowsKept(a, c)
  {
    hide SS.AccessEvolves;
    EvolvesTrans(a.access, b.access, c.access);
  }

  /** In every interleaving of any calls, stopped anywhere: a token's status index and issue time never
      change once set, nor does anything else it was made with; and a consumed grant or nonce stays so. */
  lemma {:induction false} TokensInEveryRun(b: Builder, s: System, events: seq<Event>)
    ensures SS.RowsKept(s.db, Run(b, s, events).db)
    decreases |events|
  {
    hide Next, SS.RowsKept;
    if events == [] {
      RowsRefl(s.db);
    } else {
      NextRows(b, s, events[0]);
      TokensInEveryRun(b, Next(b, s, events[0]), events[1..]);
      RowsTrans(s.db, Next(b, s, events[0]).db, Run(b, s, events).db);
    }
  }

  // --------------------------------------------------------------------- tokens and records

  ghost function Reached(b: Builder, events: seq<Event>): System {
    Run(b, INITIAL, events)
  }

  lemma ReachedInv(b: Builder, events: seq<Event>)
    ensures Inv(b, Reached(b, events))
  {
    hide Inv;
    InitialInv(b);
    RunKeeps(b, INITIAL, events);
  }

  /** No two tokens of a tenant share a status index. */
  lemma IndexesUnique(b: Builder, events: seq<Event>, j: string, k: string)
    requires var access := Reached(b, events).db.access;
      && j in access && k in access && access[j].tenantId == access[k].tenantId
      && access[j].statusIndex.Some? && access[j].statusIndex == access[k].statusIndex
    ensures j == k
  {
    hide GrantInv, RecordInv, NonceInv, NoClash, ProcessOk, Run;
    ReachedInv(b, events);
  }

  /** The token that a record was written for. */
  ghost function TokenOf(s: System, t: string, c: string): string
    requires (t, c) in s.history.writer
  {
    s.history.writer[(t, c)].token
  }

  /** Every record carries the index and the issue time of the token it was written for, and its claims
      are that token's. */
  lemma RecordCarriesToken(b: Builder, events: seq<Event>, t: string, c: string)
    requires c in At(Reached(b, events).world, t).credentials
    ensures var s := Reached(b, events);
      && (t, c) in s.history.writer && TokenOf(s, t, c) in s.db.access
      && (var a, r, claims := s.db.access[TokenOf(s, t, c)], At(s.world, t).credentials[c], s.history.writer[(t, c)].claims;
          && a.tenantId == t && a.statusIndex == Some(r.statusIndex) && a.issuedAt == Some(r.issuedAt)
          && claims.holderDid == a.subjectDid && claims.membershipClass == a.membershipClass
          && claims.forumHostId == a.forumHostId && claims.boardId == a.boardId
          && claims.statusIndex == r.statusIndex && claims.issuedAt == r.issuedAt
          && c == CredentialId(b, claims))
  {
    hide GrantInv, AccessInv, NonceInv, NoClash, ProcessOk, Run, CredentialId;
    ReachedInv(b, events);
    var s := Reached(b, events);
    assert RecordOk(b, At(s.world, t), s.db.access, t, c, s.history.writer[(t, c)]);
  }

  /** The grant of a token and the request of a grant. */
  ghost predicate MadeFor(s: System, token: string, code: string, tenant: string, requestId: string) {
    && token in s.db.access && s.db.access[token].grantCodeHash == code
    && code in s.history.origin && s.history.origin[code] == (tenant, requestId)
  }

  lemma TokenHasGrant(b: Builder, events: seq<Event>, token: string)
    requires token in Reached(b, events).db.access
    ensures var s := Reached(b, events);
      var a := s.db.access[token];
      && a.grantCodeHash in s.db.grants && a.grantCodeHash in s.history.origin
      && s.db.grants[a.grantCodeHash].consumedAt.Some?
      && (var (t, rid) := s.history.origin[a.grantCodeHash];
          && t == a.tenantId && rid in At(s.world, t).requests
          && (var r := At(s.world, t).requests[rid];
              && r.state == Offered && a.subjectDid == r.applicantDid && a.membershipClass == r.membershipClass
              && a.forumHostId == r.forumHostId && a.boardId == r.boardId && a.subjectHash == b.hash(r.applicantDid)
              && a.configurationId == "PoliticalPartyMembershipCredential-v1"))
  {
    hide RecordInv, NonceInv, NoClash, ProcessOk, Run;
    ReachedInv(b, events);
    var s := Reached(b, events);
    var a := s.db.access[token];
    assert AccessOk(s.world, s.db.grants, token, a);
    assert GrantOk(b, s.world, a.grantCodeHash, s.db.grants[a.grantCodeHash], s.history.origin[a.grantCodeHash]);
  }

  /** A record was written for an approved and offered request, and its holder, class, forum host and
      board are that request's. */
  lemma RecordMatchesRequest(b: Builder, events: seq<Event>, t: string, c: string)
    requires c in At(Reached(b, events).world, t).credentials
    ensures var s := Reached(b, events);
      && (t, c) in s.history.writer && TokenOf(s, t, c) in s.db.access
      && (exists rid <- At(s.world, t).requests ::
            && MadeFor(s, TokenOf(s, t, c), s.db.access[TokenOf(s, t, c)].grantCodeHash, t, rid)
            && (var r, claims := At(s.world, t).requests[rid], s.history.writer[(t, c)].claims;
                && r.state == Offered && claims.holderDid == r.applicantDid
                && claims.membershipClass == r.membershipClass && claims.forumHostId == r.forumHostId
                && claims.boardId == r.boardId))
  {
    hide Reached, CredentialId;
    RecordCarriesToken(b, events, t, c);
    TokenHasGrant(b, events, TokenOf(Reached(b, events), t, c));
  }

  /** Each request yields at most one grant, exchanged or not. */
  lemma OneGrantPerRequest(b: Builder, events: seq<Event>, c: string, c': string)
    requires var s := Reached(b, events);
      && c in s.db.grants && c' in s.db.grants && c in s.history.origin && c' in s.history.origin
      && s.history.origin[c] == s.history.origin[c']
    ensures c == c'
  {
    hide RecordInv, NonceInv, NoClash, ProcessOk, Run, GrantOk, AccessInv;
    ReachedInv(b, events);
  }

  /** Every grant was made for a request, which is offered and whose data it carries. */
  lemma GrantHasRequest(b: Builder, events: seq<Event>, c: string)
    requires c in Reached(b, events).db.grants
    ensures var s := Reached(b, events);
      && c in s.history.origin
      && (var (t, rid) := s.history.origin[c];
          && rid in At(s.world, t).requests && At(s.world, t).requests[rid].state == Offered
          && (var g, r := s.db.grants[c], At(s.world, t).requests[rid];
              g == SS.Grant(c, t, "PoliticalPartyMembershipCredential-v1", b.hash(r.applicantDid), r.applicantDid, r.membershipClass,
                            r.forumHostId, r.boardId, g.expiresAt, g.consumedAt)))
  {
    hide RecordInv, NonceInv, NoClash, ProcessOk, Run, AccessInv;
    ReachedInv(b, events);
    var s := Reached(b, events);
    assert GrantOk(b, s.world, c, s.db.grants[c], s.history.origin[c]);
  }

  /** Each request yields at most one access token. */
  lemma OneTokenPerRequest(b: Builder, events: seq<Event>, j: string, k: string, code: string, code': string,
                           t: string, rid: string)
    requires MadeFor(Reached(b, events), j, code, t, rid) && MadeFor(Reached(b, events), k, code', t, rid)
    ensures code == code' && j == k
  {
    hide RecordInv, NonceInv, NoClash, ProcessOk, Run, GrantOk, AccessOk;
    ReachedInv(b, events);
  }

  /** Two records written for one token are the same. */
  lemma RecordsOfToken(b: Builder, s: System, t: string, c: string, t': string, c': string)
    requires Inv(b, s) && c in At(s.world, t).credentials && c' in At(s.world, t').credentials
    requires (t, c) in s.history.writer && (t', c') in s.history.writer && TokenOf(s, t, c) == TokenOf(s, t', c')
    ensures (t, c) == (t', c')
  {
    hide GrantInv, AccessInv, NonceInv, NoClash, ProcessOk;
    assert RecordOk(b, At(s.world, t), s.db.access, t, c, s.history.writer[(t, c)]);
    assert RecordOk(b, At(s.world, t'), s.db.access, t', c', s.history.writer[(t', c')]);
  }

  lemma OneRecordPerToken(b: Builder, events: seq<Event>, t: string, c: string, t': string, c': string)
    requires c in At(Reached(b, events).world, t).credentials && c' in At(Reached(b, events).world, t').credentials
    requires var s := Reached(b, events);
      (t, c) in s.history.writer && (t', c') in s.history.writer && TokenOf(s, t, c) == TokenOf(s, t', c')
    ensures (t, c) == (t', c')
  {
    hide Inv, Run;
    ReachedInv(b, events);
    RecordsOfToken(b, Reached(b, events), t, c, t', c');
  }

  /** Each request yields at most one credential record, whatever delegations come and go meanwhile. */
  lemma OneRecordPerRequest(b: Builder, events: seq<Event>, t: string, c: string, c': string, rid: string,
                            code: string, code': string)
    requires c in At(Reached(b, events).world, t).credentials && c' in At(Reached(b, events).world, t).credentials
    requires var s := Reached(b, events);
      && (t, c) in s.history.writer && (t, c') in s.history.writer
      && MadeFor(s, TokenOf(s, t, c), code, t, rid) && MadeFor(s, TokenOf(s, t, c'), code', t, rid)
    ensures c == c'
  {
    hide Reached, MadeFor;
    var s := Reached(b, events);
    OneTokenPerRequest(b, events, TokenOf(s, t, c), TokenOf(s, t, c'), code, code', t, rid);
    OneRecordPerToken(b, events, t, c, t, c');
  }

  /** The system before event `i` of a run. */
  ghost function Before(b: Builder, events: seq<Event>, i: nat): System
    requires i <= |events|
  {
    Reached(b, events[..i])
  }

  /** Event `i` of the run takes an `Issue` call past its check of the nonce. */
  ghost predicate PassesNonce(b: Builder, events: seq<Event>, i: nat, nonce: string)
    requires i < |events|
  {
    && events[i].Advance? && events[i].pid in Before(b, events, i).procs && events[i].pid in Before(b, events, i + 1).procs
    && (var p, p' := Before(b, events, i).procs[events[i].pid], Before(b, events, i + 1).procs[events[i].pid];
        p.IssueCall? && p.stage == SpendingNonce && p.nonce == nonce && p'.IssueCall? && p'.stage == ReadingOrganization)
  }

  lemma BeforeStep(b: Builder, events: seq<Event>, i: nat)
    requires i < |events|
    ensures Before(b, events, i + 1) == Next(b, Before(b, events, i), events[i])
  {
    hide Run, Next;
    assert events[..i + 1] == events[..i] + [events[i]];
    RunSnoc(b, INITIAL, events[..i], events[i]);
  }

  lemma PassedMeansSpent(b: Builder, events: seq<Event>, i: nat, nonce: string)
    requires i < |events| && PassesNonce(b, events, i, nonce)
    ensures nonce in Before(b, events, i).db.nonces ==> Before(b, events, i).db.nonces[nonce].consumedAt.None?
    ensures nonce in Before(b, events, i + 1).db.nonces && Before(b, events, i + 1).db.nonces[nonce].consumedAt.Some?
  {
    hide Run, Reached;
    BeforeStep(b, events, i);
  }

  lemma {:induction false} SpentStays(b: Builder, events: seq<Event>, i: nat, j: nat, nonce: string)
    requires i <= j <= |events|
    requires nonce in Before(b, events, i).db.nonces && Before(b, events, i).db.nonces[nonce].consumedAt.Some?
    ensures nonce in Before(b, events, j).db.nonces && Before(b, events, j).db.nonces[nonce].consumedAt.Some?
    decreases j
  {
    hide Reached, Next, SS.GrantsEvolve, SS.AccessEvolves;
    if i < j {
      SpentStays(b, events, i, j - 1, nonce);
      BeforeStep(b, events, j - 1);
      NextRows(b, Before(b, events, j - 1), events[j - 1]);
    }
  }

  /** Over a whole run, finished and failed calls included, at most one event takes an `Issue` call past the
      check of a given nonce. */
  lemma NonceSpentOnce(b: Builder, events: seq<Event>, i: nat, j: nat, nonce: string)
    requires i < |events| && j < |events|
    requires PassesNonce(b, events, i, nonce) && PassesNonce(b, events, j, nonce)
    ensures i == j
  {
    hide Before, PassesNonce;
    PassedMeansSpent(b, events, i, nonce);
    PassedMeansSpent(b, events, j, nonce);
    if i < j { SpentStays(b, events, i + 1, j, nonce); }
    if j < i { SpentStays(b, events, j + 1, i, nonce); }
  }

  // ---------------------------------------------------------------------- status of a record

  predicate SetsStatus(e: Event, t: string, c: string) {
    e.Other? && e.tenant == t && e.op.OnCredentials? && e.op.credentialOp.SettingStatus? && e.op.credentialOp.credentialId == c
  }

  lemma OtherKeepsRecord(ts: TenantState, id: string, op: Op, c: string)
    requires c in ts.credentials
    requires !(op.OnCredentials? && op.credentialOp.SettingStatus? && op.credentialOp.credentialId == c)
    ensures var ts' := Step(ts, id, op).0; c in ts'.credentials && ts'.credentials[c] == ts.credentials[c]
  {
    hide StepTenant, StepDelegations, StepTemplates, StepRequests, StepAudit, FirstFree, Attempted, InScope;
  }

  lemma NextKeepsRecord(b: Builder, s: System, e: Event, t: string, c: string)
    requires c in At(s.world, t).credentials && !SetsStatus(e, t, c)
    ensures c in At(Next(b, s, e).world, t).credentials
         && At(Next(b, s, e).world, t).credentials[c] == At(s.world, t).credentials[c]
  {
    hide TakeRequest, MakeGrant, ReadAccess, SpendNonce, ReadOrganization, ReadDelegation, ReadKey, Reserve, Reread, Write, Audit, Prepare, Mark;
    hide Step, SS.ExchangeGrant, SS.PutNonce, Prepared;
    if e.Other? && e.tenant == t { OtherKeepsRecord(At(s.world, t), t, e.op, c); }
    if e.Advance? && e.pid in s.procs && Prepared(s.procs[e.pid]) { WriteKeepsRecord(b, s, e.pid, s.procs[e.pid], t, c); }
  }

  lemma WriteKeepsRecord(b: Builder, s: System, pid: nat, p: Process, t: string, c: string)
    requires Prepared(p) && c in At(s.world, t).credentials
    ensures c in At(Write(b, s, pid, p).world, t).credentials
         && At(Write(b, s, pid, p).world, t).credentials[c] == At(s.world, t).credentials[c]
  {
    hide RecordOf;
  }

  /** Issuing again, or anything else but setting its status, never changes a record: a revoked or
      suspended credential stays so. */
  lemma {:induction false} RecordOnlyChangedByStatus(b: Builder, s: System, events: seq<Event>, t: string, c: string)
    requires c in At(s.world, t).credentials && forall e <- events :: !SetsStatus(e, t, c)
    ensures c in At(Run(b, s, events).world, t).credentials
         && At(Run(b, s, events).world, t).credentials[c] == At(s.world, t).credentials[c]
    decreases |events|
  {
    hide Next, SetsStatus;
    if events != [] {
      NextKeepsRecord(b, s, events[0], t, c);
      RecordOnlyChangedByStatus(b, Next(b, s, events[0]), events[1..], t, c);
    }
  }

  // ----------------------------------------------------------------------------- trying again

  /** A further call for a token whose record is written computes the same credential id and writes
      nothing; it gets past the write exactly when it also signs to the same token hash, for which the same
      key and holder key are enough. */
  lemma RetryFindsRecord(b: Builder, s: System, pid: nat, c: string)
    requires Inv(b, s) && pid in s.procs && s.procs[pid].IssueCall? && s.procs[pid].stage == Writing
    requires var t := s.procs[pid].tenant;
      c in At(s.world, t).credentials && (t, c) in s.history.writer && TokenOf(s, t, c) == s.procs[pid].token
    ensures Prepared(s.procs[pid])
    ensures
      var p := s.procs[pid];
      var w := s.history.writer[(p.tenant, c)];
      var claims := ClaimsOf(b, p);
      var s' := Write(b, s, pid, p);
      && CredentialId(b, claims) == c && claims.(jwk := w.claims.jwk) == w.claims
      && s'.world == s.world && s'.db == s.db && s'.history == s.history
      && (s'.procs[pid] == p.(stage := Marking) <==> b.jwtHash(p.kmsKey, claims) == b.jwtHash(w.kmsKey, w.claims))
      && (p.kmsKey == w.kmsKey && p.jwk == w.claims.jwk ==> s'.procs[pid] == p.(stage := Marking))
  {
    hide GrantInv, NonceInv, NoClash, IssuerUrl, SS.NewAccess;
    var p := s.procs[pid];
    assert ProcessOk(s, pid, p);
    var w := s.history.writer[(p.tenant, c)];
    assert RecordOk(b, At(s.world, p.tenant), s.db.access, p.tenant, c, w);
    assert AccessOk(s.world, s.db.grants, p.token, s.db.access[p.token]);
    assert ClaimsOf(b, p).(jwk := w.claims.jwk) == w.claims;
  }
}
