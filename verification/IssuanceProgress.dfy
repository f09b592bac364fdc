/** A single `Issue` call that nobody disturbs succeeds: with a live, bound token, an unspent nonce and an active
    delegation with its key it writes the credential record, under a fresh status index or, if an earlier call
    already prepared the token and died, under the earlier one. */
module IssuanceProgress {
  import opened Wrappers
  import opened HostedStore
  import opened MemoryStores
  import opened Issuance
  import opened IssuanceSafety
  import opened IssuanceTheorems
  import SS = StateStore

  /** What `Issue` needs to find. */
  ghost predicate Found(s: System, p: Process, input: Input) {
    && p.IssueCall? && Fresh(p)
    && SS.LiveToken(s.db, p.token, input.now) && Accepts(p, s.db.access[p.token])
    && SS.ConsumeNonce(s.db, p.nonce, input.now).1.Ok?
    && (var ts := At(s.world, p.tenant);
        && ts.tenant.Some?
        && ActiveDelegation(ts, input.now, input.order).1.DelegationIs?
        && (var d := ActiveDelegation(ts, input.now, input.order).1.delegation;
            d.signingKeyId in ts.signingKeys && MEMBERSHIP in d.credentialTypes))
  }

  /** The token has no index yet, and one is free. */
  ghost predicate Ready(b: Builder, s: System, p: Process, input: Input) {
    && Found(s, p, input)
    && s.db.access[p.token].statusIndex.None? && s.db.access[p.token].issuedAt.None?
    && FirstFree(At(s.world, p.tenant).indexes, Attempted(input.draws)).Some?
    && CredentialId(b, FinalClaims(b, s, p, input)) !in At(s.world, p.tenant).credentials
  }

  ghost function NewIndex(s: System, p: Process, input: Input): int
    requires p.IssueCall? && FirstFree(At(s.world, p.tenant).indexes, Attempted(input.draws)).Some?
  {
    FirstFree(At(s.world, p.tenant).indexes, Attempted(input.draws)).value
  }

  /** The claims that the credential will carry. */
  ghost function FinalClaims(b: Builder, s: System, p: Process, input: Input): Claims
    requires p.IssueCall? && p.token in s.db.access && At(s.world, p.tenant).tenant.Some?
    requires FirstFree(At(s.world, p.tenant).indexes, Attempted(input.draws)).Some?
  {
    var a := s.db.access[p.token];
    Claims(At(s.world, p.tenant).tenant.value.organizationDid, IssuerUrl(b, p.tenant), a.subjectDid, p.jwk,
           a.membershipClass, a.forumHostId, a.boardId, NewIndex(s, p, input), input.issuedAt)
  }

  function Advances(b: Builder, s: System, pid: nat, input: Input, n: nat): System {
    if n == 0 then s else Next(b, Advances(b, s, pid, input, n - 1), Advance(pid, input))
  }

  lemma {:induction false} AdvancesIsRun(b: Builder, s: System, pid: nat, input: Input, n: nat)
    ensures Run(b, s, seq(n, _ => Advance(pid, input))) == Advances(b, s, pid, input, n)
  {
    hide Next;
    if n > 0 {
      AdvancesIsRun(b, s, pid, input, n - 1);
      var e := Advance(pid, input);
      assert seq(n, _ => e) == seq(n - 1, _ => e) + [e];
      RunSnoc(b, s, seq(n - 1, _ => e), e);
    }
  }

  lemma {:induction false} AdvancesSplit(b: Builder, s: System, pid: nat, input: Input, m: nat, n: nat)
    ensures Advances(b, s, pid, input, m + n) == Advances(b, Advances(b, s, pid, input, m), pid, input, n)
  {
    hide Next;
    if n > 0 { AdvancesSplit(b, s, pid, input, m, n - 1); }
  }

  /** The process when it has read everything. */
  ghost function Informed(s: System, p: Process, input: Input): Process
    requires p.IssueCall? && p.token in s.db.access
  {
    var ts := At(s.world, p.tenant);
    var reply := ActiveDelegation(ts, input.now, input.order).1;
    if ts.tenant.None? || !reply.DelegationIs? || reply.delegation.signingKeyId !in ts.signingKeys then p
    else p.(access := Some(s.db.access[p.token]), organization := ts.tenant.value.organizationDid,
            delegation := Some(reply.delegation), kmsKey := ts.signingKeys[reply.delegation.signingKeyId].kmsKeyVersion,
            stage := if s.db.access[p.token].statusIndex.None? then ReservingIndex else Writing)
  }

  lemma AfterReading(b: Builder, s: System, pid: nat, p: Process, input: Input)
    requires Found(s, p, input) && pid in s.procs && s.procs[pid] == p
    requires s.db.access[p.token].statusIndex.Some? ==> s.db.access[p.token].issuedAt.Some?
    ensures var s5 := Advances(b, s, pid, input, 5);
      && s5.world == s.world && s5.db == SS.ConsumeNonce(s.db, p.nonce, input.now).0
      && s5.history.writer == s.history.writer
      && pid in s5.procs && s5.procs[pid] == Informed(s, p, input)
  {
    hide ActiveDelegation, Accepts, CredentialId, FirstFree, Attempted, IssuerUrl, Inv, Reserve, Prepare, Reread, Write, Mark;
    hide Audit, TakeRequest, MakeGrant, Advances;
    var s1 := Next(b, s, Advance(pid, input));
    assert s1.procs[pid] == p.(access := Some(s.db.access[p.token]), stage := SpendingNonce) && s1.db == s.db && s1.world == s.world;
    var s2 := Next(b, s1, Advance(pid, input));
    assert s2.procs[pid] == s1.procs[pid].(stage := ReadingOrganization);
    assert s2.db == SS.ConsumeNonce(s.db, p.nonce, input.now).0 && s2.world == s.world;
    var s3 := Next(b, s2, Advance(pid, input));
    assert s3.procs[pid].stage == ReadingDelegation && s3.world == s.world && s3.db == s2.db;
    var s4 := Next(b, s3, Advance(pid, input));
    assert s4.procs[pid].stage == ReadingKey && s4.world == s.world && s4.db == s2.db;
    var s5 := Next(b, s4, Advance(pid, input));
    FiveAdvances(b, s, pid, input);
  }

  lemma FiveAdvances(b: Builder, s: System, pid: nat, input: Input)
    ensures var e := Advance(pid, input);
      Advances(b, s, pid, input, 5) == Next(b, Next(b, Next(b, Next(b, Next(b, s, e), e), e), e), e)
  {
    hide Next;
    ThreeAdvances(b, s, pid, input);
    assert Advances(b, s, pid, input, 4) == Next(b, Advances(b, s, pid, input, 3), Advance(pid, input));
  }

  lemma ThreeAdvances(b: Builder, s: System, pid: nat, input: Input)
    ensures var e := Advance(pid, input);
      Advances(b, s, pid, input, 3) == Next(b, Next(b, Next(b, s, e), e), e)
  {
    hide Next;
    assert Advances(b, s, pid, input, 1) == Next(b, s, Advance(pid, input));
    assert Advances(b, s, pid, input, 2) == Next(b, Advances(b, s, pid, input, 1), Advance(pid, input));
  }

  /** Reserve, prepare and read back. */
  lemma AfterPreparing(b: Builder, s: System, pid: nat, p: Process, input: Input)
    requires pid in s.procs && s.procs[pid] == p && p.IssueCall? && p.stage == ReservingIndex
    requires SS.LiveToken(s.db, p.token, input.now)
    requires s.db.access[p.token].statusIndex.None? && s.db.access[p.token].issuedAt.None?
    requires At(s.world, p.tenant).tenant.Some? && FirstFree(At(s.world, p.tenant).indexes, Attempted(input.draws)).Some?
    ensures
      var i := NewIndex(s, p, input);
      var row := s.db.access[p.token].(statusIndex := Some(i), issuedAt := Some(input.issuedAt));
      var s3 := Advances(b, s, pid, input, 3);
      && s3.db == s.db.(access := s.db.access[p.token := row])
      && s3.world == s.world[p.tenant := At(s.world, p.tenant).(indexes := At(s.world, p.tenant).indexes + {i})]
      && pid in s3.procs && s3.procs[pid] == p.(access := Some(row), index := i, clock := input.now, stage := Writing)
  {
    hide FirstFree, Attempted;
    var e := Advance(pid, input);
    var s1 := Next(b, s, e);
    assert s1.procs[pid] == p.(index := NewIndex(s, p, input), stage := Preparing) && s1.db == s.db;
    var s2 := Next(b, s1, e);
    assert s2.procs[pid] == s1.procs[pid].(stage := Rereading, clock := input.now) && s2.world == s1.world;
    var s3 := Next(b, s2, e);
    assert s3.procs[pid].stage == Writing;
    ThreeAdvances(b, s, pid, input);
  }

  lemma WritingStep(b: Builder, s: System, pid: nat, p: Process, input: Input)
    requires pid in s.procs && s.procs[pid] == p && Prepared(p) && p.stage == Writing
    requires p.access.value.statusIndex.value in At(s.world, p.tenant).indexes
    requires RecordOf(b, p).credentialId !in At(s.world, p.tenant).credentials
    ensures
      var s1 := Next(b, s, Advance(pid, input));
      var id := RecordOf(b, p).credentialId;
      && s1.db == s.db && pid in s1.procs && s1.procs[pid] == p.(stage := Marking)
      && At(s1.world, p.tenant).credentials == At(s.world, p.tenant).credentials[id := RecordOf(b, p).(tenantId := p.tenant)]
      && (p.tenant, id) in s1.history.writer
      && s1.history.writer[(p.tenant, id)] == Written(p.token, ClaimsOf(b, p), p.kmsKey)
  {
    hide CredentialId;
  }

  /** Write, mark and audit. */
  lemma AfterWriting(b: Builder, s: System, pid: nat, p: Process, input: Input)
    requires pid in s.procs && s.procs[pid] == p && Prepared(p) && p.stage == Writing
    requires SS.LiveToken(s.db, p.token, input.now)
    requires p.access.value.statusIndex.value in At(s.world, p.tenant).indexes
    requires RecordOf(b, p).credentialId !in At(s.world, p.tenant).credentials
    ensures
      var s3 := Advances(b, s, pid, input, 3);
      var id := RecordOf(b, p).credentialId;
      && pid in s3.procs && s3.procs[pid] == Ended
      && s3.db == SS.ConsumeAccess(s.db, p.token, input.now).0
      && At(s3.world, p.tenant).credentials == At(s.world, p.tenant).credentials[id := RecordOf(b, p).(tenantId := p.tenant)]
      && (p.tenant, id) in s3.history.writer
      && s3.history.writer[(p.tenant, id)] == Written(p.token, ClaimsOf(b, p), p.kmsKey)
  {
    hide CredentialId, RecordOf, ClaimsOf, PutRecord, Write;
    var e := Advance(pid, input);
    var s1 := Next(b, s, e);
    WritingStep(b, s, pid, p, input);
    var s2 := Next(b, s1, e);
    assert s2.procs[pid] == p.(stage := Auditing) && s2.world == s1.world && s2.history == s1.history;
    var s3 := Next(b, s2, e);
    ThreeAdvances(b, s, pid, input);
  }

  /** From a ready state, eight undisturbed steps prepare the token and gather the claims. */
  lemma BeforeWriting(b: Builder, s: System, pid: nat, p: Process, input: Input)
    requires Ready(b, s, p, input) && pid in s.procs && s.procs[pid] == p
    ensures
      var s8 := Advances(b, s, pid, input, 8);
      && pid in s8.procs
      && (var w := s8.procs[pid];
          && Prepared(w) && w.stage == Writing && w.tenant == p.tenant && w.token == p.token
          && ClaimsOf(b, w) == FinalClaims(b, s, p, input)
          && NewIndex(s, p, input) in At(s8.world, p.tenant).indexes
          && At(s8.world, p.tenant).credentials == At(s.world, p.tenant).credentials
          && SS.LiveToken(s8.db, p.token, input.now)
          && s8.db.access[p.token].statusIndex == Some(NewIndex(s, p, input)))
  {
    hide Next, ActiveDelegation, Accepts, CredentialId, FirstFree, Attempted, IssuerUrl, Inv, Advances;
    AdvancesSplit(b, s, pid, input, 5, 3);
    var s5 := Advances(b, s, pid, input, 5);
    AfterReading(b, s, pid, p, input);
    AfterPreparing(b, s5, pid, s5.procs[pid], input);
  }

  /** From a ready state, eleven undisturbed steps end the call with the record written, active, under the
      new index and with the claims of the token, and the token prepared and marked. */
  lemma LoneIssueSucceeds(b: Builder, s: System, pid: nat, p: Process, input: Input)
    requires Ready(b, s, p, input) && pid !in s.procs
    ensures
      var s' := Run(b, SetProcess(s, pid, p), seq(11, _ => Advance(pid, input)));
      var claims := FinalClaims(b, s, p, input);
      var id := CredentialId(b, claims);
      && pid in s'.procs && s'.procs[pid] == Ended
      && id in At(s'.world, p.tenant).credentials
      && At(s'.world, p.tenant).credentials[id].statusIndex == NewIndex(s, p, input)
      && At(s'.world, p.tenant).credentials[id].status == "active"
      && (p.tenant, id) in s'.history.writer && s'.history.writer[(p.tenant, id)].claims == claims
      && p.token in s'.db.access && s'.db.access[p.token].statusIndex == Some(NewIndex(s, p, input))
      && s'.db.access[p.token].consumedAt.Some?
  {
    hide Next, ActiveDelegation, Accepts, CredentialId, FirstFree, Attempted, IssuerUrl, Run, Inv, Advances, Informed;
    var s0 := SetProcess(s, pid, p);
    AdvancesIsRun(b, s0, pid, input, 11);
    AdvancesSplit(b, s0, pid, input, 8, 3);
    var s8 := Advances(b, s0, pid, input, 8);
    assert Ready(b, s0, p, input) && FinalClaims(b, s0, p, input) == FinalClaims(b, s, p, input);
    BeforeWriting(b, s0, pid, p, input);
    AfterWriting(b, s8, pid, s8.procs[pid], input);
  }

  // ---------------------------------------------------------------------- after a call that died

  /** The claims of a token that an earlier call prepared. */
  ghost function EarlierClaims(b: Builder, s: System, p: Process): Claims
    requires p.IssueCall? && p.token in s.db.access && At(s.world, p.tenant).tenant.Some?
    requires s.db.access[p.token].statusIndex.Some? && s.db.access[p.token].issuedAt.Some?
  {
    var a := s.db.access[p.token];
    Claims(At(s.world, p.tenant).tenant.value.organizationDid, IssuerUrl(b, p.tenant), a.subjectDid, p.jwk,
           a.membershipClass, a.forumHostId, a.boardId, a.statusIndex.value, a.issuedAt.value)
  }

  /** An earlier call prepared the token. If it also wrote the record, the same key signs the same claims now. */
  ghost predicate Resumable(b: Builder, s: System, p: Process, input: Input) {
    && Found(s, p, input)
    && s.db.access[p.token].statusIndex.Some? && s.db.access[p.token].issuedAt.Some?
    && (var id := CredentialId(b, EarlierClaims(b, s, p));
        var q := Informed(s, p, input);
        id in At(s.world, p.tenant).credentials ==>
          && (p.tenant, id) in s.history.writer && s.history.writer[(p.tenant, id)].token == p.token
          && At(s.world, p.tenant).credentials[id].credentialHash == b.jwtHash(q.kmsKey, EarlierClaims(b, s, p)))
  }

  /** Writing a record that is there with the same hash changes nothing but the program counter. */
  lemma RewritingStep(b: Builder, s: System, pid: nat, p: Process, input: Input)
    requires pid in s.procs && s.procs[pid] == p && Prepared(p) && p.stage == Writing
    requires p.access.value.statusIndex.value in At(s.world, p.tenant).indexes
    requires var record := RecordOf(b, p);
      && record.credentialId in At(s.world, p.tenant).credentials
      && At(s.world, p.tenant).credentials[record.credentialId].credentialHash == record.credentialHash
    ensures Next(b, s, Advance(pid, input)) == SetProcess(s, pid, p.(stage := Marking))
  {
    hide CredentialId;
  }

  lemma AfterRewriting(b: Builder, s: System, pid: nat, p: Process, input: Input)
    requires pid in s.procs && s.procs[pid] == p && Prepared(p) && p.stage == Writing
    requires SS.LiveToken(s.db, p.token, input.now)
    requires p.access.value.statusIndex.value in At(s.world, p.tenant).indexes
    requires var record := RecordOf(b, p);
      && record.credentialId in At(s.world, p.tenant).credentials
      && At(s.world, p.tenant).credentials[record.credentialId].credentialHash == record.credentialHash
    ensures
      var s3 := Advances(b, s, pid, input, 3);
      && pid in s3.procs && s3.procs[pid] == Ended
      && s3.db == SS.ConsumeAccess(s.db, p.token, input.now).0
      && At(s3.world, p.tenant).credentials == At(s.world, p.tenant).credentials
      && s3.history.writer == s.history.writer
  {
    hide CredentialId, RecordOf, ClaimsOf, PutRecord, Write;
    var e := Advance(pid, input);
    var s1 := Next(b, s, e);
    RewritingStep(b, s, pid, p, input);
    var s2 := Next(b, s1, e);
    assert s2.procs[pid] == p.(stage := Auditing) && s2.world == s1.world && s2.history == s1.history;
    var s3 := Next(b, s2, e);
    ThreeAdvances(b, s, pid, input);
  }

  /** A prepared token's index is reserved. */
  lemma IndexReserved(b: Builder, s: System, token: string)
    requires Inv(b, s) && token in s.db.access && s.db.access[token].statusIndex.Some?
    ensures s.db.access[token].statusIndex.value in At(s.world, s.db.access[token].tenantId).indexes
  {
    hide GrantInv, RecordInv, NonceInv, NoClash, ProcessOk;
    assert AccessOk(s.world, s.db.grants, token, s.db.access[token]);
  }

  lemma RecordOfToken(b: Builder, s: System, t: string, c: string)
    requires Inv(b, s) && c in At(s.world, t).credentials && (t, c) in s.history.writer
    ensures TokenOf(s, t, c) in s.db.access
    ensures var a := s.db.access[TokenOf(s, t, c)];
      a.statusIndex == Some(At(s.world, t).credentials[c].statusIndex) && a.issuedAt == Some(At(s.world, t).credentials[c].issuedAt)
  {
    hide GrantInv, AccessInv, NonceInv, NoClash, ProcessOk, CredentialId;
    assert RecordOk(b, At(s.world, t), s.db.access, t, c, s.history.writer[(t, c)]);
  }

  /** The last three steps, whether the record is there or not. */
  lemma AfterResuming(b: Builder, s: System, pid: nat, p: Process, input: Input)
    requires pid in s.procs && s.procs[pid] == p && Prepared(p) && p.stage == Writing
    requires SS.LiveToken(s.db, p.token, input.now)
    requires p.access.value.statusIndex.value in At(s.world, p.tenant).indexes
    requires var record := RecordOf(b, p);
      record.credentialId in At(s.world, p.tenant).credentials ==>
        && (p.tenant, record.credentialId) in s.history.writer
        && s.history.writer[(p.tenant, record.credentialId)].token == p.token
        && At(s.world, p.tenant).credentials[record.credentialId].credentialHash == record.credentialHash
    ensures
      var s3 := Advances(b, s, pid, input, 3);
      var id := RecordOf(b, p).credentialId;
      && pid in s3.procs && s3.procs[pid] == Ended
      && s3.db == SS.ConsumeAccess(s.db, p.token, input.now).0
      && id in At(s3.world, p.tenant).credentials
      && (p.tenant, id) in s3.history.writer && s3.history.writer[(p.tenant, id)].token == p.token
      && (id in At(s.world, p.tenant).credentials ==> At(s3.world, p.tenant).credentials == At(s.world, p.tenant).credentials)
  {
    hide RecordOf, ClaimsOf, Advances, SS.ConsumeAccess;
    if RecordOf(b, p).credentialId in At(s.world, p.tenant).credentials {
      AfterRewriting(b, s, pid, p, input);
    } else {
      AfterWriting(b, s, pid, p, input);
    }
  }

  /** A call for a token that an earlier call prepared, whether that call died before or after writing the record,
      ends in eight undisturbed steps with the token marked and with exactly one record of that token, under the
      earlier index and issue time; a record that was there is left as it is. */
  lemma ResumedIssueSucceeds(b: Builder, s: System, pid: nat, p: Process, input: Input)
    requires Inv(b, s) && Resumable(b, s, p, input) && pid !in s.procs
    ensures
      var s' := Run(b, SetProcess(s, pid, p), seq(8, _ => Advance(pid, input)));
      var id := CredentialId(b, EarlierClaims(b, s, p));
      var a := s.db.access[p.token];
      && pid in s'.procs && s'.procs[pid] == Ended
      && id in At(s'.world, p.tenant).credentials
      && Some(At(s'.world, p.tenant).credentials[id].statusIndex) == a.statusIndex
      && Some(At(s'.world, p.tenant).credentials[id].issuedAt) == a.issuedAt
      && p.token in s'.db.access && s'.db.access[p.token] == a.(consumedAt := SS.Coalesce(a.consumedAt, input.now))
      && (forall c <- At(s'.world, p.tenant).credentials ::
            (p.tenant, c) in s'.history.writer && (TokenOf(s', p.tenant, c) == p.token ==> c == id))
      && (id in At(s.world, p.tenant).credentials ==> At(s'.world, p.tenant).credentials == At(s.world, p.tenant).credentials)
  {
    hide Next, ActiveDelegation, Accepts, CredentialId, IssuerUrl, Run, Inv;
    var s0 := SetProcess(s, pid, p);
    var events := seq(8, _ => Advance(pid, input));
    assert Inv(b, s0) by { FreshOk(s, pid, p); ProcessMoves(b, s, pid, p); }
    RunKeeps(b, s0, events);
    AdvancesIsRun(b, s0, pid, input, 8);
    AdvancesSplit(b, s0, pid, input, 5, 3);
    AfterReading(b, s0, pid, p, input);
    var s5 := Advances(b, s0, pid, input, 5);
    var q := s5.procs[pid];
    IndexReserved(b, s, p.token);
    AcceptedTenant(p, s.db.access[p.token]);
    assert ClaimsOf(b, q) == EarlierClaims(b, s, p);
    AfterResuming(b, s5, pid, q, input);
    var s' := Run(b, s0, events);
    var id := CredentialId(b, EarlierClaims(b, s, p));
    RecordOfToken(b, s', p.tenant, id);
    forall c <- At(s'.world, p.tenant).credentials
      ensures (p.tenant, c) in s'.history.writer && (TokenOf(s', p.tenant, c) == p.token ==> c == id)
    {
      HasWriter(b, s', p.tenant, c);
      if TokenOf(s', p.tenant, c) == p.token { RecordsOfToken(b, s', p.tenant, c, p.tenant, id); }
    }
  }

  lemma AcceptedTenant(p: Process, a: SS.Access)
    requires p.IssueCall? && Accepts(p, a)
    ensures a.tenantId == p.tenant
  {
  }

  lemma HasWriter(b: Builder, s: System, t: string, c: string)
    requires Inv(b, s) && c in At(s.world, t).credentials
    ensures (t, c) in s.history.writer
  {
    hide GrantInv, AccessInv, NonceInv, NoClash, ProcessOk, RecordOk;
  }
}
