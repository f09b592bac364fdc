/** Grants, access tokens and nonces of the OID4VCI endpoints
    (ansible_issuer/go/internal/oid4vci/postgres_store.go and state.go).

    The functions say what each statement or transaction does to the three tables; the class is the store
    with its tables as fields. */
module StateStore {
  import opened Wrappers

  type Time = int

  datatype Grant = Grant(codeHash: string, tenantId: string, configurationId: string, subjectHash: string,
                         subjectDid: string, membershipClass: string, forumHostId: string, boardId: string,
                         expiresAt: Time, consumedAt: Option<Time>)
  datatype Access = Access(tokenHash: string, grantCodeHash: string, tenantId: string, configurationId: string,
                           subjectHash: string, subjectDid: string, membershipClass: string, forumHostId: string,
                           boardId: string, issuedAt: Option<Time>, statusIndex: Option<int>, expiresAt: Time,
                           consumedAt: Option<Time>)
  datatype Nonce = Nonce(hash: string, expiresAt: Time, consumedAt: Option<Time>)

  datatype Tables = Tables(grants: map<string, Grant>, access: map<string, Access>, nonces: map<string, Nonce>)

  datatype Error = InvalidGrant | InvalidToken | InvalidNonce | UniqueViolation

  // ------------------------------------------------------------------------- statements

  function PutGrant(db: Tables, g: Grant): (Tables, Result<(), Error>) {
    if g.codeHash in db.grants then (db, Err(InvalidGrant))
    else (db.(grants := db.grants[g.codeHash := g]), Ok(()))
  }

  predicate Redeemable(db: Tables, codeHash: string, tenantId: string, now: Time) {
    && codeHash in db.grants && db.grants[codeHash].tenantId == tenantId
    && db.grants[codeHash].consumedAt.None? && db.grants[codeHash].expiresAt > now
  }

  function NewAccess(g: Grant, tokenHash: string, expiry: Time): Access {
    Access(tokenHash, g.codeHash, g.tenantId, g.configurationId, g.subjectHash, g.subjectDid, g.membershipClass,
           g.forumHostId, g.boardId, None, None, expiry, None)
  }

  /** One transaction: a failed insert rolls the update back. */
  function ExchangeGrant(db: Tables, codeHash: string, tenantId: string, tokenHash: string, expiry: Time, now: Time)
    : (Tables, Result<Access, Error>)
  {
    if !Redeemable(db, codeHash, tenantId, now) then (db, Err(InvalidGrant))
    else if tokenHash in db.access then (db, Err(UniqueViolation))
    else
      var g := db.grants[codeHash];
      var a := NewAccess(g, tokenHash, expiry);
      (db.(grants := db.grants[codeHash := g.(consumedAt := Some(now))], access := db.access[tokenHash := a]), Ok(a))
  }

  predicate LiveToken(db: Tables, tokenHash: string, now: Time) {
    tokenHash in db.access && db.access[tokenHash].expiresAt > now
  }

  function AccessByHash(db: Tables, tokenHash: string, now: Time): Result<Access, Error> {
    if LiveToken(db, tokenHash, now) then Ok(db.access[tokenHash]) else Err(InvalidToken)
  }

  function Coalesce<T>(a: Option<T>, b: T): Option<T> {
    if a.Some? then a else Some(b)
  }

  /** The UPDATE of `PrepareAccess`; its result is then read back with `AccessByHash`. */
  function PrepareUpdate(db: Tables, tokenHash: string, index: int, issuedAt: Time, now: Time): (Tables, Result<(), Error>) {
    if !LiveToken(db, tokenHash, now) then (db, Err(InvalidToken))
    else
      var a := db.access[tokenHash];
      var a' := a.(statusIndex := Coalesce(a.statusIndex, index), issuedAt := Coalesce(a.issuedAt, issuedAt));
      (db.(access := db.access[tokenHash := a']), Ok(()))
  }

  function ConsumeAccess(db: Tables, tokenHash: string, now: Time): (Tables, Result<(), Error>) {
    if !LiveToken(db, tokenHash, now) then (db, Err(InvalidToken))
    else
      var a := db.access[tokenHash];
      (db.(access := db.access[tokenHash := a.(consumedAt := Coalesce(a.consumedAt, now))]), Ok(()))
  }

  function PutNonce(db: Tables, n: Nonce): (Tables, Result<(), Error>) {
    if n.hash in db.nonces then (db, Err(InvalidNonce))
    else (db.(nonces := db.nonces[n.hash := n]), Ok(()))
  }

  function ConsumeNonce(db: Tables, hash: string, now: Time): (Tables, Result<(), Error>) {
    if hash !in db.nonces || db.nonces[hash].consumedAt.Some? || db.nonces[hash].expiresAt <= now
    then (db, Err(InvalidNonce))
    else (db.(nonces := db.nonces[hash := db.nonces[hash].(consumedAt := Some(now))]), Ok(()))
  }

  // --------------------------------------------------------------------------- the object

  class PostgresStateStore {
    var grants: map<string, Grant>
    var access: map<string, Access>
    var nonces: map<string, Nonce>

    ghost function State(): Tables
      reads this
    {
      Tables(grants, access, nonces)
    }

    constructor ()
      ensures State() == Tables(map[], map[], map[])
    {
      grants, access, nonces := map[], map[], map[];
    }

    method InsertGrant(g: Grant) returns (r: Result<(), Error>)
      modifies this
      ensures (State(), r) == PutGrant(old(State()), g)
      ensures RowsKept(old(State()), State())
    {
      if g.codeHash in grants { return Err(InvalidGrant); }
      grants := grants[g.codeHash := g];
      return Ok(());
    }

    method Exchange(codeHash: string, tenantId: string, tokenHash: string, expiry: Time, now: Time)
      returns (r: Result<Access, Error>)
      modifies this
      ensures (State(), r) == ExchangeGrant(old(State()), codeHash, tenantId, tokenHash, expiry, now)
      ensures RowsKept(old(State()), State())
      ensures r.Ok? ==> !Redeemable(State(), codeHash, tenantId, now)
    {
      if codeHash !in grants { return Err(InvalidGrant); }
      var g := grants[codeHash];
      if g.tenantId != tenantId || g.consumedAt.Some? || g.expiresAt <= now { return Err(InvalidGrant); }
      grants := grants[codeHash := g.(consumedAt := Some(now))];
      if tokenHash in access {
        grants := grants[codeHash := g];
        assert grants == old(grants);
        return Err(UniqueViolation);
      }
      var a := NewAccess(g, tokenHash, expiry);
      access := access[tokenHash := a];
      return Ok(a);
    }

    method Lookup(tokenHash: string, now: Time) returns (r: Result<Access, Error>)
      ensures r == AccessByHash(State(), tokenHash, now)
    {
      if tokenHash !in access || access[tokenHash].expiresAt <= now { return Err(InvalidToken); }
      return Ok(access[tokenHash]);
    }

    /** Update, then read back: what is returned is what the row holds, not what was offered. */
    method Prepare(tokenHash: string, index: int, issuedAt: Time, now: Time) returns (r: Result<Access, Error>)
      modifies this
      ensures State() == PrepareUpdate(old(State()), tokenHash, index, issuedAt, now).0
      ensures RowsKept(old(State()), State())
      ensures r == AccessByHash(State(), tokenHash, now)
      ensures r.Ok? ==> r.value.statusIndex.Some? && r.value.issuedAt.Some?
      ensures r.Ok? && old(access)[tokenHash].statusIndex.Some? ==>
                r.value.statusIndex == old(access)[tokenHash].statusIndex
    {
      if tokenHash !in access || access[tokenHash].expiresAt <= now { return Err(InvalidToken); }
      var a := access[tokenHash];
      if a.statusIndex.None? { a := a.(statusIndex := Some(index)); }
      if a.issuedAt.None? { a := a.(issuedAt := Some(issuedAt)); }
      access := access[tokenHash := a];
      r := Lookup(tokenHash, now);
    }

    method MarkConsumed(tokenHash: string, now: Time) returns (r: Result<(), Error>)
      modifies this
      ensures (State(), r) == ConsumeAccess(old(State()), tokenHash, now)
      ensures RowsKept(old(State()), State())
    {
      if tokenHash !in access || access[tokenHash].expiresAt <= now { return Err(InvalidToken); }
      var a := access[tokenHash];
      if a.consumedAt.None? { a := a.(consumedAt := Some(now)); }
      access := access[tokenHash := a];
      return Ok(());
    }

    method InsertNonce(n: Nonce) returns (r: Result<(), Error>)
      modifies this
      ensures (State(), r) == PutNonce(old(State()), n)
      ensures RowsKept(old(State()), State())
    {
      if n.hash in nonces { return Err(InvalidNonce); }
      nonces := nonces[n.hash := n];
      return Ok(());
    }

    method SpendNonce(hash: string, now: Time) returns (r: Result<(), Error>)
      modifies this
      ensures (State(), r) == ConsumeNonce(old(State()), hash, now)
      ensures RowsKept(old(State()), State())
      ensures hash in nonces ==> ConsumeNonce(State(), hash, now).1.Err?
    {
      if hash !in nonces || nonces[hash].consumedAt.Some? || nonces[hash].expiresAt <= now { return Err(InvalidNonce); }
      nonces := nonces[hash := nonces[hash].(consumedAt := Some(now))];
      return Ok(());
    }
  }

  // --------------------------------------------------------------------------------- effects

  /** A grant is stored exactly when its code is new. */
  lemma PutGrantEffect(db: Tables, g: Grant)
    ensures var (db', r) := PutGrant(db, g);
      && (r.Ok? <==> g.codeHash !in db.grants)
      && (r.Err? ==> db' == db && r == Err(InvalidGrant))
      && (r.Ok? ==> g.codeHash in db'.grants && db'.grants[g.codeHash] == g && db'.grants - {g.codeHash} == db.grants
                    && db'.access == db.access && db'.nonces == db.nonces)
  {
  }

  /** A code is exchanged exactly when it is of that tenant, unexpired and unconsumed and the token is new; the grant is
      then consumed at that time, and the token carries the grant's data, unprepared and unconsumed. */
  lemma ExchangeEffect(db: Tables, codeHash: string, tenantId: string, tokenHash: string, expiry: Time, now: Time)
    ensures var (db', r) := ExchangeGrant(db, codeHash, tenantId, tokenHash, expiry, now);
      && (r.Ok? <==>
            && codeHash in db.grants && db.grants[codeHash].tenantId == tenantId
            && db.grants[codeHash].consumedAt == None && now < db.grants[codeHash].expiresAt && tokenHash !in db.access)
      && (r.Err? ==> db' == db)
      && (r.Ok? ==>
            var g := db.grants[codeHash];
            && tokenHash in db'.access && r.value == db'.access[tokenHash]
            && db'.access[tokenHash] == Access(tokenHash, g.codeHash, g.tenantId, g.configurationId, g.subjectHash, g.subjectDid,
                                               g.membershipClass, g.forumHostId, g.boardId, None, None, expiry, None)
            && db'.access - {tokenHash} == db.access && db'.nonces == db.nonces
            && db'.grants.Keys == db.grants.Keys && db'.grants[codeHash] == g.(consumedAt := Some(now))
            && (forall c <- db.grants :: c != codeHash ==> db'.grants[c] == db.grants[c]))
  {
  }

  /** A token is found exactly while it has not expired. */
  lemma AccessByHashIff(db: Tables, tokenHash: string, now: Time)
    ensures var r := AccessByHash(db, tokenHash, now);
      && (r.Ok? <==> tokenHash in db.access && now < db.access[tokenHash].expiresAt)
      && (r.Ok? ==> r.value == db.access[tokenHash]) && (r.Err? ==> r == Err(InvalidToken))
  {
  }

  /** Preparing succeeds exactly for an unexpired token; a missing index or issue time is filled in, a present one and
      everything else stay. */
  lemma PrepareEffect(db: Tables, tokenHash: string, index: int, issuedAt: Time, now: Time)
    ensures var (db', r) := PrepareUpdate(db, tokenHash, index, issuedAt, now);
      && (r.Ok? <==> tokenHash in db.access && now < db.access[tokenHash].expiresAt)
      && (r.Err? ==> db' == db)
      && (r.Ok? ==>
            var a := db.access[tokenHash];
            && db'.access.Keys == db.access.Keys && db'.grants == db.grants && db'.nonces == db.nonces
            && db'.access[tokenHash].statusIndex == (if a.statusIndex == None then Some(index) else a.statusIndex)
            && db'.access[tokenHash].issuedAt == (if a.issuedAt == None then Some(issuedAt) else a.issuedAt)
            && db'.access[tokenHash].(statusIndex := a.statusIndex, issuedAt := a.issuedAt) == a
            && (forall t <- db.access :: t != tokenHash ==> db'.access[t] == db.access[t]))
  {
  }

  /** Marking succeeds exactly for an unexpired token and records the first time it was done. */
  lemma ConsumeAccessEffect(db: Tables, tokenHash: string, now: Time)
    ensures var (db', r) := ConsumeAccess(db, tokenHash, now);
      && (r.Ok? <==> tokenHash in db.access && now < db.access[tokenHash].expiresAt)
      && (r.Err? ==> db' == db)
      && (r.Ok? ==>
            var a := db.access[tokenHash];
            && db'.access.Keys == db.access.Keys && db'.grants == db.grants && db'.nonces == db.nonces
            && db'.access[tokenHash].consumedAt == (if a.consumedAt == None then Some(now) else a.consumedAt)
            && db'.access[tokenHash].(consumedAt := a.consumedAt) == a
            && (forall t <- db.access :: t != tokenHash ==> db'.access[t] == db.access[t]))
  {
  }

  lemma PutNonceEffect(db: Tables, n: Nonce)
    ensures var (db', r) := PutNonce(db, n);
      && (r.Ok? <==> n.hash !in db.nonces)
      && (r.Err? ==> db' == db && r == Err(InvalidNonce))
      && (r.Ok? ==> n.hash in db'.nonces && db'.nonces[n.hash] == n && db'.nonces - {n.hash} == db.nonces
                    && db'.access == db.access && db'.grants == db.grants)
  {
  }

  /** A nonce is spent exactly when it was issued, is unspent and has not expired. */
  lemma ConsumeNonceEffect(db: Tables, hash: string, now: Time)
    ensures var (db', r) := ConsumeNonce(db, hash, now);
      && (r.Ok? <==> hash in db.nonces && db.nonces[hash].consumedAt == None && now < db.nonces[hash].expiresAt)
      && (r.Err? ==> db' == db && r == Err(InvalidNonce))
      && (r.Ok? ==>
            && db'.nonces.Keys == db.nonces.Keys && db'.nonces[hash] == Nonce(db.nonces[hash].hash, db.nonces[hash].expiresAt, Some(now))
            && (forall n <- db.nonces :: n != hash ==> db'.nonces[n] == db.nonces[n])
            && db'.access == db.access && db'.grants == db.grants)
  {
  }

  // --------------------------------------------------------------------------- row history

  /** Rows stay; what a token was made with stays; index, issue time and consumption are write-once. */
  ghost predicate AccessEvolves(before: map<string, Access>, after: map<string, Access>) {
    forall t <- before :: t in after && RowEvolves(before[t], after[t])
  }

  ghost predicate RowEvolves(a: Access, b: Access) {
    && b.(statusIndex := a.statusIndex, issuedAt := a.issuedAt, consumedAt := a.consumedAt) == a
    && (a.statusIndex.Some? ==> b.statusIndex == a.statusIndex)
    && (a.issuedAt.Some? ==> b.issuedAt == a.issuedAt)
    && (a.consumedAt.Some? ==> b.consumedAt == a.consumedAt)
  }

  /** Grants and nonces stay, and once consumed they never change. */
  ghost predicate GrantsEvolve(before: map<string, Grant>, after: map<string, Grant>) {
    forall c <- before :: c in after && after[c].(consumedAt := before[c].consumedAt) == before[c]
                          && (before[c].consumedAt.Some? ==> after[c] == before[c])
  }

  ghost predicate NoncesEvolve(before: map<string, Nonce>, after: map<string, Nonce>) {
    forall n <- before :: n in after && (before[n].consumedAt.Some? ==> after[n] == before[n])
  }

  /** No statement removes a row or rewrites what is written once. */
  ghost predicate RowsKept(before: Tables, after: Tables) {
    && GrantsEvolve(before.grants, after.grants) && AccessEvolves(before.access, after.access)
    && NoncesEvolve(before.nonces, after.nonces)
  }

  // ------------------------------------------------------- the in-memory variant of state.go

  /** `MemoryStateStore.ExchangeGrant` builds the token without the forum host of the grant and
      overwrites an existing token with the same hash. */
  function ExchangeInMemory(db: Tables, codeHash: string, tenantId: string, tokenHash: string, expiry: Time, now: Time)
    : (Tables, Result<Access, Error>)
  {
    if !Redeemable(db, codeHash, tenantId, now) then (db, Err(InvalidGrant))
    else
      var g := db.grants[codeHash];
      var a := NewAccess(g, tokenHash, expiry).(forumHostId := "");
      (db.(grants := db.grants[codeHash := g.(consumedAt := Some(now))], access := db.access[tokenHash := a]), Ok(a))
  }

  /** `MemoryStateStore.PrepareAccess` writes both values, or neither if the token has an index. */
  function PrepareInMemory(db: Tables, tokenHash: string, index: int, issuedAt: Time, now: Time): Tables {
    if !LiveToken(db, tokenHash, now) || db.access[tokenHash].statusIndex.Some? then db
    else db.(access := db.access[tokenHash := db.access[tokenHash].(statusIndex := Some(index), issuedAt := Some(issuedAt))])
  }

  datatype MemoryOp =
    | MPutGrant(grant: Grant)
    | MExchange(codeHash: string, tenantId: string, tokenHash: string, expiry: Time, now: Time)
    | MPrepare(tokenHash: string, index: int, issuedAt: Time, now: Time)
    | MConsume(tokenHash: string, now: Time)

  function MemoryStep(db: Tables, op: MemoryOp): Tables {
    match op
    case MPutGrant(g) => PutGrant(db, g).0
    case MExchange(c, t, k, expiry, now) => ExchangeInMemory(db, c, t, k, expiry, now).0
    case MPrepare(k, index, issuedAt, now) => PrepareInMemory(db, k, index, issuedAt, now)
    case MConsume(k, now) => ConsumeAccess(db, k, now).0
  }

  function MemoryRun(db: Tables, ops: seq<MemoryOp>): Tables
    decreases |ops|
  {
    if ops == [] then db else MemoryRun(MemoryStep(db, ops[0]), ops[1..])
  }

  /** The holder and board binding that `Issue` demands of a token. */
  predicate Bound(a: Access, holder: string) {
    a.subjectDid == holder && a.forumHostId != "" && a.boardId != ""
  }

  lemma {:induction false} MemoryTokensNeverBound(db: Tables, ops: seq<MemoryOp>)
    requires forall k <- db.access :: db.access[k].forumHostId == ""
    ensures forall k <- MemoryRun(db, ops).access :: MemoryRun(db, ops).access[k].forumHostId == ""
    ensures forall k <- MemoryRun(db, ops).access, holder: string :: !Bound(MemoryRun(db, ops).access[k], holder)
    decreases |ops|
  {
    if ops != [] { MemoryTokensNeverBound(MemoryStep(db, ops[0]), ops[1..]); }
  }

  /** A token from the SQL store is bound to a holder exactly when its grant was made for that holder, a
      forum host and a board; one from the in-memory store never is. */
  lemma BoundIff(db: Tables, codeHash: string, tenantId: string, tokenHash: string, expiry: Time, now: Time, holder: string)
    requires ExchangeGrant(db, codeHash, tenantId, tokenHash, expiry, now).1.Ok?
    ensures var g := db.grants[codeHash];
            Bound(ExchangeGrant(db, codeHash, tenantId, tokenHash, expiry, now).1.value, holder)
            <==> g.subjectDid == holder && g.forumHostId != "" && g.boardId != ""
    ensures ExchangeInMemory(db, codeHash, tenantId, tokenHash, expiry, now).1.Ok?
            && !Bound(ExchangeInMemory(db, codeHash, tenantId, tokenHash, expiry, now).1.value, holder)
  {
  }
}
