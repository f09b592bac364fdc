/** Administrator capabilities (ansible_issuer/go/internal/hostedissuer/admin_capability.go). */
module AdminCapabilities {
  import opened Wrappers
  import Cursor

  type Time = int

  const AUDIENCE := "issuer.elix.cool/hosted-admin"
  const PREFIX := "eix_admin_v1_"
  const MAX_TTL: int := 5 * 60 * 1_000_000_000

  // ---------------------------------------------------------------------------------- scopes

  const ALLOWED: set<string> := {
    "issuer_admin:tenant", "issuer_admin:keys", "issuer_admin:admins", "issuer_admin:delegations",
    "issuer_admin:templates", "issuer_admin:issuance", "issuer_admin:status", "issuer_admin:audit"
  }

  /** Strictly increasing, so also without repetition. */
  ghost predicate Increasing(s: seq<string>) {
    forall i, j :: 0 <= i < j < |s| ==> Cursor.LexLess(s[i], s[j])
  }

  /** The canonical form: exactly the given scopes, each once, in order. */
  ghost predicate CanonicalOf(given: seq<string>, r: seq<string>) {
    Increasing(r) && forall x :: x in r <==> x in given
  }

  function InsertScope(x: string, s: seq<string>): seq<string> {
    if s == [] then [x]
    else if x == s[0] then s
    else if Cursor.LexLess(x, s[0]) then [x] + s
    else [s[0]] + InsertScope(x, s[1..])
  }

  /** `sort.Strings`. */
  function SortScopes(s: seq<string>): seq<string> {
    if s == [] then [] else InsertScope(s[0], SortScopes(s[1..]))
  }

  lemma {:induction false} InsertScopeSpec(x: string, s: seq<string>)
    requires Increasing(s)
    ensures Increasing(InsertScope(x, s)) && forall y :: y in InsertScope(x, s) <==> y == x || y in s
  {
    if s != [] && x != s[0] {
      Cursor.LexTotal(x, s[0]);
      if Cursor.LexLess(x, s[0]) {
        forall j | 0 < j < |s| ensures Cursor.LexLess(x, s[j]) { Cursor.LexTrans(x, s[0], s[j]); }
      } else {
        var tail := InsertScope(x, s[1..]);
        InsertScopeSpec(x, s[1..]);
        forall y <- tail ensures Cursor.LexLess(s[0], y) {
          if y != x { assert y in s[1..]; }
        }
      }
    }
  }

  lemma {:induction false} SortScopesSpec(s: seq<string>)
    ensures CanonicalOf(s, SortScopes(s))
  {
    if s != [] {
      SortScopesSpec(s[1..]);
      InsertScopeSpec(s[0], SortScopes(s[1..]));
    }
  }

  lemma LeastFirst(s: seq<string>, x: string)
    requires Increasing(s) && x in s
    ensures x == s[0] || Cursor.LexLess(s[0], x)
    ensures x in s[1..] <==> x != s[0]
  {
    Cursor.LexTotal(s[0], s[0]);
    var i :| 0 <= i < |s| && s[i] == x;
    if x in s[1..] { var j :| 0 <= j < |s[1..]| && s[1..][j] == x; assert s[j + 1] == x; }
    if i > 0 { assert s[1..][i - 1] == x; }
  }

  /** There is one canonical form: order and repetition of the given scopes do not matter. */
  lemma {:induction false} CanonicalUnique(a: seq<string>, b: seq<string>)
    requires Increasing(a) && Increasing(b) && forall x :: x in a <==> x in b
    ensures a == b
  {
    assert (a == [] || a[0] in a) && (b == [] || b[0] in b);
    if a != [] {
      LeastFirst(a, b[0]);
      LeastFirst(b, a[0]);
      Cursor.LexTotal(a[0], b[0]);
      forall x ensures x in a[1..] <==> x in b[1..] {
        if x in a { LeastFirst(a, x); LeastFirst(b, x); }
      }
      CanonicalUnique(a[1..], b[1..]);
      assert a == [a[0]] + a[1..] && b == [b[0]] + b[1..];
    }
  }

  /** The validation loop: refuses an unknown scope, otherwise returns the canonical form; applied to
      its own result it changes nothing. */
  method ValidateAdminScopes(scopes: seq<string>) returns (r: Option<seq<string>>)
    ensures r.Some? <==> forall x <- scopes :: x in ALLOWED
    ensures r.Some? ==> CanonicalOf(scopes, r.value)
    ensures r.Some? && Increasing(scopes) ==> r.value == scopes
  {
    var seen: set<string> := {};
    var result: seq<string> := [];
    for i := 0 to |scopes|
      invariant forall x :: x in seen <==> x in scopes[..i]
      invariant forall x :: x in result <==> x in seen
      invariant forall x <- scopes[..i] :: x in ALLOWED
    {
      if scopes[i] !in ALLOWED {
        assert scopes[i] in scopes;
        return None;
      }
      if scopes[i] !in seen {
        seen := seen + {scopes[i]};
        result := result + [scopes[i]];
      }
      assert scopes[..i + 1] == scopes[..i] + [scopes[i]];
    }
    assert scopes[..|scopes|] == scopes;
    SortScopesSpec(result);
    if Increasing(scopes) { CanonicalUnique(scopes, SortScopes(result)); }
    r := Some(SortScopes(result));
  }

  function Canonical(scopes: seq<string>): Option<seq<string>> {
    if forall x <- scopes :: x in ALLOWED then Some(SortScopes(scopes)) else None
  }

  // ----------------------------------------------------------------------------- capabilities

  datatype Capability = Capability(tokenHash: string, tenantId: string, adminDid: string, scopes: seq<string>,
                                   audience: string, expiresAt: Time, revokedAt: Option<Time>)
  datatype Error = CapabilityInvalid | CapabilityScope

  type Store = map<string, Capability>

  function EffectiveTtl(ttl: int): int {
    if ttl <= 0 || ttl > MAX_TTL then MAX_TTL else ttl
  }

  /** The token's hash stands for the token. */
  function Issue(s: Store, tenant: string, admin: string, scopes: seq<string>, ttl: int, hash: string, now: Time)
    : (Store, Result<Capability, Error>)
  {
    if tenant == "" || admin == "" || scopes == [] then (s, Err(CapabilityInvalid))
    else if Canonical(scopes).None? then (s, Err(CapabilityScope))
    else
      var c := Capability(hash, tenant, admin, Canonical(scopes).value, AUDIENCE, now + EffectiveTtl(ttl), None);
      (s[hash := c], Ok(c))
  }

  /** `hash` is the digest of `token`. */
  function Authorize(s: Store, token: string, hash: string, tenant: string, scope: string, now: Time)
    : Result<Capability, Error>
  {
    if !(PREFIX <= token) || tenant == "" || hash !in s then Err(CapabilityInvalid)
    else
      var c := s[hash];
      if c.tenantId != tenant || c.audience != AUDIENCE || c.revokedAt.Some? || now >= c.expiresAt then Err(CapabilityInvalid)
      else if scope in c.scopes then Ok(c) else Err(CapabilityScope)
  }

  function RevokedBy(c: Capability, tenant: string, admin: string, now: Time): Capability {
    if c.tenantId == tenant && c.adminDid == admin then c.(revokedAt := Some(now)) else c
  }

  function Revoke(s: Store, tenant: string, admin: string, now: Time): Store {
    map h | h in s :: RevokedBy(s[h], tenant, admin, now)
  }

  class MemoryAdminCapabilityStore {
    var byHash: Store

    constructor ()
      ensures byHash == map[]
    {
      byHash := map[];
    }

    method PutAdminCapability(c: Capability)
      modifies this
      ensures byHash == old(byHash)[c.tokenHash := c]
    {
      byHash := byHash[c.tokenHash := c];
    }

    method IssueCapability(tenant: string, admin: string, scopes: seq<string>, ttl: int, hash: string, now: Time)
      returns (r: Result<Capability, Error>)
      modifies this
      ensures (byHash, r) == Issue(old(byHash), tenant, admin, scopes, ttl, hash, now)
    {
      if tenant == "" || admin == "" || |scopes| == 0 { return Err(CapabilityInvalid); }
      var lifetime := ttl;
      if ttl <= 0 || ttl > MAX_TTL { lifetime := MAX_TTL; }
      var canonical := ValidateAdminScopes(scopes);
      if canonical.None? { return Err(CapabilityScope); }
      SortScopesSpec(scopes);
      CanonicalUnique(canonical.value, SortScopes(scopes));
      var c := Capability(hash, tenant, admin, canonical.value, AUDIENCE, now + lifetime, None);
      PutAdminCapability(c);
      return Ok(c);
    }

    method AuthorizeCapability(token: string, hash: string, tenant: string, scope: string, now: Time)
      returns (r: Result<Capability, Error>)
      ensures r == Authorize(byHash, token, hash, tenant, scope, now)
    {
      if !(PREFIX <= token) || tenant == "" { return Err(CapabilityInvalid); }
      if hash !in byHash { return Err(CapabilityInvalid); }
      var c := byHash[hash];
      if c.tenantId != tenant || c.audience != AUDIENCE || c.revokedAt.Some? || now >= c.expiresAt {
        return Err(CapabilityInvalid);
      }
      for i := 0 to |c.scopes|
        invariant scope !in c.scopes[..i]
      {
        if c.scopes[i] == scope { return Ok(c); }
      }
      return Err(CapabilityScope);
    }

    method RevokeAdminCapabilities(tenant: string, admin: string, now: Time)
      modifies this
      ensures byHash == Revoke(old(byHash), tenant, admin, now)
    {
      ghost var before := byHash;
      var left := byHash.Keys;
      while left != {}
        invariant left <= before.Keys && byHash.Keys == before.Keys
        invariant forall h <- before :: byHash[h] == if h in left then before[h] else RevokedBy(before[h], tenant, admin, now)
        decreases left
      {
        var h :| h in left;
        left := left - {h};
        if byHash[h].tenantId == tenant && byHash[h].adminDid == admin {
          byHash := byHash[h := byHash[h].(revokedAt := Some(now))];
        }
      }
    }
  }

  /** In any store a token is authorized exactly with the prefix, for the tenant, audience and a scope of its capability,
      before its expiry and unless it is revoked; an unfitting scope is told apart from everything else. */
  lemma AuthorizeMeans(s: Store, token: string, hash: string, tenant: string, scope: string, now: Time)
    ensures var r := Authorize(s, token, hash, tenant, scope, now);
      var valid := "eix_admin_v1_" <= token && tenant != "" && hash in s && s[hash].tenantId == tenant
                   && s[hash].audience == "issuer.elix.cool/hosted-admin" && s[hash].revokedAt == None && now < s[hash].expiresAt;
      && (r.Ok? <==> valid && exists i :: 0 <= i < |s[hash].scopes| && s[hash].scopes[i] == scope)
      && (r.Ok? ==> r.value == s[hash])
      && (r == Err(CapabilityInvalid) <==> !valid)
  {
  }

  // -------------------------------------------------------------------------------------- runs

  datatype Op =
    | Issuing(tenant: string, admin: string, scopes: seq<string>, ttl: int, hash: string)
    | Revoking(tenant: string, admin: string)

  datatype Call = Call(op: Op, now: Time)

  function Step(s: Store, c: Call): Store {
    match c.op
    case Issuing(tenant, admin, scopes, ttl, hash) => Issue(s, tenant, admin, scopes, ttl, hash, c.now).0
    case Revoking(tenant, admin) => Revoke(s, tenant, admin, c.now)
  }

  /** The store after the first `n` calls. */
  function At(calls: seq<Call>, n: nat): Store
    requires n <= |calls|
  {
    if n == 0 then map[] else Step(At(calls, n - 1), calls[n - 1])
  }

  predicate Accepted(op: Op) {
    op.Issuing? && op.tenant != "" && op.admin != "" && op.scopes != [] && forall x <- op.scopes :: x in ALLOWED
  }

  /** Call `i` is the last accepted one, among the first `n`, that issued a token with this hash. */
  ghost predicate LastIssue(calls: seq<Call>, i: nat, n: nat, hash: string) {
    && i < n <= |calls| && Accepted(calls[i].op) && calls[i].op.hash == hash
    && forall j :: i < j < n ==> !(Accepted(calls[j].op) && calls[j].op.hash == hash)
  }

  ghost predicate NotRevokedSince(calls: seq<Call>, i: nat, n: nat, tenant: string, admin: string)
    requires n <= |calls|
  {
    forall j :: i < j < n ==> calls[j].op != Revoking(tenant, admin)
  }

  /** The entry `c` is what call `i` issued, revoked exactly when its administrator was revoked since. */
  ghost predicate Origin(calls: seq<Call>, i: nat, n: nat, hash: string, c: Capability) {
    && LastIssue(calls, i, n, hash)
    && c.tenantId == calls[i].op.tenant && c.adminDid == calls[i].op.admin && c.audience == AUDIENCE
    && c.expiresAt == calls[i].now + EffectiveTtl(calls[i].op.ttl)
    && (forall x :: x in c.scopes <==> x in calls[i].op.scopes)
    && (c.revokedAt.None? <==> NotRevokedSince(calls, i, n, c.tenantId, c.adminDid))
  }

  lemma IssueOrigin(calls: seq<Call>, n: nat)
    requires n < |calls| && Accepted(calls[n].op)
    ensures calls[n].op.hash in At(calls, n + 1)
    ensures Origin(calls, n, n + 1, calls[n].op.hash, At(calls, n + 1)[calls[n].op.hash])
  {
    SortScopesSpec(calls[n].op.scopes);
  }

  /** What a call that does not issue this token does to its entry. */
  lemma StepEntry(s: Store, c: Call, hash: string)
    requires hash in s && !(Accepted(c.op) && c.op.hash == hash)
    ensures hash in Step(s, c)
    ensures Step(s, c)[hash] == s[hash] ||
            (c.op == Revoking(s[hash].tenantId, s[hash].adminDid) && Step(s, c)[hash] == s[hash].(revokedAt := Some(c.now)))
    ensures c.op == Revoking(s[hash].tenantId, s[hash].adminDid) ==> Step(s, c)[hash].revokedAt.Some?
  {
  }

  /** The store of a run: each token's entry goes back to the last call that issued it. */
  lemma {:induction false} RunOrigin(calls: seq<Call>, i: nat, n: nat, hash: string)
    requires LastIssue(calls, i, n, hash)
    ensures hash in At(calls, n) && Origin(calls, i, n, hash, At(calls, n)[hash])
  {
    hide Step, EffectiveTtl, Accepted;
    if i == n - 1 {
      IssueOrigin(calls, i);
    } else {
      assert LastIssue(calls, i, n - 1, hash);
      RunOrigin(calls, i, n - 1, hash);
      StepEntry(At(calls, n - 1), calls[n - 1], hash);
      var c := At(calls, n - 1)[hash];
      assert NotRevokedSince(calls, i, n, c.tenantId, c.adminDid)
        <==> NotRevokedSince(calls, i, n - 1, c.tenantId, c.adminDid) && calls[n - 1].op != Revoking(c.tenantId, c.adminDid);
    }
  }

  lemma {:induction false} EntryIssued(calls: seq<Call>, n: nat, hash: string)
    requires n <= |calls| && hash in At(calls, n)
    ensures exists i: nat :: LastIssue(calls, i, n, hash)
  {
    hide SortScopes;
    if Accepted(calls[n - 1].op) && calls[n - 1].op.hash == hash {
      assert LastIssue(calls, n - 1, n, hash);
    } else {
      EntryIssued(calls, n - 1, hash);
      var i: nat :| LastIssue(calls, i, n - 1, hash);
      assert LastIssue(calls, i, n, hash);
    }
  }

  /** The token issued by call `i` still holds: for that tenant and scope, unexpired (so issued less than five
      minutes ago), and with no revocation of its administrator since. */
  ghost predicate Holds(calls: seq<Call>, i: nat, hash: string, tenant: string, scope: string, now: Time) {
    && LastIssue(calls, i, |calls|, hash)
    && calls[i].op.tenant == tenant && scope in calls[i].op.scopes
    && now < calls[i].now + (if 0 < calls[i].op.ttl <= 300_000_000_000 then calls[i].op.ttl else 300_000_000_000)
    && NotRevokedSince(calls, i, |calls|, tenant, calls[i].op.admin)
  }

  /** Whatever was issued and revoked before, an authorization succeeds exactly for a prefixed token that
      still holds. */
  lemma AuthorizedIff(calls: seq<Call>, token: string, hash: string, tenant: string, scope: string, now: Time)
    ensures Authorize(At(calls, |calls|), token, hash, tenant, scope, now).Ok?
       <==> PREFIX <= token && exists i: nat :: Holds(calls, i, hash, tenant, scope, now)
  {
    if hash in At(calls, |calls|) {
      EntryIssued(calls, |calls|, hash);
      var i: nat :| LastIssue(calls, i, |calls|, hash);
      RunOrigin(calls, i, |calls|, hash);
      forall k: nat | Holds(calls, k, hash, tenant, scope, now) ensures k == i {}
      assert Authorize(At(calls, |calls|), token, hash, tenant, scope, now).Ok?
        <==> PREFIX <= token && Holds(calls, i, hash, tenant, scope, now);
    } else {
      forall k: nat | LastIssue(calls, k, |calls|, hash) ensures false { RunOrigin(calls, k, |calls|, hash); }
    }
  }
}
