/** Key delegations in the SQL store (ansible_issuer/go/internal/hostedissuer/postgres_store.go:494-593).

    Each statement or transaction is one atomic step on the rows. Unlike the in-memory store, these
    steps only move a delegation forward. */
module PostgresDelegations {
  type Time = int

  datatype State = Proposed | Active | Superseded | Revoked
  datatype TenantStatus = Draft | TenantActive | Paused | Closed

  datatype Delegation = Delegation(id: string, tenantId: string, signingKeyId: string, sequence: int,
                                   payloadHash: string, notBefore: Time, expiresAt: Time, state: State,
                                   signatures: map<string, seq<int>>)
  datatype Tenant = Tenant(threshold: int, status: TenantStatus)

  /** `activeAdmins` holds the (tenant, did) pairs whose administrator row is active; `keys` the signing
      keys of each tenant. */
  datatype Rows = Rows(tenants: map<string, Tenant>, activeAdmins: set<(string, string)>, keys: set<(string, string)>,
                       delegations: map<string, Delegation>)

  datatype Error = NotFound | ThresholdNotMet | TenantScope | Replay | ForeignKey
  datatype Outcome = Done | Failed(error: Error)

  // ----------------------------------------------------------------------------- transactions

  /** The primary key and the two UNIQUE constraints of the table. */
  predicate Unique(rows: Rows, tenant: string, d: Delegation) {
    d.id !in rows.delegations
    && forall k <- rows.delegations :: rows.delegations[k].tenantId == tenant ==>
         rows.delegations[k].sequence != d.sequence && rows.delegations[k].payloadHash != d.payloadHash
  }

  function Propose(rows: Rows, tenant: string, d: Delegation): (Rows, Outcome) {
    if d.tenantId != "" && d.tenantId != tenant then (rows, Failed(TenantScope))
    else if !Unique(rows, tenant, d) then (rows, Failed(Replay))
    else if tenant !in rows.tenants || (tenant, d.signingKeyId) !in rows.keys then (rows, Failed(ForeignKey))
    else
      (rows.(delegations := rows.delegations[d.id := d.(tenantId := tenant, state := Proposed, signatures := map[])]), Done)
  }

  predicate Belongs(rows: Rows, tenant: string, id: string) {
    id in rows.delegations && rows.delegations[id].tenantId == tenant
  }

  function Approve(rows: Rows, tenant: string, id: string, admin: string, signature: seq<int>): (Rows, Outcome) {
    if !Belongs(rows, tenant, id) || rows.delegations[id].state != Proposed || (tenant, admin) !in rows.activeAdmins
    then (rows, Failed(NotFound))
    else
      var d := rows.delegations[id];
      (rows.(delegations := rows.delegations[id := d.(signatures := d.signatures[admin := signature])]), Done)
  }

  function Demoted(d: Delegation, tenant: string): Delegation {
    if d.tenantId == tenant && d.state == Active then d.(state := Superseded) else d
  }

  function Activate(rows: Rows, tenant: string, id: string, now: Time): (Rows, Outcome) {
    if !Belongs(rows, tenant, id) || tenant !in rows.tenants || rows.delegations[id].state != Proposed
       || rows.delegations[id].notBefore > now || rows.delegations[id].expiresAt <= now
    then (rows, Failed(NotFound))
    else if |rows.delegations[id].signatures| < rows.tenants[tenant].threshold then (rows, Failed(ThresholdNotMet))
    else
      var demoted := map k | k in rows.delegations :: Demoted(rows.delegations[k], tenant);
      (rows.(delegations := demoted[id := rows.delegations[id].(state := Active)],
             tenants := rows.tenants[tenant := rows.tenants[tenant].(status := TenantActive)]), Done)
  }

  function Revoke(rows: Rows, tenant: string, id: string): (Rows, Outcome) {
    if !Belongs(rows, tenant, id) then (rows, Failed(NotFound))
    else
      var d := rows.delegations[id];
      (rows.(delegations := rows.delegations[id := d.(state := Revoked)],
             tenants := if d.state == Active && tenant in rows.tenants
                        then rows.tenants[tenant := rows.tenants[tenant].(status := Paused)] else rows.tenants), Done)
  }

  datatype Op =
    | Proposing(tenant: string, delegation: Delegation)
    | Approving(tenant: string, id: string, admin: string, signature: seq<int>)
    | Activating(tenant: string, id: string, now: Time)
    | Revoking(tenant: string, id: string)
    | AddingTenant(tenant: string, row: Tenant)
    | SettingAdmin(tenant: string, admin: string, active: bool)
    | AddingKey(tenant: string, key: string)

  function Step(rows: Rows, op: Op): (Rows, Outcome) {
    match op
    case Proposing(t, d) => Propose(rows, t, d)
    case Approving(t, id, admin, signature) => Approve(rows, t, id, admin, signature)
    case Activating(t, id, now) => Activate(rows, t, id, now)
    case Revoking(t, id) => Revoke(rows, t, id)
    case AddingTenant(t, row) =>
      if t in rows.tenants || row.threshold < 1 then (rows, Failed(Replay)) else (rows.(tenants := rows.tenants[t := row]), Done)
    case SettingAdmin(t, admin, active) =>
      (rows.(activeAdmins := if active then rows.activeAdmins + {(t, admin)} else rows.activeAdmins - {(t, admin)}), Done)
    case AddingKey(t, key) => (rows.(keys := rows.keys + {(t, key)}), Done)
  }

  // ------------------------------------------------------------------------------ the object

  class PostgresStore {
    var tenants: map<string, Tenant>
    var activeAdmins: set<(string, string)>
    var keys: set<(string, string)>
    var delegations: map<string, Delegation>

    ghost function Table(): Rows
      reads this
    {
      Rows(tenants, activeAdmins, keys, delegations)
    }

    method ProposeDelegation(tenant: string, d: Delegation) returns (r: Outcome)
      modifies this
      ensures (Table(), r) == Propose(old(Table()), tenant, d)
      ensures Inv(old(Table())) ==> Inv(Table()) && AllForward(old(delegations), delegations)
    {
      hide Inv, AllForward;
      if Inv(Table()) { ProposeForward(Table(), tenant, d); }
      if d.tenantId != "" && d.tenantId != tenant { return Failed(TenantScope); }
      if !Unique(Rows(tenants, activeAdmins, keys, delegations), tenant, d) { return Failed(Replay); }
      if tenant !in tenants || (tenant, d.signingKeyId) !in keys { return Failed(ForeignKey); }
      delegations := delegations[d.id := d.(tenantId := tenant, state := Proposed, signatures := map[])];
      return Done;
    }

    method ApproveDelegation(tenant: string, id: string, admin: string, signature: seq<int>) returns (r: Outcome)
      modifies this
      ensures (Table(), r) == Approve(old(Table()), tenant, id, admin, signature)
      ensures Inv(old(Table())) ==> Inv(Table()) && AllForward(old(delegations), delegations)
    {
      hide Inv, AllForward;
      if Inv(Table()) { ApproveForward(Table(), tenant, id, admin, signature); }
      if id !in delegations || delegations[id].tenantId != tenant || delegations[id].state != Proposed
         || (tenant, admin) !in activeAdmins { return Failed(NotFound); }
      var d := delegations[id];
      delegations := delegations[id := d.(signatures := d.signatures[admin := signature])];
      return Done;
    }

    /** Supersede every active row of the tenant, then activate this one. */
    method ActivateDelegation(tenant: string, id: string, now: Time) returns (r: Outcome)
      modifies this
      ensures (Table(), r) == Activate(old(Table()), tenant, id, now)
      ensures Inv(old(Table())) ==> Inv(Table()) && AllForward(old(delegations), delegations)
    {
      hide Inv, AllForward;
      if Inv(Table()) { ActivateForward(Table(), tenant, id, now); }
      if id !in delegations || delegations[id].tenantId != tenant || tenant !in tenants
         || delegations[id].state != Proposed || delegations[id].notBefore > now || delegations[id].expiresAt <= now {
        return Failed(NotFound);
      }
      if |delegations[id].signatures| < tenants[tenant].threshold { return Failed(ThresholdNotMet); }
      var d := delegations[id];
      delegations := map k | k in delegations :: Demoted(delegations[k], tenant);
      delegations := delegations[id := d.(state := Active)];
      tenants := tenants[tenant := tenants[tenant].(status := TenantActive)];
      return Done;
    }

    method RevokeDelegation(tenant: string, id: string) returns (r: Outcome)
      modifies this
      ensures (Table(), r) == Revoke(old(Table()), tenant, id)
      ensures Inv(old(Table())) ==> Inv(Table()) && AllForward(old(delegations), delegations)
    {
      hide Inv, AllForward;
      if Inv(Table()) { RevokeForward(Table(), tenant, id); }
      if id !in delegations || delegations[id].tenantId != tenant { return Failed(NotFound); }
      var d := delegations[id];
      delegations := delegations[id := d.(state := Revoked)];
      if d.state == Active && tenant in tenants {
        tenants := tenants[tenant := tenants[tenant].(status := Paused)];
      }
      return Done;
    }
  }

  // --------------------------------------------------------------------------------- effects

  /** A proposal is filed exactly when it names the tenant or none, its id, sequence and payload are new, and tenant
      and key exist; it is filed as proposed and unsigned, and nothing else changes. */
  lemma ProposeEffect(rows: Rows, tenant: string, d: Delegation)
    ensures var (rows', r) := Propose(rows, tenant, d);
      && (r == Done <==>
            && (d.tenantId == "" || d.tenantId == tenant) && d.id !in rows.delegations
            && (forall k <- rows.delegations :: rows.delegations[k].tenantId == tenant ==>
                  rows.delegations[k].sequence != d.sequence && rows.delegations[k].payloadHash != d.payloadHash)
            && tenant in rows.tenants && (tenant, d.signingKeyId) in rows.keys)
      && (r != Done ==> rows' == rows)
      && (r == Done ==>
            && d.id in rows'.delegations
            && rows'.delegations[d.id] == Delegation(d.id, tenant, d.signingKeyId, d.sequence, d.payloadHash, d.notBefore,
                                                     d.expiresAt, Proposed, map[])
            && rows'.delegations - {d.id} == rows.delegations
            && rows'.tenants == rows.tenants && rows'.activeAdmins == rows.activeAdmins && rows'.keys == rows.keys)
  {
  }

  /** An approval counts exactly for a proposed delegation of the tenant and an active administrator of it; the
      signature is stored under the administrator's DID, and nothing else changes. */
  lemma ApproveEffect(rows: Rows, tenant: string, id: string, admin: string, signature: seq<int>)
    ensures var (rows', r) := Approve(rows, tenant, id, admin, signature);
      && (r == Done <==>
            && id in rows.delegations && rows.delegations[id].tenantId == tenant && rows.delegations[id].state == Proposed
            && (tenant, admin) in rows.activeAdmins)
      && (r != Done ==> rows' == rows)
      && (r == Done ==>
            && rows'.delegations.Keys == rows.delegations.Keys
            && rows'.delegations[id].signatures == rows.delegations[id].signatures[admin := signature]
            && rows'.delegations[id].(signatures := rows.delegations[id].signatures) == rows.delegations[id]
            && (forall k <- rows.delegations :: k != id ==> rows'.delegations[k] == rows.delegations[k])
            && rows'.tenants == rows.tenants && rows'.activeAdmins == rows.activeAdmins && rows'.keys == rows.keys)
  {
  }

  /** Activation succeeds exactly for a proposed delegation of an existing tenant, inside its period and with a
      threshold of signatures; it alone becomes active, what was active for the tenant is superseded, the tenant
      becomes active, and nothing else changes. */
  lemma ActivateEffect(rows: Rows, tenant: string, id: string, now: Time)
    ensures var (rows', r) := Activate(rows, tenant, id, now);
      && (r == Done <==>
            && id in rows.delegations && rows.delegations[id].tenantId == tenant && tenant in rows.tenants
            && rows.delegations[id].state == Proposed
            && rows.delegations[id].notBefore <= now < rows.delegations[id].expiresAt
            && |rows.delegations[id].signatures| >= rows.tenants[tenant].threshold)
      && (r != Done ==> rows' == rows)
      && (r == Done ==>
            && rows'.delegations.Keys == rows.delegations.Keys
            && rows'.delegations[id].state == Active
            && (forall k <- rows.delegations :: rows'.delegations[k].(state := rows.delegations[k].state) == rows.delegations[k])
            && (forall k <- rows.delegations :: k != id ==>
                  rows'.delegations[k].state == if rows.delegations[k].tenantId == tenant && rows.delegations[k].state == Active
                                                then Superseded else rows.delegations[k].state)
            && rows'.tenants == rows.tenants[tenant := Tenant(rows.tenants[tenant].threshold, TenantActive)]
            && rows'.activeAdmins == rows.activeAdmins && rows'.keys == rows.keys)
  {
  }

  /** Revocation succeeds exactly for a delegation of the tenant, in whatever state; it becomes revoked, no other
      row changes, and the tenant is paused exactly when the delegation was active. */
  lemma RevokeEffect(rows: Rows, tenant: string, id: string)
    ensures var (rows', r) := Revoke(rows, tenant, id);
      && (r == Done <==> id in rows.delegations && rows.delegations[id].tenantId == tenant)
      && (r != Done ==> rows' == rows)
      && (r == Done ==>
            && rows'.delegations.Keys == rows.delegations.Keys
            && rows'.delegations[id].state == Revoked
            && rows'.delegations[id].(state := rows.delegations[id].state) == rows.delegations[id]
            && (forall k <- rows.delegations :: k != id ==> rows'.delegations[k] == rows.delegations[k])
            && rows'.tenants.Keys == rows.tenants.Keys
            && (forall t <- rows.tenants :: rows'.tenants[t].threshold == rows.tenants[t].threshold
                  && rows'.tenants[t].status == if t == tenant && rows.delegations[id].state == Active then Paused
                                                else rows.tenants[t].status)
            && rows'.activeAdmins == rows.activeAdmins && rows'.keys == rows.keys)
  {
  }

  // ------------------------------------------------------------------------------- lifecycle

  function Rank(s: State): nat {
    match s case Proposed => 0 case Active => 1 case Superseded => 2 case Revoked => 3
  }

  /** The row only moves forward; its content is fixed, and its signatures freeze once it leaves proposed. */
  ghost predicate Forward(a: Delegation, b: Delegation) {
    && b.(state := a.state, signatures := a.signatures) == a
    && Rank(a.state) <= Rank(b.state)
    && (a.state != Proposed ==> b.signatures == a.signatures)
    && a.signatures.Keys <= b.signatures.Keys
  }

  ghost predicate AllForward(a: map<string, Delegation>, b: map<string, Delegation>) {
    forall k <- a :: k in b && Forward(a[k], b[k])
  }

  ghost predicate OneActive(ds: map<string, Delegation>) {
    forall j, k :: (j in ds && k in ds && ds[j].tenantId == ds[k].tenantId
                    && ds[j].state == Active && ds[k].state == Active) ==> j == k
  }

  /** A row's tenant exists; an active row has a threshold of signatures and an active tenant. */
  ghost predicate RowFits(tenants: map<string, Tenant>, d: Delegation) {
    && d.tenantId in tenants
    && (d.state == Active ==>
          tenants[d.tenantId].status == TenantActive && |d.signatures| >= tenants[d.tenantId].threshold)
  }

  ghost predicate Inv(rows: Rows) {
    OneActive(rows.delegations) && forall k <- rows.delegations :: RowFits(rows.tenants, rows.delegations[k])
  }

  lemma ActivateOne(ds: map<string, Delegation>, tenant: string, id: string)
    requires OneActive(ds) && id in ds && ds[id].tenantId == tenant && ds[id].state == Proposed
    ensures var ds' := (map k | k in ds :: Demoted(ds[k], tenant))[id := ds[id].(state := Active)];
            ds'.Keys == ds.Keys && OneActive(ds') && AllForward(ds, ds')
  {
  }

  lemma ActivateForward(rows: Rows, tenant: string, id: string, now: Time)
    requires Inv(rows)
    ensures Inv(Activate(rows, tenant, id, now).0)
    ensures AllForward(rows.delegations, Activate(rows, tenant, id, now).0.delegations)
  {
    hide OneActive, AllForward;
    ForwardRefl(rows.delegations);
    var (rows', r) := Activate(rows, tenant, id, now);
    if r == Done {
      ActivateOne(rows.delegations, tenant, id);
      forall k <- rows'.delegations ensures RowFits(rows'.tenants, rows'.delegations[k]) {
        assert RowFits(rows.tenants, rows.delegations[k]);
      }
    }
  }

  lemma ApproveForward(rows: Rows, tenant: string, id: string, admin: string, signature: seq<int>)
    requires Inv(rows)
    ensures Inv(Approve(rows, tenant, id, admin, signature).0)
    ensures AllForward(rows.delegations, Approve(rows, tenant, id, admin, signature).0.delegations)
  {
    var rows' := Approve(rows, tenant, id, admin, signature).0;
    forall k <- rows'.delegations ensures RowFits(rows'.tenants, rows'.delegations[k]) {
      assert RowFits(rows.tenants, rows.delegations[k]);
    }
  }

  lemma ProposeForward(rows: Rows, tenant: string, d: Delegation)
    requires Inv(rows)
    ensures Inv(Propose(rows, tenant, d).0)
    ensures AllForward(rows.delegations, Propose(rows, tenant, d).0.delegations)
  {
    var rows' := Propose(rows, tenant, d).0;
    forall k <- rows'.delegations ensures RowFits(rows'.tenants, rows'.delegations[k]) {
      if k in rows.delegations { assert RowFits(rows.tenants, rows.delegations[k]); }
    }
  }

  lemma RevokeForward(rows: Rows, tenant: string, id: string)
    requires Inv(rows)
    ensures Inv(Revoke(rows, tenant, id).0)
    ensures AllForward(rows.delegations, Revoke(rows, tenant, id).0.delegations)
  {
    var rows' := Revoke(rows, tenant, id).0;
    forall k <- rows'.delegations ensures RowFits(rows'.tenants, rows'.delegations[k]) {
      assert RowFits(rows.tenants, rows.delegations[k]);
    }
  }

  lemma ForwardRefl(ds: map<string, Delegation>)
    ensures AllForward(ds, ds)
  {
  }

  /** Every transaction keeps the invariant and moves every row forward or not at all. */
  lemma StepForward(rows: Rows, op: Op)
    requires Inv(rows)
    ensures Inv(Step(rows, op).0) && AllForward(rows.delegations, Step(rows, op).0.delegations)
  {
    hide Propose, Approve, Activate, Revoke, AllForward;
    ForwardRefl(rows.delegations);
    match op
    case Proposing(t, d) => ProposeForward(rows, t, d);
    case Approving(t, id, admin, signature) => ApproveForward(rows, t, id, admin, signature);
    case Activating(t, id, now) => ActivateForward(rows, t, id, now);
    case Revoking(t, id) => RevokeForward(rows, t, id);
    case _ =>
  }

  function Run(rows: Rows, ops: seq<Op>): Rows
    decreases |ops|
  {
    if ops == [] then rows else Run(Step(rows, ops[0]).0, ops[1..])
  }

  lemma ForwardTrans(a: map<string, Delegation>, b: map<string, Delegation>, c: map<string, Delegation>)
    requires AllForward(a, b) && AllForward(b, c)
    ensures AllForward(a, c)
  {
  }

  /** Over every run: at most one active delegation per tenant, and every row moves only upward in
      proposed < active < superseded < revoked, with its signatures frozen once it leaves proposed. */
  lemma {:induction false} LifecycleInEveryRun(rows: Rows, ops: seq<Op>)
    requires Inv(rows)
    ensures Inv(Run(rows, ops)) && AllForward(rows.delegations, Run(rows, ops).delegations)
    decreases |ops|
  {
    hide Inv, AllForward, Step;
    if ops == [] {
      ForwardRefl(rows.delegations);
    } else {
      StepForward(rows, ops[0]);
      LifecycleInEveryRun(Step(rows, ops[0]).0, ops[1..]);
      ForwardTrans(rows.delegations, Step(rows, ops[0]).0.delegations, Run(rows, ops).delegations);
    }
  }

  /** So a superseded or revoked delegation is never active again. */
  lemma NeverActiveAgain(rows: Rows, ops: seq<Op>, id: string)
    requires Inv(rows) && id in rows.delegations && rows.delegations[id].state in {Superseded, Revoked}
    ensures id in Run(rows, ops).delegations && Run(rows, ops).delegations[id].state != Active
    ensures rows.delegations[id].state == Revoked ==> Run(rows, ops).delegations[id].state == Revoked
    ensures Run(rows, ops).delegations[id].signatures == rows.delegations[id].signatures
  {
    hide Run;
    LifecycleInEveryRun(rows, ops);
    assert Forward(rows.delegations[id], Run(rows, ops).delegations[id]);
  }

  lemma {:induction false} RunSplit(rows: Rows, ops: seq<Op>, n: nat)
    requires n <= |ops|
    ensures Run(rows, ops) == Run(Run(rows, ops[..n]), ops[n..])
    decreases |ops|
  {
    hide Step;
    if n == 0 {
      assert ops[0..] == ops;
    } else {
      assert ops[1..][..n - 1] == ops[..n][1..] && ops[1..][n - 1..] == ops[n..];
      RunSplit(Step(rows, ops[0]).0, ops[1..], n - 1);
    }
  }

  /** Over every run, once a revocation has succeeded the delegation is revoked at every later point, with the
      signatures it had. */
  lemma RevokedForGood(rows: Rows, ops: seq<Op>, i: nat, n: nat, tenant: string, id: string)
    requires Inv(rows) && i < n <= |ops| && ops[i] == Revoking(tenant, id)
    requires Step(Run(rows, ops[..i]), ops[i]).1 == Done
    ensures var before, later := Run(rows, ops[..i]), Run(rows, ops[..n]);
      && id in before.delegations && id in later.delegations && later.delegations[id].state == Revoked
      && later.delegations[id].signatures == before.delegations[id].signatures
  {
    hide Run, Inv, Revoke;
    LifecycleInEveryRun(rows, ops[..i]);
    var before := Run(rows, ops[..i]);
    StepForward(before, ops[i]);
    RevokeEffect(before, tenant, id);
    var after := Step(before, ops[i]).0;
    assert ops[..n][..i] == ops[..i] && ops[..n][i..] == ops[i..n];
    RunSplit(rows, ops[..n], i);
    RunFirst(before, ops[i..n]);
    NeverActiveAgain(after, ops[i..n][1..], id);
  }

  lemma RunFirst(rows: Rows, ops: seq<Op>)
    requires ops != []
    ensures Run(rows, ops) == Run(Step(rows, ops[0]).0, ops[1..])
  {
  }
}
