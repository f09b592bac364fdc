/** The one-time-password store (ansible_issuer/go/internal/otp/store.go).

    `Step` specifies one call at one clock reading; its `sweep` flag switches the sweep inside
    `Issue` off, to compare with a store that never sweeps. */
module Otp {
  import opened Wrappers

  type Time = int

  const MAX_ATTEMPTS: nat := 5

  datatype Entry = Entry(email: string, code: string, expiresAt: Time, attempts: nat)
  type Store = map<string, Entry>

  datatype Op =
    | Issue(did: string, email: string, code: string)
    | Verify(did: string, email: string, code: string)

  datatype Outcome = Issued(code: string) | Accepted | InvalidOtp | ExpiredOtp | TooManyAttempts

  predicate Expired(e: Entry, now: Time) { now > e.expiresAt }

  function Swept(s: Store, now: Time): Store {
    map did | did in s && !Expired(s[did], now) :: s[did]
  }

  /** The call reaches the comparison of email and code. */
  predicate Compares(s: Store, op: Op, now: Time) {
    op.Verify? && op.did in s && !Expired(s[op.did], now)
  }

  function StepVerify(s: Store, did: string, email: string, code: string, now: Time): (Store, Outcome) {
    if did !in s then (s, InvalidOtp)
    else if Expired(s[did], now) then (s - {did}, ExpiredOtp)
    else if s[did].email == email && s[did].code == code then (s - {did}, Accepted)
    else if s[did].attempts + 1 >= MAX_ATTEMPTS then (s - {did}, TooManyAttempts)
    else (s[did := s[did].(attempts := s[did].attempts + 1)], InvalidOtp)
  }

  function Step(s: Store, ttl: int, op: Op, now: Time, sweep: bool): (Store, Outcome) {
    match op
    case Issue(did, email, code) =>
      ((if sweep then Swept(s, now) else s)[did := Entry(email, code, now + ttl, 0)], Issued(code))
    case Verify(did, email, code) => StepVerify(s, did, email, code, now)
  }

  // --------------------------------------------------------------------------- the object

  class OtpStore {
    var entries: Store
    const ttl: int

    constructor (ttl: int)
      ensures entries == map[] && this.ttl == ttl
    {
      this.ttl := ttl;
      entries := map[];
    }

    /** The digits come from the random source. */
    method IssueCode(did: string, email: string, digits: string, now: Time) returns (code: string)
      modifies this
      ensures (entries, Issued(code)) == Step(old(entries), ttl, Issue(did, email, digits), now, true)
    {
      SweepLocked(now);
      entries := entries[did := Entry(email, digits, now + ttl, 0)];
      return digits;
    }

    method SweepLocked(now: Time)
      modifies this
      ensures entries == Swept(old(entries), now)
    {
      ghost var before := entries;
      var left := entries.Keys;
      while left != {}
        invariant left <= before.Keys
        invariant forall k <- before :: k in left ==> k in entries
        invariant forall k <- before :: k !in left ==> (k in entries <==> !Expired(before[k], now))
        invariant forall k <- entries :: k in before && entries[k] == before[k]
        decreases left
      {
        var k :| k in left;
        if Expired(entries[k], now) { entries := entries - {k}; }
        left := left - {k};
      }
    }

    method VerifyAndConsume(did: string, email: string, code: string, now: Time) returns (r: Outcome)
      modifies this
      ensures (entries, r) == Step(old(entries), ttl, Verify(did, email, code), now, true)
    {
      if did !in entries { return InvalidOtp; }
      var e := entries[did];
      if Expired(e, now) {
        entries := entries - {did};
        return ExpiredOtp;
      }
      var emailOk := e.email == email;
      var codeOk := e.code == code;
      if !emailOk || !codeOk {
        e := e.(attempts := e.attempts + 1);
        entries := entries[did := e];
        if e.attempts >= MAX_ATTEMPTS {
          entries := entries - {did};
          assert entries == old(entries) - {did};
          return TooManyAttempts;
        }
        return InvalidOtp;
      }
      entries := entries - {did};
      return Accepted;
    }
  }

  // --------------------------------------------------------------------------------- runs

  datatype Call = Call(op: Op, now: Time)

  /** `VerifyAndConsume` reads the clock under the lock, so no earlier than any call before it; `Issue` reads it
      before taking the lock, so its reading may be older than those of calls that overtook it. */
  ghost predicate Clocked(calls: seq<Call>) {
    forall i, j :: 0 <= i < j < |calls| && calls[j].op.Verify? ==> calls[i].now <= calls[j].now
  }

  function Run(s: Store, ttl: int, calls: seq<Call>, sweep: bool): Store
    decreases |calls|
  {
    if calls == [] then s else Run(Step(s, ttl, calls[0].op, calls[0].now, sweep).0, ttl, calls[1..], sweep)
  }

  /** For every call, its value or that it failed. */
  function Observed(s: Store, ttl: int, calls: seq<Call>, sweep: bool): seq<Option<Outcome>>
    decreases |calls|
  {
    if calls == [] then []
    else
      var (s', r) := Step(s, ttl, calls[0].op, calls[0].now, sweep);
      [if r.Issued? || r.Accepted? then Some(r) else None] + Observed(s', ttl, calls[1..], sweep)
  }

  // ------------------------------------------------------------------ attempts per code

  ghost predicate Capped(s: Store) {
    forall did <- s :: s[did].attempts < MAX_ATTEMPTS
  }

  lemma {:induction false} RunCapped(s: Store, ttl: int, calls: seq<Call>)
    requires Capped(s)
    ensures Capped(Run(s, ttl, calls, true))
    decreases |calls|
  {
    if calls != [] { RunCapped(Step(s, ttl, calls[0].op, calls[0].now, true).0, ttl, calls[1..]); }
  }

  /** How many calls of the run compare a guess with the code held for `did`. */
  function Comparisons(s: Store, ttl: int, calls: seq<Call>, did: string): nat
    decreases |calls|
  {
    if calls == [] then 0
    else
      var c := calls[0];
      (if c.op.did == did && Compares(s, c.op, c.now) then 1 else 0)
      + Comparisons(Step(s, ttl, c.op, c.now, true).0, ttl, calls[1..], did)
  }

  function Acceptances(s: Store, ttl: int, calls: seq<Call>, did: string): nat
    decreases |calls|
  {
    if calls == [] then 0
    else
      var c := calls[0];
      var (s', r) := Step(s, ttl, c.op, c.now, true);
      (if c.op.did == did && r.Accepted? then 1 else 0) + Acceptances(s', ttl, calls[1..], did)
  }

  ghost predicate NoIssue(calls: seq<Call>, did: string) {
    forall c <- calls :: c.op.Issue? ==> c.op.did != did
  }

  lemma {:induction false} AttemptsLeft(s: Store, ttl: int, calls: seq<Call>, did: string)
    requires Capped(s) && NoIssue(calls, did)
    ensures Comparisons(s, ttl, calls, did) <= if did in s then MAX_ATTEMPTS - s[did].attempts else 0
    ensures Acceptances(s, ttl, calls, did) <= if did in s then 1 else 0
    decreases |calls|
  {
    if calls != [] {
      var c := calls[0];
      var s' := Step(s, ttl, c.op, c.now, true).0;
      AttemptsLeft(s', ttl, calls[1..], did);
    }
  }

  /** Whatever calls come before and after, a code issued to a DID meets at most five comparisons and
      at most one acceptance until the next code is issued to that DID. */
  lemma CodeIsBounded(ttl: int, before: seq<Call>, email: string, code: string, now: Time,
                      after: seq<Call>, did: string)
    requires NoIssue(after, did)
    ensures
      var s := Step(Run(map[], ttl, before, true), ttl, Issue(did, email, code), now, true).0;
      && Comparisons(s, ttl, after, did) <= MAX_ATTEMPTS
      && Acceptances(s, ttl, after, did) <= 1
  {
    RunCapped(map[], ttl, before);
    var s := Step(Run(map[], ttl, before, true), ttl, Issue(did, email, code), now, true).0;
    AttemptsLeft(s, ttl, after, did);
  }

  // -------------------------------------------------------------------- size of the map

  function IssuesBetween(calls: seq<Call>, from: Time, to: Time): nat {
    if calls == [] then 0
    else (if calls[0].op.Issue? && from <= calls[0].now <= to then 1 else 0) + IssuesBetween(calls[1..], from, to)
  }

  function IssuedDids(calls: seq<Call>, from: Time, to: Time): set<string> {
    if calls == [] then {}
    else (if calls[0].op.Issue? && from <= calls[0].now <= to then {calls[0].op.did} else {})
         + IssuedDids(calls[1..], from, to)
  }

  lemma {:induction false} DidsAtMostIssues(calls: seq<Call>, from: Time, to: Time)
    ensures |IssuedDids(calls, from, to)| <= IssuesBetween(calls, from, to)
  {
    if calls != [] {
      DidsAtMostIssues(calls[1..], from, to);
      var tail := IssuedDids(calls[1..], from, to);
      if calls[0].op.Issue? && from <= calls[0].now <= to {
        assert |{calls[0].op.did} + tail| <= 1 + |tail|;
      } else {
        assert {} + tail == tail;
      }
    }
  }

  lemma {:induction false} IssuedDidsIntro(calls: seq<Call>, from: Time, to: Time, i: nat)
    requires i < |calls| && calls[i].op.Issue? && from <= calls[i].now <= to
    ensures calls[i].op.did in IssuedDids(calls, from, to)
  {
    if i > 0 { IssuedDidsIntro(calls[1..], from, to, i - 1); }
  }

  /** Every entry was made by some `Issue` of the run. */
  ghost predicate Traced(s: Store, ttl: int, calls: seq<Call>) {
    forall did <- s :: exists i :: 0 <= i < |calls| && IssuedAt(calls, i, did, s[did].expiresAt, ttl)
  }

  ghost predicate IssuedAt(calls: seq<Call>, i: nat, did: string, expiresAt: Time, ttl: int)
    requires i < |calls|
  {
    calls[i].op.Issue? && calls[i].op.did == did && calls[i].now + ttl == expiresAt
  }

  lemma TracedStep(s: Store, ttl: int, calls: seq<Call>, c: Call)
    requires Traced(s, ttl, calls)
    ensures Traced(Step(s, ttl, c.op, c.now, true).0, ttl, calls + [c])
  {
    var s' := Step(s, ttl, c.op, c.now, true).0;
    var all := calls + [c];
    forall did <- s' ensures exists i :: 0 <= i < |all| && IssuedAt(all, i, did, s'[did].expiresAt, ttl) {
      if c.op.Issue? && c.op.did == did {
        assert IssuedAt(all, |calls|, did, s'[did].expiresAt, ttl);
      } else {
        assert did in s && s[did].expiresAt == s'[did].expiresAt;
        var i :| 0 <= i < |calls| && IssuedAt(calls, i, did, s[did].expiresAt, ttl);
        assert IssuedAt(all, i, did, s'[did].expiresAt, ttl);
      }
    }
  }

  lemma {:induction false} RunSnoc(s: Store, ttl: int, calls: seq<Call>, c: Call)
    ensures Run(s, ttl, calls + [c], true) == Step(Run(s, ttl, calls, true), ttl, c.op, c.now, true).0
    decreases |calls|
  {
    if calls == [] {
      assert (calls + [c])[1..] == [];
    } else {
      assert (calls + [c])[1..] == calls[1..] + [c];
      RunSnoc(Step(s, ttl, calls[0].op, calls[0].now, true).0, ttl, calls[1..], c);
    }
  }

  lemma {:induction false} RunTraced(ttl: int, calls: seq<Call>)
    ensures Traced(Run(map[], ttl, calls, true), ttl, calls)
    decreases |calls|
  {
    if calls != [] {
      var front, last := calls[..|calls| - 1], calls[|calls| - 1];
      assert calls == front + [last];
      RunTraced(ttl, front);
      RunSnoc(map[], ttl, front, last);
      TracedStep(Run(map[], ttl, front, true), ttl, front, last);
    }
  }

  lemma FreshAfterIssue(s: Store, ttl: int, issue: Call)
    requires ttl >= 0 && issue.op.Issue?
    ensures forall did <- Step(s, ttl, issue.op, issue.now, true).0 ::
              !Expired(Step(s, ttl, issue.op, issue.now, true).0[did], issue.now)
  {
  }

  /** Right after an `Issue` at time t the map holds at most as many entries as there were `Issue`
      calls in [t - ttl, latest], where no clock reading is after `latest`: t itself unless calls overtook. */
  lemma SizeIsBounded(ttl: int, calls: seq<Call>, issue: Call, latest: Time)
    requires ttl >= 0 && issue.op.Issue? && forall c <- calls + [issue] :: c.now <= latest
    ensures |Run(map[], ttl, calls + [issue], true)|
         <= IssuesBetween(calls + [issue], issue.now - ttl, latest)
  {
    var all := calls + [issue];
    var from := issue.now - ttl;
    var s := Run(map[], ttl, all, true);
    assert Traced(s, ttl, all) by { RunTraced(ttl, all); }
    assert forall did <- s :: !Expired(s[did], issue.now) by {
      RunSnoc(map[], ttl, calls, issue);
      FreshAfterIssue(Run(map[], ttl, calls, true), ttl, issue);
    }
    EntriesInWindow(s, ttl, all, issue.now, latest);
    DidsAtMostIssues(all, from, latest);
    SubsetSize(s.Keys, IssuedDids(all, from, latest));
  }

  lemma EntriesInWindow(s: Store, ttl: int, calls: seq<Call>, now: Time, latest: Time)
    requires Traced(s, ttl, calls)
    requires forall c <- calls :: c.now <= latest
    requires forall did <- s :: !Expired(s[did], now)
    ensures s.Keys <= IssuedDids(calls, now - ttl, latest)
  {
    forall did <- s ensures did in IssuedDids(calls, now - ttl, latest) {
      var i :| 0 <= i < |calls| && IssuedAt(calls, i, did, s[did].expiresAt, ttl);
      IssuedDidsIntro(calls, now - ttl, latest, i);
    }
  }

  lemma {:induction false} SubsetSize<T>(a: set<T>, b: set<T>)
    requires a <= b
    ensures |a| <= |b|
  {
    if a != {} {
      var x :| x in a;
      SubsetSize(a - {x}, b - {x});
    }
  }

  // ------------------------------------------------------------- sweeping is unobservable

  /** `swept` is `full` with some entries missing, each expired at `now`. */
  ghost predicate Similar(full: Store, swept: Store, now: Time) {
    && (forall did <- swept :: did in full && swept[did] == full[did])
    && (forall did <- full :: did in swept || Expired(full[did], now))
  }

  function Later(t: Time, now: Time): Time { if t < now then now else t }

  lemma SimilarStep(full: Store, swept: Store, ttl: int, op: Op, t: Time, now: Time)
    requires Similar(full, swept, t) && (op.Verify? ==> t <= now)
    ensures
      var (f, rf), (p, rp) := Step(full, ttl, op, now, false), Step(swept, ttl, op, now, true);
      Similar(f, p, Later(t, now)) && (if rf.Issued? || rf.Accepted? then rp == rf else !rp.Issued? && !rp.Accepted?)
  {
  }

  lemma {:induction false} SweepSimulation(full: Store, swept: Store, ttl: int, calls: seq<Call>, t: Time)
    requires Similar(full, swept, t) && Clocked(calls) && forall c <- calls :: c.op.Verify? ==> t <= c.now
    ensures Observed(swept, ttl, calls, true) == Observed(full, ttl, calls, false)
    decreases |calls|
  {
    if calls != [] {
      var c := calls[0];
      SimilarStep(full, swept, ttl, c.op, t, c.now);
      SweepSimulation(Step(full, ttl, c.op, c.now, false).0, Step(swept, ttl, c.op, c.now, true).0,
                      ttl, calls[1..], Later(t, c.now));
    }
  }

  /** Sweeping never changes which verifications succeed, even when a sweep works with an outdated clock reading. */
  lemma SweepUnobservable(s: Store, ttl: int, calls: seq<Call>)
    requires Clocked(calls)
    ensures Observed(s, ttl, calls, true) == Observed(s, ttl, calls, false)
  {
    if calls != [] { SweepSimulation(s, s, ttl, calls, calls[0].now); }
  }

  // ------------------------------------------------------------------- exactly what is accepted

  /** The store before call `n` of a run from the empty store. */
  ghost function Before(ttl: int, calls: seq<Call>, n: nat): Store
    requires n <= |calls|
  {
    Run(map[], ttl, calls[..n], true)
  }

  ghost predicate AcceptedAt(ttl: int, calls: seq<Call>, n: nat, did: string)
    requires n < |calls|
  {
    && calls[n].op.Verify? && calls[n].op.did == did
    && Step(Before(ttl, calls, n), ttl, calls[n].op, calls[n].now, true).1 == Accepted
  }

  ghost predicate IssuesTo(c: Call, did: string) { c.op.Issue? && c.op.did == did }

  /** Call `i` is the last before `n` that issued a code to the DID. */
  ghost predicate LastIssue(calls: seq<Call>, i: nat, n: nat, did: string) {
    i < n <= |calls| && IssuesTo(calls[i], did) && forall j :: i < j < n ==> !IssuesTo(calls[j], did)
  }

  /** Call `k` guesses wrong, in time, at the code issued by call `i`. */
  predicate WrongGuess(calls: seq<Call>, i: nat, k: nat, ttl: int)
    requires i < |calls| && k < |calls| && calls[i].op.Issue?
  {
    && calls[k].op.Verify? && calls[k].op.did == calls[i].op.did && calls[k].now <= calls[i].now + ttl
    && (calls[k].op.email != calls[i].op.email || calls[k].op.code != calls[i].op.code)
  }

  /** How many wrong guesses there are between call `i` and call `n`. */
  function WrongGuesses(calls: seq<Call>, i: nat, n: nat, ttl: int): nat
    requires i < n <= |calls| && calls[i].op.Issue?
  {
    if n == i + 1 then 0
    else WrongGuesses(calls, i, n - 1, ttl) + if WrongGuess(calls, i, n - 1, ttl) then 1 else 0
  }

  ghost predicate NoAcceptance(ttl: int, calls: seq<Call>, i: nat, n: nat, did: string)
    requires n <= |calls|
  {
    forall k :: i < k < n ==> !AcceptedAt(ttl, calls, k, did)
  }

  lemma BeforeStep(ttl: int, calls: seq<Call>, n: nat)
    requires n < |calls|
    ensures Before(ttl, calls, n + 1) == Step(Before(ttl, calls, n), ttl, calls[n].op, calls[n].now, true).0
  {
    hide Run, Step;
    assert calls[..n + 1] == calls[..n] + [calls[n]];
    RunSnoc(map[], ttl, calls[..n], calls[n]);
  }

  /** No code without an issue. */
  lemma {:induction false} NeverIssued(ttl: int, calls: seq<Call>, n: nat, did: string)
    requires n <= |calls| && forall j :: 0 <= j < n ==> !IssuesTo(calls[j], did)
    ensures did !in Before(ttl, calls, n)
  {
    hide Run;
    if n > 0 {
      NeverIssued(ttl, calls, n - 1, did);
      BeforeStep(ttl, calls, n - 1);
    } else {
      assert Before(ttl, calls, 0) == map[] by { EmptyStart(ttl, calls); }
    }
  }

  lemma EmptyStart(ttl: int, calls: seq<Call>)
    ensures Before(ttl, calls, 0) == map[]
  {
    assert calls[..0] == [];
  }

  /** Some clock reading between calls `i` and `n` is after the expiry. */
  ghost predicate ClockPassed(calls: seq<Call>, i: nat, n: nat, expiry: Time)
    requires n <= |calls|
  {
    exists j :: i <= j < n && calls[j].now > expiry
  }

  /** What the store holds for the DID before call `n`: nothing once the code was accepted or guessed wrong five
      times; otherwise the issued code with its count of wrong guesses, unless some clock reading since then is
      after its expiry. */
  ghost predicate Holds(ttl: int, calls: seq<Call>, i: nat, n: nat, s: Store)
    requires i < n <= |calls| && calls[i].op.Issue?
  {
    var did := calls[i].op.did;
    if !NoAcceptance(ttl, calls, i, n, did) || WrongGuesses(calls, i, n, ttl) >= MAX_ATTEMPTS then did !in s
    else
      && (did in s ==>
            s[did] == Entry(calls[i].op.email, calls[i].op.code, calls[i].now + ttl, WrongGuesses(calls, i, n, ttl)))
      && (did !in s ==> ClockPassed(calls, i, n, calls[i].now + ttl))
  }

  /** One call that issues nothing to the DID. */
  lemma HoldsStep(ttl: int, calls: seq<Call>, i: nat, n: nat)
    requires i < n < |calls| && calls[i].op.Issue? && !IssuesTo(calls[n], calls[i].op.did) && Clocked(calls)
    requires Holds(ttl, calls, i, n, Before(ttl, calls, n))
    ensures Holds(ttl, calls, i, n + 1, Before(ttl, calls, n + 1))
  {
    hide Run, Before;
    BeforeStep(ttl, calls, n);
    var s, s', did := Before(ttl, calls, n), Before(ttl, calls, n + 1), calls[i].op.did;
    assert AcceptedAt(ttl, calls, n, did) <==> calls[n].op.Verify? && calls[n].op.did == did
                                               && Step(s, ttl, calls[n].op, calls[n].now, true).1 == Accepted;
    assert NoAcceptance(ttl, calls, i, n + 1, did) <==> NoAcceptance(ttl, calls, i, n, did) && !AcceptedAt(ttl, calls, n, did);
    if calls[n].now > calls[i].now + ttl { assert ClockPassed(calls, i, n + 1, calls[i].now + ttl); }
    if ClockPassed(calls, i, n, calls[i].now + ttl) {
      var j :| i <= j < n && calls[j].now > calls[i].now + ttl;
      assert calls[n].op.Verify? ==> calls[j].now <= calls[n].now;
    }
  }

  lemma {:induction false} HoldsAt(ttl: int, calls: seq<Call>, i: nat, n: nat)
    requires Clocked(calls) && i < n <= |calls| && calls[i].op.Issue? && LastIssue(calls, i, n, calls[i].op.did)
    ensures Holds(ttl, calls, i, n, Before(ttl, calls, n))
    decreases n
  {
    hide Run, Before;
    if n == i + 1 {
      BeforeStep(ttl, calls, i);
    } else {
      HoldsAt(ttl, calls, i, n - 1);
      HoldsStep(ttl, calls, i, n - 1);
    }
  }

  /** The code issued by call `i` is what this call names, in time, and not yet used up. */
  ghost predicate Matches(ttl: int, calls: seq<Call>, i: nat, n: nat)
    requires n < |calls| && calls[n].op.Verify?
  {
    && LastIssue(calls, i, n, calls[n].op.did)
    && calls[i].op.email == calls[n].op.email && calls[i].op.code == calls[n].op.code
    && calls[n].now <= calls[i].now + ttl
    && NoAcceptance(ttl, calls, i, n, calls[n].op.did)
    && WrongGuesses(calls, i, n, ttl) < MAX_ATTEMPTS
  }

  /** Over every run, a verification is accepted if and only if the last code issued to that DID was issued for that
      email and is that code, has not expired, has not been accepted since, and has met fewer than five wrong
      guesses. */
  lemma AcceptedIff(ttl: int, calls: seq<Call>, n: nat)
    requires Clocked(calls) && n < |calls| && calls[n].op.Verify?
    ensures AcceptedAt(ttl, calls, n, calls[n].op.did) <==> exists i: nat :: Matches(ttl, calls, i, n)
  {
    hide Run, Before;
    var did := calls[n].op.did;
    if i :| 0 <= i < n && IssuesTo(calls[i], did) {
      var l := FindLast(calls, i, n, did);
      HoldsAt(ttl, calls, l, n);
      if ClockPassed(calls, l, n, calls[l].now + ttl) {
        var j :| l <= j < n && calls[j].now > calls[l].now + ttl;
        assert calls[j].now <= calls[n].now;
      }
      forall k: nat | Matches(ttl, calls, k, n) ensures k == l {}
      assert AcceptedAt(ttl, calls, n, did) <==> Matches(ttl, calls, l, n);
    } else {
      NeverIssued(ttl, calls, n, did);
    }
  }

  lemma {:induction false} FindLast(calls: seq<Call>, i: nat, n: nat, did: string) returns (l: nat)
    requires i < n <= |calls| && IssuesTo(calls[i], did)
    ensures LastIssue(calls, l, n, did)
    decreases n
  {
    if IssuesTo(calls[n - 1], did) {
      l := n - 1;
    } else {
      l := FindLast(calls, i, n - 1, did);
    }
  }

  /** The other outcomes of a verification, and what it leaves behind. */
  lemma VerifyEffect(s: Store, ttl: int, did: string, email: string, code: string, now: Time)
    ensures var (s', r) := Step(s, ttl, Verify(did, email, code), now, true);
      && s' - {did} == s - {did}
      && (r == ExpiredOtp <==> did in s && now > s[did].expiresAt)
      && (r == Accepted <==> did in s && now <= s[did].expiresAt && s[did].email == email && s[did].code == code)
      && (r == TooManyAttempts <==> did in s && now <= s[did].expiresAt
                                    && !(s[did].email == email && s[did].code == code) && s[did].attempts >= 4)
      && (r == InvalidOtp <==> did !in s || (now <= s[did].expiresAt
                                    && !(s[did].email == email && s[did].code == code) && s[did].attempts < 4))
      && (r != InvalidOtp ==> did !in s')
      && (r == InvalidOtp && did in s ==>
            did in s' && s'[did] == Entry(s[did].email, s[did].code, s[did].expiresAt, s[did].attempts + 1))
      && (did !in s ==> s' == s)
  {
    assert did !in s ==> s - {did} == s;
  }
}
