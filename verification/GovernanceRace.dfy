/** One run in full, from the empty store: a template version is superseded between the template check and the last
    store call of a decision call (ansible_issuer/go/internal/oid4vci/issuer.go:149-156), and the request is
    approved all the same. */
module GovernanceRace {
  import opened Wrappers
  import opened HostedStore
  import HostedInvariants
  import opened GovernanceRuns

  const ID := "t"
  const PARTY := Tenant("t", "did:web:party", "party", TenantDraft, 1, 1)
  const OWNER := Administrator("", "did:key:owner", "", "", "p256-sha256", "hardware")
  const REGISTERED := Administrator("t", "did:key:owner", "owner", "active", "p256-sha256", "hardware")
  const APPROVAL := Approval("", "r", "did:key:owner", "approve", "intent")

  function Key(version: int): string { TemplateKey("membership", version) }

  function Version(version: int, active: bool): Template {
    MembershipTemplate(version, 1, 30, active).(tenantId := ID)
  }

  function NewTemplate(version: int): Process { TemplateCall(version, 30, true, None) }

  function Application(basis: Option<Template>): Process {
    RequestCall("r", "did:jwk:x", "member", "host", "board", "payload", basis)
  }

  function Filed(state: RequestState): Request {
    Request("r", ID, "membership", 1, "did:jwk:x", "payload", "member", "host", "board", state, 1, WEEK, 0)
  }

  // ------------------------------------------------------------------------- states of the store

  function Bootstrapped(): TenantState { EMPTY.(tenant := Some(PARTY), admins := map["did:key:owner" := REGISTERED]) }

  function WithTemplate(): TenantState { Bootstrapped().(templates := map[Key(1) := Version(1, true)]) }

  function WithRequest(): TenantState { WithTemplate().(requests := map["r" := Filed(Pending)]) }

  function Replaced(): TenantState {
    WithRequest().(templates := map[Key(1) := Version(1, false), Key(2) := Version(2, true)])
  }

  // ------------------------------------------------------------------------------ the four parts

  /** The tenant appears and the first template version is put. */
  function Setup(): seq<Event> {
    [Other(OnTenant(Bootstrapping(PARTY, OWNER))), Start(0, NewTemplate(1)), Advance(0, [], 0), Advance(0, [], 0)]
  }

  /** A request is made under it. */
  function Applying(): seq<Event> {
    [Start(1, Application(None)), Advance(1, [Key(1)], 0), Advance(1, [Key(1)], 0)]
  }

  /** A decision call reads the request and checks the template. */
  function Checking(): seq<Event> {
    [Start(2, DecisionCall(APPROVAL, None, None)), Advance(2, [Key(1)], 0), Advance(2, [Key(1)], 0)]
  }

  /** The second version comes in. */
  function Superseding(): seq<Event> {
    [Start(3, NewTemplate(2)), Advance(3, [Key(1)], 0), Advance(3, [Key(1)], 0)]
  }

  /** The decision call goes on. */
  function Concluding(): seq<Event> { [Advance(2, [Key(1), Key(2)], 0)] }

  ghost predicate Leads(s: System, events: seq<Event>, s': System) {
    PossibleRun(s, ID, events) && Run(s, ID, events) == s'
  }

  lemma {:induction false} LeadsOn(s: System, a: seq<Event>, s': System, b: seq<Event>, s'': System)
    requires Leads(s, a, s') && Leads(s', b, s'')
    ensures Leads(s, a + b, s'')
    decreases |a|
  {
    hide Next, Possible;
    if a == [] {
      assert a + b == b;
    } else {
      assert (a + b)[1..] == a[1..] + b;
      LeadsOn(Next(s, ID, a[0]), a[1..], s', b, s'');
    }
  }

  lemma OneEvent(s: System, e: Event)
    requires Possible(s, e)
    ensures Leads(s, [e], Next(s, ID, e))
  {
    hide Next, Possible;
    var events := [e];
    assert events[1..] == [] && events[0] == e;
    assert Run(Next(s, ID, e), ID, []) == Next(s, ID, e) && PossibleRun(Next(s, ID, e), ID, []);
    assert Run(s, ID, events) == Run(Next(s, ID, events[0]), ID, events[1..]);
  }

  lemma ThreeEvents(s: System, e1: Event, e2: Event, e3: Event, s1: System, s2: System, s3: System)
    requires Possible(s, e1) && Next(s, ID, e1) == s1 && Possible(s1, e2) && Next(s1, ID, e2) == s2
    requires Possible(s2, e3) && Next(s2, ID, e3) == s3
    ensures Leads(s, [e1, e2, e3], s3)
  {
    hide Next, Possible, Run, PossibleRun;
    OneEvent(s, e1);
    OneEvent(s1, e2);
    OneEvent(s2, e3);
    LeadsOn(s1, [e2], s2, [e3], s3);
    LeadsOn(s, [e1], s1, [e2] + [e3], s3);
    assert [e1] + ([e2] + [e3]) == [e1, e2, e3];
  }

  function P1(): map<nat, Process> { map[0 := Returned(Done)] }
  function P2(): map<nat, Process> { P1()[1 := Returned(Done)] }
  function P3(): map<nat, Process> { P2()[2 := DecisionCall(APPROVAL, Some(Filed(Pending)), Some(Version(1, true)))] }
  function P4(): map<nat, Process> { P3()[3 := Returned(Done)] }

  lemma KeysDiffer()
    ensures Key(1) != Key(2)
  {
    hide TemplateKey;
    if Key(1) == Key(2) { HostedInvariants.TemplateKeyInjective("membership", 1, "membership", 2); }
  }

  lemma SetupRuns()
    ensures Leads(System(EMPTY, map[]), Setup(), System(WithTemplate(), P1()))
  {
    hide TemplateKey, Run, PossibleRun;
    var s0 := System(EMPTY, map[]);
    var s1 := System(Bootstrapped(), map[]);
    var e := Other(OnTenant(Bootstrapping(PARTY, OWNER)));
    assert Next(s0, ID, e) == s1;
    OneEvent(s0, e);
    var started := TemplateCall(1, 30, true, None);
    ThreeEvents(s1, Start(0, started), Advance(0, [], 0), Advance(0, [], 0),
                System(Bootstrapped(), map[0 := started]),
                System(Bootstrapped(), map[0 := started.(tenant := Some(PARTY))]),
                System(WithTemplate(), P1()));
    LeadsOn(s0, [e], s1, [Start(0, started), Advance(0, [], 0), Advance(0, [], 0)], System(WithTemplate(), P1()));
    assert Setup() == [e] + [Start(0, started), Advance(0, [], 0), Advance(0, [], 0)];
  }

  lemma OneTemplate(ts: TenantState)
    requires ts.templates == map[Key(1) := Version(1, true)]
    ensures Enumerates([Key(1)], ts.templates)
    ensures ActiveTemplate(ts, "membership", [Key(1)]).1 == TemplateIs(Version(1, true))
  {
    hide TemplateKey;
  }

  lemma ApplicationIsValid()
    ensures ValidApplication("did:jwk:x", "member", "host", "board")
  {
    assert "did:jwk:x"[..8] == "did:jwk:";
    assert "host"[0] in "host" && "board"[0] in "board";
  }

  lemma ApplyingRuns()
    ensures Leads(System(WithTemplate(), P1()), Applying(), System(WithRequest(), P2()))
  {
    hide TemplateKey, Run, PossibleRun, ActiveTemplate, ValidApplication;
    OneTemplate(WithTemplate());
    ApplicationIsValid();
    ThreeEvents(System(WithTemplate(), P1()), Start(1, Application(None)), Advance(1, [Key(1)], 0), Advance(1, [Key(1)], 0),
                System(WithTemplate(), P1()[1 := Application(None)]),
                System(WithTemplate(), P1()[1 := Application(Some(Version(1, true)))]),
                System(WithRequest(), P2()));
  }

  lemma CheckingRuns()
    ensures Leads(System(WithRequest(), P2()), Checking(), System(WithRequest(), P3()))
  {
    hide TemplateKey, Run, PossibleRun, ActiveTemplate;
    OneTemplate(WithRequest());
    ThreeEvents(System(WithRequest(), P2()), Start(2, DecisionCall(APPROVAL, None, None)), Advance(2, [Key(1)], 0), Advance(2, [Key(1)], 0),
                System(WithRequest(), P2()[2 := DecisionCall(APPROVAL, None, None)]),
                System(WithRequest(), P2()[2 := DecisionCall(APPROVAL, Some(Filed(Pending)), None)]),
                System(WithRequest(), P3()));
  }

  lemma SupersedingRuns()
    ensures Leads(System(WithRequest(), P3()), Superseding(), System(Replaced(), P4()))
  {
    hide TemplateKey, Run, PossibleRun, ActiveTemplate;
    OneTemplate(WithRequest());
    KeysDiffer();
    assert [Key(1)][1..] == [];
    var put := PutTemplate(WithRequest(), ID, MembershipTemplate(2, 1, 30, true), [Key(1)]);
    assert put.1 == Done && put.0.templates == Replaced().templates;
    ThreeEvents(System(WithRequest(), P3()), Start(3, NewTemplate(2)), Advance(3, [Key(1)], 0), Advance(3, [Key(1)], 0),
                System(WithRequest(), P3()[3 := NewTemplate(2)]),
                System(WithRequest(), P3()[3 := TemplateCall(2, 30, true, Some(PARTY))]),
                System(Replaced(), P4()));
  }

  lemma ConcludingRuns() returns (s: System)
    ensures Leads(System(Replaced(), P4()), Concluding(), s)
    ensures s.store.templates == Replaced().templates && s.store.requests == map["r" := Filed(Approved)]
  {
    hide TemplateKey, Run, PossibleRun;
    KeysDiffer();
    var e := Advance(2, [Key(1), Key(2)], 0);
    var decisions: map<string, Approval> := map[];
    ApproversGrow(decisions, "did:key:owner", APPROVAL.(tenantId := ID));
    s := Next(System(Replaced(), P4()), ID, e);
    OneEvent(System(Replaced(), P4()), e);
  }

  function RaceEvents(): seq<Event> {
    Setup() + (Applying() + (Checking() + (Superseding() + Concluding())))
  }

  /** Fourteen events from the empty store to a request that is approved under version 1 of its template, although
      version 2 has already replaced it. */
  lemma SupersededYetApproved()
    ensures PossibleRun(System(EMPTY, map[]), ID, RaceEvents())
    ensures var ts := Run(System(EMPTY, map[]), ID, RaceEvents()).store;
      && "r" in ts.requests && ts.requests["r"].state == Approved && ts.requests["r"].templateVersion == 1
      && Key(1) in ts.templates && !ts.templates[Key(1)].active
      && Key(2) in ts.templates && ts.templates[Key(2)].active
  {
    hide Run, PossibleRun, TemplateKey, Setup, Applying, Checking, Superseding, Concluding;
    KeysDiffer();
    SetupRuns();
    ApplyingRuns();
    CheckingRuns();
    SupersedingRuns();
    var s := ConcludingRuns();
    LeadsOn(System(WithRequest(), P3()), Superseding(), System(Replaced(), P4()), Concluding(), s);
    LeadsOn(System(WithRequest(), P2()), Checking(), System(WithRequest(), P3()), Superseding() + Concluding(), s);
    LeadsOn(System(WithTemplate(), P1()), Applying(), System(WithRequest(), P2()), Checking() + (Superseding() + Concluding()), s);
    LeadsOn(System(EMPTY, map[]), Setup(), System(WithTemplate(), P1()), Applying() + (Checking() + (Superseding() + Concluding())), s);
  }
}
