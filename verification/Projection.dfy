/** StagedBindingPolicies do not interfere: what happens to one of them in a run of many is what
    happens in the run of its own events alone. */
module Projection {
  import opened Api
  import opened Names
  import opened Gate
  import opened ApiServers
  import opened Rollout
  import opened Runs
  import opened Steps
  import opened Uids

  function OwnBps(bps: map<string, Bp>, n: string): map<string, Bp> {
    map b | b in bps && OwnerOf(b) == Some(n) :: bps[b]
  }

  function OwnSbps(sbps: map<string, Sbp>, n: string): map<string, Sbp> {
    map m | m in sbps && m == n :: sbps[m]
  }

  function OwnMinted(minted: map<string, string>, n: string): map<string, string> {
    map u | u in minted && OwnerOf(minted[u]) == Some(n) :: minted[u]
  }

  function OwnIssued(issued: map<string, Sbp>, n: string): map<string, Sbp> {
    map u | u in issued && issued[u].name == n :: issued[u]
  }

  /** The part of the server that belongs to name n: BindingPolicies attributed to n by their
      names, the object n, and the UIDs handed out for these. */
  function ProjectServer(s: Server, n: string): Server {
    Server(OwnBps(s.bps, n), OwnSbps(s.sbps, n), OwnMinted(s.minted, n), OwnIssued(s.issued, n))
  }

  lemma OwnBpsChange(bps: map<string, Bp>, b: string, bp: Bp, n: string)
    ensures OwnBps(bps - {b}, n) == if OwnerOf(b) == Some(n) then OwnBps(bps, n) - {b} else OwnBps(bps, n)
    ensures OwnBps(bps[b := bp], n) == if OwnerOf(b) == Some(n) then OwnBps(bps, n)[b := bp] else OwnBps(bps, n)
  {
    hide OwnerOf;
  }

  lemma OwnMintedGrows(minted: map<string, string>, u: string, b: string, n: string)
    requires u !in minted
    ensures OwnMinted(minted[u := b], n) == if OwnerOf(b) == Some(n) then OwnMinted(minted, n)[u := b] else OwnMinted(minted, n)
  {
  }

  lemma OwnSbpsChange(sbps: map<string, Sbp>, m: string, o: Sbp, n: string)
    ensures OwnSbps(sbps - {m}, n) == if m == n then OwnSbps(sbps, n) - {m} else OwnSbps(sbps, n)
    ensures OwnSbps(sbps[m := o], n) == if m == n then OwnSbps(sbps, n)[m := o] else OwnSbps(sbps, n)
  {
  }

  lemma OwnIssuedGrows(issued: map<string, Sbp>, u: string, o: Sbp, n: string)
    requires u !in issued
    ensures OwnIssued(issued[u := o], n) == if o.name == n then OwnIssued(issued, n)[u := o] else OwnIssued(issued, n)
  {
  }

  function Project(st: State, n: string): State {
    State(map m | m in st.tracked && m == n :: st.tracked[m], ProjectServer(st.server, n))
  }

  predicate NamedWell(n: string, stages: seq<Stage>) {
    forall i | 0 <= i < |stages| :: WellNamed(n, stages[i].name)
  }

  /** Names are recoverable and UIDs are new. */
  ghost predicate Proper(st: State, core: Core) {
    && (core.Note? ==> NamedWell(core.sbp.name, core.sbp.stages))
    && (core.UserCreate? ==> core.sbp.uid !in st.server.issued)
    && FreshUid(st, core)
  }

  ghost predicate AllProper(ev: Evaluator, st: State, es: seq<Event>)
    decreases |es|
  {
    |es| > 0 ==> Proper(st, es[0].core) && AllProper(ev, Next(ev, st, es[0]), es[1..])
  }

  ghost predicate TracksNamedWell(st: State) {
    forall n | n in st.tracked :: NamedWell(n, st.tracked[n].stages)
  }

  const RESTART := Event(Idle, DiesAfter(0))

  predicate LosesMemory(ev: Evaluator, st: State, e: Event) {
    e.fate.DiesAfter? || (EffectOf(ev, st, e.core).Some? && EffectOf(ev, st, e.core).value.outcome == Panicked)
  }

  /** What an event means to name n: its own events as they are, a restart if the process dies in
      an event of another name, and otherwise nothing. */
  function Lift(ev: Evaluator, st: State, e: Event, n: string): seq<Event> {
    if Target(e.core) == Some(n) then [e] else if LosesMemory(ev, st, e) then [RESTART] else []
  }

  function Own(ev: Evaluator, st: State, es: seq<Event>, n: string): seq<Event>
    decreases |es|
  {
    if |es| == 0 then [] else Lift(ev, st, es[0], n) + Own(ev, Next(ev, st, es[0]), es[1..], n)
  }

  // ---------------------------------------------------------------- steps of the name itself

  /** x' is x seen by name n. */
  predicate Mirrors(x: Effect, x': Effect, n: string) {
    && x'.entry == x.entry && x'.outcome == x.outcome && |x'.calls| == |x.calls|
    && forall i | 0 <= i < |x.calls| :: x'.calls[i] == ProjectServer(x.calls[i], n)
  }

  lemma DeleteProjects(s: Server, n: string, b: string, f: Fault)
    requires OwnerOf(b) == Some(n)
    ensures DeleteBp(ProjectServer(s, n), b, f) == (ProjectServer(DeleteBp(s, b, f).0, n), DeleteBp(s, b, f).1)
    ensures DeleteBp(s, b, f).0.sbps == s.sbps && DeleteBp(s, b, f).0.minted == s.minted
  {
    OwnBpsChange(s.bps, b, Bp("", "", [], []), n);
  }

  lemma CreateProjects(s: Server, n: string, b: string, bp: Bp, f: Fault)
    requires OwnerOf(b) == Some(n) && bp.uid !in s.minted
    ensures CreateBp(ProjectServer(s, n), b, bp, f) == (ProjectServer(CreateBp(s, b, bp, f).0, n), CreateBp(s, b, bp, f).1)
  {
    OwnBpsChange(s.bps, b, bp, n);
    OwnMintedGrows(s.minted, bp.uid, b, n);
  }

  lemma StatusProjects(s: Server, n: string, e: Entry, f: Faults)
    requires (n in s.sbps ==> s.sbps[n].name == n) && e.activeIndex < |e.stages|
    ensures Mirrors(UpdateStatus(n, e, e.activeIndex, s, f), UpdateStatus(n, e, e.activeIndex, ProjectServer(s, n), f), n)
  {
    if n in s.sbps {
      OwnSbpsChange(s.sbps, n, s.sbps[n].(activeStage := e.stages[e.activeIndex].name), n);
    }
  }

  lemma NameIsOwned(n: string, stage: string)
    requires WellNamed(n, stage)
    ensures OwnerOf(BpName(n, stage)) == Some(n)
  {
    NameRoundTrip(n, stage);
  }

  lemma ActiveProjects(s: Server, n: string, e: Entry, f: Faults)
    requires (n in s.sbps ==> s.sbps[n].name == n) && NamedWell(n, e.stages) && f.uid !in s.minted
    ensures Mirrors(CreateActive(n, e, s, f), CreateActive(n, e, ProjectServer(s, n), f), n)
  {
    if e.activeIndex < |e.stages| {
      var stage := e.stages[e.activeIndex];
      NameIsOwned(n, stage.name);
      var bp := Bp(f.uid, e.uid, e.downsync, stage.clusterSelectors);
      CreateProjects(s, n, BpName(n, stage.name), bp, f.create);
      var (s', ok) := CreateBp(s, BpName(n, stage.name), bp, f.create);
      StatusProjects(s', n, e.(activeUid := f.uid), f);
    }
  }

  lemma MirrorsAfterCall(x: Effect, x': Effect, s: Server, n: string)
    requires Mirrors(x, x', n)
    ensures Mirrors(x.(calls := [s] + x.calls), x'.(calls := [ProjectServer(s, n)] + x'.calls), n)
  {
  }

  lemma EnsureProjects(s: Server, n: string, e: Entry, f: Faults)
    requires (n in s.sbps ==> s.sbps[n].name == n) && NamedWell(n, e.stages) && f.uid !in s.minted
    ensures Mirrors(EnsureActiveStage(n, e, s, f), EnsureActiveStage(n, e, ProjectServer(s, n), f), n)
  {
    hide CreateActive, ProjectServer, DeleteBp;
    if e.activeIndex == 0 {
      ActiveProjects(s, n, e, f);
    } else if e.activeIndex <= |e.stages| {
      var prev := BpName(n, e.stages[e.activeIndex - 1].name);
      NameIsOwned(n, e.stages[e.activeIndex - 1].name);
      DeleteProjects(s, n, prev, f.del);
      var (s', reply) := DeleteBp(s, prev, f.del);
      if reply != Refused {
        ActiveProjects(s', n, e, f);
        MirrorsAfterCall(CreateActive(n, e, s', f), CreateActive(n, e, ProjectServer(s', n), f), s', n);
      }
    }
  }

  lemma AttemptProjects(ev: Evaluator, lister: Lister, s: Server, n: string, e: Entry, f: Faults)
    requires (n in s.sbps ==> s.sbps[n].name == n) && NamedWell(n, e.stages) && f.uid !in s.minted
    ensures Mirrors(AttemptCondition(ev, lister, n, e, s, f), AttemptCondition(ev, lister, n, e, ProjectServer(s, n), f), n)
  {
    hide EnsureActiveStage;
    EnsureProjects(s, n, e.(activeIndex := e.activeIndex + 1), f);
  }

  /** An event of name n acts on the projection as it acts on the whole. */
  lemma EffectProjects(ev: Evaluator, st: State, core: Core, n: string)
    requires Filed(st.server) && TracksNamedWell(st) && Proper(st, core) && Target(core) == Some(n)
    ensures EffectOf(ev, st, core).Some? == EffectOf(ev, Project(st, n), core).Some?
    ensures EffectOf(ev, st, core).Some? ==>
      Mirrors(EffectOf(ev, st, core).value, EffectOf(ev, Project(st, n), core).value, n)
  {
    EffectShape(ev, st, core);
    EffectShape(ev, Project(st, n), core);
    if core.Note? {
      EnsureProjects(st.server, n, FreshEntry(core.sbp), core.f);
    } else if Tried(st, core).Some? {
      assert Tried(Project(st, n), core) == Tried(st, core);
      AttemptProjects(ev, ListerOf(core), st.server, n, Tried(st, core).value, FaultsOf(core));
    }
  }

  lemma EnvironmentProjects(s: Server, core: Core, n: string)
    requires core.UserCreate? ==> core.sbp.uid !in s.issued
    ensures Target(core) == Some(n) ==> ProjectServer(Environment(s, core), n) == Environment(ProjectServer(s, n), core)
    ensures Target(core) != Some(n) ==> ProjectServer(Environment(s, core), n) == ProjectServer(s, n)
  {
    match core
    case UserCreate(sbp) =>
      var created := sbp.(activeStage := "");
      OwnSbpsChange(s.sbps, sbp.name, created, n);
      OwnIssuedGrows(s.issued, sbp.uid, created, n);
    case UserDelete(name) => OwnSbpsChange(s.sbps, name, Sbp("", "", 0, [], [], ""), n);
    case Vanish(b) => OwnBpsChange(s.bps, b, Bp("", "", [], []), n);
    case _ =>
  }

  /** Mirrored effects have mirrored boundaries. */
  lemma MirrorsBoundaries(x: Effect, x': Effect, s: Server, n: string, k: nat)
    requires Mirrors(x, x', n)
    ensures x'.Boundary(ProjectServer(s, n), k) == ProjectServer(x.Boundary(s, k), n)
    ensures x'.Final(ProjectServer(s, n)) == ProjectServer(x.Final(s), n)
  {
  }

  /** Both ways of carrying on after a mirrored effect agree. */
  lemma OutcomeProjects(st: State, e: Event, n: string, x: Effect, x': Effect)
    requires Mirrors(x, x', n)
    ensures Project(Resume(st, e, n, x), n) == Resume(Project(st, n), e, n, x')
  {
    MirrorsBoundaries(x, x', st.server, n, if e.fate.DiesAfter? then e.fate.calls else 0);
    hide ProjectServer;
  }

  /** The state after an event of name n with effect x. */
  function Resume(st: State, e: Event, n: string, x: Effect): State {
    if e.fate.DiesAfter? then State(map[], x.Boundary(st.server, e.fate.calls))
    else if x.outcome == Panicked then State(map[], x.Final(st.server))
    else State(st.tracked[n := x.entry], x.Final(st.server))
  }

  lemma OwnStepProjects(ev: Evaluator, st: State, e: Event, n: string)
    requires Filed(st.server) && TracksNamedWell(st) && Proper(st, e.core) && Target(e.core) == Some(n)
    ensures Project(Next(ev, st, e), n) == Next(ev, Project(st, n), e)
  {
    hide EffectOf, ProjectServer, Environment;
    EffectProjects(ev, st, e.core, n);
    match EffectOf(ev, st, e.core)
    case Some(x) =>
      OutcomeProjects(st, e, n, x, EffectOf(ev, Project(st, n), e.core).value);
    case None =>
      EnvironmentProjects(st.server, e.core, n);
  }

  // ---------------------------------------------------------------- steps of other names

  lemma OtherBoundary(s: Server, m: string, e: Entry, uid: string, p: Progress, n: string)
    requires Possible(m, e, s, p) && NamedWell(m, e.stages) && uid !in s.minted && m != n
    requires e.activeIndex <= |e.stages|
    ensures ProjectServer(At(m, e, s, uid, p), n) == ProjectServer(s, n)
  {
    if 0 < e.activeIndex {
      var prev := BpName(m, e.stages[e.activeIndex - 1].name);
      NameIsOwned(m, e.stages[e.activeIndex - 1].name);
      OwnBpsChange(s.bps, prev, Bp("", "", [], []), n);
    }
    if e.activeIndex < |e.stages| {
      var stage := e.stages[e.activeIndex];
      NameIsOwned(m, stage.name);
      OwnBpsChange(Kept(m, e, s), BpName(m, stage.name), Bp(uid, e.uid, e.downsync, stage.clusterSelectors), n);
      OwnMintedGrows(s.minted, uid, BpName(m, stage.name), n);
      if m in s.sbps {
        OwnSbpsChange(s.sbps, m, s.sbps[m].(activeStage := stage.name), n);
      }
    }
  }

  /** An event of another name leaves the projection of the server alone at every boundary. */
  lemma OtherServer(ev: Evaluator, st: State, core: Core, k: nat, n: string)
    requires Filed(st.server) && InRange(st) && TracksNamedWell(st) && Proper(st, core) && Target(core) != Some(n)
    ensures ProjectServer(ServerAt(ev, st, core, k), n) == ProjectServer(st.server, n)
  {
    ServerSteps(ev, st, core, k);
    match Bringing(ev, st, core)
    case None =>
      EnvironmentProjects(st.server, core, n);
    case Some(e) =>
      var p := EnsureBoundary(Target(core).value, e, st.server, FaultsOf(core), k);
      OtherBoundary(st.server, Target(core).value, e, FaultsOf(core).uid, p, n);
  }

  lemma OtherTracked(ev: Evaluator, st: State, e: Event, n: string)
    requires Target(e.core) != Some(n)
    ensures if LosesMemory(ev, st, e) then Next(ev, st, e).tracked == map[] else
      (n in Next(ev, st, e).tracked <==> n in st.tracked)
      && (n in st.tracked ==> Next(ev, st, e).tracked[n] == st.tracked[n])
  {
    EffectShape(ev, st, e.core);
  }

  lemma OtherStepProjects(ev: Evaluator, st: State, e: Event, n: string)
    requires Filed(st.server) && InRange(st) && TracksNamedWell(st) && Proper(st, e.core) && Target(e.core) != Some(n)
    ensures Project(Next(ev, st, e), n) ==
      if LosesMemory(ev, st, e) then Next(ev, Project(st, n), RESTART) else Project(st, n)
  {
    NextServer(ev, st, e);
    var k :| Next(ev, st, e).server == ServerAt(ev, st, e.core, k);
    OtherServer(ev, st, e.core, k, n);
    OtherTracked(ev, st, e, n);
    assert Next(ev, Project(st, n), RESTART) == State(map[], ProjectServer(st.server, n));
    hide Next, ProjectServer, LosesMemory;
  }

  // ---------------------------------------------------------------- whole runs

  lemma TracksNamedWellStep(ev: Evaluator, st: State, e: Event)
    requires InRange(st) && TracksNamedWell(st) && Proper(st, e.core)
    ensures TracksNamedWell(Next(ev, st, e))
  {
    var st' := Next(ev, st, e);
    forall n | n in st'.tracked
      ensures NamedWell(n, st'.tracked[n].stages)
    {
      EntryAfter(ev, st, e, n);
    }
  }

  /** Projection: run any interleaving of the events of many StagedBindingPolicies and look at
      one name, or run only the events of that name with the restarts; entry, BindingPolicies,
      object, status and UIDs come out the same. */
  lemma {:induction false} RunsProject(ev: Evaluator, st: State, es: seq<Event>, n: string)
    requires Filed(st.server) && InRange(st) && TracksNamedWell(st) && AllProper(ev, st, es)
    ensures Project(After(ev, st, es), n) == After(ev, Project(st, n), Own(ev, st, es, n))
    decreases |es|
  {
    if |es| > 0 {
      var st' := Next(ev, st, es[0]);
      NextServer(ev, st, es[0]);
      var k :| st'.server == ServerAt(ev, st, es[0].core, k);
      FiledStep(ev, st, es[0].core, k);
      InRangeStep(ev, st, es[0]);
      TracksNamedWellStep(ev, st, es[0]);
      RunsProject(ev, st', es[1..], n);
      var lifted, rest := Lift(ev, st, es[0], n), Own(ev, st', es[1..], n);
      if Target(es[0].core) == Some(n) {
        OwnStepProjects(ev, st, es[0], n);
      } else {
        OtherStepProjects(ev, st, es[0], n);
      }
      if |lifted| == 1 {
        assert (lifted + rest)[1..] == rest;
      } else {
        assert lifted + rest == rest;
      }
    }
  }
}
