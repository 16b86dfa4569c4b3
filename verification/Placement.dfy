/** Where BindingPolicies are, compared with the published stage; when the published stage goes
    back; and that forgetting everything keeps the stage index. */
module Placement {
  import opened Api
  import opened Names
  import opened Gate
  import opened ApiServers
  import opened Rollout
  import opened Runs
  import opened Steps
  import opened Bounds
  import opened GateSoundness

  // ---------------------------------------------------------------- resolvable stage names

  predicate Resolvable(stages: seq<Stage>) {
    && (forall i, j | 0 <= i < j < |stages| :: stages[i].name != stages[j].name)
    && (forall i | 0 < i < |stages| :: stages[i].name != "")
  }

  /** Every published stage resolves to itself exactly when stage names are distinct and none
      after the first is empty. */
  lemma ResolvableExactly(stages: seq<Stage>)
    ensures Resolvable(stages) <==> forall k | 0 <= k < |stages| :: ResolveStage(stages, stages[k].name) == k
  {
    if Resolvable(stages) {
      forall k | 0 <= k < |stages|
        ensures ResolveStage(stages, stages[k].name) == k
      {
      }
    }
    if !Resolvable(stages) {
      if i, j :| 0 <= i < j < |stages| && stages[i].name == stages[j].name {
        assert ResolveStage(stages, stages[i].name) == ResolveStage(stages, stages[j].name);
      }
    }
  }

  // ---------------------------------------------------------------- assumptions on a run

  ghost predicate CreatesResolvable(r: Run) {
    forall t: nat | t < |r.events| && r.events[t].core.UserCreate? :: Resolvable(r.events[t].core.sbp.stages)
  }

  /** The object n owns no BindingPolicy yet. */
  ghost predicate Unserved(s: Server, n: string)
    requires n in s.sbps
  {
    forall b | b in s.bps :: s.bps[b].ownerUid != s.sbps[n].uid
  }

  /** The noted object was created on this server and, if it still exists, is noted as it is; if
      it has been deleted and created again, the new object owns no BindingPolicy yet. */
  ghost predicate NotBehind(s: Server, sbp: Sbp) {
    && sbp.uid in s.issued && s.issued[sbp.uid] == sbp.(activeStage := "")
    && (sbp.name in s.sbps ==>
          if s.sbps[sbp.name].uid == sbp.uid then s.sbps[sbp.name] == sbp else Unserved(s, sbp.name))
  }

  /** In particular, noting what the server has is not behind. */
  lemma CurrentIsNotBehind(st: State, sbp: Sbp)
    requires Filed(st.server) && WasOnServer(st, sbp)
    ensures NotBehind(st.server, sbp)
  {
  }

  ghost predicate NotesCurrent(r: Run)
    requires |r.states| == |r.events| + 1
  {
    forall t: nat | t < |r.events| && r.events[t].core.Note? :: NotBehind(r.states[t].server, r.events[t].core.sbp)
  }

  ghost predicate Placing(ev: Evaluator, r: Run) {
    IsRun(ev, r) && CreatesResolvable(r) && NotesCurrent(r)
  }

  /** No status write is applied and then reported as failed. */
  ghost predicate NoLostStatus(r: Run) {
    forall t: nat | t < |r.events| :: !FaultsOf(r.events[t].core).put.Lost?
  }

  // ---------------------------------------------------------------- the invariant

  function StageOf(o: Sbp): nat {
    ResolveStage(o.stages, o.activeStage)
  }

  /** This BindingPolicy is that of stage j of o, with that stage's selectors and o's downsync. */
  predicate PlacedAt(o: Sbp, bpName: string, bp: Bp, j: nat) {
    && j < |o.stages| && bpName == BpName(o.name, o.stages[j].name)
    && bp.clusterSelectors == o.stages[j].clusterSelectors && bp.downsync == o.downsync
  }

  predicate PlacedNear(o: Sbp, bpName: string, bp: Bp) {
    PlacedAt(o, bpName, bp, StageOf(o)) || PlacedAt(o, bpName, bp, StageOf(o) + 1)
  }

  /** The BindingPolicies a StagedBindingPolicy owns are those of its published stage and the next. */
  ghost predicate Window(s: Server) {
    forall n, b | n in s.sbps && b in s.bps && s.bps[b].ownerUid == s.sbps[n].uid ::
      PlacedNear(s.sbps[n], b, s.bps[b])
  }

  ghost predicate Accounted(s: Server) {
    && Filed(s)
    && (forall u | u in s.issued :: Resolvable(s.issued[u].stages))
    && (forall b | b in s.bps :: s.bps[b].ownerUid in s.issued)
  }

  /** The entry is about the object issued under its UID. */
  predicate Stems(s: Server, n: string, e: Entry) {
    e.uid in s.issued && s.issued[e.uid].name == n
    && e.stages == s.issued[e.uid].stages && e.downsync == s.issued[e.uid].downsync
  }

  /** The entry and the server object of name n are of the same incarnation. */
  predicate Matched(s: Server, n: string, e: Entry) {
    n in s.sbps && s.sbps[n].uid == e.uid
  }

  /** An entry of the incarnation on the server is near the published stage; as long as an entry
      of an earlier incarnation is tracked, the new object owns nothing. */
  ghost predicate NearPublished(s: Server, n: string, e: Entry, exact: bool) {
    && Stems(s, n, e)
    && (Matched(s, n, e) ==>
          e.activeIndex == StageOf(s.sbps[n]) || (!exact && e.activeIndex + 1 == StageOf(s.sbps[n])))
    && (n in s.sbps && !Matched(s, n, e) ==> Unserved(s, n))
  }

  /** Entries stand at the published stage; after a lost status write they may be one behind. */
  ghost predicate Near(st: State, exact: bool) {
    forall n | n in st.tracked :: NearPublished(st.server, n, st.tracked[n], exact)
  }

  ghost predicate Steady(st: State, exact: bool) {
    Accounted(st.server) && Window(st.server) && Near(st, exact)
  }

  // ---------------------------------------------------------------- one step

  /** An entry that is to be brought up at the published stage or the next one, or that is of an
      earlier incarnation than the object on the server. */
  ghost predicate Ready(s: Server, n: string, e: Entry) {
    && Stems(s, n, e)
    && (Matched(s, n, e) ==> e.activeIndex == StageOf(s.sbps[n]) || e.activeIndex == StageOf(s.sbps[n]) + 1)
    && (n in s.sbps && !Matched(s, n, e) ==> Unserved(s, n))
  }

  lemma OtherOwners(s: Server, n: string, e: Entry, m: string)
    requires Accounted(s) && Stems(s, n, e) && m in s.sbps && m != n
    ensures s.sbps[m].uid != e.uid
  {
  }

  lemma AtKeepsObjects(s: Server, n: string, e: Entry, uid: string, p: Progress)
    requires Possible(n, e, s, p)
    ensures At(n, e, s, uid, p).issued == s.issued && At(n, e, s, uid, p).sbps.Keys == s.sbps.Keys
  {
  }

  lemma PublishedResolves(s: Server, n: string, e: Entry, uid: string, p: Progress)
    requires Accounted(s) && Ready(s, n, e) && Possible(n, e, s, p) && Matched(s, n, e)
    ensures n in At(n, e, s, uid, p).sbps
    ensures StageOf(At(n, e, s, uid, p).sbps[n]) == if p.Published? then e.activeIndex else StageOf(s.sbps[n])
    ensures At(n, e, s, uid, p).sbps[n].uid == s.sbps[n].uid
  {
    ResolvableExactly(e.stages);
  }

  /** A BindingPolicy of n stays near the published stage: publishing the next stage comes only
      after the BindingPolicy of the published one is gone. */
  lemma PlacedNearKept(s: Server, n: string, e: Entry, uid: string, p: Progress, b: string)
    requires Accounted(s) && Window(s) && Ready(s, n, e) && Possible(n, e, s, p) && Matched(s, n, e)
    requires n in At(n, e, s, uid, p).sbps && b in At(n, e, s, uid, p).bps && At(n, e, s, uid, p).bps[b].ownerUid == e.uid
    ensures PlacedNear(At(n, e, s, uid, p).sbps[n], b, At(n, e, s, uid, p).bps[b])
  {
    hide ResolveStage, Resolvable, BpName;
    PublishedResolves(s, n, e, uid, p);
    var o := s.sbps[n];
    var created := (p.Created? || p.Published?) && b == BpName(n, e.stages[e.activeIndex].name);
    if !created {
      assert b in s.bps;
      assert PlacedNear(o, b, s.bps[b]);
    }
  }

  /** What an entry of an earlier incarnation creates is not owned by the new object. */
  lemma UnservedKept(s: Server, n: string, e: Entry, uid: string, p: Progress)
    requires Possible(n, e, s, p) && n in s.sbps && s.sbps[n].uid != e.uid && Unserved(s, n)
    ensures n in At(n, e, s, uid, p).sbps && At(n, e, s, uid, p).sbps[n].uid == s.sbps[n].uid
    ensures Unserved(At(n, e, s, uid, p), n)
  {
  }

  lemma AccountedKept(s: Server, n: string, e: Entry, uid: string, p: Progress)
    requires Accounted(s) && Stems(s, n, e) && Possible(n, e, s, p)
    ensures Accounted(At(n, e, s, uid, p))
  {
  }

  lemma WindowKept(s: Server, n: string, e: Entry, uid: string, p: Progress)
    requires Accounted(s) && Window(s) && Ready(s, n, e) && Possible(n, e, s, p)
    ensures Accounted(At(n, e, s, uid, p)) && Window(At(n, e, s, uid, p))
  {
    var s' := At(n, e, s, uid, p);
    AccountedKept(s, n, e, uid, p);
    forall m, b | m in s'.sbps && b in s'.bps && s'.bps[b].ownerUid == s'.sbps[m].uid
      ensures PlacedNear(s'.sbps[m], b, s'.bps[b])
    {
      if m != n {
        OtherOwners(s, n, e, m);
        assert b in s.bps && PlacedNear(s.sbps[m], b, s.bps[b]);
      } else if Matched(s, n, e) {
        PlacedNearKept(s, n, e, uid, p, b);
      } else {
        UnservedKept(s, n, e, uid, p);
      }
    }
  }

  lemma EnvironmentKeepsWindow(s: Server, core: Core)
    requires Accounted(s) && Window(s) && (core.UserCreate? ==> Resolvable(core.sbp.stages))
    ensures Accounted(Environment(s, core)) && Window(Environment(s, core))
  {
    hide PlacedNear, Resolvable;
  }

  lemma EnvironmentKept(st: State, core: Core, exact: bool)
    requires Steady(st, exact)
    requires core.UserCreate? ==> Resolvable(core.sbp.stages)
    ensures Steady(State(st.tracked, Environment(st.server, core)), exact)
  {
    hide PlacedNear, Resolvable;
    var s' := Environment(st.server, core);
    EnvironmentKeepsWindow(st.server, core);
    forall n | n in st.tracked
      ensures NearPublished(s', n, st.tracked[n], exact)
    {
      hide Window;
      assert NearPublished(st.server, n, st.tracked[n], exact);
    }
  }

  lemma BringingReady(ev: Evaluator, st: State, core: Core, exact: bool)
    requires Steady(st, exact) && InRange(st)
    requires core.Note? ==> NotBehind(st.server, core.sbp)
    requires Bringing(ev, st, core).Some?
    ensures Ready(st.server, Target(core).value, Bringing(ev, st, core).value)
  {
  }

  /** The window holds at every API-call boundary of every kind of event. */
  lemma WindowStep(ev: Evaluator, st: State, core: Core, exact: bool, k: nat)
    requires Steady(st, exact) && InRange(st)
    requires core.Note? ==> NotBehind(st.server, core.sbp)
    requires core.UserCreate? ==> Resolvable(core.sbp.stages)
    ensures Accounted(ServerAt(ev, st, core, k)) && Window(ServerAt(ev, st, core, k))
  {
    ServerSteps(ev, st, core, k);
    match Bringing(ev, st, core)
    case None => EnvironmentKept(st, core, exact);
    case Some(e) =>
      BringingReady(ev, st, core, exact);
      var p := EnsureBoundary(Target(core).value, e, st.server, FaultsOf(core), k);
      WindowKept(st.server, Target(core).value, e, FaultsOf(core).uid, p);
  }

  /** The entry and the server after a step that completes, in terms of bringing up a stage. */
  lemma BringingCompletes(ev: Evaluator, st: State, e: Event, n: string) returns (p: Progress)
    requires Filed(st.server) && InRange(st) && n in Next(ev, st, e).tracked
    requires Target(e.core) == Some(n) && Bringing(ev, st, e.core).Some?
    ensures var b := Bringing(ev, st, e.core).value;
      var x := EnsureActiveStage(n, b, st.server, FaultsOf(e.core));
      && Possible(n, b, st.server, p)
      && Next(ev, st, e).server == At(n, b, st.server, FaultsOf(e.core).uid, p)
      && (x.outcome == Done ==> p.Published?)
      && (x.outcome != Done && p.Published? ==> FaultsOf(e.core).put.Lost?)
      && (x.outcome != Done && p.Created? ==>
            FaultsOf(e.core).create.Lost? || !FaultsOf(e.core).get.Clean? || n !in st.server.sbps || FaultsOf(e.core).put.Reject?)
      && Next(ev, st, e).tracked[n].activeIndex ==
         (if x.outcome == Done || e.core.Note? then b.activeIndex else b.activeIndex - 1)
  {
    var b := Bringing(ev, st, e.core).value;
    var x := EnsureActiveStage(n, b, st.server, FaultsOf(e.core));
    EffectShape(ev, st, e.core);
    ServerSteps(ev, st, e.core, |x.calls|);
    EntryAfter(ev, st, e, n);
    EnsureEntry(n, b, st.server, FaultsOf(e.core));
    assert x.Boundary(st.server, |x.calls|) == x.Final(st.server);
    p := EnsureBoundary(n, b, st.server, FaultsOf(e.core), |x.calls|);
  }

  /** An entry that has got as far as p says stands at the published stage, or one behind it if
      the status write was applied without an answer. */
  lemma NearAtProgress(s: Server, n: string, b: Entry, uid: string, p: Progress, e: Entry, exact: bool)
    requires Accounted(s) && Ready(s, n, b) && Possible(n, b, s, p)
    requires Stems(s, n, e) && e.uid == b.uid
    requires p.Published? ==> e.activeIndex == b.activeIndex || (!exact && e.activeIndex + 1 == b.activeIndex)
    requires !p.Published? && Matched(s, n, e) ==>
      e.activeIndex == StageOf(s.sbps[n]) || (!exact && e.activeIndex + 1 == StageOf(s.sbps[n]))
    ensures NearPublished(At(n, b, s, uid, p), n, e, exact)
  {
    hide ResolveStage, Resolvable;
    AtKeepsObjects(s, n, b, uid, p);
    if Matched(s, n, b) {
      PublishedResolves(s, n, b, uid, p);
    } else if n in s.sbps {
      UnservedKept(s, n, b, uid, p);
    }
  }

  /** The entry that was brought up. */
  lemma NearAfterOwnBringing(ev: Evaluator, st: State, e: Event, exact: bool, n: string)
    requires Steady(st, exact) && InRange(st)
    requires e.core.Note? ==> NotBehind(st.server, e.core.sbp)
    requires exact ==> !FaultsOf(e.core).put.Lost?
    requires Target(e.core) == Some(n) && n in Next(ev, st, e).tracked && Bringing(ev, st, e.core).Some?
    ensures NearPublished(Next(ev, st, e).server, n, Next(ev, st, e).tracked[n], exact)
  {
    hide Window, ResolveStage, GatePasses, Resolvable, Filed;
    hide Next, EnsureActiveStage, AttemptCondition, At, Possible;
    var b := Bringing(ev, st, e.core).value;
    EntryAfter(ev, st, e, n);
    BringingReady(ev, st, e.core, exact);
    assert Filed(st.server);
    var p := BringingCompletes(ev, st, e, n);
    if !e.core.Note? {
      assert NearPublished(st.server, n, st.tracked[n], exact);
    }
    NearAtProgress(st.server, n, b, FaultsOf(e.core).uid, p, Next(ev, st, e).tracked[n], exact);
  }

  /** What an entry of one name creates and publishes is nothing to the entries of others. */
  lemma NearKeptByOther(s: Server, n: string, b: Entry, uid: string, p: Progress, m: string, e: Entry, exact: bool)
    requires Accounted(s) && Stems(s, n, b) && Possible(n, b, s, p) && m != n
    requires NearPublished(s, m, e, exact)
    ensures NearPublished(At(n, b, s, uid, p), m, e, exact)
  {
    hide ResolveStage, Resolvable;
    if m in s.sbps {
      OtherOwners(s, n, b, m);
    }
  }

  /** The entries of other names. */
  lemma NearAfterOtherBringing(ev: Evaluator, st: State, e: Event, exact: bool, m: string)
    requires Steady(st, exact) && InRange(st) && (e.core.Note? ==> NotBehind(st.server, e.core.sbp))
    requires m in Next(ev, st, e).tracked && Bringing(ev, st, e.core).Some? && Target(e.core) != Some(m)
    ensures NearPublished(Next(ev, st, e).server, m, Next(ev, st, e).tracked[m], exact)
  {
    hide Window, ResolveStage;
    hide Next, EnsureActiveStage, AttemptCondition, At;
    var n, b := Target(e.core).value, Bringing(ev, st, e.core).value;
    EntryAfter(ev, st, e, m);
    ServerSteps(ev, st, e.core, 0);
    NextServer(ev, st, e);
    var k :| Next(ev, st, e).server == ServerAt(ev, st, e.core, k);
    ServerSteps(ev, st, e.core, k);
    var p := EnsureBoundary(n, b, st.server, FaultsOf(e.core), k);
    BringingReady(ev, st, e.core, exact);
    NearKeptByOther(st.server, n, b, FaultsOf(e.core).uid, p, m, st.tracked[m], exact);
  }

  lemma NearAfterQuiet(ev: Evaluator, st: State, e: Event, exact: bool, m: string)
    requires Steady(st, exact) && InRange(st) && m in Next(ev, st, e).tracked
    requires Bringing(ev, st, e.core).None?
    requires e.core.UserCreate? ==> Resolvable(e.core.sbp.stages)
    ensures NearPublished(Next(ev, st, e).server, m, Next(ev, st, e).tracked[m], exact)
  {
    EntryAfter(ev, st, e, m);
    EffectShape(ev, st, e.core);
    NextServer(ev, st, e);
    var k :| Next(ev, st, e).server == ServerAt(ev, st, e.core, k);
    ServerSteps(ev, st, e.core, k);
    EnvironmentKept(st, e.core, exact);
    assert NearPublished(Environment(st.server, e.core), m, st.tracked[m], exact);
  }

  /** After a completed step entries stand at the published stage again, or one behind it if
      the status write was applied but reported as failed. */
  lemma NearStep(ev: Evaluator, st: State, e: Event, exact: bool)
    requires Steady(st, exact) && InRange(st)
    requires e.core.Note? ==> NotBehind(st.server, e.core.sbp)
    requires e.core.UserCreate? ==> Resolvable(e.core.sbp.stages)
    requires exact ==> !FaultsOf(e.core).put.Lost?
    ensures Near(Next(ev, st, e), exact)
  {
    forall m | m in Next(ev, st, e).tracked
      ensures NearPublished(Next(ev, st, e).server, m, Next(ev, st, e).tracked[m], exact)
    {
      if Bringing(ev, st, e.core).Some? {
        if Target(e.core) == Some(m) {
          NearAfterOwnBringing(ev, st, e, exact, m);
        } else {
          NearAfterOtherBringing(ev, st, e, exact, m);
        }
      } else {
        NearAfterQuiet(ev, st, e, exact, m);
      }
    }
  }

  // ---------------------------------------------------------------- whole runs

  lemma {:induction false} SteadyRun(ev: Evaluator, r: Run, exact: bool, t: nat)
    requires Placing(ev, r) && t < |r.states| && (exact ==> NoLostStatus(r))
    ensures Steady(r.states[t], exact)
  {
    if t > 0 {
      SteadyRun(ev, r, exact, t - 1);
      IndexInRange(ev, r, t - 1);
      var st, e := r.states[t - 1], r.events[t - 1];
      assert r.states[t - 1 + 1] == Next(ev, st, e);
      NearStep(ev, st, e, exact);
      NextServer(ev, st, e);
      var k :| Next(ev, st, e).server == ServerAt(ev, st, e.core, k);
      WindowStep(ev, st, e.core, exact, k);
    }
  }

  /** Crash-safe placement: if each note sees the current object, then at every API-call boundary
      of every step, rejected calls, lost replies, deaths and panics included, the BindingPolicies
      a StagedBindingPolicy owns are those of its published stage and the one after it, each with
      its own stage's selectors and the StagedBindingPolicy's downsync. */
  lemma PlacementWindow(ev: Evaluator, r: Run, t: nat, k: nat)
    requires Placing(ev, r) && t < |r.events|
    ensures Window(ServerAt(ev, r.states[t], r.events[t].core, k))
  {
    SteadyRun(ev, r, false, t);
    IndexInRange(ev, r, t);
    WindowStep(ev, r.states[t], r.events[t].core, false, k);
  }

  /** What a process that dies gets back is the stage index, and no more: as long as no status write
      is lost, every tracked entry of a live object stands at the stage the published status
      resolves to, whatever else has failed, and noting the object again, however its calls fare,
      restores that index. UID and workload are lost. */
  lemma RenotingRestoresIndex(ev: Evaluator, r: Run, t: nat, n: string, lister: Lister, f: Faults, f': Faults)
    requires Placing(ev, r) && NoLostStatus(r) && t < |r.states|
    requires n in r.states[t].tracked && Matched(r.states[t].server, n, r.states[t].tracked[n])
    ensures var st := r.states[t];
      var dead := Next(ev, st, Event(Idle, DiesAfter(0)));
      var back := Next(ev, dead, Event(Note(st.server.sbps[n], lister, f, f'), Completes));
      && st.tracked[n].activeIndex == StageOf(st.server.sbps[n])
      && n in back.tracked
      && back.tracked[n] == st.tracked[n].(activeUid := back.tracked[n].activeUid, workload := EMPTY_WORKLOAD)
  {
    var st := r.states[t];
    SteadyRun(ev, r, true, t);
    IndexInRange(ev, r, t);
    assert NearPublished(st.server, n, st.tracked[n], true);
    var dead := Next(ev, st, Event(Idle, DiesAfter(0)));
    var sbp := st.server.sbps[n];
    assert sbp.name == n && sbp.stages == st.tracked[n].stages != [];
    NotePanicsExactly(ev, lister, sbp, dead.server, f, f');
    NoteStaysAtResolvedStage(ev, lister, sbp, dead.server, f, f');
    EnsureEntry(n, FreshEntry(sbp), dead.server, f);
  }

  lemma OnlyLostStatusPublishesOnFailure(n: string, b: Entry, s: Server, f: Faults)
    requires Accounted(s) && Stems(s, n, b) && Matched(s, n, b) && b.activeIndex == StageOf(s.sbps[n]) + 1
    ensures var y := EnsureActiveStage(n, b, s, f);
      && n in y.Final(s).sbps
      && (y.outcome == Done ==> StageOf(y.Final(s).sbps[n]) == b.activeIndex && !f.put.Lost?)
      && (y.outcome == Failed ==>
            StageOf(y.Final(s).sbps[n]) == if ReachesWrite(n, b, s, f) && f.put.Lost? then b.activeIndex else b.activeIndex - 1)
  {
    hide EnsureActiveStage, ResolveStage, Resolvable;
    ResolvableExactly(b.stages);
    StatusWrittenExactly(n, b, s, f);
    if b.activeIndex < |b.stages| {
      StageComesUpExactly(n, b, s, f);
    }
    if EnsureActiveStage(n, b, s, f).outcome == Done {
      WhatAStageBrings(n, b, s, f);
    }
  }

  /** Exactly a lost status write takes memory and status apart: from an entry at the published
      stage, an attempt that returns leaves them apart if and only if the condition passes, there
      is a next stage without a BindingPolicy, every call before the write is answered well, and
      the write is applied and reported as failed. */
  lemma OnlyLostStatusDiverges(ev: Evaluator, lister: Lister, n: string, e: Entry, s: Server, f: Faults)
    requires Accounted(s) && Stems(s, n, e) && Matched(s, n, e)
    requires e.activeIndex < |e.stages| && e.activeIndex == StageOf(s.sbps[n])
    ensures var x := AttemptCondition(ev, lister, n, e, s, f);
      x.outcome == Done ==>
        n in x.Final(s).sbps
        && (x.entry.activeIndex != StageOf(x.Final(s).sbps[n]) <==>
              && Passes(ev, lister, n, e)
              && e.activeIndex + 1 < |e.stages|
              && f.del.Clean? && f.create.Clean?
              && BpName(n, e.stages[e.activeIndex + 1].name) !in s.bps - {BpName(n, e.stages[e.activeIndex].name)}
              && f.get.Clean? && f.put.Lost?)
  {
    hide EnsureActiveStage, GatePasses, ResolveStage;
    if Passes(ev, lister, n, e) {
      var b := e.(activeIndex := e.activeIndex + 1);
      EnsureEntry(n, b, s, f);
      OnlyLostStatusPublishesOnFailure(n, b, s, f);
      AttemptCalls(ev, lister, n, e, s, f, 0);
    }
  }

  // ---------------------------------------------------------------- when the published stage goes back

  /** Where n is the same object in s and s', its published stage has not gone back. */
  ghost predicate NotBack(s: Server, s': Server, n: string) {
    n in s.sbps && n in s'.sbps && s'.sbps[n].uid == s.sbps[n].uid ==> StageOf(s.sbps[n]) <= StageOf(s'.sbps[n])
  }

  lemma PublishedStep(ev: Evaluator, st: State, core: Core, n: string, k: nat)
    requires Steady(st, false) && InRange(st) && !MixedUp(ev, st, core)
    requires core.Note? ==> NotBehind(st.server, core.sbp)
    ensures NotBack(st.server, ServerAt(ev, st, core, k), n)
  {
    hide Window, ResolveStage, Resolvable, GatePasses, EnsureActiveStage, EffectOf;
    ServerSteps(ev, st, core, k);
    if Bringing(ev, st, core).Some? {
      var m, b := Target(core).value, Bringing(ev, st, core).value;
      BringingReady(ev, st, core, false);
      var p := EnsureBoundary(m, b, st.server, FaultsOf(core), k);
      if p.Published? && m == n {
        PublishedResolves(st.server, n, b, FaultsOf(core).uid, p);
      }
    }
  }

  /** An object that is on the server after a step, under a UID already handed out, was there
      before with the same UID. */
  lemma WasThere(ev: Evaluator, st: State, core: Core, n: string, k: nat)
    requires Filed(st.server) && n in ServerAt(ev, st, core, k).sbps
    requires ServerAt(ev, st, core, k).sbps[n].uid in st.server.issued
    ensures n in st.server.sbps && st.server.sbps[n].uid == ServerAt(ev, st, core, k).sbps[n].uid
  {
    hide EnsureActiveStage, EffectOf, Bringing;
    ServerSteps(ev, st, core, k);
    if Bringing(ev, st, core).Some? {
      var p := EnsureBoundary(Target(core).value, Bringing(ev, st, core).value, st.server, FaultsOf(core), k);
    }
  }

  ghost predicate Unmixed(ev: Evaluator, r: Run, a: nat, b: nat)
    requires b <= |r.events| < |r.states|
  {
    forall t: nat | a <= t < b :: !MixedUp(ev, r.states[t], r.events[t].core)
  }

  /** As long as notes are not behind and no incarnations are mixed up, the published stage of an
      object never goes back, over any stretch of a run, deaths and failures included. */
  lemma {:induction false} PublishedNeverGoesBack(ev: Evaluator, r: Run, a: nat, b: nat, n: string)
    requires Placing(ev, r) && a <= b < |r.states| && Unmixed(ev, r, a, b)
    requires n in r.states[a].server.sbps && n in r.states[b].server.sbps
    requires r.states[b].server.sbps[n].uid == r.states[a].server.sbps[n].uid
    ensures StageOf(r.states[a].server.sbps[n]) <= StageOf(r.states[b].server.sbps[n])
    decreases b - a
  {
    hide MixedUp, Next, ServerAt, Steady, ResolveStage, NotBehind;
    if a < b {
      var st, e := r.states[b - 1], r.events[b - 1];
      assert r.states[b - 1 + 1] == Next(ev, st, e);
      NextServer(ev, st, e);
      var k :| Next(ev, st, e).server == ServerAt(ev, st, e.core, k);
      FiledRun(ev, r, a);
      FiledRun(ev, r, b - 1);
      IssuedGrows(ev, r, a, b - 1);
      WasThere(ev, st, e.core, n, k);
      PublishedNeverGoesBack(ev, r, a, b - 1, n);
      SteadyRun(ev, r, false, b - 1);
      IndexInRange(ev, r, b - 1);
      PublishedStep(ev, st, e.core, n, k);
    }
  }

  /** A note, however stale, makes the published stage go back exactly if its status write is
      applied and the name it writes is that of an earlier stage of the object on the server; for
      a snapshot with the same stages, exactly if it resolves to an earlier stage. */
  lemma NoteLowersExactly(ev: Evaluator, lister: Lister, sbp: Sbp, s: Server, f: Faults, f': Faults)
    requires Filed(s) && sbp.name in s.sbps
    ensures var o, e := s.sbps[sbp.name], FreshEntry(sbp);
      var s' := NoteSbp(ev, lister, sbp, s, f, f').Final(s);
      && sbp.name in s'.sbps
      && (StageOf(s'.sbps[sbp.name]) < StageOf(o) <==>
            && ReachesWrite(sbp.name, e, s, f) && !f.put.Reject?
            && ResolveStage(o.stages, e.stages[e.activeIndex].name) < StageOf(o))
      && (o.stages == sbp.stages && e.activeIndex < |e.stages| ==>
            ResolveStage(o.stages, e.stages[e.activeIndex].name) == e.activeIndex)
  {
    NoteStaysAtResolvedStage(ev, lister, sbp, s, f, f');
    StatusWrittenExactly(sbp.name, FreshEntry(sbp), s, f);
    hide EnsureActiveStage, NoteSbp;
  }

  // ---------------------------------------------------------------- undisturbed runs

  /** No death, no lost create, and every status read and write is answered. Deletes and creates
      may be rejected, and deletes may lose their answer. */
  ghost predicate Undisturbed(r: Run) {
    forall t: nat | t < |r.events| ::
      var f := FaultsOf(r.events[t].core);
      r.events[t].fate == Completes && !f.create.Lost? && f.get.Clean? && f.put.Clean?
  }

  /** Every BindingPolicy a live StagedBindingPolicy owns is that of the published stage. */
  ghost predicate OnlyPublished(s: Server) {
    forall n, b | n in s.sbps && b in s.bps && s.bps[b].ownerUid == s.sbps[n].uid ::
      PlacedAt(s.sbps[n], b, s.bps[b], StageOf(s.sbps[n]))
  }

  lemma OnlyPublishedKept(s: Server, n: string, e: Entry, uid: string, p: Progress)
    requires Accounted(s) && OnlyPublished(s) && Ready(s, n, e) && Possible(n, e, s, p)
    requires p.Created? ==> n !in s.sbps
    ensures OnlyPublished(At(n, e, s, uid, p))
  {
    var s' := At(n, e, s, uid, p);
    forall m, b | m in s'.sbps && b in s'.bps && s'.bps[b].ownerUid == s'.sbps[m].uid
      ensures PlacedAt(s'.sbps[m], b, s'.bps[b], StageOf(s'.sbps[m]))
    {
      if m != n {
        OtherOwners(s, n, e, m);
        assert b in s.bps && PlacedAt(s.sbps[m], b, s.bps[b], StageOf(s.sbps[m]));
      } else if Matched(s, n, e) {
        OwnOnlyPublishedKept(s, n, e, uid, p, b);
      } else {
        UnservedKept(s, n, e, uid, p);
      }
    }
  }

  lemma OwnOnlyPublishedKept(s: Server, n: string, e: Entry, uid: string, p: Progress, b: string)
    requires Accounted(s) && OnlyPublished(s) && Ready(s, n, e) && Possible(n, e, s, p)
    requires Matched(s, n, e) && !p.Created?
    requires b in At(n, e, s, uid, p).bps && At(n, e, s, uid, p).bps[b].ownerUid == e.uid
    ensures n in At(n, e, s, uid, p).sbps
    ensures var s' := At(n, e, s, uid, p); PlacedAt(s'.sbps[n], b, s'.bps[b], StageOf(s'.sbps[n]))
  {
    PublishedResolves(s, n, e, uid, p);
    if !(p.Published? && b == BpName(n, e.stages[e.activeIndex].name)) {
      assert b in s.bps && PlacedAt(s.sbps[n], b, s.bps[b], StageOf(s.sbps[n]));
    }
  }

  lemma OnlyPublishedStep(ev: Evaluator, st: State, e: Event)
    requires Steady(st, true) && InRange(st) && OnlyPublished(st.server)
    requires e.core.Note? ==> NotBehind(st.server, e.core.sbp)
    requires e.fate == Completes
    requires var f := FaultsOf(e.core); !f.create.Lost? && f.get.Clean? && f.put.Clean?
    ensures OnlyPublished(Next(ev, st, e).server)
  {
    hide EnsureActiveStage, GatePasses, At, PlacedAt, ResolveStage;
    match Bringing(ev, st, e.core)
    case None =>
      NextServer(ev, st, e);
      var k :| Next(ev, st, e).server == ServerAt(ev, st, e.core, k);
      ServerSteps(ev, st, e.core, k);
    case Some(b) =>
      var n := Target(e.core).value;
      var x := EnsureActiveStage(n, b, st.server, FaultsOf(e.core));
      BringingReady(ev, st, e.core, true);
      ServerSteps(ev, st, e.core, |x.calls|);
      assert x.Boundary(st.server, |x.calls|) == x.Final(st.server);
      var p := EnsureBoundary(n, b, st.server, FaultsOf(e.core), |x.calls|);
      PanicPastTheEnd(n, b, st.server, FaultsOf(e.core));
      OnlyPublishedKept(st.server, n, b, FaultsOf(e.core).uid, p);
  }

  lemma PanicPastTheEnd(n: string, e: Entry, s: Server, f: Faults)
    ensures EnsureActiveStage(n, e, s, f).outcome == Panicked ==> e.activeIndex >= |e.stages|
  {
  }

  /** On undisturbed runs, between events, a live StagedBindingPolicy owns at most one
      BindingPolicy, and that is the one of its published stage. */
  lemma {:induction false} AtMostTheActiveOne(ev: Evaluator, r: Run, t: nat)
    requires Placing(ev, r) && Undisturbed(r) && t < |r.states|
    ensures OnlyPublished(r.states[t].server)
    ensures var s := r.states[t].server;
      forall n, b, b' | n in s.sbps && b in s.bps && b' in s.bps
        && s.bps[b].ownerUid == s.sbps[n].uid && s.bps[b'].ownerUid == s.sbps[n].uid :: b == b'
  {
    if t > 0 {
      AtMostTheActiveOne(ev, r, t - 1);
      SteadyRun(ev, r, true, t - 1);
      IndexInRange(ev, r, t - 1);
      var st, e := r.states[t - 1], r.events[t - 1];
      assert r.states[t - 1 + 1] == Next(ev, st, e);
      OnlyPublishedStep(ev, st, e);
    }
  }
}
