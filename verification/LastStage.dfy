/** Which stage lists can bring the process down. An attempt on the last stage is stopped too
    late (`Bounds.AttemptPanicsExactly`); the question here is when one can get that far. */
module LastStage {
  import opened Api
  import opened Names
  import opened Gate
  import opened ApiServers
  import opened Rollout
  import opened Runs
  import opened Steps
  import opened Bounds
  import opened GateSoundness
  import opened Uids

  predicate AllConditioned(stages: seq<Stage>) {
    forall j | 0 <= j < |stages| :: stages[j].condition.Some?
  }

  ghost predicate NotesOnly(r: Run, stages: seq<Stage>) {
    forall t: nat | t < |r.events| && r.events[t].core.Note? :: r.events[t].core.sbp.stages == stages
  }

  // ---------------------------------------------------------------- a stage that stops every rollout

  /** Objects with these stages have not published anything beyond stage j. */
  ghost predicate PublishedUpTo(s: Server, stages: seq<Stage>, j: nat) {
    forall n | n in s.sbps && s.sbps[n].stages == stages :: ResolveStage(stages, s.sbps[n].activeStage) <= j
  }

  ghost predicate TrackedUpTo(st: State, stages: seq<Stage>, j: nat) {
    forall n | n in st.tracked :: st.tracked[n].stages == stages && st.tracked[n].activeIndex <= j
  }

  /** No attempt on stage j passes. */
  ghost predicate StopsAt(ev: Evaluator, st: State, core: Core, j: nat) {
    Tried(st, core).Some? && Tried(st, core).value.activeIndex == j ==>
      !Passes(ev, ListerOf(core), Target(core).value, Tried(st, core).value)
  }

  lemma BringsUpTo(ev: Evaluator, st: State, core: Core, stages: seq<Stage>, j: nat)
    requires TrackedUpTo(st, stages, j) && StopsAt(ev, st, core, j) && Bringing(ev, st, core).Some?
    requires core.Note? ==> core.sbp.stages == stages && ResolveStage(stages, core.sbp.activeStage) <= j
    ensures Bringing(ev, st, core).value.stages == stages && Bringing(ev, st, core).value.activeIndex <= j
  {
  }

  lemma PublishedUpToStep(ev: Evaluator, st: State, core: Core, k: nat, stages: seq<Stage>, j: nat)
    requires Filed(st.server) && PublishedUpTo(st.server, stages, j) && TrackedUpTo(st, stages, j)
    requires StopsAt(ev, st, core, j)
    requires core.Note? ==> core.sbp.stages == stages && ResolveStage(stages, core.sbp.activeStage) <= j
    ensures PublishedUpTo(ServerAt(ev, st, core, k), stages, j)
  {
    hide EnsureActiveStage, GatePasses;
    ServerSteps(ev, st, core, k);
    if Bringing(ev, st, core).Some? {
      var n, b := Target(core).value, Bringing(ev, st, core).value;
      BringsUpTo(ev, st, core, stages, j);
      var p := EnsureBoundary(n, b, st.server, FaultsOf(core), k);
      if p.Published? {
        ResolveOfName(stages, b.activeIndex);
      }
    }
  }

  lemma TrackedUpToStep(ev: Evaluator, st: State, e: Event, stages: seq<Stage>, j: nat)
    requires InRange(st) && TrackedUpTo(st, stages, j) && StopsAt(ev, st, e.core, j)
    requires e.core.Note? ==> e.core.sbp.stages == stages && ResolveStage(stages, e.core.sbp.activeStage) <= j
    ensures TrackedUpTo(Next(ev, st, e), stages, j)
  {
    forall n | n in Next(ev, st, e).tracked
      ensures Next(ev, st, e).tracked[n].stages == stages && Next(ev, st, e).tracked[n].activeIndex <= j
    {
      EntryAfter(ev, st, e, n);
    }
  }

  lemma StoppedDoesNotPanic(ev: Evaluator, st: State, core: Core, stages: seq<Stage>, j: nat)
    requires InRange(st) && TrackedUpTo(st, stages, j) && StopsAt(ev, st, core, j) && j < |stages|
    requires core.Note? ==> core.sbp.stages == stages
    ensures !Panics(ev, st, core)
  {
    EffectShape(ev, st, core);
    if core.Note? {
      NotePanicsExactly(ev, core.lister, core.sbp, st.server, core.f, core.f');
    } else if Tried(st, core).Some? {
      AttemptPanicsExactly(ev, ListerOf(core), Target(core).value, Tried(st, core).value, st.server, FaultsOf(core));
    }
  }

  /** Up to time t nothing has got beyond stage j. */
  ghost predicate UpTo(r: Run, t: nat, stages: seq<Stage>, j: nat)
    requires t < |r.states|
  {
    (forall t0: nat | t0 <= t :: PublishedUpTo(r.states[t0].server, stages, j)) && TrackedUpTo(r.states[t], stages, j)
  }

  lemma UpToStep(ev: Evaluator, r: Run, t: nat, stages: seq<Stage>, j: nat)
    requires IsRun(ev, r) && NotesComeFromServer(r) && NotesOnly(r, stages) && t < |r.events|
    requires UpTo(r, t, stages, j) && StopsAt(ev, r.states[t], r.events[t].core, j)
    ensures UpTo(r, t + 1, stages, j)
  {
    hide PublishedUpTo, TrackedUpTo, StopsAt;
    var st, e := r.states[t], r.events[t];
    assert r.states[t + 1] == Next(ev, st, e);
    if e.core.Note? {
      var t0: nat :| t0 <= t && WasOnServer(r.states[t0], e.core.sbp);
      NotedUpTo(r.states[t0], e.core.sbp, stages, j);
    }
    FiledRun(ev, r, t);
    IndexInRange(ev, r, t);
    NextServer(ev, st, e);
    var k :| Next(ev, st, e).server == ServerAt(ev, st, e.core, k);
    PublishedUpToStep(ev, st, e.core, k, stages, j);
    TrackedUpToStep(ev, st, e, stages, j);
  }

  lemma NotedUpTo(st: State, sbp: Sbp, stages: seq<Stage>, j: nat)
    requires PublishedUpTo(st.server, stages, j) && WasOnServer(st, sbp) && sbp.stages == stages
    ensures ResolveStage(stages, sbp.activeStage) <= j
  {
  }

  // ---------------------------------------------------------------- a stage without a condition

  lemma UnconditionedStops(ev: Evaluator, st: State, core: Core, stages: seq<Stage>, j: nat)
    requires TrackedUpTo(st, stages, j) && j < |stages| && stages[j].condition.None?
    ensures StopsAt(ev, st, core, j)
  {
  }

  lemma {:induction false} UnconditionedUpTo(ev: Evaluator, r: Run, t: nat, stages: seq<Stage>, j: nat)
    requires IsRun(ev, r) && NotesComeFromServer(r) && NotesOnly(r, stages) && t < |r.states|
    requires j < |stages| && stages[j].condition.None?
    ensures UpTo(r, t, stages, j)
  {
    hide Next, StopsAt;
    if t > 0 {
      UnconditionedUpTo(ev, r, t - 1, stages, j);
      UnconditionedStops(ev, r.states[t - 1], r.events[t - 1].core, stages, j);
      UpToStep(ev, r, t - 1, stages, j);
    }
  }

  /** A run that notes only lists with an unconditional stage, last or not, never panics, however
      stale the caches and however incarnations are mixed up. */
  lemma UnconditionedNeverPanics(ev: Evaluator, r: Run, t: nat, stages: seq<Stage>, j: nat)
    requires IsRun(ev, r) && NotesComeFromServer(r) && NotesOnly(r, stages) && t < |r.events|
    requires j < |stages| && stages[j].condition.None?
    ensures !Panics(ev, r.states[t], r.events[t].core)
  {
    hide StopsAt;
    UnconditionedUpTo(ev, r, t, stages, j);
    UnconditionedStops(ev, r.states[t], r.events[t].core, stages, j);
    IndexInRange(ev, r, t);
    StoppedDoesNotPanic(ev, r.states[t], r.events[t].core, stages, j);
  }

  // ---------------------------------------------------------------- many lists at once

  /** Whatever else is noted, as long as no mixed-up step has skipped a stage: an attempt that
      panics is one on a list whose stages all have a condition, all of them satisfied. */
  lemma PanicMeansAllConditioned(ev: Evaluator, r: Run, t: nat)
    requires LawfulRun(ev, r) && t < |r.events| && MixupsCleared(ev, r, t)
    requires !r.events[t].core.Note? && Panics(ev, r.states[t], r.events[t].core)
    ensures Tried(r.states[t], r.events[t].core).Some?
    ensures var e := Tried(r.states[t], r.events[t].core).value;
      && e.stages != [] && AllConditioned(e.stages)
      && ClearedUpTo(ev, r, t + 1, Target(r.events[t].core).value, e.uid, |e.stages|)
  {
    hide GatePasses, EnsureActiveStage;
    var st, core := r.states[t], r.events[t].core;
    NoStageIsSkippedExactly(ev, r, t);
    IndexInRange(ev, r, t);
    EffectShape(ev, st, core);
    var n, e := Target(core).value, Tried(st, core).value;
    AttemptPanicsExactly(ev, ListerOf(core), n, e, st.server, FaultsOf(core));
    assert EntryBacked(ev, r, t, st.server, n, st.tracked[n]);
    TriedBacked(ev, r, t, n, e);
    ClearedMeansConditioned(ev, r, t + 1, n, e, st.server);
  }

  lemma ClearedMeansConditioned(ev: Evaluator, r: Run, t: nat, n: string, e: Entry, s: Server)
    requires IsRun(ev, r) && 0 < t <= |r.events| && s == r.states[t - 1].server
    requires e.uid in s.issued && e.stages == s.issued[e.uid].stages
    requires ClearedUpTo(ev, r, t, n, e.uid, |e.stages|)
    ensures AllConditioned(e.stages)
  {
    forall j: nat | j < |e.stages|
      ensures e.stages[j].condition.Some?
    {
      assert SatisfiedBefore(ev, r, t, n, e.uid, j);
      var t0: nat :| t0 < t && SatisfiedAt(ev, r, t0, n, e.uid, j);
      IssuedGrows(ev, r, t0, t - 1);
    }
  }

  // ---------------------------------------------------------------- a first stage that loses its Bindings

  /** Only first stages have had BindingPolicies, and no workload has arrived. */
  ghost predicate Deaf(st: State, stages: seq<Stage>)
    requires |stages| > 0
  {
    && (forall u | u in st.server.minted :: exists n :: st.server.minted[u] == BpName(n, stages[0].name))
    && (forall n | n in st.tracked :: st.tracked[n].workload == EMPTY_WORKLOAD)
  }

  lemma DeafStops(ev: Evaluator, st: State, core: Core, stages: seq<Stage>)
    requires |stages| > 0 && Contains(stages[0].name, STAGE_INFIX) && Deaf(st, stages)
    requires core.Bind? ==> NamedAfterOwner(st.server, core.binding)
    ensures core.Bind? ==> Target(core).None?
    ensures StopsAt(ev, st, core, 0)
  {
    if core.Bind? {
      var n :| core.binding.name == BpName(n, stages[0].name);
      TwiceSeparated(n, stages[0].name);
    } else if Tried(st, core).Some? {
      EmptyWorkloadBlocks(ev, ListerOf(core), Target(core).value, Tried(st, core).value);
    }
  }

  lemma DeafStep(ev: Evaluator, st: State, e: Event, stages: seq<Stage>)
    requires |stages| > 0 && Deaf(st, stages) && Filed(st.server) && InRange(st) && TrackedUpTo(st, stages, 0)
    requires StopsAt(ev, st, e.core, 0) && (e.core.Bind? ==> Target(e.core).None?)
    requires e.core.Note? ==> e.core.sbp.stages == stages && ResolveStage(stages, e.core.sbp.activeStage) == 0
    ensures Deaf(Next(ev, st, e), stages)
  {
    hide EnsureActiveStage, AttemptCondition, GatePasses, Filed;
    var st' := Next(ev, st, e);
    forall n | n in st'.tracked
      ensures st'.tracked[n].workload == EMPTY_WORKLOAD
    {
      EntryAfter(ev, st, e, n);
    }
    NextServer(ev, st, e);
    var k :| st'.server == ServerAt(ev, st, e.core, k);
    ServerSteps(ev, st, e.core, k);
    if Bringing(ev, st, e.core).Some? {
      BringsUpTo(ev, st, e.core, stages, 0);
      var p := EnsureBoundary(Target(e.core).value, Bringing(ev, st, e.core).value, st.server, FaultsOf(e.core), k);
    }
  }

  lemma {:induction false} DeafRun(ev: Evaluator, r: Run, t: nat, stages: seq<Stage>)
    requires IsRun(ev, r) && NotesComeFromServer(r) && NotesOnly(r, stages) && BindingsNamed(r) && t < |r.states|
    requires |stages| > 0 && Contains(stages[0].name, STAGE_INFIX)
    ensures UpTo(r, t, stages, 0) && Deaf(r.states[t], stages)
  {
    if t > 0 {
      DeafRun(ev, r, t - 1, stages);
      var st, e := r.states[t - 1], r.events[t - 1];
      assert r.states[t - 1 + 1] == Next(ev, st, e);
      DeafStops(ev, st, e.core, stages);
      UpToStep(ev, r, t - 1, stages, 0);
      FiledRun(ev, r, t - 1);
      IndexInRange(ev, r, t - 1);
      if e.core.Note? {
        var t0: nat :| t0 <= t - 1 && WasOnServer(r.states[t0], e.core.sbp);
        NotedUpTo(r.states[t0], e.core.sbp, stages, 0);
      }
      DeafStep(ev, st, e, stages);
    }
  }

  /** If Bindings are named after their BindingPolicies, a first stage whose name contains the
      separator never gets a workload, so its rollout never moves and never panics. */
  lemma DeafNeverPanics(ev: Evaluator, r: Run, t: nat, stages: seq<Stage>)
    requires IsRun(ev, r) && NotesComeFromServer(r) && NotesOnly(r, stages) && BindingsNamed(r) && t < |r.events|
    requires |stages| > 0 && Contains(stages[0].name, STAGE_INFIX)
    ensures !Panics(ev, r.states[t], r.events[t].core)
  {
    DeafRun(ev, r, t, stages);
    IndexInRange(ev, r, t);
    DeafStops(ev, r.states[t], r.events[t].core, stages);
    StoppedDoesNotPanic(ev, r.states[t], r.events[t].core, stages, 0);
  }
}
