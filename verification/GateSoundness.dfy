/** No stage is reached, in memory or in a published status, before the conditions of all the
    stages in front of it were satisfied. */
module GateSoundness {
  import opened Api
  import opened Gate
  import opened ApiServers
  import opened Rollout
  import opened Runs
  import opened Steps
  import opened Bounds

  // ---------------------------------------------------------------- assumptions on a run

  ghost predicate ListersLawful(r: Run) {
    forall t: nat | t < |r.events| :: Lawful(ListerOf(r.events[t].core))
  }

  /** Every noted StagedBindingPolicy once was what the server had, however long ago: the cache
      may be arbitrarily stale. */
  ghost predicate NotesComeFromServer(r: Run)
    requires |r.states| == |r.events| + 1
  {
    forall t: nat | t < |r.events| && r.events[t].core.Note? ::
      exists t0: nat | t0 <= t :: WasOnServer(r.states[t0], r.events[t].core.sbp)
  }

  ghost predicate WasOnServer(st: State, sbp: Sbp) {
    sbp.name in st.server.sbps && st.server.sbps[sbp.name] == sbp
  }

  /** The step brings up a stage for an incarnation of n other than the object on the server: an
      old snapshot is noted, or an old entry moves on, after n was deleted and created again. */
  ghost predicate MixedUp(ev: Evaluator, st: State, core: Core) {
    var b := Bringing(ev, st, core);
    && b.Some? && Target(core).value in st.server.sbps
    && st.server.sbps[Target(core).value].uid != b.value.uid
    && b.value.activeIndex < |b.value.stages|
  }

  /** What the status of the object on the server would resolve to after such a step's write. */
  ghost function WrittenStage(ev: Evaluator, st: State, core: Core): nat
    requires MixedUp(ev, st, core)
  {
    var b := Bringing(ev, st, core).value;
    ResolveStage(st.server.sbps[Target(core).value].stages, b.stages[b.activeIndex].name)
  }

  /** The step gets as far as its status write, and the write is applied. */
  ghost predicate MixedUpWrite(ev: Evaluator, st: State, core: Core) {
    && MixedUp(ev, st, core)
    && ReachesWrite(Target(core).value, Bringing(ev, st, core).value, st.server, FaultsOf(core))
    && !FaultsOf(core).put.Reject?
  }

  /** No such write names a later stage of the object on the server. */
  ghost predicate MixupsHarmless(ev: Evaluator, r: Run)
    requires |r.states| == |r.events| + 1
  {
    forall t: nat | t < |r.events| && MixedUpWrite(ev, r.states[t], r.events[t].core) ::
      WrittenStage(ev, r.states[t], r.events[t].core) == 0
  }

  // ---------------------------------------------------------------- the theorem

  /** At step t the condition of stage j of this StagedBindingPolicy was tried and satisfied. */
  ghost predicate SatisfiedAt(ev: Evaluator, r: Run, t: nat, n: string, uid: string, j: nat)
    requires t < |r.events| < |r.states|
  {
    var core := r.events[t].core;
    && Target(core) == Some(n)
    && Tried(r.states[t], core).Some?
    && var e := Tried(r.states[t], core).value;
    && e.uid == uid && e.activeIndex == j && j < |e.stages|
    && uid in r.states[t].server.issued && e.stages == r.states[t].server.issued[uid].stages
    && Fulfilled(ev, ListerOf(core), AttemptOn(n, e))
  }

  ghost predicate SatisfiedBefore(ev: Evaluator, r: Run, t: nat, n: string, uid: string, j: nat)
    requires t <= |r.events| < |r.states|
  {
    exists t': nat | t' < t :: SatisfiedAt(ev, r, t', n, uid, j)
  }

  /** The conditions of all stages before k were satisfied before time t. */
  ghost predicate ClearedUpTo(ev: Evaluator, r: Run, t: nat, n: string, uid: string, k: nat)
    requires t <= |r.events| < |r.states|
  {
    forall j: nat | j < k :: SatisfiedBefore(ev, r, t, n, uid, j)
  }

  lemma ClearedLater(ev: Evaluator, r: Run, t: nat, t': nat, n: string, uid: string, k: nat, k': nat)
    requires t <= t' <= |r.events| < |r.states| && k' <= k
    requires ClearedUpTo(ev, r, t, n, uid, k)
    ensures ClearedUpTo(ev, r, t', n, uid, k')
  {
    forall j: nat | j < k'
      ensures SatisfiedBefore(ev, r, t', n, uid, j)
    {
      assert SatisfiedBefore(ev, r, t, n, uid, j);
      var t0: nat :| t0 < t && SatisfiedAt(ev, r, t0, n, uid, j);
    }
  }

  /** A published status is backed. */
  ghost predicate StatusBacked(ev: Evaluator, r: Run, t: nat, s: Server)
    requires t <= |r.events| < |r.states|
  {
    forall n | n in s.sbps ::
      ClearedUpTo(ev, r, t, n, s.sbps[n].uid, ResolveStage(s.sbps[n].stages, s.sbps[n].activeStage))
  }

  ghost predicate EntryBacked(ev: Evaluator, r: Run, t: nat, s: Server, n: string, e: Entry)
    requires t <= |r.events| < |r.states|
  {
    && e.uid in s.issued && s.issued[e.uid].name == n
    && e.stages == s.issued[e.uid].stages && e.downsync == s.issued[e.uid].downsync
    && ClearedUpTo(ev, r, t, n, e.uid, e.activeIndex)
  }

  ghost predicate EntriesBacked(ev: Evaluator, r: Run, t: nat)
    requires t <= |r.events| < |r.states|
  {
    forall n | n in r.states[t].tracked ::
      EntryBacked(ev, r, t, r.states[t].server, n, r.states[t].tracked[n])
  }

  /** A run with lawful listers and arbitrarily stale caches. */
  ghost predicate LawfulRun(ev: Evaluator, r: Run) {
    IsRun(ev, r) && ListersLawful(r) && NotesComeFromServer(r)
  }

  /** Writing the name of stage k resolves to k or to an earlier stage of that name. */
  lemma ResolveOfName(stages: seq<Stage>, k: nat)
    requires k < |stages|
    ensures ResolveStage(stages, stages[k].name) <= k
  {
  }

  /** The UIDs handed out by the server are remembered, whatever happens. */
  lemma {:induction false} IssuedGrows(ev: Evaluator, r: Run, a: nat, b: nat)
    requires IsRun(ev, r) && a <= b < |r.states|
    ensures forall u | u in r.states[a].server.issued ::
      u in r.states[b].server.issued && r.states[b].server.issued[u] == r.states[a].server.issued[u]
    decreases b - a
  {
    if a < b {
      IssuedGrows(ev, r, a, b - 1);
      FiledRun(ev, r, b - 1);
      var st, e := r.states[b - 1], r.events[b - 1];
      assert r.states[b - 1 + 1] == Next(ev, st, e);
      NextServer(ev, st, e);
      var k :| Next(ev, st, e).server == ServerAt(ev, st, e.core, k);
      FiledStep(ev, st, e.core, k);
    }
  }

  /** A noted entry is backed, because the stale status was when it was published. */
  lemma NotedBacked(ev: Evaluator, r: Run, t0: nat, t: nat, sbp: Sbp)
    requires IsRun(ev, r) && t0 <= t < |r.events| && WasOnServer(r.states[t0], sbp)
    requires StatusBacked(ev, r, t0, r.states[t0].server)
    ensures EntryBacked(ev, r, t + 1, r.states[t].server, sbp.name, FreshEntry(sbp))
  {
    FiledRun(ev, r, t0);
    IssuedGrows(ev, r, t0, t);
    var k := FreshEntry(sbp).activeIndex;
    ClearedLater(ev, r, t0, t + 1, sbp.name, sbp.uid, k, k);
  }

  lemma TriedSatisfied(ev: Evaluator, r: Run, t: nat, n: string, e: Entry)
    requires t < |r.events| < |r.states| && Lawful(ListerOf(r.events[t].core))
    requires Target(r.events[t].core) == Some(n) && Tried(r.states[t], r.events[t].core) == Some(e)
    requires e.uid in r.states[t].server.issued && e.stages == r.states[t].server.issued[e.uid].stages
    requires Passes(ev, ListerOf(r.events[t].core), n, e)
    ensures SatisfiedAt(ev, r, t, n, e.uid, e.activeIndex)
  {
    GateSound(ev, ListerOf(r.events[t].core), AttemptOn(n, e));
  }

  lemma OneMoreCleared(ev: Evaluator, r: Run, t: nat, n: string, uid: string, k: nat)
    requires t < |r.events| < |r.states|
    requires ClearedUpTo(ev, r, t, n, uid, k) && SatisfiedAt(ev, r, t, n, uid, k)
    ensures ClearedUpTo(ev, r, t + 1, n, uid, k + 1)
  {
    hide SatisfiedAt;
    ClearedLater(ev, r, t, t + 1, n, uid, k, k);
    assert SatisfiedBefore(ev, r, t + 1, n, uid, k);
  }

  /** A tried entry is backed one stage further, because its condition has just been satisfied. */
  lemma TriedBacked(ev: Evaluator, r: Run, t: nat, n: string, e: Entry)
    requires t < |r.events| < |r.states| && Lawful(ListerOf(r.events[t].core))
    requires Target(r.events[t].core) == Some(n) && Tried(r.states[t], r.events[t].core) == Some(e)
    requires EntryBacked(ev, r, t, r.states[t].server, n, e)
    requires Passes(ev, ListerOf(r.events[t].core), n, e)
    ensures EntryBacked(ev, r, t + 1, r.states[t].server, n, e.(activeIndex := e.activeIndex + 1))
  {
    TriedSatisfied(ev, r, t, n, e);
    OneMoreCleared(ev, r, t, n, e.uid, e.activeIndex);
  }

  /** The entry a step sets out to bring up is backed. */
  lemma BringingBacked(ev: Evaluator, r: Run, t: nat)
    requires LawfulRun(ev, r) && t < |r.events|
    requires forall t0: nat | t0 <= t :: StatusBacked(ev, r, t0, r.states[t0].server)
    requires EntriesBacked(ev, r, t)
    requires Bringing(ev, r.states[t], r.events[t].core).Some?
    ensures EntryBacked(ev, r, t + 1, r.states[t].server, Target(r.events[t].core).value,
                        Bringing(ev, r.states[t], r.events[t].core).value)
  {
    var st, core := r.states[t], r.events[t].core;
    if core.Note? {
      var t0: nat :| t0 <= t && WasOnServer(r.states[t0], core.sbp);
      NotedBacked(ev, r, t0, t, core.sbp);
    } else {
      var n := Target(core).value;
      assert EntryBacked(ev, r, t, st.server, n, st.tracked[n]);
      TriedBacked(ev, r, t, n, Tried(st, core).value);
    }
  }

  /** The object whose status is set to the stage of a backed entry. */
  lemma PublishedObjectBacked(ev: Evaluator, r: Run, t: nat, s: Server, n: string, e: Entry, o: Sbp)
    requires t <= |r.events| < |r.states| && e.activeIndex < |e.stages|
    requires EntryBacked(ev, r, t, s, n, e)
    requires o.uid == e.uid && o.stages == e.stages && o.activeStage == e.stages[e.activeIndex].name
    ensures ClearedUpTo(ev, r, t, n, o.uid, ResolveStage(o.stages, o.activeStage))
  {
    hide ClearedUpTo;
    ResolveOfName(e.stages, e.activeIndex);
    ClearedLater(ev, r, t, t, n, e.uid, e.activeIndex, ResolveStage(o.stages, o.activeStage));
  }

  lemma StatusesKept(ev: Evaluator, r: Run, t: nat, s: Server, s': Server)
    requires t < |r.events| < |r.states|
    requires StatusBacked(ev, r, t, s) && s'.sbps == s.sbps
    ensures StatusBacked(ev, r, t + 1, s')
  {
    forall m | m in s'.sbps
      ensures ClearedUpTo(ev, r, t + 1, m, s'.sbps[m].uid, ResolveStage(s'.sbps[m].stages, s'.sbps[m].activeStage))
    {
      var k := ResolveStage(s.sbps[m].stages, s.sbps[m].activeStage);
      ClearedLater(ev, r, t, t + 1, m, s.sbps[m].uid, k, k);
    }
  }

  /** If one status changes, the statuses stay backed exactly if that one is. */
  lemma OneStatusChanged(ev: Evaluator, r: Run, t: nat, s: Server, s': Server, n: string, o: Sbp)
    requires t < |r.events| < |r.states|
    requires StatusBacked(ev, r, t, s) && s'.sbps == s.sbps[n := o]
    ensures StatusBacked(ev, r, t + 1, s') <==> ClearedUpTo(ev, r, t + 1, n, o.uid, ResolveStage(o.stages, o.activeStage))
  {
    hide ClearedUpTo, ResolveStage;
    forall m | m in s.sbps && m != n
      ensures ClearedUpTo(ev, r, t + 1, m, s.sbps[m].uid, ResolveStage(s.sbps[m].stages, s.sbps[m].activeStage))
    {
      var k := ResolveStage(s.sbps[m].stages, s.sbps[m].activeStage);
      ClearedLater(ev, r, t, t + 1, m, s.sbps[m].uid, k, k);
    }
    if StatusBacked(ev, r, t + 1, s') {
      assert s'.sbps[n] == o;
    }
  }

  /** Publishing the stage of a backed entry of the same incarnation keeps the statuses backed. */
  lemma PublishBacked(ev: Evaluator, r: Run, t: nat, s: Server, n: string, e: Entry, uid: string, p: Progress)
    requires t < |r.events| < |r.states|
    requires Filed(s) && StatusBacked(ev, r, t, s) && EntryBacked(ev, r, t + 1, s, n, e)
    requires n in s.sbps ==> s.sbps[n].uid == e.uid
    requires Possible(n, e, s, p)
    ensures StatusBacked(ev, r, t + 1, At(n, e, s, uid, p))
  {
    hide ClearedUpTo, ResolveStage, StatusBacked;
    var s' := At(n, e, s, uid, p);
    if p.Published? {
      PublishedObjectBacked(ev, r, t + 1, s, n, e, s'.sbps[n]);
      OneStatusChanged(ev, r, t, s, s', n, s'.sbps[n]);
    } else {
      StatusesKept(ev, r, t, s, s');
    }
  }

  lemma EnvironmentBacked(ev: Evaluator, r: Run, t: nat, s: Server, core: Core)
    requires t < |r.events| < |r.states| && StatusBacked(ev, r, t, s)
    ensures StatusBacked(ev, r, t + 1, Environment(s, core))
  {
    var s' := Environment(s, core);
    forall m | m in s'.sbps
      ensures ClearedUpTo(ev, r, t + 1, m, s'.sbps[m].uid, ResolveStage(s'.sbps[m].stages, s'.sbps[m].activeStage))
    {
      if m in s.sbps {
        var k := ResolveStage(s.sbps[m].stages, s.sbps[m].activeStage);
        ClearedLater(ev, r, t, t + 1, m, s.sbps[m].uid, k, k);
      }
    }
  }

  // ---------------------------------------------------------------- mixed-up writes

  /** The conditions of the stages in front of the one that a mixed-up write names are satisfied,
      for the object on the server. */
  ghost predicate WrittenCleared(ev: Evaluator, r: Run, t: nat)
    requires t < |r.events| < |r.states| && MixedUp(ev, r.states[t], r.events[t].core)
  {
    var n := Target(r.events[t].core).value;
    ClearedUpTo(ev, r, t + 1, n, r.states[t].server.sbps[n].uid, WrittenStage(ev, r.states[t], r.events[t].core))
  }

  /** If step t is mixed up and has changed a status by the time the server is s', then only to a
      cleared one. */
  ghost predicate MixupCleared(ev: Evaluator, r: Run, t: nat, s': Server)
    requires t < |r.events| < |r.states|
  {
    MixedUp(ev, r.states[t], r.events[t].core) && s'.sbps != r.states[t].server.sbps ==> WrittenCleared(ev, r, t)
  }

  ghost predicate StepCleared(ev: Evaluator, r: Run, t: nat)
    requires t < |r.events| < |r.states|
  {
    MixupCleared(ev, r, t, r.states[t + 1].server)
  }

  ghost predicate MixupsCleared(ev: Evaluator, r: Run, t: nat)
    requires t <= |r.events| < |r.states|
  {
    forall t': nat | t' < t :: StepCleared(ev, r, t')
  }

  /** The statuses at the boundaries of a mixed-up step. */
  lemma MixedUpStatuses(ev: Evaluator, st: State, core: Core, k: nat)
    requires Filed(st.server) && MixedUp(ev, st, core)
    ensures var n, b, s := Target(core).value, Bringing(ev, st, core).value, st.server;
      ServerAt(ev, st, core, k).sbps != s.sbps ==>
        && MixedUpWrite(ev, st, core)
        && ServerAt(ev, st, core, k).sbps == s.sbps[n := s.sbps[n].(activeStage := b.stages[b.activeIndex].name)]
  {
    hide EnsureActiveStage, GatePasses, Filed, EffectOf;
    ServerSteps(ev, st, core, k);
    BoundaryStatuses(Target(core).value, Bringing(ev, st, core).value, st.server, FaultsOf(core), k);
  }

  /** A mixed-up step, exactly: at each of its boundaries the published statuses are backed if and
      only if it has not changed one, or the conditions in front of the stage it names were
      satisfied for the object on the server. As long as the first condition of that object has
      not been satisfied, this means: if and only if the name is not that of a later stage. */
  lemma MixedUpWriteSkipsExactly(ev: Evaluator, r: Run, t: nat, k: nat)
    requires IsRun(ev, r) && t < |r.events|
    requires StatusBacked(ev, r, t, r.states[t].server) && MixedUp(ev, r.states[t], r.events[t].core)
    ensures var s' := ServerAt(ev, r.states[t], r.events[t].core, k);
      StatusBacked(ev, r, t + 1, s') <==> MixupCleared(ev, r, t, s')
    ensures var n := Target(r.events[t].core).value;
      !SatisfiedBefore(ev, r, t + 1, n, r.states[t].server.sbps[n].uid, 0) ==>
        (WrittenCleared(ev, r, t) <==> WrittenStage(ev, r.states[t], r.events[t].core) == 0)
  {
    hide StatusBacked, ServerAt, SatisfiedBefore, ResolveStage, GatePasses;
    var st, core := r.states[t], r.events[t].core;
    var s' := ServerAt(ev, st, core, k);
    FiledRun(ev, r, t);
    MixedUpStatuses(ev, st, core, k);
    if s'.sbps == st.server.sbps {
      StatusesKept(ev, r, t, st.server, s');
    } else {
      var n := Target(core).value;
      OneStatusChanged(ev, r, t, st.server, s', n, s'.sbps[n]);
    }
  }

  // ---------------------------------------------------------------- one step

  /** At every API-call boundary of a step the published statuses are backed, unless the step is
      mixed up and has published an uncleared stage. */
  lemma StatusBackedStep(ev: Evaluator, r: Run, t: nat, k: nat)
    requires LawfulRun(ev, r) && t < |r.events|
    requires forall t0: nat | t0 <= t :: StatusBacked(ev, r, t0, r.states[t0].server)
    requires EntriesBacked(ev, r, t)
    ensures var s' := ServerAt(ev, r.states[t], r.events[t].core, k);
      StatusBacked(ev, r, t + 1, s') <==> MixupCleared(ev, r, t, s')
  {
    hide EntriesBacked, EntryBacked, ListersLawful, NotesComeFromServer, WrittenCleared, GatePasses;
    var st, core := r.states[t], r.events[t].core;
    assert StatusBacked(ev, r, t, st.server);
    if MixedUp(ev, st, core) {
      MixedUpWriteSkipsExactly(ev, r, t, k);
    } else {
      hide StatusBacked;
      ServerSteps(ev, st, core, k);
      match Bringing(ev, st, core)
      case None =>
        EnvironmentBacked(ev, r, t, st.server, core);
      case Some(e) =>
        FiledRun(ev, r, t);
        BringingBacked(ev, r, t);
        var n := Target(core).value;
        var p := EnsureBoundary(n, e, st.server, FaultsOf(core), k);
        if e.activeIndex < |e.stages| {
          PublishBacked(ev, r, t, st.server, n, e, FaultsOf(core).uid, p);
        } else {
          StatusesKept(ev, r, t, st.server, ServerAt(ev, st, core, k));
        }
    }
  }

  lemma EntriesBackedStep(ev: Evaluator, r: Run, t: nat)
    requires LawfulRun(ev, r) && t < |r.events|
    requires forall t0: nat | t0 <= t :: StatusBacked(ev, r, t0, r.states[t0].server)
    requires EntriesBacked(ev, r, t)
    ensures EntriesBacked(ev, r, t + 1)
  {
    var st, core := r.states[t], r.events[t].core;
    assert r.states[t + 1] == Next(ev, st, r.events[t]);
    IndexInRange(ev, r, t);
    IssuedGrows(ev, r, t, t + 1);
    var tracked' := r.states[t + 1].tracked;
    forall m | m in tracked'
      ensures EntryBacked(ev, r, t + 1, r.states[t + 1].server, m, tracked'[m])
    {
      EntryAfter(ev, st, r.events[t], m);
      var e' := tracked'[m];
      if m in st.tracked {
        assert EntryBacked(ev, r, t, st.server, m, st.tracked[m]);
        ClearedLater(ev, r, t, t + 1, m, st.tracked[m].uid, st.tracked[m].activeIndex, st.tracked[m].activeIndex);
      }
      if Bringing(ev, st, core).Some? && Target(core) == Some(m) {
        BringingBacked(ev, r, t);
        var e := Bringing(ev, st, core).value;
        ClearedLater(ev, r, t + 1, t + 1, m, e.uid, e.activeIndex, if e'.activeIndex <= e.activeIndex then e'.activeIndex else 0);
      }
    }
  }

  lemma StartBacked(ev: Evaluator, r: Run)
    requires IsRun(ev, r)
    ensures StatusBacked(ev, r, 0, r.states[0].server) && EntriesBacked(ev, r, 0)
  {
  }

  lemma StatusBackedNext(ev: Evaluator, r: Run, t: nat)
    requires LawfulRun(ev, r) && t < |r.events|
    requires forall t0: nat | t0 <= t :: StatusBacked(ev, r, t0, r.states[t0].server)
    requires EntriesBacked(ev, r, t)
    ensures StatusBacked(ev, r, t + 1, r.states[t + 1].server) <==> StepCleared(ev, r, t)
  {
    hide StatusBacked, EntriesBacked, MixupCleared;
    var st, e := r.states[t], r.events[t];
    assert r.states[t + 1] == Next(ev, st, e);
    NextServer(ev, st, e);
    var k :| Next(ev, st, e).server == ServerAt(ev, st, e.core, k);
    StatusBackedStep(ev, r, t, k);
  }

  // ---------------------------------------------------------------- whole runs

  /** Up to time t neither a published status nor an entry is past an unsatisfied condition. */
  ghost predicate AllBacked(ev: Evaluator, r: Run, t: nat)
    requires t <= |r.events| < |r.states|
  {
    forall t0: nat | t0 <= t :: StatusBacked(ev, r, t0, r.states[t0].server) && EntriesBacked(ev, r, t0)
  }

  /** Gate soundness over whole runs, through deaths, panics, failed and lost calls, forgetting
      and re-noting, and arbitrarily stale caches: neither a published status nor an entry is at
      stage k unless for every earlier stage there was an attempt on a non-empty filtered
      workload where each object had a CombinedStatus with all five labels, named with the
      then-active UID, on which the stage's condition was true. This holds if and only if no
      step for another incarnation has published a stage that was not cleared. */
  lemma {:induction false} NoStageIsSkippedExactly(ev: Evaluator, r: Run, t: nat)
    requires LawfulRun(ev, r) && t < |r.states|
    ensures AllBacked(ev, r, t) <==> MixupsCleared(ev, r, t)
  {
    hide StatusBacked, EntriesBacked, ListersLawful, StepCleared, NotesComeFromServer;
    if t > 0 {
      NoStageIsSkippedExactly(ev, r, t - 1);
      assert MixupsCleared(ev, r, t) <==> MixupsCleared(ev, r, t - 1) && StepCleared(ev, r, t - 1);
      if AllBacked(ev, r, t - 1) {
        EntriesBackedStep(ev, r, t - 1);
        StatusBackedNext(ev, r, t - 1);
      }
    } else {
      StartBacked(ev, r);
    }
  }

  lemma HarmlessCleared(ev: Evaluator, r: Run, t: nat)
    requires IsRun(ev, r) && MixupsHarmless(ev, r) && t < |r.states|
    ensures MixupsCleared(ev, r, t)
  {
    hide MixedUp, ServerAt, Next;
    forall t': nat | t' < t
      ensures StepCleared(ev, r, t')
    {
      var st, e := r.states[t'], r.events[t'];
      assert r.states[t' + 1] == Next(ev, st, e);
      if MixedUp(ev, st, e.core) {
        FiledRun(ev, r, t');
        NextServer(ev, st, e);
        var k :| Next(ev, st, e).server == ServerAt(ev, st, e.core, k);
        MixedUpStatuses(ev, st, e.core, k);
      }
    }
  }

  /** In particular no stage is skipped if no applied mixed-up write names a later stage of the
      object it goes to, which can be seen before the write. */
  lemma NoStageIsSkipped(ev: Evaluator, r: Run, t: nat)
    requires LawfulRun(ev, r) && MixupsHarmless(ev, r) && t < |r.states|
    ensures AllBacked(ev, r, t)
  {
    HarmlessCleared(ev, r, t);
    NoStageIsSkippedExactly(ev, r, t);
  }

  /** The same at every API-call boundary inside a step. */
  lemma NoStageIsSkippedAtBoundaries(ev: Evaluator, r: Run, t: nat, k: nat)
    requires LawfulRun(ev, r) && t < |r.events| && MixupsCleared(ev, r, t)
    ensures var s' := ServerAt(ev, r.states[t], r.events[t].core, k);
      StatusBacked(ev, r, t + 1, s') <==> MixupCleared(ev, r, t, s')
  {
    NoStageIsSkippedExactly(ev, r, t);
    StatusBackedStep(ev, r, t, k);
  }

  // ---------------------------------------------------------------- why incarnations matter

  const ONLY_PROD := Sbp("a", "1", 1, [], [Stage("prod", [], None, None)], "")
  const DEV_PROD := Sbp("a", "2", 1, [], [Stage("dev", [], None, Some("ready")), Stage("prod", [], None, None)], "")

  const RECREATED := Server(map[], map["a" := DEV_PROD], map[], map["1" := ONLY_PROD, "2" := DEV_PROD])

  const STALE_NOTE: Core :=
    Note(ONLY_PROD, _ => Some([]), Faults(Clean, Clean, "u", Clean, Clean), Faults(Clean, Clean, "v", Clean, Clean))

  lemma StaleNotePublishes(ev: Evaluator)
    ensures var s := Next(ev, State(map[], RECREATED), Event(STALE_NOTE, Completes)).server;
      s.sbps == map["a" := DEV_PROD.(activeStage := "prod")]
  {
    var e := FreshEntry(ONLY_PROD);
    assert e.activeIndex == 0;
    NoteStaysAtResolvedStage(ev, STALE_NOTE.lister, ONLY_PROD, RECREATED, STALE_NOTE.f, STALE_NOTE.f');
    StageComesUpExactly("a", e, RECREATED, STALE_NOTE.f);
    WhatAStageBrings("a", e, RECREATED, STALE_NOTE.f);
  }

  function StaleRun(ev: Evaluator): Run {
    var created := State(map[], Server(map[], map["a" := ONLY_PROD], map[], map["1" := ONLY_PROD]));
    var deleted := State(map[], Server(map[], map[], map[], map["1" := ONLY_PROD]));
    var recreated := State(map[], RECREATED);
    Run([START, created, deleted, recreated, Next(ev, recreated, Event(STALE_NOTE, Completes))],
        [Event(UserCreate(ONLY_PROD), Completes), Event(UserDelete("a"), Completes),
         Event(UserCreate(DEV_PROD), Completes), Event(STALE_NOTE, Completes)])
  }

  lemma StaleRunIsRun(ev: Evaluator)
    ensures IsRun(ev, StaleRun(ev))
  {
    var r := StaleRun(ev);
    assert r.states[1] == Next(ev, r.states[0], r.events[0]);
    assert r.states[2] == Next(ev, r.states[1], r.events[1]);
    assert r.states[3] == Next(ev, r.states[2], r.events[2]);
    assert r.states[4] == Next(ev, r.states[3], r.events[3]);
  }

  lemma StaleRunAssumptions(ev: Evaluator)
    ensures var r := StaleRun(ev); ListersLawful(r) && NotesComeFromServer(r)
  {
    var r := StaleRun(ev);
    assert WasOnServer(r.states[1], ONLY_PROD);
  }

  lemma SecondStageResolves(o: Sbp)
    requires o == DEV_PROD.(activeStage := "prod")
    ensures ResolveStage(o.stages, o.activeStage) == 1
  {
    assert o.stages[1].name == "prod" && o.stages[0].name[0] == 'd';
  }

  lemma UntriedUncleared(ev: Evaluator, r: Run, t: nat, n: string, uid: string, k: nat)
    requires t <= |r.events| < |r.states| && k > 0
    requires forall t': nat | t' < t :: Tried(r.states[t'], r.events[t'].core).None?
    ensures !ClearedUpTo(ev, r, t, n, uid, k)
  {
    assert !SatisfiedBefore(ev, r, t, n, uid, 0);
  }

  /** If a StagedBindingPolicy is deleted and created again under its name while the old object
      is still cached, noting the old object publishes its stage name in the new one: the new
      object ends up at "prod" although no condition has ever been tried. */
  lemma StaleIncarnationSkipsStages(ev: Evaluator)
    ensures var r := StaleRun(ev);
      && LawfulRun(ev, r)
      && (forall t: nat | t < |r.events| :: Tried(r.states[t], r.events[t].core).None?)
      && !StatusBacked(ev, r, |r.events|, r.states[|r.events|].server)
  {
    hide IsRun, ListersLawful, NotesComeFromServer, Next, SatisfiedAt;
    var r := StaleRun(ev);
    StaleRunIsRun(ev);
    StaleRunAssumptions(ev);
    StaleNotePublishes(ev);
    var s := r.states[4].server;
    SecondStageResolves(s.sbps["a"]);
    UntriedUncleared(ev, r, 4, "a", "2", 1);
    assert !StatusBacked(ev, r, 4, s) by {
      assert "a" in s.sbps && s.sbps["a"].uid == "2";
    }
  }
}
