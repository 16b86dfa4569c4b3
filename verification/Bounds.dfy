/** Stage indices: ranges, panics, and how a session moves through the stages. */
module Bounds {
  import opened Api
  import opened Names
  import opened Gate
  import opened ApiServers
  import opened Rollout
  import opened Runs
  import opened Steps

  predicate WellFormed(stages: seq<Stage>) {
    |stages| > 0 && stages[|stages| - 1].condition.None?
  }

  /** The last stage is guarded too late: once its condition is satisfied, its BindingPolicy is
      deleted and then the process dies on the index past the end. */
  lemma AttemptPanicsExactly(ev: Evaluator, lister: Lister, name: string, e: Entry, s: Server, f: Faults)
    requires e.activeIndex < |e.stages|
    ensures var x := AttemptCondition(ev, lister, name, e, s, f);
      && (x.outcome == Panicked <==>
            Passes(ev, lister, name, e) && e.activeIndex == |e.stages| - 1 && f.del.Clean?)
      && (x.outcome == Panicked ==>
            x.Final(s) == s.(bps := s.bps - {BpName(name, e.stages[e.activeIndex].name)}))
  {
    assert BpName(name, e.stages[e.activeIndex].name) !in s.bps ==> s.bps - {BpName(name, e.stages[e.activeIndex].name)} == s.bps;
  }

  lemma NotePanicsExactly(ev: Evaluator, lister: Lister, sbp: Sbp, s: Server, f: Faults, f': Faults)
    ensures NoteSbp(ev, lister, sbp, s, f, f').outcome == Panicked <==> sbp.stages == []
  {
    NoteStaysAtResolvedStage(ev, lister, sbp, s, f, f');
  }

  // ---------------------------------------------------------------- runs

  ghost predicate NotesWellFormed(r: Run) {
    forall t: nat | t < |r.events| && r.events[t].core.Note? :: WellFormed(r.events[t].core.sbp.stages)
  }

  ghost predicate TracksWellFormed(st: State) {
    forall n | n in st.tracked :: WellFormed(st.tracked[n].stages)
  }

  lemma {:induction false} TracksWellFormedRun(ev: Evaluator, r: Run, t: nat)
    requires IsRun(ev, r) && NotesWellFormed(r) && t < |r.states|
    ensures TracksWellFormed(r.states[t])
  {
    if t > 0 {
      TracksWellFormedRun(ev, r, t - 1);
      IndexInRange(ev, r, t - 1);
      forall n | n in r.states[t].tracked
        ensures WellFormed(r.states[t].tracked[n].stages)
      {
        EntryAfter(ev, r.states[t - 1], r.events[t - 1], n);
      }
    }
  }

  ghost predicate Panics(ev: Evaluator, st: State, core: Core) {
    EffectOf(ev, st, core).Some? && EffectOf(ev, st, core).value.outcome == Panicked
  }

  /** As long as only well-formed StagedBindingPolicies are noted, no run ever panics. */
  lemma NoRunPanics(ev: Evaluator, r: Run, t: nat)
    requires IsRun(ev, r) && NotesWellFormed(r) && t < |r.events|
    ensures !Panics(ev, r.states[t], r.events[t].core)
  {
    TracksWellFormedRun(ev, r, t);
    IndexInRange(ev, r, t);
    var st, core := r.states[t], r.events[t].core;
    EffectShape(ev, st, core);
    if core.Note? {
      NotePanicsExactly(ev, core.lister, core.sbp, st.server, core.f, core.f');
    } else if Tried(st, core).Some? {
      AttemptPanicsExactly(ev, ListerOf(core), Target(core).value, Tried(st, core).value, st.server, FaultsOf(core));
    }
  }

  // ---------------------------------------------------------------- sessions

  ghost predicate NotesName(core: Core, n: string) {
    core.Note? && core.sbp.name == n
  }

  /** Name n is tracked from a to b without being noted again. */
  ghost predicate Session(r: Run, n: string, a: nat, b: nat) {
    && |r.states| == |r.events| + 1
    && a <= b < |r.states|
    && (forall t: nat | a <= t <= b :: n in r.states[t].tracked)
    && (forall t: nat | a <= t < b :: !NotesName(r.events[t].core, n))
  }

  ghost function IndexAt(r: Run, n: string, t: nat): nat
    requires t < |r.states| && n in r.states[t].tracked
  {
    r.states[t].tracked[n].activeIndex
  }

  /** How many steps from a to b moved the index of n. */
  ghost function Advances(r: Run, n: string, a: nat, b: nat): nat
    requires Session(r, n, a, b)
    decreases b - a
  {
    if a == b then 0
    else Advances(r, n, a, b - 1) + if IndexAt(r, n, b) != IndexAt(r, n, b - 1) then 1 else 0
  }

  /** One step of a session: no skip, no step back, and the spec of the entry stays. */
  lemma SessionStep(ev: Evaluator, r: Run, n: string, t: nat)
    requires IsRun(ev, r) && Session(r, n, t, t + 1)
    ensures var e, e' := r.states[t].tracked[n], r.states[t + 1].tracked[n];
      && e'.uid == e.uid && e'.downsync == e.downsync && e'.stages == e.stages
      && e.activeIndex <= e'.activeIndex <= e.activeIndex + 1 && e'.activeIndex < |e.stages|
      && (e'.activeIndex == e.activeIndex + 1 ==> e.stages[e.activeIndex].condition.Some?)
  {
    IndexInRange(ev, r, t);
    IndexInRange(ev, r, t + 1);
    EntryAfter(ev, r.states[t], r.events[t], n);
  }

  /** Between two notes the index counts the advances, and there are at most len - 1 of them:
      each one uses up a remaining stage. */
  lemma {:induction false} SessionAdvances(ev: Evaluator, r: Run, n: string, a: nat, b: nat)
    requires IsRun(ev, r) && Session(r, n, a, b)
    ensures r.states[b].tracked[n].stages == r.states[a].tracked[n].stages
    ensures IndexAt(r, n, b) == IndexAt(r, n, a) + Advances(r, n, a, b)
    ensures Advances(r, n, a, b) <= |r.states[a].tracked[n].stages| - 1
    decreases b - a
  {
    IndexInRange(ev, r, b);
    if a < b {
      SessionAdvances(ev, r, n, a, b - 1);
      SessionStep(ev, r, n, b - 1);
    }
  }

  /** On the last stage of a well-formed list an event neither moves the entry nor makes a call. */
  lemma LastStageStep(ev: Evaluator, st: State, e: Event, n: string)
    requires InRange(st) && n in st.tracked && n in Next(ev, st, e).tracked && !NotesName(e.core, n)
    requires WellFormed(st.tracked[n].stages) && st.tracked[n].activeIndex == |st.tracked[n].stages| - 1
    ensures Next(ev, st, e).tracked[n] == st.tracked[n].(workload := Next(ev, st, e).tracked[n].workload)
    ensures Target(e.core) == Some(n) && EffectOf(ev, st, e.core).Some? ==> EffectOf(ev, st, e.core).value.calls == []
  {
    hide EnsureActiveStage, NoteSbp;
    EffectShape(ev, st, e.core);
    EntryAfter(ev, st, e, n);
    if Target(e.core) == Some(n) && Tried(st, e.core).Some? {
      assert !Passes(ev, ListerOf(e.core), n, Tried(st, e.core).value);
    }
  }

  /** The last stage of a well-formed list absorbs: the entry keeps its stage and UID. */
  lemma {:induction false} LastStageAbsorbs(ev: Evaluator, r: Run, n: string, a: nat, b: nat)
    requires IsRun(ev, r) && Session(r, n, a, b)
    requires WellFormed(r.states[a].tracked[n].stages)
    requires IndexAt(r, n, a) == |r.states[a].tracked[n].stages| - 1
    ensures r.states[b].tracked[n] == r.states[a].tracked[n].(workload := r.states[b].tracked[n].workload)
    decreases b - a
  {
    if a < b {
      LastStageAbsorbs(ev, r, n, a, b - 1);
      IndexInRange(ev, r, b - 1);
      var st, e := r.states[b - 1], r.events[b - 1];
      assert r.states[b - 1 + 1] == Next(ev, st, e);
      LastStageStep(ev, st, e, n);
    }
  }

  /** And no event about its name makes an API call any more. */
  lemma LastStageMakesNoCalls(ev: Evaluator, r: Run, n: string, a: nat, t: nat)
    requires IsRun(ev, r) && Session(r, n, a, t + 1) && a <= t
    requires WellFormed(r.states[a].tracked[n].stages)
    requires IndexAt(r, n, a) == |r.states[a].tracked[n].stages| - 1
    requires Target(r.events[t].core) == Some(n) && EffectOf(ev, r.states[t], r.events[t].core).Some?
    ensures EffectOf(ev, r.states[t], r.events[t].core).value.calls == []
  {
    LastStageAbsorbs(ev, r, n, a, t);
    IndexInRange(ev, r, t);
    assert n in r.states[t + 1].tracked;
    LastStageStep(ev, r.states[t], r.events[t], n);
  }

  // ---------------------------------------------------------------- what a full step achieves

  /** A stage comes up exactly when every call is answered well, its BindingPolicy does not
      exist yet and the StagedBindingPolicy still does. */
  lemma StageComesUpExactly(name: string, e: Entry, s: Server, f: Faults)
    requires Filed(s) && e.activeIndex < |e.stages|
    ensures EnsureActiveStage(name, e, s, f).outcome == Done <==>
      && (e.activeIndex > 0 ==> f.del.Clean?)
      && f.create.Clean? && BpName(name, e.stages[e.activeIndex].name) !in Kept(name, e, s)
      && f.get.Clean? && name in s.sbps && f.put.Clean?
  {
    if e.activeIndex > 0 {
      var (s', reply) := DeleteBp(s, BpName(name, e.stages[e.activeIndex - 1].name), f.del);
      assert reply != Refused ==> s'.bps == Kept(name, e, s) && s'.sbps == s.sbps;
      ActiveComesUpExactly(name, e, s', f);
    } else {
      ActiveComesUpExactly(name, e, s, f);
    }
  }

  lemma ActiveComesUpExactly(name: string, e: Entry, s: Server, f: Faults)
    requires (name in s.sbps ==> s.sbps[name].name == name) && e.activeIndex < |e.stages|
    ensures CreateActive(name, e, s, f).outcome == Done <==>
      && f.create.Clean? && BpName(name, e.stages[e.activeIndex].name) !in s.bps
      && f.get.Clean? && name in s.sbps && f.put.Clean?
  {
  }

  /** When it does, the previous BindingPolicy is gone and nothing else was deleted, the new one
      carries the stage's selectors, the downsync and the owner, the status names the stage,
      and the entry knows the new UID. */
  lemma WhatAStageBrings(name: string, e: Entry, s: Server, f: Faults)
    requires Filed(s) && EnsureActiveStage(name, e, s, f).outcome == Done
    ensures e.activeIndex < |e.stages| && name in s.sbps
    ensures var x, stage := EnsureActiveStage(name, e, s, f), e.stages[e.activeIndex];
      && x.entry == e.(activeUid := f.uid)
      && x.Final(s).minted == s.minted[f.uid := BpName(name, stage.name)] && x.Final(s).issued == s.issued
      && x.Final(s).bps == Kept(name, e, s)[BpName(name, stage.name) := Bp(f.uid, e.uid, e.downsync, stage.clusterSelectors)]
      && x.Final(s).sbps == s.sbps[name := s.sbps[name].(activeStage := stage.name)]
  {
    var x := EnsureActiveStage(name, e, s, f);
    EnsureEntry(name, e, s, f);
    var p := EnsureBoundary(name, e, s, f, |x.calls|);
    assert x.Boundary(s, |x.calls|) == x.Final(s);
  }

  /** Every call before the status write is answered well and finds what it needs. */
  predicate ReachesWrite(name: string, e: Entry, s: Server, f: Faults) {
    && e.activeIndex < |e.stages| && (e.activeIndex > 0 ==> f.del.Clean?)
    && f.create.Clean? && BpName(name, e.stages[e.activeIndex].name) !in Kept(name, e, s)
    && f.get.Clean? && name in s.sbps
  }

  /** The published stage changes exactly if the write is reached and not rejected. */
  lemma StatusWrittenExactly(name: string, e: Entry, s: Server, f: Faults)
    requires Filed(s)
    ensures EnsureActiveStage(name, e, s, f).Final(s).sbps ==
      if ReachesWrite(name, e, s, f) && !f.put.Reject?
      then s.sbps[name := s.sbps[name].(activeStage := e.stages[e.activeIndex].name)] else s.sbps
  {
    hide CreateActive;
    if e.activeIndex == 0 {
      ActiveWrittenExactly(name, e, s, f);
    } else if e.activeIndex <= |e.stages| {
      var (s', reply) := DeleteBp(s, BpName(name, e.stages[e.activeIndex - 1].name), f.del);
      assert reply != Refused ==> s'.bps == Kept(name, e, s) && s'.sbps == s.sbps;
      ActiveWrittenExactly(name, e, s', f);
    }
  }

  lemma ActiveWrittenExactly(name: string, e: Entry, s: Server, f: Faults)
    requires name in s.sbps ==> s.sbps[name].name == name
    ensures CreateActive(name, e, s, f).Final(s).sbps ==
      if e.activeIndex < |e.stages| && f.create.Clean? && BpName(name, e.stages[e.activeIndex].name) !in s.bps
         && f.get.Clean? && name in s.sbps && !f.put.Reject?
      then s.sbps[name := s.sbps[name].(activeStage := e.stages[e.activeIndex].name)] else s.sbps
  {
  }

  /** At every API-call boundary the statuses are as before, or that one write has been applied. */
  lemma BoundaryStatuses(name: string, e: Entry, s: Server, f: Faults, k: nat)
    requires Filed(s)
    ensures var s' := EnsureActiveStage(name, e, s, f).Boundary(s, k);
      || s'.sbps == s.sbps
      || (&& ReachesWrite(name, e, s, f) && !f.put.Reject?
          && s'.sbps == s.sbps[name := s.sbps[name].(activeStage := e.stages[e.activeIndex].name)])
  {
    var x := EnsureActiveStage(name, e, s, f);
    if k < |x.calls| {
      EarlierStatuses(name, e, s, f, k);
    } else {
      assert x.Boundary(s, k) == x.Final(s);
      StatusWrittenExactly(name, e, s, f);
    }
  }

  lemma EarlierStatuses(name: string, e: Entry, s: Server, f: Faults, k: nat)
    requires k < |EnsureActiveStage(name, e, s, f).calls|
    ensures EnsureActiveStage(name, e, s, f).Boundary(s, k).sbps == s.sbps
  {
    hide CreateActive;
    if e.activeIndex == 0 {
      EarlierActiveStatuses(name, e, s, f, k);
    } else if e.activeIndex <= |e.stages| && k > 0 {
      var (s', reply) := DeleteBp(s, BpName(name, e.stages[e.activeIndex - 1].name), f.del);
      if reply != Refused {
        BoundaryAfterCall(CreateActive(name, e, s', f), s, s', k);
        EarlierActiveStatuses(name, e, s', f, k - 1);
      }
    }
  }

  lemma EarlierActiveStatuses(name: string, e: Entry, s: Server, f: Faults, k: nat)
    requires k < |CreateActive(name, e, s, f).calls|
    ensures CreateActive(name, e, s, f).Boundary(s, k).sbps == s.sbps
  {
  }

  /** An attempt moves on by one stage exactly when the condition passes, there is a next stage
      whose BindingPolicy does not exist yet, the StagedBindingPolicy still exists, and every
      call is answered well. In particular a BindingPolicy left over for the next stage holds
      the rollout for as long as it exists. */
  lemma AdvancesExactly(ev: Evaluator, lister: Lister, name: string, e: Entry, s: Server, f: Faults)
    requires Filed(s) && e.activeIndex < |e.stages|
    ensures var x := AttemptCondition(ev, lister, name, e, s, f);
      x.outcome == Done && x.entry.activeIndex == e.activeIndex + 1 <==>
      && Passes(ev, lister, name, e)
      && e.activeIndex + 1 < |e.stages|
      && f.del.Clean? && f.create.Clean?
      && BpName(name, e.stages[e.activeIndex + 1].name) !in s.bps - {BpName(name, e.stages[e.activeIndex].name)}
      && f.get.Clean? && name in s.sbps && f.put.Clean?
  {
    var b := e.(activeIndex := e.activeIndex + 1);
    hide EnsureActiveStage, GatePasses, Filed, BpName, Passes;
    EnsureEntry(name, b, s, f);
    if e.activeIndex + 1 < |e.stages| {
      StageComesUpExactly(name, b, s, f);
    }
  }

  /** What an attempt that moves on leaves: what bringing up the next stage leaves. */
  lemma WhatAnAdvanceBrings(ev: Evaluator, lister: Lister, name: string, e: Entry, s: Server, f: Faults)
    requires Filed(s) && Passes(ev, lister, name, e)
    requires EnsureActiveStage(name, e.(activeIndex := e.activeIndex + 1), s, f).outcome == Done
    ensures var b := e.(activeIndex := e.activeIndex + 1);
      var x := AttemptCondition(ev, lister, name, e, s, f);
      && x.outcome == Done && x.entry == b.(activeUid := f.uid)
      && x.Final(s) == EnsureActiveStage(name, b, s, f).Final(s)
  {
    hide EnsureActiveStage, GatePasses, Filed;
    WhatAStageBrings(name, e.(activeIndex := e.activeIndex + 1), s, f);
  }
}
