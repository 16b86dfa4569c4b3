/** Noting a StagedBindingPolicy again: when it is harmless, and when it is no help. */
module Redelivery {
  import opened Api
  import opened Names
  import opened Gate
  import opened ApiServers
  import opened Rollout
  import opened Runs
  import opened Steps
  import opened Projection

  /** The BindingPolicy of the stage the status resolves to exists and the previous one does not. */
  predicate UpAlready(s: Server, sbp: Sbp) {
    var i := ResolveStage(sbp.stages, sbp.activeStage);
    i < |sbp.stages| ==>
      && BpName(sbp.name, sbp.stages[i].name) in s.bps
      && (i > 0 ==> BpName(sbp.name, sbp.stages[i - 1].name) !in s.bps)
  }

  lemma UpAlreadyChangesNothing(sbp: Sbp, s: Server, f: Faults)
    requires UpAlready(s, sbp)
    ensures var x := EnsureActiveStage(sbp.name, FreshEntry(sbp), s, f);
      && x.entry == FreshEntry(sbp)
      && forall k: nat :: x.Boundary(s, k) == s
  {
    var e := FreshEntry(sbp);
    if 0 < e.activeIndex < |e.stages| {
      assert s.bps - {BpName(sbp.name, e.stages[e.activeIndex - 1].name)} == s.bps;
    }
  }

  lemma NotUpChangesSomething(sbp: Sbp, s: Server, f: Faults)
    requires !UpAlready(s, sbp) && f.del.Clean? && f.create.Clean?
    ensures exists k: nat :: EnsureActiveStage(sbp.name, FreshEntry(sbp), s, f).Boundary(s, k) != s
  {
    var e := FreshEntry(sbp);
    var x := EnsureActiveStage(sbp.name, e, s, f);
    var i := e.activeIndex;
    if i > 0 && BpName(sbp.name, e.stages[i - 1].name) in s.bps {
      assert BpName(sbp.name, e.stages[i - 1].name) !in x.Boundary(s, 1).bps;
    } else if i > 0 {
      assert s.bps - {BpName(sbp.name, e.stages[i - 1].name)} == s.bps;
      assert BpName(sbp.name, e.stages[i].name) in x.Boundary(s, 2).bps;
    } else {
      assert BpName(sbp.name, e.stages[i].name) in x.Boundary(s, 1).bps;
    }
  }

  /** Noting is harmless for the server, however its calls fare, exactly when the active stage's
      BindingPolicy is there and the previous stage's is not. */
  lemma HarmlessExactly(ev: Evaluator, lister: Lister, sbp: Sbp, s: Server)
    ensures (forall f, f', k: nat :: NoteSbp(ev, lister, sbp, s, f, f').Boundary(s, k) == s) <==> UpAlready(s, sbp)
  {
    if UpAlready(s, sbp) {
      forall f, f', k: nat
        ensures NoteSbp(ev, lister, sbp, s, f, f').Boundary(s, k) == s
      {
        NoteStaysAtResolvedStage(ev, lister, sbp, s, f, f');
        UpAlreadyChangesNothing(sbp, s, f);
      }
    } else {
      var f := Faults(Clean, Clean, "u", Clean, Clean);
      NoteStaysAtResolvedStage(ev, lister, sbp, s, f, f);
      NotUpChangesSomething(sbp, s, f);
    }
  }

  /** Redelivery: while that holds, noting the same object again and again, with any faults,
      deaths included, leaves every BindingPolicy and status as it is; a note that returns
      leaves an entry without UID and workload. */
  lemma {:induction false} RedeliveriesHarmless(ev: Evaluator, st: State, sbp: Sbp, es: seq<Event>)
    requires UpAlready(st.server, sbp) && |sbp.stages| > 0
    requires forall e | e in es :: e.core.Note? && e.core.sbp == sbp
    ensures After(ev, st, es).server == st.server
    ensures |es| > 0 && es[|es| - 1].fate == Completes ==>
      sbp.name in After(ev, st, es).tracked && After(ev, st, es).tracked[sbp.name] == FreshEntry(sbp)
    decreases |es|
  {
    if |es| > 0 {
      var core := es[0].core;
      NoteStaysAtResolvedStage(ev, core.lister, sbp, st.server, core.f, core.f');
      UpAlreadyChangesNothing(sbp, st.server, core.f);
      var x := EnsureActiveStage(sbp.name, FreshEntry(sbp), st.server, core.f);
      assert x.Boundary(st.server, |x.calls|) == x.Final(st.server);
      RedeliveriesHarmless(ev, Next(ev, st, es[0]), sbp, es[1..]);
      if |es| > 1 {
        assert es[1..][|es| - 2] == es[|es| - 1];
      }
    }
  }

  // ---------------------------------------------------------------- stalling

  /** The entry of n, if there is one, knows no BindingPolicy and no workload. */
  predicate Blank(st: State, n: string) {
    n in st.tracked ==> st.tracked[n].activeUid == "" && st.tracked[n].workload == EMPTY_WORKLOAD
  }

  /** n is blank, on the server, and its active BindingPolicy is up already. */
  predicate Stalled(st: State, n: string) {
    && n in st.server.sbps && NamedWell(n, st.server.sbps[n].stages)
    && UpAlready(st.server, st.server.sbps[n]) && Blank(st, n)
  }

  /** Nobody deletes n or takes a BindingPolicy of n away, notes of n see the object, and Bindings
      have owners. */
  predicate LeavesAlone(st: State, core: Core, n: string) {
    && core != UserDelete(n) && (core.Vanish? ==> Target(core) != Some(n))
    && (core.Note? && core.sbp.name == n ==> n in st.server.sbps && core.sbp == st.server.sbps[n])
    && (core.Bind? ==> FirstOwner(core.binding) != "")
  }

  ghost predicate AllLeaveAlone(ev: Evaluator, st: State, es: seq<Event>, n: string)
    decreases |es|
  {
    |es| > 0 ==> LeavesAlone(st, es[0].core, n) && AllLeaveAlone(ev, Next(ev, st, es[0]), es[1..], n)
  }

  /** A stalled object changes nothing on the server, at no API-call boundary. */
  lemma StalledServer(ev: Evaluator, st: State, core: Core, n: string, k: nat)
    requires Filed(st.server) && Stalled(st, n) && LeavesAlone(st, core, n) && Target(core) == Some(n)
    ensures ServerAt(ev, st, core, k) == st.server
  {
    hide EnsureActiveStage, GatePasses, EffectOf, UpAlready;
    ServerSteps(ev, st, core, k);
    if core.Note? {
      UpAlreadyChangesNothing(core.sbp, st.server, core.f);
    } else if Tried(st, core).Some? {
      EmptyWorkloadBlocks(ev, ListerOf(core), n, Tried(st, core).value);
    }
  }

  lemma StalledBlank(ev: Evaluator, st: State, e: Event, n: string)
    requires InRange(st) && Stalled(st, n) && LeavesAlone(st, e.core, n)
    ensures Blank(Next(ev, st, e), n)
  {
    hide EnsureActiveStage, GatePasses, UpAlready, NamedWell;
    if n in Next(ev, st, e).tracked {
      EntryAfter(ev, st, e, n);
      if e.core.Note? && Target(e.core) == Some(n) {
        UpAlreadyChangesNothing(e.core.sbp, st.server, e.core.f);
      } else if Target(e.core) == Some(n) && Tried(st, e.core).Some? {
        EmptyWorkloadBlocks(ev, ListerOf(e.core), n, Tried(st, e.core).value);
        AttemptEntry(ev, ListerOf(e.core), n, Tried(st, e.core).value, st.server, FaultsOf(e.core));
      }
    }
  }

  /** Whether a BindingPolicy is up shows in the projection. */
  lemma UpInProjection(s: Server, s': Server, n: string)
    requires ProjectServer(s', n) == ProjectServer(s, n)
    ensures n in s'.sbps <==> n in s.sbps
    ensures n in s.sbps ==> s'.sbps[n] == s.sbps[n]
    ensures n in s.sbps && s.sbps[n].name == n && NamedWell(n, s.sbps[n].stages) ==>
      (UpAlready(s', s.sbps[n]) <==> UpAlready(s, s.sbps[n]))
  {
    assert OwnSbps(s'.sbps, n) == OwnSbps(s.sbps, n) && OwnBps(s'.bps, n) == OwnBps(s.bps, n);
    assert n in OwnSbps(s'.sbps, n) <==> n in s'.sbps;
    if n in s.sbps {
      assert OwnSbps(s'.sbps, n)[n] == OwnSbps(s.sbps, n)[n];
      if NamedWell(n, s.sbps[n].stages) {
        forall i | 0 <= i < |s.sbps[n].stages|
          ensures BpName(n, s.sbps[n].stages[i].name) in s'.bps <==> BpName(n, s.sbps[n].stages[i].name) in s.bps
        {
          var b := BpName(n, s.sbps[n].stages[i].name);
          NameIsOwned(n, s.sbps[n].stages[i].name);
          assert b in OwnBps(s'.bps, n) <==> b in OwnBps(s.bps, n);
        }
      }
    }
  }

  lemma StalledStep(ev: Evaluator, st: State, e: Event, n: string)
    requires Filed(st.server) && InRange(st) && TracksNamedWell(st) && Proper(st, e.core)
    requires Stalled(st, n) && LeavesAlone(st, e.core, n)
    ensures ProjectServer(Next(ev, st, e).server, n) == ProjectServer(st.server, n) && Stalled(Next(ev, st, e), n)
  {
    hide Next, ServerAt, ProjectServer, UpAlready, NamedWell, OwnerOf;
    NextServer(ev, st, e);
    var k :| Next(ev, st, e).server == ServerAt(ev, st, e.core, k);
    if Target(e.core) == Some(n) {
      StalledServer(ev, st, e.core, n, k);
    } else {
      OtherServer(ev, st, e.core, k, n);
    }
    StalledBlank(ev, st, e, n);
    UpInProjection(st.server, Next(ev, st, e).server, n);
  }

  /** Stalling: once the process has died while the active BindingPolicy was up, the rollout never
      moves again. The new entry has no UID, so every owned Binding is ignored, and every note
      fails at the create; whatever happens, deaths included, the BindingPolicies, status and
      UIDs of n stay as they are until somebody deletes n or takes a BindingPolicy of n away. */
  lemma {:induction false} StalledForGood(ev: Evaluator, st: State, es: seq<Event>, n: string)
    requires Filed(st.server) && InRange(st) && TracksNamedWell(st) && AllProper(ev, st, es)
    requires Stalled(st, n) && AllLeaveAlone(ev, st, es, n)
    ensures ProjectServer(After(ev, st, es).server, n) == ProjectServer(st.server, n)
    ensures Stalled(After(ev, st, es), n)
    decreases |es|
  {
    hide ProjectServer, Stalled, LeavesAlone, Proper, Next, Filed, TracksNamedWell, InRange;
    if |es| > 0 {
      StalledStep(ev, st, es[0], n);
      NextServer(ev, st, es[0]);
      var k :| Next(ev, st, es[0]).server == ServerAt(ev, st, es[0].core, k);
      FiledStep(ev, st, es[0].core, k);
      InRangeStep(ev, st, es[0]);
      TracksNamedWellStep(ev, st, es[0]);
      StalledForGood(ev, Next(ev, st, es[0]), es[1..], n);
    }
  }

  /** A death leaves an object whose active BindingPolicy is up stalled. */
  lemma DeathStalls(ev: Evaluator, st: State, n: string)
    requires n in st.server.sbps && NamedWell(n, st.server.sbps[n].stages) && UpAlready(st.server, st.server.sbps[n])
    ensures Stalled(Next(ev, st, RESTART), n)
  {
  }

  /** And what ends it, exactly: a note gives the entry a UID, and so the rollout a way on, if and
      only if the previous BindingPolicy is deleted well, the active one does not exist, and its
      create is answered well. */
  lemma NoteGivesUidExactly(ev: Evaluator, lister: Lister, sbp: Sbp, s: Server, f: Faults, f': Faults)
    requires f.uid != ""
    ensures var e := FreshEntry(sbp);
      NoteSbp(ev, lister, sbp, s, f, f').entry.activeUid != "" <==>
        && e.activeIndex < |e.stages| && (e.activeIndex > 0 ==> f.del.Clean?)
        && BpName(sbp.name, e.stages[e.activeIndex].name) !in Kept(sbp.name, e, s) && f.create.Clean?
  {
    NoteStaysAtResolvedStage(ev, lister, sbp, s, f, f');
    var e := FreshEntry(sbp);
    hide NoteSbp, ResolveStage;
    if 0 < e.activeIndex < |e.stages| {
      var (s', reply) := DeleteBp(s, BpName(sbp.name, e.stages[e.activeIndex - 1].name), f.del);
      assert reply != Refused ==> s'.bps == Kept(sbp.name, e, s);
    }
  }
}
