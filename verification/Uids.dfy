/** The active UID of an entry: which BindingPolicy it belongs to, and what follows for the
    stored workload and for advancing. */
module Uids {
  import opened Api
  import opened Names
  import opened Gate
  import opened ApiServers
  import opened Rollout
  import opened Runs
  import opened Steps
  import opened Bounds
  import opened GateSoundness

  // ---------------------------------------------------------------- assumptions on a run

  /** The UID a created BindingPolicy gets is not empty and has not been handed out before. */
  ghost predicate FreshUid(st: State, core: Core) {
    core.Note? || core.Bind? || core.Report? ==>
      FaultsOf(core).uid != "" && FaultsOf(core).uid !in st.server.minted
  }

  ghost predicate UidsFresh(r: Run)
    requires |r.states| == |r.events| + 1
  {
    forall t: nat | t < |r.events| :: FreshUid(r.states[t], r.events[t].core)
  }

  /** Every Binding has an owner: the BindingPolicy it was made for. */
  ghost predicate BindingsOwned(r: Run) {
    forall t: nat | t < |r.events| && r.events[t].core.Bind? :: FirstOwner(r.events[t].core.binding) != ""
  }

  /** Every Binding is named after the BindingPolicy that owns it. */
  ghost predicate BindingsNamed(r: Run)
    requires |r.states| == |r.events| + 1
  {
    forall t: nat | t < |r.events| && r.events[t].core.Bind? :: NamedAfterOwner(r.states[t].server, r.events[t].core.binding)
  }

  ghost predicate NamedAfterOwner(s: Server, b: Binding) {
    FirstOwner(b) in s.minted && s.minted[FirstOwner(b)] == b.name
  }

  // ---------------------------------------------------------------- minted UIDs

  lemma MintedStep(ev: Evaluator, st: State, e: Event)
    requires Filed(st.server) && FreshUid(st, e.core)
    ensures forall u | u in st.server.minted ::
      u in Next(ev, st, e).server.minted && Next(ev, st, e).server.minted[u] == st.server.minted[u]
  {
    NextServer(ev, st, e);
    var k :| Next(ev, st, e).server == ServerAt(ev, st, e.core, k);
    ServerSteps(ev, st, e.core, k);
    if Bringing(ev, st, e.core).Some? {
      var p := EnsureBoundary(Target(e.core).value, Bringing(ev, st, e.core).value, st.server, FaultsOf(e.core), k);
    }
  }

  /** Whose BindingPolicy the active UID belongs to. */
  predicate MintedFor(s: Server, n: string, e: Entry, j: nat) {
    && e.activeUid in s.minted && j < |e.stages| && s.minted[e.activeUid] == BpName(n, e.stages[j].name)
  }

  /** A non-empty active UID is that of the active stage's BindingPolicy or the next one's;
      without one, no workload is stored. */
  predicate UidKnown(s: Server, n: string, e: Entry) {
    && (e.activeUid == "" ==> e.workload == EMPTY_WORKLOAD)
    && (e.activeUid != "" ==> MintedFor(s, n, e, e.activeIndex) || MintedFor(s, n, e, e.activeIndex + 1))
  }

  ghost predicate UidsKnown(st: State) {
    forall n | n in st.tracked :: UidKnown(st.server, n, st.tracked[n])
  }

  /** The UID after a completed step: the old one, or that of the BindingPolicy just created. */
  lemma UidAfterBringing(ev: Evaluator, st: State, e: Event, n: string)
    requires InRange(st) && Filed(st.server) && n in Next(ev, st, e).tracked
    requires Target(e.core) == Some(n) && Bringing(ev, st, e.core).Some?
    ensures var b, e' := Bringing(ev, st, e.core).value, Next(ev, st, e).tracked[n];
      var x := EnsureActiveStage(n, b, st.server, FaultsOf(e.core));
      && e'.activeUid == x.entry.activeUid
      && Next(ev, st, e).server == x.Final(st.server)
      && e'.activeIndex == (if x.outcome == Done || e.core.Note? then b.activeIndex else b.activeIndex - 1)
  {
    hide EnsureActiveStage, GatePasses, NoteSbp, Filed;
    var b := Bringing(ev, st, e.core).value;
    var x := EnsureActiveStage(n, b, st.server, FaultsOf(e.core));
    EffectShape(ev, st, e.core);
    EntryAfter(ev, st, e, n);
    EnsureEntry(n, b, st.server, FaultsOf(e.core));
    ServerSteps(ev, st, e.core, |x.calls|);
    assert x.Boundary(st.server, |x.calls|) == x.Final(st.server);
  }

  lemma UidKnownAfterBringing(ev: Evaluator, st: State, e: Event, n: string)
    requires InRange(st) && Filed(st.server) && UidsKnown(st) && FreshUid(st, e.core)
    requires e.core.Bind? ==> FirstOwner(e.core.binding) != ""
    requires n in Next(ev, st, e).tracked && Target(e.core) == Some(n) && Bringing(ev, st, e.core).Some?
    ensures UidKnown(Next(ev, st, e).server, n, Next(ev, st, e).tracked[n])
  {
    hide Next, EnsureActiveStage, AttemptCondition, GatePasses, NoteSbp, BpName;
    var b := Bringing(ev, st, e.core).value;
    EntryAfter(ev, st, e, n);
    UidAfterBringing(ev, st, e, n);
    MintedStep(ev, st, e);
    EnsureEntry(n, b, st.server, FaultsOf(e.core));
    if !e.core.Note? {
      assert UidKnown(st.server, n, st.tracked[n]);
      if b.workload == EMPTY_WORKLOAD {
        EmptyWorkloadBlocks(ev, ListerOf(e.core), n, Tried(st, e.core).value);
      }
    }
  }

  lemma UidKnownAfterQuiet(ev: Evaluator, st: State, e: Event, n: string)
    requires InRange(st) && Filed(st.server) && UidsKnown(st) && FreshUid(st, e.core)
    requires e.core.Bind? ==> FirstOwner(e.core.binding) != ""
    requires n in Next(ev, st, e).tracked && !(Target(e.core) == Some(n) && Bringing(ev, st, e.core).Some?)
    ensures UidKnown(Next(ev, st, e).server, n, Next(ev, st, e).tracked[n])
  {
    hide EnsureActiveStage;
    EntryAfter(ev, st, e, n);
    MintedStep(ev, st, e);
    assert UidKnown(st.server, n, st.tracked[n]);
  }

  /** In every reachable state a non-empty active UID was minted for the BindingPolicy of the
      active stage or of the one after it, and an empty one goes with an empty workload. */
  lemma {:induction false} ActiveUidConsistent(ev: Evaluator, r: Run, t: nat)
    requires IsRun(ev, r) && UidsFresh(r) && BindingsOwned(r) && t < |r.states|
    ensures UidsKnown(r.states[t])
  {
    if t > 0 {
      ActiveUidConsistent(ev, r, t - 1);
      IndexInRange(ev, r, t - 1);
      FiledRun(ev, r, t - 1);
      var st, e := r.states[t - 1], r.events[t - 1];
      assert r.states[t - 1 + 1] == Next(ev, st, e);
      assert FreshUid(st, e.core);
      var st' := Next(ev, st, e);
      forall n | n in st'.tracked
        ensures UidKnown(st'.server, n, st'.tracked[n])
      {
        if Target(e.core) == Some(n) && Bringing(ev, st, e.core).Some? {
          UidKnownAfterBringing(ev, st, e, n);
        } else {
          UidKnownAfterQuiet(ev, st, e, n);
        }
      }
    }
  }

  /** No advance without a known BindingPolicy: whenever a condition passes, the UID it looked
      for is non-empty and one the server has minted for this very rollout. */
  lemma NoAdvanceWithoutBp(ev: Evaluator, r: Run, t: nat)
    requires IsRun(ev, r) && UidsFresh(r) && BindingsOwned(r) && t < |r.events|
    requires Tried(r.states[t], r.events[t].core).Some?
    requires Passes(ev, ListerOf(r.events[t].core), Target(r.events[t].core).value, Tried(r.states[t], r.events[t].core).value)
    ensures var n, e := Target(r.events[t].core).value, Tried(r.states[t], r.events[t].core).value;
      e.activeUid != ""
      && (MintedFor(r.states[t].server, n, e, e.activeIndex) || MintedFor(r.states[t].server, n, e, e.activeIndex + 1))
  {
    var st, core := r.states[t], r.events[t].core;
    var n := Target(core).value;
    ActiveUidConsistent(ev, r, t);
    assert UidKnown(st.server, n, st.tracked[n]);
    if st.tracked[n].workload == EMPTY_WORKLOAD && core.Report? {
      EmptyWorkloadBlocks(ev, ListerOf(core), n, st.tracked[n]);
    }
  }

  // ---------------------------------------------------------------- bindings without an owner

  predicate IdleUntilKnown(e: Entry) {
    e.activeUid == "" ==> e.workload == EMPTY_WORKLOAD
  }

  /** "No UID, no workload" survives a Binding, whatever the entry, the caches and the server,
      exactly if the Binding has a first owner with a UID or an empty workload. */
  lemma OwnerlessBindingExactly(b: Binding)
    ensures (forall ev, lister, n, e: Entry, s, f: Faults | e.activeIndex < |e.stages| && IdleUntilKnown(e) && f.uid != "" ::
               IdleUntilKnown(NoteBinding(ev, lister, n, b, e, s, f).entry))
       <==> FirstOwner(b) != "" || b.workload == EMPTY_WORKLOAD
  {
    hide EnsureActiveStage;
    if FirstOwner(b) != "" || b.workload == EMPTY_WORKLOAD {
      forall ev, lister, n, e: Entry, s, f: Faults | e.activeIndex < |e.stages| && IdleUntilKnown(e) && f.uid != ""
        ensures IdleUntilKnown(NoteBinding(ev, lister, n, b, e, s, f).entry)
      {
        var e0 := e.(workload := b.workload);
        AttemptEntry(ev, lister, n, e0, s, f);
        EnsureEntry(n, e0.(activeIndex := e.activeIndex + 1), s, f);
      }
    } else {
      var ev := Evaluator((e, a) => EvalError, cs => None);
      var e := Entry("1", [], [Stage("s", [], None, None)], 0, "", EMPTY_WORKLOAD);
      var f := Faults(Clean, Clean, "u", Clean, Clean);
      var lister: Lister := _ => None;
      assert NoteBinding(ev, lister, "n", b, e, START.server, f).entry == e.(workload := b.workload);
      assert !IdleUntilKnown(e.(workload := b.workload));
    }
  }

  // ---------------------------------------------------------------- the mismatched state

  /** A CombinedStatus whose name contains the UID of a BindingPolicy is labelled with that
      BindingPolicy's name. */
  ghost predicate NamesTell(s: Server, lister: Lister) {
    forall sel, cs, u | lister(sel).Some? && cs in lister(sel).value && u in s.minted && Contains(cs.name, u) ::
      LabelIs(cs.labels, LABEL_BINDING_POLICY, s.minted[u])
  }

  ghost predicate StatusNamesTell(r: Run)
    requires |r.states| == |r.events| + 1
  {
    forall t: nat | t < |r.events| :: NamesTell(r.states[t].server, ListerOf(r.events[t].core))
  }

  /** The active UID belongs to a BindingPolicy other than that of the active stage. */
  predicate Mismatched(s: Server, n: string, e: Entry) {
    e.activeIndex < |e.stages| && e.activeUid in s.minted
    && s.minted[e.activeUid] != BpName(n, e.stages[e.activeIndex].name)
  }

  /** The BindingPolicy of the next stage is created and acknowledged, and then the status is not. */
  predicate FailsAfterCreate(n: string, e: Entry, s: Server, f: Faults)
    requires e.activeIndex < |e.stages|
  {
    && e.activeIndex + 1 < |e.stages| && f.del.Clean? && f.create.Clean?
    && BpName(n, e.stages[e.activeIndex + 1].name) !in s.bps - {BpName(n, e.stages[e.activeIndex].name)}
    && !(f.get.Clean? && n in s.sbps && f.put.Clean?)
  }

  /** A stage-up takes the index back and keeps the new UID exactly if it fails after the create;
      the entry then holds the UID of the next stage's BindingPolicy. */
  lemma FailedStatusMismatches(ev: Evaluator, lister: Lister, n: string, e: Entry, s: Server, f: Faults)
    requires Passes(ev, lister, n, e) && e.activeUid != f.uid && Filed(s)
    ensures var x := AttemptCondition(ev, lister, n, e, s, f);
      && (FailsAfterCreate(n, e, s, f) <==>
            x.outcome == Done && x.entry.activeIndex == e.activeIndex && x.entry.activeUid == f.uid)
      && (FailsAfterCreate(n, e, s, f) ==>
            && MintedFor(x.Final(s), n, x.entry, e.activeIndex + 1)
            && (e.stages[e.activeIndex].name != e.stages[e.activeIndex + 1].name ==> Mismatched(x.Final(s), n, x.entry)))
  {
    hide EnsureActiveStage, GatePasses, FailsAfterCreate;
    var b := e.(activeIndex := e.activeIndex + 1);
    EnsureEntry(n, b, s, f);
    AttemptEntry(ev, lister, n, e, s, f);
    UidKeptExactly(n, e, b, s, f);
    if FailsAfterCreate(n, e, s, f)
      && BpName(n, e.stages[e.activeIndex].name) == BpName(n, e.stages[e.activeIndex + 1].name) {
      StageInjective(n, e.stages[e.activeIndex].name, e.stages[e.activeIndex + 1].name);
    }
  }

  lemma UidKeptExactly(n: string, e: Entry, b: Entry, s: Server, f: Faults)
    requires e.activeIndex < |e.stages| && b == e.(activeIndex := e.activeIndex + 1)
    requires e.activeUid != f.uid && Filed(s)
    ensures var y := EnsureActiveStage(n, b, s, f);
      y.outcome == Failed && y.entry.activeUid == f.uid <==> FailsAfterCreate(n, e, s, f)
    ensures FailsAfterCreate(n, e, s, f) ==> b.activeIndex < |b.stages|
  {
    var (s', reply) := DeleteBp(s, BpName(n, e.stages[e.activeIndex].name), f.del);
    assert reply != Refused ==> s'.bps == s.bps - {BpName(n, e.stages[e.activeIndex].name)} && s'.sbps == s.sbps;
    if b.activeIndex < |b.stages| {
      ActiveComesUpExactly(n, b, s', f);
    }
  }

  /** If statuses tell by their names which BindingPolicy they are about, passing shows that
      the active UID is that of the active stage's BindingPolicy: the labels ask for the one,
      the name for the other. */
  lemma PassingMatches(ev: Evaluator, lister: Lister, s: Server, n: string, e: Entry)
    requires Passes(ev, lister, n, e) && NamesTell(s, lister) && Lawful(lister) && e.activeUid in s.minted
    ensures MintedFor(s, n, e, e.activeIndex)
  {
    var a := AttemptOn(n, e);
    GateSound(ev, lister, a);
    var o :| o in Targets(ev, a);
    assert Attested(ev, lister, a, o);
    var cs :| Attests(ev, lister, a, o, cs);
    assert LabelIs(cs.labels, LABEL_BINDING_POLICY, s.minted[e.activeUid]);
  }

  /** The mismatched state left by a failed status write can never advance: until the name is
      noted again, entry and UID stay as they are. */
  lemma {:induction false} MismatchNeverAdvances(ev: Evaluator, r: Run, n: string, a: nat, b: nat)
    requires IsRun(ev, r) && UidsFresh(r) && ListersLawful(r) && StatusNamesTell(r)
    requires Session(r, n, a, b) && Mismatched(r.states[a].server, n, r.states[a].tracked[n])
    ensures Mismatched(r.states[b].server, n, r.states[b].tracked[n])
    ensures r.states[b].tracked[n] == r.states[a].tracked[n].(workload := r.states[b].tracked[n].workload)
    decreases b - a
  {
    hide Next, FreshUid, NamesTell, Lawful, Mismatched, Filed;
    if a < b {
      MismatchNeverAdvances(ev, r, n, a, b - 1);
      var st, e := r.states[b - 1], r.events[b - 1];
      assert r.states[b - 1 + 1] == Next(ev, st, e);
      IndexInRange(ev, r, b - 1);
      FiledRun(ev, r, b - 1);
      assert FreshUid(st, e.core) && NamesTell(st.server, ListerOf(e.core));
      MismatchStays(ev, st, e, n);
    }
  }

  lemma MismatchStays(ev: Evaluator, st: State, e: Event, n: string)
    requires InRange(st) && Filed(st.server) && FreshUid(st, e.core)
    requires NamesTell(st.server, ListerOf(e.core)) && Lawful(ListerOf(e.core))
    requires n in st.tracked && n in Next(ev, st, e).tracked && !NotesName(e.core, n)
    requires Mismatched(st.server, n, st.tracked[n])
    ensures Mismatched(Next(ev, st, e).server, n, Next(ev, st, e).tracked[n])
    ensures Next(ev, st, e).tracked[n] == st.tracked[n].(workload := Next(ev, st, e).tracked[n].workload)
  {
    EntryAfter(ev, st, e, n);
    MintedStep(ev, st, e);
    if Target(e.core) == Some(n) && Tried(st, e.core).Some? {
      if Passes(ev, ListerOf(e.core), n, Tried(st, e.core).value) {
        PassingMatches(ev, ListerOf(e.core), st.server, n, Tried(st, e.core).value);
        assert false;
      }
    }
  }

  // ---------------------------------------------------------------- where workloads come from

  /** At step t a Binding of n owned by the then-active BindingPolicy brought this workload. */
  ghost predicate BroughtAt(r: Run, t: nat, n: string, w: Workload)
    requires t < |r.events| < |r.states|
  {
    && r.events[t].core.Bind?
    && OwnerOf(r.events[t].core.binding.name) == Some(n)
    && r.events[t].core.binding.workload == w
    && n in r.states[t].tracked
    && r.states[t].tracked[n].activeUid == FirstOwner(r.events[t].core.binding)
  }

  lemma ProvenanceStep(ev: Evaluator, st: State, e: Event, n: string)
    requires InRange(st) && n in Next(ev, st, e).tracked && Next(ev, st, e).tracked[n].workload != EMPTY_WORKLOAD
    ensures n in st.tracked && !NotesName(e.core, n)
    ensures
      || st.tracked[n].workload == Next(ev, st, e).tracked[n].workload
      || (&& e.core.Bind? && OwnerOf(e.core.binding.name) == Some(n)
          && e.core.binding.workload == Next(ev, st, e).tracked[n].workload
          && st.tracked[n].activeUid == FirstOwner(e.core.binding))
  {
    EntryAfter(ev, st, e, n);
  }

  /** Provenance: a stored workload that is not empty came, in the current tracking session,
      from a Binding whose first owner was the active BindingPolicy at that moment. */
  lemma {:induction false} WorkloadProvenance(ev: Evaluator, r: Run, n: string, t: nat) returns (t0: nat)
    requires IsRun(ev, r) && t < |r.states| && n in r.states[t].tracked
    requires r.states[t].tracked[n].workload != EMPTY_WORKLOAD
    ensures t0 < t && BroughtAt(r, t0, n, r.states[t].tracked[n].workload)
    ensures Session(r, n, t0, t)
  {
    assert t > 0;
    var st, e := r.states[t - 1], r.events[t - 1];
    assert r.states[t - 1 + 1] == Next(ev, st, e);
    IndexInRange(ev, r, t - 1);
    ProvenanceStep(ev, st, e, n);
    if BroughtAt(r, t - 1, n, r.states[t].tracked[n].workload) {
      t0 := t - 1;
    } else {
      t0 := WorkloadProvenance(ev, r, n, t - 1);
    }
  }

  lemma SupersededStep(ev: Evaluator, st: State, e: Event, n: string, u: string)
    requires InRange(st) && Filed(st.server) && FreshUid(st, e.core)
    requires u != "" && u in st.server.minted
    requires n in st.tracked ==> st.tracked[n].activeUid != u
    ensures u in Next(ev, st, e).server.minted
    ensures n in Next(ev, st, e).tracked ==> Next(ev, st, e).tracked[n].activeUid != u
  {
    MintedStep(ev, st, e);
    if n in Next(ev, st, e).tracked {
      EntryAfter(ev, st, e, n);
      if Target(e.core) == Some(n) && Bringing(ev, st, e.core).Some? {
        UidAfterBringing(ev, st, e, n);
        EnsureEntry(n, Bringing(ev, st, e.core).value, st.server, FaultsOf(e.core));
      }
    }
  }

  /** An active UID that has been superseded does not become active again. */
  lemma {:induction false} SupersededForGood(ev: Evaluator, r: Run, n: string, u: string, a: nat, b: nat)
    requires IsRun(ev, r) && UidsFresh(r) && a <= b < |r.states|
    requires u != "" && u in r.states[a].server.minted
    requires n in r.states[a].tracked ==> r.states[a].tracked[n].activeUid != u
    ensures u in r.states[b].server.minted
    ensures n in r.states[b].tracked ==> r.states[b].tracked[n].activeUid != u
    decreases b - a
  {
    if a < b {
      SupersededForGood(ev, r, n, u, a, b - 1);
      var st, e := r.states[b - 1], r.events[b - 1];
      assert r.states[b - 1 + 1] == Next(ev, st, e);
      IndexInRange(ev, r, b - 1);
      FiledRun(ev, r, b - 1);
      assert FreshUid(st, e.core);
      SupersededStep(ev, st, e, n, u);
    }
  }

  /** So a late Binding of a superseded BindingPolicy, or of an earlier one of the same name,
      changes nothing at all. */
  lemma LateBindingIgnored(ev: Evaluator, r: Run, n: string, a: nat, b: nat)
    requires IsRun(ev, r) && UidsFresh(r) && a <= b < |r.events|
    requires r.events[b].core.Bind? && OwnerOf(r.events[b].core.binding.name) == Some(n)
    requires r.events[b].fate == Completes
    requires var u := FirstOwner(r.events[b].core.binding);
      u != "" && u in r.states[a].server.minted
      && (n in r.states[a].tracked ==> r.states[a].tracked[n].activeUid != u)
    ensures r.states[b + 1] == r.states[b]
  {
    SupersededForGood(ev, r, n, FirstOwner(r.events[b].core.binding), a, b);
    assert r.states[b + 1] == Next(ev, r.states[b], r.events[b]);
    assert n in r.states[b].tracked ==> r.states[b].tracked[n := r.states[b].tracked[n]] == r.states[b].tracked;
  }
}
