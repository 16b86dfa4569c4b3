/** One complete rollout, under all the assumptions that the theorems about runs make. */
module Example {
  import opened Api
  import opened Names
  import opened Gate
  import opened ApiServers
  import opened Rollout
  import opened Runs
  import opened Steps
  import opened Bounds
  import opened GateSoundness
  import opened Placement
  import opened Uids

  function Answered(uid: string): Faults {
    Faults(Clean, Clean, uid, Clean, Clean)
  }

  /** A new StagedBindingPolicy of two stages, the UIDs its BindingPolicies will get, and the
      Binding of the first one. */
  predicate Fitting(sbp: Sbp, first: string, second: string, b: Binding) {
    && |sbp.stages| == 2 && WellFormed(sbp.stages) && Resolvable(sbp.stages) && sbp.activeStage == ""
    && WellNamed(sbp.name, sbp.stages[0].name)
    && first != "" && second != "" && first != second
    && b.name == BpName(sbp.name, sbp.stages[0].name) && b.owners == [first]
  }

  function PlacementOf(sbp: Sbp, i: nat, uid: string): map<string, Bp>
    requires i < |sbp.stages|
  {
    map[BpName(sbp.name, sbp.stages[i].name) := Bp(uid, sbp.uid, sbp.downsync, sbp.stages[i].clusterSelectors)]
  }

  function Created(sbp: Sbp): Server {
    Server(map[], map[sbp.name := sbp], map[], map[sbp.uid := sbp])
  }

  function AtFirst(sbp: Sbp, first: string): Server
    requires |sbp.stages| == 2
  {
    Server(PlacementOf(sbp, 0, first), map[sbp.name := sbp.(activeStage := sbp.stages[0].name)],
           map[first := BpName(sbp.name, sbp.stages[0].name)], map[sbp.uid := sbp])
  }

  function AtSecond(sbp: Sbp, first: string, second: string): Server
    requires |sbp.stages| == 2
  {
    Server(PlacementOf(sbp, 1, second), map[sbp.name := sbp.(activeStage := sbp.stages[1].name)],
           map[first := BpName(sbp.name, sbp.stages[0].name), second := BpName(sbp.name, sbp.stages[1].name)],
           map[sbp.uid := sbp])
  }

  /** The first entry, ready to be tried on the workload of the Binding. */
  function Tryable(sbp: Sbp, first: string, b: Binding): Entry {
    FreshEntry(sbp).(activeUid := first, workload := b.workload)
  }

  function TwoStageRun(sbp: Sbp, first: string, second: string, b: Binding, lister: Lister): Run
    requires |sbp.stages| == 2
  {
    var n := sbp.name;
    Run([START,
         State(map[], Created(sbp)),
         State(map[n := FreshEntry(sbp).(activeUid := first)], AtFirst(sbp, first)),
         State(map[n := Tryable(sbp, first, b).(activeIndex := 1, activeUid := second)], AtSecond(sbp, first, second))],
        [Event(UserCreate(sbp), Completes),
         Event(Note(sbp, lister, Answered(first), Answered(second)), Completes),
         Event(Bind(b, lister, Answered(second)), Completes)])
  }

  lemma FirstComesUp(ev: Evaluator, sbp: Sbp, first: string, second: string, b: Binding, lister: Lister)
    requires Fitting(sbp, first, second, b)
    ensures var x := NoteSbp(ev, lister, sbp, Created(sbp), Answered(first), Answered(second));
      x.entry == FreshEntry(sbp).(activeUid := first) && x.Final(Created(sbp)) == AtFirst(sbp, first) && x.outcome == Done
  {
    hide EnsureActiveStage;
    NoteStaysAtResolvedStage(ev, lister, sbp, Created(sbp), Answered(first), Answered(second));
    StageComesUpExactly(sbp.name, FreshEntry(sbp), Created(sbp), Answered(first));
    WhatAStageBrings(sbp.name, FreshEntry(sbp), Created(sbp), Answered(first));
  }

  lemma SecondComesUp(ev: Evaluator, sbp: Sbp, first: string, second: string, b: Binding, lister: Lister)
    requires Fitting(sbp, first, second, b) && Passes(ev, lister, sbp.name, Tryable(sbp, first, b))
    ensures var x := AttemptCondition(ev, lister, sbp.name, Tryable(sbp, first, b), AtFirst(sbp, first), Answered(second));
      && x.entry == Tryable(sbp, first, b).(activeIndex := 1, activeUid := second)
      && x.Final(AtFirst(sbp, first)) == AtSecond(sbp, first, second) && x.outcome == Done
  {
    hide EnsureActiveStage, GatePasses;
    var e := Tryable(sbp, first, b).(activeIndex := 1);
    assert Kept(sbp.name, e, AtFirst(sbp, first)) == map[];
    StageComesUpExactly(sbp.name, e, AtFirst(sbp, first), Answered(second));
    WhatAStageBrings(sbp.name, e, AtFirst(sbp, first), Answered(second));
  }

  lemma TwoStageRunIsRun(ev: Evaluator, sbp: Sbp, first: string, second: string, b: Binding, lister: Lister)
    requires Fitting(sbp, first, second, b) && Passes(ev, lister, sbp.name, Tryable(sbp, first, b))
    ensures IsRun(ev, TwoStageRun(sbp, first, second, b, lister))
  {
    hide NoteSbp, AttemptCondition, Passes, OwnerOf;
    var r := TwoStageRun(sbp, first, second, b, lister);
    assert r.states[1] == Next(ev, r.states[0], r.events[0]);
    FirstComesUp(ev, sbp, first, second, b, lister);
    assert r.states[2] == Next(ev, r.states[1], r.events[1]);
    FirstNameIsOwned(sbp, b);
    SecondComesUp(ev, sbp, first, second, b, lister);
    assert r.states[3] == Next(ev, r.states[2], r.events[2]);
  }

  lemma FirstNameIsOwned(sbp: Sbp, b: Binding)
    requires |sbp.stages| == 2 && WellNamed(sbp.name, sbp.stages[0].name)
    requires b.name == BpName(sbp.name, sbp.stages[0].name)
    ensures OwnerOf(b.name) == Some(sbp.name)
  {
    NameRoundTrip(sbp.name, sbp.stages[0].name);
  }

  lemma TwoStageRunCaches(sbp: Sbp, first: string, second: string, b: Binding, lister: Lister)
    requires Fitting(sbp, first, second, b) && Lawful(lister)
    ensures var r := TwoStageRun(sbp, first, second, b, lister);
      ListersLawful(r) && NotesComeFromServer(r) && NotesCurrent(r) && CreatesResolvable(r) && NotesWellFormed(r)
  {
    hide Resolvable, WellFormed, WellNamed, OwnerOf;
    var r := TwoStageRun(sbp, first, second, b, lister);
    assert WasOnServer(r.states[1], sbp);
  }

  lemma TwoStageRunServer(sbp: Sbp, first: string, second: string, b: Binding, lister: Lister)
    requires Fitting(sbp, first, second, b)
    ensures var r := TwoStageRun(sbp, first, second, b, lister);
      UidsFresh(r) && BindingsOwned(r) && NoLostStatus(r) && Undisturbed(r)
  {
    hide Resolvable, WellFormed, WellNamed, OwnerOf;
  }

  /** Where every object, entry and note has the same UID, no incarnations are mixed up. */
  lemma OneUidUnmixed(ev: Evaluator, st: State, core: Core, uid: string)
    requires forall n | n in st.server.sbps :: st.server.sbps[n].uid == uid
    requires forall n | n in st.tracked :: st.tracked[n].uid == uid
    requires core.Note? ==> core.sbp.uid == uid
    ensures !MixedUp(ev, st, core)
  {
    hide Passes;
  }

  lemma TwoStageRunUnmixed(ev: Evaluator, sbp: Sbp, first: string, second: string, b: Binding, lister: Lister)
    requires |sbp.stages| == 2
    ensures MixupsHarmless(ev, TwoStageRun(sbp, first, second, b, lister))
  {
    hide MixedUp, WrittenStage;
    var r := TwoStageRun(sbp, first, second, b, lister);
    OneUidUnmixed(ev, r.states[0], r.events[0].core, sbp.uid);
    OneUidUnmixed(ev, r.states[1], r.events[1].core, sbp.uid);
    OneUidUnmixed(ev, r.states[2], r.events[2].core, sbp.uid);
  }

  /** If the first condition passes on the workload of the first Binding, creating a two-stage
      object, noting it and noting that Binding roll it out: the status names the last stage, only
      that stage's BindingPolicy is left, and the entry knows its UID. The run satisfies every
      assumption used about runs elsewhere, so those theorems are not about nothing. */
  lemma RolloutHappens(ev: Evaluator, sbp: Sbp, first: string, second: string, b: Binding, lister: Lister)
    requires Fitting(sbp, first, second, b) && Lawful(lister) && Passes(ev, lister, sbp.name, Tryable(sbp, first, b))
    ensures var r := TwoStageRun(sbp, first, second, b, lister);
      && LawfulRun(ev, r) && MixupsHarmless(ev, r) && Placing(ev, r) && Undisturbed(r) && NoLostStatus(r)
      && UidsFresh(r) && BindingsOwned(r) && NotesWellFormed(r)
    ensures var st := TwoStageRun(sbp, first, second, b, lister).states[3];
      && st.server.sbps[sbp.name].activeStage == sbp.stages[1].name
      && st.server.bps == PlacementOf(sbp, 1, second)
      && st.tracked[sbp.name].activeIndex == 1 && st.tracked[sbp.name].activeUid == second
  {
    TwoStageRunIsRun(ev, sbp, first, second, b, lister);
    TwoStageRunCaches(sbp, first, second, b, lister);
    TwoStageRunServer(sbp, first, second, b, lister);
    TwoStageRunUnmixed(ev, sbp, first, second, b, lister);
    hide IsRun, ListersLawful, NotesComeFromServer, NotesCurrent, MixupsHarmless, CreatesResolvable;
  }
}
