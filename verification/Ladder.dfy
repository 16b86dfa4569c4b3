/** Runs that climb all stages and go down on the last one, and with them the exact answer to
    which stage lists can bring the process down. */
module Ladder {
  import opened Api
  import opened Names
  import opened Filter
  import opened Gate
  import opened ApiServers
  import opened Rollout
  import opened Runs
  import opened Steps
  import opened Bounds
  import opened GateSoundness
  import opened Placement
  import opened Uids
  import opened LastStage

  // ---------------------------------------------------------------- UIDs

  /** The i-th of `count` UIDs of equal length. */
  function UidOf(i: nat, count: nat): (u: string)
    requires i < count
    ensures |u| == count
  {
    seq(count, k requires 0 <= k < count => if k == i then '1' else '0')
  }

  lemma UidsTellApart(i: nat, j: nat, count: nat)
    requires i < count && j < count
    ensures Contains(UidOf(i, count), UidOf(j, count)) <==> i == j
    ensures UidOf(i, count) == UidOf(j, count) <==> i == j
  {
    var s, u := UidOf(i, count), UidOf(j, count);
    assert u[j] == '1' && (i != j ==> s[j] == '0');
    assert s[0..|u|] == s;
    assert OccursAt(s, u, 0) <==> s == u;
    forall p: nat | p <= |s| && OccursAt(s, u, p)
      ensures p == 0
    {
    }
  }

  // ---------------------------------------------------------------- the states of the climb

  const EASY := Evaluator((e, a) => Boolean(true), cs => Some(""))

  const LOAD := Workload([ClusterClause("g", "v", "r", "o", "1")], [])

  function ObjectOf(stages: seq<Stage>): Sbp {
    Sbp("n", "1", 1, [], stages, "")
  }

  /** The UID of the i-th stage's BindingPolicy; one more than there are stages. */
  function StageUid(stages: seq<Stage>, i: nat): string
    requires i <= |stages|
  {
    UidOf(i, |stages| + 1)
  }

  function StageBp(stages: seq<Stage>, i: nat): string
    requires i < |stages|
  {
    BpName("n", stages[i].name)
  }

  function MintedUpTo(stages: seq<Stage>, i: nat): map<string, string>
    requires i < |stages|
  {
    (if i == 0 then map[] else MintedUpTo(stages, i - 1))[StageUid(stages, i) := StageBp(stages, i)]
  }

  function RungServer(stages: seq<Stage>, i: nat): Server
    requires i < |stages|
  {
    Server(map[StageBp(stages, i) := Bp(StageUid(stages, i), "1", [], stages[i].clusterSelectors)],
           map["n" := ObjectOf(stages).(activeStage := stages[i].name)],
           MintedUpTo(stages, i),
           map["1" := ObjectOf(stages)])
  }

  /** The entry at stage i, ready to be tried. */
  function RungEntry(stages: seq<Stage>, i: nat): Entry
    requires i < |stages|
  {
    Entry("1", [], stages, i, StageUid(stages, i), LOAD)
  }

  function Rung(stages: seq<Stage>, i: nat): State
    requires i < |stages|
  {
    var e := RungEntry(stages, i);
    State(map["n" := if i == 0 then e.(workload := EMPTY_WORKLOAD) else e], RungServer(stages, i))
  }

  function Ground(stages: seq<Stage>): State {
    State(map[], Server(map[], map["n" := ObjectOf(stages)], map[], map["1" := ObjectOf(stages)]))
  }

  // ---------------------------------------------------------------- its events

  /** A status with the five labels asked for, named with the UID of stage i's BindingPolicy. */
  function StatusFor(stages: seq<Stage>, i: nat, sel: Selector): CombinedStatus
    requires i < |stages|
  {
    CombinedStatus("", StageUid(stages, i), 1,
      map[LABEL_GROUP := sel.group, LABEL_RESOURCE := sel.resource, LABEL_NAMESPACE := sel.namespace,
          LABEL_NAME := sel.name, LABEL_BINDING_POLICY := sel.bindingPolicy], "")
  }

  function Answering(stages: seq<Stage>, i: nat): Lister
    requires i < |stages|
  {
    (sel: Selector) => Some(if sel.bindingPolicy == StageBp(stages, i) then [StatusFor(stages, i, sel)] else [])
  }

  function AllClean(uid: string): Faults {
    Faults(Clean, Clean, uid, Clean, Clean)
  }

  /** What makes the entry at stage i move: the Binding at first, then CombinedStatuses. */
  function Climb(stages: seq<Stage>, bound: string, i: nat): Event
    requires i < |stages|
  {
    var f := AllClean(StageUid(stages, i + 1));
    Event(if i == 0 then Bind(Binding(bound, 1, [StageUid(stages, 0)], LOAD), Answering(stages, 0), f)
          else Report(CombinedStatus("", StageUid(stages, 0), 1, map[LABEL_BINDING_POLICY := bound], ""),
                      Answering(stages, i), f),
          Completes)
  }

  function NoteFirst(stages: seq<Stage>): Event {
    Event(Note(ObjectOf(stages), _ => Some([]), AllClean(StageUid(stages, 0)), AllClean(StageUid(stages, 0))), Completes)
  }

  function EventsOf(stages: seq<Stage>, bound: string): seq<Event> {
    [Event(UserCreate(ObjectOf(stages)), Completes), NoteFirst(stages)]
    + seq(|stages|, i requires 0 <= i < |stages| => Climb(stages, bound, i))
  }

  function StatesOf(stages: seq<Stage>, bound: string): seq<State> {
    var climbing := [START, Ground(stages)] + seq(|stages|, i requires 0 <= i < |stages| => Rung(stages, i));
    climbing + [Next(EASY, climbing[|climbing| - 1], EventsOf(stages, bound)[|climbing| - 1])]
  }

  /** Create the object, note it, and climb; `bound` is the name of the Binding. */
  function RunOf(stages: seq<Stage>, bound: string): Run {
    Run(StatesOf(stages, bound), EventsOf(stages, bound))
  }

  // ---------------------------------------------------------------- one rung at a time

  lemma AnsweringLawful(stages: seq<Stage>, i: nat)
    requires i < |stages|
    ensures Lawful(Answering(stages, i))
  {
    assert LABEL_GROUP[22] == 'a' && LABEL_RESOURCE[22] == 'r' && LABEL_BINDING_POLICY[22] == 'b';
    assert LABEL_NAMESPACE[22] == 'n' && LABEL_NAME[22] == 'n' && |LABEL_NAME| != |LABEL_NAMESPACE|;
  }

  lemma RungPasses(stages: seq<Stage>, i: nat)
    requires i < |stages| && stages[i].condition.Some?
    ensures Passes(EASY, Answering(stages, i), "n", RungEntry(stages, i))
  {
    var a := AttemptOn("n", RungEntry(stages, i));
    assert ClusterIdentifier(LOAD.clusterScope[0]) in Targets(EASY, a);
    UidsTellApart(i, i, |stages| + 1);
    forall o | o in Targets(EASY, a)
      ensures ObjectPasses(EASY, Answering(stages, i), a, o)
    {
      var cs := StatusFor(stages, i, SelectorFor("n", stages[i], o));
      assert LastNamed([cs], a.uid) == Some(cs);
    }
  }

  /** Climbing from stage i is one attempt on its entry. */
  lemma ClimbIsAttempt(stages: seq<Stage>, bound: string, i: nat)
    requires i < |stages| && OwnerOf(bound) == Some("n")
    ensures var core := Climb(stages, bound, i).core;
      && Target(core) == Some("n") && Tried(Rung(stages, i), core) == Some(RungEntry(stages, i))
      && EffectOf(EASY, Rung(stages, i), core) ==
           Some(AttemptCondition(EASY, Answering(stages, i), "n", RungEntry(stages, i), RungServer(stages, i), FaultsOf(core)))
  {
    hide AttemptCondition, OwnerOf;
    assert bound != "" by { EmptyIsUnowned(); }
  }

  lemma EmptyIsUnowned()
    ensures OwnerOf("") == None
  {
  }

  /** Bringing up a stage, all calls clean, when the previous BindingPolicy is the only one. */
  lemma ComesUpAlone(n: string, b: Entry, s: Server, f: Faults)
    requires Filed(s) && n in s.sbps && b.activeIndex < |b.stages| && Kept(n, b, s) == map[]
    requires f == AllClean(f.uid)
    ensures var x, stage := EnsureActiveStage(n, b, s, f), b.stages[b.activeIndex];
      && x.outcome == Done && x.entry == b.(activeUid := f.uid)
      && x.Final(s) == Server(
           map[BpName(n, stage.name) := Bp(f.uid, b.uid, b.downsync, stage.clusterSelectors)],
           s.sbps[n := s.sbps[n].(activeStage := stage.name)],
           s.minted[f.uid := BpName(n, stage.name)],
           s.issued)
  {
    hide EnsureActiveStage, Kept, Filed, BpName;
    StageComesUpExactly(n, b, s, f);
    WhatAStageBrings(n, b, s, f);
  }

  lemma NothingElseKept(stages: seq<Stage>, i: nat)
    requires i + 1 < |stages|
    ensures Kept("n", RungEntry(stages, i).(activeIndex := i + 1), RungServer(stages, i)) == map[]
  {
    hide BpName, UidOf, MintedUpTo;
  }

  lemma NextRungServer(stages: seq<Stage>, i: nat)
    requires i + 1 < |stages|
    ensures var s := RungServer(stages, i);
      RungServer(stages, i + 1) == Server(
        map[StageBp(stages, i + 1) := Bp(StageUid(stages, i + 1), "1", [], stages[i + 1].clusterSelectors)],
        s.sbps["n" := s.sbps["n"].(activeStage := stages[i + 1].name)],
        s.minted[StageUid(stages, i + 1) := StageBp(stages, i + 1)],
        s.issued)
  {
    hide BpName, UidOf;
  }

  lemma NextComesUp(stages: seq<Stage>, i: nat)
    requires i + 1 < |stages|
    ensures var b, s, f := RungEntry(stages, i).(activeIndex := i + 1), RungServer(stages, i), AllClean(StageUid(stages, i + 1));
      && EnsureActiveStage("n", b, s, f).outcome == Done
      && EnsureActiveStage("n", b, s, f).Final(s) == RungServer(stages, i + 1)
  {
    hide EnsureActiveStage, Filed, Kept, MintedUpTo;
    var b, s, f := RungEntry(stages, i).(activeIndex := i + 1), RungServer(stages, i), AllClean(StageUid(stages, i + 1));
    NothingElseKept(stages, i);
    RungFiled(stages, i);
    ComesUpAlone("n", b, s, f);
    NextRungServer(stages, i);
  }

  lemma ClimbReachesNext(stages: seq<Stage>, bound: string, i: nat)
    requires i + 1 < |stages| && stages[i].condition.Some? && OwnerOf(bound) == Some("n")
    ensures Next(EASY, Rung(stages, i), Climb(stages, bound, i)) == Rung(stages, i + 1)
  {
    hide EnsureActiveStage, AttemptCondition, Passes, OwnerOf, EffectOf, RungServer;
    ClimbIsAttempt(stages, bound, i);
    RungPasses(stages, i);
    NextComesUp(stages, i);
    RungFiled(stages, i);
    WhatAnAdvanceBrings(EASY, Answering(stages, i), "n", RungEntry(stages, i), RungServer(stages, i),
                        AllClean(StageUid(stages, i + 1)));
  }

  lemma RungFiled(stages: seq<Stage>, i: nat)
    requires i < |stages|
    ensures Filed(RungServer(stages, i))
  {
  }

  lemma NoteReachesFirst(stages: seq<Stage>)
    requires |stages| > 0
    ensures Next(EASY, Ground(stages), NoteFirst(stages)) == Rung(stages, 0)
  {
    hide EnsureActiveStage, GatePasses;
    var s, f := Ground(stages).server, AllClean(StageUid(stages, 0));
    var e := FreshEntry(ObjectOf(stages));
    NoteStaysAtResolvedStage(EASY, NoteFirst(stages).core.lister, ObjectOf(stages), s, f, f);
    ComesUpAlone("n", e, s, f);
  }

  lemma TopPanics(stages: seq<Stage>, bound: string)
    requires |stages| > 0 && stages[|stages| - 1].condition.Some? && OwnerOf(bound) == Some("n")
    ensures Panics(EASY, Rung(stages, |stages| - 1), Climb(stages, bound, |stages| - 1).core)
  {
    hide AttemptCondition, GatePasses, OwnerOf;
    var i: nat := |stages| - 1;
    ClimbIsAttempt(stages, bound, i);
    RungPasses(stages, i);
    AttemptPanicsExactly(EASY, Answering(stages, i), "n", RungEntry(stages, i), RungServer(stages, i),
                         AllClean(StageUid(stages, i + 1)));
  }

  // ---------------------------------------------------------------- the run

  /** What holds of the state and event at each time but the last. */
  lemma StepOf(stages: seq<Stage>, bound: string, t: nat)
    requires t < |stages| + 2
    ensures var r := RunOf(stages, bound);
      && |r.states| == |r.events| + 1 && |r.events| == |stages| + 2
      && r.states[t] == (if t == 0 then START else if t == 1 then Ground(stages) else Rung(stages, t - 2))
      && r.events[t] == (if t == 0 then Event(UserCreate(ObjectOf(stages)), Completes)
                         else if t == 1 then NoteFirst(stages) else Climb(stages, bound, t - 2))
      && (t == |stages| + 1 ==> r.states[t + 1] == Next(EASY, r.states[t], r.events[t]))
  {
    hide Next, Rung, Climb, Ground, NoteFirst;
  }

  lemma RunOfIsRun(stages: seq<Stage>, bound: string)
    requires AllConditioned(stages) && OwnerOf(bound) == Some("n")
    ensures IsRun(EASY, RunOf(stages, bound))
  {
    hide Rung, Climb, NoteFirst, OwnerOf, RunOf, EffectOf;
    var r := RunOf(stages, bound);
    StepOf(stages, bound, 0);
    forall t: nat | t < |r.events|
      ensures r.states[t + 1] == Next(EASY, r.states[t], r.events[t])
    {
      StepOf(stages, bound, t);
      if t < |stages| + 1 {
        StepOf(stages, bound, t + 1);
        if t == 0 {
          CreateReachesGround(stages);
        } else if t == 1 {
          NoteReachesFirst(stages);
        } else {
          ClimbReachesNext(stages, bound, t - 2);
        }
      }
    }
  }

  lemma CreateReachesGround(stages: seq<Stage>)
    ensures Next(EASY, START, Event(UserCreate(ObjectOf(stages)), Completes)) == Ground(stages)
  {
  }

  lemma {:induction false} MintedHere(stages: seq<Stage>, i: nat, u: string) returns (j: nat)
    requires i < |stages| && u in MintedUpTo(stages, i)
    ensures j <= i && u == StageUid(stages, j) && MintedUpTo(stages, i)[u] == StageBp(stages, j)
  {
    if u == StageUid(stages, i) {
      j := i;
    } else {
      j := MintedHere(stages, i - 1, u);
    }
  }

  lemma NextUidFresh(stages: seq<Stage>, i: nat)
    requires i < |stages|
    ensures StageUid(stages, i + 1) !in MintedUpTo(stages, i)
  {
    if StageUid(stages, i + 1) in MintedUpTo(stages, i) {
      var j := MintedHere(stages, i, StageUid(stages, i + 1));
      UidsTellApart(i + 1, j, |stages| + 1);
    }
  }

  lemma RungNamesTell(stages: seq<Stage>, i: nat)
    requires i < |stages|
    ensures NamesTell(RungServer(stages, i), Answering(stages, i))
  {
    forall sel, cs, u | Answering(stages, i)(sel).Some? && cs in Answering(stages, i)(sel).value
      && u in MintedUpTo(stages, i) && Contains(cs.name, u)
      ensures LabelIs(cs.labels, LABEL_BINDING_POLICY, MintedUpTo(stages, i)[u])
    {
      var j := MintedHere(stages, i, u);
      UidsTellApart(i, j, |stages| + 1);
    }
  }

  /** Nothing goes wrong but the panic: lawful listers, notes of the current object, no mixed-up
      incarnations, new UIDs, owned Bindings, telling status names, clean calls and no deaths. */
  ghost predicate Orderly(ev: Evaluator, r: Run) {
    && LawfulRun(ev, r) && MixupsHarmless(ev, r) && NotesCurrent(r)
    && UidsFresh(r) && BindingsOwned(r) && StatusNamesTell(r)
    && NoLostStatus(r) && Undisturbed(r)
  }

  lemma RunOfLawful(stages: seq<Stage>, bound: string)
    requires IsRun(EASY, RunOf(stages, bound))
    ensures var r := RunOf(stages, bound); LawfulRun(EASY, r) && NotesCurrent(r) && NotesOnly(r, stages)
  {
    hide IsRun, RunOf, Matches, Rung, Answering;
    var r := RunOf(stages, bound);
    StepOf(stages, bound, 0);
    forall t: nat | t < |r.events|
      ensures Lawful(ListerOf(r.events[t].core))
      ensures r.events[t].core.Note? ==> WasOnServer(r.states[t], r.events[t].core.sbp) && r.events[t].core.sbp.stages == stages
      ensures r.events[t].core.Note? ==> NotBehind(r.states[t].server, r.events[t].core.sbp)
    {
      StepOf(stages, bound, t);
      if t >= 2 {
        AnsweringLawful(stages, t - 2);
      }
    }
  }

  lemma RunOfTells(stages: seq<Stage>, bound: string)
    requires IsRun(EASY, RunOf(stages, bound))
    ensures StatusNamesTell(RunOf(stages, bound))
  {
    hide IsRun, RunOf, Answering, RungServer;
    var r := RunOf(stages, bound);
    StepOf(stages, bound, 0);
    forall t: nat | t < |r.events|
      ensures NamesTell(r.states[t].server, ListerOf(r.events[t].core))
    {
      StepOf(stages, bound, t);
      if t >= 2 {
        RungNamesTell(stages, t - 2);
      }
    }
  }

  lemma RunOfClean(stages: seq<Stage>, bound: string)
    requires IsRun(EASY, RunOf(stages, bound))
    ensures var r := RunOf(stages, bound);
      UidsFresh(r) && BindingsOwned(r) && NoLostStatus(r) && Undisturbed(r)
  {
    hide IsRun, RunOf;
    var r := RunOf(stages, bound);
    StepOf(stages, bound, 0);
    forall t: nat | t < |r.events|
      ensures FreshUid(r.states[t], r.events[t].core) && r.events[t].fate == Completes
      ensures r.events[t].core.Bind? ==> FirstOwner(r.events[t].core.binding) != ""
      ensures FaultsOf(r.events[t].core) == AllClean(FaultsOf(r.events[t].core).uid)
    {
      StepOf(stages, bound, t);
      if t >= 2 {
        NextUidFresh(stages, t - 2);
      }
    }
  }

  lemma RunOfUnmixed(stages: seq<Stage>, bound: string)
    requires IsRun(EASY, RunOf(stages, bound)) && OwnerOf(bound) == Some("n")
    ensures MixupsHarmless(EASY, RunOf(stages, bound))
  {
    hide IsRun, RunOf, OwnerOf, WrittenStage;
    var r := RunOf(stages, bound);
    StepOf(stages, bound, 0);
    forall t: nat | t < |r.events|
      ensures !MixedUp(EASY, r.states[t], r.events[t].core)
    {
      StepOf(stages, bound, t);
      if t >= 2 {
        ClimbIsAttempt(stages, bound, t - 2);
      }
    }
  }

  lemma RunOfOrderly(stages: seq<Stage>, bound: string)
    requires AllConditioned(stages) && OwnerOf(bound) == Some("n")
    ensures Orderly(EASY, RunOf(stages, bound)) && NotesOnly(RunOf(stages, bound), stages)
  {
    RunOfIsRun(stages, bound);
    RunOfLawful(stages, bound);
    RunOfClean(stages, bound);
    RunOfTells(stages, bound);
    RunOfUnmixed(stages, bound);
    hide RunOf, LawfulRun, OwnerOf, AllConditioned, MixupsHarmless, NotesCurrent, UidsFresh, BindingsOwned, StatusNamesTell, NoLostStatus, Undisturbed;
  }

  /** The last event of the run kills the process. */
  lemma RunOfPanics(stages: seq<Stage>, bound: string)
    requires AllConditioned(stages) && OwnerOf(bound) == Some("n")
    ensures var r := RunOf(stages, bound);
      |r.events| == |stages| + 2 && |r.states| == |stages| + 3
      && Panics(EASY, r.states[|stages| + 1], r.events[|stages| + 1].core)
  {
    hide RunOf, OwnerOf, Rung, Climb;
    StepOf(stages, bound, |stages| + 1);
    if |stages| == 0 {
      var c := NoteFirst(stages).core;
      NotePanicsExactly(EASY, c.lister, c.sbp, Ground(stages).server, c.f, c.f');
    } else {
      TopPanics(stages, bound);
    }
  }

  lemma RunOfNamed(stages: seq<Stage>)
    requires |stages| > 0 ==> AllConditioned(stages) && !Contains(stages[0].name, STAGE_INFIX)
    ensures var bound := if |stages| > 0 then StageBp(stages, 0) else BpName("n", "s");
      OwnerOf(bound) == Some("n") && BindingsNamed(RunOf(stages, bound))
  {
    var bound := if |stages| > 0 then StageBp(stages, 0) else BpName("n", "s");
    NameRoundTrip("n", if |stages| > 0 then stages[0].name else "s");
    hide RunOf, OwnerOf;
    var r := RunOf(stages, bound);
    StepOf(stages, bound, 0);
    forall t: nat | t < |r.events| && r.events[t].core.Bind?
      ensures NamedAfterOwner(r.states[t].server, r.events[t].core.binding)
    {
      StepOf(stages, bound, t);
    }
  }

  // ---------------------------------------------------------------- the exact answer

  /** A run with lawful listers and arbitrarily stale caches that notes only these stages and
      panics at step t. */
  ghost predicate PanicsIn(ev: Evaluator, r: Run, t: nat, stages: seq<Stage>) {
    LawfulRun(ev, r) && NotesOnly(r, stages) && t < |r.events| && Panics(ev, r.states[t], r.events[t].core)
  }

  ghost predicate CanPanic(stages: seq<Stage>) {
    exists ev, r, t :: PanicsIn(ev, r, t, stages)
  }

  ghost predicate CanPanicOrderly(stages: seq<Stage>) {
    exists ev, r, t :: PanicsIn(ev, r, t, stages) && Orderly(ev, r)
  }

  /** The same if also every Binding is named after the BindingPolicy that owns it. */
  ghost predicate CanPanicNamed(stages: seq<Stage>) {
    exists ev, r, t :: PanicsIn(ev, r, t, stages) && Orderly(ev, r) && BindingsNamed(r)
  }

  /** A stage list can bring the process down exactly if every stage has a condition, the empty
      list included: no matter whether runs may be as disorderly as caches, incarnations and
      faults allow or must be orderly. */
  lemma CanPanicExactly(stages: seq<Stage>)
    ensures CanPanic(stages) <==> AllConditioned(stages)
    ensures CanPanicOrderly(stages) <==> AllConditioned(stages)
  {
    hide Panics, NotesOnly, RunOf, Orderly;
    if AllConditioned(stages) {
      var bound := BpName("n", "s");
      NameRoundTrip("n", "s");
      RunOfOrderly(stages, bound);
      RunOfPanics(stages, bound);
      assert LawfulRun(EASY, RunOf(stages, bound)) by { OrderlyLawful(EASY, RunOf(stages, bound)); }
      assert PanicsIn(EASY, RunOf(stages, bound), |stages| + 1, stages);
    } else if CanPanic(stages) {
      var ev, r, t :| PanicsIn(ev, r, t, stages);
      var j: nat :| j < |stages| && stages[j].condition.None?;
      UnconditionedNeverPanics(ev, r, t, stages, j);
      assert false;
    }
  }

  lemma OrderlyLawful(ev: Evaluator, r: Run)
    requires Orderly(ev, r)
    ensures LawfulRun(ev, r)
  {
  }

  /** With Bindings named after their BindingPolicies, exactly if it is empty, or every stage has
      a condition and the first stage's name does not contain ".stage.": then that stage's
      Bindings are attributed to nobody and its rollout never moves. */
  lemma NamedCanPanicExactly(stages: seq<Stage>)
    ensures CanPanicNamed(stages) <==>
      stages == [] || (AllConditioned(stages) && !Contains(stages[0].name, STAGE_INFIX))
  {
    hide Panics, NotesOnly, RunOf, Orderly, BindingsNamed, Contains;
    if CanPanicNamed(stages) {
      var ev, r, t :| PanicsIn(ev, r, t, stages) && Orderly(ev, r) && BindingsNamed(r);
      CanPanicExactly(stages);
      if |stages| > 0 && Contains(stages[0].name, STAGE_INFIX) {
        DeafNeverPanics(ev, r, t, stages);
        assert false;
      }
    }
    if stages == [] || (AllConditioned(stages) && !Contains(stages[0].name, STAGE_INFIX)) {
      var bound := if |stages| > 0 then StageBp(stages, 0) else BpName("n", "s");
      RunOfNamed(stages);
      RunOfOrderly(stages, bound);
      RunOfPanics(stages, bound);
      OrderlyLawful(EASY, RunOf(stages, bound));
      assert PanicsIn(EASY, RunOf(stages, bound), |stages| + 1, stages);
    }
  }
}
