/** The resolver as an object: a map from StagedBindingPolicy names to records that its methods
    update in place, and calls to the API server. Each exported method runs under one lock, so
    it is one atomic step as far as the tracked records go. The parameters `lister` and `f` say
    what the CombinedStatus cache and the API server answer during the call. */
module Resolvers {
  import opened Api
  import opened Names
  import opened Gate
  import opened ApiServers
  import opened Rollout

  class SbpData {
    var uid: string
    var downsync: seq<DownsyncPolicyClause>
    var stages: seq<Stage>
    var activeIndex: nat
    var activeUid: string
    var workload: Workload

    constructor (sbp: Sbp, activeIndex: nat)
      ensures Value() == Entry(sbp.uid, sbp.downsync, sbp.stages, activeIndex, "", EMPTY_WORKLOAD)
    {
      uid, downsync, stages := sbp.uid, sbp.downsync, sbp.stages;
      this.activeIndex, activeUid, workload := activeIndex, "", EMPTY_WORKLOAD;
    }

    function Value(): Entry
      reads this
    {
      Entry(uid, downsync, stages, activeIndex, activeUid, workload)
    }
  }

  class Resolver {
    const evaluator: Evaluator
    const api: ApiServer
    var stagedBindingPolicies: map<string, SbpData>

    function Records(): set<SbpData>
      reads this
    {
      set n | n in stagedBindingPolicies :: stagedBindingPolicies[n]
    }

    // No record is shared between two names.
    ghost predicate Valid()
      reads this
    {
      forall n, m | n in stagedBindingPolicies && m in stagedBindingPolicies && n != m ::
        stagedBindingPolicies[n] != stagedBindingPolicies[m]
    }

    function Tracked(): map<string, Entry>
      reads this, Records()
    {
      map n | n in stagedBindingPolicies :: stagedBindingPolicies[n].Value()
    }

    constructor (evaluator: Evaluator, api: ApiServer)
      ensures Valid() && Tracked() == map[] && this.api == api && this.evaluator == evaluator
    {
      this.evaluator, this.api := evaluator, api;
      stagedBindingPolicies := map[];
    }

    /** The API server went through the calls of x since the old state. */
    twostate predicate Performed(x: Effect)
      reads api
    {
      api.Contents() == x.Final(old(api.Contents())) && api.log == old(api.log) + x.calls
    }

    /** If one record changed, one entry did. */
    twostate lemma OneEntryChanged(name: string)
      requires Valid() && name in stagedBindingPolicies && stagedBindingPolicies == old(stagedBindingPolicies)
      requires forall n | n in stagedBindingPolicies && n != name :: unchanged(stagedBindingPolicies[n])
      ensures Tracked() == old(Tracked())[name := stagedBindingPolicies[name].Value()]
    {
    }

    /** If one record was replaced by a new one, one entry changed. */
    twostate lemma OneEntryReplaced(name: string)
      requires name in stagedBindingPolicies
      requires stagedBindingPolicies == old(stagedBindingPolicies)[name := stagedBindingPolicies[name]]
      requires forall n | n in old(stagedBindingPolicies) && n != name :: unchanged(old(stagedBindingPolicies[n]))
      ensures Tracked() == old(Tracked())[name := stagedBindingPolicies[name].Value()]
    {
    }

    method NoteStagedBindingPolicy(sbp: Sbp, lister: Lister, f: Faults, f': Faults) returns (outcome: Outcome)
      requires Valid()
      modifies this, api
      ensures Valid() && sbp.name in stagedBindingPolicies && fresh(stagedBindingPolicies[sbp.name])
      ensures stagedBindingPolicies == old(stagedBindingPolicies)[sbp.name := stagedBindingPolicies[sbp.name]]
      ensures var x := NoteSbp(evaluator, lister, sbp, old(api.Contents()), f, f');
              Tracked() == old(Tracked())[sbp.name := x.entry] && outcome == x.outcome && Performed(x)
    {
      var activeStage := ActiveStageIndex(sbp.stages, sbp.activeStage);
      var data := new SbpData(sbp, activeStage);
      stagedBindingPolicies := stagedBindingPolicies[sbp.name := data];
      outcome := BeginLocked(sbp.name, lister, f, f');
      OneEntryReplaced(sbp.name);
    }

    /** The part of noting that works on the new record. */
    method BeginLocked(sbpName: string, lister: Lister, f: Faults, f': Faults) returns (outcome: Outcome)
      requires sbpName in stagedBindingPolicies
      modifies stagedBindingPolicies[sbpName], api
      ensures var data := stagedBindingPolicies[sbpName];
              var x := Begin(evaluator, lister, sbpName, old(data.Value()), old(api.Contents()), f, f');
              data.Value() == x.entry && outcome == x.outcome && Performed(x)
    {
      var data := stagedBindingPolicies[sbpName];
      outcome := EnsureActiveStageLocked(sbpName, data, f);
      if outcome == Done {
        ghost var x := EnsureActiveStage(sbpName, old(data.Value()), old(api.Contents()), f);
        outcome := AttemptConditionLocked(sbpName, lister, f');
        ghost var y := AttemptCondition(evaluator, lister, sbpName, x.entry, x.Final(old(api.Contents())), f');
        ThenComposes(x, y, old(api.log), old(api.Contents()));
      }
    }

    method DeleteStagedBindingPolicy(sbpName: string)
      requires Valid()
      modifies this`stagedBindingPolicies
      ensures Valid() && Tracked() == old(Tracked()) - {sbpName} && Records() <= old(Records())
    {
      stagedBindingPolicies := stagedBindingPolicies - {sbpName};
    }

    method NoteBinding(binding: Binding, lister: Lister, f: Faults) returns (outcome: Outcome)
      requires Valid()
      modifies Records(), api
      ensures Valid()
      ensures var name := OwnerOf(binding.name);
        if name.Some? && name.value in old(Tracked()) then
          var x := Rollout.NoteBinding(evaluator, lister, name.value, binding, old(Tracked())[name.value], old(api.Contents()), f);
          Tracked() == old(Tracked())[name.value := x.entry] && outcome == x.outcome && Performed(x)
        else
          Tracked() == old(Tracked()) && outcome == Done && unchanged(api)
    {
      outcome := Done;
      var pieces := SplitLoop(binding.name);
      if |pieces| != 2 || pieces[0] !in stagedBindingPolicies {
        return;
      }
      var name := pieces[0];
      var data := stagedBindingPolicies[name];
      var bpUid := if |binding.owners| > 0 then binding.owners[0] else "";
      if data.activeUid == bpUid {
        data.workload := binding.workload;
        outcome := AttemptConditionLocked(name, lister, f);
      }
      OneEntryChanged(name);
    }

    method NoteCombinedStatus(cs: CombinedStatus, lister: Lister, f: Faults) returns (outcome: Outcome)
      requires Valid()
      modifies Records(), api
      ensures Valid()
      ensures var name := StatusOwner(cs);
        if name.Some? && name.value in old(Tracked()) then
          var x := AttemptCondition(evaluator, lister, name.value, old(Tracked())[name.value], old(api.Contents()), f);
          Tracked() == old(Tracked())[name.value := x.entry] && outcome == x.outcome && Performed(x)
        else
          Tracked() == old(Tracked()) && outcome == Done && unchanged(api)
    {
      outcome := Done;
      var bound := if LABEL_BINDING_POLICY in cs.labels then cs.labels[LABEL_BINDING_POLICY] else "";
      if bound == "" {
        return;
      }
      var pieces := SplitLoop(bound);
      if |pieces| != 2 {
        return;
      }
      outcome := AttemptRelevantLocked(pieces[0], lister, f);
      if pieces[0] in stagedBindingPolicies {
        OneEntryChanged(pieces[0]);
      }
    }

    /** The loop over the tracked names that skips all but one. */
    method AttemptRelevantLocked(name: string, lister: Lister, f: Faults) returns (outcome: Outcome)
      requires Valid()
      modifies Records(), api
      ensures forall n | n in stagedBindingPolicies && n != name :: unchanged(stagedBindingPolicies[n])
      ensures name !in stagedBindingPolicies ==> outcome == Done && unchanged(api)
      ensures name in stagedBindingPolicies ==>
        var data := stagedBindingPolicies[name];
        var x := AttemptCondition(evaluator, lister, name, old(data.Value()), old(api.Contents()), f);
        data.Value() == x.entry && outcome == x.outcome && Performed(x)
    {
      outcome := Done;
      var todo := stagedBindingPolicies.Keys;
      ghost var x := Quiet(Entry("", [], [], 0, "", EMPTY_WORKLOAD));
      if name in stagedBindingPolicies {
        x := AttemptCondition(evaluator, lister, name, stagedBindingPolicies[name].Value(), api.Contents(), f);
      }
      while todo != {}
        invariant todo <= stagedBindingPolicies.Keys
        invariant forall n | n in stagedBindingPolicies && n != name :: unchanged(stagedBindingPolicies[n])
        invariant name !in stagedBindingPolicies ==> outcome == Done && unchanged(api)
        invariant name in todo ==> outcome == Done && unchanged(api) && unchanged(stagedBindingPolicies[name])
        invariant name in stagedBindingPolicies && name !in todo ==>
          stagedBindingPolicies[name].Value() == x.entry && outcome == x.outcome && Performed(x)
        decreases |todo|
      {
        var sbpName :| sbpName in todo;
        todo := todo - {sbpName};
        if sbpName != name {
          continue;
        }
        outcome := AttemptConditionLocked(sbpName, lister, f);
        if outcome == Panicked {
          break;
        }
      }
    }

    method AttemptConditionLocked(sbpName: string, lister: Lister, f: Faults) returns (outcome: Outcome)
      requires sbpName in stagedBindingPolicies
      modifies stagedBindingPolicies[sbpName], api
      ensures var data := stagedBindingPolicies[sbpName];
              var x := AttemptCondition(evaluator, lister, sbpName, old(data.Value()), old(api.Contents()), f);
              data.Value() == x.entry && outcome == x.outcome && Performed(x)
    {
      var data := stagedBindingPolicies[sbpName];
      outcome := Done;
      if data.activeIndex >= |data.stages| || data.stages[data.activeIndex].condition.None? {
        return;
      }
      var attempt := Attempt(sbpName, data.stages[data.activeIndex], data.activeUid, data.workload);
      var satisfied := CheckCondition(evaluator, lister, attempt);
      if satisfied {
        outcome := StageUpLocked(sbpName, f);
      }
    }

    method StageUpLocked(sbpName: string, f: Faults) returns (outcome: Outcome)
      requires sbpName in stagedBindingPolicies
      modifies stagedBindingPolicies[sbpName], api
      ensures var data := stagedBindingPolicies[sbpName];
              var x := StageUp(sbpName, old(data.Value()), old(api.Contents()), f);
              data.Value() == x.entry && outcome == x.outcome && Performed(x)
    {
      hide EnsureActiveStage;
      var data := stagedBindingPolicies[sbpName];
      if data.activeIndex >= |data.stages| {
        return Done;
      }
      data.activeIndex := data.activeIndex + 1;
      outcome := EnsureActiveStageLocked(sbpName, data, f);
      if outcome == Failed {
        EnsureKeepsIndex(sbpName, old(data.Value()).(activeIndex := old(data.activeIndex) + 1), old(api.Contents()), f);
        data.activeIndex := data.activeIndex - 1;
        outcome := Done;
      }
    }

    /** Bringing up a stage never moves the index. */
    static lemma EnsureKeepsIndex(name: string, e: Entry, s: Server, f: Faults)
      ensures EnsureActiveStage(name, e, s, f).entry.activeIndex == e.activeIndex
    {
    }

    method EnsureActiveStageLocked(sbpName: string, data: SbpData, f: Faults) returns (outcome: Outcome)
      requires sbpName in stagedBindingPolicies && stagedBindingPolicies[sbpName] == data
      modifies data, api
      ensures var x := EnsureActiveStage(sbpName, old(data.Value()), old(api.Contents()), f);
              data.Value() == x.entry && outcome == x.outcome && Performed(x)
    {
      if data.activeIndex > 0 {
        if data.activeIndex > |data.stages| {
          return Panicked;
        }
        var reply := api.DeleteBindingPolicy(BpName(sbpName, data.stages[data.activeIndex - 1].name), f.del);
        if reply == Refused {
          return Failed;
        }
      }
      if data.activeIndex >= |data.stages| {
        return Panicked;
      }
      var stage := data.stages[data.activeIndex];
      var bp := Bp(f.uid, data.uid, data.downsync, stage.clusterSelectors);
      var ok := api.CreateBindingPolicy(BpName(sbpName, stage.name), bp, f.create);
      if !ok {
        return Failed;
      }
      data.activeUid := bp.uid;
      ok := UpdateStatusLocked(sbpName, data.activeIndex, f);
      outcome := if ok then Done else Failed;
    }

    method UpdateStatusLocked(sbpName: string, activeStage: nat, f: Faults) returns (ok: bool)
      requires sbpName in stagedBindingPolicies && activeStage < |stagedBindingPolicies[sbpName].stages|
      modifies api
      ensures var x := UpdateStatus(sbpName, stagedBindingPolicies[sbpName].Value(), activeStage, old(api.Contents()), f);
              ok == (x.outcome == Done) && Performed(x)
    {
      var sbp := api.GetStagedBindingPolicy(sbpName, f.get);
      if sbp.None? {
        return false;
      }
      ok := api.UpdateStatus(sbp.value, stagedBindingPolicies[sbpName].stages[activeStage].name, f.put);
    }

    /** The loop that resolves a status to a stage index: the first stage of that name, or 0. */
    static method ActiveStageIndex(stages: seq<Stage>, status: string) returns (activeStage: nat)
      ensures activeStage == ResolveStage(stages, status)
    {
      activeStage := 0;
      if status != "" {
        for i := 0 to |stages|
          invariant activeStage == 0
          invariant forall j | 0 <= j < i :: stages[j].name != status
        {
          if stages[i].name == status {
            activeStage := i;
            break;
          }
        }
      }
    }
  }

  /** The StagedBindingPolicy a CombinedStatus is attributed to, if any. */
  function StatusOwner(cs: CombinedStatus): Option<string> {
    if LABEL_BINDING_POLICY in cs.labels && cs.labels[LABEL_BINDING_POLICY] != ""
    then OwnerOf(cs.labels[LABEL_BINDING_POLICY])
    else None
  }
}
