/** The staging steps as functions of one tracked entry and the server. */
module Rollout {
  import opened Api
  import opened Names
  import opened Gate
  import opened ApiServers

  /** What the resolver remembers about one StagedBindingPolicy. */
  datatype Entry = Entry(
    uid: string,
    downsync: seq<DownsyncPolicyClause>,
    stages: seq<Stage>,
    activeIndex: nat,
    activeUid: string,
    workload: Workload)

  /** The fate of the calls that one "ensure the active stage" makes, and the UID a created
      BindingPolicy would get. */
  datatype Faults = Faults(del: Fault, create: Fault, uid: string, get: Fault, put: Fault)

  /** Panicked stands for the out-of-range index expression that kills the process. */
  datatype Outcome = Done | Failed | Panicked

  /** The entry afterwards and the server contents after each API call, in call order. */
  datatype Effect = Effect(entry: Entry, calls: seq<Server>, outcome: Outcome)
  {
    /** Server contents at the k-th API-call boundary of a step that starts on s. */
    function Boundary(s: Server, k: nat): Server {
      if k == 0 then s else if k <= |calls| then calls[k - 1] else Final(s)
    }

    function Final(s: Server): Server {
      if |calls| == 0 then s else calls[|calls| - 1]
    }

    /** This step followed by y. */
    function Then(y: Effect): Effect {
      y.(calls := calls + y.calls)
    }
  }

  /** Two steps in a row: the log of calls they leave and the server they end on. */
  lemma ThenComposes(x: Effect, y: Effect, log: seq<Server>, s: Server)
    ensures x.Then(y).Final(s) == y.Final(x.Final(s))
    ensures log + x.Then(y).calls == (log + x.calls) + y.calls
  {
  }

  function Quiet(e: Entry): Effect {
    Effect(e, [], Done)
  }

  /** Read the StagedBindingPolicy, then write its status. */
  function UpdateStatus(name: string, e: Entry, activeStage: nat, s: Server, f: Faults): Effect
    requires activeStage < |e.stages|
  {
    match GetSbp(s, name, f.get)
    case None => Effect(e, [s], Failed)
    case Some(sbp) =>
      var (s', ok) := PutStatus(s, sbp, e.stages[activeStage].name, f.put);
      Effect(e, [s, s'], if ok then Done else Failed)
  }

  /** Create the BindingPolicy of the active stage and publish the stage in the status. */
  function CreateActive(name: string, e: Entry, s: Server, f: Faults): Effect {
    if e.activeIndex >= |e.stages| then Effect(e, [], Panicked)
    else
      var stage := e.stages[e.activeIndex];
      var bp := Bp(f.uid, e.uid, e.downsync, stage.clusterSelectors);
      var (s', ok) := CreateBp(s, BpName(name, stage.name), bp, f.create);
      if !ok then Effect(e, [s'], Failed)
      else
        var x := UpdateStatus(name, e.(activeUid := f.uid), e.activeIndex, s', f);
        x.(calls := [s'] + x.calls)
  }

  /** Delete the BindingPolicy of the previous stage, then bring up the active one. */
  function EnsureActiveStage(name: string, e: Entry, s: Server, f: Faults): Effect {
    if e.activeIndex == 0 then CreateActive(name, e, s, f)
    else if e.activeIndex > |e.stages| then Effect(e, [], Panicked)
    else
      var (s', reply) := DeleteBp(s, BpName(name, e.stages[e.activeIndex - 1].name), f.del);
      if reply == Refused then Effect(e, [s'], Failed)
      else
        var x := CreateActive(name, e, s', f);
        x.(calls := [s'] + x.calls)
  }

  /** Move on by one stage; a failure to bring it up takes the index back, and only the index. */
  function StageUp(name: string, e: Entry, s: Server, f: Faults): Effect {
    if e.activeIndex >= |e.stages| then Quiet(e)
    else
      var x := EnsureActiveStage(name, e.(activeIndex := e.activeIndex + 1), s, f);
      if x.outcome == Failed then x.(entry := x.entry.(activeIndex := e.activeIndex), outcome := Done)
      else x
  }

  function AttemptOn(name: string, e: Entry): Attempt
    requires e.activeIndex < |e.stages|
  {
    Attempt(name, e.stages[e.activeIndex], e.activeUid, e.workload)
  }

  predicate Passes(ev: Evaluator, lister: Lister, name: string, e: Entry) {
    e.activeIndex < |e.stages| && GatePasses(ev, lister, AttemptOn(name, e))
  }

  function AttemptCondition(ev: Evaluator, lister: Lister, name: string, e: Entry, s: Server, f: Faults): Effect {
    if Passes(ev, lister, name, e) then StageUp(name, e, s, f) else Quiet(e)
  }

  /** The index of the first stage of that name; 0 for an empty or unknown name. */
  function ResolveStage(stages: seq<Stage>, activeStage: string): (i: nat)
    ensures
      || (&& i < |stages| && activeStage != "" && stages[i].name == activeStage
          && forall j | 0 <= j < i :: stages[j].name != activeStage)
      || (i == 0 && (activeStage == "" || forall j | 0 <= j < |stages| :: stages[j].name != activeStage))
  {
    if activeStage != "" && exists i | 0 <= i < |stages| :: stages[i].name == activeStage
    then FirstNamed(stages, activeStage)
    else 0
  }

  function FirstNamed(stages: seq<Stage>, name: string): (i: nat)
    requires exists i | 0 <= i < |stages| :: stages[i].name == name
    ensures i < |stages| && stages[i].name == name
    ensures forall j | 0 <= j < i :: stages[j].name != name
  {
    if stages[0].name == name then 0
    else
      assert exists i | 0 <= i < |stages[1..]| :: stages[1..][i].name == name by {
        var i :| 0 <= i < |stages| && stages[i].name == name;
        assert stages[1..][i - 1].name == name;
      }
      var rest := FirstNamed(stages[1..], name);
      assert forall j | 0 < j < 1 + rest :: stages[j] == stages[1..][j - 1];
      1 + rest
  }

  /** The entry a StagedBindingPolicy starts a tracking session with. */
  function FreshEntry(sbp: Sbp): Entry {
    Entry(sbp.uid, sbp.downsync, sbp.stages, ResolveStage(sbp.stages, sbp.activeStage), "", EMPTY_WORKLOAD)
  }

  /** Bring up the active stage of a new entry, then try its condition. */
  function Begin(ev: Evaluator, lister: Lister, name: string, e: Entry, s: Server, f: Faults, f': Faults): Effect {
    var x := EnsureActiveStage(name, e, s, f);
    if x.outcome != Done then x else x.Then(AttemptCondition(ev, lister, name, x.entry, x.Final(s), f'))
  }

  function NoteSbp(ev: Evaluator, lister: Lister, sbp: Sbp, s: Server, f: Faults, f': Faults): Effect {
    Begin(ev, lister, sbp.name, FreshEntry(sbp), s, f, f')
  }

  function FirstOwner(b: Binding): string {
    if |b.owners| > 0 then b.owners[0] else ""
  }

  /** A Binding that is not owned by the active BindingPolicy is ignored. */
  function NoteBinding(ev: Evaluator, lister: Lister, name: string, b: Binding, e: Entry, s: Server, f: Faults): Effect {
    if e.activeUid != FirstOwner(b) then Quiet(e)
    else AttemptCondition(ev, lister, name, e.(workload := b.workload), s, f)
  }
}
