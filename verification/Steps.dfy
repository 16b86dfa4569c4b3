/** What single steps do to an entry, and facts that hold in every run. */
module Steps {
  import opened Api
  import opened Names
  import opened Gate
  import opened ApiServers
  import opened Rollout
  import opened Resolvers
  import opened Runs

  lemma EmptyWorkloadBlocks(ev: Evaluator, lister: Lister, name: string, e: Entry)
    requires e.workload == EMPTY_WORKLOAD
    ensures !Passes(ev, lister, name, e)
  {
    if e.activeIndex < |e.stages| {
      assert Targets(ev, AttemptOn(name, e)) == {};
    }
  }

  lemma ActiveEntry(name: string, e: Entry, s: Server, f: Faults)
    ensures var x := CreateActive(name, e, s, f);
      && x.entry == e.(activeUid := x.entry.activeUid)
      && (x.outcome == Done ==> x.entry.activeUid == f.uid)
      && (x.entry.activeUid != e.activeUid ==>
            e.activeIndex < |e.stages| && x.entry.activeUid == f.uid && x.calls != []
            && f.uid in x.Final(s).minted && x.Final(s).minted[f.uid] == BpName(name, e.stages[e.activeIndex].name))
  {
  }

  /** Bringing up a stage changes no field of the entry but the active UID, and that one only
      to the UID the new BindingPolicy of that stage got. */
  lemma EnsureEntry(name: string, e: Entry, s: Server, f: Faults)
    ensures var x := EnsureActiveStage(name, e, s, f);
      && x.entry == e.(activeUid := x.entry.activeUid)
      && (x.outcome == Done ==> x.entry.activeUid == f.uid)
      && (x.entry.activeUid != e.activeUid ==>
            e.activeIndex < |e.stages| && x.entry.activeUid == f.uid
            && f.uid in x.Final(s).minted && x.Final(s).minted[f.uid] == BpName(name, e.stages[e.activeIndex].name))
  {
    hide CreateActive, BpName;
    if e.activeIndex == 0 {
      ActiveEntry(name, e, s, f);
    } else if e.activeIndex <= |e.stages| {
      ActiveEntry(name, e, DeleteBp(s, BpName(name, e.stages[e.activeIndex - 1].name), f.del).0, f);
    }
  }

  /** Noting a StagedBindingPolicy does try the condition, but a new entry has no workload, so
      it only ever brings up the stage its status resolves to. */
  lemma NoteStaysAtResolvedStage(ev: Evaluator, lister: Lister, sbp: Sbp, s: Server, f: Faults, f': Faults)
    ensures NoteSbp(ev, lister, sbp, s, f, f') == EnsureActiveStage(sbp.name, FreshEntry(sbp), s, f)
    ensures NoteSbp(ev, lister, sbp, s, f, f').entry.activeIndex == ResolveStage(sbp.stages, sbp.activeStage)
  {
    var x := EnsureActiveStage(sbp.name, FreshEntry(sbp), s, f);
    EnsureEntry(sbp.name, FreshEntry(sbp), s, f);
    EmptyWorkloadBlocks(ev, lister, sbp.name, x.entry);
    assert x.calls + [] == x.calls;
  }

  /** An attempt leaves the entry at its stage or, with its condition satisfied, one stage on. */
  lemma AttemptEntry(ev: Evaluator, lister: Lister, name: string, e: Entry, s: Server, f: Faults)
    requires e.activeIndex < |e.stages|
    ensures var x := AttemptCondition(ev, lister, name, e, s, f);
      && x.outcome != Failed
      && (!Passes(ev, lister, name, e) ==> x == Quiet(e))
      && x.entry == e.(activeIndex := x.entry.activeIndex, activeUid := x.entry.activeUid)
      && e.activeIndex <= x.entry.activeIndex <= e.activeIndex + 1
      && (x.outcome == Panicked ==> e.activeIndex + 1 == |e.stages|)
      && (x.outcome == Done ==> x.entry.activeIndex < |e.stages|)
  {
    EnsureEntry(name, e.(activeIndex := e.activeIndex + 1), s, f);
  }

  // ---------------------------------------------------------------- changes between two calls

  /** Reading a StagedBindingPolicy at one time and writing its status at a later one, when the
      server has changed: as if both were done at the later time, unless the object itself has
      changed or gone; then the write is refused, whatever its fate, and nothing is overwritten. */
  lemma StatusWriteApart(name: string, e: Entry, activeStage: nat, s: Server, later: Server, f: Faults)
    requires activeStage < |e.stages| && f.get.Clean? && name in s.sbps && s.sbps[name].name == name
    ensures var (s', ok) := PutStatus(later, s.sbps[name], e.stages[activeStage].name, f.put);
      if name in later.sbps && later.sbps[name] == s.sbps[name] then
        var x := UpdateStatus(name, e, activeStage, later, f);
        s' == x.Final(later) && (ok <==> x.outcome == Done)
      else s' == later && !ok
  {
  }

  // ---------------------------------------------------------------- every run

  ghost predicate InRange(st: State) {
    forall n | n in st.tracked :: st.tracked[n].activeIndex < |st.tracked[n].stages|
  }

  lemma InRangeStep(ev: Evaluator, st: State, e: Event)
    requires InRange(st)
    ensures InRange(Next(ev, st, e))
  {
    hide GatePasses;
    match e.core
    case Note(sbp, lister, f, f') =>
      NoteStaysAtResolvedStage(ev, lister, sbp, st.server, f, f');
      EnsureEntry(sbp.name, FreshEntry(sbp), st.server, f);
    case Bind(b, lister, f) =>
      var n := OwnerOf(b.name);
      if n.Some? && n.value in st.tracked {
        AttemptEntry(ev, lister, n.value, st.tracked[n.value].(workload := b.workload), st.server, f);
      }
    case Report(cs, lister, f) =>
      var n := StatusOwner(cs);
      if n.Some? && n.value in st.tracked {
        AttemptEntry(ev, lister, n.value, st.tracked[n.value], st.server, f);
      }
    case _ =>
  }

  /** In every reachable state every active index is in range. */
  lemma {:induction false} IndexInRange(ev: Evaluator, r: Run, t: nat)
    requires IsRun(ev, r) && t < |r.states|
    ensures InRange(r.states[t])
  {
    if t > 0 {
      IndexInRange(ev, r, t - 1);
      InRangeStep(ev, r.states[t - 1], r.events[t - 1]);
    }
  }

  /** Objects are stored under their names, and only their status has changed since they were
      created under their UID. */
  ghost predicate Filed(s: Server) {
    && (forall n | n in s.sbps ::
         var o := s.sbps[n];
         o.name == n && o.uid in s.issued && s.issued[o.uid] == o.(activeStage := ""))
    && forall u | u in s.issued :: s.issued[u].uid == u
  }

  // ---------------------------------------------------------------- API-call boundaries

  /** How far bringing up a stage has come on the server. */
  datatype Progress = Untouched | PreviousGone | Created | Published

  function Kept(name: string, e: Entry, s: Server): map<string, Bp> {
    if 0 < e.activeIndex <= |e.stages| then s.bps - {BpName(name, e.stages[e.activeIndex - 1].name)} else s.bps
  }

  predicate Possible(name: string, e: Entry, s: Server, p: Progress) {
    && (p.Created? || p.Published? ==>
          e.activeIndex < |e.stages| && BpName(name, e.stages[e.activeIndex].name) !in Kept(name, e, s))
    && (p.Published? ==> name in s.sbps)
  }

  function WithActive(name: string, e: Entry, s: Server, uid: string): Server
    requires e.activeIndex < |e.stages|
  {
    var stage := e.stages[e.activeIndex];
    var bpName := BpName(name, stage.name);
    var bp := Bp(uid, e.uid, e.downsync, stage.clusterSelectors);
    s.(bps := Kept(name, e, s)[bpName := bp], minted := s.minted[uid := bpName])
  }

  function WithStatus(name: string, e: Entry, s: Server): Server
    requires e.activeIndex < |e.stages| && name in s.sbps
  {
    s.(sbps := s.sbps[name := s.sbps[name].(activeStage := e.stages[e.activeIndex].name)])
  }

  /** The server contents after that much progress. */
  function At(name: string, e: Entry, s: Server, uid: string, p: Progress): Server
    requires Possible(name, e, s, p)
  {
    match p
    case Untouched => s
    case PreviousGone => s.(bps := Kept(name, e, s))
    case Created => WithActive(name, e, s, uid)
    case Published => WithStatus(name, e, WithActive(name, e, s, uid))
  }

  lemma StatusBoundary(name: string, e: Entry, s: Server, f: Faults, k: nat) returns (published: bool)
    requires Filed(s) && e.activeIndex < |e.stages|
    ensures var x := UpdateStatus(name, e, e.activeIndex, s, f);
      && (published ==> name in s.sbps)
      && x.Boundary(s, k) == (if published then WithStatus(name, e, s) else s)
      && (x.outcome == Done && k >= |x.calls| ==> published)
      && (published && x.outcome == Failed ==> f.put.Lost?)
      && (!published && x.outcome == Failed && k >= |x.calls| ==> !f.get.Clean? || name !in s.sbps || f.put.Reject?)
      && x.outcome != Panicked
  {
    published := k >= 2 && GetSbp(s, name, f.get).Some? && f.put != Reject;
  }

  lemma CreateBoundary(name: string, e: Entry, s: Server, kept: Server, f: Faults, k: nat) returns (p: Progress)
    requires Filed(s) && kept == s.(bps := Kept(name, e, s)) && e.activeIndex < |e.stages|
    ensures Possible(name, e, s, p)
    ensures var y := CreateActive(name, e, kept, f);
      && y.Boundary(kept, k) == At(name, e, s, f.uid, p)
      && (y.outcome == Done && k >= |y.calls| ==> p.Published?)
      && (p.Published? && y.outcome == Failed ==> f.put.Lost?)
      && (p.Created? && y.outcome == Failed && k >= |y.calls| ==> f.create.Lost? || !f.get.Clean? || name !in s.sbps || f.put.Reject?)
  {
    var stage := e.stages[e.activeIndex];
    var bp := Bp(f.uid, e.uid, e.downsync, stage.clusterSelectors);
    var (s', ok) := CreateBp(kept, BpName(name, stage.name), bp, f.create);
    if k == 0 || s' == kept {
      return PreviousGone;
    }
    if !ok {
      return Created;
    }
    var e' := e.(activeUid := f.uid);
    var published := StatusBoundary(name, e', s', f, k - 1);
    assert CreateActive(name, e, kept, f).Boundary(kept, k) == UpdateStatus(name, e', e.activeIndex, s', f).Boundary(s', k - 1);
    p := if published then Published else Created;
  }

  /** Boundaries of a step with one more call in front. */
  lemma BoundaryAfterCall(x: Effect, s: Server, s': Server, k: nat)
    requires k > 0
    ensures x.(calls := [s'] + x.calls).Boundary(s, k) == x.Boundary(s', k - 1)
  {
  }

  lemma NothingToCreate(name: string, e: Entry, s: Server, f: Faults)
    requires e.activeIndex >= |e.stages|
    ensures CreateActive(name, e, s, f) == Effect(e, [], Panicked)
  {
  }

  /** Every API-call boundary is one of four server contents; an operation that completes has
      published the stage, and one that fails has not, unless the answer was lost. */
  lemma EnsureBoundary(name: string, e: Entry, s: Server, f: Faults, k: nat) returns (p: Progress)
    requires Filed(s)
    ensures Possible(name, e, s, p)
    ensures var x := EnsureActiveStage(name, e, s, f);
      && x.Boundary(s, k) == At(name, e, s, f.uid, p)
      && (x.outcome == Done && k >= |x.calls| ==> p.Published?)
      && (p.Published? && x.outcome == Failed ==> f.put.Lost?)
      && (p.Created? && x.outcome == Failed && k >= |x.calls| ==> f.create.Lost? || !f.get.Clean? || name !in s.sbps || f.put.Reject?)
  {
    hide CreateActive, BpName, Filed;
    if (k == 0 && e.activeIndex > 0) || e.activeIndex > |e.stages| {
      return Untouched;
    }
    if e.activeIndex == 0 {
      assert s == s.(bps := Kept(name, e, s));
      if |e.stages| == 0 {
        NothingToCreate(name, e, s, f);
        return Untouched;
      }
      p := CreateBoundary(name, e, s, s, f, k);
      return;
    }
    var (s', reply) := DeleteBp(s, BpName(name, e.stages[e.activeIndex - 1].name), f.del);
    assert s' == s || s' == s.(bps := Kept(name, e, s));
    var y := if reply == Refused then Effect(e, [], Failed) else CreateActive(name, e, s', f);
    BoundaryAfterCall(y, s, s', k);
    if reply == Refused || e.activeIndex == |e.stages| {
      if e.activeIndex == |e.stages| {
        NothingToCreate(name, e, s', f);
      }
      p := if s' == s then Untouched else PreviousGone;
    } else {
      assert s'.bps == Kept(name, e, s);
      p := CreateBoundary(name, e, s, s', f, k - 1);
    }
  }

  // ---------------------------------------------------------------- events

  /** The lister an attempt of this event uses, and the faults its calls meet. */
  function ListerOf(core: Core): Lister {
    match core
    case Note(_, lister, _, _) => lister
    case Bind(_, lister, _) => lister
    case Report(_, lister, _) => lister
    case _ => _ => None
  }

  function FaultsOf(core: Core): Faults {
    match core
    case Note(_, _, f, _) => f
    case Bind(_, _, f) => f
    case Report(_, _, f) => f
    case _ => Faults(Clean, Clean, "", Clean, Clean)
  }

  /** The entry whose condition a Binding or CombinedStatus event tries, workload updated. */
  function Tried(st: State, core: Core): Option<Entry> {
    var n := Target(core);
    match core
    case Bind(b, _, _) =>
      if n.Some? && n.value in st.tracked && st.tracked[n.value].activeUid == FirstOwner(b)
      then Some(st.tracked[n.value].(workload := b.workload)) else None
    case Report(_, _, _) =>
      if n.Some? && n.value in st.tracked then Some(st.tracked[n.value]) else None
    case _ => None
  }

  /** The entry with which an event sets out to bring up a stage, if it does. */
  function Bringing(ev: Evaluator, st: State, core: Core): Option<Entry> {
    if core.Note? then Some(FreshEntry(core.sbp))
    else
      var e := Tried(st, core);
      if e.Some? && Passes(ev, ListerOf(core), Target(core).value, e.value)
      then Some(e.value.(activeIndex := e.value.activeIndex + 1)) else None
  }

  /** Server contents at the k-th API-call boundary of an event. */
  function ServerAt(ev: Evaluator, st: State, core: Core, k: nat): Server {
    match EffectOf(ev, st, core)
    case Some(x) => x.Boundary(st.server, k)
    case None => Environment(st.server, core)
  }

  lemma AttemptCalls(ev: Evaluator, lister: Lister, name: string, e: Entry, s: Server, f: Faults, k: nat)
    ensures var x := AttemptCondition(ev, lister, name, e, s, f);
      if Passes(ev, lister, name, e) then
        var y := EnsureActiveStage(name, e.(activeIndex := e.activeIndex + 1), s, f);
        x.calls == y.calls && x.Boundary(s, k) == y.Boundary(s, k) && (x.outcome == Panicked <==> y.outcome == Panicked)
      else x.calls == [] && x.Boundary(s, k) == s
  {
    hide EnsureActiveStage, GatePasses;
  }

  lemma EffectShape(ev: Evaluator, st: State, core: Core)
    ensures var x := EffectOf(ev, st, core);
      if core.Note? then
        x == Some(EnsureActiveStage(core.sbp.name, FreshEntry(core.sbp), st.server, core.f))
      else if Tried(st, core).Some? then
        x == Some(AttemptCondition(ev, ListerOf(core), Target(core).value, Tried(st, core).value, st.server, FaultsOf(core)))
      else x.None? || (Target(core).Some? && Target(core).value in st.tracked && x == Some(Quiet(st.tracked[Target(core).value])))
  {
    hide EnsureActiveStage, AttemptCondition, GatePasses;
    if core.Note? {
      NoteStaysAtResolvedStage(ev, core.lister, core.sbp, st.server, core.f, core.f');
    }
  }

  /** The calls an event makes are those of bringing up that one stage. */
  lemma ServerSteps(ev: Evaluator, st: State, core: Core, k: nat)
    ensures Bringing(ev, st, core).None? ==> ServerAt(ev, st, core, k) == Environment(st.server, core)
    ensures Bringing(ev, st, core).Some? ==>
      && Target(core).Some? && EffectOf(ev, st, core).Some?
      && var x := EnsureActiveStage(Target(core).value, Bringing(ev, st, core).value, st.server, FaultsOf(core));
      && ServerAt(ev, st, core, k) == x.Boundary(st.server, k)
      && EffectOf(ev, st, core).value.calls == x.calls
      && (EffectOf(ev, st, core).value.outcome == Panicked <==> x.outcome == Panicked)
  {
    hide EnsureActiveStage, AttemptCondition, GatePasses;
    EffectShape(ev, st, core);
    if !core.Note? && Tried(st, core).Some? {
      AttemptCalls(ev, ListerOf(core), Target(core).value, Tried(st, core).value, st.server, FaultsOf(core), k);
    }
  }

  /** Every successor state has the server contents of a boundary. */
  lemma NextServer(ev: Evaluator, st: State, e: Event)
    ensures exists k :: Next(ev, st, e).server == ServerAt(ev, st, e.core, k)
  {
    match EffectOf(ev, st, e.core)
    case Some(x) =>
      var k := if e.fate.DiesAfter? then e.fate.calls else |x.calls|;
      assert x.Boundary(st.server, |x.calls|) == x.Final(st.server);
      assert Next(ev, st, e).server == ServerAt(ev, st, e.core, k);
    case None =>
      assert Next(ev, st, e).server == ServerAt(ev, st, e.core, 0);
  }

  lemma FiledStep(ev: Evaluator, st: State, core: Core, k: nat)
    requires Filed(st.server)
    ensures Filed(ServerAt(ev, st, core, k))
    ensures forall u | u in st.server.issued ::
      u in ServerAt(ev, st, core, k).issued && ServerAt(ev, st, core, k).issued[u] == st.server.issued[u]
  {
    hide EnsureActiveStage, EffectOf, Bringing;
    ServerSteps(ev, st, core, k);
    if Bringing(ev, st, core).Some? {
      var p := EnsureBoundary(Target(core).value, Bringing(ev, st, core).value, st.server, FaultsOf(core), k);
    }
  }

  lemma {:induction false} FiledRun(ev: Evaluator, r: Run, t: nat)
    requires IsRun(ev, r) && t < |r.states|
    ensures Filed(r.states[t].server)
  {
    if t > 0 {
      FiledRun(ev, r, t - 1);
      var st, e := r.states[t - 1], r.events[t - 1];
      NextServer(ev, st, e);
      var k :| Next(ev, st, e).server == ServerAt(ev, st, e.core, k);
      FiledStep(ev, st, e.core, k);
    }
  }

  /** What an event does to the entry of name n: it starts a session, updates a tried entry,
      or leaves the entry alone; a death, a panic or a Forget ends the session. */
  lemma EntryAfter(ev: Evaluator, st: State, e: Event, n: string)
    requires InRange(st)
    requires n in Next(ev, st, e).tracked
    ensures var e' := Next(ev, st, e).tracked[n];
      if e.core.Note? && Target(e.core) == Some(n) then
        && e' == FreshEntry(e.core.sbp).(activeUid := e'.activeUid)
        && EnsureActiveStage(n, FreshEntry(e.core.sbp), st.server, FaultsOf(e.core)).entry == e'
      else if Target(e.core) == Some(n) && Tried(st, e.core).Some? then
        var e0 := Tried(st, e.core).value;
        n in st.tracked
        && e' == e0.(activeIndex := e'.activeIndex, activeUid := e'.activeUid)
        && e' == AttemptCondition(ev, ListerOf(e.core), n, e0, st.server, FaultsOf(e.core)).entry
        && e0.activeIndex <= e'.activeIndex <= e0.activeIndex + 1
        && (e'.activeIndex == e0.activeIndex + 1 ==> Passes(ev, ListerOf(e.core), n, e0))
      else n in st.tracked && e' == st.tracked[n]
  {
    if e.core.Note? {
      var sbp := e.core.sbp;
      NoteStaysAtResolvedStage(ev, e.core.lister, sbp, st.server, e.core.f, e.core.f');
      EnsureEntry(sbp.name, FreshEntry(sbp), st.server, e.core.f);
    } else if Tried(st, e.core).Some? {
      AttemptEntry(ev, ListerOf(e.core), Target(e.core).value, Tried(st, e.core).value, st.server, FaultsOf(e.core));
    }
  }
}
