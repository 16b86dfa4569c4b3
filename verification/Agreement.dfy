/** The tracked StagedBindingPolicies follow the informer cache: informer events, their delivery,
    and the stages of every worker's round are separate steps that interleave freely, with
    everything else the resolver does in between. */
module Agreement {
  import opened Api
  import opened Gate
  import opened ApiServers
  import opened Rollout
  import opened Runs
  import opened Steps
  import opened Bounds
  import opened Queues

  datatype World = World(
    cache: map<string, Sbp>,
    inflight: seq<Notification>,
    queue: Queue,
    held: map<string, Phase<Sbp>>,
    res: State)

  datatype Action =
    | CacheAdd(sbp: Sbp)
    | CacheUpdate(sbp: Sbp)
    | CacheDelete(name: string)
    | Deliver                                              // the oldest notification reaches its handler
    | Ripen(name: string)                                  // a delay is over
    | Take(name: string)
    | Read(name: string)
    | ReadFails(name: string)
    | Act(name: string, lister: Lister, f: Faults, f': Faults)
    | Requeue(name: string)
    | Release(name: string)
    | Other(core: Core)                                    // Bindings, CombinedStatuses, users
    | Restart(cache: map<string, Sbp>, listed: seq<Sbp>, server: Server)

  /** The resolver call a worker makes for what it has read. */
  function CallOf(name: string, snapshot: Option<Sbp>, a: Action): Core
    requires a.Act?
  {
    match snapshot
    case Some(sbp) => Note(sbp, a.lister, a.f, a.f')
    case None => Forget(name)
  }

  predicate HasPhase(w: World, name: string, p: Phase<Sbp>) {
    name in w.held && w.held[name] == p
  }

  ghost predicate Enabled(ev: Evaluator, w: World, a: Action) {
    match a
    case CacheAdd(sbp) => sbp.name !in w.cache
    case CacheUpdate(sbp) => sbp.name in w.cache
    case CacheDelete(name) => name in w.cache
    case Deliver => |w.inflight| > 0
    case Ripen(name) => SbpRef(name) in w.queue.delayed
    case Take(name) => w.queue.CanGet(SbpRef(name))
    case Read(name) => HasPhase(w, name, Taken)
    case ReadFails(name) => HasPhase(w, name, Taken)
    case Act(name, _, _, _) =>
      name in w.held && w.held[name].Holding? && !Panics(ev, w.res, CallOf(name, w.held[name].snapshot, a))
    case Requeue(name) => HasPhase(w, name, Through(true))
    case Release(name) => HasPhase(w, name, Through(false))
    case Other(core) => !core.Note? && !core.Forget? && !Panics(ev, w.res, core)
    case Restart(cache, listed, _) =>
      forall n | n in cache :: cache[n].name == n && cache[n] in listed
  }

  function Step(ev: Evaluator, w: World, a: Action): World
    requires Enabled(ev, w, a)
  {
    match a
    case CacheAdd(sbp) =>
      w.(cache := w.cache[sbp.name := sbp], inflight := w.inflight + [Added(sbp)])
    case CacheUpdate(sbp) =>
      w.(cache := w.cache[sbp.name := sbp], inflight := w.inflight + [Updated(w.cache[sbp.name], sbp)])
    case CacheDelete(name) =>
      w.(cache := w.cache - {name}, inflight := w.inflight + [Deleted(w.cache[name])])
    case Deliver =>
      w.(inflight := w.inflight[1..], queue := Handled(w.queue, w.inflight[0]))
    case Ripen(name) => w.(queue := w.queue.Ripen(SbpRef(name)))
    case Take(name) => w.(queue := w.queue.Get(SbpRef(name)), held := w.held[name := Taken])
    case Read(name) =>
      w.(held := w.held[name := Holding(if name in w.cache then Some(w.cache[name]) else None)])
    case ReadFails(name) => w.(held := w.held[name := Through(true)])
    case Act(name, _, _, _) =>
      var call := CallOf(name, w.held[name].snapshot, a);
      var x := EffectOf(ev, w.res, call);
      w.(res := Next(ev, w.res, Event(call, Completes)),
         held := w.held[name := Through(x.Some? && x.value.outcome == Failed)])
    case Requeue(name) =>
      w.(queue := w.queue.AddRateLimited(SbpRef(name)), held := w.held[name := Through(false)])
    case Release(name) => w.(queue := w.queue.Done(SbpRef(name)), held := w.held - {name})
    case Other(core) => w.(res := Next(ev, w.res, Event(core, Completes)))
    case Restart(cache, listed, server) =>
      World(cache, seq(|listed|, i requires 0 <= i < |listed| => Added(listed[i])), EMPTY_QUEUE, map[], State(map[], server))
  }

  // ---------------------------------------------------------------- agreement

  /** What the resolver copies from a StagedBindingPolicy. */
  datatype View = View(uid: string, downsync: seq<DownsyncPolicyClause>, stages: seq<Stage>)

  function ViewOf(sbp: Sbp): View { View(sbp.uid, sbp.downsync, sbp.stages) }

  function CacheView(cache: map<string, Sbp>, n: string): Option<View> {
    if n in cache then Some(ViewOf(cache[n])) else None
  }

  function TrackedView(st: State, n: string): Option<View> {
    if n in st.tracked then Some(View(st.tracked[n].uid, st.tracked[n].downsync, st.tracked[n].stages)) else None
  }

  predicate Agrees(w: World, n: string) {
    TrackedView(w.res, n) == CacheView(w.cache, n)
  }

  /** The name will be looked at again: it is dirty, delayed, or about to be queued. */
  predicate Pending(w: World, n: string) {
    || SbpRef(n) in w.queue.dirty || SbpRef(n) in w.queue.delayed
    || exists i | 0 <= i < |w.inflight| :: Enqueues(w.inflight[i]) == Some(n)
  }

  /** A worker has the name and will read it, put it back, or act on what the cache still says. */
  predicate WellHeld(w: World, n: string) {
    n in w.held &&
    match w.held[n]
    case Taken => true
    case Through(failed) => failed
    case Holding(snapshot) => (if snapshot.Some? then Some(ViewOf(snapshot.value)) else None) == CacheView(w.cache, n)
  }

  /** No worker is about to act on the name, and the tracked entry says what the cache says. */
  predicate Settled(w: World, n: string) {
    Agrees(w, n) && (n in w.held ==> w.held[n].Through?)
  }

  predicate Followed(w: World, n: string) {
    Pending(w, n) || WellHeld(w, n) || Settled(w, n)
  }

  ghost predicate Sound(w: World) {
    && InRange(w.res)
    && (forall n | n in w.cache :: w.cache[n].name == n)
    && (forall n | n in w.held :: SbpRef(n) in w.queue.processing && (w.held[n].Holding? && w.held[n].snapshot.Some? ==> w.held[n].snapshot.value.name == n))
    && forall n :: Followed(w, n)
  }

  /** An informer update that does not change the generation changes neither UID nor spec. */
  predicate ChangesShow(w: World, a: Action) {
    a.CacheUpdate? && a.sbp.name in w.cache && w.cache[a.sbp.name].generation == a.sbp.generation ==>
      ViewOf(w.cache[a.sbp.name]) == ViewOf(a.sbp)
  }

  // ---------------------------------------------------------------- one step

  /** Calls about Bindings and statuses, and what others do, change nobody's view. */
  lemma OtherKeepsViews(ev: Evaluator, st: State, core: Core, n: string)
    requires InRange(st) && !core.Note? && !core.Forget? && !Panics(ev, st, core)
    ensures TrackedView(Next(ev, st, Event(core, Completes)), n) == TrackedView(st, n)
  {
    var st' := Next(ev, st, Event(core, Completes));
    if n in st'.tracked {
      EntryAfter(ev, st, Event(core, Completes), n);
    }
    EffectShape(ev, st, core);
  }

  /** A worker's call gives its own name the view of the snapshot, whether or not it reports an
      error, and no other name a new one. */
  lemma ActSetsView(ev: Evaluator, st: State, name: string, snapshot: Option<Sbp>, a: Action, n: string)
    requires InRange(st) && a.Act? && (snapshot.Some? ==> snapshot.value.name == name)
    requires !Panics(ev, st, CallOf(name, snapshot, a))
    ensures TrackedView(Next(ev, st, Event(CallOf(name, snapshot, a), Completes)), n) ==
      if n != name then TrackedView(st, n) else if snapshot.Some? then Some(ViewOf(snapshot.value)) else None
  {
    if snapshot.Some? {
      EffectShape(ev, st, CallOf(name, snapshot, a));
      EnsureEntry(name, FreshEntry(snapshot.value), st.server, a.f);
    }
  }

  lemma PendingKept(w: World, w': World, n: string)
    requires Pending(w, n)
    requires w.queue.dirty <= w'.queue.dirty && w.queue.delayed <= w'.queue.delayed
    requires w.inflight <= w'.inflight
    ensures Pending(w', n)
  {
    if i :| 0 <= i < |w.inflight| && Enqueues(w.inflight[i]) == Some(n) {
      assert w'.inflight[i] == w.inflight[i];
    }
  }

  /** A cache change either announces itself or leaves the view alone. */
  lemma CacheStepFollowed(ev: Evaluator, w: World, a: Action, n: string)
    requires Sound(w) && Enabled(ev, w, a) && ChangesShow(w, a)
    requires a.CacheAdd? || a.CacheUpdate? || a.CacheDelete?
    ensures Followed(Step(ev, w, a), n)
  {
    var w' := Step(ev, w, a);
    var m := w'.inflight[|w.inflight|];
    assert Followed(w, n);
    if Pending(w, n) {
      PendingKept(w, w', n);
    } else if Enqueues(m) == Some(n) {
      assert Pending(w', n);
    } else {
      assert CacheView(w'.cache, n) == CacheView(w.cache, n);
    }
  }

  lemma DeliverFollowed(ev: Evaluator, w: World, n: string)
    requires Sound(w) && Enabled(ev, w, Deliver)
    ensures Followed(Step(ev, w, Deliver), n)
  {
    var w' := Step(ev, w, Deliver);
    assert Followed(w, n);
    if i :| 0 <= i < |w.inflight| && Enqueues(w.inflight[i]) == Some(n) {
      if i > 0 {
        assert w'.inflight[i - 1] == w.inflight[i];
      }
      assert Pending(w', n);
    }
  }

  lemma WorkerStepFollowed(ev: Evaluator, w: World, a: Action, n: string)
    requires Sound(w) && Enabled(ev, w, a)
    requires a.Take? || a.Read? || a.ReadFails? || a.Act? || a.Requeue? || a.Release?
    ensures Followed(Step(ev, w, a), n)
  {
    var w' := Step(ev, w, a);
    assert Followed(w, n);
    if a.Act? {
      ActSetsView(ev, w.res, a.name, w.held[a.name].snapshot, a, n);
    }
    if Pending(w, n) && !(a.Take? && a.name == n) {
      assert w'.inflight == w.inflight;
      assert Pending(w', n);
    }
  }

  lemma RestartFollowed(ev: Evaluator, w: World, a: Action, n: string)
    requires Enabled(ev, w, a) && a.Restart?
    ensures Followed(Step(ev, w, a), n)
  {
    var w' := Step(ev, w, a);
    if n in a.cache {
      var i :| 0 <= i < |a.listed| && a.listed[i] == a.cache[n];
      assert Enqueues(w'.inflight[i]) == Some(n);
    } else {
      assert Agrees(w', n);
    }
  }

  /** Every enabled action keeps every name followed. */
  lemma SoundStep(ev: Evaluator, w: World, a: Action)
    requires Sound(w) && Enabled(ev, w, a) && ChangesShow(w, a)
    ensures Sound(Step(ev, w, a))
  {
    var w' := Step(ev, w, a);
    match a {
      case Act(name, _, _, _) => InRangeStep(ev, w.res, Event(CallOf(name, w.held[name].snapshot, a), Completes));
      case Other(core) => InRangeStep(ev, w.res, Event(core, Completes));
      case _ =>
    }
    forall n
      ensures Followed(w', n)
    {
      match a {
        case CacheAdd(_) => CacheStepFollowed(ev, w, a, n);
        case CacheUpdate(_) => CacheStepFollowed(ev, w, a, n);
        case CacheDelete(_) => CacheStepFollowed(ev, w, a, n);
        case Deliver => DeliverFollowed(ev, w, n);
        case Ripen(_) =>
          assert Followed(w, n);
          if Pending(w, n) { assert w'.inflight == w.inflight; assert Pending(w', n); }
        case Other(core) =>
          assert Followed(w, n);
          OtherKeepsViews(ev, w.res, core, n);
        case Restart(_, _, _) => RestartFollowed(ev, w, a, n);
        case _ => WorkerStepFollowed(ev, w, a, n);
      }
    }
  }

  // ---------------------------------------------------------------- whole runs

  const BOOT := World(map[], [], EMPTY_QUEUE, map[], START)

  datatype History = History(worlds: seq<World>, actions: seq<Action>)

  ghost predicate IsHistory(ev: Evaluator, h: History) {
    && |h.worlds| == |h.actions| + 1
    && h.worlds[0] == BOOT
    && forall t: nat | t < |h.actions| ::
         Enabled(ev, h.worlds[t], h.actions[t]) && h.worlds[t + 1] == Step(ev, h.worlds[t], h.actions[t])
  }

  ghost predicate AllChangesShow(h: History)
    requires |h.worlds| == |h.actions| + 1
  {
    forall t: nat | t < |h.actions| :: ChangesShow(h.worlds[t], h.actions[t])
  }

  /** Nothing is queued, delayed, in flight or being worked on. */
  predicate Quiescent(w: World) {
    w.inflight == [] && w.queue.dirty == {} && w.queue.delayed == {} && w.held == map[]
  }

  /** Queue and cache agree: in every reachable world every name is about to be looked at, or
      held by a worker whose snapshot is what the cache says, or settled with the tracked entry's
      presence, UID, downsync and stages those of the cache. */
  lemma {:induction false} EveryNameFollowed(ev: Evaluator, h: History, t: nat)
    requires IsHistory(ev, h) && AllChangesShow(h) && t < |h.worlds|
    ensures Sound(h.worlds[t])
  {
    if t > 0 {
      EveryNameFollowed(ev, h, t - 1);
      assert Enabled(ev, h.worlds[t - 1], h.actions[t - 1]) && h.worlds[t - 1 + 1] == Step(ev, h.worlds[t - 1], h.actions[t - 1]);
      assert ChangesShow(h.worlds[t - 1], h.actions[t - 1]);
      SoundStep(ev, h.worlds[t - 1], h.actions[t - 1]);
    } else {
      forall n
        ensures Followed(BOOT, n)
      {
        assert Agrees(BOOT, n);
      }
    }
  }

  /** The tracked StagedBindingPolicies are the cached ones, with the same UID, downsync and stages. */
  ghost predicate TracksCache(st: State, cache: map<string, Sbp>) {
    && st.tracked.Keys == cache.Keys
    && forall n | n in cache ::
         var e, o := st.tracked[n], cache[n];
         e.uid == o.uid && e.downsync == o.downsync && e.stages == o.stages
  }

  lemma SoundQuiescenceAgrees(w: World)
    requires Sound(w) && Quiescent(w)
    ensures TracksCache(w.res, w.cache)
  {
    forall n
      ensures Agrees(w, n)
    {
      assert Followed(w, n);
    }
    assert forall n :: n in w.res.tracked <==> n in w.cache by {
      forall n ensures n in w.res.tracked <==> n in w.cache { assert Agrees(w, n); }
    }
    forall n | n in w.cache
      ensures var e, o := w.res.tracked[n], w.cache[n]; e.uid == o.uid && e.downsync == o.downsync && e.stages == o.stages
    {
      assert Agrees(w, n);
    }
  }

  /** At quiescence tracked and cached StagedBindingPolicies agree. */
  lemma QuiescenceAgrees(ev: Evaluator, h: History, t: nat)
    requires IsHistory(ev, h) && AllChangesShow(h) && t < |h.worlds| && Quiescent(h.worlds[t])
    ensures TracksCache(h.worlds[t].res, h.worlds[t].cache)
  {
    EveryNameFollowed(ev, h, t);
    SoundQuiescenceAgrees(h.worlds[t]);
  }

  // ---------------------------------------------------------------- the generation gate

  /** The gate on updates is the one thing that can lose a change. From a quiescent world in
      agreement, an update that is delivered leaves its name unattended and wrong exactly if it
      keeps the generation and changes UID or spec, as when an object is deleted and created
      again between two listings and both incarnations are of generation 1. */
  lemma GateLosesExactly(ev: Evaluator, w: World, sbp: Sbp)
    requires Quiescent(w) && Sound(w) && sbp.name in w.cache
    ensures Enabled(ev, w, CacheUpdate(sbp)) && Enabled(ev, Step(ev, w, CacheUpdate(sbp)), Deliver)
    ensures var w' := Step(ev, Step(ev, w, CacheUpdate(sbp)), Deliver);
      && (Followed(w', sbp.name) <==> ChangesShow(w, CacheUpdate(sbp)))
      && (!Followed(w', sbp.name) ==> Quiescent(w') && !Agrees(w', sbp.name))
  {
    assert Followed(w, sbp.name);
    var w1 := Step(ev, w, CacheUpdate(sbp));
    assert w1.inflight == [Updated(w.cache[sbp.name], sbp)];
  }
}
