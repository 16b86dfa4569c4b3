/** The controller object seen as a world of `Agreement`: its handlers deliver notifications, and
    a worker's round is a sequence of the actions there. So what is invariant in every world is
    invariant for the object. */
module Workers {
  import opened Api
  import opened Rollout
  import opened Runs
  import opened Steps
  import opened Bounds
  import opened Queues
  import opened Controllers
  import opened Agreement
  import WorkloadAgreement

  /** The part of the queue that is about StagedBindingPolicies. */
  function SbpPart(q: Queue): Queue {
    Queue(set i | i in q.dirty && i.SbpRef?, set i | i in q.processing && i.SbpRef?, set i | i in q.delayed && i.SbpRef?)
  }

  /** Queue and resolver of the world are those of the object. */
  predicate Mirrors(w: World, q: Queue, st: State) {
    w.queue == SbpPart(q) && w.res == st
  }

  // ---------------------------------------------------------------- sequences of actions

  ghost predicate AllEnabled(ev: Evaluator, w: World, actions: seq<Action>)
    decreases |actions|
  {
    |actions| > 0 ==> Enabled(ev, w, actions[0]) && AllEnabled(ev, Step(ev, w, actions[0]), actions[1..])
  }

  ghost function Perform(ev: Evaluator, w: World, actions: seq<Action>): World
    requires AllEnabled(ev, w, actions)
    decreases |actions|
  {
    if |actions| == 0 then w else Perform(ev, Step(ev, w, actions[0]), actions[1..])
  }

  lemma {:induction false} PerformSound(ev: Evaluator, w: World, actions: seq<Action>)
    requires Sound(w) && AllEnabled(ev, w, actions)
    requires forall a | a in actions :: !a.CacheUpdate?
    ensures Sound(Perform(ev, w, actions))
    decreases |actions|
  {
    if |actions| > 0 {
      SoundStep(ev, w, actions[0]);
      PerformSound(ev, Step(ev, w, actions[0]), actions[1..]);
    }
  }

  lemma PerformFirst(ev: Evaluator, w: World, a: Action, rest: seq<Action>)
    requires Enabled(ev, w, a) && AllEnabled(ev, Step(ev, w, a), rest)
    ensures AllEnabled(ev, w, [a] + rest) && Perform(ev, w, [a] + rest) == Perform(ev, Step(ev, w, a), rest)
  {
    hide Enabled, Step;
    assert ([a] + rest)[1..] == rest;
  }

  // ---------------------------------------------------------------- handlers

  /** A handler that is through with the oldest notification has delivered it. */
  lemma HandlersDeliver(ev: Evaluator, w: World, q: Queue, st: State)
    requires Mirrors(w, q, st) && |w.inflight| > 0
    ensures Enabled(ev, w, Deliver) && Mirrors(Step(ev, w, Deliver), Handled(q, w.inflight[0]), st)
  {
    var q' := Handled(q, w.inflight[0]);
    assert SbpPart(q').dirty == Handled(w.queue, w.inflight[0]).dirty;
    assert SbpPart(q').processing == w.queue.processing && SbpPart(q').delayed == w.queue.delayed;
  }

  /** The handlers of Bindings and CombinedStatuses leave the world alone. */
  lemma OtherHandlersInvisible(w: World, q: Queue, st: State, i: Item)
    requires Mirrors(w, q, st) && !i.SbpRef?
    ensures Mirrors(w, q.Add(i), st)
  {
    assert SbpPart(q.Add(i)).dirty == SbpPart(q).dirty;
  }

  // ---------------------------------------------------------------- a worker's round

  lemma GetTakes(ev: Evaluator, w: World, q: Queue, st: State, name: string)
    requires Mirrors(w, q, st) && q.CanGet(SbpRef(name))
    ensures Enabled(ev, w, Take(name)) && Mirrors(Step(ev, w, Take(name)), q.Get(SbpRef(name)), st)
  {
    assert SbpPart(q.Get(SbpRef(name))).dirty == w.queue.Get(SbpRef(name)).dirty;
    assert SbpPart(q.Get(SbpRef(name))).processing == w.queue.Get(SbpRef(name)).processing;
  }

  function Lookup(c: Caches, name: string): Option<Sbp> {
    if name in c.sbps then Some(c.sbps[name]) else None
  }

  /** Whatever has happened since the cache was read: reconciling what was read is the action
      Act, on the resolver as it is by then. */
  lemma ReconcilingActs(ev: Evaluator, w: World, st': State, name: string, c: Caches, weather: Weather, outcome: Outcome)
    requires !weather.cacheFails && HasPhase(w, name, Holding(Lookup(c, name)))
    requires name in c.sbps ==> c.sbps[name].name == name
    requires Reconciled(ev, w.res, st', SbpRef(name), c, weather, outcome) && outcome != Panicked
    ensures var a := Act(name, weather.lister, weather.f, weather.f');
      && Enabled(ev, w, a)
      && Step(ev, w, a) == w.(res := st', held := w.held[name := Through(outcome == Failed)])
  {
    hide EnsureActiveStage, AttemptCondition;
    if name in c.sbps {
      NoteStaysAtResolvedStage(ev, weather.lister, c.sbps[name], w.res.server, weather.f, weather.f');
    }
  }

  function EndOf(name: string, failed: bool): seq<Action> {
    if failed then [Requeue(name)] + [Release(name)] else [Release(name)]
  }

  /** The actions of a round after the item was taken. */
  function RoundOf(name: string, weather: Weather, failed: bool): seq<Action> {
    if weather.cacheFails then [ReadFails(name)] + EndOf(name, failed)
    else [Read(name)] + ([Act(name, weather.lister, weather.f, weather.f')] + EndOf(name, failed))
  }

  lemma EndMirrors(ev: Evaluator, w: World, q: Queue, q': Queue, name: string, failed: bool)
    requires w.queue == SbpPart(q) && HasPhase(w, name, Through(failed))
    requires q' == (if failed then q.AddRateLimited(SbpRef(name)) else q).Done(SbpRef(name))
    ensures AllEnabled(ev, w, EndOf(name, failed))
    ensures Perform(ev, w, EndOf(name, failed)) == w.(queue := SbpPart(q'), held := w.held - {name})
  {
    assert SbpPart(q').delayed == (if failed then w.queue.AddRateLimited(SbpRef(name)) else w.queue).delayed;
    assert SbpPart(q').processing == w.queue.Done(SbpRef(name)).processing;
    assert SbpPart(q').dirty == w.queue.dirty;
    if failed {
      var w1 := Step(ev, w, Requeue(name));
      assert w1.held - {name} == w.held - {name};
      PerformFirst(ev, w1, Release(name), []);
      PerformFirst(ev, w, Requeue(name), [Release(name)]);
    } else {
      PerformFirst(ev, w, Release(name), []);
    }
  }

  /** Working off an item SbpRef(name) is Read (or ReadFails), Act, Requeue if it failed, and
      Release; queue and resolver afterwards are those of the world these actions lead to. */
  lemma WorkedOffIsRound(ev: Evaluator, w: World, q: Queue, q': Queue, st': State, name: string,
      c: Caches, weather: Weather, outcome: Outcome)
    requires Mirrors(w, q, w.res) && HasPhase(w, name, Taken) && w.cache == c.sbps
    requires name in c.sbps ==> c.sbps[name].name == name
    requires WorkedOff(ev, q, w.res, q', st', SbpRef(name), c, weather, outcome) && outcome != Panicked
    ensures var round := RoundOf(name, weather, outcome == Failed);
      && AllEnabled(ev, w, round)
      && Perform(ev, w, round) == w.(queue := SbpPart(q'), res := st', held := w.held - {name})
  {
    var end := EndOf(name, outcome == Failed);
    if weather.cacheFails {
      var w1 := Step(ev, w, ReadFails(name));
      EndMirrors(ev, w1, q, q', name, outcome == Failed);
      PerformFirst(ev, w, ReadFails(name), end);
      assert w1.held - {name} == w.held - {name};
    } else {
      var act := Act(name, weather.lister, weather.f, weather.f');
      var w1 := Step(ev, w, Read(name));
      ReconcilingActs(ev, w1, st', name, c, weather, outcome);
      var w2 := Step(ev, w1, act);
      EndMirrors(ev, w2, q, q', name, outcome == Failed);
      PerformFirst(ev, w1, act, end);
      PerformFirst(ev, w, Read(name), [act] + end);
      assert w2.held - {name} == w.held - {name};
    }
  }

  /** Working off any other item is the action Other, or none. */
  lemma OtherWorkedOff(ev: Evaluator, w: World, q: Queue, q': Queue, st': State, item: Item,
      c: Caches, weather: Weather, outcome: Outcome)
    requires Mirrors(w, q, w.res) && !item.SbpRef?
    requires WorkedOff(ev, q.Get(item), w.res, q', st', item, c, weather, outcome) && outcome != Panicked
    ensures var call := CallFor(item, c, weather);
      var actions := if call.Some? then [Other(call.value)] else [];
      && AllEnabled(ev, w, actions)
      && Perform(ev, w, actions) == w.(res := st')
      && Mirrors(w.(res := st'), q', st')
  {
    hide Next, Panics;
    assert SbpPart(q').dirty == w.queue.dirty;
    assert SbpPart(q').processing == w.queue.processing;
    assert SbpPart(q').delayed == w.queue.delayed;
    var call := CallFor(item, c, weather);
    if call.Some? {
      assert [Other(call.value)] == [Other(call.value)] + [];
      PerformFirst(ev, w, Other(call.value), []);
    }
  }

  /** A round of the object, whatever item it takes, keeps its world sound. */
  lemma RoundKeepsSound(ev: Evaluator, w: World, q: Queue, q': Queue, st': State, item: Item,
      c: Caches, weather: Weather, outcome: Outcome)
    requires Sound(w) && Mirrors(w, q, w.res) && w.cache == c.sbps && q.CanGet(item)
    requires WorkedOff(ev, q.Get(item), w.res, q', st', item, c, weather, outcome) && outcome != Panicked
    ensures Sound(w.(queue := SbpPart(q'), res := st'))
  {
    hide Sound, WorkedOff, Step, Enabled;
    if item.SbpRef? {
      var name := item.name;
      SoundBasics(w, name);
      GetTakes(ev, w, q, w.res, name);
      SoundStep(ev, w, Take(name));
      var w1 := Step(ev, w, Take(name));
      TakeChanges(ev, w, name);
      WorkedOffIsRound(ev, w1, q.Get(item), q', st', name, c, weather, outcome);
      PerformSound(ev, w1, RoundOf(name, weather, outcome == Failed));
      assert w1.held - {name} == w.held;
    } else {
      OtherWorkedOff(ev, w, q, q', st', item, c, weather, outcome);
      var call := CallFor(item, c, weather);
      PerformSound(ev, w, if call.Some? then [Other(call.value)] else []);
    }
  }

  lemma SoundBasics(w: World, name: string)
    requires Sound(w)
    ensures name in w.cache ==> w.cache[name].name == name
    ensures name in w.held ==> SbpRef(name) in w.queue.processing
  {
  }

  lemma TakeChanges(ev: Evaluator, w: World, name: string)
    requires Enabled(ev, w, Take(name))
    ensures Step(ev, w, Take(name)) == w.(queue := w.queue.Get(SbpRef(name)), held := w.held[name := Taken])
  {
  }

  /** For Bindings likewise: reconciling the one that was read is the action Act there, and never
      fails. */
  lemma ReconcilingBindingActs(ev: Evaluator, w: WorkloadAgreement.World, st': State, name: string,
      c: Caches, weather: Weather, outcome: Outcome)
    requires !weather.cacheFails
    requires WorkloadAgreement.HasPhase(w, name, Holding(WorkloadAgreement.Lookup(c.bindings, name)))
    requires Reconciled(ev, w.res, st', BindingRef(name), c, weather, outcome) && outcome != Panicked
    ensures outcome == Done
    ensures var a := WorkloadAgreement.Act(name, weather.lister, weather.f);
      && WorkloadAgreement.Enabled(ev, w, a)
      && WorkloadAgreement.Step(ev, w, a) == w.(res := st', held := w.held[name := Through(false)])
  {
    hide Next, Panics;
  }

  // ---------------------------------------------------------------- the life of a controller object

  /** What can happen to a controller next. */
  datatype Turn =
    | Change(a: Action)                                         // the informer changes its cache
    | Notify                                                    // the oldest notification is handled
    | BindingChange(before: Option<Binding>, binding: Binding)
    | StatusChange(older: Option<CombinedStatus>, cs: CombinedStatus)
    | Ripe(item: Item)                                          // a delay is over
    | Work(bindings: map<string, Binding>, statuses: map<(string, string), CombinedStatus>, weather: Weather)

  /** The informer can make this change, and the change shows in the generation. */
  predicate Applies(cache: map<string, Sbp>, a: Action) {
    match a
    case CacheAdd(sbp) => sbp.name !in cache
    case CacheUpdate(sbp) =>
      sbp.name in cache && (cache[sbp.name].generation == sbp.generation ==> ViewOf(cache[sbp.name]) == ViewOf(sbp))
    case CacheDelete(name) => name in cache
    case _ => false
  }

  function ChangedCache(cache: map<string, Sbp>, a: Action): map<string, Sbp>
    requires Applies(cache, a)
  {
    match a
    case CacheAdd(sbp) => cache[sbp.name := sbp]
    case CacheUpdate(sbp) => cache[sbp.name := sbp]
    case CacheDelete(name) => cache - {name}
  }

  function NoticeOf(cache: map<string, Sbp>, a: Action): Notification
    requires Applies(cache, a)
  {
    match a
    case CacheAdd(sbp) => Added(sbp)
    case CacheUpdate(sbp) => Updated(cache[sbp.name], sbp)
    case CacheDelete(name) => Deleted(cache[name])
  }

  /** The world of an object no worker of which is in the middle of a round. */
  function WorldOf(cache: map<string, Sbp>, inflight: seq<Notification>, q: Queue, st: State): World {
    World(cache, inflight, SbpPart(q), map[], st)
  }

  lemma ChangeKeepsSound(ev: Evaluator, w: World, a: Action)
    requires Sound(w) && Applies(w.cache, a)
    ensures Sound(w.(cache := ChangedCache(w.cache, a), inflight := w.inflight + [NoticeOf(w.cache, a)]))
  {
    SoundStep(ev, w, a);
    assert Step(ev, w, a) == w.(cache := ChangedCache(w.cache, a), inflight := w.inflight + [NoticeOf(w.cache, a)]);
  }

  lemma DeliveryKeepsSound(ev: Evaluator, w: World, q: Queue)
    requires Sound(w) && Mirrors(w, q, w.res) && |w.inflight| > 0
    ensures Sound(w.(inflight := w.inflight[1..], queue := SbpPart(Handled(q, w.inflight[0]))))
  {
    HandlersDeliver(ev, w, q, w.res);
    SoundStep(ev, w, Deliver);
    assert Step(ev, w, Deliver) == w.(inflight := w.inflight[1..], queue := SbpPart(Handled(q, w.inflight[0])));
  }

  /** A delay that ends keeps the world sound; one of another item does not show in it. */
  lemma RipeKeepsSound(ev: Evaluator, w: World, q: Queue, i: Item)
    requires Sound(w) && Mirrors(w, q, w.res) && i in q.delayed
    ensures Sound(w.(queue := SbpPart(q.Ripen(i))))
  {
    assert SbpPart(q.Ripen(i)).dirty == if i.SbpRef? then w.queue.Ripen(i).dirty else w.queue.dirty;
    assert SbpPart(q.Ripen(i)).delayed == if i.SbpRef? then w.queue.Ripen(i).delayed else w.queue.delayed;
    assert SbpPart(q.Ripen(i)).processing == w.queue.processing;
    if i.SbpRef? {
      SoundStep(ev, w, Agreement.Ripen(i.name));
    } else {
      assert w.(queue := SbpPart(q.Ripen(i))) == w;
    }
  }

  /** One notification reaches its handler. */
  method HandleNotification(ctl: Controller, m: Notification)
    modifies ctl.queue
    ensures ctl.queue.Value() == Handled(old(ctl.queue.Value()), m)
  {
    match m
    case Added(sbp) => ctl.OnSbpAdd(sbp);
    case Updated(older, newer) => ctl.OnSbpUpdate(older, newer);
    case Deleted(sbp) => ctl.OnSbpDelete(sbp);
  }

  /** A turn that touches the queue and not the resolver keeps the world sound. */
  method TakeTurn(ctl: Controller, turn: Turn, cache: map<string, Sbp>, inflight: seq<Notification>, ghost st: State)
    returns (cache': map<string, Sbp>, inflight': seq<Notification>)
    requires !turn.Work? && Sound(WorldOf(cache, inflight, ctl.queue.Value(), st))
    modifies ctl.queue
    ensures Sound(WorldOf(cache', inflight', ctl.queue.Value(), st))
  {
    hide Sound, SbpPart;
    cache', inflight' := cache, inflight;
    ghost var ev := ctl.resolver.evaluator;
    ghost var w := WorldOf(cache, inflight, ctl.queue.Value(), st);
    match turn
    case Change(a) =>
      if Applies(cache, a) {
        ChangeKeepsSound(ev, w, a);
        cache', inflight' := ChangedCache(cache, a), inflight + [NoticeOf(cache, a)];
      }
    case Notify =>
      if |inflight| > 0 {
        DeliveryKeepsSound(ev, w, ctl.queue.Value());
        HandleNotification(ctl, inflight[0]);
        inflight' := inflight[1..];
      }
    case BindingChange(before, binding) =>
      OtherHandlersInvisible(w, ctl.queue.Value(), st, BindingRef(binding.name));
      ctl.OnBindingChange(before, binding);
    case StatusChange(older, cs) =>
      OtherHandlersInvisible(w, ctl.queue.Value(), st, StatusRef(KeyOf(cs.namespace, cs.name)));
      ctl.OnStatusChange(older, cs);
    case Ripe(item) =>
      if item in ctl.queue.delayed {
        RipeKeepsSound(ev, w, ctl.queue.Value(), item);
        ctl.queue.Ripen(item);
      }
  }

  lemma StartIsSound(st: State)
    requires st.tracked == map[]
    ensures Sound(WorldOf(map[], [], EMPTY_QUEUE, st))
  {
    var w := WorldOf(map[], [], EMPTY_QUEUE, st);
    forall n
      ensures Followed(w, n)
    {
      assert Agrees(w, n);
    }
  }

  method WorkTurn(ctl: Controller, turn: Turn, cache: map<string, Sbp>, inflight: seq<Notification>)
    returns (outcome: Outcome)
    requires turn.Work? && ctl.resolver.Valid()
    requires Sound(WorldOf(cache, inflight, ctl.queue.Value(), ctl.ResolverState()))
    modifies ctl.queue, ctl.resolver, ctl.resolver.Records(), ctl.resolver.api
    ensures ctl.resolver.Valid() && fresh(ctl.resolver.Records() - old(ctl.resolver.Records()))
    ensures outcome != Panicked ==> Sound(WorldOf(cache, inflight, ctl.queue.Value(), ctl.ResolverState()))
  {
    hide Sound, WorkedOff, Reconciled, SbpPart;
    ghost var q, w := ctl.queue.Value(), WorldOf(cache, inflight, ctl.queue.Value(), ctl.ResolverState());
    var c := Caches(cache, turn.bindings, turn.statuses);
    var item;
    item, outcome := ctl.ProcessNextWorkItem(c, turn.weather);
    if item.Some? && outcome != Panicked {
      RoundKeepsSound(ctl.resolver.evaluator, w, q, ctl.queue.Value(), ctl.ResolverState(), item.value, c, turn.weather, outcome);
    }
  }

  /** A whole process: from an empty queue and no memory, any sequence of cache changes, deliveries,
      ended delays and rounds, until a panic. As long as the process lives, once nothing about
      StagedBindingPolicies is in flight, queued, delayed or held, the resolver tracks exactly
      what is cached. */
  method Serve(ctl: Controller, turns: seq<Turn>)
    returns (cache: map<string, Sbp>, inflight: seq<Notification>, outcome: Outcome)
    requires ctl.resolver.Valid() && ctl.resolver.Tracked() == map[] && ctl.queue.Value() == EMPTY_QUEUE
    modifies ctl.queue, ctl.resolver, ctl.resolver.Records(), ctl.resolver.api
    ensures ctl.resolver.Valid()
    ensures outcome != Panicked ==> Sound(WorldOf(cache, inflight, ctl.queue.Value(), ctl.ResolverState()))
    ensures outcome != Panicked && Quiescent(WorldOf(cache, inflight, ctl.queue.Value(), ctl.ResolverState())) ==>
      TracksCache(ctl.ResolverState(), cache)
  {
    hide Sound, WorkedOff, Reconciled, TracksCache, SbpPart;
    cache, inflight, outcome := map[], [], Done;
    StartIsSound(ctl.ResolverState());
    var i := 0;
    while i < |turns| && outcome != Panicked
      invariant 0 <= i <= |turns| && ctl.resolver.Valid()
      invariant fresh(ctl.resolver.Records() - old(ctl.resolver.Records()))
      invariant outcome != Panicked ==> Sound(WorldOf(cache, inflight, ctl.queue.Value(), ctl.ResolverState()))
    {
      if turns[i].Work? {
        outcome := WorkTurn(ctl, turns[i], cache, inflight);
      } else {
        ghost var st := ctl.ResolverState();
        cache, inflight := TakeTurn(ctl, turns[i], cache, inflight, st);
        assert ctl.ResolverState() == st;
      }
      i := i + 1;
    }
    if outcome != Panicked && Quiescent(WorldOf(cache, inflight, ctl.queue.Value(), ctl.ResolverState())) {
      SoundQuiescenceAgrees(WorldOf(cache, inflight, ctl.queue.Value(), ctl.ResolverState()));
    }
  }
}
