/** The stored workloads follow the Binding cache: informer events about Bindings, their delivery,
    and the stages of every worker's round interleave freely with everything else the resolver
    does, the notes that start and end tracking sessions included. */
module WorkloadAgreement {
  import opened Api
  import opened Names
  import opened Gate
  import opened ApiServers
  import opened Rollout
  import opened Runs
  import opened Steps
  import opened Bounds
  import opened Queues
  import opened Uids

  datatype World = World(
    cache: map<string, Binding>,
    inflight: seq<BindingNotice>,
    queue: Queue,
    held: map<string, Phase<Binding>>,
    res: State)

  datatype Action =
    | CachePut(binding: Binding)                           // added or updated
    | CacheDelete(name: string)
    | Deliver                                              // the oldest notification reaches its handler
    | Ripen(name: string)                                  // a delay is over
    | Take(name: string)
    | Read(name: string)
    | ReadFails(name: string)
    | Act(name: string, lister: Lister, f: Faults)
    | Requeue(name: string)
    | Release(name: string)
    | Other(core: Core)                                    // notes, CombinedStatuses, users
    | Restart(cache: map<string, Binding>, listed: seq<Binding>, server: Server)

  predicate HasPhase(w: World, name: string, p: Phase<Binding>) {
    name in w.held && w.held[name] == p
  }

  ghost predicate Enabled(ev: Evaluator, w: World, a: Action) {
    match a
    case CachePut(_) => true
    case CacheDelete(name) => name in w.cache
    case Deliver => |w.inflight| > 0
    case Ripen(name) => BindingRef(name) in w.queue.delayed
    case Take(name) => w.queue.CanGet(BindingRef(name))
    case Read(name) => HasPhase(w, name, Taken)
    case ReadFails(name) => HasPhase(w, name, Taken)
    case Act(name, lister, f) =>
      && name in w.held && w.held[name].Holding?
      && (w.held[name].snapshot.Some? ==> !Panics(ev, w.res, Bind(w.held[name].snapshot.value, lister, f)))
    case Requeue(name) => HasPhase(w, name, Through(true))
    case Release(name) => HasPhase(w, name, Through(false))
    case Other(core) => !core.Bind? && !Panics(ev, w.res, core)
    case Restart(cache, listed, _) => forall k | k in cache :: cache[k].name == k && cache[k] in listed
  }

  function Lookup(cache: map<string, Binding>, name: string): Option<Binding> {
    if name in cache then Some(cache[name]) else None
  }

  function Step(ev: Evaluator, w: World, a: Action): World
    requires Enabled(ev, w, a)
  {
    match a
    case CachePut(b) =>
      w.(cache := w.cache[b.name := b], inflight := w.inflight + [BindingNotice(Lookup(w.cache, b.name), b)])
    case CacheDelete(name) =>
      w.(cache := w.cache - {name}, inflight := w.inflight + [BindingNotice(None, w.cache[name])])
    case Deliver =>
      w.(inflight := w.inflight[1..], queue := BindingHandled(w.queue, w.inflight[0]))
    case Ripen(name) => w.(queue := w.queue.Ripen(BindingRef(name)))
    case Take(name) => w.(queue := w.queue.Get(BindingRef(name)), held := w.held[name := Taken])
    case Read(name) => w.(held := w.held[name := Holding(Lookup(w.cache, name))])
    case ReadFails(name) => w.(held := w.held[name := Through(true)])
    case Act(name, lister, f) =>
      w.(held := w.held[name := Through(false)],
         res := if w.held[name].snapshot.Some?
                then Next(ev, w.res, Event(Bind(w.held[name].snapshot.value, lister, f), Completes)) else w.res)
    case Requeue(name) =>
      w.(queue := w.queue.AddRateLimited(BindingRef(name)), held := w.held[name := Through(false)])
    case Release(name) => w.(queue := w.queue.Done(BindingRef(name)), held := w.held - {name})
    case Other(core) => w.(res := Next(ev, w.res, Event(core, Completes)))
    case Restart(cache, listed, server) =>
      World(cache, seq(|listed|, i requires 0 <= i < |listed| => BindingNotice(None, listed[i])), EMPTY_QUEUE, map[],
            State(map[], server))
  }

  /** The resolver call of an action, if it makes one. */
  function CallOf(w: World, a: Action): Option<Core> {
    match a
    case Act(name, lister, f) =>
      if name in w.held && w.held[name].Holding? && w.held[name].snapshot.Some?
      then Some(Bind(w.held[name].snapshot.value, lister, f)) else None
    case Other(core) => Some(core)
    case _ => None
  }

  // ---------------------------------------------------------------- agreement

  /** What the resolver looks at in a Binding. */
  predicate SameView(b: Binding, b': Binding) {
    b.name == b'.name && FirstOwner(b) == FirstOwner(b') && b.workload == b'.workload
  }

  /** If the entry the Binding is attributed to has its BindingPolicy active, its workload is stored. */
  predicate Stored(st: State, b: Binding) {
    var n := OwnerOf(b.name);
    n.Some? && n.value in st.tracked && st.tracked[n.value].activeUid == FirstOwner(b) ==>
      st.tracked[n.value].workload == b.workload
  }

  predicate Pending(w: World, k: string) {
    || BindingRef(k) in w.queue.dirty || BindingRef(k) in w.queue.delayed
    || exists i | 0 <= i < |w.inflight| :: BindingEnqueues(w.inflight[i]) == Some(k)
  }

  /** A worker has the key and will read it, put it back, or act on what the cache still says. */
  predicate WellHeld(w: World, k: string) {
    k in w.held &&
    match w.held[k]
    case Taken => true
    case Through(failed) => failed
    case Holding(snapshot) =>
      if snapshot.Some? then k in w.cache && SameView(snapshot.value, w.cache[k]) else k !in w.cache
  }

  predicate Settled(w: World, k: string) {
    (k in w.held ==> w.held[k].Through?) && (k in w.cache ==> Stored(w.res, w.cache[k]))
  }

  predicate Followed(w: World, k: string) {
    Pending(w, k) || WellHeld(w, k) || Settled(w, k)
  }

  /** Filed, and no BindingPolicy has the empty UID. */
  ghost predicate Kempt(s: Server) {
    Filed(s) && "" !in s.minted
  }

  ghost predicate Sound(w: World) {
    && InRange(w.res) && Kempt(w.res.server)
    && (forall k | k in w.cache :: w.cache[k].name == k && NamedAfterOwner(w.res.server, w.cache[k]))
    && (forall k | k in w.held ::
          && BindingRef(k) in w.queue.processing
          && (w.held[k].Holding? && w.held[k].snapshot.Some? ==>
                w.held[k].snapshot.value.name == k && NamedAfterOwner(w.res.server, w.held[k].snapshot.value)))
    && forall k :: Followed(w, k)
  }

  /** What is assumed of an action: cached Bindings are named after the BindingPolicies that own
      them, an update under the same generation changes neither owner nor workload, and UIDs of
      BindingPolicies are new and not empty. */
  ghost predicate Truthful(w: World, a: Action) {
    && (CallOf(w, a).Some? ==> FreshUid(w.res, CallOf(w, a).value))
    && match a
       case CachePut(b) =>
         && NamedAfterOwner(w.res.server, b)
         && (b.name in w.cache && w.cache[b.name].generation == b.generation ==> SameView(w.cache[b.name], b))
       case Restart(cache, _, server) =>
         Kempt(server) && forall k | k in cache :: NamedAfterOwner(server, cache[k])
       case _ => true
  }

  // ---------------------------------------------------------------- resolver calls

  /** The active UID after a call is the new one, the empty one of a new session, or the old one. */
  lemma UidAfterCall(ev: Evaluator, st: State, core: Core, n: string)
    requires InRange(st) && Filed(st.server) && n in Next(ev, st, Event(core, Completes)).tracked
    ensures var e' := Next(ev, st, Event(core, Completes)).tracked[n];
      || e'.activeUid == FaultsOf(core).uid
      || (core.Note? && Target(core) == Some(n) && e'.activeUid == "")
      || (n in st.tracked && e'.activeUid == st.tracked[n].activeUid
          && (Target(core) == Some(n) && Tried(st, core).Some? ==> e'.workload == Tried(st, core).value.workload)
          && (!(Target(core) == Some(n) && Tried(st, core).Some?) ==> e'.workload == st.tracked[n].workload))
  {
    hide EnsureActiveStage, AttemptCondition, GatePasses, NoteSbp, Next, Filed;
    EntryAfter(ev, st, Event(core, Completes), n);
    if Target(core) == Some(n) && Bringing(ev, st, core).Some? {
      UidAfterBringing(ev, st, Event(core, Completes), n);
      EnsureEntry(n, Bringing(ev, st, core).value, st.server, FaultsOf(core));
    } else if Target(core) == Some(n) && Tried(st, core).Some? {
      AttemptEntry(ev, ListerOf(core), n, Tried(st, core).value, st.server, FaultsOf(core));
    }
  }

  /** A stored workload stays stored through every call but one for a Binding of the same name. */
  lemma StoredKept(ev: Evaluator, st: State, core: Core, b: Binding)
    requires InRange(st) && Kempt(st.server) && FreshUid(st, core) && !Panics(ev, st, core)
    requires NamedAfterOwner(st.server, b) && Stored(st, b)
    requires core.Bind? ==> NamedAfterOwner(st.server, core.binding) && core.binding.name != b.name
    ensures Stored(Next(ev, st, Event(core, Completes)), b)
  {
    hide Next, OwnerOf, Filed, GatePasses, Panics;
    var n := OwnerOf(b.name);
    if n.Some? && n.value in Next(ev, st, Event(core, Completes)).tracked {
      UidAfterCall(ev, st, core, n.value);
      EntryAfter(ev, st, Event(core, Completes), n.value);
    }
  }

  /** A call for a Binding stores its workload wherever its BindingPolicy is still active. */
  lemma BindStores(ev: Evaluator, st: State, core: Core, b: Binding)
    requires InRange(st) && Kempt(st.server) && FreshUid(st, core) && !Panics(ev, st, core)
    requires NamedAfterOwner(st.server, b) && core.Bind? && SameView(core.binding, b)
    ensures Stored(Next(ev, st, Event(core, Completes)), b)
  {
    hide Next, OwnerOf, Filed, GatePasses, Panics;
    var n := OwnerOf(b.name);
    if n.Some? && n.value in Next(ev, st, Event(core, Completes)).tracked {
      UidAfterCall(ev, st, core, n.value);
    }
  }

  lemma KemptAfterCall(ev: Evaluator, st: State, core: Core)
    requires Kempt(st.server) && FreshUid(st, core)
    ensures Kempt(Next(ev, st, Event(core, Completes)).server)
    ensures forall b | NamedAfterOwner(st.server, b) :: NamedAfterOwner(Next(ev, st, Event(core, Completes)).server, b)
  {
    hide EnsureActiveStage, EffectOf, Bringing, Filed, Next;
    var e := Event(core, Completes);
    MintedStep(ev, st, e);
    NextServer(ev, st, e);
    var k :| Next(ev, st, e).server == ServerAt(ev, st, core, k);
    FiledStep(ev, st, core, k);
    ServerSteps(ev, st, core, k);
    if Bringing(ev, st, core).Some? {
      var p := EnsureBoundary(Target(core).value, Bringing(ev, st, core).value, st.server, FaultsOf(core), k);
      BringingMints(ev, st, core);
    }
  }

  lemma BringingMints(ev: Evaluator, st: State, core: Core)
    requires Bringing(ev, st, core).Some?
    ensures core.Note? || core.Bind? || core.Report?
  {
  }

  // ---------------------------------------------------------------- one step

  lemma PendingKept(w: World, w': World, k: string)
    requires Pending(w, k)
    requires w.queue.dirty <= w'.queue.dirty && w.queue.delayed <= w'.queue.delayed
    requires w.inflight <= w'.inflight
    ensures Pending(w', k)
  {
    if i :| 0 <= i < |w.inflight| && BindingEnqueues(w.inflight[i]) == Some(k) {
      assert w'.inflight[i] == w.inflight[i];
    }
  }

  /** A cache change either announces itself or leaves the view alone. */
  lemma CacheStepFollowed(ev: Evaluator, w: World, a: Action, k: string)
    requires Sound(w) && Enabled(ev, w, a) && Truthful(w, a) && (a.CachePut? || a.CacheDelete?)
    ensures Followed(Step(ev, w, a), k)
  {
    hide OwnerOf;
    var w' := Step(ev, w, a);
    var m := w'.inflight[|w.inflight|];
    assert Followed(w, k);
    if Pending(w, k) {
      PendingKept(w, w', k);
    } else if BindingEnqueues(m) == Some(k) {
      assert Pending(w', k);
    } else {
      assert k in w'.cache <==> k in w.cache;
      assert k in w.cache ==> SameView(w.cache[k], w'.cache[k]);
    }
  }

  lemma DeliverFollowed(ev: Evaluator, w: World, k: string)
    requires Sound(w) && Enabled(ev, w, Deliver)
    ensures Followed(Step(ev, w, Deliver), k)
  {
    hide OwnerOf;
    var w' := Step(ev, w, Deliver);
    assert Followed(w, k);
    if i :| 0 <= i < |w.inflight| && BindingEnqueues(w.inflight[i]) == Some(k) {
      if i > 0 {
        assert w'.inflight[i - 1] == w.inflight[i];
      }
      assert Pending(w', k);
    }
  }

  lemma WorkerStepFollowed(ev: Evaluator, w: World, a: Action, k: string)
    requires Sound(w) && Enabled(ev, w, a)
    requires a.Ripen? || a.Take? || a.Read? || a.ReadFails? || a.Requeue? || a.Release?
    ensures Followed(Step(ev, w, a), k)
  {
    hide OwnerOf;
    var w' := Step(ev, w, a);
    assert Followed(w, k);
    if Pending(w, k) && !(a.Take? && a.name == k) {
      assert w'.inflight == w.inflight;
      assert Pending(w', k);
    }
  }

  /** A resolver call settles the key a worker acts for on a current snapshot, and leaves what is
      stored for all other keys. */
  lemma CallFollowed(ev: Evaluator, w: World, a: Action, k: string)
    requires Sound(w) && Enabled(ev, w, a) && Truthful(w, a) && (a.Act? || a.Other?)
    ensures Followed(Step(ev, w, a), k)
  {
    hide OwnerOf, Next, Panics, FreshUid, Stored;
    var w' := Step(ev, w, a);
    assert Followed(w, k);
    if Pending(w, k) {
      assert w'.inflight == w.inflight;
      assert Pending(w', k);
    } else if k in w.cache && CallOf(w, a).Some? {
      var core := CallOf(w, a).value;
      if a.Act? && a.name == k {
        BindStores(ev, w.res, core, w.cache[k]);
      } else if Stored(w.res, w.cache[k]) {
        StoredKept(ev, w.res, core, w.cache[k]);
      }
    }
  }

  lemma RestartFollowed(ev: Evaluator, w: World, a: Action, k: string)
    requires Enabled(ev, w, a) && a.Restart?
    ensures Followed(Step(ev, w, a), k)
  {
    var w' := Step(ev, w, a);
    if k in a.cache {
      var i :| 0 <= i < |a.listed| && a.listed[i] == a.cache[k];
      assert BindingEnqueues(w'.inflight[i]) == Some(k);
    }
  }

  /** Server and records after an action: still in order, and cached and held Bindings still named
      after their owners. */
  lemma BasicsKept(ev: Evaluator, w: World, a: Action)
    requires Sound(w) && Enabled(ev, w, a) && Truthful(w, a)
    ensures var w' := Step(ev, w, a);
      && InRange(w'.res) && Kempt(w'.res.server)
      && (forall k | k in w'.cache :: w'.cache[k].name == k && NamedAfterOwner(w'.res.server, w'.cache[k]))
      && (forall k | k in w'.held ::
            && BindingRef(k) in w'.queue.processing
            && (w'.held[k].Holding? && w'.held[k].snapshot.Some? ==>
                  w'.held[k].snapshot.value.name == k && NamedAfterOwner(w'.res.server, w'.held[k].snapshot.value)))
  {
    hide Followed, Kempt, Next, Panics, FreshUid, NamedAfterOwner;
    match CallOf(w, a)
    case Some(core) =>
      InRangeStep(ev, w.res, Event(core, Completes));
      KemptAfterCall(ev, w.res, core);
    case None =>
  }

  /** Every enabled action keeps every Binding followed. */
  lemma SoundStep(ev: Evaluator, w: World, a: Action)
    requires Sound(w) && Enabled(ev, w, a) && Truthful(w, a)
    ensures Sound(Step(ev, w, a))
  {
    hide Followed, Kempt, Truthful, Enabled;
    BasicsKept(ev, w, a);
    forall k
      ensures Followed(Step(ev, w, a), k)
    {
      match a {
        case CachePut(_) => CacheStepFollowed(ev, w, a, k);
        case CacheDelete(_) => CacheStepFollowed(ev, w, a, k);
        case Deliver => DeliverFollowed(ev, w, k);
        case Act(_, _, _) => CallFollowed(ev, w, a, k);
        case Other(_) => CallFollowed(ev, w, a, k);
        case Restart(_, _, _) => RestartFollowed(ev, w, a, k);
        case _ => WorkerStepFollowed(ev, w, a, k);
      }
    }
  }

  // ---------------------------------------------------------------- whole runs

  const BOOT := World(map[], [], EMPTY_QUEUE, map[], START)

  datatype History = History(worlds: seq<World>, actions: seq<Action>)

  ghost predicate IsHistory(ev: Evaluator, h: History) {
    && |h.worlds| == |h.actions| + 1
    && h.worlds[0] == BOOT
    && forall t: nat | t < |h.actions| ::
         Enabled(ev, h.worlds[t], h.actions[t]) && h.worlds[t + 1] == Step(ev, h.worlds[t], h.actions[t])
  }

  ghost predicate AllTruthful(h: History)
    requires |h.worlds| == |h.actions| + 1
  {
    forall t: nat | t < |h.actions| :: Truthful(h.worlds[t], h.actions[t])
  }

  /** In every reachable world every Binding key is about to be looked at, held by a worker whose
      snapshot is current, or settled. */
  lemma {:induction false} EveryBindingFollowed(ev: Evaluator, h: History, t: nat)
    requires IsHistory(ev, h) && AllTruthful(h) && t < |h.worlds|
    ensures Sound(h.worlds[t])
  {
    hide Sound, Truthful, Enabled, Step;
    if t > 0 {
      EveryBindingFollowed(ev, h, t - 1);
      assert Enabled(ev, h.worlds[t - 1], h.actions[t - 1]) && h.worlds[t - 1 + 1] == Step(ev, h.worlds[t - 1], h.actions[t - 1]);
      assert Truthful(h.worlds[t - 1], h.actions[t - 1]);
      SoundStep(ev, h.worlds[t - 1], h.actions[t - 1]);
    } else {
      BootSound();
    }
  }

  lemma BootSound()
    ensures Sound(BOOT)
  {
  }

  /** Nothing about the key is queued, delayed, in flight or being worked on. */
  predicate Idle(w: World, k: string) {
    !Pending(w, k) && k !in w.held
  }

  /** Once nothing about a Binding is pending, an entry that it is attributed to and whose active
      BindingPolicy owns it stores its workload. */
  lemma IdleBindingStored(ev: Evaluator, h: History, t: nat, n: string, k: string)
    requires IsHistory(ev, h) && AllTruthful(h) && t < |h.worlds|
    requires Idle(h.worlds[t], k) && k in h.worlds[t].cache && OwnerOf(k) == Some(n)
    requires var w := h.worlds[t];
      n in w.res.tracked && w.res.tracked[n].activeUid == FirstOwner(w.cache[k])
    ensures h.worlds[t].res.tracked[n].workload == h.worlds[t].cache[k].workload
  {
    EveryBindingFollowed(ev, h, t);
    assert Followed(h.worlds[t], k);
  }

  // ---------------------------------------------------------------- the generation gate

  /** Exactly the updates that keep the generation and change owner or workload can be lost: from
      an idle key whose Binding is stored, a delivered update leaves the key idle with another
      workload stored exactly if it keeps the generation, owner and BindingPolicy are those of
      the entry, and the workload is another one. */
  lemma UpdateLostExactly(ev: Evaluator, w: World, b: Binding, n: string)
    requires Sound(w) && w.inflight == [] && Idle(w, b.name) && b.name in w.cache && OwnerOf(b.name) == Some(n)
    requires n in w.res.tracked && w.res.tracked[n].activeUid == FirstOwner(w.cache[b.name])
    ensures Enabled(ev, w, CachePut(b)) && Enabled(ev, Step(ev, w, CachePut(b)), Deliver)
    ensures var w' := Step(ev, Step(ev, w, CachePut(b)), Deliver);
      !Followed(w', b.name) <==>
        && b.generation == w.cache[b.name].generation
        && FirstOwner(b) == FirstOwner(w.cache[b.name]) && b.workload != w.cache[b.name].workload
  {
    hide OwnerOf;
    assert Followed(w, b.name);
    var w1 := Step(ev, w, CachePut(b));
    assert w1.inflight == [BindingNotice(Some(w.cache[b.name]), b)];
  }
}
