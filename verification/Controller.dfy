/** The controller: informer handlers that fill the work queue and workers that empty it. */
module Controllers {
  import opened Api
  import opened Gate
  import opened Rollout
  import opened Resolvers
  import opened Runs
  import opened Steps
  import opened Bounds
  import opened Queues

  // ---------------------------------------------------------------- namespace keys

  function KeyOf(namespace: string, name: string): string {
    if |namespace| > 0 then namespace + "/" + name else name
  }

  function FirstSlash(s: string): (i: nat)
    ensures i <= |s| && '/' !in s[..i] && (i < |s| ==> s[i] == '/')
  {
    if |s| == 0 || s[0] == '/' then 0
    else
      var i := FirstSlash(s[1..]);
      assert s[..i + 1] == [s[0]] + s[1..][..i];
      i + 1
  }

  lemma FirstSlashBound(s: string, j: nat)
    requires j < |s| && s[j] == '/'
    ensures FirstSlash(s) <= j
  {
    if s[0] != '/' {
      FirstSlashBound(s[1..], j - 1);
    }
  }

  /** The parts of a key with at most one slash; any other key is an error. */
  function SplitKey(key: string): Option<(string, string)> {
    var i := FirstSlash(key);
    if i == |key| then Some(("", key))
    else if '/' in key[i + 1..] then None
    else Some((key[..i], key[i + 1..]))
  }

  /** Keys come apart as they were put together exactly when no part contains a slash. */
  lemma KeyRoundTrip(namespace: string, name: string)
    ensures SplitKey(KeyOf(namespace, name)) == Some((namespace, name)) <==> '/' !in namespace && '/' !in name
  {
    var key := KeyOf(namespace, name);
    var i := FirstSlash(key);
    if |namespace| == 0 {
      if '/' in name {
        assert i < |key|;
        assert |key[i + 1..]| < |name|;
      }
    } else {
      FirstSlashBound(key, |namespace|);
      if i < |namespace| {
        assert key[i] == namespace[i];
        assert key[i + 1..][|namespace| - i - 1] == '/';
      } else {
        assert key[..i] == namespace && key[i + 1..] == name;
      }
    }
  }

  // ---------------------------------------------------------------- the controller object

  /** What the informer caches hold when a worker reads them. */
  datatype Caches = Caches(
    sbps: map<string, Sbp>,
    bindings: map<string, Binding>,
    statuses: map<(string, string), CombinedStatus>)

  /** What a worker meets while it reconciles one item: a failing cache read, the CombinedStatus
      lister's answers and the fate of the API calls. */
  datatype Weather = Weather(cacheFails: bool, lister: Lister, f: Faults, f': Faults)

  /** The resolver call that reconciling an item comes down to, if any. */
  function CallFor(item: Item, c: Caches, w: Weather): Option<Core> {
    if w.cacheFails then None
    else match item
      case SbpRef(name) =>
        if name in c.sbps then Some(Note(c.sbps[name], w.lister, w.f, w.f')) else Some(Forget(name))
      case BindingRef(name) =>
        if name in c.bindings then Some(Bind(c.bindings[name], w.lister, w.f)) else None
      case StatusRef(key) =>
        var k := SplitKey(key);
        if k.Some? && k.value in c.statuses then Some(Report(c.statuses[k.value], w.lister, w.f)) else None
  }

  /** Reconciling fails on a malformed key, on a failed cache read, and when a noted
      StagedBindingPolicy could not be brought up; Bindings and statuses never fail. */
  predicate Errs(ev: Evaluator, st: State, item: Item, c: Caches, w: Weather) {
    || (item.StatusRef? && SplitKey(item.key).None?)
    || w.cacheFails
    || (item.SbpRef? && item.name in c.sbps
        && EnsureActiveStage(c.sbps[item.name].name, FreshEntry(c.sbps[item.name]), st.server, w.f).outcome == Failed)
  }

  /** From st to st' the resolver went through the call the item stands for, and nothing else; a
      panic is that call's panic and is followed by a process without memory. */
  ghost predicate Reconciled(ev: Evaluator, st: State, st': State, item: Item, c: Caches, w: Weather, outcome: Outcome) {
    var call := CallFor(item, c, w);
    && (if call.Some? then Next(ev, st, Event(call.value, Completes)) else st)
       == (if outcome == Panicked then State(map[], st'.server) else st')
    && (outcome == Panicked <==> call.Some? && Panics(ev, st, call.value))
    && (outcome == Failed <==> Errs(ev, st, item, c, w))
  }

  /** What a worker's work on an item it has taken does to queue and resolver. If the process
      survives, the item is no longer being processed and is delayed exactly if it failed. */
  ghost predicate WorkedOff(ev: Evaluator, q: Queue, st: State, q': Queue, st': State,
      item: Item, c: Caches, w: Weather, outcome: Outcome) {
    && Reconciled(ev, st, st', item, c, w, outcome)
    && (outcome != Panicked ==> q' == (if outcome == Failed then q.AddRateLimited(item) else q).Done(item))
  }

  lemma AttemptsDoNotFail(ev: Evaluator, st: State, core: Core)
    requires core.Bind? || core.Report?
    ensures EffectOf(ev, st, core).Some? ==> EffectOf(ev, st, core).value.outcome != Failed
  {
  }

  /** The queue once the handlers are through with a change of a CombinedStatus; there is no older
      one for an addition and for a deletion. */
  function StatusHandled(q: Queue, older: Option<CombinedStatus>, cs: CombinedStatus): Queue {
    if older.None? || older.value.generation != cs.generation
    then q.Add(StatusRef(KeyOf(cs.namespace, cs.name))) else q
  }

  /** A change of a CombinedStatus queues its key, "namespace/name" or the name alone, exactly if it
      is not an update under the same generation, and queues nothing else. */
  lemma StatusQueuedExactly(q: Queue, older: Option<CombinedStatus>, cs: CombinedStatus, i: Item)
    ensures i in StatusHandled(q, older, cs).dirty <==>
      || i in q.dirty
      || (&& i == StatusRef(if cs.namespace == "" then cs.name else cs.namespace + "/" + cs.name)
          && !(older.Some? && older.value.generation == cs.generation))
  {
  }

  /** The key of a namespaced name splits back into its parts. */
  lemma StatusKeySplits(namespace: string, name: string)
    requires '/' !in namespace && '/' !in name
    ensures SplitKey(if namespace == "" then name else namespace + "/" + name) == Some((namespace, name))
  {
    KeyRoundTrip(namespace, name);
    assert KeyOf(namespace, name) == if namespace == "" then name else namespace + "/" + name;
  }

  /** A queued CombinedStatus reaches the resolver: working its item off reports the cached object,
      and, if the object is gone from the cache, leaves the resolver as it is. */
  lemma QueuedStatusReported(ev: Evaluator, q: Queue, st: State, q': Queue, st': State,
      namespace: string, name: string, c: Caches, w: Weather, outcome: Outcome)
    requires '/' !in namespace && '/' !in name && !w.cacheFails
    requires WorkedOff(ev, q, st, q', st', StatusRef(if namespace == "" then name else namespace + "/" + name), c, w, outcome)
    ensures (namespace, name) in c.statuses ==>
      Next(ev, st, Event(Report(c.statuses[(namespace, name)], w.lister, w.f), Completes))
        == (if outcome == Panicked then State(map[], st'.server) else st')
    ensures (namespace, name) !in c.statuses ==> st' == st
    ensures outcome == Done || (outcome == Panicked && (namespace, name) in c.statuses)
  {
    hide Next, Panics;
    StatusKeySplits(namespace, name);
  }

  /** An item whose cache read fails, or whose key has more than one slash, is put back and tried
      again later, and the resolver is left as it is. */
  lemma UnreadableRetried(ev: Evaluator, q: Queue, st: State, q': Queue, st': State,
      item: Item, c: Caches, w: Weather, outcome: Outcome)
    requires WorkedOff(ev, q, st, q', st', item, c, w, outcome)
    requires w.cacheFails || exists a, b, d :: item == StatusRef(a + "/" + b + "/" + d)
    ensures outcome == Failed && st' == st && item in q'.delayed
  {
    hide Next, Panics;
    if !w.cacheFails {
      var a, b, d :| item == StatusRef(a + "/" + b + "/" + d);
      TwoSlashes(a, b, d);
    }
  }

  lemma TwoSlashes(a: string, b: string, d: string)
    ensures SplitKey(a + "/" + b + "/" + d) == None
  {
    var key := a + "/" + b + "/" + d;
    assert key[|a|] == '/' && key[|a| + 1 + |b|] == '/';
    FirstSlashBound(key, |a|);
    var i := FirstSlash(key);
    assert key[i + 1..][|a| + |b| - i] == '/';
  }

  /** Unless the process dies, an item worked off is no longer being processed, so it can be given
      out again exactly if it has been added meanwhile, and now or later if it failed. */
  lemma WorkedOffIsReleased(ev: Evaluator, q: Queue, st: State, q': Queue, st': State,
      item: Item, c: Caches, w: Weather, outcome: Outcome)
    requires WorkedOff(ev, q, st, q', st', item, c, w, outcome) && outcome != Panicked
    ensures item !in q'.processing
    ensures q'.CanGet(item) <==> item in q.dirty
    ensures outcome == Failed ==> item in q'.delayed && q'.Ripen(item).CanGet(item)
    ensures forall i | i != item :: q'.CanGet(i) == q.CanGet(i) && (i in q'.delayed <==> i in q.delayed)
  {
  }

  class Controller {
    const queue: WorkQueue
    const resolver: Resolver

    constructor (queue: WorkQueue, resolver: Resolver)
      ensures this.queue == queue && this.resolver == resolver
    {
      this.queue, this.resolver := queue, resolver;
    }

    ghost function ResolverState(): State
      reads resolver, resolver.Records(), resolver.api
    {
      State(resolver.Tracked(), resolver.api.Contents())
    }

    method OnSbpAdd(sbp: Sbp)
      modifies queue
      ensures queue.Value() == Handled(old(queue.Value()), Added(sbp))
    {
      queue.Add(SbpRef(sbp.name));
    }

    /** An update is queued only if the generation has changed. */
    method OnSbpUpdate(older: Sbp, newer: Sbp)
      modifies queue
      ensures queue.Value() == Handled(old(queue.Value()), Updated(older, newer))
    {
      if older.generation != newer.generation {
        queue.Add(SbpRef(newer.name));
      }
    }

    method OnSbpDelete(sbp: Sbp)
      modifies queue
      ensures queue.Value() == Handled(old(queue.Value()), Deleted(sbp))
    {
      queue.Add(SbpRef(sbp.name));
    }

    method OnBindingChange(older: Option<Binding>, binding: Binding)
      modifies queue
      ensures queue.Value() == BindingHandled(old(queue.Value()), BindingNotice(older, binding))
    {
      if older.None? || older.value.generation != binding.generation {
        queue.Add(BindingRef(binding.name));
      }
    }

    method OnStatusChange(older: Option<CombinedStatus>, cs: CombinedStatus)
      modifies queue
      ensures queue.Value() == StatusHandled(old(queue.Value()), older, cs)
    {
      if older.None? || older.value.generation != cs.generation {
        queue.Add(StatusRef(KeyOf(cs.namespace, cs.name)));
      }
    }

    method SyncStagedBindingPolicy(name: string, c: Caches, w: Weather) returns (outcome: Outcome)
      requires resolver.Valid()
      modifies resolver, resolver.Records(), resolver.api
      ensures resolver.Valid() && fresh(resolver.Records() - old(resolver.Records()))
      ensures Reconciled(resolver.evaluator, old(ResolverState()), ResolverState(), SbpRef(name), c, w, outcome)
    {
      if w.cacheFails {
        return Failed;
      }
      if name !in c.sbps {
        outcome := Dispatch(resolver, Forget(name));
        return;
      }
      NoteStaysAtResolvedStage(resolver.evaluator, w.lister, c.sbps[name], resolver.api.Contents(), w.f, w.f');
      outcome := Dispatch(resolver, Note(c.sbps[name], w.lister, w.f, w.f'));
    }

    method ProcessBinding(name: string, c: Caches, w: Weather) returns (outcome: Outcome)
      requires resolver.Valid()
      modifies resolver, resolver.Records(), resolver.api
      ensures resolver.Valid() && fresh(resolver.Records() - old(resolver.Records()))
      ensures Reconciled(resolver.evaluator, old(ResolverState()), ResolverState(), BindingRef(name), c, w, outcome)
    {
      if w.cacheFails {
        return Failed;
      }
      if name !in c.bindings {
        return Done;
      }
      AttemptsDoNotFail(resolver.evaluator, ResolverState(), Bind(c.bindings[name], w.lister, w.f));
      outcome := Dispatch(resolver, Bind(c.bindings[name], w.lister, w.f));
    }

    method ProcessCombinedStatus(key: string, c: Caches, w: Weather) returns (outcome: Outcome)
      requires resolver.Valid()
      modifies resolver, resolver.Records(), resolver.api
      ensures resolver.Valid() && fresh(resolver.Records() - old(resolver.Records()))
      ensures Reconciled(resolver.evaluator, old(ResolverState()), ResolverState(), StatusRef(key), c, w, outcome)
    {
      var k := SplitKey(key);
      if k.None? || w.cacheFails {
        return Failed;
      }
      if k.value !in c.statuses {
        return Done;
      }
      AttemptsDoNotFail(resolver.evaluator, ResolverState(), Report(c.statuses[k.value], w.lister, w.f));
      outcome := Dispatch(resolver, Report(c.statuses[k.value], w.lister, w.f));
    }

    method Reconcile(item: Item, c: Caches, w: Weather) returns (outcome: Outcome)
      requires resolver.Valid()
      modifies resolver, resolver.Records(), resolver.api
      ensures resolver.Valid() && fresh(resolver.Records() - old(resolver.Records()))
      ensures Reconciled(resolver.evaluator, old(ResolverState()), ResolverState(), item, c, w, outcome)
    {
      match item
      case SbpRef(name) => outcome := SyncStagedBindingPolicy(name, c, w);
      case BindingRef(name) => outcome := ProcessBinding(name, c, w);
      case StatusRef(key) => outcome := ProcessCombinedStatus(key, c, w);
    }

    /** One round of a worker: take an item and work it off. */
    method ProcessNextWorkItem(c: Caches, w: Weather) returns (item: Option<Item>, outcome: Outcome)
      requires resolver.Valid()
      modifies queue, resolver, resolver.Records(), resolver.api
      ensures resolver.Valid() && fresh(resolver.Records() - old(resolver.Records()))
      ensures item.None? ==> outcome == Done && queue.Value() == old(queue.Value()) && ResolverState() == old(ResolverState())
      ensures item.Some? ==> old(queue.Value()).CanGet(item.value)
      ensures item.Some? ==>
        WorkedOff(resolver.evaluator, old(queue.Value()).Get(item.value), old(ResolverState()),
                  queue.Value(), ResolverState(), item.value, c, w, outcome)
    {
      outcome := Done;
      item := queue.Get();
      if item.Some? {
        outcome := HandleItem(item.value, c, w);
      }
    }

    /** Reconcile the item, put it back later if that failed, and release it. */
    method HandleItem(item: Item, c: Caches, w: Weather) returns (outcome: Outcome)
      requires resolver.Valid()
      modifies queue, resolver, resolver.Records(), resolver.api
      ensures resolver.Valid() && fresh(resolver.Records() - old(resolver.Records()))
      ensures WorkedOff(resolver.evaluator, old(queue.Value()), old(ResolverState()),
                        queue.Value(), ResolverState(), item, c, w, outcome)
      ensures outcome != Panicked ==>
        item !in queue.processing && (queue.Value().CanGet(item) <==> item in old(queue.dirty))
    {
      hide Reconciled;
      outcome := Reconcile(item, c, w);
      if outcome != Panicked {
        ghost var st := ResolverState();
        Release(item, outcome == Failed);
        assert ResolverState() == st;
      }
    }

    /** The end of a round that the process survives. */
    method Release(item: Item, failed: bool)
      modifies queue
      ensures queue.Value() == (if failed then old(queue.Value()).AddRateLimited(item) else old(queue.Value())).Done(item)
    {
      if failed {
        queue.AddRateLimited(item);
      }
      queue.Done(item);
    }
  }
}
