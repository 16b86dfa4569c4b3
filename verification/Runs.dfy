/** Runs of the stager: resolver calls, actions of others on the API server,
    and process deaths at any API-call boundary. */
module Runs {
  import opened Api
  import opened Names
  import opened Gate
  import opened ApiServers
  import opened Rollout
  import opened Resolvers

  datatype State = State(tracked: map<string, Entry>, server: Server)

  datatype Core =
    | Note(sbp: Sbp, lister: Lister, f: Faults, f': Faults)     // a cached StagedBindingPolicy is noted
    | Forget(name: string)                                      // it is gone from the cache
    | Bind(binding: Binding, lister: Lister, f: Faults)         // a cached Binding is noted
    | Report(cs: CombinedStatus, lister: Lister, f: Faults)     // a cached CombinedStatus is noted
    | UserCreate(sbp: Sbp)
    | UserDelete(name: string)
    | Vanish(bpName: string)                                    // a BindingPolicy is garbage-collected or deleted by others
    | Idle

  /** A step completes, or the process dies right after that many API calls. */
  datatype Fate = Completes | DiesAfter(calls: nat)

  datatype Event = Event(core: Core, fate: Fate)

  /** The name whose entry and BindingPolicies a resolver call is about, if any. */
  function Target(core: Core): Option<string> {
    match core
    case Note(sbp, _, _, _) => Some(sbp.name)
    case Forget(name) => Some(name)
    case Bind(b, _, _) => OwnerOf(b.name)
    case Report(cs, _, _) => StatusOwner(cs)
    case UserCreate(sbp) => Some(sbp.name)
    case UserDelete(name) => Some(name)
    case Vanish(bpName) => OwnerOf(bpName)
    case Idle => None
  }

  /** The effect of a resolver call on the entry of its target. */
  function EffectOf(ev: Evaluator, st: State, core: Core): Option<Effect> {
    match core
    case Note(sbp, lister, f, f') =>
      Some(NoteSbp(ev, lister, sbp, st.server, f, f'))
    case Bind(b, lister, f) =>
      var n := OwnerOf(b.name);
      if n.Some? && n.value in st.tracked
      then Some(NoteBinding(ev, lister, n.value, b, st.tracked[n.value], st.server, f)) else None
    case Report(cs, lister, f) =>
      var n := StatusOwner(cs);
      if n.Some? && n.value in st.tracked
      then Some(AttemptCondition(ev, lister, n.value, st.tracked[n.value], st.server, f)) else None
    case _ => None
  }

  /** What others may do: bring up a StagedBindingPolicy with a new UID and an empty status under
      a free name, delete one, or take away any BindingPolicy. A request the server does not
      allow changes nothing. */
  function Environment(s: Server, core: Core): Server {
    match core
    case UserCreate(sbp) =>
      if sbp.name in s.sbps || sbp.uid in s.issued then s
      else
        var created := sbp.(activeStage := "");
        s.(sbps := s.sbps[sbp.name := created], issued := s.issued[sbp.uid := created])
    case UserDelete(name) => s.(sbps := s.sbps - {name})
    case Vanish(bpName) => s.(bps := s.bps - {bpName})
    case _ => s
  }

  function Next(ev: Evaluator, st: State, e: Event): State {
    match EffectOf(ev, st, e.core)
    case Some(x) =>
      if e.fate.DiesAfter? then State(map[], x.Boundary(st.server, e.fate.calls))
      else if x.outcome == Panicked then State(map[], x.Final(st.server))
      else State(st.tracked[Target(e.core).value := x.entry], x.Final(st.server))
    case None =>
      if e.fate.DiesAfter? then State(map[], Environment(st.server, e.core))
      else if e.core.Forget? then State(st.tracked - {e.core.name}, st.server)
      else State(st.tracked, Environment(st.server, e.core))
  }

  /** The state after a sequence of events. */
  function After(ev: Evaluator, st: State, es: seq<Event>): State
    decreases |es|
  {
    if |es| == 0 then st else After(ev, Next(ev, st, es[0]), es[1..])
  }

  const START := State(map[], Server(map[], map[], map[], map[]))

  /** states[t] is the state before events[t]. */
  datatype Run = Run(states: seq<State>, events: seq<Event>)

  ghost predicate IsRun(ev: Evaluator, r: Run) {
    && |r.states| == |r.events| + 1
    && r.states[0] == START
    && forall t: nat | t < |r.events| :: r.states[t + 1] == Next(ev, r.states[t], r.events[t])
  }

  /** One step of the resolver object is the step of the same call in a run; if the call
      panics, the run goes on with the same server and no memory. */
  method Dispatch(r: Resolver, core: Core) returns (outcome: Outcome)
    requires r.Valid()
    modifies r, r.Records(), r.api
    ensures r.Valid() && fresh(r.Records() - old(r.Records()))
    ensures core.Note? || core.Forget? || core.Bind? || core.Report? ==>
      var st := Next(r.evaluator, old(State(r.Tracked(), r.api.Contents())), Event(core, Completes));
      var x := EffectOf(r.evaluator, old(State(r.Tracked(), r.api.Contents())), core);
      && st == State(if outcome == Panicked then map[] else r.Tracked(), r.api.Contents())
      && outcome == (if x.Some? then x.value.outcome else Done)
  {
    outcome := Done;
    match core
    case Note(sbp, lister, f, f') => outcome := r.NoteStagedBindingPolicy(sbp, lister, f, f');
    case Forget(name) => r.DeleteStagedBindingPolicy(name);
    case Bind(b, lister, f) => outcome := r.NoteBinding(b, lister, f);
    case Report(cs, lister, f) => outcome := r.NoteCombinedStatus(cs, lister, f);
    case _ =>
  }
}
