/** The gate, and what leads up to it, in terms of the API objects alone: labels by their keys,
    statuses by what they hold, conditions by what their evaluation returns. */
module PlainGate {
  import opened Api
  import opened Names
  import opened Filter
  import opened Gate
  import opened Rollout
  import opened Runs
  import opened Steps
  import opened GateSoundness

  /** The name has the UID in it. */
  ghost predicate HasIn(name: string, uid: string) {
    exists pre, post :: name == pre + uid + post
  }

  lemma ContainsExactly(name: string, uid: string)
    ensures Contains(name, uid) <==> HasIn(name, uid)
  {
    if Contains(name, uid) {
      var i: nat :| i <= |name| && OccursAt(name, uid, i);
      assert name == name[..i] + uid + name[i + |uid|..];
    }
    if pre, post :| name == pre + uid + post {
      assert OccursAt(name, uid, |pre|);
    }
  }

  /** Labelled as the status of object o under this BindingPolicy. */
  predicate LabelledFor(labels: map<string, string>, o: ObjectIdentifier, bpName: string) {
    && "status.kubestellar.io/api-group" in labels && labels["status.kubestellar.io/api-group"] == o.group
    && "status.kubestellar.io/resource" in labels && labels["status.kubestellar.io/resource"] == o.resource
    && "status.kubestellar.io/namespace" in labels && labels["status.kubestellar.io/namespace"] == o.namespace
    && "status.kubestellar.io/name" in labels && labels["status.kubestellar.io/name"] == o.name
    && "status.kubestellar.io/binding-policy" in labels && labels["status.kubestellar.io/binding-policy"] == bpName
  }

  lemma MatchesExactly(n: string, stage: Stage, o: ObjectIdentifier, labels: map<string, string>)
    ensures Matches(SelectorFor(n, stage, o), labels) <==> LabelledFor(labels, o, n + ".stage." + stage.name)
  {
    assert BpName(n, stage.name) == n + ".stage." + stage.name;
  }

  // The condition is the boolean true of what the status serializes to.
  predicate TrueOf(ev: Evaluator, condition: Expression, cs: CombinedStatus) {
    ev.serialize(cs).Some? && ev.eval(condition, ForStatus(ev.serialize(cs).value)) == Boolean(true)
  }

  // ---------------------------------------------------------------- one list of statuses

  /** Every status with the UID in its name can be serialized, there is one, and the condition is
      true of the last of them. */
  ghost predicate LastIsTrue(ev: Evaluator, css: seq<CombinedStatus>, uid: string, condition: Expression) {
    && (forall cs | cs in css && HasIn(cs.name, uid) :: ev.serialize(cs).Some?)
    && exists i :: 0 <= i < |css| && HasIn(css[i].name, uid) && TrueOf(ev, condition, css[i])
         && forall j | i < j < |css| :: !HasIn(css[j].name, uid)
  }

  lemma {:induction false} LastNamedIsLast(css: seq<CombinedStatus>, uid: string, i: nat)
    requires i < |css| && Contains(css[i].name, uid) && forall j | i < j < |css| :: !Contains(css[j].name, uid)
    ensures LastNamed(css, uid) == Some(css[i])
  {
    if i < |css| - 1 {
      LastNamedIsLast(css[..|css| - 1], uid, i);
    }
  }

  lemma {:induction false} LastIndex(css: seq<CombinedStatus>, uid: string) returns (i: nat)
    requires LastNamed(css, uid).Some?
    ensures i < |css| && css[i] == LastNamed(css, uid).value && Contains(css[i].name, uid)
    ensures forall j | i < j < |css| :: !Contains(css[j].name, uid)
  {
    if Contains(css[|css| - 1].name, uid) {
      i := |css| - 1;
    } else {
      i := LastIndex(css[..|css| - 1], uid);
    }
  }

  lemma ListPassesExactly(ev: Evaluator, a: Attempt, css: seq<CombinedStatus>)
    ensures ListPasses(ev, a, css) <==>
      a.stage.condition.Some? && LastIsTrue(ev, css, a.uid, a.stage.condition.value)
  {
    hide Contains, HasIn;
    forall cs | cs in css
      ensures Contains(cs.name, a.uid) <==> HasIn(cs.name, a.uid)
    {
      ContainsExactly(cs.name, a.uid);
    }
    if ListPasses(ev, a, css) {
      var i := LastIndex(css, a.uid);
      assert TrueOf(ev, a.stage.condition.value, css[i]);
    }
    if a.stage.condition.Some? && LastIsTrue(ev, css, a.uid, a.stage.condition.value) {
      var i :| 0 <= i < |css| && HasIn(css[i].name, a.uid) && TrueOf(ev, a.stage.condition.value, css[i])
        && forall j | i < j < |css| :: !HasIn(css[j].name, a.uid);
      LastNamedIsLast(css, a.uid, i);
    }
  }

  // ---------------------------------------------------------------- the whole gate

  /** The list that is asked for object o decides for it. */
  ghost predicate ListedTrue(ev: Evaluator, lister: Lister, n: string, e: Entry, o: ObjectIdentifier)
    requires e.activeIndex < |e.stages| && e.stages[e.activeIndex].condition.Some?
  {
    var stage := e.stages[e.activeIndex];
    var listed := lister(Selector(group := o.group, resource := o.resource, namespace := o.namespace, name := o.name,
                                  bindingPolicy := n + ".stage." + stage.name));
    listed.Some? && LastIsTrue(ev, listed.value, e.activeUid, stage.condition.value)
  }

  /** The gate, exactly: the active stage has a condition, its filter selects some object of the
      entry's workload, and for every object it selects, the last listed status that has the
      entry's UID in its name is one of which the condition is true, with no status of that UID
      that cannot be serialized. */
  lemma PassesExactly(ev: Evaluator, lister: Lister, n: string, e: Entry)
    ensures Passes(ev, lister, n, e) <==>
      && e.activeIndex < |e.stages|
      && e.stages[e.activeIndex].condition.Some?
      && (exists o :: Selected(ev, e.workload, e.stages[e.activeIndex].filter, o))
      && forall o | Selected(ev, e.workload, e.stages[e.activeIndex].filter, o) :: ListedTrue(ev, lister, n, e, o)
  {
    hide Selected, ListPasses, LastIsTrue, Filtered;
    if e.activeIndex < |e.stages| && e.stages[e.activeIndex].condition.Some? {
      var stage := e.stages[e.activeIndex];
      var a := AttemptOn(n, e);
      forall o
        ensures o in Targets(ev, a) <==> Selected(ev, e.workload, stage.filter, o)
        ensures ObjectPasses(ev, lister, a, o) <==> ListedTrue(ev, lister, n, e, o)
      {
        FilteredExactly(ev, e.workload, stage.filter, o);
        assert BpName(n, stage.name) == n + ".stage." + stage.name;
        var listed := lister(SelectorFor(n, stage, o));
        if listed.Some? {
          ListPassesExactly(ev, a, listed.value);
        }
      }
      if exists o :: Selected(ev, e.workload, stage.filter, o) {
        var o :| Selected(ev, e.workload, stage.filter, o);
        assert o in Targets(ev, a);
      }
    }
  }

  // ---------------------------------------------------------------- lawful listers

  ghost predicate Listed(lister: Lister, cs: CombinedStatus) {
    exists sel :: lister(sel).Some? && cs in lister(sel).value
  }

  /** A listed status of object o under the active stage's BindingPolicy, with the UID in its name. */
  ghost predicate IsFor(lister: Lister, n: string, e: Entry, o: ObjectIdentifier, cs: CombinedStatus)
    requires e.activeIndex < |e.stages|
  {
    && Listed(lister, cs) && HasIn(cs.name, e.activeUid)
    && LabelledFor(cs.labels, o, n + ".stage." + e.stages[e.activeIndex].name)
  }

  /** There is a status for o of which the condition is true. */
  ghost predicate VouchedFor(ev: Evaluator, lister: Lister, n: string, e: Entry, o: ObjectIdentifier)
    requires e.activeIndex < |e.stages| && e.stages[e.activeIndex].condition.Some?
  {
    exists cs :: IsFor(lister, n, e, o, cs) && TrueOf(ev, e.stages[e.activeIndex].condition.value, cs)
  }

  /** The filter selects some object, and every object it selects is vouched for. */
  ghost predicate Vouched(ev: Evaluator, lister: Lister, n: string, e: Entry) {
    && e.activeIndex < |e.stages|
    && e.stages[e.activeIndex].condition.Some?
    && (exists o :: Selected(ev, e.workload, e.stages[e.activeIndex].filter, o))
    && forall o | Selected(ev, e.workload, e.stages[e.activeIndex].filter, o) :: VouchedFor(ev, lister, n, e, o)
  }

  /** At most one listed status is for each selected object. */
  ghost predicate OneStatusEach(ev: Evaluator, lister: Lister, n: string, e: Entry)
    requires e.activeIndex < |e.stages|
  {
    forall o, cs, cs' | Selected(ev, e.workload, e.stages[e.activeIndex].filter, o)
      && IsFor(lister, n, e, o, cs) && IsFor(lister, n, e, o, cs') :: cs == cs'
  }

  /** What a lawful lister returns under some selector and is labelled for o, it returns when asked for o. */
  lemma ListedUnderItsLabels(lister: Lister, n: string, stage: Stage, o: ObjectIdentifier, cs: CombinedStatus)
    requires Lawful(lister) && Listed(lister, cs) && LabelledFor(cs.labels, o, n + ".stage." + stage.name)
    ensures var listed := lister(SelectorFor(n, stage, o)); listed.Some? && cs in listed.value
  {
    var sel :| lister(sel).Some? && cs in lister(sel).value;
    assert Matches(sel, cs.labels);
    MatchesExactly(n, stage, o, cs.labels);
    assert sel == SelectorFor(n, stage, o);
  }

  lemma AttestedExactly(ev: Evaluator, lister: Lister, n: string, e: Entry, o: ObjectIdentifier)
    requires Lawful(lister) && e.activeIndex < |e.stages| && e.stages[e.activeIndex].condition.Some?
    ensures Attested(ev, lister, AttemptOn(n, e), o) <==> VouchedFor(ev, lister, n, e, o)
  {
    hide Contains, HasIn, Matches, Lawful;
    var a, stage := AttemptOn(n, e), e.stages[e.activeIndex];
    if cs :| Attests(ev, lister, a, o, cs) {
      MatchesExactly(n, stage, o, cs.labels);
      ContainsExactly(cs.name, e.activeUid);
      assert IsFor(lister, n, e, o, cs);
    }
    if cs :| IsFor(lister, n, e, o, cs) && TrueOf(ev, stage.condition.value, cs) {
      MatchesExactly(n, stage, o, cs.labels);
      ContainsExactly(cs.name, e.activeUid);
      ListedUnderItsLabels(lister, n, stage, o, cs);
      assert Attests(ev, lister, a, o, cs);
    }
  }

  lemma FulfilledExactly(ev: Evaluator, lister: Lister, n: string, e: Entry)
    requires Lawful(lister) && e.activeIndex < |e.stages|
    ensures Fulfilled(ev, lister, AttemptOn(n, e)) <==> Vouched(ev, lister, n, e)
  {
    hide Selected, Attested, VouchedFor, Filtered;
    var a, stage := AttemptOn(n, e), e.stages[e.activeIndex];
    if stage.condition.Some? {
      forall o
        ensures o in Targets(ev, a) <==> Selected(ev, e.workload, stage.filter, o)
        ensures Attested(ev, lister, a, o) <==> VouchedFor(ev, lister, n, e, o)
      {
        FilteredExactly(ev, e.workload, stage.filter, o);
        AttestedExactly(ev, lister, n, e, o);
      }
      if exists o :: Selected(ev, e.workload, stage.filter, o) {
        var o :| Selected(ev, e.workload, stage.filter, o);
        assert o in Targets(ev, a);
      }
    }
  }

  /** A passing gate: every object of the entry's workload that the active stage's filter selects
      has a listed status with the object's group, resource, namespace and name and the stage's
      BindingPolicy in its labels and the entry's UID in its name, of which the condition is true. */
  lemma PassingVouched(ev: Evaluator, lister: Lister, n: string, e: Entry)
    requires Lawful(lister) && Passes(ev, lister, n, e)
    ensures Vouched(ev, lister, n, e)
  {
    GateSound(ev, lister, AttemptOn(n, e));
    FulfilledExactly(ev, lister, n, e);
  }

  /** With at most one status for each object, the gate passes exactly then. */
  lemma PassesIffVouched(ev: Evaluator, lister: Lister, n: string, e: Entry)
    requires Lawful(lister) && e.activeIndex < |e.stages| && OneStatusEach(ev, lister, n, e)
    ensures Passes(ev, lister, n, e) <==> Vouched(ev, lister, n, e)
  {
    hide Vouched, Fulfilled, GatePasses, LabelledFor, HasIn, Matches, Contains, Selected, Filtered;
    var a, stage := AttemptOn(n, e), e.stages[e.activeIndex];
    assert OneMatch(ev, lister, a) by {
      forall o, cs | lister(SelectorFor(n, stage, o)).Some? && cs in lister(SelectorFor(n, stage, o)).value
        && Contains(cs.name, a.uid)
        ensures IsFor(lister, n, e, o, cs)
      {
        MatchesExactly(n, stage, o, cs.labels);
        ContainsExactly(cs.name, a.uid);
      }
      forall o | o in Targets(ev, a)
        ensures Selected(ev, e.workload, stage.filter, o)
      {
        FilteredExactly(ev, e.workload, stage.filter, o);
      }
    }
    GateExact(ev, lister, a);
    FulfilledExactly(ev, lister, n, e);
  }

  /** So whenever the condition of a stage counts as satisfied in a run, the entry it was tried on
      was vouched for. */
  lemma SatisfiedMeans(ev: Evaluator, r: Run, t: nat, n: string, uid: string, j: nat)
    requires t < |r.events| < |r.states| && ListersLawful(r) && SatisfiedAt(ev, r, t, n, uid, j)
    ensures Tried(r.states[t], r.events[t].core).Some?
    ensures var e := Tried(r.states[t], r.events[t].core).value;
      e.uid == uid && e.activeIndex == j && Vouched(ev, ListerOf(r.events[t].core), n, e)
  {
    FulfilledExactly(ev, ListerOf(r.events[t].core), n, Tried(r.states[t], r.events[t].core).value);
  }

  // ---------------------------------------------------------------- what makes an attempt

  /** bpName is taken for the name of a BindingPolicy of n. */
  ghost predicate AttributedTo(bpName: string, n: string) {
    exists s :: bpName == n + ".stage." + s
      && !Contains(n, ".stage.") && !Contains(s, ".stage.") && !EndsWith(n, ".stage")
  }

  /** A Binding attributed to a tracked name is tried, with its workload, exactly if its first
      owner has the entry's UID (no owner counting as the empty UID); otherwise, or if it is
      attributed to no tracked name, it changes nothing. */
  lemma BindingTriedExactly(ev: Evaluator, st: State, b: Binding, lister: Lister, f: Faults)
    ensures forall n | n in st.tracked && AttributedTo(b.name, n) ::
      EffectOf(ev, st, Bind(b, lister, f)) ==
        if st.tracked[n].activeUid == (if b.owners == [] then "" else b.owners[0])
        then Some(AttemptCondition(ev, lister, n, st.tracked[n].(workload := b.workload), st.server, f))
        else Some(Effect(st.tracked[n], [], Done))
    ensures EffectOf(ev, st, Bind(b, lister, f)).Some? <==> exists n :: n in st.tracked && AttributedTo(b.name, n)
  {
    hide AttemptCondition, OwnerOf, AttributedTo;
    forall n
      ensures OwnerOf(b.name) == Some(n) <==> AttributedTo(b.name, n)
    {
      OwnerIsAttributed(b.name, n);
    }
  }

  lemma OwnerIsAttributed(bpName: string, n: string)
    ensures OwnerOf(bpName) == Some(n) <==> AttributedTo(bpName, n)
  {
    OwnerExactly(bpName, n);
  }

  /** A CombinedStatus makes one attempt on the tracked name to which the BindingPolicy in its
      label is attributed, whatever else it holds, and nothing if there is no such name. */
  lemma StatusTriedExactly(ev: Evaluator, st: State, cs: CombinedStatus, lister: Lister, f: Faults)
    ensures forall n | n in st.tracked && "status.kubestellar.io/binding-policy" in cs.labels
      && AttributedTo(cs.labels["status.kubestellar.io/binding-policy"], n) ::
      EffectOf(ev, st, Report(cs, lister, f)) == Some(AttemptCondition(ev, lister, n, st.tracked[n], st.server, f))
    ensures EffectOf(ev, st, Report(cs, lister, f)).Some? <==>
      && "status.kubestellar.io/binding-policy" in cs.labels
      && exists n :: n in st.tracked && AttributedTo(cs.labels["status.kubestellar.io/binding-policy"], n)
  {
    hide AttemptCondition, OwnerOf, AttributedTo;
    if "status.kubestellar.io/binding-policy" in cs.labels {
      forall n
        ensures OwnerOf(cs.labels["status.kubestellar.io/binding-policy"]) == Some(n)
           <==> AttributedTo(cs.labels["status.kubestellar.io/binding-policy"], n)
      {
        OwnerIsAttributed(cs.labels["status.kubestellar.io/binding-policy"], n);
      }
      EmptyAttributed();
    }
  }

  lemma EmptyAttributed()
    ensures OwnerOf("") == None
  {
  }
}
