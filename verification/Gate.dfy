/** The stage gate: when the condition of the active stage counts as satisfied. */
module Gate {
  import opened Api
  import opened Names
  import opened Filter

  const LABEL_BINDING_POLICY := "status.kubestellar.io/binding-policy"
  const LABEL_GROUP := "status.kubestellar.io/api-group"
  const LABEL_RESOURCE := "status.kubestellar.io/resource"
  const LABEL_NAME := "status.kubestellar.io/name"
  const LABEL_NAMESPACE := "status.kubestellar.io/namespace"

  /** The five equality requirements put on a CombinedStatus. */
  datatype Selector = Selector(group: string, resource: string, namespace: string, name: string, bindingPolicy: string)

  // An equality requirement needs the label to be present, even when the wanted value is empty.
  predicate LabelIs(labels: map<string, string>, key: string, value: string) {
    key in labels && labels[key] == value
  }

  predicate Matches(sel: Selector, labels: map<string, string>) {
    && LabelIs(labels, LABEL_GROUP, sel.group)
    && LabelIs(labels, LABEL_RESOURCE, sel.resource)
    && LabelIs(labels, LABEL_NAMESPACE, sel.namespace)
    && LabelIs(labels, LABEL_NAME, sel.name)
    && LabelIs(labels, LABEL_BINDING_POLICY, sel.bindingPolicy)
  }

  /** What the CombinedStatus lister answers to each selector, None being an error. The cache
      may change between two queries; a selector is queried at most once per attempt. */
  type Lister = Selector -> Option<seq<CombinedStatus>>

  /** The lister contract: only matching objects are returned. */
  ghost predicate Lawful(lister: Lister) {
    forall sel :: lister(sel).Some? ==>
      forall cs | cs in lister(sel).value :: Matches(sel, cs.labels)
  }

  function SelectorFor(sbpName: string, stage: Stage, o: ObjectIdentifier): Selector {
    Selector(o.group, o.resource, o.namespace, o.name, BpName(sbpName, stage.name))
  }

  /** What one attempt looks at: an entry's name, active stage, active UID and workload. */
  datatype Attempt = Attempt(sbpName: string, stage: Stage, uid: string, workload: Workload)

  function Targets(ev: Evaluator, a: Attempt): set<ObjectIdentifier> {
    Filtered(ev, a.workload, a.stage.filter)
  }

  predicate Serializable(ev: Evaluator, css: seq<CombinedStatus>, uid: string) {
    forall cs | cs in css && Contains(cs.name, uid) :: ev.serialize(cs).Some?
  }

  /** The last listed CombinedStatus whose name contains uid. */
  function LastNamed(css: seq<CombinedStatus>, uid: string): (r: Option<CombinedStatus>)
    ensures r.Some? ==> r.value in css && Contains(r.value.name, uid)
    ensures r.None? ==> forall cs | cs in css :: !Contains(cs.name, uid)
  {
    if |css| == 0 then None
    else if Contains(css[|css| - 1].name, uid) then Some(css[|css| - 1])
    else LastNamed(css[..|css| - 1], uid)
  }

  /** The stage condition is true of this status. */
  predicate StatusPasses(ev: Evaluator, a: Attempt, cs: CombinedStatus) {
    && a.stage.condition.Some? && ev.serialize(cs).Some?
    && ev.Test(a.stage.condition.value, ForStatus(ev.serialize(cs).value))
  }

  /** The verdict on what is listed for one object: one status decides, and any status of that
      UID that cannot be serialized spoils the attempt. */
  predicate ListPasses(ev: Evaluator, a: Attempt, css: seq<CombinedStatus>) {
    var chosen := LastNamed(css, a.uid);
    Serializable(ev, css, a.uid) && chosen.Some? && StatusPasses(ev, a, chosen.value)
  }

  predicate ObjectPasses(ev: Evaluator, lister: Lister, a: Attempt, o: ObjectIdentifier) {
    match lister(SelectorFor(a.sbpName, a.stage, o))
    case None => false
    case Some(css) => ListPasses(ev, a, css)
  }

  predicate GatePasses(ev: Evaluator, lister: Lister, a: Attempt) {
    && a.stage.condition.Some?
    && Targets(ev, a) != {}
    && forall o | o in Targets(ev, a) :: ObjectPasses(ev, lister, a, o)
  }

  /** Scan the listed statuses; a later match replaces an earlier one. */
  method PickStatus(ev: Evaluator, css: seq<CombinedStatus>, uid: string)
    returns (failed: bool, picked: Option<Unstructured>)
    ensures failed == !Serializable(ev, css, uid)
    ensures !failed ==> picked == if LastNamed(css, uid).Some? then ev.serialize(LastNamed(css, uid).value) else None
  {
    picked := None;
    for i := 0 to |css|
      invariant Serializable(ev, css[..i], uid)
      invariant picked == if LastNamed(css[..i], uid).Some? then ev.serialize(LastNamed(css[..i], uid).value) else None
    {
      assert css[..i + 1][..i] == css[..i];
      if Contains(css[i].name, uid) {
        picked := ev.serialize(css[i]);
        if picked.None? {
          return true, None;
        }
      }
    }
    assert css[..|css|] == css;
    failed := false;
  }

  /** The checking loop of an attempt. The filtered set is walked in an arbitrary order and the
      loop leaves at the first object that does not pass; the answer depends on neither. */
  method CheckCondition(ev: Evaluator, lister: Lister, a: Attempt) returns (satisfied: bool)
    ensures satisfied == GatePasses(ev, lister, a)
  {
    if a.stage.condition.None? {
      return false;
    }
    var filtered := FilterWorkload(ev, a.workload, a.stage.filter);
    if filtered == {} {
      return false;
    }
    var remaining := filtered;
    while remaining != {}
      invariant remaining <= filtered
      invariant forall o | o in filtered - remaining :: ObjectPasses(ev, lister, a, o)
      decreases |remaining|
    {
      var o :| o in remaining;
      remaining := remaining - {o};
      var listed := lister(SelectorFor(a.sbpName, a.stage, o));
      if listed.None? || |listed.value| == 0 {
        return false;
      }
      var failed, status := PickStatus(ev, listed.value, a.uid);
      if failed || status.None? {
        return false;
      }
      if !ev.Test(a.stage.condition.value, ForStatus(status.value)) {
        return false;
      }
    }
    satisfied := true;
  }

  // ---------------------------------------------------------------- what passing means

  /** A status of o that carries all five labels and the UID in its name, and on which the
      stage condition is true. */
  ghost predicate Attests(ev: Evaluator, lister: Lister, a: Attempt, o: ObjectIdentifier, cs: CombinedStatus) {
    var sel := SelectorFor(a.sbpName, a.stage, o);
    && lister(sel).Some? && cs in lister(sel).value
    && Matches(sel, cs.labels)
    && Contains(cs.name, a.uid)
    && StatusPasses(ev, a, cs)
  }

  ghost predicate Attested(ev: Evaluator, lister: Lister, a: Attempt, o: ObjectIdentifier) {
    exists cs :: Attests(ev, lister, a, o, cs)
  }

  ghost predicate Fulfilled(ev: Evaluator, lister: Lister, a: Attempt) {
    && a.stage.condition.Some?
    && Targets(ev, a) != {}
    && forall o | o in Targets(ev, a) :: Attested(ev, lister, a, o)
  }

  /** Passing the gate is always backed by a status for every filtered object. */
  lemma GateSound(ev: Evaluator, lister: Lister, a: Attempt)
    requires Lawful(lister)
    requires GatePasses(ev, lister, a)
    ensures Fulfilled(ev, lister, a)
  {
    forall o | o in Targets(ev, a)
      ensures Attested(ev, lister, a, o)
    {
      assert ObjectPasses(ev, lister, a, o);
      var sel := SelectorFor(a.sbpName, a.stage, o);
      assert Attests(ev, lister, a, o, LastNamed(lister(sel).value, a.uid).value);
    }
  }

  /** The stager's stated assumption: per object, at most one listed status names the UID. */
  ghost predicate OneMatch(ev: Evaluator, lister: Lister, a: Attempt) {
    forall o | o in Targets(ev, a) ::
      var listed := lister(SelectorFor(a.sbpName, a.stage, o));
      listed.Some? ==> forall cs, cs' | cs in listed.value && cs' in listed.value ::
        Contains(cs.name, a.uid) && Contains(cs'.name, a.uid) ==> cs == cs'
  }

  /** With one match per object the gate is exactly the declarative condition. */
  lemma GateExact(ev: Evaluator, lister: Lister, a: Attempt)
    requires Lawful(lister) && OneMatch(ev, lister, a)
    ensures GatePasses(ev, lister, a) <==> Fulfilled(ev, lister, a)
  {
    if GatePasses(ev, lister, a) {
      GateSound(ev, lister, a);
    }
    if Fulfilled(ev, lister, a) {
      forall o | o in Targets(ev, a)
        ensures ObjectPasses(ev, lister, a, o)
      {
        assert Attested(ev, lister, a, o);
        var cs :| Attests(ev, lister, a, o, cs);
        var css := lister(SelectorFor(a.sbpName, a.stage, o)).value;
        assert LastNamed(css, a.uid) == Some(cs);
      }
    }
  }

  // ---------------------------------------------------------------- the order of the lister's results

  /** No listed status of the UID satisfies the condition, or one cannot be serialized. */
  predicate Hopeless(ev: Evaluator, a: Attempt, css: seq<CombinedStatus>) {
    !Serializable(ev, css, a.uid) || forall cs | cs in css && Contains(cs.name, a.uid) :: !StatusPasses(ev, a, cs)
  }

  /** Every listed status of the UID satisfies the condition. */
  predicate Unanimous(ev: Evaluator, a: Attempt, css: seq<CombinedStatus>) {
    forall cs | cs in css && Contains(cs.name, a.uid) :: StatusPasses(ev, a, cs)
  }

  function MovedLast(css: seq<CombinedStatus>, i: nat): seq<CombinedStatus>
    requires i < |css|
  {
    css[..i] + css[i + 1..] + [css[i]]
  }

  lemma MovedLastPermutes(css: seq<CombinedStatus>, i: nat)
    requires i < |css|
    ensures multiset(MovedLast(css, i)) == multiset(css)
  {
    assert css == css[..i] + [css[i]] + css[i + 1..];
  }

  lemma PermutedMembers(css: seq<CombinedStatus>, css': seq<CombinedStatus>)
    requires multiset(css) == multiset(css')
    ensures forall cs :: cs in css <==> cs in css'
  {
    forall cs
      ensures cs in css <==> cs in css'
    {
      assert cs in multiset(css) <==> cs in multiset(css');
    }
  }

  /** An arrangement of css in which a status with this verdict decides, if there is one. */
  ghost function Arranged(ev: Evaluator, a: Attempt, css: seq<CombinedStatus>, verdict: bool): (r: seq<CombinedStatus>)
    ensures multiset(r) == multiset(css)
    ensures (exists cs :: cs in css && Contains(cs.name, a.uid) && StatusPasses(ev, a, cs) == verdict) ==>
      LastNamed(r, a.uid).Some? && StatusPasses(ev, a, LastNamed(r, a.uid).value) == verdict
  {
    if i: nat :| i < |css| && Contains(css[i].name, a.uid) && StatusPasses(ev, a, css[i]) == verdict then
      MovedLastPermutes(css, i);
      MovedLast(css, i)
    else css
  }

  /** The verdict on one object is the same for every order of the listed statuses exactly if
      none of the UID's statuses satisfies the condition, all do, or one cannot be serialized. */
  lemma VerdictOrderExactly(ev: Evaluator, a: Attempt, css: seq<CombinedStatus>)
    ensures (forall css' | multiset(css') == multiset(css) :: ListPasses(ev, a, css') == ListPasses(ev, a, css))
       <==> Hopeless(ev, a, css) || Unanimous(ev, a, css)
  {
    if Hopeless(ev, a, css) || Unanimous(ev, a, css) {
      forall css' | multiset(css') == multiset(css)
        ensures ListPasses(ev, a, css') == ListPasses(ev, a, css)
      {
        PermutedMembers(css, css');
      }
    } else {
      var yes, no := Arranged(ev, a, css, true), Arranged(ev, a, css, false);
      PermutedMembers(css, yes);
      PermutedMembers(css, no);
      assert ListPasses(ev, a, yes) && !ListPasses(ev, a, no);
    }
  }

  ghost predicate SamePermuted(lister: Lister, lister': Lister) {
    forall sel :: lister(sel).Some? == lister'(sel).Some?
      && (lister(sel).Some? ==> multiset(lister(sel).value) == multiset(lister'(sel).value))
  }

  predicate HopelessFor(ev: Evaluator, lister: Lister, a: Attempt, o: ObjectIdentifier) {
    var listed := lister(SelectorFor(a.sbpName, a.stage, o));
    listed.None? || Hopeless(ev, a, listed.value)
  }

  predicate UnanimousFor(ev: Evaluator, lister: Lister, a: Attempt, o: ObjectIdentifier) {
    var listed := lister(SelectorFor(a.sbpName, a.stage, o));
    listed.Some? && Unanimous(ev, a, listed.value)
  }

  /** One object is lost in any case, or for each object that is not lost all statuses agree. */
  predicate OrderFree(ev: Evaluator, lister: Lister, a: Attempt) {
    || a.stage.condition.None?
    || (exists o | o in Targets(ev, a) :: HopelessFor(ev, lister, a, o))
    || (forall o | o in Targets(ev, a) :: UnanimousFor(ev, lister, a, o))
  }

  ghost function Rearranged(ev: Evaluator, a: Attempt, lister: Lister, verdict: bool): Lister {
    sel => match lister(sel) case None => None case Some(css) => Some(Arranged(ev, a, css, verdict))
  }

  lemma SettledObject(ev: Evaluator, lister: Lister, lister': Lister, a: Attempt, o: ObjectIdentifier)
    requires SamePermuted(lister, lister') && (HopelessFor(ev, lister, a, o) || UnanimousFor(ev, lister, a, o))
    ensures ObjectPasses(ev, lister', a, o) == ObjectPasses(ev, lister, a, o)
    ensures HopelessFor(ev, lister, a, o) ==> !ObjectPasses(ev, lister, a, o)
  {
    var sel := SelectorFor(a.sbpName, a.stage, o);
    if lister(sel).Some? {
      VerdictOrderExactly(ev, a, lister(sel).value);
      assert multiset(lister'(sel).value) == multiset(lister(sel).value);
    }
  }

  lemma RearrangedVerdict(ev: Evaluator, lister: Lister, a: Attempt, o: ObjectIdentifier)
    requires !HopelessFor(ev, lister, a, o)
    ensures ObjectPasses(ev, Rearranged(ev, a, lister, true), a, o)
    ensures !UnanimousFor(ev, lister, a, o) ==> !ObjectPasses(ev, Rearranged(ev, a, lister, false), a, o)
  {
    var css := lister(SelectorFor(a.sbpName, a.stage, o)).value;
    PermutedMembers(css, Arranged(ev, a, css, true));
    PermutedMembers(css, Arranged(ev, a, css, false));
  }

  /** The gate answers the same for every order of every list exactly if the stage has no
      condition, the verdict on some filtered object is no in any order, or for every filtered
      object all statuses of the UID satisfy the condition. */
  lemma GateOrderExactly(ev: Evaluator, lister: Lister, a: Attempt)
    ensures (forall lister' | SamePermuted(lister, lister') :: GatePasses(ev, lister', a) == GatePasses(ev, lister, a))
       <==> OrderFree(ev, lister, a)
  {
    hide HopelessFor, UnanimousFor, ObjectPasses, Targets;
    if OrderFree(ev, lister, a) {
      forall lister' | SamePermuted(lister, lister')
        ensures GatePasses(ev, lister', a) == GatePasses(ev, lister, a)
      {
        forall o | o in Targets(ev, a) && (HopelessFor(ev, lister, a, o) || UnanimousFor(ev, lister, a, o))
          ensures ObjectPasses(ev, lister', a, o) == ObjectPasses(ev, lister, a, o)
          ensures HopelessFor(ev, lister, a, o) ==> !ObjectPasses(ev, lister, a, o)
        {
          SettledObject(ev, lister, lister', a, o);
        }
      }
    } else {
      var yes, no := Rearranged(ev, a, lister, true), Rearranged(ev, a, lister, false);
      assert SamePermuted(lister, yes) && SamePermuted(lister, no);
      forall o | o in Targets(ev, a)
        ensures ObjectPasses(ev, yes, a, o)
        ensures !UnanimousFor(ev, lister, a, o) ==> !ObjectPasses(ev, no, a, o)
      {
        RearrangedVerdict(ev, lister, a, o);
      }
      assert GatePasses(ev, yes, a) && !GatePasses(ev, no, a);
    }
  }

  /** So with one match per object the order does not matter. */
  lemma GateIgnoresListOrder(ev: Evaluator, lister: Lister, lister': Lister, a: Attempt)
    requires OneMatch(ev, lister, a) && SamePermuted(lister, lister')
    ensures GatePasses(ev, lister, a) == GatePasses(ev, lister', a)
  {
    assert OrderFree(ev, lister, a) by {
      forall o | o in Targets(ev, a)
        ensures HopelessFor(ev, lister, a, o) || UnanimousFor(ev, lister, a, o)
      {
      }
    }
    GateOrderExactly(ev, lister, a);
  }

  /** Tightening the filter keeps a passing gate passing, unless it filters everything out. */
  lemma StricterFilterKeepsPassing(ev: Evaluator, lister: Lister, a: Attempt, strict: Option<Expression>)
    requires Stricter(ev, strict, a.stage.filter)
    requires GatePasses(ev, lister, a)
    ensures var a' := a.(stage := a.stage.(filter := strict));
            GatePasses(ev, lister, a') <==> Targets(ev, a') != {}
  {
    var a' := a.(stage := a.stage.(filter := strict));
    StricterFiltersLess(ev, a.workload, strict, a.stage.filter);
    forall o | o in Targets(ev, a')
      ensures ObjectPasses(ev, lister, a', o)
    {
      assert ObjectPasses(ev, lister, a, o);
      assert SelectorFor(a.sbpName, a.stage, o) == SelectorFor(a.sbpName, a'.stage, o);
    }
  }
}
