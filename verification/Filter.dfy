/** The stage filter: which objects of a Binding's workload the stage condition is checked on. */
module Filter {
  import opened Api

  /** What a filter expression sees of a cluster-scoped clause. */
  function ClusterClauseMap(c: ClusterClause): map<string, string> {
    map["group" := c.group, "version" := c.version, "resource" := c.resource, "name" := c.name,
        "resourceVersion" := c.resourceVersion]
  }

  /** What a filter expression sees of a namespaced clause; "group" carries the version. */
  function NamespaceClauseMap(c: NamespaceClause): map<string, string> {
    map["group" := c.version, "version" := c.version, "resource" := c.resource, "name" := c.name,
        "namespace" := c.namespace, "resourceVersion" := c.resourceVersion]
  }

  function ClusterIdentifier(c: ClusterClause): ObjectIdentifier {
    ObjectIdentifier(c.group, c.resource, c.resource, "", c.name)
  }

  function NamespaceIdentifier(c: NamespaceClause): ObjectIdentifier {
    ObjectIdentifier(c.group, c.resource, c.resource, c.namespace, c.name)
  }

  predicate Admits(ev: Evaluator, filter: Option<Expression>, clause: map<string, string>) {
    filter.None? || ev.Test(filter.value, ForClause(clause))
  }

  /** The objects of the clauses the filter admits. */
  function Filtered(ev: Evaluator, w: Workload, filter: Option<Expression>): set<ObjectIdentifier> {
    (set c | c in w.clusterScope && Admits(ev, filter, ClusterClauseMap(c)) :: ClusterIdentifier(c))
    + (set c | c in w.namespaceScope && Admits(ev, filter, NamespaceClauseMap(c)) :: NamespaceIdentifier(c))
  }

  /** o is the object of a clause that the filter, if there is one, is the boolean true of. A
      cluster-scoped clause stands for an object without a namespace. */
  ghost predicate Selected(ev: Evaluator, w: Workload, filter: Option<Expression>, o: ObjectIdentifier) {
    || (exists c :: c in w.clusterScope
          && o == ObjectIdentifier(group := c.group, kind := c.resource, resource := c.resource, namespace := "", name := c.name)
          && (filter.Some? ==> ev.eval(filter.value, ForClause(
                map["group" := c.group, "version" := c.version, "resource" := c.resource, "name" := c.name,
                    "resourceVersion" := c.resourceVersion])) == Boolean(true)))
    || (exists c :: c in w.namespaceScope
          && o == ObjectIdentifier(group := c.group, kind := c.resource, resource := c.resource, namespace := c.namespace, name := c.name)
          && (filter.Some? ==> ev.eval(filter.value, ForClause(
                map["group" := c.version, "version" := c.version, "resource" := c.resource, "name" := c.name,
                    "namespace" := c.namespace, "resourceVersion" := c.resourceVersion])) == Boolean(true)))
  }

  /** The filtered objects are exactly the selected ones. */
  lemma FilteredExactly(ev: Evaluator, w: Workload, filter: Option<Expression>, o: ObjectIdentifier)
    ensures o in Filtered(ev, w, filter) <==> Selected(ev, w, filter, o)
  {
  }

  /** One loop per scope, skipping the clauses that the filter rejects. */
  method FilterWorkload(ev: Evaluator, w: Workload, expression: Option<Expression>)
    returns (filtered: set<ObjectIdentifier>)
    ensures filtered == Filtered(ev, w, expression)
    ensures forall o :: o in filtered <==> Selected(ev, w, expression, o)
  {
    hide Selected;
    filtered := {};
    for i := 0 to |w.clusterScope|
      invariant filtered == Filtered(ev, Workload(w.clusterScope[..i], []), expression)
    {
      var c := w.clusterScope[i];
      assert w.clusterScope[..i + 1] == w.clusterScope[..i] + [c];
      if expression.Some? && !ev.Test(expression.value, ForClause(ClusterClauseMap(c))) {
        continue;
      }
      filtered := filtered + {ClusterIdentifier(c)};
    }
    assert w.clusterScope[..|w.clusterScope|] == w.clusterScope;
    for i := 0 to |w.namespaceScope|
      invariant filtered == Filtered(ev, Workload(w.clusterScope, w.namespaceScope[..i]), expression)
    {
      var c := w.namespaceScope[i];
      assert w.namespaceScope[..i + 1] == w.namespaceScope[..i] + [c];
      if expression.Some? && !ev.Test(expression.value, ForClause(NamespaceClauseMap(c))) {
        continue;
      }
      filtered := filtered + {NamespaceIdentifier(c)};
    }
    assert w.namespaceScope[..|w.namespaceScope|] == w.namespaceScope;
    forall o
      ensures o in filtered <==> Selected(ev, w, expression, o)
    {
      FilteredExactly(ev, w, expression, o);
    }
  }

  /** Only which clauses occur matters: not their order, not how often they are repeated. */
  lemma FilterIgnoresOrder(ev: Evaluator, w: Workload, w': Workload, filter: Option<Expression>)
    requires forall c :: c in w.clusterScope <==> c in w'.clusterScope
    requires forall c :: c in w.namespaceScope <==> c in w'.namespaceScope
    ensures Filtered(ev, w, filter) == Filtered(ev, w', filter)
  {
    forall o
      ensures o in Filtered(ev, w, filter) <==> o in Filtered(ev, w', filter)
    {
    }
  }

  /** No filter is the same as a filter that is true of every clause. */
  lemma NoFilterAdmitsAll(ev: Evaluator, w: Workload, always: Expression)
    requires forall m :: ev.Test(always, ForClause(m))
    ensures Filtered(ev, w, None) == Filtered(ev, w, Some(always))
  {
    forall o
      ensures o in Filtered(ev, w, None) <==> o in Filtered(ev, w, Some(always))
    {
    }
  }

  /** `strict` admits no clause that `loose` rejects. */
  ghost predicate Stricter(ev: Evaluator, strict: Option<Expression>, loose: Option<Expression>) {
    forall m :: Admits(ev, strict, m) ==> Admits(ev, loose, m)
  }

  lemma StricterFiltersLess(ev: Evaluator, w: Workload, strict: Option<Expression>, loose: Option<Expression>)
    requires Stricter(ev, strict, loose)
    ensures Filtered(ev, w, strict) <= Filtered(ev, w, loose)
  {
  }

  /** No filter can tell two namespaced clauses of different API groups apart. */
  lemma NamespacedFilterIgnoresGroup(ev: Evaluator, c: NamespaceClause, group: string, filter: Option<Expression>)
    ensures Admits(ev, filter, NamespaceClauseMap(c.(group := group))) == Admits(ev, filter, NamespaceClauseMap(c))
    ensures NamespaceClauseMap(c)["group"] == c.group <==> c.group == c.version
  {
  }

  /** The view of a namespaced clause with another value under "group". */
  function ViewWithGroup(c: NamespaceClause, group: string): map<string, string> {
    NamespaceClauseMap(c)["group" := group]
  }

  /** The filtered objects if "group" held the API group in both scopes. */
  function FilteredAsIntended(ev: Evaluator, w: Workload, filter: Option<Expression>): set<ObjectIdentifier> {
    (set c | c in w.clusterScope && Admits(ev, filter, ClusterClauseMap(c)) :: ClusterIdentifier(c))
    + (set c | c in w.namespaceScope && Admits(ev, filter, ViewWithGroup(c, c.group)) :: NamespaceIdentifier(c))
  }

  /** What the filter says of a namespaced clause does not depend on "group". */
  ghost predicate IgnoresGroup(ev: Evaluator, filter: Option<Expression>) {
    forall c, g :: Admits(ev, filter, ViewWithGroup(c, g)) == Admits(ev, filter, NamespaceClauseMap(c))
  }

  /** The misplaced version is harmless on every workload exactly for the filters whose verdict
      on namespaced clauses does not depend on "group" at all. */
  lemma GroupQuirkExact(ev: Evaluator, filter: Option<Expression>)
    ensures (forall w :: Filtered(ev, w, filter) == FilteredAsIntended(ev, w, filter)) <==> IgnoresGroup(ev, filter)
  {
    if forall w :: Filtered(ev, w, filter) == FilteredAsIntended(ev, w, filter) {
      forall c, g
        ensures Admits(ev, filter, ViewWithGroup(c, g)) == Admits(ev, filter, NamespaceClauseMap(c))
      {
        var c' := c.(group := g);
        var w := Workload([], [c']);
        assert c' in w.namespaceScope;
        assert NamespaceClauseMap(c') == NamespaceClauseMap(c);
        assert NamespaceIdentifier(c') in Filtered(ev, w, filter) <==> Admits(ev, filter, NamespaceClauseMap(c));
        assert NamespaceIdentifier(c') in FilteredAsIntended(ev, w, filter) <==> Admits(ev, filter, ViewWithGroup(c', g));
      }
    }
  }
}
