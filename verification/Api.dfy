/** The objects the stager exchanges with the API server, the informer caches and the
    CEL evaluator, cut down to the fields the staging logic reads. */
module Api {

  datatype Option<+T> = None | Some(value: T)

  // CEL source text; it is never parsed here.
  type Expression = string

  type LabelSelector = map<string, string>

  datatype DownsyncPolicyClause = DownsyncPolicyClause(text: string)

  datatype Stage = Stage(
    name: string,
    clusterSelectors: seq<LabelSelector>,
    filter: Option<Expression>,
    condition: Option<Expression>)

  /** A StagedBindingPolicy, as the API server stores it and as a lister returns it. */
  datatype Sbp = Sbp(
    name: string,
    uid: string,
    generation: int,
    downsync: seq<DownsyncPolicyClause>,
    stages: seq<Stage>,
    activeStage: string)

  /** A BindingPolicy, with the UID of the StagedBindingPolicy that owns it. */
  datatype Bp = Bp(
    uid: string,
    ownerUid: string,
    downsync: seq<DownsyncPolicyClause>,
    clusterSelectors: seq<LabelSelector>)

  datatype ClusterClause = ClusterClause(
    group: string, version: string, resource: string, name: string, resourceVersion: string)

  datatype NamespaceClause = NamespaceClause(
    group: string, version: string, resource: string, namespace: string, name: string,
    resourceVersion: string)

  datatype Workload = Workload(clusterScope: seq<ClusterClause>, namespaceScope: seq<NamespaceClause>)

  const EMPTY_WORKLOAD := Workload([], [])

  /** A Binding: `owners` holds the UIDs of its owner references. */
  datatype Binding = Binding(name: string, generation: int, owners: seq<string>, workload: Workload)

  datatype CombinedStatus = CombinedStatus(
    namespace: string, name: string, generation: int, labels: map<string, string>, content: string)

  /** Version is always empty in the identifiers the stager builds, so it is not a field. */
  datatype ObjectIdentifier = ObjectIdentifier(
    group: string, kind: string, resource: string, namespace: string, name: string)

  // ---------------------------------------------------------------- CEL

  // A runtime object as an unstructured map, by its serialized text.
  type Unstructured = string

  datatype CelResult = EvalError | Boolean(b: bool) | NotBoolean

  /** The one variable bound when an expression is evaluated. */
  datatype Activation =
    | ForClause(clause: map<string, string>)
    | ForStatus(status: Unstructured)

  /** The CEL evaluator and the object serializer: arbitrary total functions. */
  datatype Evaluator = Evaluator(
    eval: (Expression, Activation) -> CelResult,
    serialize: CombinedStatus -> Option<Unstructured>)
  {
    // Anything but the boolean true counts as false: errors and non-boolean results do.
    predicate Test(e: Expression, a: Activation) {
      eval(e, a) == Boolean(true)
    }
  }
}
