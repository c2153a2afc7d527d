/** The abstract cluster the operator works against: objects, the faults and the
    interference a caller may meet, and the log of what the operator did. */
module Kubernetes {

  // ---------- Errors ----------

  /** The error classes the operator tells apart.  An aggregate is none of the others:
      asking whether it is NotFound answers no. */
  datatype Error =
    | NotFound
    | AlreadyExists
    | Conflict
    | Invalid
    | NoMatch
    | Other
    | Aggregate(errors: seq<Error>)

  // ---------- Objects ----------

  datatype Kind =
    | Namespace
    | OperatorGroup
    | Subscription
    | InstallPlan
    | CustomResourceDefinition
    | ClusterIngress
    | SonataFlowClusterPlatform
    | SonataFlowPlatform
    | KnativeEventing
    | KnativeServing
    | Secret
    | ConfigMap
    | Backstage
    | NetworkPolicy
    | AppProject
    | Task
    | Pipeline

  datatype Key = Key(kind: Kind, ns: string, name: string)

  predicate ClusterScoped(kind: Kind) {
    kind in {Namespace, CustomResourceDefinition, ClusterIngress, SonataFlowClusterPlatform}
  }

  /** The key a client request resolves to: the namespace of a cluster-scoped kind is dropped. */
  function At(kind: Kind, ns: string, name: string): Key {
    Key(kind, if ClusterScoped(kind) then "" else ns, name)
  }

  function NamespaceKey(name: string): Key {
    Key(Namespace, "", name)
  }

  type Labels = map<string, string>

  const CREATED_BY := "rhdh.redhat.com/created-by"
  const ORCHESTRATOR := "orchestrator"

  function OrchestratorLabel(): Labels {
    map[CREATED_BY := ORCHESTRATOR]
  }

  predicate Labelled(labels: Labels) {
    CREATED_BY in labels && labels[CREATED_BY] == ORCHESTRATOR
  }

  datatype Approval = Manual | Automatic

  datatype SubscriptionSpec = SubscriptionSpec(
    channel: string, approval: Approval, source: string, startingCSV: string,
    sourceNamespace: string, package: string)

  /** OLM fills in both fields together when it resolves the subscription. */
  datatype SubscriptionStatus = Unresolved | Resolved(installPlan: string, currentCSV: string)

  datatype PolicyPeer = FromNamespace(name: string) | FromPodsOfThisNamespace

  /** A policy on all pods of its namespace that concerns incoming traffic only: a list of
      rules, each a list of peers. */
  datatype PolicySpec = PolicySpec(ingress: seq<seq<PolicyPeer>>)

  datatype Persistence = Persistence(
    secretName: string, userKey: string, passwordKey: string,
    serviceName: string, serviceNamespace: string, database: string)

  datatype Destination = Destination(name: string, namespace: string, server: string)

  datatype Broker = Broker(name: string, namespace: string)

  datatype Resources = Resources(cpu: string, memory: string)

  datatype PlatformSpec = PlatformSpec(
    limits: Resources, requests: Resources, monitoring: bool,
    dataIndex: Persistence, jobService: Persistence, broker: Option<Broker>)

  datatype RHDHConfig = RHDHConfig(
    name: string, namespace: string, installOperator: bool, devMode: bool,
    notifications: bool, port: int, sender: string, recipient: string)

  /** The rendered text of a configuration file: an opaque function of the template's inputs. */
  datatype Text =
    | Rendered(template: string, clusterDomain: string, workflowNamespace: string,
               argoCD: bool, tekton: bool, rhdh: RHDHConfig)
    | Literal(text: string)

  datatype Body =
    | Blank
    | SubscriptionBody(spec: SubscriptionSpec, status: SubscriptionStatus)
    | InstallPlanBody(csv: string, approved: bool)
    | IngressBody(domain: string)
    | ClusterPlatformBody(platform: string, platformNamespace: string)
    | PlatformBody(platformSpec: PlatformSpec)
    | DataBody(data: map<string, Text>)
    | BackstageBody(configMaps: seq<string>, dynamicPlugins: string, secrets: seq<string>, replicas: int)
    | PolicyBody(policy: PolicySpec)
    | AppProjectBody(destinations: seq<Destination>, sourceRepos: seq<string>)
    | Manifest(text: string)

  datatype Obj = Obj(labels: Labels, body: Body)

  predicate Fits(kind: Kind, body: Body) {
    match kind
    case Namespace | OperatorGroup | CustomResourceDefinition | KnativeEventing | KnativeServing => body.Blank?
    case Subscription => body.SubscriptionBody?
    case InstallPlan => body.InstallPlanBody?
    case ClusterIngress => body.IngressBody?
    case SonataFlowClusterPlatform => body.ClusterPlatformBody?
    case SonataFlowPlatform => body.PlatformBody?
    case Secret | ConfigMap => body.DataBody?
    case Backstage => body.BackstageBody?
    case NetworkPolicy => body.PolicyBody?
    case AppProject => body.AppProjectBody?
    case Task | Pipeline => body.Manifest?
  }

  type Store = s: map<Key, Obj> | forall k :: k in s ==> Fits(k.kind, s[k].body)

  // ---------- The Orchestrator custom resource ----------

  datatype Option<+T> = None | Some(value: T)

  datatype PostgresConfig = PostgresConfig(
    name: string, namespace: string, secretName: string, userKey: string, passwordKey: string, database: string)

  datatype PlatformConfig = PlatformConfig(
    namespace: string, limits: Resources, requests: Resources, broker: Broker, monitoring: bool)

  datatype Spec = Spec(
    serverlessLogic: bool, serverless: bool, rhdh: RHDHConfig, postgres: PostgresConfig,
    platform: PlatformConfig, tektonEnabled: bool, argoCDEnabled: bool, argoCDNamespace: string)

  datatype Phase = NoPhase | Running | Completed | Failed

  datatype ConditionStatus = True | False | Unknown

  datatype Condition = Condition(ctype: string, status: ConditionStatus, reason: string, cause: Option<Error>)

  datatype Status = Status(phase: Phase, conditions: seq<Condition>)

  datatype Orchestrator = Orchestrator(spec: Spec, deleting: bool, finalizers: set<string>, status: Status)

  const FINALIZER := "rhdh.redhat.com/orchestrator-cleanup"

  // ---------- What one API call may meet ----------

  /** One act of somebody else (OLM, a user, another worker of this operator).  EditCR leaves the
      status of the resource as it is; PutCR replaces the resource as a whole. */
  datatype Act =
    | Put(key: Key, obj: Obj)
    | Drop(gone: Key)
    | EditCR(spec: Spec, deleting: bool, finalizers: set<string>)
    | PutCR(cr: Orchestrator)
    | DropCR

  /** A rejected call has no effect; a lost one takes effect, but the caller gets an error. */
  datatype Fault = Healthy | Rejected(error: Error) | Lost(error: Error)

  ghost predicate IsEnumeration(q: seq<Key>, s: set<Key>) {
    && (forall k :: k in q <==> k in s)
    && (forall i, j :: 0 <= i < j < |q| ==> q[i] != q[j])
  }

  /** As many items as the set has members. */
  lemma {:induction false} OrderSize<T>(q: seq<T>, all: set<T>)
    requires (forall x :: x in q <==> x in all) && forall i, j :: 0 <= i < j < |q| ==> q[i] != q[j]
    ensures |q| == |all|
    decreases |q|
  {
    if q == [] {
      assert all == {};
    } else {
      var rest := q[1..];
      forall x ensures x in rest <==> x in all - {q[0]} {
        if x in all - {q[0]} {
          var i :| 0 <= i < |q| && q[i] == x;
          assert rest[i - 1] == x;
        }
      }
      OrderSize(rest, all - {q[0]});
    }
  }

  ghost function Enumerate(s: set<Key>): (q: seq<Key>)
    ensures IsEnumeration(q, s)
  {
    if s == {} then [] else var k :| k in s; [k] + Enumerate(s - {k})
  }

  /** The order in which a set of objects is listed, or a Go map iterated: any order at all. */
  type Order = f: set<Key> -> seq<Key> | forall s :: IsEnumeration(f(s), s)
    ghost witness (s: set<Key>) => Enumerate(s)

  /** What happens around one call: what others do before it, its fault, the order of its list. */
  datatype Turn = Turn(others: seq<Act>, fault: Fault, order: Order)

  type Oracle = nat -> Turn

  /** No faults and no interference. */
  ghost predicate Calm(o: Oracle) {
    forall t: nat {:trigger o(t)} :: o(t).others == [] && o(t).fault == Healthy
  }

  /** No interference; faults are allowed. */
  ghost predicate Alone(o: Oracle) {
    forall t: nat {:trigger o(t)} :: o(t).others == []
  }

  /** Nobody but the operator writes the status of the resource. */
  ghost predicate StatusIsOurs(o: Oracle) {
    forall t: nat, a {:trigger a in o(t).others} :: a in o(t).others ==> !a.PutCR?
  }

  /** The status is as it was, unless the resource is gone or somebody else writes statuses. */
  ghost predicate StatusKept(o: Oracle, before: Option<Orchestrator>, after: Option<Orchestrator>) {
    StatusIsOurs(o) && after.Some? ==> before.Some? && after.value.status == before.value.status
  }

  // ---------- The log of one worker ----------

  /** A call on a cluster object. */
  datatype Call =
    | LookUp(key: Key)
    | Listing(kind: Kind, ns: string)
    | Creation(key: Key)
    | Change(key: Key)
    | Deletion(key: Key)

  /** A call that fails is noted as refused, unless NotFound is an answer to it. */
  datatype Event =
    | PassStarted(cr: Orchestrator)
    | Refetched(cr: Orchestrator)
    | WatchStarted
    | Found(key: Key, obj: Obj)
    | Missing(key: Key)
    | Listed(kind: Kind, ns: string, items: map<Key, Obj>)
    | Created(key: Key, obj: Obj)
    | Updated(key: Key, was: Obj, obj: Obj)
    | Deleted(key: Key)
    | Refused(call: Call, error: Error)
    | Attempted(phase: Phase)
    | CRWritten(seen: Orchestrator, written: Orchestrator)

  /** Newest event last. */
  datatype Log = Start | Snoc(prev: Log, event: Event)

  datatype World = World(store: Store, cr: Option<Orchestrator>, clock: nat, log: Log)

  // ---------- Results ----------

  /** What a call or a handler returns, together with the world it leaves. */
  datatype Ret<T> = Ok(w: World, value: T) | Fail(w: World, error: Error) {
    predicate IsFailure() { Fail? }

    function PropagateFailure<U>(): Ret<U>
      requires Fail?
    {
      Fail(w, error)
    }

    function Extract(): (World, T)
      requires Ok?
    {
      (w, value)
    }

    function Outcome(): Result<T> {
      match this
      case Ok(_, v) => Success(v)
      case Fail(_, e) => Failure(e)
    }
  }

  datatype Result<T> = Success(value: T) | Failure(error: Error) {
    predicate IsFailure() { Failure? }

    function PropagateFailure<U>(): Result<U>
      requires Failure?
    {
      Failure(error)
    }

    function Extract(): T
      requires Success?
    {
      value
    }
  }

  /** A method's final state and result are the ones its specification gives. */
  ghost predicate Agrees<T>(spec: Ret<T>, w: World, r: Result<T>) {
    spec.w == w && r == spec.Outcome()
  }
}
