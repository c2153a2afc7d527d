/** The handlers without faults and interference, as functions on the store alone. */
module Quiet {
  import opened Kubernetes
  import opened Desired
  import opened ApiServer
  import opened NetworkPoliciesSpec
  import opened DeveloperHubSpec
  import ReconcileSpec

  datatype Out = Fine(s: Store) | Bad(s: Store, error: Error) {
    predicate IsFailure() { Bad? }

    function PropagateFailure(): Out
      requires Bad?
    {
      this
    }

    function Extract(): Store
      requires Fine?
    {
      s
    }
  }

  // ---------- Objects ----------

  function Need(s: Store, k: Key): Out {
    if k in s then Fine(s) else Bad(s, NotFound)
  }

  function PutNew(s: Store, k: Key, obj: Obj): Out
    requires Fits(k.kind, obj.body)
  {
    if !HasNamespace(s, k) then Bad(s, NotFound)
    else if k in s then Bad(s, AlreadyExists)
    else Fine(s[k := obj])
  }

  function GetOrPut(s: Store, k: Key, obj: Obj): Out
    requires Fits(k.kind, obj.body)
  {
    if k in s then Fine(s) else PutNew(s, k, obj)
  }

  /** Creates the object, or gives the existing one its body. */
  function PutOrRepair(s: Store, k: Key, obj: Obj): Out
    requires Fits(k.kind, obj.body)
  {
    if k in s then Fine(s[k := s[k].(body := obj.body)]) else PutNew(s, k, obj)
  }

  // ---------- Namespaces ----------

  function Adopt(s: Store, ns: string): Store {
    var k := NamespaceKey(ns);
    if k in s then s[k := Adopted(s[k])] else s
  }

  function Check(s: Store, ns: string): Out {
    if NamespaceKey(ns) in s then Fine(Adopt(s, ns)) else Bad(s, NotFound)
  }

  function AdoptOrMake(s: Store, ns: string): Store {
    if NamespaceKey(ns) in s then Adopt(s, ns) else s[NamespaceKey(ns) := NEW_NAMESPACE]
  }

  function DropNamespace(s: Store, ns: string): Store {
    var k := NamespaceKey(ns);
    if k in s && Labelled(s[k].labels) then Without(s, k) else s
  }

  function RemoveKind(s: Store, kind: Kind, ns: string): Store {
    s - Matching(s, kind, ns).Keys
  }

  // ---------- The installer ----------

  /** A strict installer reports a namespace it had to make as missing. */
  function Home(s: Store, c: Component): Out {
    if NamespaceKey(c.namespace) !in s && c.strict then Bad(AdoptOrMake(s, c.namespace), NotFound)
    else Fine(AdoptOrMake(s, c.namespace))
  }

  function Subscribe(s: Store, c: Component): Out {
    var k := SubscriptionKey(c);
    if k in s then Fine(s[k := Repaired(c, s[k])])
    else
      var s1 :- GetOrPut(s, GroupKey(c), NEW_GROUP);
      PutNew(s1, k, CreateSubscriptionObject(c))
  }

  /** The plan the Subscription has resolved to, at the pinned version. */
  function PinnedPlan(s: Store, c: Component): Option<Key> {
    var k := SubscriptionKey(c);
    if k in s && s[k].body.status.Resolved? && s[k].body.status.currentCSV == c.csv
    then Some(PlanKey(c, s[k].body.status.installPlan))
    else None
  }

  function Approve(s: Store, c: Component): Out {
    var p := PinnedPlan(s, c);
    if p.None? then Fine(s)
    else if p.value !in s then Bad(s, NotFound)
    else Fine(s[p.value := Approved(s[p.value])])
  }

  function Install(s: Store, c: Component): Out {
    var s1 :- Home(s, c);
    var s2 :- Subscribe(s1, c);
    Approve(s2, c)
  }

  // ---------- Serverless logic ----------

  /** A workflow namespace that had to be made is reported as missing. */
  function Workflow(s: Store, ns: string): Out {
    if NamespaceKey(ns) in s then Fine(Adopt(s, ns)) else Bad(AdoptOrMake(s, ns), NotFound)
  }

  function Platforms(s: Store, spec: Spec): Out {
    var s1 :- GetOrPut(s, CLUSTER_PLATFORM_KEY, ClusterPlatform(spec.platform.namespace));
    GetOrPut(s1, PlatformKey(spec.platform.namespace), Platform(spec))
  }

  function LogicCRs(s: Store, spec: Spec): Out {
    var s1 :- Check(s, spec.platform.namespace);
    Platforms(s1, spec)
  }

  function Logic(s: Store, spec: Spec): Out {
    if !spec.serverlessLogic then Fine(s)
    else
      var s1 :- Workflow(s, spec.platform.namespace);
      var s2 :- Install(s1, LOGIC);
      var s3 :- Need(s2, CRDKey(CLUSTER_PLATFORM_CRD));
      LogicCRs(s3, spec)
  }

  // ---------- Knative ----------

  function KnativeResource(s: Store, ns: string, k: Key): Out
    requires k.kind in {KnativeEventing, KnativeServing}
  {
    var s1 := AdoptOrMake(s, ns);
    var q := GetOrPut(s1, k, KNATIVE_CR);
    Fine(q.s)
  }

  function KnativeCRs(s: Store): Out {
    var s1 :- Need(s, CRDKey(EVENTING_CRD));
    var s2 :- KnativeResource(s1, EVENTING, EVENTING_KEY);
    var s3 :- Need(s2, CRDKey(SERVING_CRD));
    KnativeResource(s3, SERVING, SERVING_KEY)
  }

  function Knative(s: Store, spec: Spec): Out {
    if !spec.serverless then Fine(s)
    else
      var s1 :- Install(s, SERVERLESS);
      KnativeCRs(s1)
  }

  // ---------- RHDH ----------

  /** The names in the order they are visited, without the dynamic plugins. */
  function Mounted(names: seq<string>): seq<string> {
    if names == [] then []
    else (if names[0] != DYNAMIC_PLUGINS then [names[0]] else []) + Mounted(names[1..])
  }

  function ConfigMaps(s: Store, names: seq<string>, dataKeys: map<string, string>, i: Inputs): Out
    requires forall n :: n in names ==> n in dataKeys
    decreases |names|
  {
    if names == [] then Fine(s)
    else
      var n := names[0];
      var s1 :- GetOrPut(s, ConfigMapKey(i.rhdh.namespace, n), NewConfigMap(dataKeys[n], TextOf(n, i)));
      ConfigMaps(s1, names[1..], dataKeys, i)
  }

  function InputsOf(s: Store, spec: Spec): Inputs
    requires CLUSTER_INGRESS_KEY in s
  {
    Inputs(s[CLUSTER_INGRESS_KEY].body.domain, spec.platform.namespace, spec.tektonEnabled, spec.argoCDEnabled, spec.rhdh)
  }

  /** The names of a map in some order. */
  ghost predicate IsOrder(names: seq<string>, all: set<string>) {
    && (forall n :: n in names <==> n in all)
    && (forall i, j :: 0 <= i < j < |names| ==> names[i] != names[j])
  }

  function HubCRs(s: Store, spec: Spec, names: seq<string>): Out {
    var s1 :- Need(s, CRDKey(BACKSTAGE_CRD));
    GetOrPut(s1, BackstageKey(spec.rhdh), NewBackstage(Mounted(names)))
  }

  function Hub(s: Store, spec: Spec, names: seq<string>): Out
    requires forall n :: n in names ==> n in CONFIG_MAPS
  {
    if !spec.rhdh.installOperator then Fine(s)
    else
      var s1 :- Install(s, RHDH);
      var s2 :- Need(s1, CLUSTER_INGRESS_KEY);
      var s3 :- GetOrPut(s2, SecretKey(spec.rhdh.namespace), NPMRC);
      var s4 :- ConfigMaps(s3, names, CONFIG_MAPS, InputsOf(s2, spec));
      HubCRs(s4, spec, names)
  }

  // ---------- Network policies ----------

  function Policies(s: Store, errors: Errors, names: seq<string>, n: Namespaces, monitoring: bool): (Store, Errors)
    decreases |names|
  {
    if names == [] then (s, errors)
    else if !Applicable(names[0], monitoring) then Policies(s, errors, names[1..], n, monitoring)
    else
      var q := PutOrRepair(s, PolicyKey(n.workflow, names[0]), Wanted(names[0], n));
      Policies(q.s, if q.Bad? then errors[names[0] := q.error] else errors, names[1..], n, monitoring)
  }

  function PolicyStage(s: Store, errors: Errors, spec: Spec): (Out, Errors) {
    match Check(s, spec.platform.namespace)
    case Bad(s1, e) => (Bad(s1, e), errors)
    case Fine(s1) =>
      var (s2, errors2) := Policies(s1, errors, NETWORK_POLICIES, NamespacesOf(spec), spec.platform.monitoring);
      (if errors2 == map[] then Fine(s2) else Bad(s2, Other), errors2)
  }

  // ---------- GitOps ----------

  function Tasks(s: Store, names: seq<string>, ns: string): Out
    decreases |names|
  {
    if names == [] then Fine(s)
    else
      var s1 :- GetOrPut(s, TaskKey(ns, names[0]), NewTask(names[0]));
      Tasks(s1, names[1..], ns)
  }

  function PipelineOnce(s: Store, ns: string): Out {
    if PipelineKey(ns) in s then Fine(s) else Bad(PutNew(s, PipelineKey(ns), PIPELINE).s, NotFound)
  }

  function GitOpsOn(s: Store, ns: string): Out {
    var s1 :- Need(s, CRDKey(APP_PROJECT_CRD));
    var s2 :- PutOrRepair(s1, AppProjectKey(ns), APP_PROJECT);
    var s3 :- Need(s2, CRDKey(TASK_CRD));
    var s4 :- Tasks(s3, TASKS, ns);
    var s5 :- Need(s4, CRDKey(PIPELINE_CRD));
    PipelineOnce(s5, ns)
  }

  function RemoveIfSingle(s: Store, kind: Kind, ns: string): Store {
    if NamespaceKey(ns) !in s then s
    else
      var s1 := Adopt(s, ns);
      if |Matching(s1, kind, ns)| == 1 then RemoveKind(s1, kind, ns) else s1
  }

  function RemoveTasks(s: Store, ns: string): Store {
    if NamespaceKey(ns) !in s then s else RemoveKind(Adopt(s, ns), Task, ns)
  }

  function GitOpsOff(s: Store, ns: string): Store {
    RemoveTasks(RemoveIfSingle(RemoveIfSingle(s, AppProject, ns), Pipeline, ns), ns)
  }

  function GitOps(s: Store, spec: Spec): Out {
    if spec.argoCDEnabled && spec.tektonEnabled then GitOpsOn(s, spec.argoCDNamespace)
    else Fine(GitOpsOff(s, spec.argoCDNamespace))
  }

  // ---------- Clean-up ----------

  function KnativeGone(s: Store): Store {
    DropNamespace(DropNamespace(DropNamespace(s, EVENTING), SERVING), SERVERLESS.namespace)
  }

  function LogicGone(s: Store, ns: string): Store {
    DropNamespace(RemoveKind(RemoveKind(s, SonataFlowPlatform, ns), SonataFlowClusterPlatform, ns), LOGIC.namespace)
  }

  function HubGone(s: Store, ns: string): Store {
    if NamespaceKey(ns) !in s then DropNamespace(s, RHDH.namespace)
    else
      var s1 := Adopt(s, ns);
      var n := |Matching(s1, Backstage, ns)|;
      if n == 0 then s1
      else DropNamespace(if n == 1 then DropNamespace(s1, ns) else s1, RHDH.namespace)
  }

  function CleanedUp(s: Store, spec: Spec): Store {
    HubGone(LogicGone(KnativeGone(s), spec.platform.namespace), spec.rhdh.namespace)
  }

  // ---------- The pass ----------

  function Stages(s: Store, errors: Errors, spec: Spec, names: seq<string>)
    : (Store, Errors, Option<ReconcileSpec.StageFailure>)
    requires forall n :: n in names ==> n in CONFIG_MAPS
  {
    var q1 := Logic(s, spec);
    if q1.Bad? then (q1.s, errors, Some(ReconcileSpec.AtStage(1, q1.error)))
    else
      var q2 := Knative(q1.s, spec);
      if q2.Bad? then (q2.s, errors, Some(ReconcileSpec.AtStage(2, q2.error)))
      else
        var q3 := Hub(q2.s, spec, names);
        if q3.Bad? then (q3.s, errors, Some(ReconcileSpec.AtStage(3, q3.error)))
        else
          var (q4, errors4) := PolicyStage(q3.s, errors, spec);
          if q4.Bad? then (q4.s, errors4, Some(ReconcileSpec.AtStage(4, q4.error)))
          else
            var q5 := GitOps(q4.s, spec);
            (q5.s, errors4, if q5.Bad? then Some(ReconcileSpec.AtStage(5, q5.error)) else None)
  }

  /** The resource as the stages see it. */
  function Started(cr: Orchestrator): Orchestrator {
    cr.(finalizers := cr.finalizers + {FINALIZER},
        status := if cr.status.conditions == [] then Status(Running, [ReconcileSpec.STARTING]) else cr.status)
  }

  function Ended(cr: Orchestrator, failed: Option<ReconcileSpec.StageFailure>): Orchestrator {
    match failed
    case None =>
      cr.(status := Status(Completed, ReconcileSpec.SetStatusCondition(cr.status.conditions, ReconcileSpec.DONE)))
    case Some(f) =>
      if ReconcileSpec.Waits(f) then cr
      else cr.(status := Status(Failed, ReconcileSpec.SetStatusCondition(cr.status.conditions, ReconcileSpec.DegradingCondition(f))))
  }
}
