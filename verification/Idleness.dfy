/** Handlers that find everything as they want it: they read, write nothing, and take so many calls. */
module Idleness {
  import opened Kubernetes
  import opened Desired
  import opened ApiServer
  import opened NetworkPoliciesSpec
  import opened DeveloperHubSpec
  import opened Quiet
  import opened Goals
  import opened Fixpoint
  import opened Solitude
  import Convergence
  import Kube = KubeOperationsSpec
  import LogicSpec = ServerlessLogicSpec
  import KnativeSpec
  import GitOpsSpec
  import ReconcileSpec

  // ---------- Reading ----------

  /** A read, or a call that is refused. */
  predicate IsRead(e: Event) {
    e.Found? || e.Missing? || e.Listed? || e.Refused?
  }

  /** Between the two logs there are only reads, and calls that are refused: no write that took effect. */
  predicate OnlyReads(l: Log, l': Log) {
    l' == l || (l'.Snoc? && IsRead(l'.event) && OnlyReads(l, l'.prev))
  }

  lemma {:induction false} OnlyReadsTwice(a: Log, b: Log, c: Log)
    requires OnlyReads(a, b) && OnlyReads(b, c)
    ensures OnlyReads(a, c)
  {
    if c != b {
      OnlyReadsTwice(a, b, c.prev);
    }
  }

  /** These calls are not disturbed. */
  ghost predicate Smooth(o: Oracle, start: nat, n: nat) {
    forall t: nat {:trigger o(t)} :: start <= t < start + n ==> o(t).fault.Healthy?
  }

  /** So many calls were made, and they only read. */
  ghost predicate JustReads(w: World, w': World, n: nat) {
    w'.store == w.store && w'.cr == w.cr && w'.clock == w.clock + n && OnlyReads(w.log, w'.log)
  }

  lemma ReadsTwice(a: World, b: World, c: World, m: nat, n: nat)
    requires JustReads(a, b, m) && JustReads(b, c, n)
    ensures JustReads(a, c, m + n)
  {
    OnlyReadsTwice(a.log, b.log, c.log);
  }

  lemma LoneGetReads(o: Oracle, w: World, k: Key)
    requires Alone(o)
    ensures JustReads(w, Get(o, w, k).w, 1)
    ensures o(w.clock).fault.Healthy? && k in w.store ==> Get(o, w, k).Ok? && Get(o, w, k).value == w.store[k]
    ensures o(w.clock).fault.Healthy? && k !in w.store ==> Get(o, w, k).Fail? && Get(o, w, k).error == NotFound
  {
    assert o(w.clock).others == [];
  }

  lemma IdleCheck(o: Oracle, w: World, ns: string)
    requires Alone(o) && o(w.clock).fault.Healthy? && Met(Marked(ns), w.store)
    ensures var r := Kube.CheckNamespaceExist(o, w, ns);
      r.Ok? && JustReads(w, r.w, 1)
  {
    hide Get, JustReads;
    LoneGetReads(o, w, NamespaceKey(ns));
  }

  lemma IdleCRD(o: Oracle, w: World, name: string)
    requires Alone(o) && o(w.clock).fault.Healthy? && CRDKey(name) in w.store
    ensures var r := Kube.CheckCRDExists(o, w, name);
      r.Ok? && JustReads(w, r.w, 1)
  {
    hide Get, JustReads;
    LoneGetReads(o, w, CRDKey(name));
  }

  lemma IdleGetOrCreate(o: Oracle, w: World, k: Key, obj: Obj)
    requires Alone(o) && o(w.clock).fault.Healthy? && k in w.store
    requires Fits(k.kind, obj.body) && Labelled(obj.labels) && k.kind !in {Namespace, OperatorGroup, Subscription}
    ensures var r := Kube.GetOrCreate(o, w, k, obj);
      r.Ok? && JustReads(w, r.w, 1)
  {
    hide Get, JustReads;
    LoneGetReads(o, w, k);
  }

  // ---------- The installer ----------

  function InstallCalls(s: Store, c: Component): nat {
    if PinnedPlan(s, c).Some? then 3 else 2
  }

  lemma IdleInstall(o: Oracle, w: World, c: Component)
    requires Alone(o) && c in COMPONENTS && InstallerSettled(w.store, c)
    requires Smooth(o, w.clock, InstallCalls(w.store, c))
    ensures var r := Kube.HandleOperatorInstallation(o, w, c);
      r.Ok? && JustReads(w, r.w, InstallCalls(w.store, c))
  {
    hide Get, JustReads, Kube.CheckNamespaceExist, COMPONENTS, CreateSubscriptionSpec;
    IdleCheck(o, w, c.namespace);
    var w1 := Kube.CheckNamespaceExist(o, w, c.namespace).w;
    ReadsKeep(w, w1, 1);
    LoneGetReads(o, w1, SubscriptionKey(c));
    var w2 := Get(o, w1, SubscriptionKey(c)).w;
    ReadsKeep(w1, w2, 1);
    ReadsTwice(w, w1, w2, 1, 1);
    var p := PinnedPlan(w.store, c);
    if p.Some? {
      LoneGetReads(o, w2, p.value);
      ReadsTwice(w, w2, Get(o, w2, p.value).w, 2, 1);
    }
  }

  lemma ReadsKeep(w: World, w': World, n: nat)
    requires JustReads(w, w', n)
    ensures w'.store == w.store && w'.cr == w.cr && w'.clock == w.clock + n && OnlyReads(w.log, w'.log)
  {
  }

  // ---------- Serverless logic ----------

  function LogicCalls(s: Store, spec: Spec): nat {
    if spec.serverlessLogic then InstallCalls(s, LOGIC) + 5 else 0
  }

  lemma IdleLogicCRs(o: Oracle, w: World, spec: Spec)
    requires Alone(o) && Smooth(o, w.clock, 3) && Met(Marked(spec.platform.namespace), w.store)
    requires CLUSTER_PLATFORM_KEY in w.store && PlatformKey(spec.platform.namespace) in w.store
    ensures var r := LogicSpec.HandleServerlessLogicCR(o, w, spec);
      r.Ok? && JustReads(w, r.w, 3)
  {
    hide JustReads, Kube.CheckNamespaceExist, Kube.GetOrCreate, PLATFORM_NAME;
    var ns := spec.platform.namespace;
    IdleCheck(o, w, ns);
    var w1 := Kube.CheckNamespaceExist(o, w, ns).w;
    ReadsKeep(w, w1, 1);
    IdleGetOrCreate(o, w1, CLUSTER_PLATFORM_KEY, ClusterPlatform(ns));
    var w2 := Kube.GetOrCreate(o, w1, CLUSTER_PLATFORM_KEY, ClusterPlatform(ns)).w;
    ReadsKeep(w1, w2, 1);
    ReadsTwice(w, w1, w2, 1, 1);
    IdleGetOrCreate(o, w2, PlatformKey(ns), Platform(spec));
    ReadsTwice(w, w2, Kube.GetOrCreate(o, w2, PlatformKey(ns), Platform(spec)).w, 2, 1);
  }

  lemma IdleLogic(o: Oracle, w: World, spec: Spec)
    requires Alone(o) && LogicSettled(w.store, spec) && Smooth(o, w.clock, LogicCalls(w.store, spec))
    ensures var r := LogicSpec.ReconcileServerlessLogic(o, w, spec);
      r.Ok? && JustReads(w, r.w, LogicCalls(w.store, spec))
  {
    hide Kube.HandleOperatorInstallation, Kube.CheckCRDExists, Kube.CheckNamespaceExist, InstallCalls;
    hide LogicSpec.HandleServerlessLogicCR, InstallerSettled, COMPONENTS, LOGIC, CLUSTER_PLATFORM_CRD, Met;
    if spec.serverlessLogic {
      hide JustReads;
      var ns, n := spec.platform.namespace, InstallCalls(w.store, LOGIC);
      Convergence.ComponentsBelong();
      IdleCheck(o, w, ns);
      var w1 := LogicSpec.EnsureWorkflowNamespace(o, w, ns).w;
      ReadsKeep(w, w1, 1);
      IdleInstall(o, w1, LOGIC);
      var w2 := Kube.HandleOperatorInstallation(o, w1, LOGIC).w;
      ReadsKeep(w1, w2, n);
      ReadsTwice(w, w1, w2, 1, n);
      IdleCRD(o, w2, CLUSTER_PLATFORM_CRD);
      var w3 := Kube.CheckCRDExists(o, w2, CLUSTER_PLATFORM_CRD).w;
      ReadsKeep(w2, w3, 1);
      ReadsTwice(w, w2, w3, n + 1, 1);
      IdleLogicCRs(o, w3, spec);
      ReadsTwice(w, w3, LogicSpec.HandleServerlessLogicCR(o, w3, spec).w, n + 2, 3);
    }
  }

  // ---------- Knative ----------

  /** What a success of the stage shows, and what lets it succeed: not the two resources. */
  predicate KnativeCertified(s: Store, spec: Spec) {
    spec.serverless ==>
      && InstallerSettled(s, SERVERLESS)
      && CRDKey(EVENTING_CRD) in s && Met(Marked(EVENTING), s)
      && CRDKey(SERVING_CRD) in s && Met(Marked(SERVING), s)
  }

  /** A missing resource takes one more call, to create it. */
  function ResourceCalls(s: Store, k: Key): nat {
    if k in s then 2 else 3
  }

  /** The attempt to create the resource, if there is one, is rejected. */
  ghost predicate CreationRejected(o: Oracle, start: nat, s: Store, k: Key) {
    k !in s ==> o(start + 2).fault.Rejected?
  }

  function KnativeCalls(s: Store, spec: Spec): nat {
    if spec.serverless then InstallCalls(s, SERVERLESS) + ResourceCalls(s, EVENTING_KEY) + ResourceCalls(s, SERVING_KEY) + 2 else 0
  }

  lemma RejectedCreation(o: Oracle, w: World, k: Key, obj: Obj)
    requires Alone(o) && Fits(k.kind, obj.body) && o(w.clock).fault.Rejected?
    ensures JustReads(w, Create(o, w, k, obj).w, 1)
  {
    assert o(w.clock).others == [];
  }

  lemma IdleResource(o: Oracle, w: World, ns: string, k: Key)
    requires Alone(o) && k.kind in {KnativeEventing, KnativeServing} && Met(Marked(ns), w.store)
    requires Smooth(o, w.clock, 2) && CreationRejected(o, w.clock, w.store, k)
    ensures var r := KnativeSpec.HandleKnativeResource(o, w, ns, k);
      r.Ok? && JustReads(w, r.w, ResourceCalls(w.store, k))
  {
    hide Get, Create, JustReads, Kube.CheckNamespaceExist;
    IdleCheck(o, w, ns);
    var w1 := Kube.CheckNamespaceExist(o, w, ns).w;
    ReadsKeep(w, w1, 1);
    LoneGetReads(o, w1, k);
    var w2 := Get(o, w1, k).w;
    ReadsKeep(w1, w2, 1);
    ReadsTwice(w, w1, w2, 1, 1);
    if k !in w.store {
      RejectedCreation(o, w2, k, KNATIVE_CR);
      ReadsTwice(w, w2, Create(o, w2, k, KNATIVE_CR).w, 2, 1);
    }
  }

  lemma IdleKnativeCRs(o: Oracle, w: World)
    requires Alone(o) && Met(Marked(EVENTING), w.store) && Met(Marked(SERVING), w.store)
    requires CRDKey(EVENTING_CRD) in w.store && CRDKey(SERVING_CRD) in w.store
    requires var n := ResourceCalls(w.store, EVENTING_KEY);
      && Smooth(o, w.clock, 3) && CreationRejected(o, w.clock + 1, w.store, EVENTING_KEY)
      && Smooth(o, w.clock + 1 + n, 3) && CreationRejected(o, w.clock + n + 2, w.store, SERVING_KEY)
    ensures var r := KnativeSpec.HandleKnativeCR(o, w);
      r.Ok? && JustReads(w, r.w, ResourceCalls(w.store, EVENTING_KEY) + ResourceCalls(w.store, SERVING_KEY) + 2)
  {
    KnativeKinds();
    hide Kube.CheckCRDExists, KnativeSpec.HandleKnativeResource, JustReads, EVENTING, SERVING, EVENTING_CRD, SERVING_CRD;
    hide EVENTING_KEY, SERVING_KEY, ResourceCalls, Met;
    var n := ResourceCalls(w.store, EVENTING_KEY);
    IdleCRD(o, w, EVENTING_CRD);
    var w1 := Kube.CheckCRDExists(o, w, EVENTING_CRD).w;
    ReadsKeep(w, w1, 1);
    IdleResource(o, w1, EVENTING, EVENTING_KEY);
    var w2 := KnativeSpec.HandleKnativeResource(o, w1, EVENTING, EVENTING_KEY).w;
    ReadsKeep(w1, w2, n);
    ReadsTwice(w, w1, w2, 1, n);
    IdleCRD(o, w2, SERVING_CRD);
    var w3 := Kube.CheckCRDExists(o, w2, SERVING_CRD).w;
    ReadsKeep(w2, w3, 1);
    ReadsTwice(w, w2, w3, n + 1, 1);
    IdleResource(o, w3, SERVING, SERVING_KEY);
    ReadsTwice(w, w3, KnativeSpec.HandleKnativeResource(o, w3, SERVING, SERVING_KEY).w, n + 2, ResourceCalls(w.store, SERVING_KEY));
  }

  /** The calls of the stage, but for the creation of missing resources, are not disturbed. */
  ghost predicate KnativeLets(o: Oracle, start: nat, s: Store) {
    var n, m := InstallCalls(s, SERVERLESS), ResourceCalls(s, EVENTING_KEY);
    && Smooth(o, start, n + 3) && CreationRejected(o, start + n + 1, s, EVENTING_KEY)
    && Smooth(o, start + n + 1 + m, 3) && CreationRejected(o, start + n + m + 2, s, SERVING_KEY)
  }

  lemma SmoothParts(o: Oracle, start: nat, a: nat, b: nat)
    requires Smooth(o, start, a + b)
    ensures Smooth(o, start, a) && Smooth(o, start + a, b)
  {
  }

  lemma IdleKnative(o: Oracle, w: World, spec: Spec)
    requires Alone(o) && KnativeCertified(w.store, spec) && (spec.serverless ==> KnativeLets(o, w.clock, w.store))
    ensures var r := KnativeSpec.ReconcileKnative(o, w, spec);
      r.Ok? && JustReads(w, r.w, KnativeCalls(w.store, spec))
  {
    hide Kube.HandleOperatorInstallation, KnativeSpec.HandleKnativeCR, InstallerSettled, COMPONENTS, SERVERLESS, Met;
    hide InstallCalls, ResourceCalls, EVENTING_KEY, SERVING_KEY, EVENTING_CRD, SERVING_CRD, EVENTING, SERVING, Smooth;
    hide CreationRejected;
    if spec.serverless {
      hide JustReads;
      Convergence.ComponentsBelong();
      var n := InstallCalls(w.store, SERVERLESS);
      SmoothParts(o, w.clock, n, 3);
      IdleInstall(o, w, SERVERLESS);
      var w1 := Kube.HandleOperatorInstallation(o, w, SERVERLESS).w;
      ReadsKeep(w, w1, n);
      IdleKnativeCRs(o, w1);
      ReadsTwice(w, w1, KnativeSpec.HandleKnativeCR(o, w1).w,
                 n, ResourceCalls(w.store, EVENTING_KEY) + ResourceCalls(w.store, SERVING_KEY) + 2);
    }
  }

  // ---------- RHDH ----------

  /** This look-up finds the object, or it fails, but not with NotFound. */
  ghost predicate PassedBy(o: Oracle, t: nat, there: bool) {
    (o(t).fault.Healthy? && there) || (o(t).fault.Rejected? && o(t).fault.error != NotFound)
  }

  lemma IdleConfigMap(o: Oracle, w: World, ns: string, name: string, dataKey: string, text: Text)
    requires Alone(o) && PassedBy(o, w.clock, ConfigMapKey(ns, name) in w.store)
    ensures var r := EnsureConfigMap(o, w, ns, name, dataKey, text);
      r.Ok? && JustReads(w, r.w, 1)
  {
    assert o(w.clock).others == [];
  }

  predicate ConfigMapsThere(s: Store, ns: string) {
    forall n :: n in CONFIG_MAPS ==> ConfigMapKey(ns, n) in s
  }

  /** No ConfigMap has to be there, as long as the look-ups of the missing ones fail. */
  ghost predicate ConfigMapsLet(o: Oracle, start: nat, n: nat, s: Store, ns: string) {
    forall t: nat :: start <= t < start + n ==> PassedBy(o, t, ConfigMapsThere(s, ns))
  }

  lemma {:induction false} IdleConfigMaps(o: Oracle, w: World, names: seq<string>, i: Inputs)
    requires Alone(o) && forall n :: n in names ==> n in CONFIG_MAPS
    requires ConfigMapsLet(o, w.clock, |names|, w.store, i.rhdh.namespace)
    ensures var r := EnsureConfigMaps(o, w, names, CONFIG_MAPS, i);
      r.Ok? && JustReads(w, r.w, |names|)
    decreases |names|
  {
    hide TextOf, EnsureConfigMap, CONFIG_MAPS, DYNAMIC_PLUGINS;
    if names != [] {
      hide JustReads;
      var n := names[0];
      assert PassedBy(o, w.clock, ConfigMapsThere(w.store, i.rhdh.namespace));
      IdleConfigMap(o, w, i.rhdh.namespace, n, CONFIG_MAPS[n], TextOf(n, i));
      var w1 := EnsureConfigMap(o, w, i.rhdh.namespace, n, CONFIG_MAPS[n], TextOf(n, i)).w;
      ReadsKeep(w, w1, 1);
      IdleConfigMaps(o, w1, names[1..], i);
      ReadsTwice(w, w1, EnsureConfigMaps(o, w1, names[1..], CONFIG_MAPS, i).w, 1, |names| - 1);
    }
  }

  lemma FourConfigMaps()
    ensures |CONFIG_MAPS| == 4 && |CONFIG_MAPS.Keys| == 4
  {
    assert |APP_CONFIG| == 15 && |APP_CONFIG_AUTH| == 20 && |APP_CONFIG_CATALOG| == 23 && |DYNAMIC_PLUGINS| == 20;
    assert APP_CONFIG_AUTH[0] == 'a' && DYNAMIC_PLUGINS[0] == 'd';
    assert CONFIG_MAPS.Keys == {APP_CONFIG, APP_CONFIG_AUTH, APP_CONFIG_CATALOG, DYNAMIC_PLUGINS};
  }

  lemma IdleGetOrCreateConfigMaps(o: Oracle, w: World, domain: string, ns: string, tekton: bool, argoCD: bool, rhdh: RHDHConfig)
    requires Alone(o) && ConfigMapsLet(o, w.clock, 4, w.store, rhdh.namespace)
    ensures var r := GetOrCreateConfigMaps(o, w, domain, ns, tekton, argoCD, rhdh);
      r.Ok? && JustReads(w, r.w, 4)
  {
    hide EnsureConfigMaps, CONFIG_MAPS, JustReads;
    var names := IterationOrder(o, w.clock, rhdh.namespace, CONFIG_MAPS.Keys);
    FourConfigMaps();
    OrderSize(names, CONFIG_MAPS.Keys);
    IdleConfigMaps(o, w, names, Inputs(domain, ns, argoCD, tekton, rhdh));
  }

  predicate HubCertified(s: Store, spec: Spec) {
    spec.rhdh.installOperator ==>
      && InstallerSettled(s, RHDH)
      && CLUSTER_INGRESS_KEY in s
      && SecretKey(spec.rhdh.namespace) in s
      && CRDKey(BACKSTAGE_CRD) in s
      && BackstageKey(spec.rhdh) in s
  }

  function HubCalls(s: Store, spec: Spec): nat {
    if spec.rhdh.installOperator then InstallCalls(s, RHDH) + 8 else 0
  }

  ghost predicate HubLets(o: Oracle, start: nat, s: Store, spec: Spec) {
    var n := InstallCalls(s, RHDH);
    Smooth(o, start, n + 2) && ConfigMapsLet(o, start + n + 2, 4, s, spec.rhdh.namespace) && Smooth(o, start + n + 6, 2)
  }

  lemma IdleHubCRs(o: Oracle, w: World, rhdh: RHDHConfig, configMaps: seq<string>)
    requires Alone(o) && Smooth(o, w.clock, 2) && CRDKey(BACKSTAGE_CRD) in w.store && BackstageKey(rhdh) in w.store
    ensures var r := HandleRHDHCR(o, w, rhdh, configMaps);
      r.Ok? && JustReads(w, r.w, 2)
  {
    hide JustReads, Kube.CheckCRDExists, Kube.GetOrCreate, BACKSTAGE_CRD;
    IdleCRD(o, w, BACKSTAGE_CRD);
    var w1 := Kube.CheckCRDExists(o, w, BACKSTAGE_CRD).w;
    ReadsKeep(w, w1, 1);
    IdleGetOrCreate(o, w1, BackstageKey(rhdh), NewBackstage(configMaps));
    ReadsTwice(w, w1, Kube.GetOrCreate(o, w1, BackstageKey(rhdh), NewBackstage(configMaps)).w, 1, 1);
  }

  lemma IdleHub(o: Oracle, w: World, spec: Spec)
    requires Alone(o) && HubCertified(w.store, spec) && (spec.rhdh.installOperator ==> HubLets(o, w.clock, w.store, spec))
    ensures var r := ReconcileRHDH(o, w, spec);
      r.Ok? && JustReads(w, r.w, HubCalls(w.store, spec))
  {
    hide Kube.HandleOperatorInstallation, GetClusterDomain, CreateRHDHSecret, GetOrCreateConfigMaps, HandleRHDHCR;
    hide InstallerSettled, InstallCalls, ConfigMapsLet, COMPONENTS, RHDH, BACKSTAGE_CRD, CLUSTER_INGRESS_KEY, REGISTRY_SECRET;
    if spec.rhdh.installOperator {
      hide JustReads;
      Convergence.ComponentsBelong();
      var n := InstallCalls(w.store, RHDH);
      SmoothParts(o, w.clock, n, 2);
      IdleInstall(o, w, RHDH);
      var w1 := Kube.HandleOperatorInstallation(o, w, RHDH).w;
      ReadsKeep(w, w1, n);
      IdleDomain(o, w1);
      var r2 := GetClusterDomain(o, w1);
      ReadsKeep(w1, r2.w, 1);
      ReadsTwice(w, w1, r2.w, n, 1);
      IdleSecret(o, r2.w, spec.rhdh.namespace);
      var w3 := CreateRHDHSecret(o, r2.w, spec.rhdh.namespace).w;
      ReadsKeep(r2.w, w3, 1);
      ReadsTwice(w, r2.w, w3, n + 1, 1);
      IdleGetOrCreateConfigMaps(o, w3, r2.value, spec.platform.namespace, spec.argoCDEnabled, spec.tektonEnabled, spec.rhdh);
      var r4 := GetOrCreateConfigMaps(o, w3, r2.value, spec.platform.namespace, spec.argoCDEnabled, spec.tektonEnabled, spec.rhdh);
      ReadsKeep(w3, r4.w, 4);
      ReadsTwice(w, w3, r4.w, n + 2, 4);
      IdleHubCRs(o, r4.w, spec.rhdh, r4.value);
      ReadsTwice(w, r4.w, HandleRHDHCR(o, r4.w, spec.rhdh, r4.value).w, n + 6, 2);
    }
  }

  lemma IdleDomain(o: Oracle, w: World)
    requires Alone(o) && o(w.clock).fault.Healthy? && CLUSTER_INGRESS_KEY in w.store
    ensures var r := GetClusterDomain(o, w);
      r.Ok? && JustReads(w, r.w, 1)
  {
    hide JustReads, Get;
    LoneGetReads(o, w, CLUSTER_INGRESS_KEY);
  }

  lemma IdleSecret(o: Oracle, w: World, ns: string)
    requires Alone(o) && o(w.clock).fault.Healthy? && SecretKey(ns) in w.store
    ensures var r := CreateRHDHSecret(o, w, ns);
      r.Ok? && JustReads(w, r.w, 1)
  {
    hide JustReads, Kube.GetOrCreate, REGISTRY_SECRET;
    IdleGetOrCreate(o, w, SecretKey(ns), NPMRC);
  }

  // ---------- Network policies ----------

  function LoopCalls(names: seq<string>, monitoring: bool): nat {
    if names == [] then 0 else (if Applicable(names[0], monitoring) then 1 else 0) + LoopCalls(names[1..], monitoring)
  }

  lemma IdlePolicy(o: Oracle, w: World, name: string, n: Namespaces)
    requires Alone(o) && o(w.clock).fault.Healthy? && Met(HasBody(PolicyKey(n.workflow, name), Wanted(name, n).body), w.store)
    ensures var r := EnsurePolicy(o, w, name, n);
      r.Ok? && JustReads(w, r.w, 1)
  {
    hide JustReads, Get, CreateIngress;
    LoneGetReads(o, w, PolicyKey(n.workflow, name));
  }

  lemma {:induction false} IdleLoop(o: Oracle, w: World, errors: Errors, names: seq<string>, spec: Spec)
    requires Alone(o) && PoliciesSettled(w.store, spec, names)
    requires Smooth(o, w.clock, LoopCalls(names, spec.platform.monitoring))
    ensures var r := HandleNetworkPolicy(o, w, errors, names, NamespacesOf(spec), spec.platform.monitoring);
      r.1 == errors && JustReads(w, r.0, LoopCalls(names, spec.platform.monitoring))
    decreases |names|
  {
    hide EnsurePolicy, Applicable, Wanted, Smooth, Met;
    var monitoring, n := spec.platform.monitoring, NamespacesOf(spec);
    if names != [] {
      var rest := LoopCalls(names[1..], monitoring);
      if Applicable(names[0], monitoring) {
        hide JustReads;
        assert Met(HasBody(PolicyKey(n.workflow, names[0]), Convergence.WantedPolicy(spec, names[0]).body), w.store);
        SmoothParts(o, w.clock, 1, rest);
        SmoothStart(o, w.clock, 1);
        IdlePolicy(o, w, names[0], n);
        var w1 := EnsurePolicy(o, w, names[0], n).w;
        ReadsKeep(w, w1, 1);
        IdleLoop(o, w1, errors, names[1..], spec);
        ReadsTwice(w, w1, HandleNetworkPolicy(o, w1, errors, names[1..], n, monitoring).0, 1, rest);
      } else {
        IdleLoop(o, w, errors, names[1..], spec);
      }
    }
  }

  lemma SmoothStart(o: Oracle, start: nat, n: nat)
    requires Smooth(o, start, n) && n > 0
    ensures o(start).fault.Healthy?
  {
  }

  function PolicyCalls(spec: Spec): nat {
    LoopCalls(NETWORK_POLICIES, spec.platform.monitoring) + 1
  }

  lemma IdlePolicyStage(o: Oracle, w: World, spec: Spec)
    requires Alone(o) && Smooth(o, w.clock, PolicyCalls(spec))
    requires Met(Marked(spec.platform.namespace), w.store) && PoliciesSettled(w.store, spec, NETWORK_POLICIES)
    ensures var r := ReconcileNetworkPolicy(o, w, map[], spec);
      r.0.Ok? && r.1 == map[] && JustReads(w, r.0.w, PolicyCalls(spec))
  {
    hide Kube.CheckNamespaceExist, HandleNetworkPolicy, JustReads, NETWORK_POLICIES, Met, LoopCalls, PoliciesSettled, Smooth;
    var n := LoopCalls(NETWORK_POLICIES, spec.platform.monitoring);
    SmoothParts(o, w.clock, 1, n);
    SmoothStart(o, w.clock, 1);
    IdleCheck(o, w, spec.platform.namespace);
    var w1 := Kube.CheckNamespaceExist(o, w, spec.platform.namespace).w;
    ReadsKeep(w, w1, 1);
    IdleLoop(o, w1, map[], NETWORK_POLICIES, spec);
    ReadsTwice(w, w1, HandleNetworkPolicy(o, w1, map[], NETWORK_POLICIES, NamespacesOf(spec), spec.platform.monitoring).0, 1, n);
  }

  // ---------- GitOps ----------

  predicate TasksThere(s: Store, ns: string) {
    forall n :: n in TASKS ==> TaskKey(ns, n) in s
  }

  /** No Task has to be there, as long as the look-ups fail. */
  ghost predicate TasksLet(o: Oracle, start: nat, n: nat, s: Store, ns: string) {
    forall t: nat :: start <= t < start + n ==> PassedBy(o, t, TasksThere(s, ns))
  }

  lemma IdleTask(o: Oracle, w: World, ns: string, name: string)
    requires Alone(o) && PassedBy(o, w.clock, TaskKey(ns, name) in w.store)
    ensures var r := Get(o, w, TaskKey(ns, name));
      (r.Fail? ==> r.error != NotFound) && JustReads(w, r.w, 1)
  {
    assert o(w.clock).others == [];
  }

  lemma {:induction false} IdleTasks(o: Oracle, w: World, names: seq<string>, ns: string)
    requires Alone(o) && TasksLet(o, w.clock, |names|, w.store, ns) && forall n :: n in names ==> n in TASKS
    ensures var r := GitOpsSpec.EnsureTasks(o, w, names, ns);
      r.Ok? && JustReads(w, r.w, |names|)
    decreases |names|
  {
    hide Get, TASKS;
    if names != [] {
      hide JustReads;
      assert PassedBy(o, w.clock, TasksThere(w.store, ns));
      IdleTask(o, w, ns, names[0]);
      var w1 := Get(o, w, TaskKey(ns, names[0])).w;
      ReadsKeep(w, w1, 1);
      IdleTasks(o, w1, names[1..], ns);
      ReadsTwice(w, w1, GitOpsSpec.EnsureTasks(o, w1, names[1..], ns).w, 1, |names| - 1);
    }
  }

  /** What a success of the stage shows: not the Tasks. */
  predicate GitOpsCertified(s: Store, spec: Spec) {
    var ns := spec.argoCDNamespace;
    if Convergence.GitOpsIsOn(spec) then
      && CRDKey(APP_PROJECT_CRD) in s && CRDKey(TASK_CRD) in s && CRDKey(PIPELINE_CRD) in s
      && Met(HasBody(AppProjectKey(ns), APP_PROJECT.body), s)
      && PipelineKey(ns) in s
    else
      GitOpsSettled(s, spec)
  }

  function GitOpsCalls(s: Store, spec: Spec): nat {
    if Convergence.GitOpsIsOn(spec) then 9
    else if NamespaceKey(spec.argoCDNamespace) in s then 6
    else 3
  }

  ghost predicate GitOpsLets(o: Oracle, start: nat, s: Store, spec: Spec) {
    if Convergence.GitOpsIsOn(spec) then
      Smooth(o, start, 3) && TasksLet(o, start + 3, 4, s, spec.argoCDNamespace) && Smooth(o, start + 7, 2)
    else
      Smooth(o, start, GitOpsCalls(s, spec))
  }

  lemma IdleProject(o: Oracle, w: World, ns: string)
    requires Alone(o) && Smooth(o, w.clock, 2)
    requires CRDKey(APP_PROJECT_CRD) in w.store && Met(HasBody(AppProjectKey(ns), APP_PROJECT.body), w.store)
    ensures var r := GitOpsSpec.HandleArgoCDProject(o, w, ns);
      r.Ok? && JustReads(w, r.w, 2)
  {
    hide JustReads, Get, Kube.CheckCRDExists, APP_PROJECT, APP_PROJECT_CRD;
    IdleCRD(o, w, APP_PROJECT_CRD);
    var w1 := Kube.CheckCRDExists(o, w, APP_PROJECT_CRD).w;
    ReadsKeep(w, w1, 1);
    LoneGetReads(o, w1, AppProjectKey(ns));
    ReadsTwice(w, w1, Get(o, w1, AppProjectKey(ns)).w, 1, 1);
  }

  lemma IdlePipeline(o: Oracle, w: World, ns: string)
    requires Alone(o) && Smooth(o, w.clock, 2) && CRDKey(PIPELINE_CRD) in w.store && PipelineKey(ns) in w.store
    ensures var r := GitOpsSpec.HandleTektonPipeline(o, w, ns);
      r.Ok? && JustReads(w, r.w, 2)
  {
    hide JustReads, Get, Kube.CheckCRDExists, PIPELINE_CRD;
    IdleCRD(o, w, PIPELINE_CRD);
    var w1 := Kube.CheckCRDExists(o, w, PIPELINE_CRD).w;
    ReadsKeep(w, w1, 1);
    LoneGetReads(o, w1, PipelineKey(ns));
    ReadsTwice(w, w1, Get(o, w1, PipelineKey(ns)).w, 1, 1);
  }

  lemma IdleGitOpsOn(o: Oracle, w: World, spec: Spec)
    requires Alone(o) && Convergence.GitOpsIsOn(spec) && GitOpsCertified(w.store, spec) && GitOpsLets(o, w.clock, w.store, spec)
    ensures var r := GitOpsSpec.HandleGitOps(o, w, spec.argoCDNamespace);
      r.Ok? && JustReads(w, r.w, 9)
  {
    hide JustReads, GitOpsSpec.HandleArgoCDProject, GitOpsSpec.HandleTektonPipeline, GitOpsSpec.EnsureTasks;
    hide Kube.CheckCRDExists, TasksLet, APP_PROJECT, TASKS, APP_PROJECT_CRD, TASK_CRD, PIPELINE_CRD, Met;
    var ns := spec.argoCDNamespace;
    IdleProject(o, w, ns);
    var w1 := GitOpsSpec.HandleArgoCDProject(o, w, ns).w;
    ReadsKeep(w, w1, 2);
    IdleCRD(o, w1, TASK_CRD);
    var w2 := Kube.CheckCRDExists(o, w1, TASK_CRD).w;
    ReadsKeep(w1, w2, 1);
    ReadsTwice(w, w1, w2, 2, 1);
    FourTasks();
    IdleTasks(o, w2, TASKS, ns);
    var w3 := GitOpsSpec.EnsureTasks(o, w2, TASKS, ns).w;
    ReadsKeep(w2, w3, 4);
    ReadsTwice(w, w2, w3, 3, 4);
    IdlePipeline(o, w3, ns);
    ReadsTwice(w, w3, GitOpsSpec.HandleTektonPipeline(o, w3, ns).w, 7, 2);
  }

  lemma FourTasks()
    ensures |TASKS| == 4
  {
  }

  lemma LoneListReads(o: Oracle, w: World, kind: Kind, ns: string)
    requires Alone(o) && o(w.clock).fault.Healthy?
    ensures var r := List(o, w, kind, ns);
      r.Ok? && JustReads(w, r.w, 1) && |r.value| == |Matching(w.store, kind, ns)|
  {
    assert o(w.clock).others == [];
    var r := List(o, w, kind, ns);
    OrderSize(r.value, Matching(w.store, kind, ns).Keys);
  }

  /** Nothing to remove. */
  predicate NothingToRemove(s: Store, ns: string) {
    && Met(Marked(ns), s)
    && Met(NotSingle(AppProject, ns), s) && Met(NotSingle(Pipeline, ns), s) && Met(NoneOf(Task, ns), s)
  }

  function TidyingCalls(s: Store, ns: string): nat {
    if NamespaceKey(ns) in s then 2 else 1
  }

  lemma IdleRemoveSingle(o: Oracle, w: World, kind: Kind, ns: string)
    requires Alone(o) && kind in {AppProject, Pipeline} && Smooth(o, w.clock, TidyingCalls(w.store, ns))
    requires NamespaceKey(ns) in w.store ==> NothingToRemove(w.store, ns)
    ensures var r := GitOpsSpec.RemoveSingle(o, w, kind, ns);
      r.Ok? && JustReads(w, r.w, TidyingCalls(w.store, ns))
  {
    hide JustReads, Get, List, Matching, Delete, Alone;
    LoneGetReads(o, w, NamespaceKey(ns));
    if NamespaceKey(ns) in w.store {
      hide Kube.CheckNamespaceExist;
      IdleCheck(o, w, ns);
      var w1 := Kube.CheckNamespaceExist(o, w, ns).w;
      ReadsKeep(w, w1, 1);
      LoneListReads(o, w1, kind, ns);
      ReadsTwice(w, w1, List(o, w1, kind, ns).w, 1, 1);
    }
  }

  lemma IdleRemoveTasks(o: Oracle, w: World, ns: string)
    requires Alone(o) && Smooth(o, w.clock, TidyingCalls(w.store, ns))
    requires NamespaceKey(ns) in w.store ==> NothingToRemove(w.store, ns)
    ensures var r := GitOpsSpec.HandleTektonTaskCleanUp(o, w, ns);
      r.Ok? && JustReads(w, r.w, TidyingCalls(w.store, ns))
  {
    hide JustReads, Get, List, Matching;
    LoneGetReads(o, w, NamespaceKey(ns));
    if NamespaceKey(ns) in w.store {
      hide Kube.CheckNamespaceExist;
      IdleCheck(o, w, ns);
      var w1 := Kube.CheckNamespaceExist(o, w, ns).w;
      ReadsKeep(w, w1, 1);
      LoneListReads(o, w1, Task, ns);
      ReadsTwice(w, w1, List(o, w1, Task, ns).w, 1, 1);
      assert List(o, w1, Task, ns).value == [];
    }
  }

  lemma IdleGitOpsOff(o: Oracle, w: World, spec: Spec)
    requires Alone(o) && !Convergence.GitOpsIsOn(spec) && GitOpsSettled(w.store, spec)
    requires Smooth(o, w.clock, GitOpsCalls(w.store, spec))
    ensures var r := GitOpsSpec.HandleGitOpsCleanUp(o, w, spec.argoCDNamespace);
      r.Ok? && JustReads(w, r.w, GitOpsCalls(w.store, spec))
  {
    hide JustReads, GitOpsSpec.RemoveSingle, GitOpsSpec.HandleTektonTaskCleanUp, Met;
    var ns := spec.argoCDNamespace;
    var n := TidyingCalls(w.store, ns);
    IdleRemoveSingle(o, w, AppProject, ns);
    var w1 := GitOpsSpec.RemoveSingle(o, w, AppProject, ns).w;
    ReadsKeep(w, w1, n);
    IdleRemoveSingle(o, w1, Pipeline, ns);
    var w2 := GitOpsSpec.RemoveSingle(o, w1, Pipeline, ns).w;
    ReadsKeep(w1, w2, n);
    ReadsTwice(w, w1, w2, n, n);
    IdleRemoveTasks(o, w2, ns);
    ReadsTwice(w, w2, GitOpsSpec.HandleTektonTaskCleanUp(o, w2, ns).w, n + n, n);
  }

  lemma IdleGitOps(o: Oracle, w: World, spec: Spec)
    requires Alone(o) && GitOpsCertified(w.store, spec) && GitOpsLets(o, w.clock, w.store, spec)
    ensures var r := GitOpsSpec.ReconcileGitOps(o, w, spec);
      r.Ok? && JustReads(w, r.w, GitOpsCalls(w.store, spec))
  {
    hide JustReads, GitOpsSpec.HandleGitOps, GitOpsSpec.HandleGitOpsCleanUp;
    if Convergence.GitOpsIsOn(spec) {
      IdleGitOpsOn(o, w, spec);
    } else {
      IdleGitOpsOff(o, w, spec);
    }
  }

  // ---------- The stages ----------

  /** Everything is in order, except that Knative resources, ConfigMaps and Tasks may be missing. */
  predicate Certified(s: Store, spec: Spec) {
    && LogicSettled(s, spec)
    && KnativeCertified(s, spec)
    && HubCertified(s, spec)
    && Met(Marked(spec.platform.namespace), s)
    && PoliciesSettled(s, spec, NETWORK_POLICIES)
    && GitOpsCertified(s, spec)
  }

  // When the stages begin, if the first one begins at `start`.

  function KnativeStart(start: nat, s: Store, spec: Spec): nat {
    start + LogicCalls(s, spec)
  }

  function HubStart(start: nat, s: Store, spec: Spec): nat {
    KnativeStart(start, s, spec) + KnativeCalls(s, spec)
  }

  function PolicyStart(start: nat, s: Store, spec: Spec): nat {
    HubStart(start, s, spec) + HubCalls(s, spec)
  }

  function GitOpsStart(start: nat, s: Store, spec: Spec): nat {
    PolicyStart(start, s, spec) + PolicyCalls(spec)
  }

  /** The calls of the stages go well, but for those that the missing objects fall victim to. */
  ghost predicate Lets(o: Oracle, start: nat, s: Store, spec: Spec) {
    && Smooth(o, start, LogicCalls(s, spec))
    && (spec.serverless ==> KnativeLets(o, KnativeStart(start, s, spec), s))
    && (spec.rhdh.installOperator ==> HubLets(o, HubStart(start, s, spec), s, spec))
    && Smooth(o, PolicyStart(start, s, spec), PolicyCalls(spec))
    && GitOpsLets(o, GitOpsStart(start, s, spec), s, spec)
  }

  function StageCalls(s: Store, spec: Spec): nat {
    LogicCalls(s, spec) + KnativeCalls(s, spec) + HubCalls(s, spec) + PolicyCalls(spec) + GitOpsCalls(s, spec)
  }

  lemma IdleStages(o: Oracle, st: ReconcileSpec.State, spec: Spec)
    requires Alone(o) && st.errors == map[] && Certified(st.w.store, spec) && Lets(o, st.w.clock, st.w.store, spec)
    ensures var (end, failed) := ReconcileSpec.RunStages(o, st, spec);
      failed.None? && end.errors == map[] && JustReads(st.w, end.w, StageCalls(st.w.store, spec))
  {
    hide LogicSpec.ReconcileServerlessLogic, KnativeSpec.ReconcileKnative, ReconcileRHDH, ReconcileNetworkPolicy;
    hide GitOpsSpec.ReconcileGitOps, JustReads, LogicSettled, KnativeCertified, HubCertified, PoliciesSettled, GitOpsCertified;
    hide LogicCalls, KnativeCalls, HubCalls, PolicyCalls, GitOpsCalls, KnativeLets, HubLets, GitOpsLets, Met, Smooth;
    hide NETWORK_POLICIES;
    var s := st.w.store;
    var a, b, c, d := LogicCalls(s, spec), KnativeCalls(s, spec), HubCalls(s, spec), PolicyCalls(spec);
    IdleLogic(o, st.w, spec);
    var w1 := LogicSpec.ReconcileServerlessLogic(o, st.w, spec).w;
    ReadsKeep(st.w, w1, a);
    IdleKnative(o, w1, spec);
    var w2 := KnativeSpec.ReconcileKnative(o, w1, spec).w;
    ReadsKeep(w1, w2, b);
    ReadsTwice(st.w, w1, w2, a, b);
    IdleHub(o, w2, spec);
    var w3 := ReconcileRHDH(o, w2, spec).w;
    ReadsKeep(w2, w3, c);
    ReadsTwice(st.w, w2, w3, a + b, c);
    IdlePolicyStage(o, w3, spec);
    var w4 := ReconcileNetworkPolicy(o, w3, map[], spec).0.w;
    ReadsKeep(w3, w4, d);
    ReadsTwice(st.w, w3, w4, a + b + c, d);
    IdleGitOps(o, w4, spec);
    ReadsTwice(st.w, w4, GitOpsSpec.ReconcileGitOps(o, w4, spec).w, a + b + c + d, GitOpsCalls(s, spec));
  }

  /** On a settled cluster, the stages of a pass without faults write nothing at all. */
  lemma SettledStagesOnlyRead(o: Oracle, st: ReconcileSpec.State, spec: Spec)
    requires Calm(o) && st.errors == map[] && Settled(st.w.store, spec)
    ensures var (end, failed) := ReconcileSpec.RunStages(o, st, spec);
      failed.None? && end.errors == map[] && end.w.store == st.w.store && OnlyReads(st.w.log, end.w.log)
  {
    hide ReconcileSpec.RunStages, Settled, Certified, Lets, JustReads, StageCalls, Calm;
    SettledIsCertified(o, st.w.clock, st.w.store, spec);
    IdleStages(o, st, spec);
    ReadsKeep(st.w, ReconcileSpec.RunStages(o, st, spec).0.w, StageCalls(st.w.store, spec));
  }

  lemma SettledIsCertified(o: Oracle, start: nat, s: Store, spec: Spec)
    requires Calm(o) && Settled(s, spec)
    ensures Alone(o) && Certified(s, spec) && Lets(o, start, s, spec)
  {
    hide InstallerSettled, PoliciesSettled, LogicSettled, Met, COMPONENTS, CONFIG_MAPS, TASKS, NETWORK_POLICIES;
    assert forall t: nat {:trigger o(t)} :: o(t).fault.Healthy?;
    assert Convergence.GitOpsIsOn(spec) ==> TasksThere(s, spec.argoCDNamespace);
    assert spec.rhdh.installOperator ==> ConfigMapsThere(s, spec.rhdh.namespace);
  }
}
