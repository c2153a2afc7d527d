/** Without faults and interference, the handlers do to the store what their quiet forms say. */
module Calmness {
  import opened Kubernetes
  import opened Desired
  import opened ApiServer
  import opened NetworkPoliciesSpec
  import opened DeveloperHubSpec
  import opened Quiet
  import Kube = KubeOperationsSpec
  import LogicSpec = ServerlessLogicSpec
  import KnativeSpec
  import GitOpsSpec
  import ReconcileSpec

  /** The call or handler has left the store, and given the error, that the quiet form says. */
  ghost predicate Is<T>(r: Ret<T>, w: World, q: Out) {
    && r.w.store == q.s
    && r.w.cr == w.cr
    && (r.Ok? <==> q.Fine?)
    && (q.Bad? ==> r.Fail? && r.error == q.error)
  }

  // ---------- Calls ----------

  lemma CalmGet(o: Oracle, w: World, k: Key)
    requires Calm(o)
    ensures Is(Get(o, w, k), w, Need(w.store, k))
    ensures k in w.store ==> Get(o, w, k) == Ok(Get(o, w, k).w, w.store[k])
  {
    assert o(w.clock).fault.Healthy?;
  }

  lemma CalmCreate(o: Oracle, w: World, k: Key, obj: Obj)
    requires Calm(o) && Fits(k.kind, obj.body)
    ensures Is(Create(o, w, k, obj), w, PutNew(w.store, k, obj))
  {
    assert o(w.clock).fault.Healthy?;
  }

  lemma CalmUpdate(o: Oracle, w: World, k: Key, obj: Obj)
    requires Calm(o) && Fits(k.kind, obj.body) && k in w.store
    ensures Is(Update(o, w, k, w.store[k], obj), w, Fine(w.store[k := obj]))
  {
    assert o(w.clock).fault.Healthy?;
  }

  lemma CalmList(o: Oracle, w: World, kind: Kind, ns: string)
    requires Calm(o)
    ensures var r := List(o, w, kind, ns);
      && Is(r, w, Fine(w.store))
      && IsEnumeration(r.value, Matching(w.store, kind, ns).Keys)
      && |r.value| == |Matching(w.store, kind, ns)|
  {
    assert o(w.clock).fault.Healthy?;
    var r := List(o, w, kind, ns);
    OrderSize(r.value, Matching(w.store, kind, ns).Keys);
  }

  lemma CalmDelete(o: Oracle, w: World, k: Key)
    requires Calm(o) && k in w.store
    ensures Is(Delete(o, w, k), w, Fine(Without(w.store, k)))
  {
    assert o(w.clock).fault.Healthy?;
  }

  // ---------- Primitives ----------

  /** Adopting a namespace that has the label changes nothing. */
  lemma AdoptedTwice(s: Store, ns: string)
    requires NamespaceKey(ns) in s && Labelled(s[NamespaceKey(ns)].labels)
    ensures Adopt(s, ns) == s
  {
    var obj := s[NamespaceKey(ns)];
    assert obj.labels[CREATED_BY := ORCHESTRATOR] == obj.labels;
    assert s[NamespaceKey(ns) := obj] == s;
  }

  lemma CalmCheckNamespaceExist(o: Oracle, w: World, ns: string)
    requires Calm(o)
    ensures Is(Kube.CheckNamespaceExist(o, w, ns), w, Check(w.store, ns))
  {
    hide Get, Update;
    var k := NamespaceKey(ns);
    CalmGet(o, w, k);
    if k in w.store {
      if Labelled(w.store[k].labels) {
        AdoptedTwice(w.store, ns);
      } else {
        CalmUpdate(o, Get(o, w, k).w, k, Adopted(w.store[k]));
      }
    }
  }

  lemma CalmCreateNamespace(o: Oracle, w: World, ns: string)
    requires Calm(o) && NamespaceKey(ns) !in w.store
    ensures Is(Kube.CreateNamespace(o, w, ns), w, Fine(AdoptOrMake(w.store, ns)))
  {
    hide Create;
    CalmCreate(o, w, NamespaceKey(ns), NEW_NAMESPACE);
  }

  lemma CalmCheckCRDExists(o: Oracle, w: World, name: string)
    requires Calm(o)
    ensures Is(Kube.CheckCRDExists(o, w, name), w, Need(w.store, CRDKey(name)))
  {
    hide Get;
    CalmGet(o, w, CRDKey(name));
  }

  lemma CalmGetOrCreate(o: Oracle, w: World, k: Key, obj: Obj)
    requires Calm(o) && Fits(k.kind, obj.body) && Labelled(obj.labels)
    requires k.kind !in {Namespace, OperatorGroup, Subscription}
    ensures Is(Kube.GetOrCreate(o, w, k, obj), w, GetOrPut(w.store, k, obj))
  {
    hide Get, Create, Fits, PutNew;
    CalmGet(o, w, k);
    CalmCreate(o, Get(o, w, k).w, k, obj);
  }

  lemma CalmCleanUpNamespace(o: Oracle, w: World, ns: string)
    requires Calm(o)
    ensures Is(Kube.CleanUpNamespace(o, w, ns), w, Fine(DropNamespace(w.store, ns)))
  {
    hide Get, Delete, Without;
    var k := NamespaceKey(ns);
    CalmGet(o, w, k);
    if k in w.store {
      CalmDelete(o, Get(o, w, k).w, k);
    }
  }

  // ---------- The installer ----------

  lemma CalmEnsureNamespace(o: Oracle, w: World, c: Component)
    requires Calm(o)
    ensures var r := Kube.EnsureNamespace(o, w, c);
      && r.0.store == Home(w.store, c).s && r.0.cr == w.cr
      && (r.1.None? <==> Home(w.store, c).Fine?)
      && (r.1.Some? ==> Is(r.1.value, w, Home(w.store, c)))
  {
    hide Kube.CheckNamespaceExist, Kube.CreateNamespace, Adopt;
    CalmCheckNamespaceExist(o, w, c.namespace);
    if NamespaceKey(c.namespace) !in w.store {
      CalmCreateNamespace(o, Kube.CheckNamespaceExist(o, w, c.namespace).w, c.namespace);
    }
  }

  lemma CalmInstallSubscription(o: Oracle, w: World, c: Component)
    requires Calm(o) && SubscriptionKey(c) !in w.store
    ensures Is(Kube.InstallSubscriptionAndOperatorGroup(o, w, c), w, Subscribe(w.store, c))
  {
    hide Get, Create, PutNew, CreateSubscriptionSpec;
    var k := GroupKey(c);
    CalmGet(o, w, k);
    CalmCreate(o, Get(o, w, k).w, k, NEW_GROUP);
    var g := Kube.GetOperatorGroup(o, w, c);
    CalmCreate(o, g.w, SubscriptionKey(c), CreateSubscriptionObject(c));
  }

  /** A Subscription with the wanted spec is its own repair. */
  lemma RepairedTwice(s: Store, c: Component)
    requires SubscriptionKey(c) in s && s[SubscriptionKey(c)].body.spec == CreateSubscriptionSpec(c)
    ensures s[SubscriptionKey(c) := Repaired(c, s[SubscriptionKey(c)])] == s
  {
    assert Repaired(c, s[SubscriptionKey(c)]) == s[SubscriptionKey(c)];
  }

  lemma CalmEnsureSubscription(o: Oracle, w: World, c: Component)
    requires Calm(o) && c in COMPONENTS
    ensures var r := Kube.EnsureSubscription(o, w, c);
      && Is(r, w, Subscribe(w.store, c))
      && (r.Ok? && SubscriptionKey(c) in w.store ==> r.value == Some(Repaired(c, w.store[SubscriptionKey(c)])))
      && (r.Ok? && SubscriptionKey(c) !in w.store ==>
            r.value == None && SubscriptionKey(c) in r.w.store && r.w.store[SubscriptionKey(c)] == CreateSubscriptionObject(c))
  {
    hide Get, Create, Update, COMPONENTS, Kube.InstallSubscriptionAndOperatorGroup, CreateSubscriptionSpec, GetOrPut;
    var k := SubscriptionKey(c);
    CalmGet(o, w, k);
    var w1 := Get(o, w, k).w;
    if k in w.store {
      if w.store[k].body.spec == CreateSubscriptionSpec(c) {
        RepairedTwice(w.store, c);
      } else {
        CalmUpdate(o, w1, k, Repaired(c, w.store[k]));
      }
    } else {
      CalmInstallSubscription(o, w1, c);
    }
  }

  lemma CalmApproveInstallPlan(o: Oracle, w: World, c: Component, name: string)
    requires Calm(o) && c in COMPONENTS
    ensures var p := PlanKey(c, name);
      Is(Kube.ApproveInstallPlan(o, w, c, name), w,
         if p in w.store then Fine(w.store[p := Approved(w.store[p])]) else Bad(w.store, NotFound))
  {
    hide Get, Update, COMPONENTS;
    var p := PlanKey(c, name);
    CalmGet(o, w, p);
    if p in w.store {
      if w.store[p].body.approved {
        assert Approved(w.store[p]) == w.store[p];
        assert w.store[p := w.store[p]] == w.store;
      } else {
        CalmUpdate(o, Get(o, w, p).w, p, Approved(w.store[p]));
      }
    }
  }

  lemma CalmInstall(o: Oracle, w: World, c: Component)
    requires Calm(o) && c in COMPONENTS
    ensures Is(Kube.HandleOperatorInstallation(o, w, c), w, Install(w.store, c))
  {
    hide Kube.EnsureNamespace, Kube.EnsureSubscription, Kube.ApproveInstallPlan, Home, Subscribe, COMPONENTS;
    CalmEnsureNamespace(o, w, c);
    var w1 := Kube.EnsureNamespace(o, w, c).0;
    CalmEnsureSubscription(o, w1, c);
    var r := Kube.EnsureSubscription(o, w1, c);
    SubscriptionAfter(w1.store, c);
    if r.Ok? && r.value.Some? && r.value.value.body.status.Resolved? {
      CalmApproveInstallPlan(o, r.w, c, r.value.value.body.status.installPlan);
    }
  }

  /** What a successful step leaves under the Subscription's key. */
  lemma SubscriptionAfter(s: Store, c: Component)
    ensures var q := Subscribe(s, c); var k := SubscriptionKey(c);
      q.Fine? ==> k in q.s && q.s[k] == if k in s then Repaired(c, s[k]) else CreateSubscriptionObject(c)
  {
  }

  // ---------- Serverless logic ----------

  lemma CalmLogic(o: Oracle, w: World, spec: Spec)
    requires Calm(o)
    ensures Is(LogicSpec.ReconcileServerlessLogic(o, w, spec), w, Logic(w.store, spec))
  {
    hide Kube.HandleOperatorInstallation, Kube.CheckCRDExists, LogicSpec.EnsureWorkflowNamespace;
    hide LogicSpec.HandleServerlessLogicCR;
    hide Install, Workflow, LogicCRs, Need;
    if spec.serverlessLogic {
      var ns := spec.platform.namespace;
      CalmWorkflow(o, w, ns);
      var w1 := LogicSpec.EnsureWorkflowNamespace(o, w, ns).w;
      CalmInstall(o, w1, LOGIC);
      var w2 := Kube.HandleOperatorInstallation(o, w1, LOGIC).w;
      CalmCheckCRDExists(o, w2, CLUSTER_PLATFORM_CRD);
      CalmLogicCRs(o, Kube.CheckCRDExists(o, w2, CLUSTER_PLATFORM_CRD).w, spec);
    }
  }

  lemma CalmWorkflow(o: Oracle, w: World, ns: string)
    requires Calm(o)
    ensures Is(LogicSpec.EnsureWorkflowNamespace(o, w, ns), w, Workflow(w.store, ns))
  {
    hide Kube.CheckNamespaceExist, Kube.CreateNamespace, Adopt;
    CalmCheckNamespaceExist(o, w, ns);
    if NamespaceKey(ns) !in w.store {
      CalmCreateNamespace(o, Kube.CheckNamespaceExist(o, w, ns).w, ns);
    }
  }

  lemma CalmLogicCRs(o: Oracle, w: World, spec: Spec)
    requires Calm(o)
    ensures Is(LogicSpec.HandleServerlessLogicCR(o, w, spec), w, LogicCRs(w.store, spec))
  {
    hide Kube.CheckNamespaceExist, Kube.GetOrCreate, Check, GetOrPut;
    var ns := spec.platform.namespace;
    CalmCheckNamespaceExist(o, w, ns);
    var w1 := Kube.CheckNamespaceExist(o, w, ns).w;
    CalmGetOrCreate(o, w1, CLUSTER_PLATFORM_KEY, ClusterPlatform(ns));
    var w2 := Kube.GetOrCreate(o, w1, CLUSTER_PLATFORM_KEY, ClusterPlatform(ns)).w;
    CalmGetOrCreate(o, w2, PlatformKey(ns), Platform(spec));
  }

  // ---------- Knative ----------

  lemma CalmKnativeResource(o: Oracle, w: World, ns: string, k: Key)
    requires Calm(o) && k.kind in {KnativeEventing, KnativeServing} && k.ns == ns
    ensures Is(KnativeSpec.HandleKnativeResource(o, w, ns, k), w, KnativeResource(w.store, ns, k))
  {
    hide Kube.CheckNamespaceExist, Kube.CreateNamespace, Get, Create, Adopt;
    CalmCheckNamespaceExist(o, w, ns);
    var w1 := Kube.CheckNamespaceExist(o, w, ns).w;
    if NamespaceKey(ns) !in w.store {
      CalmCreateNamespace(o, w1, ns);
      w1 := Kube.CreateNamespace(o, w1, ns).w;
    }
    CalmGet(o, w1, k);
    CalmCreate(o, Get(o, w1, k).w, k, KNATIVE_CR);
  }

  lemma CalmKnativeCRs(o: Oracle, w: World)
    requires Calm(o)
    ensures Is(KnativeSpec.HandleKnativeCR(o, w), w, KnativeCRs(w.store))
  {
    hide Kube.CheckCRDExists, KnativeSpec.HandleKnativeResource, Need, KnativeResource;
    CalmCheckCRDExists(o, w, EVENTING_CRD);
    var w1 := Kube.CheckCRDExists(o, w, EVENTING_CRD).w;
    CalmKnativeResource(o, w1, EVENTING, EVENTING_KEY);
    var w2 := KnativeSpec.HandleKnativeResource(o, w1, EVENTING, EVENTING_KEY).w;
    CalmCheckCRDExists(o, w2, SERVING_CRD);
    CalmKnativeResource(o, Kube.CheckCRDExists(o, w2, SERVING_CRD).w, SERVING, SERVING_KEY);
  }

  lemma CalmKnative(o: Oracle, w: World, spec: Spec)
    requires Calm(o)
    ensures Is(KnativeSpec.ReconcileKnative(o, w, spec), w, Knative(w.store, spec))
  {
    hide Kube.HandleOperatorInstallation, KnativeSpec.HandleKnativeCR, Install, KnativeCRs;
    CalmInstall(o, w, SERVERLESS);
    CalmKnativeCRs(o, Kube.HandleOperatorInstallation(o, w, SERVERLESS).w);
  }

  // ---------- RHDH ----------

  lemma CalmEnsureConfigMap(o: Oracle, w: World, ns: string, name: string, dataKey: string, text: Text)
    requires Calm(o)
    ensures Is(EnsureConfigMap(o, w, ns, name, dataKey, text), w,
               GetOrPut(w.store, ConfigMapKey(ns, name), NewConfigMap(dataKey, text)))
  {
    hide Get, Create;
    var k := ConfigMapKey(ns, name);
    CalmGet(o, w, k);
    CalmCreate(o, Get(o, w, k).w, k, NewConfigMap(dataKey, text));
  }

  lemma {:induction false} CalmConfigMaps(o: Oracle, w: World, names: seq<string>, dataKeys: map<string, string>, i: Inputs)
    requires Calm(o) && forall n :: n in names ==> n in dataKeys
    ensures var r := EnsureConfigMaps(o, w, names, dataKeys, i);
      Is(r, w, ConfigMaps(w.store, names, dataKeys, i)) && (r.Ok? ==> r.value == Mounted(names))
    decreases |names|
  {
    hide EnsureConfigMap, GetOrPut, TextOf;
    if names != [] {
      var n := names[0];
      CalmEnsureConfigMap(o, w, i.rhdh.namespace, n, dataKeys[n], TextOf(n, i));
      CalmConfigMaps(o, EnsureConfigMap(o, w, i.rhdh.namespace, n, dataKeys[n], TextOf(n, i)).w, names[1..], dataKeys, i);
    }
  }

  lemma CalmDomain(o: Oracle, w: World)
    requires Calm(o)
    ensures var r := GetClusterDomain(o, w);
      && Is(r, w, Need(w.store, CLUSTER_INGRESS_KEY))
      && (r.Ok? ==> r.value == w.store[CLUSTER_INGRESS_KEY].body.domain)
  {
    hide Get;
    CalmGet(o, w, CLUSTER_INGRESS_KEY);
  }

  lemma CalmHubCRs(o: Oracle, w: World, spec: Spec, names: seq<string>)
    requires Calm(o)
    ensures Is(HandleRHDHCR(o, w, spec.rhdh, Mounted(names)), w, HubCRs(w.store, spec, names))
  {
    hide Kube.CheckCRDExists, Kube.GetOrCreate, Need, GetOrPut;
    CalmCheckCRDExists(o, w, BACKSTAGE_CRD);
    CalmGetOrCreate(o, Kube.CheckCRDExists(o, w, BACKSTAGE_CRD).w, BackstageKey(spec.rhdh), NewBackstage(Mounted(names)));
  }

  lemma CalmGetOrCreateConfigMaps(o: Oracle, w: World, domain: string, ns: string, tekton: bool, argoCD: bool, rhdh: RHDHConfig)
    returns (names: seq<string>)
    requires Calm(o)
    ensures IsOrder(names, CONFIG_MAPS.Keys)
    ensures var r := GetOrCreateConfigMaps(o, w, domain, ns, tekton, argoCD, rhdh);
      && Is(r, w, ConfigMaps(w.store, names, CONFIG_MAPS, Inputs(domain, ns, argoCD, tekton, rhdh)))
      && (r.Ok? ==> r.value == Mounted(names))
  {
    hide EnsureConfigMaps, ConfigMaps, Mounted;
    names := IterationOrder(o, w.clock, rhdh.namespace, CONFIG_MAPS.Keys);
    CalmConfigMaps(o, w, names, CONFIG_MAPS, Inputs(domain, ns, argoCD, tekton, rhdh));
  }

  /** The order in which the ConfigMaps are visited. */
  lemma CalmHub(o: Oracle, w: World, spec: Spec) returns (names: seq<string>)
    requires Calm(o)
    ensures IsOrder(names, CONFIG_MAPS.Keys)
    ensures Is(ReconcileRHDH(o, w, spec), w, Hub(w.store, spec, names))
  {
    hide Kube.HandleOperatorInstallation, GetClusterDomain, CreateRHDHSecret, GetOrCreateConfigMaps, HandleRHDHCR;
    hide Install, Need, GetOrPut, ConfigMaps, HubCRs, Mounted, Calm;
    CalmInstall(o, w, RHDH);
    var w1 := Kube.HandleOperatorInstallation(o, w, RHDH).w;
    CalmDomain(o, w1);
    var r2 := GetClusterDomain(o, w1);
    var domain := if r2.Ok? then r2.value else "";
    CalmSecret(o, r2.w, spec.rhdh.namespace);
    var w3 := CreateRHDHSecret(o, r2.w, spec.rhdh.namespace).w;
    names := CalmGetOrCreateConfigMaps(o, w3, domain, spec.platform.namespace, spec.argoCDEnabled, spec.tektonEnabled, spec.rhdh);
    var w4 := GetOrCreateConfigMaps(o, w3, domain, spec.platform.namespace, spec.argoCDEnabled, spec.tektonEnabled, spec.rhdh).w;
    CalmHubCRs(o, w4, spec, names);
    NeedIsThere(w1.store, CLUSTER_INGRESS_KEY);
  }

  lemma NeedIsThere(s: Store, k: Key)
    ensures Need(s, k).Fine? ==> k in s
    ensures Need(s, k).s == s
  {
  }

  lemma CalmSecret(o: Oracle, w: World, ns: string)
    requires Calm(o)
    ensures Is(CreateRHDHSecret(o, w, ns), w, GetOrPut(w.store, SecretKey(ns), NPMRC))
  {
    hide Kube.GetOrCreate, GetOrPut;
    CalmGetOrCreate(o, w, SecretKey(ns), NPMRC);
  }

  // ---------- Network policies ----------

  lemma CalmEnsurePolicy(o: Oracle, w: World, name: string, n: Namespaces)
    requires Calm(o)
    ensures Is(EnsurePolicy(o, w, name, n), w, PutOrRepair(w.store, PolicyKey(n.workflow, name), Wanted(name, n)))
  {
    hide Get, Create, Update;
    var k := PolicyKey(n.workflow, name);
    CalmGet(o, w, k);
    if k in w.store {
      if w.store[k].body == Wanted(name, n).body {
        assert w.store[k].(body := Wanted(name, n).body) == w.store[k];
        assert w.store[k := w.store[k]] == w.store;
      } else {
        CalmUpdate(o, Get(o, w, k).w, k, w.store[k].(body := Wanted(name, n).body));
      }
    } else {
      CalmCreate(o, Get(o, w, k).w, k, Wanted(name, n));
    }
  }

  lemma {:induction false} CalmPolicies(o: Oracle, w: World, errors: Errors, names: seq<string>, n: Namespaces, monitoring: bool)
    requires Calm(o)
    ensures var r := HandleNetworkPolicy(o, w, errors, names, n, monitoring);
      && (r.0.store, r.1) == Policies(w.store, errors, names, n, monitoring)
      && r.0.cr == w.cr
    decreases |names|
  {
    hide EnsurePolicy, PutOrRepair, Calm;
    if names != [] {
      if Applicable(names[0], monitoring) {
        CalmEnsurePolicy(o, w, names[0], n);
        var r := EnsurePolicy(o, w, names[0], n);
        CalmPolicies(o, r.w, if r.Fail? then errors[names[0] := r.error] else errors, names[1..], n, monitoring);
      } else {
        CalmPolicies(o, w, errors, names[1..], n, monitoring);
      }
    }
  }

  lemma CalmPolicyStage(o: Oracle, w: World, errors: Errors, spec: Spec)
    requires Calm(o)
    ensures var r := ReconcileNetworkPolicy(o, w, errors, spec);
      Is(r.0, w, PolicyStage(w.store, errors, spec).0) && r.1 == PolicyStage(w.store, errors, spec).1
  {
    hide Kube.CheckNamespaceExist, HandleNetworkPolicy, Policies, Check, Calm;
    CalmCheckNamespaceExist(o, w, spec.platform.namespace);
    var w1 := Kube.CheckNamespaceExist(o, w, spec.platform.namespace).w;
    CalmPolicies(o, w1, errors, NETWORK_POLICIES, NamespacesOf(spec), spec.platform.monitoring);
  }

  // ---------- GitOps ----------

  lemma CalmAppProject(o: Oracle, w: World, ns: string)
    requires Calm(o)
    ensures var q := Need(w.store, CRDKey(APP_PROJECT_CRD));
      Is(GitOpsSpec.HandleArgoCDProject(o, w, ns), w, if q.Bad? then q else PutOrRepair(w.store, AppProjectKey(ns), APP_PROJECT))
  {
    hide Kube.CheckCRDExists, Get, Create, Update;
    CalmCheckCRDExists(o, w, APP_PROJECT_CRD);
    var w1 := Kube.CheckCRDExists(o, w, APP_PROJECT_CRD).w;
    var k := AppProjectKey(ns);
    CalmGet(o, w1, k);
    var w2 := Get(o, w1, k).w;
    if k in w1.store {
      if w1.store[k].body == APP_PROJECT.body {
        assert w1.store[k].(body := APP_PROJECT.body) == w1.store[k];
        assert w1.store[k := w1.store[k]] == w1.store;
      } else {
        CalmUpdate(o, w2, k, w1.store[k].(body := APP_PROJECT.body));
      }
    } else {
      CalmCreate(o, w2, k, APP_PROJECT);
    }
  }

  lemma {:induction false} CalmEnsureTasks(o: Oracle, w: World, names: seq<string>, ns: string)
    requires Calm(o)
    ensures Is(GitOpsSpec.EnsureTasks(o, w, names, ns), w, Tasks(w.store, names, ns))
    decreases |names|
  {
    hide Get, Create;
    if names != [] {
      var k := TaskKey(ns, names[0]);
      CalmGet(o, w, k);
      var w1 := Get(o, w, k).w;
      CalmCreate(o, w1, k, NewTask(names[0]));
      CalmEnsureTasks(o, if k in w.store then w1 else Create(o, w1, k, NewTask(names[0])).w, names[1..], ns);
    }
  }

  lemma CalmTasks(o: Oracle, w: World, ns: string)
    requires Calm(o)
    ensures var q := Need(w.store, CRDKey(TASK_CRD));
      Is(GitOpsSpec.HandleTektonTasks(o, w, ns), w, if q.Bad? then q else Tasks(w.store, TASKS, ns))
  {
    hide Kube.CheckCRDExists, GitOpsSpec.EnsureTasks, Tasks;
    CalmCheckCRDExists(o, w, TASK_CRD);
    CalmEnsureTasks(o, Kube.CheckCRDExists(o, w, TASK_CRD).w, TASKS, ns);
  }

  lemma CalmPipeline(o: Oracle, w: World, ns: string)
    requires Calm(o)
    ensures var q := Need(w.store, CRDKey(PIPELINE_CRD));
      Is(GitOpsSpec.HandleTektonPipeline(o, w, ns), w, if q.Bad? then q else PipelineOnce(w.store, ns))
  {
    hide Kube.CheckCRDExists, Get, Create;
    CalmCheckCRDExists(o, w, PIPELINE_CRD);
    var w1 := Kube.CheckCRDExists(o, w, PIPELINE_CRD).w;
    CalmGet(o, w1, PipelineKey(ns));
    CalmCreate(o, Get(o, w1, PipelineKey(ns)).w, PipelineKey(ns), PIPELINE);
  }

  lemma CalmGitOpsOn(o: Oracle, w: World, ns: string)
    requires Calm(o)
    ensures Is(GitOpsSpec.HandleGitOps(o, w, ns), w, GitOpsOn(w.store, ns))
  {
    hide GitOpsSpec.HandleArgoCDProject, GitOpsSpec.HandleTektonTasks, GitOpsSpec.HandleTektonPipeline;
    hide PutOrRepair, Tasks, PipelineOnce, Calm;
    CalmAppProject(o, w, ns);
    var w1 := GitOpsSpec.HandleArgoCDProject(o, w, ns).w;
    CalmTasks(o, w1, ns);
    CalmPipeline(o, GitOpsSpec.HandleTektonTasks(o, w1, ns).w, ns);
  }

  /** Deleting what was listed, in whatever order. */
  lemma {:induction false} CalmRemoveAll(o: Oracle, w: World, items: seq<Key>)
    requires Calm(o)
    requires forall i :: 0 <= i < |items| ==> items[i].kind != Namespace && items[i] in w.store
    requires forall i, j :: 0 <= i < j < |items| ==> items[i] != items[j]
    ensures var r := Kube.RemoveAll(o, w, items);
      r.0.store == w.store - (set k | k in items) && r.0.cr == w.cr && r.1 == []
    decreases |items|
  {
    hide Delete;
    if items == [] {
      assert w.store - (set k | k in items) == w.store;
    } else {
      CalmDelete(o, w, items[0]);
      var w1 := Delete(o, w, items[0]).w;
      CalmRemoveAll(o, w1, items[1..]);
      OneAndTheRest(w.store, items);
      assert w1.store == w.store - {items[0]};
    }
  }

  lemma OneAndTheRest(s: Store, items: seq<Key>)
    requires items != []
    ensures (s - {items[0]}) - (set k | k in items[1..]) == s - (set k | k in items)
  {
    assert forall k :: k in items <==> k == items[0] || k in items[1..];
  }

  lemma CalmRemoveMatching(o: Oracle, w: World, kind: Kind, ns: string, items: seq<Key>)
    requires Calm(o) && kind != Namespace && IsEnumeration(items, Matching(w.store, kind, ns).Keys)
    ensures var r := Kube.RemoveAll(o, w, items);
      r.0.store == RemoveKind(w.store, kind, ns) && r.0.cr == w.cr && r.1 == []
  {
    hide Kube.RemoveAll;
    assert forall k :: k in items <==> k in Matching(w.store, kind, ns).Keys;
    forall i | 0 <= i < |items| ensures items[i].kind != Namespace && items[i] in w.store {
      assert items[i] in items;
    }
    CalmRemoveAll(o, w, items);
    assert (set k | k in items) == Matching(w.store, kind, ns).Keys;
  }

  lemma CalmRemoveSingle(o: Oracle, w: World, kind: Kind, ns: string)
    requires Calm(o) && kind in {AppProject, Pipeline}
    ensures Is(GitOpsSpec.RemoveSingle(o, w, kind, ns), w, Fine(RemoveIfSingle(w.store, kind, ns)))
  {
    hide Kube.CheckNamespaceExist, List, Delete, Matching, Adopt;
    CalmCheckNamespaceExist(o, w, ns);
    if NamespaceKey(ns) in w.store {
      var w1 := Kube.CheckNamespaceExist(o, w, ns).w;
      CalmList(o, w1, kind, ns);
      var r := List(o, w1, kind, ns);
      if |r.value| == 1 {
        var k := r.value[0];
        assert k in r.value;
        MatchingIsThere(w1.store, kind, ns);
        CalmDelete(o, r.w, k);
        forall j | j in Matching(w1.store, kind, ns).Keys ensures j == k {
          assert j in r.value;
        }
        assert Without(w1.store, k) == RemoveKind(w1.store, kind, ns);
      }
    }
  }

  lemma MatchingIsThere(s: Store, kind: Kind, ns: string)
    ensures forall k :: k in Matching(s, kind, ns) ==> k in s && k.kind == kind
  {
  }

  lemma CalmRemoveTasks(o: Oracle, w: World, ns: string)
    requires Calm(o)
    ensures Is(GitOpsSpec.HandleTektonTaskCleanUp(o, w, ns), w, Fine(RemoveTasks(w.store, ns)))
  {
    hide Kube.CheckNamespaceExist, List, Kube.RemoveAll, Matching, Adopt, RemoveKind;
    CalmCheckNamespaceExist(o, w, ns);
    if NamespaceKey(ns) in w.store {
      var w1 := Kube.CheckNamespaceExist(o, w, ns).w;
      CalmList(o, w1, Task, ns);
      CalmRemoveMatching(o, List(o, w1, Task, ns).w, Task, ns, List(o, w1, Task, ns).value);
    }
  }

  lemma CalmGitOps(o: Oracle, w: World, spec: Spec)
    requires Calm(o)
    ensures Is(GitOpsSpec.ReconcileGitOps(o, w, spec), w, GitOps(w.store, spec))
  {
    hide GitOpsSpec.HandleGitOps, GitOpsSpec.RemoveSingle, GitOpsSpec.HandleTektonTaskCleanUp;
    hide GitOpsOn, RemoveIfSingle, RemoveTasks, Calm;
    var ns := spec.argoCDNamespace;
    CalmGitOpsOn(o, w, ns);
    CalmRemoveSingle(o, w, AppProject, ns);
    var w1 := GitOpsSpec.RemoveSingle(o, w, AppProject, ns).w;
    CalmRemoveSingle(o, w1, Pipeline, ns);
    CalmRemoveTasks(o, GitOpsSpec.RemoveSingle(o, w1, Pipeline, ns).w, ns);
  }

  // ---------- Clean-up ----------

  lemma CalmRemoveKind(o: Oracle, w: World, kind: Kind, ns: string)
    requires Calm(o) && kind != Namespace
    ensures Is(Kube.RemoveCustomResourcesInNamespace(o, w, kind, ns), w, Fine(RemoveKind(w.store, kind, ns)))
  {
    hide List, Kube.RemoveAll, Matching, RemoveKind;
    CalmList(o, w, kind, ns);
    var r := List(o, w, kind, ns);
    CalmRemoveMatching(o, r.w, kind, ns, r.value);
  }

  lemma CalmKnativeCleanUp(o: Oracle, w: World)
    requires Calm(o)
    ensures Is(KnativeSpec.HandleKnativeCleanUp(o, w), w, Fine(KnativeGone(w.store)))
  {
    hide Kube.CleanUpNamespace, DropNamespace, Calm;
    CalmCleanUpNamespace(o, w, EVENTING);
    var w1 := Kube.CleanUpNamespace(o, w, EVENTING).w;
    CalmCleanUpNamespace(o, w1, SERVING);
    CalmCleanUpNamespace(o, Kube.CleanUpNamespace(o, w1, SERVING).w, SERVERLESS.namespace);
  }

  lemma CalmLogicCleanUp(o: Oracle, w: World, ns: string)
    requires Calm(o)
    ensures Is(LogicSpec.HandleServerlessLogicCleanUp(o, w, ns), w, Fine(LogicGone(w.store, ns)))
  {
    hide Kube.RemoveCustomResourcesInNamespace, Kube.CleanUpNamespace, RemoveKind, DropNamespace, Calm;
    CalmRemoveKind(o, w, SonataFlowPlatform, ns);
    var w1 := Kube.RemoveCustomResourcesInNamespace(o, w, SonataFlowPlatform, ns).w;
    CalmRemoveKind(o, w1, SonataFlowClusterPlatform, ns);
    CalmCleanUpNamespace(o, Kube.RemoveCustomResourcesInNamespace(o, w1, SonataFlowClusterPlatform, ns).w, LOGIC.namespace);
  }

  lemma CalmHubCleanUp(o: Oracle, w: World, ns: string)
    requires Calm(o)
    ensures Is(HandleRHDHCleanUp(o, w, ns), w, Fine(HubGone(w.store, ns)))
  {
    hide Kube.CheckNamespaceExist, List, Kube.CleanUpNamespace, Matching, Adopt, DropNamespace;
    CalmCheckNamespaceExist(o, w, ns);
    var w1 := Kube.CheckNamespaceExist(o, w, ns).w;
    CalmCleanUpNamespace(o, w1, RHDH.namespace);
    if NamespaceKey(ns) in w.store {
      CalmList(o, w1, Backstage, ns);
      var w2 := List(o, w1, Backstage, ns).w;
      CalmCleanUpNamespace(o, w2, ns);
      CalmCleanUpNamespace(o, w2, RHDH.namespace);
      CalmCleanUpNamespace(o, Kube.CleanUpNamespace(o, w2, ns).w, RHDH.namespace);
    }
  }

  lemma CalmCleanUp(o: Oracle, w: World, spec: Spec)
    requires Calm(o)
    ensures Is(ReconcileSpec.HandleCleanUp(o, w, spec), w, Fine(CleanedUp(w.store, spec)))
  {
    hide KnativeSpec.HandleKnativeCleanUp, LogicSpec.HandleServerlessLogicCleanUp, HandleRHDHCleanUp;
    hide KnativeGone, LogicGone, HubGone, Calm;
    CalmKnativeCleanUp(o, w);
    var w1 := KnativeSpec.HandleKnativeCleanUp(o, w).w;
    CalmLogicCleanUp(o, w1, spec.platform.namespace);
    CalmHubCleanUp(o, LogicSpec.HandleServerlessLogicCleanUp(o, w1, spec.platform.namespace).w, spec.rhdh.namespace);
  }

  // ---------- The pass ----------

  lemma CalmStages(o: Oracle, st: ReconcileSpec.State, spec: Spec) returns (names: seq<string>)
    requires Calm(o)
    ensures IsOrder(names, CONFIG_MAPS.Keys)
    ensures var (st2, failed) := ReconcileSpec.RunStages(o, st, spec);
      (st2.w.store, st2.errors, failed) == Stages(st.w.store, st.errors, spec, names) && st2.w.cr == st.w.cr
  {
    hide LogicSpec.ReconcileServerlessLogic, KnativeSpec.ReconcileKnative, ReconcileRHDH;
    hide ReconcileNetworkPolicy, GitOpsSpec.ReconcileGitOps;
    hide Logic, Knative, Hub, PolicyStage, GitOps, Calm;
    CalmLogic(o, st.w, spec);
    var w1 := LogicSpec.ReconcileServerlessLogic(o, st.w, spec).w;
    CalmKnative(o, w1, spec);
    var w2 := KnativeSpec.ReconcileKnative(o, w1, spec).w;
    names := CalmHub(o, w2, spec);
    var w3 := ReconcileRHDH(o, w2, spec).w;
    CalmPolicyStage(o, w3, st.errors, spec);
    CalmGitOps(o, ReconcileNetworkPolicy(o, w3, st.errors, spec).0.w, spec);
  }

  lemma CalmGetCR(o: Oracle, w: World, first: bool)
    requires Calm(o) && w.cr.Some?
    ensures var r := GetCR(o, w, first);
      r.Ok? && r.value == w.cr.value && r.w.store == w.store && r.w.cr == w.cr
  {
    assert o(w.clock).fault.Healthy?;
  }

  lemma CalmUpdateStatus(o: Oracle, w: World, cr: Orchestrator, phase: Phase, c: Condition)
    requires Calm(o) && w.cr == Some(cr)
    ensures var next := cr.(status := Status(phase, ReconcileSpec.SetStatusCondition(cr.status.conditions, c)));
      var r := ReconcileSpec.UpdateStatus(o, w, cr, phase, c);
      r == Ok(r.w, next) && r.w.store == w.store && r.w.cr == Some(next)
  {
    assert o(w.clock).fault.Healthy?;
  }

  lemma CalmPrepare(o: Oracle, w: World, cr: Orchestrator)
    requires Calm(o) && w.cr == Some(cr) && !cr.deleting
    ensures var p := ReconcileSpec.Prepare(o, w, cr);
      p == ReconcileSpec.Go(p.w, Started(cr)) && p.w.store == w.store && p.w.cr == Some(Started(cr))
  {
    hide ReconcileSpec.UpdateStatus, GetCR;
    var added := ReconcileSpec.AddFinalizers(o, w, cr);
    assert o(w.clock).fault.Healthy?;
    assert FINALIZER in cr.finalizers ==> cr.finalizers + {FINALIZER} == cr.finalizers;
    if cr.status.conditions == [] {
      CalmUpdateStatus(o, added.w, added.value, Running, ReconcileSpec.STARTING);
      CalmGetCR(o, ReconcileSpec.UpdateStatus(o, added.w, added.value, Running, ReconcileSpec.STARTING).w, false);
    }
  }

  /** A whole pass without faults, for a resource that is not being deleted. */
  lemma CalmPass(o: Oracle, st: ReconcileSpec.State) returns (names: seq<string>)
    requires Calm(o) && st.w.cr.Some? && !st.w.cr.value.deleting
    ensures IsOrder(names, CONFIG_MAPS.Keys)
    ensures var cr := Started(st.w.cr.value);
      var (s, errors, failed) := Stages(st.w.store, st.errors, cr.spec, names);
      var (st2, v) := ReconcileSpec.Reconcile(o, st);
      && st2.w.store == s && st2.errors == errors
      && st2.w.cr == Some(Ended(cr, failed))
      && (v == ReconcileSpec.FINISHED <==> failed.None?)
  {
    hide GetCR, ReconcileSpec.Prepare, ReconcileSpec.RunStages, ReconcileSpec.UpdateStatus, Stages, Calm;
    var cr := st.w.cr.value;
    CalmGetCR(o, st.w, true);
    var w1 := GetCR(o, st.w, true).w;
    CalmPrepare(o, w1, cr);
    var st2 := st.(w := ReconcileSpec.Prepare(o, w1, cr).w);
    names := CalmStages(o, st2, cr.spec);
    var (st3, failed) := ReconcileSpec.RunStages(o, st2, cr.spec);
    if failed.None? {
      CalmUpdateStatus(o, st3.w, Started(cr), Completed, ReconcileSpec.DONE);
    } else {
      CalmUpdateStatus(o, st3.w, Started(cr), Failed, ReconcileSpec.DegradingCondition(failed.value));
    }
  }
}
