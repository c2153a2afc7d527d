/** When a pass without faults leaves everything as it is. */
module Fixpoint {
  import opened Kubernetes
  import opened Desired
  import opened ApiServer
  import opened Quiet
  import opened Goals
  import opened Convergence
  import opened Progress
  import DeveloperHubSpec
  import NetworkPoliciesSpec
  import Calmness
  import ReconcileSpec

  /** Installed, or waiting for OLM: nothing is left for the operator to do. */
  predicate InstallerSettled(s: Store, c: Component) {
    && Met(Marked(c.namespace), s)
    && Met(WellSpecified(c), s)
    && Met(InOrder(c), s)
  }

  predicate LogicSettled(s: Store, spec: Spec) {
    spec.serverlessLogic ==>
      && Met(Marked(spec.platform.namespace), s)
      && InstallerSettled(s, LOGIC)
      && CRDKey(CLUSTER_PLATFORM_CRD) in s
      && CLUSTER_PLATFORM_KEY in s
      && PlatformKey(spec.platform.namespace) in s
  }

  predicate KnativeSettled(s: Store, spec: Spec) {
    spec.serverless ==>
      && InstallerSettled(s, SERVERLESS)
      && CRDKey(EVENTING_CRD) in s && Met(Marked(EVENTING), s) && EVENTING_KEY in s
      && CRDKey(SERVING_CRD) in s && Met(Marked(SERVING), s) && SERVING_KEY in s
  }

  predicate HubSettled(s: Store, spec: Spec) {
    spec.rhdh.installOperator ==>
      && InstallerSettled(s, RHDH)
      && CLUSTER_INGRESS_KEY in s
      && SecretKey(spec.rhdh.namespace) in s
      && (forall n :: n in CONFIG_MAPS ==> ConfigMapKey(spec.rhdh.namespace, n) in s)
      && CRDKey(BACKSTAGE_CRD) in s
      && BackstageKey(spec.rhdh) in s
  }

  predicate PoliciesSettled(s: Store, spec: Spec, names: seq<string>) {
    forall name :: name in names && Applicable(name, spec.platform.monitoring) ==>
      Met(HasBody(PolicyKey(spec.platform.namespace, name), WantedPolicy(spec, name).body), s)
  }

  predicate GitOpsSettled(s: Store, spec: Spec) {
    var ns := spec.argoCDNamespace;
    if GitOpsIsOn(spec) then
      && CRDKey(APP_PROJECT_CRD) in s && CRDKey(TASK_CRD) in s && CRDKey(PIPELINE_CRD) in s
      && Met(HasBody(AppProjectKey(ns), APP_PROJECT.body), s)
      && (forall n :: n in TASKS ==> TaskKey(ns, n) in s)
      && PipelineKey(ns) in s
    else
      NamespaceKey(ns) in s ==>
        && Met(Marked(ns), s)
        && Met(NotSingle(AppProject, ns), s) && Met(NotSingle(Pipeline, ns), s)
        && Met(NoneOf(Task, ns), s)
  }

  predicate Settled(s: Store, spec: Spec) {
    && LogicSettled(s, spec)
    && KnativeSettled(s, spec)
    && HubSettled(s, spec)
    && Met(Marked(spec.platform.namespace), s)
    && PoliciesSettled(s, spec, NETWORK_POLICIES)
    && GitOpsSettled(s, spec)
  }

  // ---------- What is settled stays as it is ----------

  lemma AdoptingIsIdle(s: Store, ns: string)
    requires Met(Marked(ns), s)
    ensures Adopt(s, ns) == s && AdoptOrMake(s, ns) == s
  {
    Calmness.AdoptedTwice(s, ns);
  }

  lemma RepairingIsIdle(s: Store, k: Key, obj: Obj)
    requires Fits(k.kind, obj.body) && Met(HasBody(k, obj.body), s)
    ensures PutOrRepair(s, k, obj) == Fine(s)
  {
    assert s[k].(body := obj.body) == s[k];
  }

  lemma InstallIsIdle(s: Store, c: Component)
    requires InstallerSettled(s, c)
    ensures Install(s, c) == Fine(s)
  {
    AdoptingIsIdle(s, c.namespace);
    Calmness.RepairedTwice(s, c);
    var p := PinnedPlan(s, c);
    if p.Some? {
      assert Approved(s[p.value]) == s[p.value];
      assert s[p.value := s[p.value]] == s;
    }
  }

  lemma LogicIsIdle(s: Store, spec: Spec)
    requires LogicSettled(s, spec)
    ensures Logic(s, spec) == Fine(s)
  {
    hide Install, InstallerSettled, Adopt;
    if spec.serverlessLogic {
      AdoptingIsIdle(s, spec.platform.namespace);
      InstallIsIdle(s, LOGIC);
    }
  }

  lemma KnativeIsIdle(s: Store, spec: Spec)
    requires KnativeSettled(s, spec)
    ensures Knative(s, spec) == Fine(s)
  {
    hide Install, InstallerSettled, AdoptOrMake;
    if spec.serverless {
      InstallIsIdle(s, SERVERLESS);
      AdoptingIsIdle(s, EVENTING);
      AdoptingIsIdle(s, SERVING);
    }
  }

  lemma {:induction false} ConfigMapsAreIdle(s: Store, names: seq<string>, i: DeveloperHubSpec.Inputs)
    requires forall n :: n in names ==> n in CONFIG_MAPS && ConfigMapKey(i.rhdh.namespace, n) in s
    ensures ConfigMaps(s, names, CONFIG_MAPS, i) == Fine(s)
    decreases |names|
  {
    hide DeveloperHubSpec.TextOf, CONFIG_MAPS;
    if names != [] {
      ConfigMapsAreIdle(s, names[1..], i);
    }
  }

  lemma HubIsIdle(s: Store, spec: Spec, names: seq<string>)
    requires HubSettled(s, spec) && forall n :: n in names ==> n in CONFIG_MAPS
    ensures Hub(s, spec, names) == Fine(s)
  {
    hide Install, InstallerSettled, ConfigMaps, CONFIG_MAPS, Mounted;
    if spec.rhdh.installOperator {
      InstallIsIdle(s, RHDH);
      ConfigMapsAreIdle(s, names, InputsOf(s, spec));
    }
  }

  lemma {:induction false} PoliciesAreIdle(s: Store, spec: Spec, names: seq<string>)
    requires PoliciesSettled(s, spec, names)
    ensures Policies(s, map[], names, NetworkPoliciesSpec.NamespacesOf(spec), spec.platform.monitoring) == (s, map[])
    decreases |names|
  {
    hide Applicable, PutOrRepair, CreateIngress;
    if names != [] {
      if Applicable(names[0], spec.platform.monitoring) {
        RepairingIsIdle(s, PolicyKey(spec.platform.namespace, names[0]), WantedPolicy(spec, names[0]));
      }
      PoliciesAreIdle(s, spec, names[1..]);
    }
  }

  lemma PolicyStageIsIdle(s: Store, spec: Spec)
    requires Met(Marked(spec.platform.namespace), s) && PoliciesSettled(s, spec, NETWORK_POLICIES)
    ensures PolicyStage(s, map[], spec) == (Fine(s), map[])
  {
    hide Policies, PoliciesSettled, NETWORK_POLICIES, Adopt;
    AdoptingIsIdle(s, spec.platform.namespace);
    PoliciesAreIdle(s, spec, NETWORK_POLICIES);
  }

  lemma {:induction false} TasksAreIdle(s: Store, names: seq<string>, ns: string)
    requires forall n :: n in names ==> TaskKey(ns, n) in s
    ensures Tasks(s, names, ns) == Fine(s)
    decreases |names|
  {
    if names != [] {
      TasksAreIdle(s, names[1..], ns);
    }
  }

  lemma GitOpsIsIdle(s: Store, spec: Spec)
    requires GitOpsSettled(s, spec)
    ensures GitOps(s, spec) == Fine(s)
  {
    hide Tasks, PutOrRepair, TASKS, APP_PROJECT, Adopt, Matching;
    var ns := spec.argoCDNamespace;
    if GitOpsIsOn(spec) {
      ProjectFits(ns);
      RepairingIsIdle(s, AppProjectKey(ns), APP_PROJECT);
      TasksAreIdle(s, TASKS, ns);
    } else if NamespaceKey(ns) in s {
      AdoptingIsIdle(s, ns);
      assert s - Matching(s, Task, ns).Keys == s;
    }
  }

  lemma ProjectFits(ns: string)
    ensures Fits(AppProjectKey(ns).kind, APP_PROJECT.body)
  {
  }

  lemma SettledIsIdle(s: Store, spec: Spec, names: seq<string>)
    requires Settled(s, spec) && forall n :: n in names ==> n in CONFIG_MAPS
    ensures Stages(s, map[], spec, names) == (s, map[], None)
  {
    hide Logic, Knative, Hub, PolicyStage, GitOps, LogicSettled, KnativeSettled, HubSettled, PoliciesSettled;
    hide GitOpsSettled, CONFIG_MAPS;
    LogicIsIdle(s, spec);
    KnativeIsIdle(s, spec);
    HubIsIdle(s, spec, names);
    PolicyStageIsIdle(s, spec);
    GitOpsIsIdle(s, spec);
  }

  // ---------- A pass that completes settles everything ----------

  /** Goals a pass does not lose, though OLM may. */
  function PassGoals(spec: Spec): set<Goal> {
    GoalsOf(spec) + {InOrder(LOGIC), InOrder(SERVERLESS), InOrder(RHDH)}
  }

  lemma PassGoalsAreShaped(spec: Spec)
    ensures Shaped(PassGoals(spec)) && Tame(spec, PassGoals(spec)) && GoalsOf(spec) <= PassGoals(spec)
  {
    hide GoalsOf;
    GoalsAreShaped(spec);
  }

  lemma InstallerSteps(s: Store, c: Component)
    ensures Home(s, c).Fine? ==> Met(Marked(c.namespace), Home(s, c).s)
    ensures Subscribe(s, c).Fine? ==> Met(WellSpecified(c), Subscribe(s, c).s)
    ensures Approve(s, c).Fine? ==> Met(InOrder(c), Approve(s, c).s)
  {
  }

  lemma InstallSettles(goals: set<Goal>, s: Store, c: Component)
    requires Shaped(goals) && InstallerGoals(c) <= goals && InOrder(c) in goals && c in COMPONENTS
    ensures Install(s, c).Fine? ==> InstallerSettled(Install(s, c).s, c)
  {
    assert {Marked(c.namespace), WellSpecified(c)} <= InstallerGoals(c);
    hide InstallerGoals, Home, Subscribe, Approve, COMPONENTS, Evolves, Met, Shaped;
    var s1 := Home(s, c).s;
    if Install(s, c).Fine? {
      var s2 := Subscribe(s1, c).s;
      var s3 := Approve(s2, c).s;
      InstallerSteps(s, c);
      InstallerSteps(s1, c);
      InstallerSteps(s2, c);
      HomeEvolves(goals, s, c);
      SubscribeEvolves(goals, s1, c);
      GoalsStay(goals, s1, s2, Marked(c.namespace));
      ApproveEvolves(goals, s2, c);
      GoalsStay(goals, s2, s3, Marked(c.namespace));
      GoalsStay(goals, s2, s3, WellSpecified(c));
    }
  }

  lemma InstallerStaysSettled(goals: set<Goal>, s: Store, t: Store, c: Component)
    requires InstallerGoals(c) <= goals && InOrder(c) in goals && Evolves(goals, s, t) && InstallerSettled(s, c)
    ensures InstallerSettled(t, c)
  {
    assert {Marked(c.namespace), WellSpecified(c)} <= InstallerGoals(c);
    hide InstallerGoals, Evolves, Met;
    GoalsStay(goals, s, t, Marked(c.namespace));
    GoalsStay(goals, s, t, WellSpecified(c));
    GoalsStay(goals, s, t, InOrder(c));
  }

  lemma LogicCRsSettle(s: Store, spec: Spec)
    ensures var q, wf := LogicCRs(s, spec), spec.platform.namespace;
      q.Fine? ==> Met(Marked(wf), q.s) && CLUSTER_PLATFORM_KEY in q.s && PlatformKey(wf) in q.s && forall k :: k in s ==> k in q.s
  {
    assert NamespaceKey(spec.platform.namespace) in s ==> Labelled(Adopted(s[NamespaceKey(spec.platform.namespace)]).labels);
  }

  lemma LogicSettles(goals: set<Goal>, s: Store, spec: Spec)
    requires Shaped(goals) && LogicGoals(spec) <= goals && InOrder(LOGIC) in goals
    ensures Logic(s, spec).Fine? ==> LogicSettled(Logic(s, spec).s, spec)
  {
    if spec.serverlessLogic && Logic(s, spec).Fine? {
      var wf := spec.platform.namespace;
      assert InstallerGoals(LOGIC) <= LogicGoals(spec);
      assert {Present(NamespaceKey(wf)), Marked(wf)} <= LogicGoals(spec);
      hide InstallerGoals, LogicGoals, Workflow, Install, LogicCRs, Evolves, Met, Shaped, InstallerSettled;
      var s1 := Workflow(s, wf).s;
      WorkflowEvolves(goals, s, wf);
      InstallEvolves(goals, s1, LOGIC);
      InstallSettles(goals, s1, LOGIC);
      var s2 := Install(s1, LOGIC).s;
      PresentStays(goals, s1, s2, NamespaceKey(wf));
      LogicCRsEvolve(goals, s2, spec);
      LogicCRsSettle(s2, spec);
      InstallerStaysSettled(goals, s2, LogicCRs(s2, spec).s, LOGIC);
    }
  }

  lemma PresentStays(goals: set<Goal>, s: Store, t: Store, k: Key)
    requires Present(k) in goals && Evolves(goals, s, t) && k in s
    ensures k in t
  {
    GoalsStay(goals, s, t, Present(k));
  }

  lemma KnativeCRsSettle(s: Store)
    ensures var q := KnativeCRs(s);
      q.Fine? ==>
        && CRDKey(EVENTING_CRD) in q.s && Met(Marked(EVENTING), q.s) && EVENTING_KEY in q.s
        && CRDKey(SERVING_CRD) in q.s && Met(Marked(SERVING), q.s) && SERVING_KEY in q.s
  {
    hide KnativeResource;
    if KnativeCRs(s).Fine? {
      var s1 := KnativeResource(s, EVENTING, EVENTING_KEY).s;
      KnativeResourceSettles(s, EVENTING, EVENTING_KEY);
      KnativeResourceSettles(s1, SERVING, SERVING_KEY);
    }
  }

  lemma KnativeResourceSettles(s: Store, ns: string, k: Key)
    requires k.kind in {KnativeEventing, KnativeServing} && k.ns == ns
    ensures var t := KnativeResource(s, ns, k).s;
      && Met(Marked(ns), t) && k in t && (forall j :: j in s ==> j in t)
      && (forall m :: m != ns && Met(Marked(m), s) ==> Met(Marked(m), t))
  {
    assert NamespaceKey(ns) in s ==> Labelled(Adopted(s[NamespaceKey(ns)]).labels);
  }

  lemma KnativeSettles(goals: set<Goal>, s: Store, spec: Spec)
    requires Shaped(goals) && KnativeGoals(spec) <= goals && InOrder(SERVERLESS) in goals
    ensures Knative(s, spec).Fine? ==> KnativeSettled(Knative(s, spec).s, spec)
  {
    hide InstallerGoals, KnativeGoals, Install, KnativeCRs, Shaped, Ready, Met, InstallerSettled;
    hide Provides, Enabled, COMPONENTS, SERVERLESS, Evolves;
    if spec.serverless && Knative(s, spec).Fine? {
      KnativeBelongs(s, spec);
      InstallSettles(goals, s, SERVERLESS);
      var s1 := Install(s, SERVERLESS).s;
      KnativeCRsEvolve(goals, s1, spec);
      KnativeCRsSettle(s1);
      InstallerStaysSettled(goals, s1, KnativeCRs(s1).s, SERVERLESS);
    }
  }

  lemma {:induction false} ConfigMapsSettle(s: Store, names: seq<string>, i: DeveloperHubSpec.Inputs)
    requires forall n :: n in names ==> n in CONFIG_MAPS
    ensures var q := ConfigMaps(s, names, CONFIG_MAPS, i);
      q.Fine? ==> (forall j :: j in s ==> j in q.s) && forall n :: n in names ==> ConfigMapKey(i.rhdh.namespace, n) in q.s
    decreases |names|
  {
    hide DeveloperHubSpec.TextOf, CONFIG_MAPS;
    if names != [] {
      var k := ConfigMapKey(i.rhdh.namespace, names[0]);
      var q := GetOrPut(s, k, NewConfigMap(CONFIG_MAPS[names[0]], DeveloperHubSpec.TextOf(names[0], i)));
      ConfigMapsSettle(q.s, names[1..], i);
      assert forall n :: n in names ==> n == names[0] || n in names[1..];
    }
  }

  lemma GettingOrPuttingKeeps(s: Store, k: Key, obj: Obj)
    requires Fits(k.kind, obj.body)
    ensures var q := GetOrPut(s, k, obj); (q.Fine? ==> k in q.s) && forall j :: j in s ==> j in q.s
  {
  }

  lemma HubRestSettles(s: Store, spec: Spec, names: seq<string>)
    requires CLUSTER_INGRESS_KEY in s && IsOrder(names, CONFIG_MAPS.Keys)
    ensures var q := HubRest(s, spec, names);
      q.Fine? ==>
        && CLUSTER_INGRESS_KEY in q.s
        && SecretKey(spec.rhdh.namespace) in q.s
        && (forall n :: n in CONFIG_MAPS ==> ConfigMapKey(spec.rhdh.namespace, n) in q.s)
        && CRDKey(BACKSTAGE_CRD) in q.s
        && BackstageKey(spec.rhdh) in q.s
  {
    hide ConfigMaps, CONFIG_MAPS, Mounted, REGISTRY_SECRET, CLUSTER_INGRESS_KEY, BACKSTAGE_CRD, GetOrPut;
    var s3 := GetOrPut(s, SecretKey(spec.rhdh.namespace), NPMRC).s;
    GettingOrPuttingKeeps(s, SecretKey(spec.rhdh.namespace), NPMRC);
    ConfigMapsSettle(s3, names, InputsOf(s, spec));
    var s4 := ConfigMaps(s3, names, CONFIG_MAPS, InputsOf(s, spec)).s;
    GettingOrPuttingKeeps(s4, BackstageKey(spec.rhdh), NewBackstage(Mounted(names)));
  }

  lemma HubSettles(goals: set<Goal>, s: Store, spec: Spec, names: seq<string>)
    requires Shaped(goals) && GoalsOf(spec) <= goals && InOrder(RHDH) in goals && IsOrder(names, CONFIG_MAPS.Keys)
    ensures Hub(s, spec, names).Fine? ==> HubSettled(Hub(s, spec, names).s, spec)
  {
    hide GoalsOf, InstallerGoals, HubGoals, Install, HubCRs, ConfigMaps, GetOrPut, Evolves, Shaped, Ready, Met;
    hide InstallerSettled, OlmIsAwaited;
    hide Provides, Enabled, COMPONENTS, RHDH, BACKSTAGE_CRD, CLUSTER_INGRESS_KEY, CONFIG_MAPS;
    if spec.rhdh.installOperator && Hub(s, spec, names).Fine? {
      HubBelongs(spec);
      HubInstallerEvolves(goals, s, spec);
      InstallSettles(goals, s, RHDH);
      var s1 := Install(s, RHDH).s;
      assert Hub(s, spec, names) == HubRest(s1, spec, names);
      HubRestEvolves(goals, s1, spec, names);
      HubRestSettles(s1, spec, names);
      InstallerStaysSettled(goals, s1, HubRest(s1, spec, names).s, RHDH);
    }
  }

  lemma {:induction false} PoliciesSettle(goals: set<Goal>, s: Store, names: seq<string>, spec: Spec)
    requires Shaped(goals) && Tame(spec, goals) && PolicyGoals(spec) <= goals && NamespaceKey(spec.platform.namespace) in s
    requires forall name :: name in names ==> name in NETWORK_POLICIES
    ensures PoliciesSettled(Policies(s, map[], names, NetworkPoliciesSpec.NamespacesOf(spec), spec.platform.monitoring).0, spec, names)
    decreases |names|
  {
    hide Policy, NETWORK_POLICIES, Applicable, Shaped, Tame, PutOrRepair;
    if names != [] {
      hide Evolves;
      if Applicable(names[0], spec.platform.monitoring) {
        var k := PolicyKey(spec.platform.namespace, names[0]);
        PolicyEvolves(goals, s, names[0], spec);
        var s1 := PutOrRepair(s, k, WantedPolicy(spec, names[0])).s;
        RepairSettles(s, k, WantedPolicy(spec, names[0]));
        PoliciesSettle(goals, s1, names[1..], spec);
        PoliciesEvolve(goals, s1, names[1..], spec);
        assert HasBody(k, WantedPolicy(spec, names[0]).body) in PolicyGoals(spec);
        GoalsStay(goals, s1, Policies(s1, map[], names[1..], NetworkPoliciesSpec.NamespacesOf(spec), spec.platform.monitoring).0,
                  HasBody(k, WantedPolicy(spec, names[0]).body));
      } else {
        PoliciesSettle(goals, s, names[1..], spec);
      }
      assert forall n :: n in names ==> n == names[0] || n in names[1..];
    }
  }

  lemma RepairSettles(s: Store, k: Key, obj: Obj)
    requires Fits(k.kind, obj.body)
    ensures PutOrRepair(s, k, obj).Fine? ==> Met(HasBody(k, obj.body), PutOrRepair(s, k, obj).s)
  {
  }

  lemma PolicyStageSettles(goals: set<Goal>, s: Store, spec: Spec)
    requires Shaped(goals) && Tame(spec, goals) && PolicyGoals(spec) <= goals && NamespaceKey(spec.platform.namespace) in s
    ensures var t := PolicyStage(s, map[], spec).0.s;
      Met(Marked(spec.platform.namespace), t) && PoliciesSettled(t, spec, NETWORK_POLICIES)
  {
    var wf := spec.platform.namespace;
    assert Marked(wf) in PolicyGoals(spec);
    hide PolicyGoals, Policies, Evolves, NETWORK_POLICIES, COMPONENTS, PoliciesSettled, Shaped, Tame;
    var s1 := Adopt(s, wf);
    assert Met(Marked(wf), s1) by {
      assert Labelled(Adopted(s[NamespaceKey(wf)]).labels);
    }
    PoliciesEvolve(goals, s1, NETWORK_POLICIES, spec);
    PoliciesSettle(goals, s1, NETWORK_POLICIES, spec);
    GoalsStay(goals, s1,
              Policies(s1, map[], NETWORK_POLICIES, NetworkPoliciesSpec.NamespacesOf(spec), spec.platform.monitoring).0,
              Marked(wf));
  }

  lemma {:induction false} TasksSettle(s: Store, names: seq<string>, ns: string)
    ensures var q := Tasks(s, names, ns);
      q.Fine? ==>
        && (forall j :: j in s ==> j in q.s && q.s[j] == s[j])
        && forall n :: n in names ==> TaskKey(ns, n) in q.s
    decreases |names|
  {
    if names != [] {
      TasksSettle(GetOrPut(s, TaskKey(ns, names[0]), NewTask(names[0])).s, names[1..], ns);
      assert forall n :: n in names ==> n == names[0] || n in names[1..];
    }
  }

  lemma GitOpsOnSettles(s: Store, spec: Spec)
    requires GitOpsIsOn(spec)
    ensures GitOps(s, spec).Fine? ==> GitOpsSettled(GitOps(s, spec).s, spec)
  {
    hide Tasks, TASKS, APP_PROJECT, APP_PROJECT_CRD, TASK_CRD, PIPELINE_CRD, COMPONENTS, PutOrRepair;
    var ns := spec.argoCDNamespace;
    ProjectFits(ns);
    var s2 := PutOrRepair(s, AppProjectKey(ns), APP_PROJECT).s;
    RepairSettles(s, AppProjectKey(ns), APP_PROJECT);
    RepairKeeps(s, AppProjectKey(ns), APP_PROJECT);
    TasksSettle(s2, TASKS, ns);
  }

  lemma RepairKeeps(s: Store, k: Key, obj: Obj)
    requires Fits(k.kind, obj.body)
    ensures forall j :: j in s ==> j in PutOrRepair(s, k, obj).s
  {
  }

  lemma GitOpsOffSettles(s: Store, spec: Spec)
    requires !GitOpsIsOn(spec)
    ensures GitOpsSettled(GitOpsOff(s, spec.argoCDNamespace), spec)
  {
    hide RemoveIfSingle, RemoveTasks, Matching, COMPONENTS, PinnedPlan, CreateSubscriptionSpec, Labelled;
    hide LogicSettled, KnativeSettled, HubSettled, PoliciesSettled;
    var ns := spec.argoCDNamespace;
    var s1 := RemoveIfSingle(s, AppProject, ns);
    var s2 := RemoveIfSingle(s1, Pipeline, ns);
    RemoveIfSingleSettles(s, AppProject, ns);
    RemoveIfSingleSettles(s1, Pipeline, ns);
    RemoveTasksSettles(s2, ns);
  }

  /** Only labelled objects of this kind go. */
  lemma RemovingClears(s: Store, kind: Kind, ns: string)
    requires kind != Namespace
    ensures var t := RemoveKind(s, kind, ns);
      && Matching(t, kind, ns) == map[]
      && (forall k: Key :: k.kind != kind ==> (k in s <==> k in t) && (k in s ==> t[k] == s[k]))
  {
  }

  lemma AdoptingMarks(s: Store, ns: string)
    requires NamespaceKey(ns) in s
    ensures Met(Marked(ns), Adopt(s, ns))
    ensures forall k: Key :: k.kind != Namespace ==> (k in s <==> k in Adopt(s, ns)) && (k in s ==> Adopt(s, ns)[k] == s[k])
  {
    assert Labelled(Adopted(s[NamespaceKey(ns)]).labels);
  }

  lemma OthersMatchAlike(s: Store, t: Store, kind: Kind, ns: string)
    requires forall k: Key :: k.kind !in {kind, Namespace} ==> (k in s <==> k in t) && (k in s ==> t[k] == s[k])
    ensures forall other :: other !in {kind, Namespace} ==> Matching(t, other, ns) == Matching(s, other, ns)
  {
    hide Matching;
    forall other | other !in {kind, Namespace} ensures Matching(t, other, ns) == Matching(s, other, ns) {
      MatchingStays(s, t, other, ns);
    }
  }

  lemma RemoveIfSingleSettles(s: Store, kind: Kind, ns: string)
    requires kind in {AppProject, Pipeline}
    ensures var t := RemoveIfSingle(s, kind, ns);
      && (NamespaceKey(ns) in s <==> NamespaceKey(ns) in t)
      && (NamespaceKey(ns) in s ==> Met(NotSingle(kind, ns), t) && Met(Marked(ns), t))
      && (forall other :: other !in {kind, Namespace} ==> Matching(t, other, ns) == Matching(s, other, ns))
  {
    hide Adopt, RemoveKind, Matching;
    if NamespaceKey(ns) in s {
      var s1 := Adopt(s, ns);
      AdoptingMarks(s, ns);
      RemovingClears(s1, kind, ns);
      OthersMatchAlike(s, RemoveIfSingle(s, kind, ns), kind, ns);
    }
  }

  lemma RemoveTasksSettles(s: Store, ns: string)
    ensures var t := RemoveTasks(s, ns);
      && (NamespaceKey(ns) in s <==> NamespaceKey(ns) in t)
      && (NamespaceKey(ns) in s ==> Met(NoneOf(Task, ns), t) && Met(Marked(ns), t))
      && (forall other :: other !in {Task, Namespace} ==> Matching(t, other, ns) == Matching(s, other, ns))
  {
    hide Adopt, RemoveKind, Matching;
    if NamespaceKey(ns) in s {
      AdoptingMarks(s, ns);
      RemovingClears(Adopt(s, ns), Task, ns);
      OthersMatchAlike(s, RemoveTasks(s, ns), Task, ns);
    }
  }

  // ---------- What a stage has settled, later stages leave settled ----------

  lemma LogicStaysSettled(goals: set<Goal>, s: Store, t: Store, spec: Spec)
    requires LogicGoals(spec) <= goals && InOrder(LOGIC) in goals && Evolves(goals, s, t) && LogicSettled(s, spec)
    ensures LogicSettled(t, spec)
  {
    if spec.serverlessLogic {
      var wf := spec.platform.namespace;
      assert InstallerGoals(LOGIC) <= LogicGoals(spec);
      assert {Marked(wf), Present(CRDKey(CLUSTER_PLATFORM_CRD)), Present(CLUSTER_PLATFORM_KEY),
              Present(PlatformKey(wf))} <= LogicGoals(spec);
      hide InstallerGoals, LogicGoals, InstallerSettled, Evolves, CLUSTER_PLATFORM_CRD, CLUSTER_PLATFORM_KEY, LOGIC;
      InstallerStaysSettled(goals, s, t, LOGIC);
      GoalsStay(goals, s, t, Marked(wf));
      PresentStays(goals, s, t, CRDKey(CLUSTER_PLATFORM_CRD));
      PresentStays(goals, s, t, CLUSTER_PLATFORM_KEY);
      PresentStays(goals, s, t, PlatformKey(wf));
    }
  }

  lemma KnativeStaysSettled(goals: set<Goal>, s: Store, t: Store, spec: Spec)
    requires KnativeGoals(spec) <= goals && InOrder(SERVERLESS) in goals && Evolves(goals, s, t) && KnativeSettled(s, spec)
    ensures KnativeSettled(t, spec)
  {
    if spec.serverless {
      assert InstallerGoals(SERVERLESS) <= KnativeGoals(spec);
      assert {Present(CRDKey(EVENTING_CRD)), Marked(EVENTING), Present(EVENTING_KEY)} <= KnativeGoals(spec);
      assert {Present(CRDKey(SERVING_CRD)), Marked(SERVING), Present(SERVING_KEY)} <= KnativeGoals(spec);
      hide InstallerGoals, KnativeGoals, InstallerSettled, Evolves, EVENTING_CRD, SERVING_CRD, EVENTING_KEY;
      hide SERVING_KEY, EVENTING, SERVING, SERVERLESS;
      InstallerStaysSettled(goals, s, t, SERVERLESS);
      PresentStays(goals, s, t, CRDKey(EVENTING_CRD));
      GoalsStay(goals, s, t, Marked(EVENTING));
      PresentStays(goals, s, t, EVENTING_KEY);
      PresentStays(goals, s, t, CRDKey(SERVING_CRD));
      GoalsStay(goals, s, t, Marked(SERVING));
      PresentStays(goals, s, t, SERVING_KEY);
    }
  }

  lemma HubStaysSettled(goals: set<Goal>, s: Store, t: Store, spec: Spec)
    requires HubGoals(spec) <= goals && InOrder(RHDH) in goals && Evolves(goals, s, t) && HubSettled(s, spec)
    ensures HubSettled(t, spec)
  {
    if spec.rhdh.installOperator {
      var ns := spec.rhdh.namespace;
      HubKeysBelong(spec);
      hide InstallerGoals, HubGoals, InstallerSettled, Evolves, BACKSTAGE_CRD, CLUSTER_INGRESS_KEY, RHDH;
      hide CONFIG_MAPS, REGISTRY_SECRET;
      InstallerStaysSettled(goals, s, t, RHDH);
      PresentStays(goals, s, t, CLUSTER_INGRESS_KEY);
      PresentStays(goals, s, t, SecretKey(ns));
      forall n | n in CONFIG_MAPS ensures ConfigMapKey(ns, n) in t {
        PresentStays(goals, s, t, ConfigMapKey(ns, n));
      }
      PresentStays(goals, s, t, CRDKey(BACKSTAGE_CRD));
      PresentStays(goals, s, t, BackstageKey(spec.rhdh));
    }
  }

  lemma HubKeysBelong(spec: Spec)
    requires spec.rhdh.installOperator
    ensures InstallerGoals(RHDH) <= HubGoals(spec)
    ensures {Present(CLUSTER_INGRESS_KEY), Present(SecretKey(spec.rhdh.namespace)), Present(CRDKey(BACKSTAGE_CRD)),
             Present(BackstageKey(spec.rhdh))} <= HubGoals(spec)
    ensures forall n :: n in CONFIG_MAPS ==> Present(ConfigMapKey(spec.rhdh.namespace, n)) in HubGoals(spec)
  {
  }

  lemma PoliciesStaySettled(goals: set<Goal>, s: Store, t: Store, spec: Spec)
    requires PolicyGoals(spec) <= goals && Evolves(goals, s, t)
    requires Met(Marked(spec.platform.namespace), s) && PoliciesSettled(s, spec, NETWORK_POLICIES)
    ensures Met(Marked(spec.platform.namespace), t) && PoliciesSettled(t, spec, NETWORK_POLICIES)
  {
    var wf := spec.platform.namespace;
    hide Evolves, NETWORK_POLICIES, Applicable, WantedPolicy, Met;
    assert Marked(wf) in PolicyGoals(spec);
    GoalsStay(goals, s, t, Marked(wf));
    forall name | name in NETWORK_POLICIES && Applicable(name, spec.platform.monitoring)
      ensures Met(HasBody(PolicyKey(wf, name), WantedPolicy(spec, name).body), t)
    {
      assert HasBody(PolicyKey(wf, name), WantedPolicy(spec, name).body) in PolicyGoals(spec);
      GoalsStay(goals, s, t, HasBody(PolicyKey(wf, name), WantedPolicy(spec, name).body));
    }
  }

  lemma StagesSettle(s: Store, spec: Spec, names: seq<string>)
    requires IsOrder(names, CONFIG_MAPS.Keys)
    ensures var (t, _, failed) := Stages(s, map[], spec, names);
      failed.None? ==> Settled(t, spec)
  {
    hide LogicGoals, KnativeGoals, HubGoals, PolicyGoals, GitOpsGoals, Ready, Evolves, Shaped, Tame;
    hide NETWORK_POLICIES, Met;
    hide Logic, Knative, Hub, PolicyStage, GitOps, OlmIsAwaited, CONFIG_MAPS, COMPONENTS, LOGIC, SERVERLESS, RHDH;
    hide LogicSettled, KnativeSettled, HubSettled, PoliciesSettled, GitOpsSettled;
    if Stages(s, map[], spec, names).2.None? {
      var goals := PassGoals(spec);
      PassGoalsAreShaped(spec);
      LogicEvolves(goals, s, spec);
      LogicSettles(goals, s, spec);
      var s1 := Logic(s, spec).s;
      KnativeEvolves(goals, s1, spec);
      KnativeSettles(goals, s1, spec);
      var s2 := Knative(s1, spec).s;
      HubEvolves(goals, s2, spec, names);
      HubSettles(goals, s2, spec, names);
      var s3 := Hub(s2, spec, names).s;
      PolicyStageEvolves(goals, s3, spec);
      PolicyStageSettles(goals, s3, spec);
      var s4 := PolicyStage(s3, map[], spec).0.s;
      GitOpsEvolves(goals, s4, spec);
      var s5 := GitOps(s4, spec).s;
      assert GitOpsSettled(s5, spec) by {
        if GitOpsIsOn(spec) {
          GitOpsOnSettles(s4, spec);
        } else {
          GitOpsIsOff(s4, spec);
          GitOpsOffSettles(s4, spec);
        }
      }
      PoliciesStaySettled(goals, s4, s5, spec);
      EvolvesOn(goals, s3, s4, s5);
      HubStaysSettled(goals, s3, s5, spec);
      EvolvesOn(goals, s2, s3, s5);
      KnativeStaysSettled(goals, s2, s5, spec);
      EvolvesOn(goals, s1, s2, s5);
      LogicStaysSettled(goals, s1, s5, spec);
    }
  }

  lemma GitOpsIsOff(s: Store, spec: Spec)
    requires !GitOpsIsOn(spec)
    ensures GitOps(s, spec) == Fine(GitOpsOff(s, spec.argoCDNamespace))
  {
  }

  // ---------- The pass ----------

  /** Everything the pass would bring about is there, and the resource says so. */
  predicate Converged(y: Sys) {
    Settled(y.s, y.cr.spec) && Begun(y.cr) && Finished(y.cr)
  }

  /** On a converged cluster a pass without faults changes neither the cluster nor the resource. */
  lemma ConvergedIsFixed(o: Oracle, st: ReconcileSpec.State)
    requires Calm(o) && st.errors == map[] && st.w.cr.Some? && !st.w.cr.value.deleting
    requires Converged(Sys(st.w.store, st.w.cr.value))
    ensures var (end, v) := ReconcileSpec.Reconcile(o, st);
      end.w.store == st.w.store && end.w.cr == st.w.cr && end.errors == map[] && v == ReconcileSpec.FINISHED
  {
    hide ReconcileSpec.Reconcile, Stages, Settled, CONFIG_MAPS;
    var names := Calmness.CalmPass(o, st);
    SettledIsIdle(st.w.store, st.w.cr.value.spec, names);
  }

  /** A pass without faults that finishes leaves a converged cluster, whatever it has found. */
  lemma FinishingConverges(o: Oracle, st: ReconcileSpec.State)
    requires Calm(o) && st.errors == map[] && st.w.cr.Some? && !st.w.cr.value.deleting
    ensures var (end, v) := ReconcileSpec.Reconcile(o, st);
      v == ReconcileSpec.FINISHED ==> end.w.cr.Some? && Converged(Sys(end.w.store, end.w.cr.value))
  {
    hide ReconcileSpec.Reconcile, Stages, Settled, CONFIG_MAPS;
    var names := Calmness.CalmPass(o, st);
    StagesSettle(st.w.store, st.w.cr.value.spec, names);
    ResourceEvolves(st.w.cr.value, None);
  }

  /** Exactly the converged clusters are left as they are by a pass that finishes. */
  lemma ConvergedExactly(o: Oracle, st: ReconcileSpec.State)
    requires Calm(o) && st.errors == map[] && st.w.cr.Some? && !st.w.cr.value.deleting
    ensures var (end, v) := ReconcileSpec.Reconcile(o, st);
      Converged(Sys(st.w.store, st.w.cr.value)) <==>
      end.w.store == st.w.store && end.w.cr == st.w.cr && v == ReconcileSpec.FINISHED
  {
    hide ReconcileSpec.Reconcile, Converged;
    FinishingConverges(o, st);
    if Converged(Sys(st.w.store, st.w.cr.value)) {
      ConvergedIsFixed(o, st);
    }
  }
}
