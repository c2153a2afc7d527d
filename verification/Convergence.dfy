/** The operator and OLM bring the cluster to the wanted state together, and then leave it alone. */
module Convergence {
  import opened Kubernetes
  import opened Desired
  import opened ApiServer
  import opened Quiet
  import opened Goals
  import opened NetworkPoliciesSpec
  import DeveloperHubSpec
  import ReconcileSpec

  // ---------- The goals of a specification ----------

  function InstallerGoals(c: Component): set<Goal> {
    {Present(NamespaceKey(c.namespace)), Marked(c.namespace), Present(GroupKey(c)), Present(SubscriptionKey(c)),
     WellSpecified(c), Sane(c), HasResolved(c), PlanApproved(c)}
  }

  function LogicGoals(spec: Spec): set<Goal> {
    if !spec.serverlessLogic then {}
    else InstallerGoals(LOGIC) + LogicResources(spec)
  }

  function LogicResources(spec: Spec): set<Goal> {
    {Present(NamespaceKey(spec.platform.namespace)), Marked(spec.platform.namespace),
     Present(CRDKey(CLUSTER_PLATFORM_CRD)), Present(CLUSTER_PLATFORM_KEY), Present(PlatformKey(spec.platform.namespace))}
  }

  function KnativeGoals(spec: Spec): set<Goal> {
    if !spec.serverless then {}
    else InstallerGoals(SERVERLESS) + KnativeResources()
  }

  function KnativeResources(): set<Goal> {
    {Present(CRDKey(EVENTING_CRD)), Present(NamespaceKey(EVENTING)), Marked(EVENTING), Present(EVENTING_KEY),
     Present(CRDKey(SERVING_CRD)), Present(NamespaceKey(SERVING)), Marked(SERVING), Present(SERVING_KEY)}
  }

  function HubGoals(spec: Spec): set<Goal> {
    if !spec.rhdh.installOperator then {}
    else InstallerGoals(RHDH) + HubResources(spec)
  }

  function HubResources(spec: Spec): set<Goal> {
    {Present(NamespaceKey(spec.rhdh.namespace)), Present(CLUSTER_INGRESS_KEY), Present(SecretKey(spec.rhdh.namespace)),
     Present(CRDKey(BACKSTAGE_CRD)), Present(BackstageKey(spec.rhdh))} +
    (set n | n in CONFIG_MAPS :: Present(ConfigMapKey(spec.rhdh.namespace, n)))
  }

  function WantedPolicy(spec: Spec, name: string): Obj {
    Wanted(name, NamespacesOf(spec))
  }

  function PolicyGoals(spec: Spec): set<Goal> {
    var wf := spec.platform.namespace;
    {Present(NamespaceKey(wf)), Marked(wf)} +
    (set name | name in NETWORK_POLICIES && Applicable(name, spec.platform.monitoring) :: Present(PolicyKey(wf, name))) +
    (set name | name in NETWORK_POLICIES && Applicable(name, spec.platform.monitoring) ::
       HasBody(PolicyKey(wf, name), WantedPolicy(spec, name).body))
  }

  function GitOpsGoals(spec: Spec): set<Goal> {
    var ns := spec.argoCDNamespace;
    if spec.argoCDEnabled && spec.tektonEnabled then
      {Present(NamespaceKey(ns)), Present(CRDKey(APP_PROJECT_CRD)), Present(CRDKey(TASK_CRD)), Present(CRDKey(PIPELINE_CRD)),
       Present(AppProjectKey(ns)), HasBody(AppProjectKey(ns), APP_PROJECT.body), Present(PipelineKey(ns))} +
      (set name | name in TASKS :: Present(TaskKey(ns, name)))
    else
      {Marked(ns), NotSingle(AppProject, ns), NotSingle(Pipeline, ns), NoneOf(Task, ns)}
  }

  function GoalsOf(spec: Spec): set<Goal> {
    LogicGoals(spec) + KnativeGoals(spec) + HubGoals(spec) + PolicyGoals(spec) + GitOpsGoals(spec)
  }

  /** A goal that the writes of the operator cannot bring into conflict with others. */
  predicate ShapedGoal(g: Goal) {
    && (ForSubscription(g) ==> g.component in COMPONENTS)
    && (g.HasBody? ==> g.key.kind in {NetworkPolicy, AppProject})
    && (g.NotSingle? || g.NoneOf? ==> g.kind in {AppProject, Pipeline, Task})
  }

  predicate Shaped(goals: set<Goal>) {
    forall g :: g in goals ==> ShapedGoal(g)
  }

  predicate GitOpsIsOn(spec: Spec) {
    spec.argoCDEnabled && spec.tektonEnabled
  }

  /** An object has one body to have, and GitOps resources are wanted or unwanted, but not both. */
  predicate TameGoal(spec: Spec, g: Goal) {
    && (g.HasBody? && g.key.kind == NetworkPolicy ==> g.body == WantedPolicy(spec, g.key.name).body)
    && (g.HasBody? && g.key.kind == AppProject ==> g.body == APP_PROJECT.body)
    && (g.Present? || g.HasBody? ==> g.key.kind in {AppProject, Pipeline, Task} ==> GitOpsIsOn(spec))
    && (g.NotSingle? || g.NoneOf? ==> g.ns == spec.argoCDNamespace && !GitOpsIsOn(spec))
  }

  predicate Tame(spec: Spec, goals: set<Goal>) {
    forall g :: g in goals ==> TameGoal(spec, g)
  }

  /** OLM may bring plans about that are not in order yet. */
  predicate Plain(goals: set<Goal>) {
    forall g :: g in goals ==> !g.InOrder?
  }

  lemma GoalsAreShaped(spec: Spec)
    ensures Shaped(GoalsOf(spec)) && Tame(spec, GoalsOf(spec)) && Plain(GoalsOf(spec))
  {
    hide LogicGoals, KnativeGoals, HubGoals, PolicyGoals, GitOpsGoals, ShapedGoal, TameGoal;
    LogicGoalsAreShaped(spec);
    KnativeGoalsAreShaped(spec);
    HubGoalsAreShaped(spec);
    PolicyGoalsAreShaped(spec);
    GitOpsGoalsAreShaped(spec);
  }

  /** Goals that are in nobody's way. */
  predicate Modest(g: Goal) {
    g.Marked? || (g.Present? && g.key.kind !in {AppProject, Pipeline, Task})
  }

  lemma ModestGoalsAreShaped(spec: Spec, goals: set<Goal>)
    requires forall g :: g in goals ==> Modest(g)
    ensures Shaped(goals) && Tame(spec, goals) && Plain(goals)
  {
  }

  lemma LogicGoalsAreShaped(spec: Spec)
    ensures Shaped(LogicGoals(spec)) && Tame(spec, LogicGoals(spec)) && Plain(LogicGoals(spec))
  {
    hide InstallerGoals, LogicResources, COMPONENTS, LOGIC, Modest, ShapedGoal, TameGoal;
    ComponentsBelong();
    ResourcesAreModest(spec);
    InstallerGoalsAreShaped(spec, LOGIC);
    ModestGoalsAreShaped(spec, LogicResources(spec));
  }

  lemma KnativeGoalsAreShaped(spec: Spec)
    ensures Shaped(KnativeGoals(spec)) && Tame(spec, KnativeGoals(spec)) && Plain(KnativeGoals(spec))
  {
    hide InstallerGoals, KnativeResources, COMPONENTS, SERVERLESS, Modest, ShapedGoal, TameGoal;
    ComponentsBelong();
    ResourcesAreModest(spec);
    InstallerGoalsAreShaped(spec, SERVERLESS);
    ModestGoalsAreShaped(spec, KnativeResources());
  }

  lemma HubGoalsAreShaped(spec: Spec)
    ensures Shaped(HubGoals(spec)) && Tame(spec, HubGoals(spec)) && Plain(HubGoals(spec))
  {
    hide InstallerGoals, HubResources, COMPONENTS, RHDH, Modest, ShapedGoal, TameGoal;
    ComponentsBelong();
    ResourcesAreModest(spec);
    InstallerGoalsAreShaped(spec, RHDH);
    ModestGoalsAreShaped(spec, HubResources(spec));
  }

  lemma ComponentsBelong()
    ensures LOGIC in COMPONENTS && SERVERLESS in COMPONENTS && RHDH in COMPONENTS
  {
  }

  lemma ResourcesAreModest(spec: Spec)
    ensures forall g :: g in LogicResources(spec) + KnativeResources() + HubResources(spec) ==> Modest(g)
  {
    hide EVENTING, SERVING, EVENTING_CRD, SERVING_CRD, BACKSTAGE_CRD, CLUSTER_PLATFORM_CRD, CONFIG_MAPS, REGISTRY_SECRET;
  }

  lemma PolicyGoalsAreShaped(spec: Spec)
    ensures Shaped(PolicyGoals(spec)) && Tame(spec, PolicyGoals(spec)) && Plain(PolicyGoals(spec))
  {
    hide COMPONENTS, NETWORK_POLICIES, Applicable, WantedPolicy, APP_PROJECT;
  }

  lemma GitOpsGoalsAreShaped(spec: Spec)
    ensures Shaped(GitOpsGoals(spec)) && Tame(spec, GitOpsGoals(spec)) && Plain(GitOpsGoals(spec))
  {
    hide COMPONENTS, TASKS, WantedPolicy, APP_PROJECT;
  }

  lemma InstallerGoalsAreShaped(spec: Spec, c: Component)
    requires c in COMPONENTS
    ensures Shaped(InstallerGoals(c)) && Tame(spec, InstallerGoals(c)) && Plain(InstallerGoals(c))
  {
    hide COMPONENTS, APP_PROJECT, WantedPolicy;
  }

  // ---------- The installer ----------

  lemma HomeEvolves(goals: set<Goal>, s: Store, c: Component)
    requires Shaped(goals) && InstallerGoals(c) <= goals
    ensures var q := Home(s, c);
      && Evolves(goals, s, q.s)
      && (q.Bad? ==> q.error == NotFound && q.s != s)
      && (q.Fine? ==> NamespaceKey(c.namespace) in q.s)
      && (q == Fine(s) ==> Met(Marked(c.namespace), s))
  {
    assert Marked(c.namespace) in InstallerGoals(c) && Present(NamespaceKey(c.namespace)) in InstallerGoals(c);
    hide InstallerGoals, COMPONENTS, Evolves;
    MakingANamespaceEvolves(goals, s, c.namespace);
  }

  lemma SubscribeEvolves(goals: set<Goal>, s: Store, c: Component)
    requires Shaped(goals) && InstallerGoals(c) <= goals && c in COMPONENTS && NamespaceKey(c.namespace) in s
    ensures var q := Subscribe(s, c);
      && Evolves(goals, s, q.s) && q.Fine?
      && SubscriptionKey(c) in q.s
      && (q.s == s ==> Met(WellSpecified(c), s))
  {
    var k := SubscriptionKey(c);
    assert {Present(k), Present(GroupKey(c)), WellSpecified(c)} <= InstallerGoals(c);
    if k in s {
      hide InstallerGoals, Evolves;
      RespecifyingEvolves(goals, s, c);
    } else {
      var s1 := GetOrPut(s, GroupKey(c), NEW_GROUP).s;
      PuttingEvolves(goals, s, GroupKey(c), NEW_GROUP);
      SubscribingEvolves(goals, s1, c);
      EvolvesOn(goals, s, s1, Subscribe(s, c).s);
    }
  }

  lemma ApproveEvolves(goals: set<Goal>, s: Store, c: Component)
    requires Shaped(goals) && InstallerGoals(c) <= goals && c in COMPONENTS
    ensures var q := Approve(s, c);
      && Evolves(goals, s, q.s)
      && (q.Bad? ==> q.error == NotFound && !Met(Sane(c), s))
      && (q.Fine? && q.s == s ==> Met(InOrder(c), s))
  {
    assert PlanApproved(c) in InstallerGoals(c);
    hide InstallerGoals, Evolves, COMPONENTS;
    ApprovingEvolves(goals, s, c);
  }

  /** Whatever Subscription it finds, the installer loses no goal.  It waits only for a namespace it has
      just made or for a plan that is not there; if it changes nothing, then the plan of the pinned
      version is approved, or OLM has not resolved the Subscription to one. */
  lemma InstallEvolves(goals: set<Goal>, s: Store, c: Component)
    requires Shaped(goals) && InstallerGoals(c) <= goals && c in COMPONENTS
    ensures var q := Install(s, c);
      && Evolves(goals, s, q.s)
      && (q.Bad? ==> q.error == NotFound && (Met(Sane(c), s) ==> q.s != s))
      && (q.Fine? && q.s == s ==> Met(Marked(c.namespace), s) && Met(WellSpecified(c), s) && Met(InOrder(c), s))
  {
    assert Sane(c) in InstallerGoals(c) && Present(NamespaceKey(c.namespace)) in InstallerGoals(c);
    hide InstallerGoals, Home, Subscribe, Approve, COMPONENTS, Evolves, Met, Shaped;
    HomeEvolves(goals, s, c);
    var s1 := Home(s, c).s;
    if Home(s, c).Fine? {
      SubscribeEvolves(goals, s1, c);
      var s2 := Subscribe(s1, c).s;
      ApproveEvolves(goals, s2, c);
      EvolvesOn(goals, s, s1, s2);
      if Met(Sane(c), s) {
        GoalsStay(goals, s, s2, Sane(c));
      }
      EvolvesOn(goals, s, s2, Approve(s2, c).s);
    }
  }

  // ---------- The stages ----------

  /** The operator has done its part for this component, and OLM has not installed the definition. */
  predicate Awaited(s: Store, c: Component, crd: string) {
    && CRDKey(crd) !in s
    && Met(WellSpecified(c), s)
    && Met(InOrder(c), s)
  }

  /** The definitions OLM installs with a component. */
  function Provides(c: Component): set<string> {
    if c == LOGIC then {CLUSTER_PLATFORM_CRD}
    else if c == SERVERLESS then {EVENTING_CRD, SERVING_CRD}
    else if c == RHDH then {BACKSTAGE_CRD}
    else {}
  }

  function Enabled(spec: Spec): set<Component> {
    (if spec.serverlessLogic then {LOGIC} else {}) +
    (if spec.serverless then {SERVERLESS} else {}) +
    (if spec.rhdh.installOperator then {RHDH} else {})
  }

  predicate OlmIsAwaited(s: Store, spec: Spec) {
    exists c, crd :: c in Enabled(spec) && crd in Provides(c) && Awaited(s, c, crd)
  }

  /** What nobody brings about: it has to be there from the start. */
  predicate Ready(s: Store, spec: Spec) {
    && (if spec.serverlessLogic then Met(Sane(LOGIC), s) else NamespaceKey(spec.platform.namespace) in s)
    && (spec.serverless ==> Met(Sane(SERVERLESS), s))
    && (spec.rhdh.installOperator ==>
          && Met(Sane(RHDH), s)
          && CLUSTER_INGRESS_KEY in s
          && NamespaceKey(spec.rhdh.namespace) in s)
    && (spec.argoCDEnabled && spec.tektonEnabled ==>
          && NamespaceKey(spec.argoCDNamespace) in s
          && CRDKey(APP_PROJECT_CRD) in s && CRDKey(TASK_CRD) in s && CRDKey(PIPELINE_CRD) in s)
  }

  lemma ReadyStays(goals: set<Goal>, s: Store, t: Store, spec: Spec)
    requires Ready(s, spec) && GoalsOf(spec) <= goals && Evolves(goals, s, t)
    ensures Ready(t, spec)
  {
    hide Evolves, GoalsOf, COMPONENTS, PinnedPlan, APP_PROJECT_CRD, TASK_CRD, PIPELINE_CRD, CLUSTER_INGRESS_KEY;
    hide LOGIC, SERVERLESS, RHDH;
    forall g | g in goals && Met(g, s) ensures Met(g, t) {
      GoalsStay(goals, s, t, g);
    }
    PrerequisitesBelong(spec);
  }

  lemma PrerequisitesBelong(spec: Spec)
    ensures spec.serverlessLogic ==> Sane(LOGIC) in GoalsOf(spec)
    ensures spec.serverless ==> Sane(SERVERLESS) in GoalsOf(spec)
    ensures spec.rhdh.installOperator ==>
      && Sane(RHDH) in GoalsOf(spec)
      && Present(CLUSTER_INGRESS_KEY) in GoalsOf(spec)
      && Present(NamespaceKey(spec.rhdh.namespace)) in GoalsOf(spec)
    ensures Present(NamespaceKey(spec.platform.namespace)) in GoalsOf(spec)
    ensures spec.argoCDEnabled && spec.tektonEnabled ==>
      && Present(NamespaceKey(spec.argoCDNamespace)) in GoalsOf(spec)
      && Present(CRDKey(APP_PROJECT_CRD)) in GoalsOf(spec)
      && Present(CRDKey(TASK_CRD)) in GoalsOf(spec)
      && Present(CRDKey(PIPELINE_CRD)) in GoalsOf(spec)
  {
    hide APP_PROJECT_CRD, TASK_CRD, PIPELINE_CRD, LOGIC, SERVERLESS, RHDH, CLUSTER_INGRESS_KEY, APP_PROJECT, WantedPolicy;
    hide TASKS, CONFIG_MAPS, NETWORK_POLICIES, CLUSTER_PLATFORM_KEY, EVENTING, SERVING, REGISTRY_SECRET;
  }

  /** How a stage may end that waits for something. */
  predicate Waiting(q: Out, s: Store, spec: Spec) {
    q.Bad? ==> q.error == NotFound && (q.s == s ==> OlmIsAwaited(s, spec))
  }

  lemma PlatformsBelong(spec: Spec)
    requires spec.serverlessLogic
    ensures Marked(spec.platform.namespace) in LogicGoals(spec)
    ensures Present(CLUSTER_PLATFORM_KEY) in LogicGoals(spec) && CLUSTER_PLATFORM_KEY.kind == SonataFlowClusterPlatform
    ensures Present(PlatformKey(spec.platform.namespace)) in LogicGoals(spec)
  {
  }

  lemma PlatformsEvolve(goals: set<Goal>, s: Store, spec: Spec)
    requires Shaped(goals) && LogicGoals(spec) <= goals && spec.serverlessLogic && NamespaceKey(spec.platform.namespace) in s
    ensures var q := Platforms(s, spec);
      q.Fine? && Evolves(goals, s, q.s) && NamespaceKey(spec.platform.namespace) in q.s
  {
    hide LogicGoals, Evolves, GetOrPut, CLUSTER_PLATFORM_KEY, PLATFORM_NAME, COMPONENTS;
    var wf := spec.platform.namespace;
    PlatformsBelong(spec);
    EnsuringEvolves(goals, s, CLUSTER_PLATFORM_KEY, ClusterPlatform(wf));
    var s2 := GetOrPut(s, CLUSTER_PLATFORM_KEY, ClusterPlatform(wf)).s;
    EnsuringEvolves(goals, s2, PlatformKey(wf), Platform(spec));
    EvolvesOn(goals, s, s2, GetOrPut(s2, PlatformKey(wf), Platform(spec)).s);
  }

  lemma LogicCRsEvolve(goals: set<Goal>, s: Store, spec: Spec)
    requires Shaped(goals) && LogicGoals(spec) <= goals && spec.serverlessLogic && NamespaceKey(spec.platform.namespace) in s
    ensures var q := LogicCRs(s, spec);
      && Evolves(goals, s, q.s) && q.Fine?
      && NamespaceKey(spec.platform.namespace) in q.s
  {
    hide LogicGoals, Evolves, Platforms, CLUSTER_PLATFORM_KEY, PLATFORM_NAME, COMPONENTS;
    var s1 := Adopt(s, spec.platform.namespace);
    PlatformsBelong(spec);
    AdoptingEvolves(goals, s, spec.platform.namespace);
    PlatformsEvolve(goals, s1, spec);
    EvolvesOn(goals, s, s1, LogicCRs(s, spec).s);
  }

  lemma WorkflowEvolves(goals: set<Goal>, s: Store, wf: string)
    requires Shaped(goals) && Marked(wf) in goals && Present(NamespaceKey(wf)) in goals
    ensures var q := Workflow(s, wf);
      && Evolves(goals, s, q.s)
      && (q.Bad? ==> q.error == NotFound && q.s != s)
      && NamespaceKey(wf) in q.s
  {
    hide Evolves;
    MakingANamespaceEvolves(goals, s, wf);
  }

  lemma LogicEvolves(goals: set<Goal>, s: Store, spec: Spec)
    requires Shaped(goals) && LogicGoals(spec) <= goals
    ensures var q := Logic(s, spec);
      && Evolves(goals, s, q.s)
      && (Ready(s, spec) ==> Waiting(q, s, spec) && (q.Fine? ==> NamespaceKey(spec.platform.namespace) in q.s))
  {
    hide InstallerGoals, LogicGoals, Workflow, Install, LogicCRs, Evolves, Met, Shaped, Ready, COMPONENTS, LOGIC;
    hide CLUSTER_PLATFORM_CRD, Provides, Enabled;
    if spec.serverlessLogic {
      var wf := spec.platform.namespace;
      LogicBelongs(s, spec);
      WorkflowEvolves(goals, s, wf);
      var s1 := Workflow(s, wf).s;
      if Workflow(s, wf).Fine? {
        if Ready(s, spec) {
          GoalsStay(goals, s, s1, Sane(LOGIC));
        }
        InstallEvolves(goals, s1, LOGIC);
        var s2 := Install(s1, LOGIC).s;
        EvolvesOn(goals, s, s1, s2);
        if Install(s1, LOGIC).Fine? && CRDKey(CLUSTER_PLATFORM_CRD) in s2 {
          GoalsStay(goals, s1, s2, Present(NamespaceKey(wf)));
          PresentMeansThere(s1, s2, NamespaceKey(wf));
          LogicCRsEvolve(goals, s2, spec);
          EvolvesOn(goals, s, s2, LogicCRs(s2, spec).s);
        } else if s2 == s {
          assert Awaited(s, LOGIC, CLUSTER_PLATFORM_CRD) || Install(s1, LOGIC).Bad?;
        }
      }
    } else {
      StayingEvolves(goals, s);
      ReadyMeansWorkflow(s, spec);
    }
  }

  lemma PresentMeansThere(s: Store, t: Store, k: Key)
    ensures (Met(Present(k), s) <==> k in s) && (Met(Present(k), t) <==> k in t)
  {
  }

  lemma ReadyMeansWorkflow(s: Store, spec: Spec)
    requires !spec.serverlessLogic
    ensures Ready(s, spec) ==> NamespaceKey(spec.platform.namespace) in s
  {
  }

  lemma LogicBelongs(s: Store, spec: Spec)
    requires spec.serverlessLogic
    ensures InstallerGoals(LOGIC) <= LogicGoals(spec) && Sane(LOGIC) in LogicGoals(spec)
    ensures Present(NamespaceKey(spec.platform.namespace)) in LogicGoals(spec)
    ensures Marked(spec.platform.namespace) in LogicGoals(spec)
    ensures LOGIC in COMPONENTS && LOGIC in Enabled(spec) && CLUSTER_PLATFORM_CRD in Provides(LOGIC)
    ensures Ready(s, spec) ==> Met(Sane(LOGIC), s)
  {
    hide CLUSTER_PLATFORM_CRD, CLUSTER_PLATFORM_KEY, PLATFORM_NAME, Met;
  }

  lemma KnativeResourceEvolves(goals: set<Goal>, s: Store, ns: string, k: Key)
    requires Shaped(goals) && k.kind in {KnativeEventing, KnativeServing} && k.ns == ns
    requires Marked(ns) in goals && Present(NamespaceKey(ns)) in goals && Present(k) in goals
    ensures Evolves(goals, s, KnativeResource(s, ns, k).s)
  {
    hide Evolves;
    MakingANamespaceEvolves(goals, s, ns);
    var s1 := AdoptOrMake(s, ns);
    PuttingEvolves(goals, s1, k, KNATIVE_CR);
    EvolvesOn(goals, s, s1, GetOrPut(s1, k, KNATIVE_CR).s);
  }

  lemma KnativeCRsEvolve(goals: set<Goal>, s: Store, spec: Spec)
    requires Shaped(goals) && KnativeGoals(spec) <= goals && spec.serverless
    ensures var q := KnativeCRs(s);
      && Evolves(goals, s, q.s)
      && (q.Bad? ==> q.error == NotFound && (CRDKey(EVENTING_CRD) !in s || CRDKey(SERVING_CRD) !in s))
  {
    assert Marked(EVENTING) in goals && Present(NamespaceKey(EVENTING)) in goals && Present(EVENTING_KEY) in goals;
    assert Marked(SERVING) in goals && Present(NamespaceKey(SERVING)) in goals && Present(SERVING_KEY) in goals;
    assert Present(CRDKey(SERVING_CRD)) in goals;
    hide KnativeGoals, KnativeResource, Evolves;
    if CRDKey(EVENTING_CRD) in s {
      KnativeResourceEvolves(goals, s, EVENTING, EVENTING_KEY);
      var s1 := KnativeResource(s, EVENTING, EVENTING_KEY).s;
      KnativeResourceIsFine(s, EVENTING, EVENTING_KEY);
      if CRDKey(SERVING_CRD) in s1 {
        KnativeResourceEvolves(goals, s1, SERVING, SERVING_KEY);
        KnativeResourceIsFine(s1, SERVING, SERVING_KEY);
        EvolvesOn(goals, s, s1, KnativeResource(s1, SERVING, SERVING_KEY).s);
      }
    }
  }

  lemma KnativeResourceIsFine(s: Store, ns: string, k: Key)
    requires k.kind in {KnativeEventing, KnativeServing} && k.ns == ns
    ensures KnativeResource(s, ns, k).Fine?
    ensures forall j :: j in s ==> j in KnativeResource(s, ns, k).s
  {
  }

  lemma KnativeBelongs(s: Store, spec: Spec)
    requires spec.serverless
    ensures InstallerGoals(SERVERLESS) <= KnativeGoals(spec) && (Ready(s, spec) ==> Met(Sane(SERVERLESS), s))
    ensures SERVERLESS in COMPONENTS && SERVERLESS in Enabled(spec)
    ensures EVENTING_CRD in Provides(SERVERLESS) && SERVING_CRD in Provides(SERVERLESS)
  {
  }

  lemma KnativeEvolves(goals: set<Goal>, s: Store, spec: Spec)
    requires Shaped(goals) && KnativeGoals(spec) <= goals
    ensures var q := Knative(s, spec);
      Evolves(goals, s, q.s) && (Ready(s, spec) ==> Waiting(q, s, spec))
  {
    hide InstallerGoals, KnativeGoals, Install, KnativeCRs, Shaped, Ready, Met;
    hide Provides, Enabled, COMPONENTS, SERVERLESS, EVENTING_CRD, SERVING_CRD;
    if spec.serverless {
      hide Evolves;
      KnativeBelongs(s, spec);
      InstallEvolves(goals, s, SERVERLESS);
      var s1 := Install(s, SERVERLESS).s;
      if Install(s, SERVERLESS).Fine? {
        KnativeCRsEvolve(goals, s1, spec);
        EvolvesOn(goals, s, s1, KnativeCRs(s1).s);
        if s1 == s {
          assert Awaited(s, SERVERLESS, EVENTING_CRD) || CRDKey(EVENTING_CRD) in s;
          assert Awaited(s, SERVERLESS, SERVING_CRD) || CRDKey(SERVING_CRD) in s;
        }
      }
    }
  }

  // ---------- RHDH ----------

  lemma {:induction false} ConfigMapsEvolve(goals: set<Goal>, s: Store, names: seq<string>, i: DeveloperHubSpec.Inputs)
    requires Shaped(goals)
    requires forall n :: n in names ==> n in CONFIG_MAPS && Present(ConfigMapKey(i.rhdh.namespace, n)) in goals
    ensures var q := ConfigMaps(s, names, CONFIG_MAPS, i);
      && Evolves(goals, s, q.s)
      && (forall j :: j in s ==> j in q.s)
      && (NamespaceKey(i.rhdh.namespace) in s ==> q.Fine?)
    decreases |names|
  {
    if names != [] {
      hide Evolves, DeveloperHubSpec.TextOf, GetOrPut, CONFIG_MAPS;
      var obj := NewConfigMap(CONFIG_MAPS[names[0]], DeveloperHubSpec.TextOf(names[0], i));
      var k := ConfigMapKey(i.rhdh.namespace, names[0]);
      EnsuringEvolves(goals, s, k, obj);
      var s1 := GetOrPut(s, k, obj).s;
      ConfigMapsEvolve(goals, s1, names[1..], i);
      EvolvesOn(goals, s, s1, ConfigMaps(s1, names[1..], CONFIG_MAPS, i).s);
    }
  }

  /** Everything after the installer. */
  function HubRest(s: Store, spec: Spec, names: seq<string>): Out
    requires CLUSTER_INGRESS_KEY in s && forall n :: n in names ==> n in CONFIG_MAPS
  {
    var s3 :- GetOrPut(s, SecretKey(spec.rhdh.namespace), NPMRC);
    var s4 :- ConfigMaps(s3, names, CONFIG_MAPS, InputsOf(s, spec));
    HubCRs(s4, spec, names)
  }

  lemma HubResourcesBelong(spec: Spec, names: seq<string>)
    requires spec.rhdh.installOperator && forall n :: n in names ==> n in CONFIG_MAPS
    ensures forall n :: n in names ==> Present(ConfigMapKey(spec.rhdh.namespace, n)) in HubGoals(spec)
    ensures Present(SecretKey(spec.rhdh.namespace)) in HubGoals(spec) && Present(BackstageKey(spec.rhdh)) in HubGoals(spec)
  {
  }

  lemma HubCRsEvolve(goals: set<Goal>, s: Store, spec: Spec, names: seq<string>)
    requires Shaped(goals) && Present(BackstageKey(spec.rhdh)) in goals
    ensures var q := HubCRs(s, spec, names);
      && Evolves(goals, s, q.s)
      && (NamespaceKey(spec.rhdh.namespace) in s && q.Bad? ==> q.error == NotFound && CRDKey(BACKSTAGE_CRD) !in s)
  {
    hide GetOrPut, Met, BACKSTAGE_CRD, Mounted, COMPONENTS;
    if CRDKey(BACKSTAGE_CRD) in s {
      EnsuringEvolves(goals, s, BackstageKey(spec.rhdh), NewBackstage(Mounted(names)));
    }
  }

  lemma HubRestEvolves(goals: set<Goal>, s: Store, spec: Spec, names: seq<string>)
    requires Shaped(goals) && HubGoals(spec) <= goals && spec.rhdh.installOperator
    requires CLUSTER_INGRESS_KEY in s && forall n :: n in names ==> n in CONFIG_MAPS
    ensures var q := HubRest(s, spec, names);
      && Evolves(goals, s, q.s)
      && (NamespaceKey(spec.rhdh.namespace) in s && q.Bad? ==> q.error == NotFound && CRDKey(BACKSTAGE_CRD) !in s)
  {
    hide HubGoals, Evolves, GetOrPut, ConfigMaps, CONFIG_MAPS, Met, REGISTRY_SECRET, CLUSTER_INGRESS_KEY;
    hide COMPONENTS, BACKSTAGE_CRD, HubCRs;
    var ns := spec.rhdh.namespace;
    HubResourcesBelong(spec, names);
    EnsuringEvolves(goals, s, SecretKey(ns), NPMRC);
    var s3 := GetOrPut(s, SecretKey(ns), NPMRC).s;
    ConfigMapsEvolve(goals, s3, names, InputsOf(s, spec));
    var s4 := ConfigMaps(s3, names, CONFIG_MAPS, InputsOf(s, spec)).s;
    HubCRsEvolve(goals, s4, spec, names);
    EvolvesOn(goals, s, s3, s4);
    EvolvesOn(goals, s, s4, HubCRs(s4, spec, names).s);
  }

  lemma HubBelongs(spec: Spec)
    requires spec.rhdh.installOperator
    ensures InstallerGoals(RHDH) <= HubGoals(spec) <= GoalsOf(spec)
    ensures BACKSTAGE_CRD in Provides(RHDH) && RHDH in Enabled(spec) && RHDH in COMPONENTS
  {
  }

  lemma ReadyForHub(s: Store, spec: Spec)
    requires Ready(s, spec) && spec.rhdh.installOperator
    ensures CLUSTER_INGRESS_KEY in s && NamespaceKey(spec.rhdh.namespace) in s && Met(Sane(RHDH), s)
  {
  }

  lemma HubInstallerEvolves(goals: set<Goal>, s: Store, spec: Spec)
    requires Shaped(goals) && HubGoals(spec) <= goals && spec.rhdh.installOperator
    ensures var q := Install(s, RHDH);
      && Evolves(goals, s, q.s)
      && (Ready(s, spec) && q.Bad? ==> q.error == NotFound && q.s != s)
      && (q.Fine? && q.s == s && CRDKey(BACKSTAGE_CRD) !in s ==> OlmIsAwaited(s, spec))
  {
    hide InstallerGoals, HubGoals, Install, Evolves, Shaped, Ready, Met, Provides, Enabled, COMPONENTS, RHDH;
    hide BACKSTAGE_CRD;
    HubBelongs(spec);
    InstallEvolves(goals, s, RHDH);
    if Ready(s, spec) {
      ReadyForHub(s, spec);
    }
    var q := Install(s, RHDH);
    if q.Fine? && q.s == s && CRDKey(BACKSTAGE_CRD) !in s {
      assert Awaited(s, RHDH, BACKSTAGE_CRD);
    }
  }

  lemma HubEvolves(goals: set<Goal>, s: Store, spec: Spec, names: seq<string>)
    requires Shaped(goals) && GoalsOf(spec) <= goals && forall n :: n in names ==> n in CONFIG_MAPS
    ensures var q := Hub(s, spec, names);
      Evolves(goals, s, q.s) && (Ready(s, spec) ==> Waiting(q, s, spec))
  {
    hide GoalsOf, InstallerGoals, HubGoals, Install, HubCRs, ConfigMaps, GetOrPut, Shaped, Ready, Met, OlmIsAwaited;
    hide Provides, Enabled, COMPONENTS, RHDH, BACKSTAGE_CRD, CLUSTER_INGRESS_KEY, CONFIG_MAPS;
    if spec.rhdh.installOperator {
      hide Evolves;
      HubBelongs(spec);
      HubInstallerEvolves(goals, s, spec);
      var s1 := Install(s, RHDH).s;
      if Ready(s, spec) {
        ReadyStays(goals, s, s1, spec);
        ReadyForHub(s1, spec);
      }
      if Install(s, RHDH).Fine? && CLUSTER_INGRESS_KEY in s1 {
        assert Hub(s, spec, names) == HubRest(s1, spec, names);
        HubRestEvolves(goals, s1, spec, names);
        EvolvesOn(goals, s, s1, HubRest(s1, spec, names).s);
      }
    }
  }

  // ---------- Network policies ----------

  lemma {:induction false} PoliciesEvolve(goals: set<Goal>, s: Store, names: seq<string>, spec: Spec)
    requires Shaped(goals) && Tame(spec, goals) && PolicyGoals(spec) <= goals && NamespaceKey(spec.platform.namespace) in s
    requires forall name :: name in names ==> name in NETWORK_POLICIES
    ensures var r := Policies(s, map[], names, NamespacesOf(spec), spec.platform.monitoring);
      Evolves(goals, s, r.0) && r.1 == map[] && forall j :: j in s ==> j in r.0
    decreases |names|
  {
    hide PolicyGoals, Policy, NETWORK_POLICIES, Applicable, Shaped, Tame, PutOrRepair;
    if names != [] {
      if Applicable(names[0], spec.platform.monitoring) {
        hide Evolves;
        var k := PolicyKey(spec.platform.namespace, names[0]);
        PolicyEvolves(goals, s, names[0], spec);
        var s1 := PutOrRepair(s, k, WantedPolicy(spec, names[0])).s;
        PoliciesEvolve(goals, s1, names[1..], spec);
        EvolvesOn(goals, s, s1, Policies(s1, map[], names[1..], NamespacesOf(spec), spec.platform.monitoring).0);
      } else {
        PoliciesEvolve(goals, s, names[1..], spec);
      }
    }
  }

  lemma PolicyEvolves(goals: set<Goal>, s: Store, name: string, spec: Spec)
    requires Shaped(goals) && Tame(spec, goals) && PolicyGoals(spec) <= goals && NamespaceKey(spec.platform.namespace) in s
    requires name in NETWORK_POLICIES && Applicable(name, spec.platform.monitoring)
    ensures WantedPolicy(spec, name).body.PolicyBody?
    ensures var q := PutOrRepair(s, PolicyKey(spec.platform.namespace, name), WantedPolicy(spec, name));
      q.Fine? && Evolves(goals, s, q.s) && forall j :: j in s ==> j in q.s
  {
    hide Applicable, NETWORK_POLICIES, Evolves, CreateIngress, COMPONENTS;
    var k := PolicyKey(spec.platform.namespace, name);
    assert Present(k) in PolicyGoals(spec) && HasBody(k, WantedPolicy(spec, name).body) in PolicyGoals(spec);
    hide PolicyGoals;
    RepairingEvolves(goals, s, k, WantedPolicy(spec, name));
  }

  lemma PolicyStageEvolves(goals: set<Goal>, s: Store, spec: Spec)
    requires Shaped(goals) && Tame(spec, goals) && PolicyGoals(spec) <= goals
    ensures var r := PolicyStage(s, map[], spec);
      && Evolves(goals, s, r.0.s) && r.1 == map[]
      && (r.0.Fine? <==> NamespaceKey(spec.platform.namespace) in s)
  {
    var wf := spec.platform.namespace;
    assert Marked(wf) in PolicyGoals(spec);
    hide LogicGoals, KnativeGoals, HubGoals, PolicyGoals, GitOpsGoals, Policies, Evolves, NETWORK_POLICIES;
    hide COMPONENTS;
    AdoptingEvolves(goals, s, wf);
    var s1 := Adopt(s, wf);
    if NamespaceKey(wf) in s {
      PoliciesEvolve(goals, s1, NETWORK_POLICIES, spec);
      EvolvesOn(goals, s, s1, Policies(s1, map[], NETWORK_POLICIES, NamespacesOf(spec), spec.platform.monitoring).0);
    }
  }

  // ---------- GitOps ----------

  lemma {:induction false} TasksEvolve(goals: set<Goal>, s: Store, names: seq<string>, ns: string)
    requires Welcome(goals, Task)
    requires forall n :: n in names ==> Present(TaskKey(ns, n)) in goals
    ensures var q := Tasks(s, names, ns);
      Evolves(goals, s, q.s) && (NamespaceKey(ns) in s ==> q.Fine?) && forall j :: j in s ==> j in q.s
    decreases |names|
  {
    hide GetOrPut, Welcome;
    if names != [] {
      hide Evolves;
      var k := TaskKey(ns, names[0]);
      EnsuringEvolves(goals, s, k, NewTask(names[0]));
      var s1 := GetOrPut(s, k, NewTask(names[0])).s;
      TasksEvolve(goals, s1, names[1..], ns);
      EvolvesOn(goals, s, s1, Tasks(s1, names[1..], ns).s);
    }
  }

  lemma GitOpsBelongs(spec: Spec)
    requires GitOpsIsOn(spec)
    ensures var goals, ns := GitOpsGoals(spec), spec.argoCDNamespace;
      && Present(AppProjectKey(ns)) in goals && HasBody(AppProjectKey(ns), APP_PROJECT.body) in goals
      && (forall n :: n in TASKS ==> Present(TaskKey(ns, n)) in goals)
      && Present(PipelineKey(ns)) in goals
  {
    hide TASKS;
  }

  lemma ReadyForGitOps(s: Store, spec: Spec)
    requires GitOpsIsOn(spec)
    ensures Ready(s, spec) ==>
      && NamespaceKey(spec.argoCDNamespace) in s
      && CRDKey(APP_PROJECT_CRD) in s && CRDKey(TASK_CRD) in s && CRDKey(PIPELINE_CRD) in s
  {
  }

  lemma GitOpsOnEvolves(goals: set<Goal>, s: Store, spec: Spec)
    requires Shaped(goals) && Tame(spec, goals) && GitOpsGoals(spec) <= goals && GitOpsIsOn(spec)
    ensures var q := GitOpsOn(s, spec.argoCDNamespace);
      && Evolves(goals, s, q.s)
      && (Ready(s, spec) && q.Bad? ==> q.error == NotFound && q.s != s)
  {
    var ns := spec.argoCDNamespace;
    ReadyForGitOps(s, spec);
    hide LogicGoals, KnativeGoals, HubGoals, PolicyGoals, GitOpsGoals, Ready, Evolves, Tasks, TASKS, PutOrRepair;
    hide TASK_CRD, PIPELINE_CRD, APP_PROJECT_CRD, APP_PROJECT, WantedPolicy, COMPONENTS, PipelineOnce;
    hide Shaped, Tame, Welcome;
    GitOpsBelongs(spec);
    GitOpsIsWelcome(goals, spec);
    AppProjectIsFine(s, ns);
    RepairingEvolves(goals, s, AppProjectKey(ns), APP_PROJECT);
    var q2 := PutOrRepair(s, AppProjectKey(ns), APP_PROJECT);
    StayingEvolves(goals, s);
    if CRDKey(APP_PROJECT_CRD) in s && q2.Fine? && CRDKey(TASK_CRD) in q2.s {
      TasksEvolve(goals, q2.s, TASKS, ns);
      var s4 := Tasks(q2.s, TASKS, ns).s;
      EvolvesOn(goals, s, q2.s, s4);
      PipelineOnceEvolves(goals, s4, ns);
      EvolvesOn(goals, s, s4, PipelineOnce(s4, ns).s);
    }
  }

  lemma GitOpsIsWelcome(goals: set<Goal>, spec: Spec)
    requires Shaped(goals) && Tame(spec, goals) && GitOpsIsOn(spec)
    ensures Welcome(goals, AppProject) && Welcome(goals, Task) && Welcome(goals, Pipeline)
    ensures forall b :: HasBody(AppProjectKey(spec.argoCDNamespace), b) in goals ==> b == APP_PROJECT.body
  {
    hide APP_PROJECT, WantedPolicy, COMPONENTS;
  }

  lemma AppProjectIsFine(s: Store, ns: string)
    ensures AppProjectKey(ns).kind == AppProject && APP_PROJECT.body.AppProjectBody?
    ensures var q := PutOrRepair(s, AppProjectKey(ns), APP_PROJECT);
      (NamespaceKey(ns) in s ==> q.Fine?) && forall j :: j in s ==> j in q.s
  {
  }

  lemma PipelineOnceEvolves(goals: set<Goal>, s: Store, ns: string)
    requires Welcome(goals, Pipeline) && Present(PipelineKey(ns)) in goals
    ensures var q := PipelineOnce(s, ns);
      Evolves(goals, s, q.s) && (NamespaceKey(ns) in s && q.Bad? ==> q.error == NotFound && q.s != s)
  {
    PuttingEvolves(goals, s, PipelineKey(ns), PIPELINE);
  }

  lemma GitOpsOffEvolves(goals: set<Goal>, s: Store, spec: Spec)
    requires Shaped(goals) && Tame(spec, goals) && GitOpsGoals(spec) <= goals && !GitOpsIsOn(spec)
    ensures Evolves(goals, s, GitOpsOff(s, spec.argoCDNamespace))
  {
    var ns := spec.argoCDNamespace;
    assert {Marked(ns), NotSingle(AppProject, ns), NotSingle(Pipeline, ns), NoneOf(Task, ns)} == GitOpsGoals(spec);
    hide LogicGoals, KnativeGoals, HubGoals, PolicyGoals, GitOpsGoals, Evolves, RemoveIfSingle, RemoveTasks;
    hide COMPONENTS, WantedPolicy, APP_PROJECT;
    RemoveIfSingleEvolves(goals, s, AppProject, ns);
    var s1 := RemoveIfSingle(s, AppProject, ns);
    RemoveIfSingleEvolves(goals, s1, Pipeline, ns);
    var s2 := RemoveIfSingle(s1, Pipeline, ns);
    RemoveTasksEvolves(goals, s2, ns);
    EvolvesOn(goals, s, s1, s2);
    EvolvesOn(goals, s, s2, RemoveTasks(s2, ns));
  }

  lemma RemoveIfSingleEvolves(goals: set<Goal>, s: Store, kind: Kind, ns: string)
    requires kind in {AppProject, Pipeline} && Marked(ns) in goals && NotSingle(kind, ns) in goals && Welcome(goals, Namespace)
    requires forall h :: h in goals && (h.Present? || h.HasBody?) ==> h.key.kind !in {AppProject, Pipeline, Task}
    requires forall h :: h in goals && (h.NotSingle? || h.NoneOf?) ==> h.ns == ns
    ensures Evolves(goals, s, RemoveIfSingle(s, kind, ns))
  {
    if NamespaceKey(ns) in s {
      var s1 := Adopt(s, ns);
      AdoptingEvolves(goals, s, ns);
      if |Matching(s1, kind, ns)| == 1 {
        RemovingEvolves(goals, s1, kind, ns);
        EvolvesOn(goals, s, s1, RemoveKind(s1, kind, ns));
      }
    }
  }

  lemma RemoveTasksEvolves(goals: set<Goal>, s: Store, ns: string)
    requires Marked(ns) in goals && NoneOf(Task, ns) in goals && Welcome(goals, Namespace)
    requires forall h :: h in goals && (h.Present? || h.HasBody?) ==> h.key.kind !in {AppProject, Pipeline, Task}
    requires forall h :: h in goals && (h.NotSingle? || h.NoneOf?) ==> h.ns == ns
    ensures Evolves(goals, s, RemoveTasks(s, ns))
  {
    if NamespaceKey(ns) in s {
      var s1 := Adopt(s, ns);
      AdoptingEvolves(goals, s, ns);
      RemovingEvolves(goals, s1, Task, ns);
      EvolvesOn(goals, s, s1, RemoveKind(s1, Task, ns));
    }
  }

  lemma GitOpsEvolves(goals: set<Goal>, s: Store, spec: Spec)
    requires Shaped(goals) && Tame(spec, goals) && GitOpsGoals(spec) <= goals
    ensures var q := GitOps(s, spec);
      Evolves(goals, s, q.s) && (Ready(s, spec) && q.Bad? ==> q.error == NotFound && q.s != s)
  {
    hide Ready, Evolves, GitOpsOn, GitOpsOff, Shaped, Tame, GitOpsGoals;
    if GitOpsIsOn(spec) {
      GitOpsOnEvolves(goals, s, spec);
    } else {
      GitOpsOffEvolves(goals, s, spec);
    }
  }

  // ---------- The pass ----------

  /** The stages only make progress.  With everything there that nobody brings about, they fail only to
      wait, and they wait in vain only for OLM. */
  lemma StagesEvolve(goals: set<Goal>, s: Store, spec: Spec, names: seq<string>)
    requires Shaped(goals) && Tame(spec, goals) && GoalsOf(spec) <= goals && forall n :: n in names ==> n in CONFIG_MAPS
    ensures var (t, errors, failed) := Stages(s, map[], spec, names);
      && Evolves(goals, s, t)
      && errors == map[]
      && (Ready(s, spec) ==>
            && Ready(t, spec)
            && (failed.Some? ==> ReconcileSpec.Waits(failed.value) && (t == s ==> OlmIsAwaited(s, spec))))
  {
    hide LogicGoals, KnativeGoals, HubGoals, PolicyGoals, GitOpsGoals, Ready, Evolves, Shaped, Tame;
    hide Logic, Knative, Hub, PolicyStage, GitOps, OlmIsAwaited, CONFIG_MAPS;
    LogicEvolves(goals, s, spec);
    var s1 := Logic(s, spec).s;
    ReadinessStays(goals, s, s1, spec);
    KnativeEvolves(goals, s1, spec);
    var s2 := Knative(s1, spec).s;
    ReadinessStays(goals, s1, s2, spec);
    EvolvesOn(goals, s, s1, s2);
    HubEvolves(goals, s2, spec, names);
    var s3 := Hub(s2, spec, names).s;
    ReadinessStays(goals, s2, s3, spec);
    EvolvesOn(goals, s, s2, s3);
    PolicyStageEvolves(goals, s3, spec);
    var s4 := PolicyStage(s3, map[], spec).0.s;
    ReadinessStays(goals, s3, s4, spec);
    EvolvesOn(goals, s, s3, s4);
    GitOpsEvolves(goals, s4, spec);
    ReadinessStays(goals, s4, GitOps(s4, spec).s, spec);
    EvolvesOn(goals, s, s4, GitOps(s4, spec).s);
    if Ready(s, spec) && Logic(s, spec).Fine? {
      WorkflowStays(goals, s1, s2, spec);
      WorkflowStays(goals, s2, s3, spec);
    }
  }

  lemma ReadinessStays(goals: set<Goal>, s: Store, t: Store, spec: Spec)
    requires GoalsOf(spec) <= goals && Evolves(goals, s, t)
    ensures Ready(s, spec) ==> Ready(t, spec)
  {
    hide Ready, Evolves, GoalsOf;
    if Ready(s, spec) {
      ReadyStays(goals, s, t, spec);
    }
  }

  lemma WorkflowStays(goals: set<Goal>, s: Store, t: Store, spec: Spec)
    requires PolicyGoals(spec) <= goals && Evolves(goals, s, t) && NamespaceKey(spec.platform.namespace) in s
    ensures NamespaceKey(spec.platform.namespace) in t
  {
    assert Present(NamespaceKey(spec.platform.namespace)) in PolicyGoals(spec);
    GoalsStay(goals, s, t, Present(NamespaceKey(spec.platform.namespace)));
  }
}
