/** How many passes a fault-free operator needs. */
module PassBound {
  import opened Kubernetes
  import opened Desired
  import opened ApiServer
  import opened Quiet
  import opened Goals
  import opened Convergence
  import opened Progress
  import Calmness
  import DeveloperHubSpec
  import Fixpoint
  import NetworkPoliciesSpec
  import ReconcileSpec

  /** Objects whose absence costs a pass: they are made, and still reported as missing. */
  function Gates(spec: Spec): set<Key> {
    LogicGates(spec) +
    (if spec.rhdh.installOperator then {NamespaceKey(RHDH.namespace)} else {}) +
    (if GitOpsIsOn(spec) then {PipelineKey(spec.argoCDNamespace)} else {})
  }

  function LogicGates(spec: Spec): set<Key> {
    if spec.serverlessLogic then {NamespaceKey(spec.platform.namespace), NamespaceKey(LOGIC.namespace)} else {}
  }

  function Blockers(s: Store, spec: Spec): set<Key> {
    Gates(spec) - s.Keys
  }

  /** The definitions are installed. */
  predicate Defined(s: Store, spec: Spec) {
    forall c, crd :: c in Enabled(spec) && crd in Provides(c) ==> CRDKey(crd) in s
  }

  predicate Prepared(s: Store, spec: Spec) {
    Ready(s, spec) && Defined(s, spec)
  }

  predicate Watched(kind: Kind) {
    kind in {Namespace, Pipeline, CustomResourceDefinition, ClusterIngress}
  }

  /** Of the objects of the watched kinds, the store has got just those. */
  ghost predicate Gains(s: Store, t: Store, added: set<Key>) {
    forall k: Key :: Watched(k.kind) ==> (k in t <==> k in s || k in added)
  }

  lemma GainsTwice(r: Store, s: Store, t: Store, a: set<Key>, b: set<Key>)
    requires Gains(r, s, a) && Gains(s, t, b)
    ensures Gains(r, t, a + b)
  {
  }

  lemma PuttingGains(s: Store, k: Key, obj: Obj)
    requires Fits(k.kind, obj.body) && !Watched(k.kind)
    ensures Gains(s, GetOrPut(s, k, obj).s, {}) && Gains(s, PutOrRepair(s, k, obj).s, {})
    ensures HasNamespace(s, k) ==> GetOrPut(s, k, obj).Fine? && PutOrRepair(s, k, obj).Fine?
  {
  }

  lemma InstallGains(s: Store, c: Component)
    requires Met(Sane(c), s)
    ensures var q := Install(s, c);
      && (q.Fine? <==> NamespaceKey(c.namespace) in s || !c.strict)
      && Gains(s, q.s, {NamespaceKey(c.namespace)})
  {
    var s1 := Home(s, c).s;
    if Home(s, c).Fine? {
      SubscribeGains(s1, c);
      ApproveGains(Subscribe(s1, c).s, c);
      hide Subscribe, Approve;
    }
  }

  lemma SubscribeGains(s: Store, c: Component)
    requires NamespaceKey(c.namespace) in s && Met(Sane(c), s)
    ensures var q := Subscribe(s, c);
      q.Fine? && SubscriptionKey(c) in q.s && Met(Sane(c), q.s) && Gains(s, q.s, {})
  {
  }

  lemma ApproveGains(s: Store, c: Component)
    requires SubscriptionKey(c) in s && Met(Sane(c), s)
    ensures Approve(s, c).Fine? && Gains(s, Approve(s, c).s, {})
  {
  }

  /** A stage lets the pass go on, or has just made the one object it waits for. */
  ghost predicate OneGate(q: Out, s: Store, gates: set<Key>) {
    if gates <= s.Keys then q.Fine? && Gains(s, q.s, {})
    else q.Bad? && exists k :: k in gates && k !in s && Gains(s, q.s, {k})
  }

  lemma LogicCRsGain(s: Store, spec: Spec)
    requires NamespaceKey(spec.platform.namespace) in s
    ensures LogicCRs(s, spec).Fine? && Gains(s, LogicCRs(s, spec).s, {})
  {
  }

  lemma WorkflowGains(s: Store, wf: string)
    ensures var q := Workflow(s, wf);
      && (q.Fine? <==> NamespaceKey(wf) in s)
      && (q.Fine? ==> Gains(s, q.s, {}))
      && (q.Bad? ==> Gains(s, q.s, {NamespaceKey(wf)}))
      && (Met(Sane(LOGIC), s) ==> Met(Sane(LOGIC), q.s))
  {
  }

  lemma PreparedForLogic(s: Store, spec: Spec)
    requires Prepared(s, spec) && spec.serverlessLogic
    ensures CRDKey(CLUSTER_PLATFORM_CRD) in s && Met(Sane(LOGIC), s) && LOGIC.strict
  {
    assert LOGIC in Enabled(spec) && CLUSTER_PLATFORM_CRD in Provides(LOGIC);
  }

  lemma LogicGains(s: Store, spec: Spec)
    requires Prepared(s, spec)
    ensures OneGate(Logic(s, spec), s, LogicGates(spec))
  {
    hide Install, LogicCRs, Workflow, Prepared, Met, CLUSTER_PLATFORM_CRD, LOGIC;
    if spec.serverlessLogic {
      var wf := spec.platform.namespace;
      PreparedForLogic(s, spec);
      WorkflowGains(s, wf);
      var s1 := Workflow(s, wf).s;
      if Workflow(s, wf).Fine? {
        InstallGains(s1, LOGIC);
        var s2 := Install(s1, LOGIC).s;
        if Install(s1, LOGIC).Fine? {
          LogicCRsGain(s2, spec);
        }
      }
    }
  }

  lemma PreparedForKnative(s: Store, spec: Spec)
    requires Prepared(s, spec) && spec.serverless
    ensures CRDKey(EVENTING_CRD) in s && CRDKey(SERVING_CRD) in s && Met(Sane(SERVERLESS), s) && !SERVERLESS.strict
  {
    assert SERVERLESS in Enabled(spec) && EVENTING_CRD in Provides(SERVERLESS) && SERVING_CRD in Provides(SERVERLESS);
  }

  const KNATIVE_NAMESPACES := {NamespaceKey(SERVERLESS.namespace), NamespaceKey(EVENTING), NamespaceKey(SERVING)}

  lemma KnativeCRsGain(s: Store)
    requires CRDKey(EVENTING_CRD) in s && CRDKey(SERVING_CRD) in s
    ensures KnativeCRs(s).Fine? && Gains(s, KnativeCRs(s).s, {NamespaceKey(EVENTING), NamespaceKey(SERVING)})
  {
    hide KnativeResource;
    KnativeResourceGains(s, EVENTING, EVENTING_KEY);
    KnativeResourceGains(KnativeResource(s, EVENTING, EVENTING_KEY).s, SERVING, SERVING_KEY);
  }

  lemma KnativeResourceGains(s: Store, ns: string, k: Key)
    requires k.kind in {KnativeEventing, KnativeServing} && k.ns == ns
    ensures KnativeResource(s, ns, k).Fine? && Gains(s, KnativeResource(s, ns, k).s, {NamespaceKey(ns)})
  {
  }

  lemma KnativeGains(s: Store, spec: Spec)
    requires Prepared(s, spec)
    ensures Knative(s, spec).Fine?
    ensures Gains(s, Knative(s, spec).s, {}) || (spec.serverless && Gains(s, Knative(s, spec).s, KNATIVE_NAMESPACES))
  {
    if spec.serverless {
      hide Install, KnativeCRs, Prepared, Met, EVENTING_CRD, SERVING_CRD, SERVERLESS, EVENTING, SERVING;
      PreparedForKnative(s, spec);
      InstallGains(s, SERVERLESS);
      var s1 := Install(s, SERVERLESS).s;
      KnativeCRsGain(s1);
      GainsTwice(s, s1, KnativeCRs(s1).s, {NamespaceKey(SERVERLESS.namespace)}, {NamespaceKey(EVENTING), NamespaceKey(SERVING)});
      assert {NamespaceKey(SERVERLESS.namespace)} + {NamespaceKey(EVENTING), NamespaceKey(SERVING)} == KNATIVE_NAMESPACES;
    }
  }

  lemma PreparedForHub(s: Store, spec: Spec)
    requires Prepared(s, spec) && spec.rhdh.installOperator
    ensures CLUSTER_INGRESS_KEY in s && NamespaceKey(spec.rhdh.namespace) in s && CRDKey(BACKSTAGE_CRD) in s
    ensures Met(Sane(RHDH), s) && RHDH.strict
  {
    assert RHDH in Enabled(spec) && BACKSTAGE_CRD in Provides(RHDH);
  }

  lemma {:induction false} ConfigMapsGain(s: Store, names: seq<string>, i: DeveloperHubSpec.Inputs)
    requires NamespaceKey(i.rhdh.namespace) in s && forall n :: n in names ==> n in CONFIG_MAPS
    ensures ConfigMaps(s, names, CONFIG_MAPS, i).Fine? && Gains(s, ConfigMaps(s, names, CONFIG_MAPS, i).s, {})
    decreases |names|
  {
    hide DeveloperHubSpec.TextOf, CONFIG_MAPS;
    if names != [] {
      var k, obj := ConfigMapKey(i.rhdh.namespace, names[0]), NewConfigMap(CONFIG_MAPS[names[0]], DeveloperHubSpec.TextOf(names[0], i));
      PuttingGains(s, k, obj);
      ConfigMapsGain(GetOrPut(s, k, obj).s, names[1..], i);
    }
  }

  lemma HubRestGains(s: Store, spec: Spec, names: seq<string>)
    requires CLUSTER_INGRESS_KEY in s && NamespaceKey(spec.rhdh.namespace) in s && CRDKey(BACKSTAGE_CRD) in s
    requires forall n :: n in names ==> n in CONFIG_MAPS
    ensures HubRest(s, spec, names).Fine? && Gains(s, HubRest(s, spec, names).s, {})
  {
    hide ConfigMaps, CONFIG_MAPS, Mounted, REGISTRY_SECRET, BACKSTAGE_CRD, CLUSTER_INGRESS_KEY, GetOrPut, PutOrRepair;
    var s3 := GetOrPut(s, SecretKey(spec.rhdh.namespace), NPMRC).s;
    PuttingGains(s, SecretKey(spec.rhdh.namespace), NPMRC);
    ConfigMapsGain(s3, names, InputsOf(s, spec));
    PuttingGains(ConfigMaps(s3, names, CONFIG_MAPS, InputsOf(s, spec)).s, BackstageKey(spec.rhdh), NewBackstage(Mounted(names)));
  }

  function HubGates(spec: Spec): set<Key> {
    if spec.rhdh.installOperator then {NamespaceKey(RHDH.namespace)} else {}
  }

  lemma HubGains(s: Store, spec: Spec, names: seq<string>)
    requires Prepared(s, spec) && forall n :: n in names ==> n in CONFIG_MAPS
    ensures OneGate(Hub(s, spec, names), s, HubGates(spec))
  {
    if spec.rhdh.installOperator {
      hide Install, HubRest, GetOrPut, ConfigMaps, CONFIG_MAPS, Prepared, Met, RHDH, BACKSTAGE_CRD;
      PreparedForHub(s, spec);
      InstallGains(s, RHDH);
      if Install(s, RHDH).Fine? {
        var s1 := Install(s, RHDH).s;
        assert CLUSTER_INGRESS_KEY in s1;
        hide CLUSTER_INGRESS_KEY;
        assert Hub(s, spec, names) == HubRest(s1, spec, names) by { HubIsRest(s, spec, names); }
        HubRestGains(s1, spec, names);
      }
    }
  }

  lemma HubIsRest(s: Store, spec: Spec, names: seq<string>)
    requires spec.rhdh.installOperator && Install(s, RHDH).Fine? && CLUSTER_INGRESS_KEY in Install(s, RHDH).s
    requires forall n :: n in names ==> n in CONFIG_MAPS
    ensures Hub(s, spec, names) == HubRest(Install(s, RHDH).s, spec, names)
  {
    hide Install, ConfigMaps, GetOrPut, HubCRs, CONFIG_MAPS, RHDH;
  }

  lemma {:induction false} PoliciesGain(s: Store, names: seq<string>, spec: Spec)
    requires NamespaceKey(spec.platform.namespace) in s
    ensures var r := Policies(s, map[], names, NetworkPoliciesSpec.NamespacesOf(spec), spec.platform.monitoring);
      Gains(s, r.0, {}) && r.1 == map[]
    decreases |names|
  {
    hide Applicable, CreateIngress;
    if names != [] {
      var k := PolicyKey(spec.platform.namespace, names[0]);
      PuttingGains(s, k, WantedPolicy(spec, names[0]));
      var t := if Applicable(names[0], spec.platform.monitoring) then PutOrRepair(s, k, WantedPolicy(spec, names[0])).s else s;
      PoliciesGain(t, names[1..], spec);
    }
  }

  lemma PolicyStageGains(s: Store, spec: Spec)
    requires NamespaceKey(spec.platform.namespace) in s
    ensures var r := PolicyStage(s, map[], spec);
      r.0.Fine? && r.1 == map[] && Gains(s, r.0.s, {})
  {
    hide Policies, NETWORK_POLICIES;
    PoliciesGain(Adopt(s, spec.platform.namespace), NETWORK_POLICIES, spec);
  }

  function GitOpsGates(spec: Spec): set<Key> {
    if GitOpsIsOn(spec) then {PipelineKey(spec.argoCDNamespace)} else {}
  }

  lemma {:induction false} TasksGain(s: Store, names: seq<string>, ns: string)
    requires NamespaceKey(ns) in s
    ensures Tasks(s, names, ns).Fine? && Gains(s, Tasks(s, names, ns).s, {})
    decreases |names|
  {
    if names != [] {
      PuttingGains(s, TaskKey(ns, names[0]), NewTask(names[0]));
      TasksGain(GetOrPut(s, TaskKey(ns, names[0]), NewTask(names[0])).s, names[1..], ns);
    }
  }

  lemma GitOpsOnGains(s: Store, spec: Spec)
    requires Ready(s, spec) && GitOpsIsOn(spec)
    ensures OneGate(GitOps(s, spec), s, GitOpsGates(spec))
  {
    var ns := spec.argoCDNamespace;
    assert NamespaceKey(ns) in s && CRDKey(TASK_CRD) in s && CRDKey(PIPELINE_CRD) in s && CRDKey(APP_PROJECT_CRD) in s;
    hide Ready, Tasks, TASKS, APP_PROJECT, APP_PROJECT_CRD, TASK_CRD, PIPELINE_CRD, PutOrRepair, PipelineOnce, Gains, OneGate;
    Fixpoint.ProjectFits(ns);
    var s2 := PutOrRepair(s, AppProjectKey(ns), APP_PROJECT).s;
    PuttingGains(s, AppProjectKey(ns), APP_PROJECT);
    NothingGained(s, s2, ns);
    TasksGain(s2, TASKS, ns);
    var s4 := Tasks(s2, TASKS, ns).s;
    NothingGained(s2, s4, ns);
    GainsTwice(s, s2, s4, {}, {});
    PipelineOnceGains(s4, ns);
    assert GitOps(s, spec) == PipelineOnce(s4, ns);
    GateAfterwards(PipelineOnce(s4, ns), s, s4, ns);
  }

  lemma NothingGained(s: Store, t: Store, ns: string)
    requires Gains(s, t, {})
    ensures NamespaceKey(ns) in s <==> NamespaceKey(ns) in t
    ensures forall name :: CRDKey(name) in s <==> CRDKey(name) in t
  {
  }

  lemma GateAfterwards(q: Out, s: Store, t: Store, ns: string)
    requires OneGate(q, t, {PipelineKey(ns)}) && Gains(s, t, {} + {})
    ensures OneGate(q, s, {PipelineKey(ns)})
  {
  }

  lemma PipelineOnceGains(s: Store, ns: string)
    requires NamespaceKey(ns) in s
    ensures OneGate(PipelineOnce(s, ns), s, {PipelineKey(ns)})
  {
  }

  // ---------- One pass ----------

  lemma GatesAreWatched(spec: Spec)
    ensures forall k :: k in Gates(spec) ==> Watched(k.kind)
    ensures LogicGates(spec) <= Gates(spec) && HubGates(spec) <= Gates(spec) && GitOpsGates(spec) <= Gates(spec)
    ensures Gates(spec) == LogicGates(spec) + HubGates(spec) + GitOpsGates(spec)
  {
  }

  lemma SameBlockers(s: Store, t: Store, spec: Spec, added: set<Key>)
    requires Gains(s, t, added) && Gates(spec) * added <= s.Keys
    ensures Blockers(t, spec) == Blockers(s, spec)
  {
    hide Gates, Watched;
    GatesAreWatched(spec);
    forall k | k in Gates(spec) ensures k in t <==> k in s {
      assert k in added ==> k in Gates(spec) * added;
    }
  }

  lemma OneLess<T>(all: set<T>, a: set<T>, b: set<T>, k: T)
    requires k in all && k !in a && forall j :: j in all ==> (j in b <==> j in a || j == k)
    ensures |all - b| == |all - a| - 1
  {
    assert all - b == (all - a) - {k};
  }

  lemma OneMoreThere(s: Store, t: Store, spec: Spec, k: Key)
    requires Gains(s, t, {k}) && k in Gates(spec) && k !in s
    ensures k in Blockers(s, spec) && |Blockers(t, spec)| == |Blockers(s, spec)| - 1
  {
    hide Gates, Watched;
    GatesAreWatched(spec);
    OneLess(Gates(spec), s.Keys, t.Keys, k);
  }

  /** One of these objects was missing and is there now, or all of them are there. */
  lemma OneBlockerLess(q: Out, s: Store, spec: Spec, gates: set<Key>)
    requires OneGate(q, s, gates) && gates <= Gates(spec)
    ensures q.Fine? ==> Blockers(q.s, spec) == Blockers(s, spec) && gates <= s.Keys && Gains(s, q.s, {})
    ensures q.Bad? ==> Blockers(s, spec) != {} && |Blockers(q.s, spec)| == |Blockers(s, spec)| - 1
  {
    hide Gates, Gains, Blockers;
    if q.Fine? {
      SameBlockers(s, q.s, spec, {});
    } else {
      var k :| k in gates && k !in s && Gains(s, q.s, {k});
      OneMoreThere(s, q.s, spec, k);
    }
  }

  lemma KnativeIsNoGate(s: Store, spec: Spec)
    requires LogicGates(spec) <= s.Keys
    ensures Gates(spec) * KNATIVE_NAMESPACES <= s.Keys
  {
  }

  lemma PreparedStays(goals: set<Goal>, s: Store, t: Store, spec: Spec)
    requires Prepared(s, spec) && GoalsOf(spec) <= goals && Evolves(goals, s, t)
    ensures Prepared(t, spec)
  {
    hide GoalsOf, Evolves, Ready, Enabled, Provides;
    ReadyStays(goals, s, t, spec);
    forall c, crd | c in Enabled(spec) && crd in Provides(c) ensures CRDKey(crd) in t {
      EnabledBelongs(spec, c);
      Fixpoint.PresentStays(goals, s, t, CRDKey(crd));
    }
  }

  /** With nothing missing, a pass goes through all stages; otherwise it makes exactly one of the
      missing objects, and waits. */
  lemma OnePass(s: Store, spec: Spec, names: seq<string>)
    requires Prepared(s, spec) && forall n :: n in names ==> n in CONFIG_MAPS
    ensures var (t, errors, failed) := Stages(s, map[], spec, names);
      && Prepared(t, spec) && errors == map[]
      && (if Blockers(s, spec) == {} then failed.None?
          else failed.Some? && ReconcileSpec.Waits(failed.value) && |Blockers(t, spec)| == |Blockers(s, spec)| - 1)
  {
    hide GoalsOf, Shaped, Tame, Evolves, Ready, Defined, Logic, Knative, Hub, PolicyStage, GitOps, OlmIsAwaited;
    hide CONFIG_MAPS;
    hide LogicGates, HubGates, GitOpsGates, OneGate, Gains, Blockers, KNATIVE_NAMESPACES, Gates;
    var goals := GoalsOf(spec);
    GoalsAreShaped(spec);
    GatesAreWatched(spec);
    StagesEvolve(goals, s, spec, names);
    PreparedStays(goals, s, Stages(s, map[], spec, names).0, spec);
    LogicGains(s, spec);
    var q1 := Logic(s, spec);
    OneBlockerLess(q1, s, spec, LogicGates(spec));
    if q1.Fine? {
      AfterLogic(s, spec, names);
    }
  }

  lemma KnativeKeepsBlockers(s: Store, spec: Spec)
    requires Prepared(s, spec) && LogicGates(spec) <= s.Keys
    ensures Knative(s, spec).Fine? && Blockers(Knative(s, spec).s, spec) == Blockers(s, spec)
  {
    hide Knative, Gains, Blockers, Gates, LogicGates, KNATIVE_NAMESPACES, Prepared;
    KnativeGains(s, spec);
    var t := Knative(s, spec).s;
    if Gains(s, t, {}) {
      SameBlockers(s, t, spec, {});
    } else {
      KnativeIsNoGate(s, spec);
      SameBlockers(s, t, spec, KNATIVE_NAMESPACES);
    }
  }

  /** What the stages after the first one do to the missing objects. */
  lemma AfterLogic(s: Store, spec: Spec, names: seq<string>)
    requires Prepared(s, spec) && (forall n :: n in names ==> n in CONFIG_MAPS) && Logic(s, spec).Fine?
    ensures var (t, _, failed) := Stages(s, map[], spec, names);
      if failed.None? then Blockers(s, spec) == {}
      else Blockers(s, spec) != {} && |Blockers(t, spec)| == |Blockers(s, spec)| - 1
  {
    hide GoalsOf, Shaped, Tame, Plain, Evolves, Ready, Defined, Logic, Knative, Hub, PolicyStage, GitOps;
    hide OlmIsAwaited, CONFIG_MAPS, COMPONENTS;
    hide LogicGates, HubGates, GitOpsGates, OneGate, Gains, Blockers, KNATIVE_NAMESPACES, Gates, PolicyGoals;
    hide LogicGoals, KnativeGoals;
    var goals := GoalsOf(spec);
    GoalsAreShaped(spec);
    PartsOfGoals(spec);
    GatesAreWatched(spec);
    LogicEvolves(goals, s, spec);
    LogicGains(s, spec);
    var s1 := Logic(s, spec).s;
    OneBlockerLess(Logic(s, spec), s, spec, LogicGates(spec));
    PreparedStays(goals, s, s1, spec);
    LogicGatesStay(s, s1, spec);
    KnativeEvolves(goals, s1, spec);
    KnativeKeepsBlockers(s1, spec);
    var s2 := Knative(s1, spec).s;
    PreparedStays(goals, s1, s2, spec);
    HubEvolves(goals, s2, spec, names);
    HubGains(s2, spec, names);
    var q3 := Hub(s2, spec, names);
    OneBlockerLess(q3, s2, spec, HubGates(spec));
    PreparedStays(goals, s2, q3.s, spec);
    if q3.Fine? {
      WorkflowStays(goals, s1, s2, spec);
      WorkflowStays(goals, s2, q3.s, spec);
      PolicyStageEvolves(goals, q3.s, spec);
      PolicyStageGains(q3.s, spec);
      var s4 := PolicyStage(q3.s, map[], spec).0.s;
      SameBlockers(q3.s, s4, spec, {});
      PreparedStays(goals, q3.s, s4, spec);
      AfterPolicies(s, s2, s4, spec);
    }
  }

  lemma LogicGatesStay(s: Store, t: Store, spec: Spec)
    requires LogicGates(spec) <= s.Keys && Gains(s, t, {})
    ensures LogicGates(spec) <= t.Keys
  {
  }

  lemma PartsOfGoals(spec: Spec)
    ensures LogicGoals(spec) <= GoalsOf(spec) && KnativeGoals(spec) <= GoalsOf(spec) && PolicyGoals(spec) <= GoalsOf(spec)
  {
  }

  /** The last stage, after the serverless logic stage found `r` and the RHDH stage `s`. */
  lemma AfterPolicies(r: Store, s: Store, t: Store, spec: Spec)
    requires Prepared(t, spec) && Blockers(t, spec) == Blockers(s, spec) == Blockers(r, spec)
    requires LogicGates(spec) <= r.Keys && HubGates(spec) <= s.Keys
    ensures var q := GitOps(t, spec);
      if q.Fine? then Blockers(r, spec) == {}
      else Blockers(r, spec) != {} && |Blockers(q.s, spec)| == |Blockers(r, spec)| - 1
  {
    hide GitOps, LogicGates, HubGates, Gates, OneGate, Ready, Defined;
    GatesAreWatched(spec);
    assert Blockers(r, spec) <= GitOpsGates(spec);
    if GitOpsIsOn(spec) {
      GitOpsOnGains(t, spec);
      OneBlockerLess(GitOps(t, spec), t, spec, GitOpsGates(spec));
    } else {
      Fixpoint.GitOpsIsOff(t, spec);
    }
  }

  // ---------- Many passes ----------

  /** The state before pass number `n`, counting from 0. */
  function Passes(o: Oracle, st: ReconcileSpec.State, n: nat): ReconcileSpec.State
    decreases n
  {
    if n == 0 then st else Passes(o, ReconcileSpec.Reconcile(o, st).0, n - 1)
  }

  ghost predicate Underway(st: ReconcileSpec.State) {
    && st.errors == map[]
    && st.w.cr.Some? && !st.w.cr.value.deleting
    && Prepared(st.w.store, st.w.cr.value.spec)
  }

  lemma OneReconcile(o: Oracle, st: ReconcileSpec.State)
    requires Calm(o) && Underway(st)
    ensures var (end, v) := ReconcileSpec.Reconcile(o, st); var spec := st.w.cr.value.spec;
      && Underway(end) && end.w.cr.value.spec == spec
      && (if Blockers(st.w.store, spec) == {} then v == ReconcileSpec.FINISHED
          else v != ReconcileSpec.FINISHED && |Blockers(end.w.store, spec)| == |Blockers(st.w.store, spec)| - 1)
  {
    hide ReconcileSpec.Reconcile, Stages, Prepared, Blockers, CONFIG_MAPS;
    var names := Calmness.CalmPass(o, st);
    OnePass(st.w.store, st.w.cr.value.spec, names);
    ResourceEvolves(st.w.cr.value, Stages(st.w.store, map[], st.w.cr.value.spec, names).2);
  }

  /** Without faults, the first pass that finishes is the one after as many others as objects of these
      were missing: the workflow namespace and openshift-serverless-logic, rhdh-operator, and the
      Pipeline, each as far as its part is switched on. */
  lemma {:induction false} ExactPassCount(o: Oracle, st: ReconcileSpec.State, i: nat)
    requires Calm(o) && Underway(st)
    requires i <= |Blockers(st.w.store, st.w.cr.value.spec)|
    ensures ReconcileSpec.Reconcile(o, Passes(o, st, i)).1 == ReconcileSpec.FINISHED
      <==> i == |Blockers(st.w.store, st.w.cr.value.spec)|
    decreases i
  {
    hide ReconcileSpec.Reconcile, Prepared, Blockers;
    OneReconcile(o, st);
    assert |Blockers(st.w.store, st.w.cr.value.spec)| == 0 ==> Blockers(st.w.store, st.w.cr.value.spec) == {};
    if i > 0 {
      ExactPassCount(o, ReconcileSpec.Reconcile(o, st).0, i - 1);
    }
  }
}
