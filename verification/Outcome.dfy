/** Where the operator and OLM end when they take turns without faults: in a converged cluster,
    unless OLM has resolved a Subscription to a version that the operator does not approve. */
module Outcome {
  import opened Kubernetes
  import opened Desired
  import opened ApiServer
  import opened Quiet
  import opened Goals
  import opened Convergence
  import opened Progress
  import opened Fixpoint
  import DeveloperHubSpec
  import NetworkPoliciesSpec
  import ReconcileSpec

  // ---------- Stuck ----------

  /** The Subscription has resolved to another version, and what the operator provides is missing:
      the operator does not approve the plan, and OLM does not go on without. */
  predicate Stuck(s: Store, c: Component) {
    && Met(HasResolved(c), s)
    && PinnedPlan(s, c).None?
    && exists crd :: crd in Provides(c) && CRDKey(crd) !in s
  }

  predicate SomeoneIsStuck(y: Sys) {
    exists c :: c in Enabled(y.cr.spec) && Stuck(y.s, c)
  }

  /** A Subscription that asks for the version the operator pins. */
  predicate Pins(k: Key, sub: Obj) {
    sub.body.SubscriptionBody? && exists c :: c in COMPONENTS && k == SubscriptionKey(c) && sub.body.spec.startingCSV == c.csv
  }

  /** Subscriptions stay resolved or unresolved as they are, those that are new or respecified ask for
      the pinned version, and definitions do not appear. */
  ghost predicate Undecided(s: Store, t: Store) {
    && (forall k: Key :: k.kind == Subscription && k in s ==> k in t && t[k].body.status == s[k].body.status)
    && (forall k: Key :: k.kind == Subscription && k in t && k !in s ==> t[k].body.status.Unresolved?)
    && (forall k: Key :: k.kind == Subscription && k in t ==> (k in s && t[k].body.spec == s[k].body.spec) || Pins(k, t[k]))
    && (forall k: Key :: k.kind == CustomResourceDefinition && k in t ==> k in s)
  }

  lemma UndecidedSoFar(s: Store)
    ensures Undecided(s, s)
  {
  }

  lemma UndecidedTwice(r: Store, s: Store, t: Store)
    requires Undecided(r, s) && Undecided(s, t)
    ensures Undecided(r, t)
  {
  }

  lemma PuttingDecidesNothing(s: Store, k: Key, obj: Obj)
    requires Fits(k.kind, obj.body) && k.kind !in {CustomResourceDefinition, Subscription}
    ensures Undecided(s, GetOrPut(s, k, obj).s) && Undecided(s, PutOrRepair(s, k, obj).s)
  {
  }

  lemma AdoptingDecidesNothing(s: Store, ns: string)
    ensures Undecided(s, Adopt(s, ns)) && Undecided(s, AdoptOrMake(s, ns))
  {
  }

  lemma InstallDecidesNothing(s: Store, c: Component)
    requires c in COMPONENTS
    ensures Undecided(s, Install(s, c).s)
  {
    hide Undecided, Home, Subscribe, Approve, COMPONENTS;
    HomeDecidesNothing(s, c);
    var s1 := Home(s, c).s;
    SubscribeDecidesNothing(s1, c);
    var s2 := Subscribe(s1, c).s;
    ApproveDecidesNothing(s2, c);
    UndecidedTwice(s, s1, s2);
    UndecidedTwice(s, s2, Approve(s2, c).s);
  }

  lemma HomeDecidesNothing(s: Store, c: Component)
    ensures Undecided(s, Home(s, c).s)
  {
    AdoptingDecidesNothing(s, c.namespace);
  }

  lemma SubscribeDecidesNothing(s: Store, c: Component)
    requires c in COMPONENTS
    ensures Undecided(s, Subscribe(s, c).s)
  {
    hide Undecided, COMPONENTS, GetOrPut, Pins, PutNew;
    var k := SubscriptionKey(c);
    if k in s {
      PinningDecidesNothing(s, c, Repaired(c, s[k]));
    } else {
      PuttingDecidesNothing(s, GroupKey(c), NEW_GROUP);
      var s1 := GetOrPut(s, GroupKey(c), NEW_GROUP).s;
      UndecidedSoFar(s1);
      PinningDecidesNothing(s1, c, CreateSubscriptionObject(c));
      UndecidedTwice(s, s1, Subscribe(s, c).s);
    }
  }

  lemma PinningDecidesNothing(s: Store, c: Component, sub: Obj)
    requires c in COMPONENTS && sub.body.SubscriptionBody? && sub.body.spec == CreateSubscriptionSpec(c)
    requires sub.body.status == if SubscriptionKey(c) in s then s[SubscriptionKey(c)].body.status else Unresolved
    ensures Undecided(s, s[SubscriptionKey(c) := sub]) && Undecided(s, PutNew(s, SubscriptionKey(c), sub).s)
  {
    hide COMPONENTS;
    assert Pins(SubscriptionKey(c), sub);
  }

  lemma ApproveDecidesNothing(s: Store, c: Component)
    ensures Undecided(s, Approve(s, c).s)
  {
  }

  lemma LogicCRsDecideNothing(s: Store, spec: Spec)
    ensures Undecided(s, LogicCRs(s, spec).s)
  {
    hide Undecided, Adopt, GetOrPut, PLATFORM_NAME;
    var wf := spec.platform.namespace;
    UndecidedSoFar(s);
    AdoptingDecidesNothing(s, wf);
    var s3 := Adopt(s, wf);
    PuttingDecidesNothing(s3, CLUSTER_PLATFORM_KEY, ClusterPlatform(wf));
    var s4 := GetOrPut(s3, CLUSTER_PLATFORM_KEY, ClusterPlatform(wf)).s;
    UndecidedTwice(s, s3, s4);
    PuttingDecidesNothing(s4, PlatformKey(wf), Platform(spec));
    UndecidedTwice(s, s4, GetOrPut(s4, PlatformKey(wf), Platform(spec)).s);
  }

  lemma LogicDecidesNothing(s: Store, spec: Spec)
    ensures Undecided(s, Logic(s, spec).s)
  {
    ComponentsBelong();
    hide Undecided, Install, LogicCRs, AdoptOrMake, Adopt, CLUSTER_PLATFORM_CRD, COMPONENTS, LOGIC;
    UndecidedSoFar(s);
    if spec.serverlessLogic {
      AdoptingDecidesNothing(s, spec.platform.namespace);
      var s1 := Workflow(s, spec.platform.namespace).s;
      InstallDecidesNothing(s1, LOGIC);
      var s2 := Install(s1, LOGIC).s;
      UndecidedTwice(s, s1, s2);
      LogicCRsDecideNothing(s2, spec);
      UndecidedTwice(s, s2, LogicCRs(s2, spec).s);
    }
  }

  lemma KnativeDecidesNothing(s: Store, spec: Spec)
    ensures Undecided(s, Knative(s, spec).s)
  {
    ComponentsBelong();
    KnativeKinds();
    hide COMPONENTS, Install, KnativeResource, EVENTING_CRD, SERVING_CRD, EVENTING, SERVING, SERVERLESS, EVENTING_KEY, SERVING_KEY;
    UndecidedSoFar(s);
    if spec.serverless {
      hide Undecided;
      InstallDecidesNothing(s, SERVERLESS);
      var s1 := Install(s, SERVERLESS).s;
      KnativeResourceDecidesNothing(s1, EVENTING, EVENTING_KEY);
      var s2 := KnativeResource(s1, EVENTING, EVENTING_KEY).s;
      UndecidedTwice(s, s1, s2);
      KnativeResourceDecidesNothing(s2, SERVING, SERVING_KEY);
      UndecidedTwice(s, s2, KnativeResource(s2, SERVING, SERVING_KEY).s);
    }
  }

  lemma KnativeResourceDecidesNothing(s: Store, ns: string, k: Key)
    requires k.kind in {KnativeEventing, KnativeServing}
    ensures Undecided(s, KnativeResource(s, ns, k).s)
  {
    hide Undecided, AdoptOrMake, GetOrPut;
    AdoptingDecidesNothing(s, ns);
    var s1 := AdoptOrMake(s, ns);
    PuttingDecidesNothing(s1, k, KNATIVE_CR);
    UndecidedTwice(s, s1, GetOrPut(s1, k, KNATIVE_CR).s);
  }

  lemma {:induction false} ConfigMapsDecideNothing(s: Store, names: seq<string>, i: DeveloperHubSpec.Inputs)
    requires forall n :: n in names ==> n in CONFIG_MAPS
    ensures Undecided(s, ConfigMaps(s, names, CONFIG_MAPS, i).s)
    decreases |names|
  {
    hide DeveloperHubSpec.TextOf, CONFIG_MAPS, GetOrPut, Undecided;
    UndecidedSoFar(s);
    if names != [] {
      var k, obj := ConfigMapKey(i.rhdh.namespace, names[0]), NewConfigMap(CONFIG_MAPS[names[0]], DeveloperHubSpec.TextOf(names[0], i));
      PuttingDecidesNothing(s, k, obj);
      var s1 := GetOrPut(s, k, obj).s;
      ConfigMapsDecideNothing(s1, names[1..], i);
      UndecidedTwice(s, s1, ConfigMaps(s1, names[1..], CONFIG_MAPS, i).s);
    }
  }

  lemma HubRestDecidesNothing(s: Store, spec: Spec, names: seq<string>)
    requires CLUSTER_INGRESS_KEY in s && forall n :: n in names ==> n in CONFIG_MAPS
    ensures Undecided(s, HubRest(s, spec, names).s)
  {
    hide Undecided, ConfigMaps, GetOrPut, Mounted, CONFIG_MAPS, BACKSTAGE_CRD, CLUSTER_INGRESS_KEY, REGISTRY_SECRET;
    PuttingDecidesNothing(s, SecretKey(spec.rhdh.namespace), NPMRC);
    var s3 := GetOrPut(s, SecretKey(spec.rhdh.namespace), NPMRC).s;
    ConfigMapsDecideNothing(s3, names, InputsOf(s, spec));
    var s4 := ConfigMaps(s3, names, CONFIG_MAPS, InputsOf(s, spec)).s;
    UndecidedTwice(s, s3, s4);
    PuttingDecidesNothing(s4, BackstageKey(spec.rhdh), NewBackstage(Mounted(names)));
    UndecidedTwice(s, s4, GetOrPut(s4, BackstageKey(spec.rhdh), NewBackstage(Mounted(names))).s);
  }

  lemma HubDecidesNothing(s: Store, spec: Spec, names: seq<string>)
    requires forall n :: n in names ==> n in CONFIG_MAPS
    ensures Undecided(s, Hub(s, spec, names).s)
  {
    ComponentsBelong();
    hide COMPONENTS, Install, ConfigMaps, GetOrPut, HubCRs, CONFIG_MAPS, RHDH, CLUSTER_INGRESS_KEY;
    UndecidedSoFar(s);
    if spec.rhdh.installOperator {
      hide Undecided;
      InstallDecidesNothing(s, RHDH);
      var s1 := Install(s, RHDH).s;
      if Install(s, RHDH).Fine? && CLUSTER_INGRESS_KEY in s1 {
        HubRestDecidesNothing(s1, spec, names);
        assert Hub(s, spec, names) == HubRest(s1, spec, names);
        UndecidedTwice(s, s1, HubRest(s1, spec, names).s);
      }
    }
  }

  lemma {:induction false} PoliciesDecideNothing(s: Store, errors: NetworkPoliciesSpec.Errors, names: seq<string>,
                                                 n: NetworkPoliciesSpec.Namespaces, monitoring: bool)
    ensures Undecided(s, Policies(s, errors, names, n, monitoring).0)
    decreases |names|
  {
    hide Applicable, CreateIngress, PutOrRepair, Undecided;
    UndecidedSoFar(s);
    if names != [] {
      if Applicable(names[0], monitoring) {
        var k := PolicyKey(n.workflow, names[0]);
        var q := PutOrRepair(s, k, NetworkPoliciesSpec.Wanted(names[0], n));
        PuttingDecidesNothing(s, k, NetworkPoliciesSpec.Wanted(names[0], n));
        var errors' := if q.Bad? then errors[names[0] := q.error] else errors;
        PoliciesDecideNothing(q.s, errors', names[1..], n, monitoring);
        UndecidedTwice(s, q.s, Policies(q.s, errors', names[1..], n, monitoring).0);
      } else {
        PoliciesDecideNothing(s, errors, names[1..], n, monitoring);
      }
    }
  }

  lemma PolicyStageDecidesNothing(s: Store, spec: Spec)
    ensures Undecided(s, PolicyStage(s, map[], spec).0.s)
  {
    hide Undecided, Policies, NETWORK_POLICIES, Adopt;
    UndecidedSoFar(s);
    AdoptingDecidesNothing(s, spec.platform.namespace);
    var s1 := Adopt(s, spec.platform.namespace);
    var n := NetworkPoliciesSpec.NamespacesOf(spec);
    PoliciesDecideNothing(s1, map[], NETWORK_POLICIES, n, spec.platform.monitoring);
    UndecidedTwice(s, s1, Policies(s1, map[], NETWORK_POLICIES, n, spec.platform.monitoring).0);
  }

  lemma {:induction false} TasksDecideNothing(s: Store, names: seq<string>, ns: string)
    ensures Undecided(s, Tasks(s, names, ns).s)
    decreases |names|
  {
    hide GetOrPut, Undecided;
    UndecidedSoFar(s);
    if names != [] {
      PuttingDecidesNothing(s, TaskKey(ns, names[0]), NewTask(names[0]));
      var s1 := GetOrPut(s, TaskKey(ns, names[0]), NewTask(names[0])).s;
      TasksDecideNothing(s1, names[1..], ns);
      UndecidedTwice(s, s1, Tasks(s1, names[1..], ns).s);
    }
  }

  lemma RemovingDecidesNothing(s: Store, kind: Kind, ns: string)
    requires kind in {AppProject, Pipeline, Task}
    ensures Undecided(s, RemoveKind(s, kind, ns))
  {
  }

  lemma GitOpsOnDecidesNothing(s: Store, ns: string)
    ensures Undecided(s, GitOpsOn(s, ns).s)
  {
    hide Tasks, TASKS, PutOrRepair, GetOrPut, APP_PROJECT, APP_PROJECT_CRD, TASK_CRD, PIPELINE_CRD, PIPELINE;
    hide Undecided, PipelineOnce;
    UndecidedSoFar(s);
    ProjectFits(ns);
    PuttingDecidesNothing(s, AppProjectKey(ns), APP_PROJECT);
    var q2 := PutOrRepair(s, AppProjectKey(ns), APP_PROJECT);
    if CRDKey(APP_PROJECT_CRD) in s && q2.Fine? && CRDKey(TASK_CRD) in q2.s {
      TasksDecideNothing(q2.s, TASKS, ns);
      var s4 := Tasks(q2.s, TASKS, ns).s;
      UndecidedTwice(s, q2.s, s4);
      PipelineDecidesNothing(s4, ns);
      UndecidedTwice(s, s4, PipelineOnce(s4, ns).s);
    }
  }

  lemma PipelineDecidesNothing(s: Store, ns: string)
    ensures Undecided(s, PipelineOnce(s, ns).s)
  {
  }

  lemma RemovalDecidesNothing(s: Store, ns: string)
    ensures forall kind :: kind in {AppProject, Pipeline} ==> Undecided(s, RemoveIfSingle(s, kind, ns))
    ensures Undecided(s, RemoveTasks(s, ns))
  {
    UndecidedSoFar(s);
    hide Undecided, RemoveKind, Matching, Adopt;
    AdoptingDecidesNothing(s, ns);
    var s1 := Adopt(s, ns);
    forall kind | kind in {AppProject, Pipeline, Task} ensures Undecided(s, RemoveKind(s1, kind, ns)) {
      RemovingDecidesNothing(s1, kind, ns);
      UndecidedTwice(s, s1, RemoveKind(s1, kind, ns));
    }
  }

  lemma GitOpsDecidesNothing(s: Store, spec: Spec)
    ensures Undecided(s, GitOps(s, spec).s)
  {
    hide Undecided, GitOpsOn, RemoveIfSingle, RemoveTasks;
    var ns := spec.argoCDNamespace;
    GitOpsOnDecidesNothing(s, ns);
    RemovalDecidesNothing(s, ns);
    var s1 := RemoveIfSingle(s, AppProject, ns);
    RemovalDecidesNothing(s1, ns);
    var s2 := RemoveIfSingle(s1, Pipeline, ns);
    UndecidedTwice(s, s1, s2);
    RemovalDecidesNothing(s2, ns);
    UndecidedTwice(s, s2, RemoveTasks(s2, ns));
  }

  lemma StagesDecideNothing(s: Store, spec: Spec, names: seq<string>)
    requires forall n :: n in names ==> n in CONFIG_MAPS
    ensures Undecided(s, Stages(s, map[], spec, names).0)
  {
    hide Undecided, Logic, Knative, Hub, PolicyStage, GitOps, CONFIG_MAPS;
    LogicDecidesNothing(s, spec);
    var s1 := Logic(s, spec).s;
    KnativeDecidesNothing(s1, spec);
    var s2 := Knative(s1, spec).s;
    UndecidedTwice(s, s1, s2);
    HubDecidesNothing(s2, spec, names);
    var s3 := Hub(s2, spec, names).s;
    UndecidedTwice(s, s2, s3);
    PolicyStageDecidesNothing(s3, spec);
    var s4 := PolicyStage(s3, map[], spec).0.s;
    UndecidedTwice(s, s3, s4);
    GitOpsDecidesNothing(s4, spec);
    UndecidedTwice(s, s4, GitOps(s4, spec).s);
  }

  lemma SpecStays(cr: Orchestrator, failed: Option<ReconcileSpec.StageFailure>)
    ensures Ended(Started(cr), failed).spec == cr.spec
  {
  }

  lemma ProvidersDiffer(spec: Spec, c: Component, d: Component)
    requires c in Enabled(spec) && d in Enabled(spec)
    ensures c != d ==> SubscriptionKey(c) != SubscriptionKey(d)
    ensures c != d ==> forall crd :: crd in Provides(c) ==> crd !in Provides(d)
  {
  }

  lemma ResolvingOne(s: Store, c: Component, d: Component, plan: string)
    requires SubscriptionKey(c) in s && SubscriptionKey(d) in s && SubscriptionKey(c) != SubscriptionKey(d)
    ensures var t := WithPlan(s, d, plan);
      && SubscriptionKey(c) in t && t[SubscriptionKey(c)] == s[SubscriptionKey(c)]
      && (forall crd :: CRDKey(crd) in t <==> CRDKey(crd) in s)
  {
  }

  /** No move gets a component unstuck, whatever else is there or missing. */
  lemma StuckForGood(y: Sys, m: Move, c: Component)
    requires Possible(y, m) && c in Enabled(y.cr.spec) && Stuck(y.s, c)
    ensures Stuck(Next(y, m).s, c) && c in Enabled(Next(y, m).cr.spec)
  {
    hide Stages, Started, Ended, COMPONENTS, Provides, Enabled, WithPlan;
    var crd :| crd in Provides(c) && CRDKey(crd) !in y.s;
    match m
    case Pass(names) =>
      hide CONFIG_MAPS;
      StagesDecideNothing(y.s, y.cr.spec, names);
      SpecStays(y.cr, Stages(y.s, map[], y.cr.spec, names).2);
    case Resolve(d, plan) =>
      ProvidersDiffer(y.cr.spec, c, d);
      ResolvingOne(y.s, c, d, plan);
    case Provide(d, other) =>
      ProvidersDiffer(y.cr.spec, c, d);
  }

  // ---------- The end of a run ----------

  /** No move changes anything. */
  ghost predicate Idle(y: Sys) {
    forall m :: Possible(y, m) ==> Next(y, m) == y
  }

  lemma {:induction false} SomeOrder(all: set<string>) returns (names: seq<string>)
    ensures IsOrder(names, all)
    decreases all
  {
    if all == {} {
      names := [];
    } else {
      var n :| n in all;
      var rest := SomeOrder(all - {n});
      names := [n] + rest;
    }
  }

  /** A name no string of the set has. */
  lemma {:induction false} FreshName(used: set<string>) returns (name: string)
    ensures forall n :: n in used ==> |n| < |name|
    decreases used
  {
    if used == {} {
      name := "";
    } else {
      var n :| n in used;
      var shorter := FreshName(used - {n});
      name := if |shorter| > |n| then shorter else n + "-";
      assert forall k :: k in used ==> k == n || k in used - {n};
    }
  }

  /** OLM can resolve a Subscription that is not resolved. */
  lemma OlmCanResolve(y: Sys, c: Component) returns (m: Move)
    requires c in Enabled(y.cr.spec) && SubscriptionKey(c) in y.s && y.s[SubscriptionKey(c)].body.status.Unresolved?
    ensures m.Resolve? && m.c == c && Possible(y, m) && Next(y, m) != y
  {
    hide Enabled, Stages, Started, Ended, CONFIG_MAPS;
    var used := set k | k in y.s :: k.name;
    var plan := FreshName(used);
    assert forall k :: k in y.s ==> k.name in used;
    m := Resolve(c, plan);
    assert PlanKey(c, plan) in Next(y, m).s;
  }

  lemma OlmCanProvide(y: Sys, c: Component, crd: string)
    requires c in Enabled(y.cr.spec) && crd in Provides(c) && Met(PlanApproved(c), y.s) && CRDKey(crd) !in y.s
    ensures !Idle(y)
  {
    hide Enabled, Provides;
    var m := Provide(c, crd);
    assert Possible(y, m);
    assert Next(y, m).s[CRDKey(crd)] == Obj(map[], Blank);
  }

  lemma AwaitedMeansStuck(y: Sys)
    requires Idle(y) && OlmIsAwaited(y.s, y.cr.spec)
    ensures SomeoneIsStuck(y)
  {
    hide Idle, Enabled, Provides, Possible, Next;
    var c, crd :| c in Enabled(y.cr.spec) && crd in Provides(c) && Awaited(y.s, c, crd);
    if y.s[SubscriptionKey(c)].body.status.Unresolved? {
      var m := OlmCanResolve(y, c);
      IdleMeansNoMove(y, m);
    } else if PinnedPlan(y.s, c).Some? {
      OlmCanProvide(y, c, crd);
    } else {
      assert Stuck(y.s, c);
    }
  }

  lemma IdleMeansNoMove(y: Sys, m: Move)
    requires Idle(y) && Possible(y, m)
    ensures Next(y, m) == y
  {
  }

  lemma ConvergedIsNotStuck(y: Sys)
    requires Converged(y)
    ensures !SomeoneIsStuck(y)
  {
    hide InstallerSettled, PoliciesSettled, GitOpsSettled, COMPONENTS, CONFIG_MAPS;
  }

  /** Where no move changes anything, the cluster has converged, or a component is stuck, and not both. */
  lemma StandstillIsExact(y: Sys)
    requires Live(y) && Idle(y)
    ensures Converged(y) <==> !SomeoneIsStuck(y)
  {
    hide GoalsOf, Shaped, Tame, Evolves, Ready, Stages, Started, Ended, CONFIG_MAPS, SomeoneIsStuck, Settled, OlmIsAwaited;
    var names := SomeOrder(CONFIG_MAPS.Keys);
    assert Possible(y, Pass(names)) && Next(y, Pass(names)) == y;
    GoalsAreShaped(y.cr.spec);
    StagesEvolve(GoalsOf(y.cr.spec), y.s, y.cr.spec, names);
    var failed := Stages(y.s, map[], y.cr.spec, names).2;
    ResourceEvolves(y.cr, failed);
    if Converged(y) {
      ConvergedIsNotStuck(y);
    } else if failed.None? {
      StagesSettle(y.s, y.cr.spec, names);
    } else {
      AwaitedMeansStuck(y);
    }
  }

  /** Moves all of which change something. */
  ghost predicate Productive(y: Sys, moves: seq<Move>)
    decreases |moves|
  {
    moves == [] || (Possible(y, moves[0]) && Next(y, moves[0]) != y && Productive(Next(y, moves[0]), moves[1..]))
  }

  ghost function After(y: Sys, moves: seq<Move>): Sys
    requires Productive(y, moves)
    decreases |moves|
  {
    if moves == [] then y else After(Next(y, moves[0]), moves[1..])
  }

  /** However the operator and OLM take turns, only so many moves change anything.  When none is left
      that would, the cluster has converged, unless a component is stuck. */
  lemma {:induction false} Converges(y: Sys, moves: seq<Move>)
    requires Live(y) && Productive(y, moves)
    ensures |moves| + Rank(After(y, moves)) <= Rank(y)
    ensures Live(After(y, moves)) && After(y, moves).cr.spec == y.cr.spec
    ensures Idle(After(y, moves)) ==> (Converged(After(y, moves)) <==> !SomeoneIsStuck(After(y, moves)))
    decreases |moves|
  {
    hide Next, Possible, Rank, Live, Idle, Converged, SomeoneIsStuck;
    if moves == [] {
      if Idle(y) {
        StandstillIsExact(y);
      }
    } else {
      EveryStepCounts(y, moves[0]);
      Converges(Next(y, moves[0]), moves[1..]);
    }
  }

  // ---------- Which starts lead where ----------

  /** OLM has installed the component, or can resolve the Subscription to the pinned version only. */
  predicate Safe(s: Store, c: Component) {
    || (forall crd :: crd in Provides(c) ==> CRDKey(crd) in s)
    || (SubscriptionKey(c) in s ==>
          match s[SubscriptionKey(c)].body.status
          case Unresolved => s[SubscriptionKey(c)].body.spec.startingCSV == c.csv
          case Resolved(_, csv) => csv == c.csv)
  }

  ghost predicate AllSafe(y: Sys) {
    forall c :: c in Enabled(y.cr.spec) ==> Safe(y.s, c)
  }

  lemma SafetyStaysInAPass(s: Store, spec: Spec, names: seq<string>, c: Component)
    requires c in Enabled(spec) && Safe(s, c) && forall n :: n in names ==> n in CONFIG_MAPS
    ensures Safe(Stages(s, map[], spec, names).0, c)
  {
    hide Stages, GoalsOf, Shaped, Tame, Evolves, Enabled, Provides, COMPONENTS, CONFIG_MAPS, Ready, OlmIsAwaited;
    var t := Stages(s, map[], spec, names).0;
    GoalsAreShaped(spec);
    EnabledBelongs(spec, c);
    StagesEvolve(GoalsOf(spec), s, spec, names);
    StagesDecideNothing(s, spec, names);
    if forall crd :: crd in Provides(c) ==> CRDKey(crd) in s {
      forall crd | crd in Provides(c) ensures CRDKey(crd) in t {
        PresentStays(GoalsOf(spec), s, t, CRDKey(crd));
      }
    } else if SubscriptionKey(c) in t && Pins(SubscriptionKey(c), t[SubscriptionKey(c)]) {
      PinsItsVersion(c, t[SubscriptionKey(c)]);
    }
  }

  lemma PinsItsVersion(c: Component, sub: Obj)
    requires c in COMPONENTS && Pins(SubscriptionKey(c), sub)
    ensures sub.body.SubscriptionBody? && sub.body.spec.startingCSV == c.csv
  {
  }

  lemma SafetyStays(y: Sys, m: Move)
    requires Possible(y, m) && AllSafe(y)
    ensures AllSafe(Next(y, m))
  {
    hide Stages, Started, Ended, COMPONENTS, Provides, Enabled, WithPlan, CONFIG_MAPS, Safe;
    var spec := y.cr.spec;
    match m
    case Pass(names) =>
      SpecStays(y.cr, Stages(y.s, map[], spec, names).2);
      forall c | c in Enabled(spec) ensures Safe(Next(y, m).s, c) {
        SafetyStaysInAPass(y.s, spec, names, c);
      }
    case Resolve(d, plan) =>
      forall c | c in Enabled(spec) ensures Safe(Next(y, m).s, c) {
        ProvidersDiffer(spec, c, d);
        SafetyStaysInResolving(y.s, c, d, plan);
      }
    case Provide(d, other) =>
      forall c | c in Enabled(spec) ensures Safe(Next(y, m).s, c) {
        SafetyStaysInProviding(y.s, c, other);
      }
  }

  lemma SafetyStaysInResolving(s: Store, c: Component, d: Component, plan: string)
    requires SubscriptionKey(d) in s && s[SubscriptionKey(d)].body.status.Unresolved?
    requires Safe(s, c) && (c != d ==> SubscriptionKey(c) != SubscriptionKey(d))
    ensures Safe(WithPlan(s, d, plan), c)
  {
    hide Provides;
    if SubscriptionKey(c) in s && c != d {
      ResolvingOne(s, c, d, plan);
    }
  }

  lemma SafetyStaysInProviding(s: Store, c: Component, crd: string)
    requires Safe(s, c)
    ensures Safe(s[CRDKey(crd) := Obj(map[], Blank)], c)
  {
    hide Provides;
  }

  lemma {:induction false} SafetyLasts(y: Sys, moves: seq<Move>)
    requires Productive(y, moves) && AllSafe(y)
    ensures AllSafe(After(y, moves))
    decreases |moves|
  {
    hide AllSafe, Next, Possible;
    if moves != [] {
      SafetyStays(y, moves[0]);
      SafetyLasts(Next(y, moves[0]), moves[1..]);
    }
  }

  lemma SafeIsNotStuck(s: Store, c: Component)
    requires Safe(s, c)
    ensures !Stuck(s, c)
  {
    hide Provides;
  }

  lemma {:induction false} StuckLasts(y: Sys, moves: seq<Move>, c: Component)
    requires Productive(y, moves) && c in Enabled(y.cr.spec) && Stuck(y.s, c)
    ensures SomeoneIsStuck(After(y, moves))
    decreases |moves|
  {
    hide Next, Possible, Stuck, Enabled;
    if moves != [] {
      StuckForGood(y, moves[0], c);
      StuckLasts(Next(y, moves[0]), moves[1..], c);
    }
  }

  /** Some moves lead to where no move changes anything. */
  lemma {:induction false} SomeRun(y: Sys) returns (moves: seq<Move>)
    requires Live(y)
    ensures Productive(y, moves) && Idle(After(y, moves))
    decreases Rank(y)
  {
    hide Live, Rank;
    if Idle(y) {
      moves := [];
    } else {
      var m :| Possible(y, m) && Next(y, m) != y;
      EveryStepCounts(y, m);
      var rest := SomeRun(Next(y, m));
      moves := [m] + rest;
    }
  }

  /** From an unsafe start, a component is stuck at once or as soon as OLM resolves its Subscription. */
  lemma UnsafeGetsStuck(y: Sys, c: Component) returns (moves: seq<Move>)
    requires Live(y) && c in Enabled(y.cr.spec) && !Safe(y.s, c)
    ensures Productive(y, moves) && Idle(After(y, moves)) && SomeoneIsStuck(After(y, moves))
  {
    hide Idle, SomeoneIsStuck, Live, Enabled, Provides, Stages, CONFIG_MAPS;
    if y.s[SubscriptionKey(c)].body.status.Unresolved? {
      var m := OlmCanResolve(y, c);
      var next := Next(y, m);
      assert Stuck(next.s, c);
      EveryStepCounts(y, m);
      var rest := SomeRun(next);
      StuckLasts(next, rest, c);
      moves := [m] + rest;
    } else {
      assert Stuck(y.s, c);
      moves := SomeRun(y);
      StuckLasts(y, moves, c);
    }
  }

  /** Every run that cannot go on ends in a converged cluster, if and only if at its start every
      component is installed or can resolve to the pinned version only. */
  lemma ConvergesExactly(y: Sys)
    requires Live(y)
    ensures (forall moves :: Productive(y, moves) && Idle(After(y, moves)) ==> Converged(After(y, moves))) <==> AllSafe(y)
  {
    hide Productive, After, Idle, Converged, Live, Rank, Safe, Enabled, Stuck;
    if AllSafe(y) {
      forall moves | Productive(y, moves) && Idle(After(y, moves)) ensures Converged(After(y, moves)) {
        Converges(y, moves);
        SafetyLasts(y, moves);
        var z := After(y, moves);
        forall c | c in Enabled(z.cr.spec) ensures !Stuck(z.s, c) {
          SafeIsNotStuck(z.s, c);
        }
      }
    } else {
      var c :| c in Enabled(y.cr.spec) && !Safe(y.s, c);
      var moves := UnsafeGetsStuck(y, c);
      Converges(y, moves);
    }
  }

  /** The start an earlier release can leave: its Subscription is resolved to its own version, and the
      definitions are gone. */
  lemma OlderReleaseIsStuck(y: Sys, plan: string) returns (z: Sys)
    requires Live(y) && y.cr.spec.serverless
    ensures Live(z) && z.cr == y.cr && SubscriptionKey(SERVERLESS) in z.s
    ensures z.s[SubscriptionKey(SERVERLESS)].body.spec.startingCSV == "serverless-operator.v1.35.1"
    ensures forall moves :: Productive(z, moves) ==> !Converged(After(z, moves))
  {
    var spec := CreateSubscriptionSpec(SERVERLESS).(startingCSV := "serverless-operator.v1.35.1");
    var sub := Obj(OrchestratorLabel(), SubscriptionBody(spec, Resolved(plan, spec.startingCSV)));
    z := y.(s := LeftBehind(y.s, sub));
    LeftBehindIsReady(y.s, y.cr.spec, sub);
    assert SERVERLESS in Enabled(y.cr.spec);
    hide Productive, After, Converged, SomeoneIsStuck, Stuck, Enabled, SERVERLESS, CreateSubscriptionSpec;
    forall moves | Productive(z, moves) ensures !Converged(After(z, moves)) {
      StuckLasts(z, moves, SERVERLESS);
      if Converged(After(z, moves)) {
        ConvergedIsNotStuck(After(z, moves));
      }
    }
  }

  function LeftBehind(s: Store, sub: Obj): Store
    requires sub.body.SubscriptionBody?
  {
    (s - {CRDKey(EVENTING_CRD), CRDKey(SERVING_CRD)})[SubscriptionKey(SERVERLESS) := sub]
  }

  lemma LeftBehindIsReady(s: Store, spec: Spec, sub: Obj)
    requires sub.body.SubscriptionBody? && sub.body.status.Resolved? && sub.body.status.currentCSV == "serverless-operator.v1.35.1"
    requires Ready(s, spec)
    ensures Ready(LeftBehind(s, sub), spec) && Stuck(LeftBehind(s, sub), SERVERLESS)
  {
    var t := LeftBehind(s, sub);
    LeftBehindDiffers(s, sub);
    DefinitionsDiffer();
    hide LeftBehind, COMPONENTS, EVENTING_CRD, SERVING_CRD, APP_PROJECT_CRD, TASK_CRD, PIPELINE_CRD, SERVERLESS, LOGIC, RHDH;
    hide PinnedPlan, Provides, CLUSTER_INGRESS_KEY;
  }

  lemma LeftBehindDiffers(s: Store, sub: Obj)
    requires sub.body.SubscriptionBody? && sub.body.status.Resolved? && sub.body.status.currentCSV == "serverless-operator.v1.35.1"
    ensures var t := LeftBehind(s, sub);
      && Met(HasResolved(SERVERLESS), t) && PinnedPlan(t, SERVERLESS).None? && CRDKey(EVENTING_CRD) !in t
      && (forall k: Key :: k.kind !in {Subscription, CustomResourceDefinition} && k in s ==> k in t)
      && (forall name :: name !in {EVENTING_CRD, SERVING_CRD} && CRDKey(name) in s ==> CRDKey(name) in t)
      && (forall c :: c in {LOGIC, RHDH} ==> PinnedPlan(t, c) == PinnedPlan(s, c))
      && (forall c :: PinnedPlan(t, c).Some? ==> PinnedPlan(t, c).value.kind == InstallPlan)
    ensures EVENTING_CRD in Provides(SERVERLESS)
  {
    hide EVENTING_CRD, SERVING_CRD;
  }

  lemma DefinitionsDiffer()
    ensures {APP_PROJECT_CRD, TASK_CRD, PIPELINE_CRD} !! {EVENTING_CRD, SERVING_CRD}
    ensures CLUSTER_INGRESS_KEY.kind == ClusterIngress
  {
    assert |APP_PROJECT_CRD| == 23 && |TASK_CRD| == 16 && |PIPELINE_CRD| == 20 && |EVENTING_CRD| == 37 && |SERVING_CRD| == 36;
  }
}
