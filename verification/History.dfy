/** What a clean log tells: the readable consequences, entry by entry. */
module History {
  import opened Kubernetes
  import opened Desired
  import opened Audit

  /** The log `l` began with `p`. */
  predicate Extends(l: Log, p: Log) {
    l == p || (l.Snoc? && Extends(l.prev, p))
  }

  /** At some time the log was `before`, and then `e` was added. */
  predicate Entry(l: Log, before: Log, e: Event) {
    Extends(l, Snoc(before, e))
  }

  lemma {:induction false} EntryIsSound(l: Log, before: Log, e: Event)
    requires Clean(l) && Entry(l, before, e)
    ensures Clean(before) && Sound(before, e)
  {
    hide Sound;
    if l != Snoc(before, e) {
      EntryIsSound(l.prev, before, e);
    }
  }

  /** No pass has begun since the log was `p`. */
  predicate SamePass(l: Log, p: Log) {
    l == p || (l.Snoc? && !Opens(l.event) && SamePass(l.prev, p))
  }

  /** An entry of the pass that is going on shows the fact. */
  ghost predicate ShownInPass(l: Log, f: Fact) {
    exists before, e :: SamePass(l, Snoc(before, e)) && f in Shows(e)
  }

  lemma {:induction false} FactsAreShown(l: Log, f: Fact)
    requires f in Facts(l)
    ensures ShownInPass(l, f)
  {
    if f in Shows(l.event) {
      assert SamePass(l, Snoc(l.prev, l.event));
    } else {
      FactsAreShown(l.prev, f);
      var before, e :| SamePass(l.prev, Snoc(before, e)) && f in Shows(e);
      assert SamePass(l, Snoc(before, e));
    }
  }

  /** When the operator deletes an object, it has seen the operator's label on it the last time it
      looked; a namespace is one of five fixed ones or that of RHDH, and the resource was being
      deleted when the pass began.  So the workflow namespace survives unless it is one of these. */
  lemma {:induction false} DeletionFrame(l: Log, before: Log, k: Key)
    requires Clean(l) && Entry(l, before, Deleted(k))
    ensures LastSight(before, k).Some? && Labelled(LastSight(before, k).value.labels)
    ensures PassOf(before).InPass?
    ensures var InPass(start, now) := PassOf(before);
      && (k.kind == Namespace ==>
            && start.deleting
            && k.name in {"knative-eventing", "knative-serving", "openshift-serverless",
                          "openshift-serverless-logic", "rhdh-operator", now.spec.rhdh.namespace})
      && (!start.deleting ==>
            && k.kind in {AppProject, Task, Pipeline} && k.ns == now.spec.argoCDNamespace
            && !(now.spec.argoCDEnabled && now.spec.tektonEnabled))
  {
    EntryIsSound(l, before, Deleted(k));
  }

  ghost predicate DefinitionShown(l: Log, name: string) {
    ShownInPass(l, Exists(Key(CustomResourceDefinition, "", name)))
  }

  /** The names of the network policies that apply. */
  function PoliciesFor(s: Spec): set<string> {
    {"allow-rhdh-to-sonataflow-and-workflows", "allow-intra-namespace",
     "allow-openshift-serverless-logic-to-sonataflow-and-workflows"} +
    (if s.platform.monitoring then {"allow-monitoring-to-sonataflow-and-workflows"} else {})
  }

  function IngressOf(s: Spec, name: string): seq<seq<PolicyPeer>> {
    if name == "allow-rhdh-to-sonataflow-and-workflows" then
      [[FromNamespace("knative-eventing"), FromNamespace("knative-serving"), FromNamespace(s.platform.namespace),
        FromNamespace(s.rhdh.namespace), FromNamespace(s.postgres.namespace)]]
    else if name == "allow-intra-namespace" then [[FromPodsOfThisNamespace]]
    else if name == "allow-monitoring-to-sonataflow-and-workflows" then [[FromNamespace("openshift-user-workload-monitoring")]]
    else [[FromNamespace("openshift-serverless-logic")]]
  }

  /** What the stages before stage `n` have to show, as far as they are switched on. */
  ghost predicate EarlierStagesShown(l: Log, s: Spec, n: nat) {
    && (n > 1 && s.serverlessLogic ==>
          && DefinitionShown(l, "sonataflowclusterplatforms.sonataflow.org")
          && ShownInPass(l, Exists(Key(SonataFlowClusterPlatform, "", "cluster-platform")))
          && ShownInPass(l, Exists(Key(SonataFlowPlatform, s.platform.namespace, "sonataflow-platform"))))
    && (n > 2 && s.serverless ==>
          && ShownInPass(l, Exists(Key(Subscription, "openshift-serverless", "serverless-operator")))
          && DefinitionShown(l, "knativeeventings.operator.knative.dev")
          && DefinitionShown(l, "knativeservings.operator.knative.dev"))
    && (n > 3 && s.rhdh.installOperator ==>
          && ShownInPass(l, Exists(Key(ClusterIngress, "", "cluster")))
          && ShownInPass(l, Exists(Key(Secret, s.rhdh.namespace, "dynamic-plugins-npmrc")))
          && DefinitionShown(l, "backstages.rhdh.redhat.com")
          && ShownInPass(l, Exists(Key(Backstage, s.rhdh.namespace, s.rhdh.name))))
    && (n > 4 ==>
          && ShownInPass(l, Exists(Key(Namespace, "", s.platform.namespace)))
          && forall name :: name in PoliciesFor(s) ==>
              ShownInPass(l, HasBody(Key(NetworkPolicy, s.platform.namespace, name), PolicyBody(PolicySpec(IngressOf(s, name))))))
  }

  lemma PolicyNames(s: Spec)
    ensures forall name :: name in PoliciesFor(s) ==>
      && name in {ALLOW_RHDH, ALLOW_INTRA, ALLOW_MONITORING, ALLOW_LOGIC} && Applicable(name, s.platform.monitoring)
      && Policy(name, s.platform.namespace, s.rhdh.namespace, s.postgres.namespace).body == PolicyBody(PolicySpec(IngressOf(s, name)))
  {
    assert |ALLOW_RHDH| == 38 && |ALLOW_INTRA| == 21 && |ALLOW_MONITORING| == 44 && |ALLOW_LOGIC| == 60;
  }

  lemma EvidenceIsShown(l: Log, s: Spec, n: nat)
    requires DoneBefore(l, s, n) && n <= 5
    ensures EarlierStagesShown(l, s, n)
  {
    hide ShownInPass, Facts;
    PolicyNames(s);
    forall f | f in Facts(l) ensures ShownInPass(l, f) {
      FactsAreShown(l, f);
    }
  }

  /** The labelled objects of the kind could not be listed, or were listed; if there was just one, it is gone. */
  ghost predicate SingleGoneShown(l: Log, kind: Kind, ns: string) {
    || ShownInPass(l, IsGone(NamespaceKey(ns)))
    || ShownInPass(l, CallFailed(LookUp(NamespaceKey(ns))))
    || ShownInPass(l, CallFailed(Listing(kind, ns)))
    || (exists items :: ShownInPass(l, Answered(kind, ns, items)) && forall k :: items == {k} ==> ShownInPass(l, IsGone(k)))
  }

  lemma SingleGoneIsShown(l: Log, kind: Kind, ns: string)
    requires SingleGone(l, kind, ns)
    ensures SingleGoneShown(l, kind, ns)
  {
    hide ShownInPass, Facts;
    forall f | f in Facts(l) ensures ShownInPass(l, f) {
      FactsAreShown(l, f);
    }
    if !Unseen(l, kind, ns) {
      var f :| f in Facts(l) && f.Answered? && f.kind == kind && f.ns == ns &&
               forall k :: k in f.items && f.items == {k} ==> IsGone(k) in Facts(l);
      assert ShownInPass(l, Answered(kind, ns, f.items));
      assert forall k :: f.items == {k} ==> k in f.items;
    }
  }

  /** A pass that attempts the Completed status has shown the evidence of every stage: of the first four,
      and of the last one, GitOps resources switched on or off. */
  lemma {:induction false} CompletedCertifies(l: Log, before: Log)
    requires Clean(l) && Entry(l, before, Attempted(Completed))
    ensures PassOf(before).InPass? && !PassOf(before).start.deleting
    ensures var s := PassOf(before).now.spec;
      && EarlierStagesShown(before, s, 5)
      && (s.argoCDEnabled && s.tektonEnabled ==>
            && ShownInPass(before, HasBody(Key(AppProject, s.argoCDNamespace, "orchestrator-gitops"),
                                           AppProjectBody([Destination("*", "*", "*")], ["*"])))
            && DefinitionShown(before, "tasks.tekton.dev")
            && DefinitionShown(before, "pipelines.tekton.dev")
            && ShownInPass(before, Exists(Key(Pipeline, s.argoCDNamespace, "workflow-deployment"))))
      && (!(s.argoCDEnabled && s.tektonEnabled) ==>
            && SingleGoneShown(before, AppProject, s.argoCDNamespace)
            && SingleGoneShown(before, Pipeline, s.argoCDNamespace))
  {
    EntryIsSound(l, before, Attempted(Completed));
    var s := PassOf(before).now.spec;
    if !(s.argoCDEnabled && s.tektonEnabled) {
      SingleGoneIsShown(before, AppProject, s.argoCDNamespace);
      SingleGoneIsShown(before, Pipeline, s.argoCDNamespace);
    }
    hide ShownInPass, EarlierStagesShown, SingleGone, SingleGoneShown, TasksTried, Untroubled;
    EvidenceIsShown(before, PassOf(before).now.spec, 5);
    forall f | f in Facts(before) ensures ShownInPass(before, f) {
      FactsAreShown(before, f);
    }
  }

  lemma {:induction false} ShownIsAFact(l: Log, before: Log, e: Event)
    requires SamePass(l, Snoc(before, e)) && !Opens(e)
    ensures Shows(e) <= Facts(l)
  {
    hide Shows;
    if l != Snoc(before, e) {
      ShownIsAFact(l.prev, before, e);
    }
  }

  /** No other failure goes with Completed: every call that failed in the pass was one that labels a
      namespace, looks for an operator group, a ConfigMap or a Task, looks for a namespace of the Knative
      part, makes the namespace of one of the other two operators, creates a Knative resource, or, with
      GitOps switched off, looks for the GitOps namespace, lists its resources or deletes a Task. */
  lemma {:induction false} CompletedDespite(l: Log, before: Log, earlier: Log, call: Call, error: Error)
    requires Clean(l) && Entry(l, before, Attempted(Completed)) && SamePass(before, Snoc(earlier, Refused(call, error)))
    ensures PassOf(before).InPass?
    ensures var s := PassOf(before).now.spec; var off := !(s.argoCDEnabled && s.tektonEnabled);
      match call
      case LookUp(k) =>
        || k.kind in {OperatorGroup, ConfigMap, Task}
        || (k.kind == Namespace && k.name in {"openshift-serverless", "knative-eventing", "knative-serving"})
        || (k.kind == Namespace && k.name == s.argoCDNamespace && off)
      case Listing(kind, ns) => kind in {AppProject, Pipeline, Task} && ns == s.argoCDNamespace && off
      case Creation(k) =>
        || k.kind in {KnativeEventing, KnativeServing}
        || (k.kind == Namespace && k.name in {"openshift-serverless-logic", "rhdh-operator"})
      case Change(k) => k.kind == Namespace
      case Deletion(k) => k.kind == Task && k.ns == s.argoCDNamespace && off
  {
    EntryIsSound(l, before, Attempted(Completed));
    ShownIsAFact(before, earlier, Refused(call, error));
    assert CallFailed(call) in Facts(before);
    hide DoneBefore, Facts;
  }

  /** When the finalizer is removed, no call of the pass has failed but to look for the RHDH namespace or
      to label it. */
  lemma {:induction false} RemovedDespite(l: Log, before: Log, seen: Orchestrator, written: Orchestrator,
                                          earlier: Log, call: Call, error: Error)
    requires Clean(l) && Entry(l, before, CRWritten(seen, written)) && SamePass(before, Snoc(earlier, Refused(call, error)))
    requires FINALIZER in seen.finalizers && FINALIZER !in written.finalizers
    ensures PassOf(before).InPass?
    ensures (call.LookUp? || call.Change?) && call.key == NamespaceKey(PassOf(before).start.spec.rhdh.namespace)
  {
    EntryIsSound(l, before, CRWritten(seen, written));
    ShownIsAFact(before, earlier, Refused(call, error));
    assert CallFailed(call) in Facts(before);
    hide CleanedUp, Facts;
  }

  /** The finalizer is removed only after the pass has shown that every namespace to be cleaned up
      is gone or not the operator's, and that nothing of a list to be cleared is left.  Nothing else of
      the resource changes, other finalizers included. */
  lemma {:induction false} FinalizerIsLast(l: Log, before: Log, seen: Orchestrator, written: Orchestrator)
    requires Clean(l) && Entry(l, before, CRWritten(seen, written))
    requires FINALIZER in seen.finalizers && FINALIZER !in written.finalizers
    ensures PassOf(before).InPass? && PassOf(before).start.deleting
    ensures CleanedUp(before, PassOf(before).start.spec)
    ensures written == seen.(finalizers := seen.finalizers - {FINALIZER})
  {
    hide CleanedUp;
    EntryIsSound(l, before, CRWritten(seen, written));
  }

  ghost predicate SettledShown(l: Log, ns: string) {
    ShownInPass(l, IsGone(Key(Namespace, "", ns))) || ShownInPass(l, IsForeign(Key(Namespace, "", ns)))
  }

  /** Every labelled object of a list is gone. */
  ghost predicate ClearedShown(l: Log, kind: Kind, ns: string) {
    exists items :: ShownInPass(l, Answered(kind, ns, items)) && AllGoneShown(l, items)
  }

  ghost predicate AllGoneShown(l: Log, items: set<Key>) {
    forall k :: k in items ==> ShownInPass(l, IsGone(k))
  }

  ghost predicate KnativeShown(l: Log) {
    SettledShown(l, "knative-eventing") && SettledShown(l, "knative-serving") && SettledShown(l, "openshift-serverless")
  }

  ghost predicate PlatformsShown(l: Log, ns: string) {
    ClearedShown(l, SonataFlowPlatform, ns) && ClearedShown(l, SonataFlowClusterPlatform, "")
  }

  lemma ClearedIsShown(l: Log, kind: Kind, ns: string)
    requires Cleared(l, kind, ns)
    ensures ClearedShown(l, kind, ns)
  {
    hide ShownInPass, Facts;
    forall f | f in Facts(l) ensures ShownInPass(l, f) {
      FactsAreShown(l, f);
    }
    var items :| Answered(kind, ns, items) in Facts(l) && AllGone(l, items);
    assert ShownInPass(l, Answered(kind, ns, items)) && AllGoneShown(l, items);
  }

  /** A clean-up goes in order: a SonataFlow platform is deleted only after the pass has shown that the
      Knative namespaces are gone or foreign; the namespace of the serverless logic operator only after it
      has also shown that no platform is left; and a namespace of RHDH only after that one, too. */
  lemma {:induction false} CleanUpComesInOrder(l: Log, before: Log, k: Key)
    requires Clean(l) && Entry(l, before, Deleted(k)) && PassOf(before).InPass? && PassOf(before).start.deleting
    ensures k.kind in {SonataFlowPlatform, SonataFlowClusterPlatform} ==> KnativeShown(before)
    ensures k.kind == Namespace && k.name !in {"knative-eventing", "knative-serving", "openshift-serverless"} ==>
      KnativeShown(before) && PlatformsShown(before, PassOf(before).start.spec.platform.namespace)
    ensures k.kind == Namespace && k.name == "rhdh-operator" ==> SettledShown(before, "openshift-serverless-logic")
  {
    EntryIsSound(l, before, Deleted(k));
    hide ShownInPass, Facts, HubCleared, BackstagesCounted, Clean;
    forall f | f in Facts(before) ensures ShownInPass(before, f) {
      FactsAreShown(before, f);
    }
    forall kind, ns | Cleared(before, kind, ns) ensures ClearedShown(before, kind, ns) {
      ClearedIsShown(before, kind, ns);
    }
    hide Cleared, ClearedShown;
  }

  /** A pass that found a resource being deleted creates nothing and changes nothing but the label of
      a namespace. */
  lemma {:induction false} DeletionInstallsNothing(l: Log, before: Log, e: Event)
    requires Clean(l) && Entry(l, before, e)
    requires PassOf(before).InPass? && PassOf(before).start.deleting
    ensures !e.Created?
    ensures e.Updated? ==> e.key.kind == Namespace && e.obj == Adopted(e.was)
    ensures e != Attempted(Completed)
  {
    hide CleanedUp;
    EntryIsSound(l, before, e);
  }

  /** A plan is approved only if the worker last saw one of the three Subscriptions refer to it, at
      the version pinned for that Subscription; nothing else of the plan changes. */
  lemma {:induction false} ApprovalsAreJustified(l: Log, before: Log, k: Key, was: Obj, obj: Obj)
    requires Clean(l) && Entry(l, before, Updated(k, was, obj)) && k.kind == InstallPlan
    ensures was.body.InstallPlanBody? && !was.body.approved && obj == was.(body := was.body.(approved := true))
    ensures exists c :: c in {LOGIC, SERVERLESS, RHDH} && RequestedBy(before, k, c) && MayInstall(before, c)
  {
    EntryIsSound(l, before, Updated(k, was, obj));
  }

  /** Stage `n` of a pass creates, repairs or approves the object of this key. */
  ghost predicate MadeBy(n: nat, k: Key, s: Spec) {
    match k.kind
    case Namespace =>
      || (n == 1 && k.name in {LOGIC.namespace, s.platform.namespace})
      || (n == 2 && k.name in {SERVERLESS.namespace, EVENTING, SERVING})
      || (n == 3 && k.name == RHDH.namespace)
    case OperatorGroup | InstallPlan =>
      || (n == 1 && k.ns == LOGIC.namespace)
      || (n == 2 && k.ns == SERVERLESS.namespace)
      || (n == 3 && k.ns == RHDH.namespace)
    case _ => n == StageOf(k) && n > 0
  }

  /** The stage of the operator is known from its namespace. */
  lemma ComponentStages(c: Component)
    requires c in COMPONENTS
    ensures var n := StageOfComponent(c);
      && n in {1, 2, 3}
      && (n == 1 <==> c.namespace == LOGIC.namespace)
      && (n == 2 <==> c.namespace == SERVERLESS.namespace)
      && (n == 3 <==> c.namespace == RHDH.namespace)
  {
  }

  /** Whatever a pass creates, repairs or approves belongs to a stage that is switched on and that the
      pass has reached. */
  lemma StageIsReached(l: Log, e: Event) returns (n: nat)
    requires Sound(l, e) && PassOf(l).InPass? && (e.Created? || (e.Updated? && e.key.kind != Namespace))
    ensures n <= 5 && MayCreate(l, n) && MadeBy(n, e.key, PassOf(l).now.spec)
  {
    hide Reached, On, Proper, ProperPolicy, COMPONENTS, StageOfComponent, StageOf, EVENTING, SERVING;
    hide LOGIC, SERVERLESS, RHDH, RequestedBy;
    var k := e.key;
    if Proper(PassOf(l).now.spec, k, e.obj) {
      ProperKinds(PassOf(l).now.spec, k, e.obj);
    }
    if k.kind in {OperatorGroup, InstallPlan, Subscription} {
      var c := InstalledComponent(l, e);
      ComponentStages(c);
      ComponentStageIs(c);
      n := StageOfComponent(c);
    } else if k.kind == Namespace {
      if c :| c in COMPONENTS && k.name == c.namespace && MayInstall(l, c) {
        ComponentStages(c);
        n := StageOfComponent(c);
      } else {
        n := if k.name in {EVENTING, SERVING} && MayCreate(l, 2) then 2 else 1;
      }
    } else {
      OtherStages(k);
      n := StageOf(k);
    }
  }

  lemma ProperKinds(s: Spec, k: Key, obj: Obj)
    requires Proper(s, k, obj)
    ensures k.kind !in {Namespace, OperatorGroup, Subscription, InstallPlan, CustomResourceDefinition, ClusterIngress}
  {
  }

  lemma InstalledComponent(l: Log, e: Event) returns (c: Component)
    requires Sound(l, e) && (e.Created? || e.Updated?) && e.key.kind in {OperatorGroup, InstallPlan, Subscription}
    requires e.key.kind == InstallPlan ==> e.Updated?
    ensures c in COMPONENTS && MayInstall(l, c) && e.key.ns == c.namespace
    ensures e.key.kind == Subscription ==> e.key == SubscriptionKey(c)
  {
    hide MayInstall, COMPONENTS, Proper;
    var k := e.key;
    if k.kind == OperatorGroup {
      c :| c in COMPONENTS && k == GroupKey(c) && MayInstall(l, c);
    } else if k.kind == Subscription {
      c :| c in COMPONENTS && k == SubscriptionKey(c) && MayInstall(l, c);
    } else {
      c :| c in COMPONENTS && RequestedBy(l, k, c) && MayInstall(l, c);
    }
  }

  lemma ComponentStageIs(c: Component)
    ensures StageOfComponent(c) == StageOf(SubscriptionKey(c))
  {
  }

  lemma OtherStages(k: Key)
    ensures StageOf(k) <= 5
    ensures k.kind == ConfigMap ==> StageOf(k) == 3
    ensures k.kind == NetworkPolicy ==> StageOf(k) == 4
    ensures k.kind == AppProject ==> StageOf(k) == 5
    ensures k.kind !in {Namespace, OperatorGroup, Subscription, InstallPlan, CustomResourceDefinition, ClusterIngress} ==>
      StageOf(k) > 0
  {
  }

  /** Whatever a pass creates, repairs or approves, namespaces, groups, Subscriptions and plans
      included, it does so in a stage that is switched on, after the same pass has shown everything that
      the earlier stages have to show. */
  lemma {:induction false} StagesComeInOrder(l: Log, before: Log, e: Event) returns (n: nat)
    requires Clean(l) && Entry(l, before, e) && PassOf(before).InPass?
    requires e.Created? || (e.Updated? && e.key.kind != Namespace)
    ensures !PassOf(before).start.deleting
    ensures MadeBy(n, e.key, PassOf(before).now.spec) && On(PassOf(before).now.spec, n)
    ensures EarlierStagesShown(before, PassOf(before).now.spec, n)
  {
    hide Sound, MadeBy, DoneBefore, EarlierStagesShown, On;
    EntryIsSound(l, before, e);
    n := StageIsReached(before, e);
    EvidenceIsShown(before, PassOf(before).now.spec, n);
  }

  /** The Subscription of one of the three operators: the pinned version from the Red Hat catalog, to be
      approved by hand. */
  predicate PinnedSubscription(k: Key, s: SubscriptionSpec) {
    && k.kind == Subscription
    && s.approval == Manual && s.source == "redhat-operators" && s.sourceNamespace == "openshift-marketplace"
    && s.package == k.name
    && (|| (k.ns == "openshift-serverless-logic" && k.name == "logic-operator-rhel8" &&
            s.channel == "alpha" && s.startingCSV == "logic-operator-rhel8.v1.36.0")
        || (k.ns == "openshift-serverless" && k.name == "serverless-operator" &&
            s.channel == "stable" && s.startingCSV == "serverless-operator.v1.36.0")
        || (k.ns == "rhdh-operator" && k.name == "rhdh" &&
            s.channel == "fast-1.6" && s.startingCSV == "rhdh-operator.v1.6.1"))
  }

  lemma SubscriptionsArePinned(c: Component)
    requires c in COMPONENTS
    ensures PinnedSubscription(SubscriptionKey(c), CreateSubscriptionSpec(c))
  {
  }

  /** The text is rendered for the domain of the Ingress, as this pass has last seen it. */
  ghost predicate DomainRead(l: Log, text: Text) {
    && text.Rendered?
    && ShownInPass(l, Exists(CLUSTER_INGRESS_KEY))
    && LastSight(l, CLUSTER_INGRESS_KEY).Some?
    && LastSight(l, CLUSTER_INGRESS_KEY).value.body == IngressBody(text.clusterDomain)
  }

  /** A Subscription that is changed gets the wanted spec and keeps its status and labels. */
  lemma {:induction false} RepairsArePinned(l: Log, before: Log, k: Key, was: Obj, obj: Obj)
    requires Clean(l) && Entry(l, before, Updated(k, was, obj)) && k.kind == Subscription
    ensures was.body.SubscriptionBody? && obj.body.SubscriptionBody? && PinnedSubscription(k, obj.body.spec)
    ensures obj.body.status == was.body.status && obj.labels == was.labels
  {
    EntryIsSound(l, before, Updated(k, was, obj));
    hide COMPONENTS, MayInstall, CreateSubscriptionSpec, PinnedSubscription;
    var c :| c in COMPONENTS && k == SubscriptionKey(c) && obj == Repaired(c, was);
    SubscriptionsArePinned(c);
  }

  /** The contents that do not depend on the resource, name by name. */
  ghost predicate AsShipped(s: Spec, k: Key, body: Body) {
    match k.kind
    case KnativeEventing => k == Key(KnativeEventing, "knative-eventing", "knative-eventing")
    case KnativeServing => k == Key(KnativeServing, "knative-serving", "knative-serving")
    case Secret =>
      k.name == "dynamic-plugins-npmrc" && body == DataBody(map[".npmrc" := Literal("registry=https://npm.registry.redhat.com")])
    case ConfigMap =>
      && body.DataBody?
      && (forall f :: f in body.data ==>
            (k.name, f) in {("app-config-rhdh", "app-config-rhdh.yaml"), ("app-config-rhdh-auth", "app-config-auth.gh.yaml"),
                            ("app-config-rhdh-catalog", "app-config-catalog.yaml"), ("dynamic-plugins-rhdh", "dynamic-plugins.yaml")})
    case Backstage =>
      && body.BackstageBody? && body.dynamicPlugins == "dynamic-plugins-rhdh"
      && (forall n :: n in body.configMaps <==> n in {"app-config-rhdh", "app-config-rhdh-auth", "app-config-rhdh-catalog"})
    case NetworkPolicy => body.PolicyBody? && body.policy.ingress == IngressOf(s, k.name)
    case AppProject =>
      k.name == "orchestrator-gitops" && body == AppProjectBody([Destination("*", "*", "*")], ["*"])
    case Task => k.name in {"git-cli", "flattener", "build-manifests", "build-gitops"} && body == Manifest(k.name)
    case Pipeline => k.name == "workflow-deployment" && body == Manifest("workflow-deployment")
    case _ => true
  }

  lemma ProperIsShipped(s: Spec, k: Key, obj: Obj)
    requires Proper(s, k, obj)
    ensures AsShipped(s, k, obj.body)
  {
  }

  /** What the operator creates is what the resource asks for, under the name and with the content that
      belong together; it carries the operator's label, except the operator groups.  Outside a pass
      only namespaces, groups and Subscriptions of the operators are created. */
  lemma {:induction false} CreationsAreProper(l: Log, before: Log, k: Key, obj: Obj)
    requires Clean(l) && Entry(l, before, Created(k, obj))
    ensures k.kind != OperatorGroup ==>
      "rhdh.redhat.com/created-by" in obj.labels && obj.labels["rhdh.redhat.com/created-by"] == "orchestrator"
    ensures k.kind == Namespace ==>
      k.name in {"knative-eventing", "knative-serving", "openshift-serverless", "openshift-serverless-logic", "rhdh-operator"} ||
      (PassOf(before).InPass? && PassOf(before).now.spec.serverlessLogic && k.name == PassOf(before).now.spec.platform.namespace)
    ensures k.kind == OperatorGroup ==>
      (k.ns, k.name) in {("openshift-serverless-logic", "serverless-operator-group"),
                         ("openshift-serverless", "serverless-operator-group"), ("rhdh-operator", "rhdh-operator-group")}
    ensures k.kind == Subscription ==>
      obj.body.SubscriptionBody? && obj.body.status.Unresolved? && PinnedSubscription(k, obj.body.spec)
    ensures k.kind == ConfigMap ==>
      && obj.body.DataBody?
      && (forall f :: f in obj.body.data ==> DomainRead(before, obj.body.data[f]))
    ensures k.kind !in {Namespace, OperatorGroup, Subscription} ==>
      && PassOf(before).InPass? && !PassOf(before).start.deleting
      && Proper(PassOf(before).now.spec, k, obj) && AsShipped(PassOf(before).now.spec, k, obj.body)
  {
    EntryIsSound(l, before, Created(k, obj));
    if PassOf(before).InPass? && Proper(PassOf(before).now.spec, k, obj) {
      ProperIsShipped(PassOf(before).now.spec, k, obj);
    }
    hide Proper, AsShipped, DoneBefore, PinnedSubscription, LastSight, ShownInPass, Facts, COMPONENTS, CreateSubscriptionSpec;
    if k.kind == Subscription {
      var c :| c in COMPONENTS && k == SubscriptionKey(c) && obj == CreateSubscriptionObject(c);
      SubscriptionsArePinned(c);
    }
    if k.kind == ConfigMap {
      ProperIsData(PassOf(before).now.spec, k, obj);
      forall f | f in obj.body.data ensures DomainRead(before, obj.body.data[f]) {
        assert DomainSeen(before, obj.body.data[f].clusterDomain);
        FactsAreShown(before, Exists(CLUSTER_INGRESS_KEY));
      }
    }
  }

  lemma ProperIsData(s: Spec, k: Key, obj: Obj)
    requires Proper(s, k, obj) && k.kind == ConfigMap
    ensures obj.body.DataBody?
  {
  }

  /** Adopting a namespace adds the label and leaves the rest, and only namespaces are adopted that the
      resource names or that are fixed; other kinds keep their labels. */
  lemma {:induction false} LabelsAreKept(l: Log, before: Log, k: Key, was: Obj, obj: Obj)
    requires Clean(l) && Entry(l, before, Updated(k, was, obj))
    ensures forall n :: n in was.labels && n != CREATED_BY ==> n in obj.labels && obj.labels[n] == was.labels[n]
    ensures forall n :: n in obj.labels && n !in was.labels ==> k.kind == Namespace && n == CREATED_BY
    ensures k.kind == Namespace ==> obj.body == was.body && MayAdopt(before, k.name)
    ensures k.kind == NetworkPolicy ==> PassOf(before).InPass? && ProperPolicy(PassOf(before).now.spec, k, obj.body)
  {
    EntryIsSound(l, before, Updated(k, was, obj));
    hide Proper, DoneBefore, ProperPolicy, MayAdopt;
  }
}
