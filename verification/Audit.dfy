/** What may stand in an operator's log: every entry is judged by the entries before it. */
module Audit {
  import opened Kubernetes
  import opened Desired

  // ---------- What a log shows ----------

  datatype Pass = NoPass | InPass(start: Orchestrator, now: Orchestrator)

  /** The pass the last entry belongs to: the resource it started from and the one it works with. */
  function PassOf(l: Log): Pass {
    match l
    case Start => NoPass
    case Snoc(prev, PassStarted(cr)) => InPass(cr, cr)
    case Snoc(prev, WatchStarted) => NoPass
    case Snoc(prev, Refetched(cr)) => (match PassOf(prev) case NoPass => NoPass case InPass(s, _) => InPass(s, cr))
    case Snoc(prev, _) => PassOf(prev)
  }

  predicate Opens(e: Event) {
    e.PassStarted? || e.WatchStarted?
  }

  /** What an entry of the log shows about the cluster. */
  datatype Fact =
    | Exists(key: Key)
    | HasBody(key: Key, body: Body)
    | IsGone(key: Key)
    | IsForeign(key: Key)
    | Answered(kind: Kind, ns: string, items: set<Key>)
    | CallFailed(call: Call)

  function Shows(e: Event): set<Fact> {
    match e
    case Found(k, obj) =>
      {Exists(k), HasBody(k, obj.body)} + (if Labelled(obj.labels) then {} else {IsForeign(k)})
    case Created(k, obj) => {Exists(k), HasBody(k, obj.body)}
    case Updated(k, _, obj) => {Exists(k), HasBody(k, obj.body)}
    case Missing(k) => {IsGone(k)}
    case Deleted(k) => {IsGone(k)}
    case Listed(kind, ns, items) => {Answered(kind, ns, items.Keys)}
    case Refused(c, _) => {CallFailed(c)}
    case _ => {}
  }

  /** What was shown since the pass began. */
  function Facts(l: Log): set<Fact> {
    match l
    case Start => {}
    case Snoc(prev, e) => if Opens(e) then {} else Facts(prev) + Shows(e)
  }

  /** The object as the worker last saw it. */
  function LastSight(l: Log, k: Key): Option<Obj> {
    match l
    case Start => None
    case Snoc(prev, e) =>
      match e
      case Found(j, obj) => if j == k then Some(obj) else LastSight(prev, k)
      case Created(j, obj) => if j == k then Some(obj) else LastSight(prev, k)
      case Updated(j, _, obj) => if j == k then Some(obj) else LastSight(prev, k)
      case Listed(_, _, items) => if k in items then Some(items[k]) else LastSight(prev, k)
      case _ => LastSight(prev, k)
  }

  predicate SeenLabelled(l: Log, k: Key) {
    var seen := LastSight(l, k);
    seen.Some? && Labelled(seen.value.labels)
  }

  // ---------- Evidence that a stage has done its work ----------

  predicate LogicDone(l: Log, s: Spec) {
    s.serverlessLogic ==>
      && Exists(CRDKey(CLUSTER_PLATFORM_CRD)) in Facts(l)
      && Exists(CLUSTER_PLATFORM_KEY) in Facts(l)
      && Exists(PlatformKey(s.platform.namespace)) in Facts(l)
  }

  predicate KnativeDone(l: Log, s: Spec) {
    s.serverless ==>
      && Exists(SubscriptionKey(SERVERLESS)) in Facts(l)
      && Exists(CRDKey(EVENTING_CRD)) in Facts(l)
      && Exists(CRDKey(SERVING_CRD)) in Facts(l)
  }

  predicate RHDHDone(l: Log, s: Spec) {
    s.rhdh.installOperator ==>
      && Exists(CLUSTER_INGRESS_KEY) in Facts(l)
      && Exists(SecretKey(s.rhdh.namespace)) in Facts(l)
      && Exists(CRDKey(BACKSTAGE_CRD)) in Facts(l)
      && Exists(BackstageKey(s.rhdh)) in Facts(l)
  }

  predicate PolicyDone(l: Log, s: Spec, name: string) {
    Applicable(name, s.platform.monitoring) ==>
      HasBody(PolicyKey(s.platform.namespace, name),
              Policy(name, s.platform.namespace, s.rhdh.namespace, s.postgres.namespace).body) in Facts(l)
  }

  predicate PoliciesDone(l: Log, s: Spec) {
    && Exists(NamespaceKey(s.platform.namespace)) in Facts(l)
    && PolicyDone(l, s, ALLOW_RHDH)
    && PolicyDone(l, s, ALLOW_INTRA)
    && PolicyDone(l, s, ALLOW_MONITORING)
    && PolicyDone(l, s, ALLOW_LOGIC)
  }

  predicate GitOpsDone(l: Log, s: Spec) {
    if s.argoCDEnabled && s.tektonEnabled then
      && HasBody(AppProjectKey(s.argoCDNamespace), APP_PROJECT.body) in Facts(l)
      && Exists(CRDKey(TASK_CRD)) in Facts(l)
      && Exists(CRDKey(PIPELINE_CRD)) in Facts(l)
      && Exists(PipelineKey(s.argoCDNamespace)) in Facts(l)
    else
      && SingleGone(l, AppProject, s.argoCDNamespace)
      && SingleGone(l, Pipeline, s.argoCDNamespace)
      && TasksTried(l, s.argoCDNamespace)
  }

  /** The namespace, or the objects of the kind in it, could not be had. */
  predicate Unseen(l: Log, kind: Kind, ns: string) {
    || IsGone(NamespaceKey(ns)) in Facts(l)
    || CallFailed(LookUp(NamespaceKey(ns))) in Facts(l)
    || CallFailed(Listing(kind, ns)) in Facts(l)
  }

  /** The labelled objects were listed, and if there was just one, then it is gone. */
  predicate SingleGone(l: Log, kind: Kind, ns: string) {
    Unseen(l, kind, ns) ||
    exists f :: f in Facts(l) && f.Answered? && f.kind == kind && f.ns == ns &&
                forall k :: k in f.items && f.items == {k} ==> IsGone(k) in Facts(l)
  }

  /** The labelled Tasks were listed, and every one is gone or could not be deleted. */
  predicate TasksTried(l: Log, ns: string) {
    Unseen(l, Task, ns) ||
    exists f :: f in Facts(l) && f.Answered? && f.kind == Task && f.ns == ns &&
                forall k :: k in f.items ==> IsGone(k) in Facts(l) || CallFailed(Deletion(k)) in Facts(l)
  }

  /** The stages before stage `n` have done their work in this pass. */
  predicate DoneBefore(l: Log, s: Spec, n: nat) {
    && (n > 1 ==> LogicDone(l, s))
    && (n > 2 ==> KnativeDone(l, s))
    && (n > 3 ==> RHDHDone(l, s))
    && (n > 4 ==> PoliciesDone(l, s))
    && (n > 5 ==> GitOpsDone(l, s))
  }

  /** Everything a log shows, once shown, stays shown for the rest of the pass; so does the
      evidence of the stages. */
  ghost predicate Follows(l: Log, l': Log) {
    && PassOf(l') == PassOf(l)
    && Facts(l) <= Facts(l')
    && (forall s, n :: DoneBefore(l, s, n) ==> DoneBefore(l', s, n))
  }

  lemma PassGoesOn(l: Log, l': Log)
    requires Follows(l, l')
    ensures PassOf(l') == PassOf(l) && Facts(l) <= Facts(l')
  {
  }

  lemma FollowsTwice(a: Log, b: Log, c: Log)
    requires Follows(a, b) && Follows(b, c)
    ensures Follows(a, c) && PassOf(c) == PassOf(b) == PassOf(a)
  {
    hide PassOf, Facts, DoneBefore;
  }

  /** The stage that makes an object of this key; 0 where several stages do. */
  function StageOf(k: Key): nat {
    match k.kind
    case SonataFlowClusterPlatform | SonataFlowPlatform => 1
    case KnativeEventing | KnativeServing => 2
    case Secret | ConfigMap | Backstage => 3
    case NetworkPolicy => 4
    case AppProject | Task | Pipeline => 5
    case Subscription =>
      if k == SubscriptionKey(LOGIC) then 1
      else if k == SubscriptionKey(SERVERLESS) then 2
      else if k == SubscriptionKey(RHDH) then 3
      else 0
    case _ => 0
  }

  /** The resource asks for what stage `n` makes. */
  predicate On(s: Spec, n: nat) {
    && (n == 1 ==> s.serverlessLogic)
    && (n == 2 ==> s.serverless)
    && (n == 3 ==> s.rhdh.installOperator)
    && (n == 5 ==> s.argoCDEnabled && s.tektonEnabled)
  }

  /** A pass that did not start from a resource being deleted has finished the stages before `n`. */
  predicate Reached(l: Log, n: nat) {
    match PassOf(l)
    case NoPass => false
    case InPass(start, now) => !start.deleting && DoneBefore(l, now.spec, n)
  }

  /** The pass has reached stage `n`, working with this specification. */
  predicate Entering(l: Log, n: nat, s: Spec) {
    Reached(l, n) && PassOf(l).now.spec == s
  }

  /** It has reached a stage that is switched on. */
  predicate MayCreate(l: Log, n: nat) {
    Reached(l, n) && On(PassOf(l).now.spec, n)
  }

  predicate Creating(l: Log, n: nat, s: Spec) {
    MayCreate(l, n) && PassOf(l).now.spec == s
  }

  /** The stage that installs the operator. */
  function StageOfComponent(c: Component): nat {
    StageOf(SubscriptionKey(c))
  }

  /** An installer runs outside a pass, too: in the handler of the Subscription watch. */
  predicate MayInstall(l: Log, c: Component) {
    PassOf(l).NoPass? || MayCreate(l, StageOfComponent(c))
  }

  /** A pass that cleans up after a resource being deleted. */
  predicate Removing(l: Log, s: Spec) {
    && PassOf(l).InPass?
    && PassOf(l).start.deleting
    && PassOf(l).start.spec == s
    && PassOf(l).now.spec == s
  }

  /** A pass that removes the GitOps resources because they are switched off. */
  predicate Tidying(l: Log, ns: string) {
    && PassOf(l).InPass?
    && !PassOf(l).start.deleting
    && PassOf(l).now.spec.argoCDNamespace == ns
    && !(PassOf(l).now.spec.argoCDEnabled && PassOf(l).now.spec.tektonEnabled)
  }

  // ---------- Failures ----------

  /** The error is that of the last call, or NotFound if that call was not refused. */
  predicate Blames(l: Log, e: Error) {
    l.Snoc? && e == if l.event.Refused? then l.event.error else NotFound
  }

  /** The GitOps resources are switched off, and this is their namespace. */
  predicate TidiesIn(s: Spec, ns: string) {
    ns == s.argoCDNamespace && !(s.argoCDEnabled && s.tektonEnabled)
  }

  /** The failures that do not keep a pass from succeeding.  While it installs: of labelling a namespace;
      of looking for a namespace of Knative, or for that of GitOps resources to be removed; of making the
      namespace of an operator whose installer then gives up; of looking for an operator group, a
      ConfigMap or a Task; of creating a Knative resource; of listing GitOps resources to be removed, and
      of deleting Tasks.  While it cleans up: of looking for the RHDH namespace and of labelling it. */
  predicate Tolerable(p: Pass, c: Call) {
    match p
    case NoPass => true
    case InPass(start, now) =>
      if start.deleting then
        match c
        case LookUp(k) => k == NamespaceKey(start.spec.rhdh.namespace)
        case Change(k) => k == NamespaceKey(start.spec.rhdh.namespace)
        case _ => false
      else
        match c
        case LookUp(k) =>
          || k.kind in {OperatorGroup, ConfigMap, Task}
          || k in {NamespaceKey(SERVERLESS.namespace), NamespaceKey(EVENTING), NamespaceKey(SERVING)}
          || (k.kind == Namespace && TidiesIn(now.spec, k.name))
        case Listing(kind, ns) => kind in {AppProject, Pipeline, Task} && TidiesIn(now.spec, ns)
        case Creation(k) =>
          k.kind in {KnativeEventing, KnativeServing} || k in {NamespaceKey(LOGIC.namespace), NamespaceKey(RHDH.namespace)}
        case Change(k) => k.kind == Namespace
        case Deletion(k) => k.kind == Task && TidiesIn(now.spec, k.ns)
  }

  /** All calls that failed in this pass are of this sort. */
  predicate Untroubled(l: Log) {
    forall f :: f in Facts(l) && f.CallFailed? ==> Tolerable(PassOf(l), f.call)
  }

  /** No call has failed in this pass. */
  predicate Faultless(l: Log) {
    forall f :: f in Facts(l) ==> !f.CallFailed?
  }

  /** The pass, if there is one, is not one of a deletion, and nothing has gone wrong that matters. */
  predicate Unscathed(l: Log) {
    (PassOf(l).InPass? ==> !PassOf(l).start.deleting) && Untroubled(l)
  }

  lemma FaultlessIsUntroubled(l: Log)
    requires Faultless(l)
    ensures Untroubled(l)
  {
  }

  lemma StaysUntroubled(l: Log, e: Event)
    requires !Opens(e) && !e.Refetched?
    ensures Untroubled(l) && (e.Refused? ==> Tolerable(PassOf(l), e.call)) ==> Untroubled(Snoc(l, e))
    ensures Faultless(l) && !e.Refused? ==> Faultless(Snoc(l, e))
  {
    hide Tolerable;
  }

  /** What may fail while the pass installs. */
  lemma InstallingFailures(l: Log)
    requires PassOf(l).InPass? ==> !PassOf(l).start.deleting
    ensures forall k: Key :: k.kind in {OperatorGroup, ConfigMap, Task} ==> Tolerable(PassOf(l), LookUp(k))
    ensures forall k: Key :: k.kind in {KnativeEventing, KnativeServing} ==> Tolerable(PassOf(l), Creation(k))
    ensures forall k: Key :: k.kind == Namespace ==> Tolerable(PassOf(l), Change(k))
  {
  }

  /** What may fail while GitOps resources are removed. */
  lemma TidyingFailures(l: Log, kind: Kind, ns: string)
    requires Tidying(l, ns) && kind in {AppProject, Pipeline, Task}
    ensures var p := PassOf(l);
      && Tolerable(p, LookUp(NamespaceKey(ns))) && Tolerable(p, Change(NamespaceKey(ns))) && Tolerable(p, Listing(kind, ns))
      && (forall k: Key :: k.kind == Task && k.ns == ns ==> Tolerable(p, Deletion(k)))
      && MayAdopt(l, ns)
  {
  }

  /** One listed object is gone, or another number was listed. */
  lemma SingleIsGone(l: Log, kind: Kind, ns: string, items: seq<Key>)
    requires Answered(kind, ns, set k | k in items) in Facts(l) && IsEnumeration(items, set k | k in items)
    requires |items| == 1 ==> IsGone(items[0]) in Facts(l)
    ensures SingleGone(l, kind, ns)
  {
    hide Facts;
    var f := Answered(kind, ns, set k | k in items);
    if |items| == 1 {
      assert f.items == {items[0]};
    } else if |items| > 1 {
      assert items[0] in f.items && items[1] in f.items;
    }
    assert f in Facts(l) && f.Answered? && f.kind == kind && f.ns == ns;
  }

  lemma SingleGoneStays(l: Log, l': Log, kind: Kind, ns: string)
    requires SingleGone(l, kind, ns) && Facts(l) <= Facts(l')
    ensures SingleGone(l', kind, ns)
  {
    hide Facts;
  }

  // ---------- What the resource asks for ----------

  const FIXED_NAMESPACES := {EVENTING, SERVING, SERVERLESS.namespace, LOGIC.namespace, RHDH.namespace}

  /** The namespace of an operator is made when the operator may be installed, those of Knative in the
      second stage, and that of the workflows in the first. */
  predicate MayMake(l: Log, ns: string) {
    || (exists c :: c in COMPONENTS && ns == c.namespace && MayInstall(l, c))
    || (ns in {EVENTING, SERVING} && MayCreate(l, 2))
    || (MayCreate(l, 1) && ns == PassOf(l).now.spec.platform.namespace)
  }

  /** A namespace the operator may put its label on. */
  predicate MayAdopt(l: Log, ns: string) {
    || ns in FIXED_NAMESPACES
    || (PassOf(l).InPass? &&
        ns in {PassOf(l).now.spec.platform.namespace, PassOf(l).now.spec.rhdh.namespace, PassOf(l).now.spec.argoCDNamespace})
  }

  /** The service stores its data in the configured database. */
  predicate StoresIn(p: Persistence, db: PostgresConfig) {
    && p.secretName == db.secretName && p.userKey == db.userKey && p.passwordKey == db.passwordKey
    && p.serviceName == db.name && p.serviceNamespace == db.namespace && p.database == db.database
  }

  /** Both services of the platform use the database, and a broker is set unless none is named. */
  predicate ProperPlatform(p: PlatformSpec, s: Spec) {
    && p.limits == s.platform.limits && p.requests == s.platform.requests && p.monitoring == s.platform.monitoring
    && StoresIn(p.dataIndex, s.postgres) && StoresIn(p.jobService, s.postgres)
    && (if s.platform.broker.name == "" && s.platform.broker.namespace == "" then p.broker.None?
        else p.broker == Some(s.platform.broker))
  }

  /** One file, rendered from the template of the ConfigMap's name.  The flags of Argo CD and Tekton are
      those of each other: the caller exchanges them. */
  predicate ProperConfigMap(name: string, data: map<string, Text>, s: Spec) {
    && name in CONFIG_MAPS && data.Keys == {CONFIG_MAPS[name]}
    && var text := data[CONFIG_MAPS[name]];
      && text.Rendered? && text.template == name
      && text.workflowNamespace == s.platform.namespace && text.rhdh == s.rhdh
      && text.argoCD == s.tektonEnabled && text.tekton == s.argoCDEnabled
  }

  /** The pass has read the cluster's Ingress, and this is its domain when it was last seen. */
  predicate DomainSeen(l: Log, domain: string) {
    && Exists(CLUSTER_INGRESS_KEY) in Facts(l)
    && LastSight(l, CLUSTER_INGRESS_KEY).Some?
    && LastSight(l, CLUSTER_INGRESS_KEY).value.body == IngressBody(domain)
  }

  /** Every file of the ConfigMap is rendered for the domain of the cluster. */
  predicate RenderedForCluster(l: Log, data: map<string, Text>) {
    forall f :: f in data ==> data[f].Rendered? && DomainSeen(l, data[f].clusterDomain)
  }

  /** The Backstage mounts all ConfigMaps, and the dynamic plugins apart. */
  predicate ProperBackstage(body: Body) {
    && body.BackstageBody?
    && body.dynamicPlugins == DYNAMIC_PLUGINS && body.secrets == ["backstage-backend-auth-secret"] && body.replicas == 1
    && (forall n :: n in body.configMaps ==> n in CONFIG_MAPS && n != DYNAMIC_PLUGINS)
    && (forall n :: n in CONFIG_MAPS && n != DYNAMIC_PLUGINS ==> n in body.configMaps)
  }

  predicate ProperPolicy(s: Spec, k: Key, body: Body) {
    && k.ns == s.platform.namespace && k.name in NETWORK_POLICIES && Applicable(k.name, s.platform.monitoring)
    && body == Policy(k.name, s.platform.namespace, s.rhdh.namespace, s.postgres.namespace).body
  }

  /** The object of this key is one the specification asks for. */
  predicate Proper(s: Spec, k: Key, obj: Obj) {
    match k.kind
    case SonataFlowClusterPlatform =>
      k.name == "cluster-platform" && obj.body == ClusterPlatformBody("sonataflow-platform", s.platform.namespace)
    case SonataFlowPlatform =>
      && k.ns == s.platform.namespace && k.name == "sonataflow-platform"
      && obj.body.PlatformBody? && ProperPlatform(obj.body.platformSpec, s)
    case KnativeEventing => k.ns == EVENTING && k.name == EVENTING
    case KnativeServing => k.ns == SERVING && k.name == SERVING
    case Secret => k.ns == s.rhdh.namespace && k.name == REGISTRY_SECRET && obj.body == NPMRC.body
    case ConfigMap =>
      k.ns == s.rhdh.namespace && obj.body.DataBody? && ProperConfigMap(k.name, obj.body.data, s)
    case Backstage => k.ns == s.rhdh.namespace && k.name == s.rhdh.name && ProperBackstage(obj.body)
    case NetworkPolicy => ProperPolicy(s, k, obj.body)
    case AppProject =>
      k == AppProjectKey(s.argoCDNamespace) && s.argoCDEnabled && s.tektonEnabled && obj.body == APP_PROJECT.body
    case Task =>
      && k.ns == s.argoCDNamespace && s.argoCDEnabled && s.tektonEnabled
      && k.name in TASKS && obj.body == Manifest(k.name)
    case Pipeline =>
      && k == PipelineKey(s.argoCDNamespace) && s.argoCDEnabled && s.tektonEnabled
      && obj.body == PIPELINE.body
    case _ => false
  }

  // ---------- The judgement ----------

  predicate MayDelete(p: Pass, k: Key) {
    match p
    case NoPass => false
    case InPass(start, now) =>
      match k.kind
      case Namespace => start.deleting && (k.name in FIXED_NAMESPACES || k.name == now.spec.rhdh.namespace)
      case SonataFlowPlatform => start.deleting && k.ns == now.spec.platform.namespace
      case SonataFlowClusterPlatform => start.deleting
      case AppProject | Task | Pipeline =>
        !start.deleting && k.ns == now.spec.argoCDNamespace && !(now.spec.argoCDEnabled && now.spec.tektonEnabled)
      case _ => false
  }

  predicate Settled(l: Log, k: Key) {
    IsGone(k) in Facts(l) || IsForeign(k) in Facts(l)
  }

  /** Every labelled object of the kind that a list showed is gone. */
  ghost predicate Cleared(l: Log, kind: Kind, ns: string) {
    exists items :: Answered(kind, ns, items) in Facts(l) && AllGone(l, items)
  }

  predicate AllGone(l: Log, items: set<Key>) {
    forall k :: k in items ==> IsGone(k) in Facts(l)
  }

  lemma ClearedStays(l: Log, l': Log, kind: Kind, ns: string)
    requires Cleared(l, kind, ns) && Facts(l) <= Facts(l')
    ensures Cleared(l', kind, ns)
  {
    hide Facts;
  }

  /** What the log shows when the operator takes its finalizer off. */
  ghost predicate CleanedUp(l: Log, s: Spec) {
    && Settled(l, NamespaceKey(EVENTING))
    && Settled(l, NamespaceKey(SERVING))
    && Settled(l, NamespaceKey(SERVERLESS.namespace))
    && Cleared(l, SonataFlowPlatform, s.platform.namespace)
    && Cleared(l, SonataFlowClusterPlatform, "")
    && Settled(l, NamespaceKey(LOGIC.namespace))
    && (Settled(l, NamespaceKey(RHDH.namespace)) || Answered(Backstage, s.rhdh.namespace, {}) in Facts(l))
  }

  // ---------- The order of a clean-up ----------

  /** The three namespaces of the Knative part are gone or foreign. */
  predicate KnativeCleared(l: Log) {
    Settled(l, NamespaceKey(EVENTING)) && Settled(l, NamespaceKey(SERVING)) && Settled(l, NamespaceKey(SERVERLESS.namespace))
  }

  ghost predicate PlatformsCleared(l: Log, s: Spec) {
    Cleared(l, SonataFlowPlatform, s.platform.namespace) && Cleared(l, SonataFlowClusterPlatform, "")
  }

  /** The RHDH namespace held this many labelled Backstages. */
  ghost predicate BackstagesCounted(l: Log, s: Spec, n: nat) {
    exists items :: Answered(Backstage, s.rhdh.namespace, items) in Facts(l) && |items| == n
  }

  /** The RHDH namespace is gone or foreign, or could not be read, or it holds several Backstages. */
  ghost predicate HubCleared(l: Log, s: Spec) {
    || Settled(l, NamespaceKey(s.rhdh.namespace))
    || CallFailed(LookUp(NamespaceKey(s.rhdh.namespace))) in Facts(l)
    || (exists n :: n > 1 && BackstagesCounted(l, s, n))
  }

  /** A clean-up deletes nothing before the earlier parts of it are complete. */
  ghost predicate DeletedInOrder(l: Log, k: Key) {
    PassOf(l).InPass? && PassOf(l).start.deleting ==>
      var s := PassOf(l).start.spec;
      match k.kind
      case Namespace =>
        if k.name == EVENTING then true
        else if k.name == SERVING then Settled(l, NamespaceKey(EVENTING))
        else if k.name == SERVERLESS.namespace then Settled(l, NamespaceKey(EVENTING)) && Settled(l, NamespaceKey(SERVING))
        else if k.name == LOGIC.namespace then KnativeCleared(l) && PlatformsCleared(l, s)
        else
          && KnativeCleared(l) && PlatformsCleared(l, s) && Settled(l, NamespaceKey(LOGIC.namespace))
          && ((k.name == s.rhdh.namespace && BackstagesCounted(l, s, 1)) || (k.name == RHDH.namespace && HubCleared(l, s)))
      case SonataFlowPlatform => KnativeCleared(l)
      case SonataFlowClusterPlatform => KnativeCleared(l)
      case _ => true
  }

  lemma OrderStays(l: Log, l': Log, k: Key)
    requires PassOf(l') == PassOf(l) && Facts(l) <= Facts(l') && DeletedInOrder(l, k)
    ensures DeletedInOrder(l', k)
  {
    hide Facts, PassOf;
    forall kind, ns | Cleared(l, kind, ns) ensures Cleared(l', kind, ns) {
      ClearedStays(l, l', kind, ns);
    }
    hide Cleared;
    assert forall s, n :: BackstagesCounted(l, s, n) ==> BackstagesCounted(l', s, n);
    hide BackstagesCounted;
  }

  /** The plan is the one the Subscription asked for when it was last seen, at the pinned version. */
  predicate RequestedBy(l: Log, plan: Key, c: Component) {
    var sub := LastSight(l, SubscriptionKey(c));
    && plan.ns == c.namespace
    && sub.Some?
    && sub.value.body.SubscriptionBody?
    && sub.value.body.status == Resolved(plan.name, c.csv)
  }

  /** What may be created after this log. */
  ghost predicate MayMakeObject(l: Log, k: Key, obj: Obj) {
    match k.kind
    case Namespace => MayMake(l, k.name)
    case OperatorGroup => exists c :: c in COMPONENTS && k == GroupKey(c) && MayInstall(l, c)
    case Subscription =>
      exists c :: c in COMPONENTS && k == SubscriptionKey(c) && obj == CreateSubscriptionObject(c) && MayInstall(l, c)
    case ConfigMap =>
      MayCreate(l, 3) && Proper(PassOf(l).now.spec, k, obj) && RenderedForCluster(l, obj.body.data)
    case _ => MayCreate(l, StageOf(k)) && Proper(PassOf(l).now.spec, k, obj)
  }

  /** The only changes the operator makes to an object that exists. */
  ghost predicate MayUpdate(l: Log, k: Key, was: Obj, obj: Obj) {
    match k.kind
    case Namespace => !Labelled(was.labels) && obj == Adopted(was) && MayAdopt(l, k.name)
    case Subscription =>
      && was.body.SubscriptionBody?
      && (exists c :: c in COMPONENTS && k == SubscriptionKey(c) && obj == Repaired(c, was) && MayInstall(l, c))
    case InstallPlan =>
      && was.body.InstallPlanBody? && !was.body.approved
      && obj == Approved(was)
      && (exists c :: c in COMPONENTS && RequestedBy(l, k, c) && MayInstall(l, c))
    case NetworkPolicy => obj.labels == was.labels && MayCreate(l, 4) && ProperPolicy(PassOf(l).now.spec, k, obj.body)
    case AppProject => obj.labels == was.labels && MayCreate(l, 5) && Proper(PassOf(l).now.spec, k, obj)
    case _ => false
  }

  /** May this entry follow this log? */
  ghost predicate Sound(l: Log, e: Event) {
    match e
    case Created(k, obj) =>
      (k.kind == OperatorGroup || Labelled(obj.labels)) && MayMakeObject(l, k, obj)
    case Updated(k, was, obj) => MayUpdate(l, k, was, obj)
    case Deleted(k) =>
      SeenLabelled(l, k) && MayDelete(PassOf(l), k) && DeletedInOrder(l, k)
    case Attempted(phase) => phase == Completed ==> Reached(l, 6) && Untroubled(l)
    case CRWritten(seen, written) =>
      && PassOf(l).InPass?
      && written == seen.(finalizers := written.finalizers)
      && written.finalizers - {FINALIZER} == seen.finalizers - {FINALIZER}
      && (FINALIZER in seen.finalizers && FINALIZER !in written.finalizers ==>
            PassOf(l).start.deleting && CleanedUp(l, PassOf(l).start.spec) && Untroubled(l))
    case _ => true
  }

  ghost predicate Clean(l: Log) {
    match l
    case Start => true
    case Snoc(prev, e) => Clean(prev) && Sound(prev, e)
  }

  /** A proper object may be created at any later time of the pass. */
  lemma ProperIsSound(l: Log, l': Log, k: Key, obj: Obj)
    requires Follows(l, l') && MayCreate(l, StageOf(k)) && k.kind !in {Namespace, OperatorGroup, Subscription, ConfigMap}
    requires Labelled(obj.labels) && Proper(PassOf(l).now.spec, k, obj)
    ensures Sound(l', Created(k, obj))
  {
    hide Proper, DoneBefore, StageOf;
  }

  /** So may a ConfigMap, as long as the Ingress is not seen anew. */
  lemma ConfigMapIsSound(l: Log, l': Log, k: Key, obj: Obj)
    requires Follows(l, l') && LastSight(l', CLUSTER_INGRESS_KEY) == LastSight(l, CLUSTER_INGRESS_KEY)
    requires MayCreate(l, 3) && k.kind == ConfigMap && Labelled(obj.labels) && Proper(PassOf(l).now.spec, k, obj)
    requires RenderedForCluster(l, obj.body.data)
    ensures Sound(l', Created(k, obj))
  {
    hide DoneBefore, LastSight, ProperConfigMap;
  }

  /** An approval that was justified when the plan was read still is. */
  lemma ApprovalIsSound(l: Log, l': Log, k: Key, was: Obj, c: Component)
    requires Follows(l, l') && MayInstall(l, c) && c in COMPONENTS && RequestedBy(l, k, c)
    requires LastSight(l', SubscriptionKey(c)) == LastSight(l, SubscriptionKey(c))
    requires k.kind == InstallPlan && was.body.InstallPlanBody? && !was.body.approved
    ensures Sound(l', Updated(k, was, Approved(was)))
  {
    hide DoneBefore, COMPONENTS;
  }

  /** A pass that has reached a stage that is switched on. */
  lemma StageBegins(l: Log, n: nat, s: Spec, c: Component)
    requires Entering(l, n, s) && On(s, n)
    ensures MayCreate(l, n) && PassOf(l).InPass? && PassOf(l).now.spec == s
    ensures StageOfComponent(c) == n ==> MayInstall(l, c)
  {
    hide DoneBefore, StageOfComponent;
  }

  /** It may go on. */
  lemma StageGoesOn(l: Log, l': Log, n: nat)
    requires Follows(l, l') && MayCreate(l, n)
    ensures MayCreate(l', n) && PassOf(l') == PassOf(l) && PassOf(l).InPass?
  {
    hide DoneBefore;
  }

  /** So may an installer go on. */
  lemma InstallingGoesOn(l: Log, l': Log, c: Component)
    requires Follows(l, l') && MayInstall(l, c)
    ensures MayInstall(l', c)
  {
    hide DoneBefore;
  }

  /** So is the repair of a Subscription. */
  lemma SubscriptionRepairIsSound(l: Log, l': Log, was: Obj, c: Component)
    requires Follows(l, l') && MayInstall(l, c) && c in COMPONENTS && was.body.SubscriptionBody?
    ensures Sound(l', Updated(SubscriptionKey(c), was, Repaired(c, was)))
  {
    hide DoneBefore, COMPONENTS;
  }

  /** A deletion that was justified when the list was made is so while it is worked off. */
  lemma DeletionIsSound(l: Log, l': Log, k: Key)
    requires Follows(l, l') && LastSight(l', k) == LastSight(l, k)
    requires SeenLabelled(l, k) && MayDelete(PassOf(l), k) && DeletedInOrder(l, k)
    ensures Sound(l', Deleted(k))
  {
    hide DoneBefore, MayDelete, DeletedInOrder;
    OrderStays(l, l', k);
  }

  /** So may the repair of a policy. */
  lemma PolicyRepairIsSound(l: Log, l': Log, k: Key, was: Obj, wanted: Obj)
    requires Follows(l, l') && MayCreate(l, 4) && k.kind == NetworkPolicy
    requires ProperPolicy(PassOf(l).now.spec, k, wanted.body)
    ensures Sound(l', Updated(k, was, was.(body := wanted.body)))
  {
    hide ProperPolicy, DoneBefore;
  }

  /** So may the repair of an AppProject. */
  lemma RepairIsSound(l: Log, l': Log, k: Key, was: Obj)
    requires Follows(l, l') && MayCreate(l, 5) && k.kind == AppProject
    requires Proper(PassOf(l).now.spec, k, was.(body := APP_PROJECT.body))
    ensures Sound(l', Updated(k, was, was.(body := APP_PROJECT.body)))
  {
    hide Proper, DoneBefore;
  }
}
