/** What a pass does not guarantee, and when exactly it does. */
module Limits {
  import opened Kubernetes
  import opened Desired
  import opened ApiServer
  import opened Solitude
  import opened Goals
  import opened Idleness
  import Convergence
  import BulkRemoval
  import Fixpoint
  import Quiet
  import Kube = KubeOperationsSpec
  import KnativeSpec
  import HubSpec = DeveloperHubSpec
  import GitOpsSpec
  import ReconcileSpec

  // ---------- Knative resources ----------

  /** After this namespace was made sure of, the resource is looked up, and created one call later. */
  function CreationTime(o: Oracle, w: World, ns: string): nat {
    KnativeSpec.EnsureKnativeNamespace(o, w, ns).w.clock + 1
  }

  lemma NamespaceIsEnsured(o: Oracle, w: World, ns: string)
    requires Alone(o)
    ensures var r := KnativeSpec.EnsureKnativeNamespace(o, w, ns);
      SameExcept(w.store, r.w.store, {NamespaceKey(ns)}) && (r.Ok? ==> NamespaceKey(ns) in r.w.store)
  {
    hide Get, Update, Create;
    var k := NamespaceKey(ns);
    LoneGet(o, w, k);
    var r := Get(o, w, k);
    if r.Ok? {
      LoneUpdate(o, r.w, k, r.value, Adopted(r.value));
    } else {
      LoneCreate(o, r.w, k, NEW_NAMESPACE);
    }
  }

  /** A failing look-up does not keep the handler from making the namespace: it succeeds if and only if
      the look-up does, or the creation. */
  lemma NamespaceDespite(o: Oracle, w: World, ns: string)
    requires Alone(o)
    ensures var r := KnativeSpec.EnsureKnativeNamespace(o, w, ns); var k := NamespaceKey(ns);
      r.Ok? <==> (o(w.clock).fault.Healthy? && k in w.store) || (k !in w.store && o(w.clock + 1).fault.Healthy?)
  {
    hide Get, Update, Create, Alone;
    LoneGet(o, w, NamespaceKey(ns));
    LoneCreate(o, Get(o, w, NamespaceKey(ns)).w, NamespaceKey(ns), NEW_NAMESPACE);
    FailedLookUp(o, w, NamespaceKey(ns));
  }

  lemma FailedLookUp(o: Oracle, w: World, k: Key)
    ensures Get(o, w, k).Ok? ==> o(w.clock).fault.Healthy?
  {
  }

  /** Nor does it keep an installer from making the operator group. */
  lemma GroupDespite(o: Oracle, w: World, c: Component)
    requires Alone(o)
    ensures var r := Kube.GetOperatorGroup(o, w, c); var k := GroupKey(c);
      r.Ok? <==>
        || (o(w.clock).fault.Healthy? && k in w.store)
        || (k !in w.store && NamespaceKey(c.namespace) in w.store && o(w.clock + 1).fault.Healthy?)
  {
    hide Get, Create, Alone;
    LoneGet(o, w, GroupKey(c));
    LoneCreate(o, Get(o, w, GroupKey(c)).w, GroupKey(c), NEW_GROUP);
    FailedLookUp(o, w, GroupKey(c));
  }

  lemma CreationIsExact(o: Oracle, w: World, k: Key, obj: Obj)
    requires Alone(o) && Fits(k.kind, obj.body) && HasNamespace(w.store, k)
    ensures var t := Create(o, w, k, obj).w.store;
      && SameExcept(w.store, t, {k})
      && (k in t <==> k in w.store || !o(w.clock).fault.Rejected?)
  {
    hide Respond;
    RespondKeeps(o(w.clock).fault, Tick(o, w));
    RespondKeeps(o(w.clock).fault, Note(Tick(o, w).(store := Tick(o, w).store[k := obj]), Created(k, obj)));
    assert o(w.clock).others == [];
  }

  /** When the handler succeeds, the resource is there if and only if it was, or the one call that
      creates it is not rejected. */
  lemma KnativeResourceIsExact(o: Oracle, w: World, ns: string, k: Key)
    requires Alone(o) && k.kind in {KnativeEventing, KnativeServing} && k.ns == ns
    ensures var r := KnativeSpec.HandleKnativeResource(o, w, ns, k);
      r.Ok? ==>
        && SameExcept(w.store, r.w.store, {NamespaceKey(ns), k})
        && (k in r.w.store <==> k in w.store || !o(CreationTime(o, w, ns)).fault.Rejected?)
  {
    hide KnativeSpec.EnsureKnativeNamespace, Get, Create, SameExcept, Alone;
    NamespaceIsEnsured(o, w, ns);
    var e := KnativeSpec.EnsureKnativeNamespace(o, w, ns);
    LoneGet(o, e.w, k);
    if e.Ok? {
      var w2 := Get(o, e.w, k).w;
      CreationIsExact(o, w2, k, KNATIVE_CR);
      NothingChanges(e.w.store, {k});
      FrameTwice(w.store, e.w.store, e.w.store, {NamespaceKey(ns)}, {k}, k);
      FrameTwice(w.store, e.w.store, Create(o, w2, k, KNATIVE_CR).w.store, {NamespaceKey(ns)}, {k}, k);
      assert {NamespaceKey(ns)} + {k} == {NamespaceKey(ns), k};
    }
  }

  lemma FrameTwice(r: Store, s: Store, t: Store, a: set<Key>, b: set<Key>, k: Key)
    requires SameExcept(r, s, a) && SameExcept(s, t, b) && k !in a
    ensures SameExcept(r, t, a + b) && (k in s <==> k in r)
  {
  }

  /** When the stage succeeds, each of the two resources is there if and only if it was, or the one
      call that creates it is not rejected. */
  lemma KnativeIsExact(o: Oracle, w: World)
    requires Alone(o)
    ensures var w1 := Kube.CheckCRDExists(o, w, EVENTING_CRD).w;
      var w2 := KnativeSpec.HandleKnativeResource(o, w1, EVENTING, EVENTING_KEY).w;
      var w3 := Kube.CheckCRDExists(o, w2, SERVING_CRD).w;
      var r := KnativeSpec.HandleKnativeCR(o, w);
      r.Ok? ==>
        && SameExcept(w.store, r.w.store, {NamespaceKey(EVENTING), EVENTING_KEY, NamespaceKey(SERVING), SERVING_KEY})
        && (EVENTING_KEY in r.w.store <==> EVENTING_KEY in w.store || !o(CreationTime(o, w1, EVENTING)).fault.Rejected?)
        && (SERVING_KEY in r.w.store <==> SERVING_KEY in w.store || !o(CreationTime(o, w3, SERVING)).fault.Rejected?)
  {
    KnativeKinds();
    hide Kube.CheckCRDExists, KnativeSpec.HandleKnativeResource, CreationTime, EVENTING_CRD, SERVING_CRD;
    hide EVENTING, SERVING, EVENTING_KEY, SERVING_KEY;
    LoneCRD(o, w, EVENTING_CRD);
    var w1 := Kube.CheckCRDExists(o, w, EVENTING_CRD).w;
    KnativeResourceIsExact(o, w1, EVENTING, EVENTING_KEY);
    var w2 := KnativeSpec.HandleKnativeResource(o, w1, EVENTING, EVENTING_KEY).w;
    LoneCRD(o, w2, SERVING_CRD);
    KnativeResourceIsExact(o, Kube.CheckCRDExists(o, w2, SERVING_CRD).w, SERVING, SERVING_KEY);
  }

  lemma LoneCRD(o: Oracle, w: World, name: string)
    requires Alone(o)
    ensures Kube.CheckCRDExists(o, w, name).w.store == w.store
  {
    hide Get;
    LoneGet(o, w, CRDKey(name));
  }

  // ---------- ConfigMaps and Tasks ----------

  /** An existing object is kept; a missing one is made, unless it was passed over. */
  ghost predicate Provided(s: Store, t: Store, k: Key, obj: Obj, passed: bool) {
    if k in s then k in t && t[k] == s[k]
    else if passed then k !in t
    else k in t && t[k] == obj
  }

  /** The look-up fails, but not with NotFound. */
  predicate LookUpFails(o: Oracle, w: World, k: Key) {
    Get(o, w, k).Fail? && Get(o, w, k).error != NotFound
  }

  /** One turn of either loop. */
  function LookAndCreate(o: Oracle, w: World, k: Key, obj: Obj): Ret<()>
    requires Fits(k.kind, obj.body)
  {
    var r := Get(o, w, k);
    if r.Fail? && r.error == NotFound then Create(o, r.w, k, obj) else Ok(r.w, ())
  }

  lemma OneTurn(o: Oracle, w: World, k: Key, obj: Obj)
    requires Alone(o) && Fits(k.kind, obj.body)
    ensures var r := LookAndCreate(o, w, k, obj);
      r.Ok? ==> SameExcept(w.store, r.w.store, {k}) && Provided(w.store, r.w.store, k, obj, LookUpFails(o, w, k))
  {
    hide Get, Create;
    LoneGet(o, w, k);
    LoneCreate(o, Get(o, w, k).w, k, obj);
  }

  /** The first object is not touched by the rest of the loop, nor the others by its turn. */
  lemma TurnThenRest(s: Store, s1: Store, t: Store, k: Key, obj: Obj, passed: bool, rest: set<Key>)
    requires SameExcept(s, s1, {k}) && Provided(s, s1, k, obj, passed) && SameExcept(s1, t, rest) && k !in rest
    ensures SameExcept(s, t, {k} + rest) && Provided(s, t, k, obj, passed)
    ensures forall j, other, p :: j in rest && Provided(s1, t, j, other, p) ==> Provided(s, t, j, other, p)
  {
  }

  function ConfigMapObject(n: string, dataKeys: map<string, string>, i: HubSpec.Inputs): Obj
    requires n in dataKeys
  {
    NewConfigMap(dataKeys[n], HubSpec.TextOf(n, i))
  }

  /** The ConfigMaps the loop passes over. */
  function PassedConfigMaps(o: Oracle, w: World, names: seq<string>, dataKeys: map<string, string>, i: HubSpec.Inputs): set<string>
    requires forall n :: n in names ==> n in dataKeys
    decreases |names|
  {
    if names == [] then {}
    else
      var k := ConfigMapKey(i.rhdh.namespace, names[0]);
      (if LookUpFails(o, w, k) then {names[0]} else {}) +
      PassedConfigMaps(o, LookAndCreate(o, w, k, ConfigMapObject(names[0], dataKeys, i)).w, names[1..], dataKeys, i)
  }

  lemma {:induction false} PassedConfigMapsAreNames(o: Oracle, w: World, names: seq<string>, dataKeys: map<string, string>, i: HubSpec.Inputs)
    requires forall n :: n in names ==> n in dataKeys
    ensures forall n :: n in PassedConfigMaps(o, w, names, dataKeys, i) ==> n in names
    decreases |names|
  {
    hide LookAndCreate, LookUpFails;
    if names != [] {
      var k := ConfigMapKey(i.rhdh.namespace, names[0]);
      PassedConfigMapsAreNames(o, LookAndCreate(o, w, k, ConfigMapObject(names[0], dataKeys, i)).w, names[1..], dataKeys, i);
    }
  }

  function ConfigMapKeys(names: seq<string>, ns: string): set<Key> {
    set n | n in names :: ConfigMapKey(ns, n)
  }

  /** When the loop succeeds, it has kept the existing ConfigMaps and made the missing ones, except
      those whose look-up failed with anything but NotFound. */
  lemma {:induction false} ConfigMapsAreExact(o: Oracle, w: World, names: seq<string>, dataKeys: map<string, string>, i: HubSpec.Inputs)
    requires Alone(o) && (forall n :: n in names ==> n in dataKeys) && forall a, b :: 0 <= a < b < |names| ==> names[a] != names[b]
    ensures var r := HubSpec.EnsureConfigMaps(o, w, names, dataKeys, i); var ns := i.rhdh.namespace;
      r.Ok? ==>
        && SameExcept(w.store, r.w.store, ConfigMapKeys(names, ns))
        && (forall n :: n in names ==>
              Provided(w.store, r.w.store, ConfigMapKey(ns, n), ConfigMapObject(n, dataKeys, i),
                       n in PassedConfigMaps(o, w, names, dataKeys, i)))
    decreases |names|
  {
    hide LookAndCreate, LookUpFails, ConfigMapObject, SameExcept, Provided;
    if names == [] {
      NothingChanges(w.store, ConfigMapKeys(names, i.rhdh.namespace));
    } else {
      var n, rest := names[0], names[1..];
      var k, obj := ConfigMapKey(i.rhdh.namespace, n), ConfigMapObject(n, dataKeys, i);
      ConfigMapTurn(o, w, n, dataKeys, i);
      OneTurn(o, w, k, obj);
      var r := LookAndCreate(o, w, k, obj);
      if HubSpec.EnsureConfigMaps(o, w, names, dataKeys, i).Ok? {
        ConfigMapsAreExact(o, r.w, rest, dataKeys, i);
        PassedConfigMapsAreNames(o, r.w, rest, dataKeys, i);
        assert n !in rest;
        var t := HubSpec.EnsureConfigMaps(o, r.w, rest, dataKeys, i).w.store;
        TurnThenRest(w.store, r.w.store, t, k, obj, LookUpFails(o, w, k), ConfigMapKeys(rest, i.rhdh.namespace));
        assert {k} + ConfigMapKeys(rest, i.rhdh.namespace) == ConfigMapKeys(names, i.rhdh.namespace);
        assert forall m :: m in names ==> m == n || ConfigMapKey(i.rhdh.namespace, m) in ConfigMapKeys(rest, i.rhdh.namespace);
      }
    }
  }

  lemma NothingChanges(s: Store, keys: set<Key>)
    ensures SameExcept(s, s, keys)
  {
  }

  lemma ConfigMapTurn(o: Oracle, w: World, n: string, dataKeys: map<string, string>, i: HubSpec.Inputs)
    requires n in dataKeys
    ensures Fits(ConfigMap, ConfigMapObject(n, dataKeys, i).body)
    ensures HubSpec.EnsureConfigMap(o, w, i.rhdh.namespace, n, dataKeys[n], HubSpec.TextOf(n, i))
         == LookAndCreate(o, w, ConfigMapKey(i.rhdh.namespace, n), ConfigMapObject(n, dataKeys, i))
  {
    hide Get, Create, HubSpec.TextOf;
  }

  /** The Tasks the loop passes over. */
  function PassedTasks(o: Oracle, w: World, names: seq<string>, ns: string): set<string>
    decreases |names|
  {
    if names == [] then {}
    else
      var k := TaskKey(ns, names[0]);
      (if LookUpFails(o, w, k) then {names[0]} else {}) +
      PassedTasks(o, LookAndCreate(o, w, k, NewTask(names[0])).w, names[1..], ns)
  }

  lemma {:induction false} PassedTasksAreNames(o: Oracle, w: World, names: seq<string>, ns: string)
    ensures forall n :: n in PassedTasks(o, w, names, ns) ==> n in names
    decreases |names|
  {
    hide LookAndCreate, LookUpFails;
    if names != [] {
      PassedTasksAreNames(o, LookAndCreate(o, w, TaskKey(ns, names[0]), NewTask(names[0])).w, names[1..], ns);
    }
  }

  function TaskKeys(names: seq<string>, ns: string): set<Key> {
    set n | n in names :: TaskKey(ns, n)
  }

  /** When the loop succeeds, it has kept the existing Tasks and made the missing ones, except those
      whose look-up failed with anything but NotFound. */
  lemma {:induction false} TasksAreExact(o: Oracle, w: World, names: seq<string>, ns: string)
    requires Alone(o) && forall a, b :: 0 <= a < b < |names| ==> names[a] != names[b]
    ensures var r := GitOpsSpec.EnsureTasks(o, w, names, ns);
      r.Ok? ==>
        && SameExcept(w.store, r.w.store, TaskKeys(names, ns))
        && (forall n :: n in names ==>
              Provided(w.store, r.w.store, TaskKey(ns, n), NewTask(n), n in PassedTasks(o, w, names, ns)))
    decreases |names|
  {
    hide LookAndCreate, LookUpFails, SameExcept, Provided;
    if names == [] {
      NothingChanges(w.store, TaskKeys(names, ns));
    } else {
      var n, rest := names[0], names[1..];
      var k := TaskKey(ns, n);
      OneTurn(o, w, k, NewTask(n));
      var r := LookAndCreate(o, w, k, NewTask(n));
      TaskTurn(o, w, names, ns);
      if GitOpsSpec.EnsureTasks(o, w, names, ns).Ok? {
        TasksAreExact(o, r.w, rest, ns);
        PassedTasksAreNames(o, r.w, rest, ns);
        assert n !in rest;
        var t := GitOpsSpec.EnsureTasks(o, r.w, rest, ns).w.store;
        TurnThenRest(w.store, r.w.store, t, k, NewTask(n), LookUpFails(o, w, k), TaskKeys(rest, ns));
        assert {k} + TaskKeys(rest, ns) == TaskKeys(names, ns);
        assert forall m :: m in names ==> m == n || TaskKey(ns, m) in TaskKeys(rest, ns);
      }
    }
  }

  lemma TaskTurn(o: Oracle, w: World, names: seq<string>, ns: string)
    requires names != []
    ensures var r := LookAndCreate(o, w, TaskKey(ns, names[0]), NewTask(names[0]));
      && GitOpsSpec.EnsureTasks(o, w, names, ns).Ok? == (r.Ok? && GitOpsSpec.EnsureTasks(o, r.w, names[1..], ns).Ok?)
      && (r.Ok? ==> GitOpsSpec.EnsureTasks(o, w, names, ns) == GitOpsSpec.EnsureTasks(o, r.w, names[1..], ns))
  {
    hide Get, Create;
  }

  /** So all Tasks are there if and only if the missing ones were not passed over; the same for the ConfigMaps. */
  lemma AllThereExactly(o: Oracle, w: World, names: seq<string>, ns: string, dataKeys: map<string, string>, i: HubSpec.Inputs)
    requires Alone(o) && (forall n :: n in names ==> n in dataKeys) && forall a, b :: 0 <= a < b < |names| ==> names[a] != names[b]
    ensures var r := GitOpsSpec.EnsureTasks(o, w, names, ns);
      r.Ok? ==>
        ((forall n :: n in names ==> TaskKey(ns, n) in r.w.store) <==>
         (forall n :: n in names && TaskKey(ns, n) !in w.store ==> n !in PassedTasks(o, w, names, ns)))
    ensures var r := HubSpec.EnsureConfigMaps(o, w, names, dataKeys, i); var ns := i.rhdh.namespace;
      r.Ok? ==>
        ((forall n :: n in names ==> ConfigMapKey(ns, n) in r.w.store) <==>
         (forall n :: n in names && ConfigMapKey(ns, n) !in w.store ==> n !in PassedConfigMaps(o, w, names, dataKeys, i)))
  {
    hide GitOpsSpec.EnsureTasks, HubSpec.EnsureConfigMaps, PassedTasks, PassedConfigMaps, ConfigMapObject, SameExcept;
    TasksAreExact(o, w, names, ns);
    ConfigMapsAreExact(o, w, names, dataKeys, i);
  }

  // ---------- AppProject and Pipeline ----------

  /** When GitOps resources are removed, and the namespace and the list could be read, and the list holds
      just one object: the stage goes on if and only if the deletion goes well, and tells its error
      otherwise; the object stays if and only if the deletion is rejected, and nothing else is touched. */
  lemma SingleRemovalIsExact(o: Oracle, w: World, w1: World, kind: Kind, ns: string, k: Key)
    requires Alone(o) && kind in {AppProject, Pipeline}
    requires Kube.CheckNamespaceExist(o, w, ns) == Ok(w1, ())
    requires o(w1.clock).fault.Healthy? && Matching(w1.store, kind, ns).Keys == {k}
    ensures var r, f := GitOpsSpec.RemoveSingle(o, w, kind, ns), o(w1.clock + 1).fault;
      && (r.Ok? <==> f.Healthy?)
      && (r.Fail? ==> r.error == f.error)
      && r.w.store == (if f.Rejected? then w1.store else w1.store - {k})
  {
    hide Kube.CheckNamespaceExist, List, Delete, Matching, Alone;
    LoneListReads(o, w1, kind, ns);
    ReadsKeep(w1, List(o, w1, kind, ns).w, 1);
    OneListed(o, w1, kind, ns, k);
    BulkRemoval.OneDeletion(o, List(o, w1, kind, ns).w, k);
  }

  lemma OneListed(o: Oracle, w: World, kind: Kind, ns: string, k: Key)
    requires Alone(o) && o(w.clock).fault.Healthy? && kind != Namespace && Matching(w.store, kind, ns).Keys == {k}
    ensures List(o, w, kind, ns).Ok? && List(o, w, kind, ns).value == [k] && k in w.store && k.kind == kind
  {
    assert o(w.clock).others == [];
    var items := List(o, w, kind, ns).value;
    OrderSize(items, Matching(w.store, kind, ns).Keys);
    assert |items| == 1 && items[0] in items;
    assert k in Matching(w.store, kind, ns).Keys;
  }

  // ---------- Completed without them ----------

  /** The kinds whose objects Completed does not certify. */
  predicate Uncertified(k: Key) {
    k.kind in {KnativeEventing, KnativeServing, ConfigMap, Task}
  }

  /** Goals that do not need them. */
  predicate Lasting(g: Goal) {
    match g
    case Marked(_) => true
    case WellSpecified(_) => true
    case InOrder(_) => true
    case HasBody(k, _) => !Uncertified(k)
    case NotSingle(kind, _) => kind in {AppProject, Pipeline}
    case NoneOf(kind, _) => true
    case _ => false
  }

  lemma LastingGoals(full: Store, s: Store, gone: set<Key>, g: Goal)
    requires (forall k :: k in gone ==> Uncertified(k)) && s == full - gone && Lasting(g) && Met(g, full)
    ensures Met(g, s)
  {
    if g.NotSingle? {
      MatchingStays(full, s, g.kind, g.ns);
    } else if g.NoneOf? {
      assert Matching(s, g.kind, g.ns).Keys <= Matching(full, g.kind, g.ns).Keys;
      assert Matching(s, g.kind, g.ns).Keys == {};
    }
  }

  lemma CertifiedKeys(spec: Spec)
    ensures !Uncertified(CLUSTER_PLATFORM_KEY) && !Uncertified(PlatformKey(spec.platform.namespace))
    ensures !Uncertified(CLUSTER_INGRESS_KEY) && !Uncertified(SecretKey(spec.rhdh.namespace))
    ensures !Uncertified(BackstageKey(spec.rhdh)) && !Uncertified(AppProjectKey(spec.argoCDNamespace))
    ensures !Uncertified(PipelineKey(spec.argoCDNamespace)) && !Uncertified(NamespaceKey(spec.argoCDNamespace))
    ensures forall name :: !Uncertified(CRDKey(name))
    ensures forall name :: !Uncertified(PolicyKey(spec.platform.namespace, name))
  {
  }

  /** What such a loss leaves. */
  ghost predicate Weathers(full: Store, s: Store) {
    && (forall g :: Lasting(g) && Met(g, full) ==> Met(g, s))
    && (forall k :: k in full && !Uncertified(k) ==> k in s)
    && (forall k :: k in s ==> k in full)
  }

  lemma InstallerWeathers(full: Store, s: Store, c: Component)
    requires Weathers(full, s) && Fixpoint.InstallerSettled(full, c)
    ensures Fixpoint.InstallerSettled(s, c)
  {
    hide Met, Uncertified;
  }

  lemma OperatorsWeather(full: Store, s: Store, spec: Spec)
    requires Weathers(full, s) && Fixpoint.LogicSettled(full, spec) && Fixpoint.KnativeSettled(full, spec) && Fixpoint.HubSettled(full, spec)
    ensures Fixpoint.LogicSettled(s, spec) && KnativeCertified(s, spec) && HubCertified(s, spec)
  {
    CertifiedKeys(spec);
    hide CONFIG_MAPS, Met, Uncertified, CLUSTER_PLATFORM_KEY, CLUSTER_PLATFORM_CRD, CLUSTER_INGRESS_KEY, EVENTING, SERVING;
    hide EVENTING_CRD, SERVING_CRD, BACKSTAGE_CRD, LOGIC, SERVERLESS, RHDH, REGISTRY_SECRET, Fixpoint.InstallerSettled;
    forall c | Fixpoint.InstallerSettled(full, c) ensures Fixpoint.InstallerSettled(s, c) {
      InstallerWeathers(full, s, c);
    }
  }

  lemma PoliciesWeather(full: Store, s: Store, spec: Spec, names: seq<string>)
    requires Weathers(full, s) && Fixpoint.PoliciesSettled(full, spec, names)
    ensures Fixpoint.PoliciesSettled(s, spec, names)
  {
    CertifiedKeys(spec);
    hide Met, Uncertified, Applicable, Convergence.WantedPolicy;
  }

  lemma GitOpsWeathers(full: Store, s: Store, spec: Spec)
    requires Weathers(full, s) && Fixpoint.GitOpsSettled(full, spec)
    ensures GitOpsCertified(s, spec)
  {
    CertifiedKeys(spec);
    hide TASKS, Met, Uncertified, APP_PROJECT, APP_PROJECT_CRD, TASK_CRD, PIPELINE_CRD;
  }

  /** A settled cluster from which such objects are taken away. */
  lemma MissingOnes(full: Store, s: Store, spec: Spec, gone: set<Key>)
    requires Fixpoint.Settled(full, spec) && (forall k :: k in gone ==> Uncertified(k)) && s == full - gone
    ensures Certified(s, spec)
  {
    hide Met, Uncertified, NETWORK_POLICIES, Fixpoint.LogicSettled, Fixpoint.KnativeSettled, Fixpoint.HubSettled;
    hide Fixpoint.GitOpsSettled, KnativeCertified, HubCertified, GitOpsCertified, Fixpoint.PoliciesSettled;
    forall g | Lasting(g) && Met(g, full) ensures Met(g, s) {
      LastingGoals(full, s, gone, g);
    }
    OperatorsWeather(full, s, spec);
    PoliciesWeather(full, s, spec, NETWORK_POLICIES);
    GitOpsWeathers(full, s, spec);
  }

  /** The calls that have to fail: those that create a missing Knative resource, and those that look
      for ConfigMaps and Tasks. */
  predicate Faulty(t: nat, start: nat, s: Store, spec: Spec) {
    || (spec.serverless && FaultyForKnative(t, KnativeStart(start, s, spec), s))
    || (spec.rhdh.installOperator && FaultyForHub(t, HubStart(start, s, spec), s))
    || (Convergence.GitOpsIsOn(spec) && FaultyForGitOps(t, GitOpsStart(start, s, spec)))
  }

  predicate FaultyForKnative(t: nat, start: nat, s: Store) {
    var first := start + InstallCalls(s, SERVERLESS) + 3;
    (EVENTING_KEY !in s && t == first) || (SERVING_KEY !in s && t == first + ResourceCalls(s, EVENTING_KEY) + 1)
  }

  predicate FaultyForHub(t: nat, start: nat, s: Store) {
    var first := start + InstallCalls(s, RHDH) + 2;
    first <= t < first + 4
  }

  predicate FaultyForGitOps(t: nat, start: nat) {
    start + 3 <= t < start + 7
  }

  /** An oracle without interference, with these faults only. */
  function Saboteur(base: Oracle, start: nat, s: Store, spec: Spec): Oracle {
    (t: nat) => Turn([], if Faulty(t, start, s, spec) then Rejected(Other) else Healthy, base(t).order)
  }

  ghost predicate Sabotages(o: Oracle, start: nat, s: Store, spec: Spec) {
    forall t: nat {:trigger o(t)} :: o(t).others == [] && o(t).fault == if Faulty(t, start, s, spec) then Rejected(Other) else Healthy
  }

  lemma SaboteurSabotages(base: Oracle, start: nat, s: Store, spec: Spec)
    ensures Sabotages(Saboteur(base, start, s, spec), start, s, spec)
  {
    hide Faulty;
  }

  /** The faults of a stage fall into the time of that stage. */
  lemma FaultsByStage(t: nat, start: nat, s: Store, spec: Spec)
    ensures var k, h, p, g := KnativeStart(start, s, spec), HubStart(start, s, spec), PolicyStart(start, s, spec), GitOpsStart(start, s, spec);
      && start <= k <= h <= p < g
      && (t < k || h <= t ==> !(spec.serverless && FaultyForKnative(t, k, s)))
      && (t < h || p <= t ==> !(spec.rhdh.installOperator && FaultyForHub(t, h, s)))
      && (t < g ==> !FaultyForGitOps(t, g))
  {
    hide LogicCalls, LoopCalls, InstallCalls, EVENTING_KEY, SERVING_KEY, SERVERLESS, RHDH, NETWORK_POLICIES;
  }

  lemma SmoothWithout(o: Oracle, start: nat, s: Store, spec: Spec, a: nat, n: nat)
    requires Sabotages(o, start, s, spec) && forall t: nat :: a <= t < a + n ==> !Faulty(t, start, s, spec)
    ensures Smooth(o, a, n)
  {
    hide Faulty;
  }

  lemma KnativeSabotaged(o: Oracle, start: nat, s: Store, spec: Spec)
    requires Sabotages(o, start, s, spec) && spec.serverless
    ensures KnativeLets(o, KnativeStart(start, s, spec), s)
  {
    hide Sabotages, KnativeStart, HubStart, PolicyStart, GitOpsStart, InstallCalls, EVENTING_KEY, SERVING_KEY;
    hide SERVERLESS, Smooth, FaultyForHub, FaultyForGitOps;
    var k, n, m := KnativeStart(start, s, spec), InstallCalls(s, SERVERLESS), ResourceCalls(s, EVENTING_KEY);
    forall t: nat | t < HubStart(start, s, spec) ensures Faulty(t, start, s, spec) <==> FaultyForKnative(t, k, s) {
      FaultsByStage(t, start, s, spec);
    }
    KnativeEnd(start, s, spec);
    SmoothWithout(o, start, s, spec, k, n + 3);
    SmoothWithout(o, start, s, spec, k + n + 1 + m, 3);
    SabotagedAt(o, start, s, spec, k + n + 3);
    SabotagedAt(o, start, s, spec, k + n + m + 4);
  }

  lemma KnativeEnd(start: nat, s: Store, spec: Spec)
    requires spec.serverless
    ensures HubStart(start, s, spec) == KnativeStart(start, s, spec) + InstallCalls(s, SERVERLESS)
      + ResourceCalls(s, EVENTING_KEY) + ResourceCalls(s, SERVING_KEY) + 2
  {
  }

  lemma SabotagedAt(o: Oracle, start: nat, s: Store, spec: Spec, t: nat)
    requires Sabotages(o, start, s, spec)
    ensures Faulty(t, start, s, spec) ==> o(t).fault == Rejected(Other)
  {
    hide Faulty;
  }

  lemma HubSabotaged(o: Oracle, start: nat, s: Store, spec: Spec)
    requires Sabotages(o, start, s, spec) && spec.rhdh.installOperator
    ensures HubLets(o, HubStart(start, s, spec), s, spec)
  {
    hide Sabotages, KnativeStart, HubStart, PolicyStart, GitOpsStart, InstallCalls, RHDH, Smooth, FaultyForKnative;
    hide FaultyForGitOps, ConfigMapsThere;
    var h, n := HubStart(start, s, spec), InstallCalls(s, RHDH);
    forall t: nat | h <= t < h + n + 8 ensures Faulty(t, start, s, spec) <==> FaultyForHub(t, h, s) {
      HubEnd(start, s, spec);
      FaultsByStage(t, start, s, spec);
    }
    SmoothWithout(o, start, s, spec, h, n + 2);
    SmoothWithout(o, start, s, spec, h + n + 6, 2);
    forall t: nat | h + n + 2 <= t < h + n + 6 ensures PassedBy(o, t, ConfigMapsThere(s, spec.rhdh.namespace)) {
      SabotagedAt(o, start, s, spec, t);
    }
  }

  lemma HubEnd(start: nat, s: Store, spec: Spec)
    requires spec.rhdh.installOperator
    ensures PolicyStart(start, s, spec) == HubStart(start, s, spec) + InstallCalls(s, RHDH) + 8
  {
  }

  lemma GitOpsSabotaged(o: Oracle, start: nat, s: Store, spec: Spec)
    requires Sabotages(o, start, s, spec)
    ensures GitOpsLets(o, GitOpsStart(start, s, spec), s, spec)
  {
    hide Sabotages, KnativeStart, HubStart, PolicyStart, GitOpsStart, Smooth, FaultyForKnative, FaultyForHub, TasksThere;
    var g := GitOpsStart(start, s, spec);
    forall t: nat | g <= t
      ensures Faulty(t, start, s, spec) <==> Convergence.GitOpsIsOn(spec) && FaultyForGitOps(t, g)
    {
      FaultsByStage(t, start, s, spec);
    }
    if Convergence.GitOpsIsOn(spec) {
      SmoothWithout(o, start, s, spec, g, 3);
      SmoothWithout(o, start, s, spec, g + 7, 2);
      forall t: nat | g + 3 <= t < g + 7 ensures PassedBy(o, t, TasksThere(s, spec.argoCDNamespace)) {
        SabotagedAt(o, start, s, spec, t);
      }
    } else {
      SmoothWithout(o, start, s, spec, g, GitOpsCalls(s, spec));
    }
  }

  /** No faults before the stages, in the first and in the fourth. */
  lemma FaultlessTimes(t: nat, start: nat, s: Store, spec: Spec)
    ensures t < KnativeStart(start, s, spec) ==> !Faulty(t, start, s, spec)
    ensures PolicyStart(start, s, spec) <= t < GitOpsStart(start, s, spec) ==> !Faulty(t, start, s, spec)
  {
    hide KnativeStart, HubStart, PolicyStart, GitOpsStart, FaultyForKnative, FaultyForHub, FaultyForGitOps;
    FaultsByStage(t, start, s, spec);
  }

  lemma SabotageIsLone(o: Oracle, start: nat, s: Store, spec: Spec)
    requires Sabotages(o, start, s, spec)
    ensures Alone(o)
  {
    hide Faulty;
  }

  lemma SabotageLets(o: Oracle, start: nat, s: Store, spec: Spec)
    requires Sabotages(o, start, s, spec)
    ensures Lets(o, start, s, spec) && Smooth(o, 0, start)
  {
    StartsAdd(start, s, spec);
    hide Sabotages, KnativeLets, HubLets, GitOpsLets, LogicCalls, PolicyCalls, Smooth, Faulty;
    hide KnativeStart, HubStart, PolicyStart, GitOpsStart;
    forall t: nat
      ensures t < KnativeStart(start, s, spec) ==> !Faulty(t, start, s, spec)
      ensures PolicyStart(start, s, spec) <= t < GitOpsStart(start, s, spec) ==> !Faulty(t, start, s, spec)
    {
      FaultlessTimes(t, start, s, spec);
    }
    SmoothWithout(o, start, s, spec, 0, start);
    SmoothWithout(o, start, s, spec, start, LogicCalls(s, spec));
    SmoothWithout(o, start, s, spec, PolicyStart(start, s, spec), PolicyCalls(spec));
    if spec.serverless {
      KnativeSabotaged(o, start, s, spec);
    }
    if spec.rhdh.installOperator {
      HubSabotaged(o, start, s, spec);
    }
    GitOpsSabotaged(o, start, s, spec);
  }

  lemma StartsAdd(start: nat, s: Store, spec: Spec)
    ensures KnativeStart(start, s, spec) == start + LogicCalls(s, spec)
    ensures GitOpsStart(start, s, spec) == PolicyStart(start, s, spec) + PolicyCalls(spec)
  {
    hide LogicCalls, KnativeCalls, HubCalls, PolicyCalls;
  }

  /** The calls of a pass between its first read and its stages. */
  function PrepareCalls(cr: Orchestrator): nat {
    (if FINALIZER in cr.finalizers then 0 else 1) + (if cr.status.conditions == [] then 2 else 0)
  }

  lemma SmoothUpdateStatus(o: Oracle, w: World, cr: Orchestrator, phase: Phase, c: Condition)
    requires Alone(o) && o(w.clock).fault.Healthy? && w.cr == Some(cr)
    ensures var next := cr.(status := Status(phase, ReconcileSpec.SetStatusCondition(cr.status.conditions, c)));
      var r := ReconcileSpec.UpdateStatus(o, w, cr, phase, c);
      && r == Ok(r.w, next) && r.w.store == w.store && r.w.cr == Some(next) && r.w.clock == w.clock + 1
      && r.w.log == Snoc(w.log, Attempted(phase))
  {
    assert o(w.clock).others == [];
  }

  lemma SmoothGetCR(o: Oracle, w: World, cr: Orchestrator, first: bool)
    requires Alone(o) && o(w.clock).fault.Healthy? && w.cr == Some(cr)
    ensures var r := GetCR(o, w, first);
      && r == Ok(r.w, cr) && r.w.store == w.store && r.w.cr == w.cr && r.w.clock == w.clock + 1
      && r.w.log == Snoc(w.log, if first then PassStarted(cr) else Refetched(cr))
  {
    assert o(w.clock).others == [];
  }

  lemma SmoothPrepare(o: Oracle, w: World, cr: Orchestrator)
    requires Alone(o) && Smooth(o, w.clock, PrepareCalls(cr)) && w.cr == Some(cr) && !cr.deleting
    ensures var p := ReconcileSpec.Prepare(o, w, cr); var ready := Quiet.Started(cr);
      && p == ReconcileSpec.Go(p.w, ready) && p.w.store == w.store && p.w.cr == Some(ready)
      && p.w.clock == w.clock + PrepareCalls(cr)
  {
    hide ReconcileSpec.UpdateStatus, GetCR;
    var added := ReconcileSpec.AddFinalizers(o, w, cr);
    assert FINALIZER !in cr.finalizers ==> o(w.clock).others == [] && o(w.clock).fault.Healthy?;
    assert FINALIZER in cr.finalizers ==> cr.finalizers + {FINALIZER} == cr.finalizers;
    if cr.status.conditions == [] {
      SmoothUpdateStatus(o, added.w, added.value, Running, ReconcileSpec.STARTING);
      var u := ReconcileSpec.UpdateStatus(o, added.w, added.value, Running, ReconcileSpec.STARTING);
      SmoothGetCR(o, u.w, u.value, false);
    }
  }

  /** The pass reports Completed and has left the cluster as it was. */
  ghost predicate CompletesIdly(o: Oracle, st: ReconcileSpec.State) {
    var (end, v) := ReconcileSpec.Reconcile(o, st);
    && v == ReconcileSpec.FINISHED
    && end.w.log.Snoc? && end.w.log.event == Attempted(Completed)
    && end.w.cr.Some? && end.w.cr.value.status.phase == Completed
    && end.w.store == st.w.store
  }

  lemma CertifiedPass(o: Oracle, st: ReconcileSpec.State, start: nat)
    requires st.errors == map[] && st.w.cr.Some? && !st.w.cr.value.deleting && Certified(st.w.store, st.w.cr.value.spec)
    requires start == st.w.clock + 1 + PrepareCalls(st.w.cr.value)
    requires Alone(o) && Smooth(o, st.w.clock, start - st.w.clock) && Lets(o, start, st.w.store, st.w.cr.value.spec)
    requires o(start + StageCalls(st.w.store, st.w.cr.value.spec)).fault.Healthy?
    ensures CompletesIdly(o, st)
  {
    hide Lets, Certified, GetCR, ReconcileSpec.Prepare, ReconcileSpec.RunStages, ReconcileSpec.UpdateStatus;
    hide StageCalls, JustReads, Smooth, PrepareCalls, Alone;
    var cr, s := st.w.cr.value, st.w.store;
    SmoothParts(o, st.w.clock, 1, start - st.w.clock - 1);
    SmoothStart(o, st.w.clock, 1);
    SmoothGetCR(o, st.w, cr, true);
    var w1 := GetCR(o, st.w, true).w;
    SmoothPrepare(o, w1, cr);
    var st2 := st.(w := ReconcileSpec.Prepare(o, w1, cr).w);
    SpecIsKept(cr);
    IdleStages(o, st2, cr.spec);
    var st3 := ReconcileSpec.RunStages(o, st2, cr.spec).0;
    ReadsKeep(st2.w, st3.w, StageCalls(s, cr.spec));
    SmoothUpdateStatus(o, st3.w, Quiet.Started(cr), Completed, ReconcileSpec.DONE);
  }

  lemma SpecIsKept(cr: Orchestrator)
    ensures Quiet.Started(cr).spec == cr.spec
  {
  }

  /** Take a cluster in which everything is settled, and take any Knative resources, ConfigMaps and Tasks
      away: without interference, and with the right calls failing, a pass still reports Completed,
      and leaves the cluster without them. */
  lemma CompletedWithoutThem(base: Oracle, st: ReconcileSpec.State, full: Store, gone: set<Key>) returns (o: Oracle)
    requires st.errors == map[] && st.w.cr.Some? && !st.w.cr.value.deleting
    requires Fixpoint.Settled(full, st.w.cr.value.spec)
    requires (forall k :: k in gone ==> Uncertified(k)) && st.w.store == full - gone
    ensures Alone(o) && CompletesIdly(o, st)
  {
    hide Saboteur, Sabotages, Lets, Certified, Fixpoint.Settled, CompletesIdly, StageCalls, PrepareCalls, Smooth, Alone;
    var cr, s := st.w.cr.value, st.w.store;
    var start := st.w.clock + 1 + PrepareCalls(cr);
    o := Saboteur(base, start, s, cr.spec);
    SaboteurSabotages(base, start, s, cr.spec);
    SabotageIsLone(o, start, s, cr.spec);
    SabotageLets(o, start, s, cr.spec);
    SmoothParts(o, 0, st.w.clock, start - st.w.clock);
    LastCallIsSmooth(o, start, s, cr.spec);
    MissingOnes(full, s, cr.spec, gone);
    CertifiedPass(o, st, start);
  }

  /** So does the call that reports Completed. */
  lemma LastCallIsSmooth(o: Oracle, start: nat, s: Store, spec: Spec)
    requires Sabotages(o, start, s, spec)
    ensures o(start + StageCalls(s, spec)).fault.Healthy?
  {
    hide Sabotages, LogicCalls, KnativeCalls, HubCalls, PolicyCalls, FaultyForKnative, FaultyForHub;
    var t := start + StageCalls(s, spec);
    FaultsByStage(t, start, s, spec);
    HealthyAt(o, start, s, spec, t);
  }

  lemma HealthyAt(o: Oracle, start: nat, s: Store, spec: Spec, t: nat)
    requires Sabotages(o, start, s, spec) && !Faulty(t, start, s, spec)
    ensures o(t).fault.Healthy?
  {
    hide Faulty;
  }

  // ---------- A deletion that comes late ----------

  /** The resource is deleted by somebody else, just before the second read. */
  ghost predicate DeletesLate(o: Oracle, w: World, cr: Orchestrator) {
    var t := w.clock + (if FINALIZER in cr.finalizers then 1 else 2);
    && Smooth(o, w.clock, t + 1 - w.clock)
    && (forall u: nat {:trigger o(u)} :: w.clock <= u < t ==> o(u).others == [])
    && o(t).others == [EditCR(cr.spec, true, cr.finalizers + {FINALIZER})]
  }

  /** A pass that starts from a resource without conditions reads it a second time; a deletion that has
      come between the two reads goes unnoticed, and the stages run, whether the finalizer was there
      or had to be added. */
  lemma LateDeletionIsMissed(o: Oracle, w: World, cr: Orchestrator)
    requires w.cr == Some(cr) && !cr.deleting && cr.status.conditions == [] && DeletesLate(o, w, cr)
    ensures var p := ReconcileSpec.Prepare(o, w, cr);
      p.Go? && p.value.deleting && p.value.spec == cr.spec
  {
    hide ReconcileSpec.SetStatusCondition;
    var ready := cr.(finalizers := cr.finalizers + {FINALIZER});
    var added := ReconcileSpec.AddFinalizers(o, w, cr);
    assert FINALIZER in cr.finalizers ==> ready == cr;
    assert o(w.clock).others == [];
    assert added.Ok? && added.value == ready && added.w.cr == Some(ready);
    assert o(added.w.clock).others == [] && o(added.w.clock).fault.Healthy?;
    var u := ReconcileSpec.UpdateStatus(o, added.w, ready, Running, ReconcileSpec.STARTING);
    assert u.Ok? && u.w.cr == Some(ready.(status := u.value.status));
    var act := EditCR(cr.spec, true, ready.finalizers);
    assert o(u.w.clock).others == [act];
    assert PerformAll(u.w, [act]) == Perform(u.w, act);
  }

  /** In no other way do the stages run for a resource that is being deleted. */
  lemma OnlyTheSecondReadIsBlind(o: Oracle, w: World, cr: Orchestrator)
    ensures var p := ReconcileSpec.Prepare(o, w, cr);
      p.Go? && p.value.deleting ==> !cr.deleting && cr.status.conditions == []
  {
    hide ReconcileSpec.HandleCleanUp, ReconcileSpec.UpdateStatus, GetCR, UpdateCR;
  }

  /** The stages can come to run for a resource that is being deleted if and only if the pass began
      with one that is not, and that has no conditions. */
  lemma BlindExactly(base: Oracle, w: World, cr: Orchestrator)
    requires w.cr == Some(cr)
    ensures (exists o: Oracle :: ReconcileSpec.Prepare(o, w, cr).Go? && ReconcileSpec.Prepare(o, w, cr).value.deleting) <==>
      !cr.deleting && cr.status.conditions == []
  {
    hide ReconcileSpec.Prepare;
    forall o: Oracle | ReconcileSpec.Prepare(o, w, cr).Go? && ReconcileSpec.Prepare(o, w, cr).value.deleting
      ensures !cr.deleting && cr.status.conditions == []
    {
      OnlyTheSecondReadIsBlind(o, w, cr);
    }
    if !cr.deleting && cr.status.conditions == [] {
      var late := w.clock + (if FINALIZER in cr.finalizers then 1 else 2);
      var act := EditCR(cr.spec, true, cr.finalizers + {FINALIZER});
      var o: Oracle := (t: nat) => Turn(if t == late then [act] else [], Healthy, base(t).order);
      assert DeletesLate(o, w, cr);
      LateDeletionIsMissed(o, w, cr);
    }
  }
}
