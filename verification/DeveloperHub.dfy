/** The RHDH (Backstage) stage and its clean-up, as functions on the world. */
module DeveloperHubSpec {
  import opened Kubernetes
  import opened Desired
  import opened ApiServer
  import opened KubeOperationsSpec

  /** An Ingress without a domain is no error: the domain is then the empty string. */
  function GetClusterDomain(o: Oracle, w: World): Ret<string> {
    var (w1, ingress) :- Get(o, w, CLUSTER_INGRESS_KEY);
    Ok(w1, ingress.body.domain)
  }

  function CreateRHDHSecret(o: Oracle, w: World, ns: string): Ret<()> {
    GetOrCreate(o, w, SecretKey(ns), NPMRC)
  }

  /** One step of the loop over the ConfigMap names: an existing ConfigMap is left alone, and so
      is one whose look-up fails with anything but NotFound. */
  function EnsureConfigMap(o: Oracle, w: World, ns: string, name: string, dataKey: string, text: Text): Ret<()> {
    match Get(o, w, ConfigMapKey(ns, name))
    case Ok(w1, _) => Ok(w1, ())
    case Fail(w1, e) =>
      if e == NotFound then Create(o, w1, ConfigMapKey(ns, name), NewConfigMap(dataKey, text)) else Ok(w1, ())
  }

  datatype Inputs = Inputs(domain: string, workflowNs: string, argoCD: bool, tekton: bool, rhdh: RHDHConfig)

  function TextOf(name: string, i: Inputs): Text {
    ConfigMapTemplate(name, i.domain, i.workflowNs, i.argoCD, i.tekton, i.rhdh)
  }

  /** The loop over the names still to be visited, in the order the map is iterated. */
  function EnsureConfigMaps(o: Oracle, w: World, names: seq<string>, dataKeys: map<string, string>, i: Inputs)
    : Ret<seq<string>>
    requires forall n :: n in names ==> n in dataKeys
    decreases |names|
  {
    if names == [] then Ok(w, [])
    else
      var name := names[0];
      var (w1, _) :- EnsureConfigMap(o, w, i.rhdh.namespace, name, dataKeys[name], TextOf(name, i));
      Prepend(if name != DYNAMIC_PLUGINS then [name] else [], EnsureConfigMaps(o, w1, names[1..], dataKeys, i))
  }

  /** Adds names to the front of a successful result. */
  function Prepend(names: seq<string>, r: Ret<seq<string>>): Ret<seq<string>> {
    match r
    case Ok(w, rest) => Ok(w, names + rest)
    case Fail(_, _) => r
  }

  lemma PrependTwice(a: seq<string>, b: seq<string>, r: Ret<seq<string>>)
    ensures Prepend(a, Prepend(b, r)) == Prepend(a + b, r)
    ensures Prepend([], r) == r
  {
    if r.Ok? {
      assert a + (b + r.value) == (a + b) + r.value;
      assert [] + r.value == r.value;
    }
  }

  /** The iteration order of a Go map with these names. */
  function IterationOrder(o: Oracle, t: nat, ns: string, names: set<string>): (q: seq<string>)
    ensures forall n :: n in q <==> n in names
    ensures forall i, j :: 0 <= i < j < |q| ==> q[i] != q[j]
  {
    var keys := set n | n in names :: ConfigMapKey(ns, n);
    var order := InOrder(o(t).order, keys);
    assert forall n :: n in names ==> ConfigMapKey(ns, n) in keys;
    assert forall i :: 0 <= i < |order| ==> order[i] in order;
    var q := seq(|order|, i requires 0 <= i < |order| => order[i].name);
    assert forall i, j :: 0 <= i < j < |q| ==> order[i] != order[j];
    assert forall n :: n in names ==> n in q by {
      forall n | n in names ensures n in q {
        var i :| 0 <= i < |order| && order[i] == ConfigMapKey(ns, n);
        assert q[i] == n;
      }
    }
    q
  }

  /** The caller passes the two GitOps flags in the opposite order of the parameters' names. */
  function GetOrCreateConfigMaps(o: Oracle, w: World, domain: string, workflowNs: string,
                                 tektonEnabled: bool, argoCDEnabled: bool, rhdh: RHDHConfig): (r: Ret<seq<string>>)
  {
    var names := IterationOrder(o, w.clock, rhdh.namespace, CONFIG_MAPS.Keys);
    EnsureConfigMaps(o, w, names, CONFIG_MAPS, Inputs(domain, workflowNs, argoCDEnabled, tektonEnabled, rhdh))
  }

  function HandleRHDHCR(o: Oracle, w: World, rhdh: RHDHConfig, configMaps: seq<string>): Ret<()> {
    var (w1, _) :- CheckCRDExists(o, w, BACKSTAGE_CRD);
    GetOrCreate(o, w1, BackstageKey(rhdh), NewBackstage(configMaps))
  }

  function ReconcileRHDH(o: Oracle, w: World, s: Spec): Ret<()> {
    if !s.rhdh.installOperator then Ok(w, ())
    else
      var (w1, _) :- HandleOperatorInstallation(o, w, RHDH);
      var (w2, domain) :- GetClusterDomain(o, w1);
      var (w3, _) :- CreateRHDHSecret(o, w2, s.rhdh.namespace);
      var (w4, configMaps) :- GetOrCreateConfigMaps(o, w3, domain, s.platform.namespace, s.argoCDEnabled, s.tektonEnabled, s.rhdh);
      HandleRHDHCR(o, w4, s.rhdh, configMaps)
  }

  // ---------- Clean-up ----------

  /** Only with exactly one labelled Backstage resource is the RHDH namespace removed; with none,
      the operator's namespace stays, too, and no error is reported. */
  function HandleRHDHCleanUp(o: Oracle, w: World, ns: string): Ret<()> {
    var check := CheckNamespaceExist(o, w, ns);
    if check.Fail? then CleanUpNamespace(o, check.w, RHDH.namespace)
    else
      var (w1, backstages) :- List(o, check.w, Backstage, ns);
      if |backstages| == 0 then
        Ok(w1, ())
      else
        var (w2, _) :- if |backstages| == 1 then CleanUpNamespace(o, w1, ns) else Ok(w1, ());
        CleanUpNamespace(o, w2, RHDH.namespace)
  }
}

/** The RHDH (Backstage) stage and its clean-up. */
module DeveloperHub {
  import opened Kubernetes
  import opened Desired
  import opened Audit
  import opened Client
  import opened KubeOperations
  import ApiServer
  import Kube = KubeOperationsSpec
  import Spec = DeveloperHubSpec

  method GetClusterDomain(c: Cluster) returns (r: Result<string>)
    modifies c
    ensures Agrees(Spec.GetClusterDomain(c.oracle, old(c.W())), c.W(), r)
    ensures Follows(old(c.log), c.log)
    ensures StatusKept(c.oracle, old(c.cr), c.cr)
    ensures Clean(old(c.log)) ==> Clean(c.log)
    ensures r.Success? ==> Exists(CLUSTER_INGRESS_KEY) in Facts(c.log)
    ensures r.Success? ==> DomainSeen(c.log, r.value)
    ensures r.Success? && Unscathed(old(c.log)) ==> Unscathed(c.log)
    ensures r.Failure? ==> Blames(c.log, r.error)
  {
    hide ApiServer.Get, Untroubled, Tolerable, Blames;
    var ingress :- c.Get(CLUSTER_INGRESS_KEY);
    return Success(ingress.body.domain);
  }

  method CreateRHDHSecret(c: Cluster, ns: string) returns (r: Result<()>)
    modifies c
    ensures Agrees(Spec.CreateRHDHSecret(c.oracle, old(c.W()), ns), c.W(), r)
    ensures Follows(old(c.log), c.log)
    ensures StatusKept(c.oracle, old(c.cr), c.cr)
    ensures Clean(old(c.log)) && MayCreate(old(c.log), 3) && PassOf(old(c.log)).now.spec.rhdh.namespace == ns ==> Clean(c.log)
    ensures r.Success? ==> Exists(SecretKey(ns)) in Facts(c.log)
    ensures forall domain :: DomainSeen(old(c.log), domain) ==> DomainSeen(c.log, domain)
    ensures r.Success? && Unscathed(old(c.log)) ==> Unscathed(c.log)
    ensures r.Failure? ==> Blames(c.log, r.error)
  {
    hide Kube.GetOrCreate, Unscathed, Blames;
    r := GetOrCreate(c, SecretKey(ns), NPMRC);
  }

  method EnsureConfigMap(c: Cluster, ns: string, name: string, dataKey: string, text: Text) returns (r: Result<()>)
    modifies c
    ensures Agrees(Spec.EnsureConfigMap(c.oracle, old(c.W()), ns, name, dataKey, text), c.W(), r)
    ensures Follows(old(c.log), c.log)
    ensures StatusKept(c.oracle, old(c.cr), c.cr)
    ensures Clean(old(c.log)) && MayCreate(old(c.log), 3)
      && Proper(PassOf(old(c.log)).now.spec, ConfigMapKey(ns, name), NewConfigMap(dataKey, text))
      && text.Rendered? && DomainSeen(old(c.log), text.clusterDomain)
      ==> Clean(c.log)
    ensures forall domain :: DomainSeen(old(c.log), domain) ==> DomainSeen(c.log, domain)
    ensures r.Success? && Unscathed(old(c.log)) ==> Unscathed(c.log)
    ensures r.Failure? ==> Blames(c.log, r.error)
  {
    hide ApiServer.Get, ApiServer.Create, Clean, Sound, Proper, DoneBefore, LastSight, PassOf, Untroubled, Tolerable, Blames;
    if Unscathed(c.log) {
      InstallingFailures(c.log);
    }
    var found := c.Get(ConfigMapKey(ns, name));
    if found.Failure? && found.error == NotFound {
      if MayCreate(old(c.log), 3) && Proper(PassOf(old(c.log)).now.spec, ConfigMapKey(ns, name), NewConfigMap(dataKey, text))
        && text.Rendered? && DomainSeen(old(c.log), text.clusterDomain) {
        ConfigMapIsSound(old(c.log), c.log, ConfigMapKey(ns, name), NewConfigMap(dataKey, text));
      }
      r := c.Create(ConfigMapKey(ns, name), NewConfigMap(dataKey, text));
    } else {
      r := Success(());
    }
  }

  predicate AllButPlugins(names: seq<string>, all: set<string>) {
    && (forall n :: n in names ==> n in all && n != DYNAMIC_PLUGINS)
    && (forall n :: n in all && n != DYNAMIC_PLUGINS ==> n in names)
  }

  /** The files are those of the pass's specification. */
  predicate Rendering(l: Log, dataKeys: map<string, string>, i: Spec.Inputs) {
    && MayCreate(l, 3) && dataKeys == CONFIG_MAPS
    && i.rhdh == PassOf(l).now.spec.rhdh && i.workflowNs == PassOf(l).now.spec.platform.namespace
    && i.argoCD == PassOf(l).now.spec.tektonEnabled && i.tekton == PassOf(l).now.spec.argoCDEnabled
    && DomainSeen(l, i.domain)
  }

  lemma RenderedProperly(l: Log, name: string, i: Spec.Inputs)
    requires Rendering(l, CONFIG_MAPS, i) && name in CONFIG_MAPS
    ensures Proper(PassOf(l).now.spec, ConfigMapKey(i.rhdh.namespace, name), NewConfigMap(CONFIG_MAPS[name], Spec.TextOf(name, i)))
    ensures Spec.TextOf(name, i).Rendered? && Spec.TextOf(name, i).clusterDomain == i.domain
  {
    var data := NewConfigMap(CONFIG_MAPS[name], Spec.TextOf(name, i)).body.data;
    assert data.Keys == {CONFIG_MAPS[name]};
  }

  /** Visits the names in the given order and lists all but the dynamic plugins. */
  method EnsureConfigMaps(c: Cluster, names: seq<string>, dataKeys: map<string, string>, i: Spec.Inputs)
    returns (r: Result<seq<string>>)
    requires forall n :: n in names ==> n in dataKeys
    modifies c
    ensures Agrees(Spec.EnsureConfigMaps(c.oracle, old(c.W()), names, dataKeys, i), c.W(), r)
    ensures Follows(old(c.log), c.log)
    ensures StatusKept(c.oracle, old(c.cr), c.cr)
    ensures Clean(old(c.log)) && Rendering(old(c.log), dataKeys, i) ==> Clean(c.log)
    ensures r.Success? ==> AllButPlugins(r.value, set n | n in names)
    ensures r.Success? && Unscathed(old(c.log)) ==> Unscathed(c.log)
    ensures r.Failure? ==> Blames(c.log, r.error)
  {
    hide Clean, Sound, Proper, Facts, PassOf, LastSight, DoneBefore, StatusIsOurs, DYNAMIC_PLUGINS, Spec.EnsureConfigMap;
    hide DomainSeen, Unscathed, Blames;
    var configMaps := [];
    var rest := names;
    ghost var all := Spec.EnsureConfigMaps(c.oracle, c.W(), names, dataKeys, i);
    Spec.PrependTwice([], [], all);
    while rest != []
      invariant forall n :: n in rest ==> n in dataKeys
      invariant Spec.Prepend(configMaps, Spec.EnsureConfigMaps(c.oracle, c.W(), rest, dataKeys, i)) == all
      invariant forall n :: n in configMaps ==> n in names && n != DYNAMIC_PLUGINS
      invariant forall n :: n in names ==> n in rest || n == DYNAMIC_PLUGINS || n in configMaps
      invariant forall n :: n in rest ==> n in names
      invariant Follows(old(c.log), c.log)
      invariant StatusKept(c.oracle, old(c.cr), c.cr)
      invariant Clean(old(c.log)) && Rendering(old(c.log), dataKeys, i) ==> Clean(c.log)
      invariant DomainSeen(old(c.log), i.domain) ==> DomainSeen(c.log, i.domain)
      invariant Unscathed(old(c.log)) ==> Unscathed(c.log)
      decreases |rest|
    {
      var name := rest[0];
      if Rendering(old(c.log), dataKeys, i) {
        RenderedProperly(old(c.log), name, i);
      }
      ghost var before := configMaps;
      if name != DYNAMIC_PLUGINS {
        configMaps := configMaps + [name];
      }
      var _ :- EnsureConfigMap(c, i.rhdh.namespace, name, dataKeys[name], Spec.TextOf(name, i));
      rest := rest[1..];
      Spec.PrependTwice(before, if name != DYNAMIC_PLUGINS then [name] else [],
                        Spec.EnsureConfigMaps(c.oracle, c.W(), rest, dataKeys, i));
      assert configMaps == before + if name != DYNAMIC_PLUGINS then [name] else [];
    }
    assert configMaps + [] == configMaps;
    return Success(configMaps);
  }

  method GetOrCreateConfigMaps(c: Cluster, domain: string, workflowNs: string,
                               tektonEnabled: bool, argoCDEnabled: bool, rhdh: RHDHConfig)
    returns (r: Result<seq<string>>)
    modifies c
    ensures Agrees(Spec.GetOrCreateConfigMaps(c.oracle, old(c.W()), domain, workflowNs, tektonEnabled, argoCDEnabled, rhdh), c.W(), r)
    ensures Follows(old(c.log), c.log)
    ensures StatusKept(c.oracle, old(c.cr), c.cr)
    ensures Clean(old(c.log)) && MayCreate(old(c.log), 3)
      && rhdh == PassOf(old(c.log)).now.spec.rhdh && workflowNs == PassOf(old(c.log)).now.spec.platform.namespace
      && tektonEnabled == PassOf(old(c.log)).now.spec.argoCDEnabled && argoCDEnabled == PassOf(old(c.log)).now.spec.tektonEnabled
      && DomainSeen(old(c.log), domain)
      ==> Clean(c.log)
    ensures r.Success? ==> AllButPlugins(r.value, CONFIG_MAPS.Keys)
    ensures r.Success? && Unscathed(old(c.log)) ==> Unscathed(c.log)
    ensures r.Failure? ==> Blames(c.log, r.error)
  {
    hide Spec.EnsureConfigMaps, DomainSeen, Unscathed, Blames;
    var names := Spec.IterationOrder(c.oracle, c.clock, rhdh.namespace, CONFIG_MAPS.Keys);
    r := EnsureConfigMaps(c, names, CONFIG_MAPS, Spec.Inputs(domain, workflowNs, argoCDEnabled, tektonEnabled, rhdh));
  }

  lemma BackstageIsProper(s: Kubernetes.Spec, configMaps: seq<string>)
    requires AllButPlugins(configMaps, CONFIG_MAPS.Keys)
    ensures Proper(s, BackstageKey(s.rhdh), NewBackstage(configMaps))
  {
    hide CONFIG_MAPS, DYNAMIC_PLUGINS;
  }

  method HandleRHDHCR(c: Cluster, rhdh: RHDHConfig, configMaps: seq<string>) returns (r: Result<()>)
    modifies c
    ensures Agrees(Spec.HandleRHDHCR(c.oracle, old(c.W()), rhdh, configMaps), c.W(), r)
    ensures Follows(old(c.log), c.log)
    ensures StatusKept(c.oracle, old(c.cr), c.cr)
    ensures Clean(old(c.log)) && MayCreate(old(c.log), 3)
      && PassOf(old(c.log)).now.spec.rhdh == rhdh && AllButPlugins(configMaps, CONFIG_MAPS.Keys)
      ==> Clean(c.log)
    ensures r.Success? ==> Exists(CRDKey(BACKSTAGE_CRD)) in Facts(c.log) && Exists(BackstageKey(rhdh)) in Facts(c.log)
    ensures r.Success? && Unscathed(old(c.log)) ==> Unscathed(c.log)
    ensures r.Failure? ==> Blames(c.log, r.error)
  {
    hide Unscathed, Blames;
    hide Clean, Sound, Proper, DoneBefore, AllButPlugins, Kube.CheckCRDExists, Kube.GetOrCreate;
    if MayCreate(old(c.log), 3) && PassOf(old(c.log)).now.spec.rhdh == rhdh && AllButPlugins(configMaps, CONFIG_MAPS.Keys) {
      BackstageIsProper(PassOf(old(c.log)).now.spec, configMaps);
    }
    var _ :- CheckCRDExists(c, BACKSTAGE_CRD);
    r := GetOrCreate(c, BackstageKey(rhdh), NewBackstage(configMaps));
  }

  lemma HubIsInstalled(l: Log, s: Kubernetes.Spec)
    requires s.rhdh.installOperator
    ensures RHDH in COMPONENTS
    ensures Entering(l, 3, s) ==> MayInstall(l, RHDH) && MayCreate(l, 3) && PassOf(l).InPass? && PassOf(l).now.spec == s
  {
    if Entering(l, 3, s) {
      StageBegins(l, 3, s, RHDH);
    }
  }

  method ReconcileRHDH(c: Cluster, s: Kubernetes.Spec) returns (r: Result<()>)
    modifies c
    ensures Agrees(Spec.ReconcileRHDH(c.oracle, old(c.W()), s), c.W(), r)
    ensures Follows(old(c.log), c.log)
    ensures StatusKept(c.oracle, old(c.cr), c.cr)
    ensures Clean(old(c.log)) && Entering(old(c.log), 3, s) ==> Clean(c.log)
    ensures r.Success? ==> RHDHDone(c.log, s)
    ensures r.Success? && Unscathed(old(c.log)) ==> Unscathed(c.log)
    ensures r.Failure? ==> Blames(c.log, r.error)
  {
    hide Unscathed, Blames, DomainSeen, LastSight, RHDH, REGISTRY_SECRET, StageOf, On, Reached, COMPONENTS;
    hide Sound, Clean, Facts, PassOf, StatusIsOurs, AllButPlugins, CONFIG_MAPS, CLUSTER_INGRESS_KEY, BACKSTAGE_CRD;
    hide LogicDone, KnativeDone, Kube.HandleOperatorInstallation, Spec.GetClusterDomain;
    hide Spec.CreateRHDHSecret, Spec.GetOrCreateConfigMaps, Spec.HandleRHDHCR, Entering, MayCreate, MayInstall, DoneBefore;
    if !s.rhdh.installOperator {
      return Success(());
    }
    HubIsInstalled(c.log, s);
    ghost var may := Entering(c.log, 3, s);
    var _ :- HandleOperatorInstallation(c, RHDH);
    var domain :- GetClusterDomain(c);
    if may {
      StageGoesOn(old(c.log), c.log, 3);
    }
    var _ :- CreateRHDHSecret(c, s.rhdh.namespace);
    if may {
      StageGoesOn(old(c.log), c.log, 3);
    }
    var configMaps :- GetOrCreateConfigMaps(c, domain, s.platform.namespace, s.argoCDEnabled, s.tektonEnabled, s.rhdh);
    if may {
      StageGoesOn(old(c.log), c.log, 3);
    }
    r := HandleRHDHCR(c, s.rhdh, configMaps);
  }

  // ---------- Clean-up ----------

  /** The other two parts have been cleaned up. */
  ghost predicate HubComesNext(l: Log, s: Kubernetes.Spec) {
    KnativeCleared(l) && PlatformsCleared(l, s) && Settled(l, NamespaceKey(LOGIC.namespace))
  }

  lemma HubFailures(l: Log, s: Kubernetes.Spec)
    requires Removing(l, s)
    ensures var k := NamespaceKey(s.rhdh.namespace);
      Tolerable(PassOf(l), LookUp(k)) && Tolerable(PassOf(l), Change(k)) && MayAdopt(l, s.rhdh.namespace)
  {
  }

  lemma HubIsNext(l: Log, l': Log, s: Kubernetes.Spec)
    requires PassOf(l') == PassOf(l) && Facts(l) <= Facts(l')
    ensures Removing(l, s) ==> Removing(l', s)
    ensures HubComesNext(l, s) ==> HubComesNext(l', s)
  {
    hide Facts, PassOf;
    if HubComesNext(l, s) {
      ClearedStays(l, l', SonataFlowPlatform, s.platform.namespace);
      ClearedStays(l, l', SonataFlowClusterPlatform, "");
    }
  }

  /** With one Backstage the namespace may go; with several, that of the operator may. */
  lemma BackstagesAreCounted(l: Log, s: Kubernetes.Spec, items: seq<Key>)
    requires Answered(Backstage, s.rhdh.namespace, set k | k in items) in Facts(l) && IsEnumeration(items, set k | k in items)
    ensures |items| == 1 && Removing(l, s) && HubComesNext(l, s) ==>
      MayDelete(PassOf(l), NamespaceKey(s.rhdh.namespace)) && DeletedInOrder(l, NamespaceKey(s.rhdh.namespace))
    ensures |items| > 1 ==> HubCleared(l, s)
  {
    hide Facts, PlatformsCleared, Settled;
    OrderSize(items, set k | k in items);
    assert BackstagesCounted(l, s, |items|);
  }

  lemma HubWasSeen(l: Log, s: Kubernetes.Spec)
    ensures Settled(l, NamespaceKey(s.rhdh.namespace)) || CallFailed(LookUp(NamespaceKey(s.rhdh.namespace))) in Facts(l) ==>
      HubCleared(l, s)
  {
  }

  lemma OperatorMayGo(l: Log, s: Kubernetes.Spec)
    requires Removing(l, s) && HubComesNext(l, s) && HubCleared(l, s)
    ensures MayDelete(PassOf(l), NamespaceKey(RHDH.namespace)) && DeletedInOrder(l, NamespaceKey(RHDH.namespace))
  {
    hide Facts, KnativeCleared, PlatformsCleared, HubCleared;
  }

  method HandleRHDHCleanUp(c: Cluster, s: Kubernetes.Spec) returns (r: Result<()>)
    modifies c
    ensures Agrees(Spec.HandleRHDHCleanUp(c.oracle, old(c.W()), s.rhdh.namespace), c.W(), r)
    ensures Follows(old(c.log), c.log)
    ensures StatusKept(c.oracle, old(c.cr), c.cr)
    ensures Clean(old(c.log)) && Removing(old(c.log), s) && HubComesNext(old(c.log), s) ==> Clean(c.log)
    ensures r.Success? ==>
      Settled(c.log, NamespaceKey(RHDH.namespace)) || Answered(Backstage, s.rhdh.namespace, {}) in Facts(c.log)
    ensures r.Success? && Removing(old(c.log), s) && Untroubled(old(c.log)) ==> Untroubled(c.log)
    ensures r.Failure? ==> Blames(c.log, r.error)
  {
    hide Sound, Clean, Facts, PassOf, LastSight, DoneBefore, StatusIsOurs, Untroubled, Tolerable, Blames, MayDelete;
    hide DeletedInOrder, HubComesNext, HubCleared, Removing, MayAdopt, RHDH;
    hide Kube.CheckNamespaceExist, ApiServer.List, Kube.CleanUpNamespace;
    var ns := s.rhdh.namespace;
    ghost var start := c.log;
    if Removing(start, s) {
      HubFailures(start, s);
    }
    var check := CheckNamespaceExist(c, ns);
    HubIsNext(start, c.log, s);
    if check.Success? {
      var backstages :- c.List(Backstage, ns);
      HubIsNext(start, c.log, s);
      BackstagesAreCounted(c.log, s, backstages);
      if |backstages| == 0 {
        assert (set k | k in backstages) == {};
        return Success(());
      }
      if |backstages| == 1 {
        var _ :- CleanUpNamespace(c, ns);
        HubIsNext(start, c.log, s);
      }
    }
    HubWasSeen(c.log, s);
    if Removing(start, s) && HubComesNext(start, s) {
      OperatorMayGo(c.log, s);
    }
    r := CleanUpNamespace(c, RHDH.namespace);
  }
}
