/** The serverless logic stage and its clean-up, as functions on the world. */
module ServerlessLogicSpec {
  import opened Kubernetes
  import opened Desired
  import opened ApiServer
  import opened KubeOperationsSpec

  function HandleServerlessLogicCR(o: Oracle, w: World, s: Spec): Ret<()> {
    var ns := s.platform.namespace;
    var (w1, _) :- CheckNamespaceExist(o, w, ns);
    var (w2, _) :- GetOrCreate(o, w1, CLUSTER_PLATFORM_KEY, ClusterPlatform(ns));
    GetOrCreate(o, w2, PlatformKey(ns), Platform(s))
  }

  /** A missing workflow namespace is created, and still reported as NotFound. */
  function EnsureWorkflowNamespace(o: Oracle, w: World, ns: string): Ret<()> {
    match CheckNamespaceExist(o, w, ns)
    case Ok(w1, _) => Ok(w1, ())
    case Fail(w1, e) =>
      if e == NotFound then
        var (w2, _) :- CreateNamespace(o, w1, ns);
        Fail(w2, e)
      else Fail(w1, e)
  }

  function ReconcileServerlessLogic(o: Oracle, w: World, s: Spec): Ret<()> {
    if !s.serverlessLogic then Ok(w, ())
    else
      var (w1, _) :- EnsureWorkflowNamespace(o, w, s.platform.namespace);
      var (w2, _) :- HandleOperatorInstallation(o, w1, LOGIC);
      var (w3, _) :- CheckCRDExists(o, w2, CLUSTER_PLATFORM_CRD);
      HandleServerlessLogicCR(o, w3, s)
  }

  // ---------- Clean-up ----------

  /** Both kinds are attempted, whatever becomes of the first. */
  function HandleRemovalOfOSLCRs(o: Oracle, w: World, ns: string): Ret<()> {
    var r1 := RemoveCustomResourcesInNamespace(o, w, SonataFlowPlatform, ns);
    var r2 := RemoveCustomResourcesInNamespace(o, r1.w, SonataFlowClusterPlatform, ns);
    var errors := (if r1.Fail? then [r1.error] else []) + (if r2.Fail? then [r2.error] else []);
    if errors == [] then Ok(r2.w, ()) else Fail(r2.w, Aggregate(errors))
  }

  function HandleServerlessLogicCleanUp(o: Oracle, w: World, ns: string): Ret<()> {
    var (w1, _) :- HandleRemovalOfOSLCRs(o, w, ns);
    CleanUpNamespace(o, w1, LOGIC.namespace)
  }
}

/** The serverless logic stage and its clean-up. */
module ServerlessLogic {
  import opened Kubernetes
  import opened Desired
  import opened Audit
  import opened Client
  import opened KubeOperations
  import Kube = KubeOperationsSpec
  import Spec = ServerlessLogicSpec

  lemma ClusterPlatformFits()
    ensures CLUSTER_PLATFORM_KEY.kind == SonataFlowClusterPlatform
  {
  }

  lemma PlatformsAreProper(s: Kubernetes.Spec)
    ensures Proper(s, CLUSTER_PLATFORM_KEY, ClusterPlatform(s.platform.namespace))
    ensures Proper(s, PlatformKey(s.platform.namespace), Platform(s))
    ensures StageOf(CLUSTER_PLATFORM_KEY) == 1 && StageOf(PlatformKey(s.platform.namespace)) == 1
  {
  }

  method HandleServerlessLogicCR(c: Cluster, s: Kubernetes.Spec) returns (r: Result<()>)
    modifies c
    ensures Agrees(Spec.HandleServerlessLogicCR(c.oracle, old(c.W()), s), c.W(), r)
    ensures Follows(old(c.log), c.log)
    ensures StatusKept(c.oracle, old(c.cr), c.cr)
    ensures Clean(old(c.log)) && Creating(old(c.log), 1, s) ==> Clean(c.log)
    ensures r.Success? ==>
      && Exists(CLUSTER_PLATFORM_KEY) in Facts(c.log)
      && Exists(PlatformKey(s.platform.namespace)) in Facts(c.log)
    ensures r.Success? && Unscathed(old(c.log)) ==> Unscathed(c.log)
    ensures r.Failure? ==> Blames(c.log, r.error)
  {
    hide Untroubled, Blames, PLATFORM_NAME;
    hide Sound, Clean, Proper, DoneBefore, StageOf, CLUSTER_PLATFORM_KEY, Kube.CheckNamespaceExist, Kube.GetOrCreate;
    ClusterPlatformFits();
    PlatformsAreProper(s);
    var ns := s.platform.namespace;
    var _ :- CheckNamespaceExist(c, ns);
    var _ :- GetOrCreate(c, CLUSTER_PLATFORM_KEY, ClusterPlatform(ns));
    r := GetOrCreate(c, PlatformKey(ns), Platform(s));
  }

  method EnsureWorkflowNamespace(c: Cluster, ns: string) returns (r: Result<()>)
    modifies c
    ensures Agrees(Spec.EnsureWorkflowNamespace(c.oracle, old(c.W()), ns), c.W(), r)
    ensures Follows(old(c.log), c.log)
    ensures StatusKept(c.oracle, old(c.cr), c.cr)
    ensures Clean(old(c.log)) && MayMake(old(c.log), ns) && MayAdopt(old(c.log), ns) ==> Clean(c.log)
    ensures r.Success? && Unscathed(old(c.log)) ==> Unscathed(c.log)
    ensures r.Failure? ==> Blames(c.log, r.error)
  {
    hide Kube.CheckNamespaceExist, Kube.CreateNamespace, Untroubled, Blames;
    var check := CheckNamespaceExist(c, ns);
    if check.Success? {
      return Success(());
    }
    if check.error == NotFound {
      var _ :- CreateNamespace(c, ns);
    }
    return Failure(check.error);
  }

  method ReconcileServerlessLogic(c: Cluster, s: Kubernetes.Spec) returns (r: Result<()>)
    modifies c
    ensures Agrees(Spec.ReconcileServerlessLogic(c.oracle, old(c.W()), s), c.W(), r)
    ensures Follows(old(c.log), c.log)
    ensures StatusKept(c.oracle, old(c.cr), c.cr)
    ensures Clean(old(c.log)) && Entering(old(c.log), 1, s) ==> Clean(c.log)
    ensures r.Success? ==> LogicDone(c.log, s)
    ensures r.Success? && Unscathed(old(c.log)) ==> Unscathed(c.log)
    ensures r.Failure? ==> Blames(c.log, r.error)
  {
    hide Unscathed, Blames;
    hide Sound, Clean, Facts, StatusIsOurs, CLUSTER_PLATFORM_KEY, CLUSTER_PLATFORM_CRD;
    hide Spec.EnsureWorkflowNamespace, Kube.HandleOperatorInstallation, Kube.CheckCRDExists;
    hide Spec.HandleServerlessLogicCR;
    if !s.serverlessLogic {
      return Success(());
    }
    var _ :- EnsureWorkflowNamespace(c, s.platform.namespace);
    var _ :- HandleOperatorInstallation(c, LOGIC);
    var _ :- CheckCRDExists(c, CLUSTER_PLATFORM_CRD);
    r := HandleServerlessLogicCR(c, s);
  }

  // ---------- Clean-up ----------

  method HandleRemovalOfOSLCRs(c: Cluster, ns: string) returns (r: Result<()>)
    modifies c
    ensures Agrees(Spec.HandleRemovalOfOSLCRs(c.oracle, old(c.W()), ns), c.W(), r)
    ensures Follows(old(c.log), c.log)
    ensures StatusKept(c.oracle, old(c.cr), c.cr)
    ensures Clean(old(c.log)) && PassOf(old(c.log)).InPass? && Removing(old(c.log), PassOf(old(c.log)).now.spec) &&
      PassOf(old(c.log)).now.spec.platform.namespace == ns && KnativeCleared(old(c.log))
      ==> Clean(c.log)
    ensures r.Success? ==> Cleared(c.log, SonataFlowPlatform, ns) && Cleared(c.log, SonataFlowClusterPlatform, "")
    ensures r.Success? && Untroubled(old(c.log)) ==> Untroubled(c.log)
    ensures r.Failure? ==> r.error.Aggregate?
  {
    hide Untroubled;
    hide Kube.RemoveCustomResourcesInNamespace, Clean, Facts, PassOf, DoneBefore, StatusIsOurs, Cleared;
    var r1 := RemoveCustomResourcesInNamespace(c, SonataFlowPlatform, ns);
    ghost var first := c.log;
    var r2 := RemoveCustomResourcesInNamespace(c, SonataFlowClusterPlatform, ns);
    if r1.Success? {
      ClearedStays(first, c.log, SonataFlowPlatform, ns);
    }
    var errors := (if r1.Failure? then [r1.error] else []) + (if r2.Failure? then [r2.error] else []);
    return if errors == [] then Success(()) else Failure(Aggregate(errors));
  }

  method HandleServerlessLogicCleanUp(c: Cluster, s: Kubernetes.Spec) returns (r: Result<()>)
    modifies c
    ensures Agrees(Spec.HandleServerlessLogicCleanUp(c.oracle, old(c.W()), s.platform.namespace), c.W(), r)
    ensures Follows(old(c.log), c.log)
    ensures StatusKept(c.oracle, old(c.cr), c.cr)
    ensures Clean(old(c.log)) && Removing(old(c.log), s) && KnativeCleared(old(c.log)) ==> Clean(c.log)
    ensures r.Success? ==>
      && Cleared(c.log, SonataFlowPlatform, s.platform.namespace)
      && Cleared(c.log, SonataFlowClusterPlatform, "")
      && Settled(c.log, NamespaceKey(LOGIC.namespace))
    ensures r.Success? && Untroubled(old(c.log)) ==> Untroubled(c.log)
    ensures r.Failure? ==> r.error.Aggregate? || Blames(c.log, r.error)
  {
    hide Spec.HandleRemovalOfOSLCRs, Kube.CleanUpNamespace, Untroubled, Blames;
    var _ :- HandleRemovalOfOSLCRs(c, s.platform.namespace);
    r := CleanUpNamespace(c, LOGIC.namespace);
  }
}
