/** The Knative stage and its clean-up, as functions on the world. */
module KnativeSpec {
  import opened Kubernetes
  import opened Desired
  import opened ApiServer
  import opened KubeOperationsSpec

  /** Any error of the check, not just NotFound, leads to an attempt to create the namespace. */
  function EnsureKnativeNamespace(o: Oracle, w: World, ns: string): Ret<()> {
    var check := CheckNamespaceExist(o, w, ns);
    if check.Ok? then Ok(check.w, ()) else CreateNamespace(o, check.w, ns)
  }

  /** An error of creating the resource is only logged. */
  function EnsureKnativeResource(o: Oracle, w: World, k: Key): Ret<()>
    requires k.kind in {KnativeEventing, KnativeServing}
  {
    match Get(o, w, k)
    case Ok(w1, _) => Ok(w1, ())
    case Fail(w1, e) =>
      if e == NotFound then Ok(Create(o, w1, k, KNATIVE_CR).w, ())
      else Fail(w1, e)
  }

  /** One of the two Knative resources, in a namespace of its own. */
  function HandleKnativeResource(o: Oracle, w: World, ns: string, k: Key): Ret<()>
    requires k.kind in {KnativeEventing, KnativeServing}
  {
    var (w1, _) :- EnsureKnativeNamespace(o, w, ns);
    EnsureKnativeResource(o, w1, k)
  }

  function HandleKnativeCR(o: Oracle, w: World): Ret<()> {
    var (w1, _) :- CheckCRDExists(o, w, EVENTING_CRD);
    var (w2, _) :- HandleKnativeResource(o, w1, EVENTING, EVENTING_KEY);
    var (w3, _) :- CheckCRDExists(o, w2, SERVING_CRD);
    HandleKnativeResource(o, w3, SERVING, SERVING_KEY)
  }

  function ReconcileKnative(o: Oracle, w: World, s: Spec): Ret<()> {
    if !s.serverless then Ok(w, ())
    else
      var (w1, _) :- HandleOperatorInstallation(o, w, SERVERLESS);
      HandleKnativeCR(o, w1)
  }

  // ---------- Clean-up ----------

  function HandleKnativeCleanUp(o: Oracle, w: World): Ret<()> {
    var (w1, _) :- CleanUpNamespace(o, w, EVENTING);
    var (w2, _) :- CleanUpNamespace(o, w1, SERVING);
    CleanUpNamespace(o, w2, SERVERLESS.namespace)
  }
}

/** The Knative stage and its clean-up. */
module Knative {
  import opened Kubernetes
  import opened Desired
  import opened Audit
  import opened Client
  import opened KubeOperations
  import ApiServer
  import Kube = KubeOperationsSpec
  import Spec = KnativeSpec

  lemma KnativeIsProper(s: Kubernetes.Spec, k: Key)
    requires k in {EVENTING_KEY, SERVING_KEY}
    ensures Proper(s, k, KNATIVE_CR) && StageOf(k) == 2 && Labelled(KNATIVE_CR.labels)
  {
  }

  method EnsureKnativeNamespace(c: Cluster, ns: string) returns (r: Result<()>)
    modifies c
    ensures Agrees(Spec.EnsureKnativeNamespace(c.oracle, old(c.W()), ns), c.W(), r)
    ensures Follows(old(c.log), c.log)
    ensures StatusKept(c.oracle, old(c.cr), c.cr)
    ensures Clean(old(c.log)) && MayCreate(old(c.log), 2) && ns in {EVENTING, SERVING} ==> Clean(c.log)
    ensures r.Success? && Unscathed(old(c.log)) && ns in {EVENTING, SERVING} ==> Unscathed(c.log)
    ensures r.Failure? ==> Blames(c.log, r.error)
  {
    hide Untroubled, Blames, Facts;
    hide Clean, DoneBefore, COMPONENTS, MayInstall, Kube.CheckNamespaceExist, Kube.CreateNamespace;
    var check := CheckNamespaceExist(c, ns);
    if check.Success? {
      return Success(());
    }
    r := CreateNamespace(c, ns);
  }

  /** The resource itself; its creation may fail. */
  method EnsureKnativeResource(c: Cluster, k: Key) returns (r: Result<()>)
    requires k.kind in {KnativeEventing, KnativeServing} && k in {EVENTING_KEY, SERVING_KEY}
    modifies c
    ensures Agrees(Spec.EnsureKnativeResource(c.oracle, old(c.W()), k), c.W(), r)
    ensures Follows(old(c.log), c.log)
    ensures StatusKept(c.oracle, old(c.cr), c.cr)
    ensures Clean(old(c.log)) && MayCreate(old(c.log), 2) ==> Clean(c.log)
    ensures r.Success? && Unscathed(old(c.log)) ==> Unscathed(c.log)
    ensures r.Failure? ==> Blames(c.log, r.error)
  {
    hide Clean, Sound, Proper, DoneBefore, StatusIsOurs, Untroubled, Tolerable, Blames, LastSight, Facts, PassOf;
    hide ApiServer.Get, ApiServer.Create, EVENTING_KEY, SERVING_KEY, EVENTING, SERVING, MayCreate, StageOf, Labelled;
    if Unscathed(c.log) {
      InstallingFailures(c.log);
    }
    var found := c.Get(k);
    if found.Failure? {
      if found.error != NotFound {
        return Failure(found.error);
      }
      if MayCreate(old(c.log), 2) {
        StageGoesOn(old(c.log), c.log, 2);
        KnativeIsProper(PassOf(old(c.log)).now.spec, k);
        ProperIsSound(old(c.log), c.log, k, KNATIVE_CR);
      }
      var _ := c.Create(k, KNATIVE_CR);
    }
    return Success(());
  }

  method HandleKnativeResource(c: Cluster, ns: string, k: Key) returns (r: Result<()>)
    requires k.kind in {KnativeEventing, KnativeServing}
    requires k in {EVENTING_KEY, SERVING_KEY} && ns in {EVENTING, SERVING}
    modifies c
    ensures Agrees(Spec.HandleKnativeResource(c.oracle, old(c.W()), ns, k), c.W(), r)
    ensures Follows(old(c.log), c.log)
    ensures StatusKept(c.oracle, old(c.cr), c.cr)
    ensures Clean(old(c.log)) && MayCreate(old(c.log), 2) ==> Clean(c.log)
    ensures r.Success? && Unscathed(old(c.log)) ==> Unscathed(c.log)
    ensures r.Failure? ==> Blames(c.log, r.error)
  {
    hide Clean, DoneBefore, StatusIsOurs, Unscathed, Blames, Facts, EVENTING_KEY, SERVING_KEY, EVENTING, SERVING;
    hide Spec.EnsureKnativeNamespace, Spec.EnsureKnativeResource;
    var _ :- EnsureKnativeNamespace(c, ns);
    r := EnsureKnativeResource(c, k);
  }

  method HandleKnativeCR(c: Cluster) returns (r: Result<()>)
    modifies c
    ensures Agrees(Spec.HandleKnativeCR(c.oracle, old(c.W())), c.W(), r)
    ensures Follows(old(c.log), c.log)
    ensures StatusKept(c.oracle, old(c.cr), c.cr)
    ensures Clean(old(c.log)) && MayCreate(old(c.log), 2) ==> Clean(c.log)
    ensures r.Success? ==> Exists(CRDKey(EVENTING_CRD)) in Facts(c.log) && Exists(CRDKey(SERVING_CRD)) in Facts(c.log)
    ensures r.Success? && Unscathed(old(c.log)) ==> Unscathed(c.log)
    ensures r.Failure? ==> Blames(c.log, r.error)
  {
    hide Unscathed, Blames;
    hide Kube.CheckCRDExists, Spec.HandleKnativeResource, Clean, DoneBefore, Facts, PassOf, StatusIsOurs, EVENTING_CRD, SERVING_CRD;
    var _ :- CheckCRDExists(c, EVENTING_CRD);
    var _ :- HandleKnativeResource(c, EVENTING, EVENTING_KEY);
    var _ :- CheckCRDExists(c, SERVING_CRD);
    r := HandleKnativeResource(c, SERVING, SERVING_KEY);
  }

  method ReconcileKnative(c: Cluster, s: Kubernetes.Spec) returns (r: Result<()>)
    modifies c
    ensures Agrees(Spec.ReconcileKnative(c.oracle, old(c.W()), s), c.W(), r)
    ensures Follows(old(c.log), c.log)
    ensures StatusKept(c.oracle, old(c.cr), c.cr)
    ensures Clean(old(c.log)) && Entering(old(c.log), 2, s) ==> Clean(c.log)
    ensures r.Success? ==> KnativeDone(c.log, s)
    ensures r.Success? && Unscathed(old(c.log)) ==> Unscathed(c.log)
    ensures r.Failure? ==> Blames(c.log, r.error)
  {
    hide Kube.HandleOperatorInstallation, Spec.HandleKnativeCR, Unscathed, Blames;
    if !s.serverless {
      return Success(());
    }
    var _ :- HandleOperatorInstallation(c, SERVERLESS);
    r := HandleKnativeCR(c);
  }

  // ---------- Clean-up ----------

  method HandleKnativeCleanUp(c: Cluster) returns (r: Result<()>)
    modifies c
    ensures Agrees(Spec.HandleKnativeCleanUp(c.oracle, old(c.W())), c.W(), r)
    ensures Follows(old(c.log), c.log)
    ensures StatusKept(c.oracle, old(c.cr), c.cr)
    ensures Clean(old(c.log)) && PassOf(old(c.log)).InPass? && PassOf(old(c.log)).start.deleting ==> Clean(c.log)
    ensures r.Success? ==>
      && Settled(c.log, NamespaceKey(EVENTING))
      && Settled(c.log, NamespaceKey(SERVING))
      && Settled(c.log, NamespaceKey(SERVERLESS.namespace))
    ensures r.Success? && Untroubled(old(c.log)) ==> Untroubled(c.log)
    ensures r.Failure? ==> Blames(c.log, r.error)
  {
    hide Kube.CleanUpNamespace, Untroubled, Blames;
    var _ :- CleanUpNamespace(c, EVENTING);
    var _ :- CleanUpNamespace(c, SERVING);
    r := CleanUpNamespace(c, SERVERLESS.namespace);
  }
}
