/** The GitOps stage and its clean-up, as functions on the world. */
module GitOpsSpec {
  import opened Kubernetes
  import opened Desired
  import opened ApiServer
  import opened KubeOperationsSpec

  /** Creates the AppProject, or repairs its spec. */
  function EnsureAppProject(o: Oracle, w: World, ns: string): Ret<()> {
    match Get(o, w, AppProjectKey(ns))
    case Fail(w1, e) => if e == NotFound then Create(o, w1, AppProjectKey(ns), APP_PROJECT) else Fail(w1, e)
    case Ok(w1, existing) =>
      if existing.body == APP_PROJECT.body then Ok(w1, ())
      else Update(o, w1, AppProjectKey(ns), existing, existing.(body := APP_PROJECT.body))
  }

  function HandleArgoCDProject(o: Oracle, w: World, ns: string): Ret<()> {
    var (w1, _) :- CheckCRDExists(o, w, APP_PROJECT_CRD);
    EnsureAppProject(o, w1, ns)
  }

  /** A failed look-up is skipped; a failed creation ends the loop. */
  function EnsureTasks(o: Oracle, w: World, names: seq<string>, ns: string): Ret<()>
    decreases |names|
  {
    if names == [] then Ok(w, ())
    else
      var r := Get(o, w, TaskKey(ns, names[0]));
      var (w1, _) :-
        if r.Fail? && r.error == NotFound then Create(o, r.w, TaskKey(ns, names[0]), NewTask(names[0])) else Ok(r.w, ());
      EnsureTasks(o, w1, names[1..], ns)
  }

  function HandleTektonTasks(o: Oracle, w: World, ns: string): Ret<()> {
    var (w1, _) :- CheckCRDExists(o, w, TASK_CRD);
    EnsureTasks(o, w1, TASKS, ns)
  }

  /** A Pipeline that had to be created is still reported as NotFound. */
  function HandleTektonPipeline(o: Oracle, w: World, ns: string): Ret<()> {
    var (w1, _) :- CheckCRDExists(o, w, PIPELINE_CRD);
    match Get(o, w1, PipelineKey(ns))
    case Ok(w2, _) => Ok(w2, ())
    case Fail(w2, e) =>
      if e == NotFound then
        var (w3, _) :- Create(o, w2, PipelineKey(ns), PIPELINE);
        Fail(w3, e)
      else Fail(w2, e)
  }

  function HandleGitOps(o: Oracle, w: World, ns: string): Ret<()> {
    var (w1, _) :- HandleArgoCDProject(o, w, ns);
    var (w2, _) :- HandleTektonTasks(o, w1, ns);
    HandleTektonPipeline(o, w2, ns)
  }

  // ---------- Clean-up ----------

  /** Removes the one labelled AppProject or Pipeline of the namespace; none or several stay. */
  function RemoveSingle(o: Oracle, w: World, kind: Kind, ns: string): Ret<()> {
    match CheckNamespaceExist(o, w, ns)
    case Fail(w1, _) => Ok(w1, ())
    case Ok(w1, _) =>
      match List(o, w1, kind, ns)
      case Fail(w2, _) => Ok(w2, ())
      case Ok(w2, items) => if |items| == 1 then Delete(o, w2, items[0]) else Ok(w2, ())
  }

  /** Removes all labelled Tasks; failures are only logged. */
  function HandleTektonTaskCleanUp(o: Oracle, w: World, ns: string): Ret<()> {
    match CheckNamespaceExist(o, w, ns)
    case Fail(w1, _) => Ok(w1, ())
    case Ok(w1, _) =>
      match List(o, w1, Task, ns)
      case Fail(w2, _) => Ok(w2, ())
      case Ok(w2, items) => Ok(RemoveAll(o, w2, items).0, ())
  }

  function HandleGitOpsCleanUp(o: Oracle, w: World, ns: string): Ret<()> {
    var (w1, _) :- RemoveSingle(o, w, AppProject, ns);
    var (w2, _) :- RemoveSingle(o, w1, Pipeline, ns);
    HandleTektonTaskCleanUp(o, w2, ns)
  }

  function ReconcileGitOps(o: Oracle, w: World, s: Spec): Ret<()> {
    if s.argoCDEnabled && s.tektonEnabled then HandleGitOps(o, w, s.argoCDNamespace)
    else HandleGitOpsCleanUp(o, w, s.argoCDNamespace)
  }
}

/** The GitOps stage and its clean-up. */
module GitOps {
  import opened Kubernetes
  import opened Desired
  import opened Audit
  import opened Client
  import opened KubeOperations
  import ApiServer
  import Kube = KubeOperationsSpec
  import Spec = GitOpsSpec

  lemma ProjectIsProper(s: Kubernetes.Spec, was: Obj)
    requires s.argoCDEnabled && s.tektonEnabled
    ensures Proper(s, AppProjectKey(s.argoCDNamespace), APP_PROJECT) && Labelled(APP_PROJECT.labels)
    ensures Proper(s, AppProjectKey(s.argoCDNamespace), was.(body := APP_PROJECT.body))
  {
  }

  /** The pass asks for GitOps resources in this namespace. */
  predicate Deploying(l: Log, ns: string) {
    && MayCreate(l, 5)
    && PassOf(l).now.spec.argoCDNamespace == ns
  }

  method HandleArgoCDProject(c: Cluster, ns: string) returns (r: Result<()>)
    modifies c
    ensures Agrees(Spec.HandleArgoCDProject(c.oracle, old(c.W()), ns), c.W(), r)
    ensures Follows(old(c.log), c.log)
    ensures StatusKept(c.oracle, old(c.cr), c.cr)
    ensures Clean(old(c.log)) && Deploying(old(c.log), ns) ==> Clean(c.log)
    ensures r.Success? ==> HasBody(AppProjectKey(ns), APP_PROJECT.body) in Facts(c.log)
    ensures r.Success? && Unscathed(old(c.log)) ==> Unscathed(c.log)
    ensures r.Failure? ==> Blames(c.log, r.error)
  {
    hide Clean, Facts, PassOf, DoneBefore, StatusIsOurs, Unscathed, Blames, APP_PROJECT, APP_PROJECT_CRD;
    hide Kube.CheckCRDExists, Spec.EnsureAppProject;
    var _ :- CheckCRDExists(c, APP_PROJECT_CRD);
    r := EnsureAppProject(c, ns);
  }

  method EnsureAppProject(c: Cluster, ns: string) returns (r: Result<()>)
    modifies c
    ensures Agrees(Spec.EnsureAppProject(c.oracle, old(c.W()), ns), c.W(), r)
    ensures Follows(old(c.log), c.log)
    ensures StatusKept(c.oracle, old(c.cr), c.cr)
    ensures Clean(old(c.log)) && Deploying(old(c.log), ns) ==> Clean(c.log)
    ensures r.Success? ==> HasBody(AppProjectKey(ns), APP_PROJECT.body) in Facts(c.log)
    ensures r.Success? && Unscathed(old(c.log)) ==> Unscathed(c.log)
    ensures r.Failure? ==> Blames(c.log, r.error)
  {
    hide Clean, Sound, Proper, Facts, PassOf, LastSight, DoneBefore, StatusIsOurs;
    hide ApiServer.Get, ApiServer.Create, ApiServer.Update, Untroubled, Tolerable, Blames;
    var found := c.Get(AppProjectKey(ns));
    if found.Failure? {
      if found.error != NotFound {
        return Failure(found.error);
      }
      if Deploying(old(c.log), ns) {
        ProjectIsProper(PassOf(old(c.log)).now.spec, APP_PROJECT);
        ProperIsSound(old(c.log), c.log, AppProjectKey(ns), APP_PROJECT);
      }
      r := c.Create(AppProjectKey(ns), APP_PROJECT);
      return;
    }
    if found.value.body == APP_PROJECT.body {
      return Success(());
    }
    if Deploying(old(c.log), ns) {
      ProjectIsProper(PassOf(old(c.log)).now.spec, found.value);
      RepairIsSound(old(c.log), c.log, AppProjectKey(ns), found.value);
    }
    r := c.Update(AppProjectKey(ns), found.value, found.value.(body := APP_PROJECT.body));
  }

  lemma TaskIsProper(s: Kubernetes.Spec, name: string)
    requires s.argoCDEnabled && s.tektonEnabled && name in TASKS
    ensures Proper(s, TaskKey(s.argoCDNamespace, name), NewTask(name)) && Labelled(NewTask(name).labels)
  {
    hide TASKS;
  }

  method EnsureTasks(c: Cluster, names: seq<string>, ns: string) returns (r: Result<()>)
    modifies c
    ensures Agrees(Spec.EnsureTasks(c.oracle, old(c.W()), names, ns), c.W(), r)
    ensures Follows(old(c.log), c.log)
    ensures StatusKept(c.oracle, old(c.cr), c.cr)
    ensures Clean(old(c.log)) && Deploying(old(c.log), ns) && (forall n :: n in names ==> n in TASKS) ==> Clean(c.log)
    ensures r.Success? && Unscathed(old(c.log)) ==> Unscathed(c.log)
    ensures r.Failure? ==> Blames(c.log, r.error)
  {
    hide Clean, Sound, Proper, Facts, PassOf, LastSight, DoneBefore, StatusIsOurs, TASKS, ApiServer.Get, ApiServer.Create;
    hide Untroubled, Tolerable, Blames;
    if Unscathed(c.log) {
      InstallingFailures(c.log);
    }
    var rest := names;
    while rest != []
      invariant forall n :: n in rest ==> n in names
      invariant Spec.EnsureTasks(c.oracle, c.W(), rest, ns) == Spec.EnsureTasks(c.oracle, old(c.W()), names, ns)
      invariant Follows(old(c.log), c.log)
      invariant StatusKept(c.oracle, old(c.cr), c.cr)
      invariant Clean(old(c.log)) && Deploying(old(c.log), ns) && (forall n :: n in names ==> n in TASKS) ==> Clean(c.log)
      invariant Unscathed(old(c.log)) ==> Unscathed(c.log)
      decreases |rest|
    {
      var found := c.Get(TaskKey(ns, rest[0]));
      if found.Failure? && found.error == NotFound {
        if Deploying(old(c.log), ns) && (forall n :: n in names ==> n in TASKS) {
          TaskIsProper(PassOf(old(c.log)).now.spec, rest[0]);
          ProperIsSound(old(c.log), c.log, TaskKey(ns, rest[0]), NewTask(rest[0]));
        }
        var _ :- c.Create(TaskKey(ns, rest[0]), NewTask(rest[0]));
      }
      rest := rest[1..];
    }
    return Success(());
  }

  method HandleTektonTasks(c: Cluster, ns: string) returns (r: Result<()>)
    modifies c
    ensures Agrees(Spec.HandleTektonTasks(c.oracle, old(c.W()), ns), c.W(), r)
    ensures Follows(old(c.log), c.log)
    ensures StatusKept(c.oracle, old(c.cr), c.cr)
    ensures Clean(old(c.log)) && Deploying(old(c.log), ns) ==> Clean(c.log)
    ensures r.Success? ==> Exists(CRDKey(TASK_CRD)) in Facts(c.log)
    ensures r.Success? && Unscathed(old(c.log)) ==> Unscathed(c.log)
    ensures r.Failure? ==> Blames(c.log, r.error)
  {
    hide Clean, Sound, DoneBefore, Kube.CheckCRDExists, Spec.EnsureTasks, Unscathed, Blames;
    var _ :- CheckCRDExists(c, TASK_CRD);
    r := EnsureTasks(c, TASKS, ns);
  }

  lemma PipelineIsProper(s: Kubernetes.Spec)
    requires s.argoCDEnabled && s.tektonEnabled
    ensures Proper(s, PipelineKey(s.argoCDNamespace), PIPELINE) && Labelled(PIPELINE.labels)
  {
  }

  method HandleTektonPipeline(c: Cluster, ns: string) returns (r: Result<()>)
    modifies c
    ensures Agrees(Spec.HandleTektonPipeline(c.oracle, old(c.W()), ns), c.W(), r)
    ensures Follows(old(c.log), c.log)
    ensures StatusKept(c.oracle, old(c.cr), c.cr)
    ensures Clean(old(c.log)) && Deploying(old(c.log), ns) ==> Clean(c.log)
    ensures r.Success? ==> Exists(CRDKey(PIPELINE_CRD)) in Facts(c.log) && Exists(PipelineKey(ns)) in Facts(c.log)
    ensures r.Success? && Unscathed(old(c.log)) ==> Unscathed(c.log)
    ensures r.Failure? ==> Blames(c.log, r.error)
  {
    hide Clean, Sound, Proper, Facts, PassOf, LastSight, DoneBefore, StatusIsOurs;
    hide Kube.CheckCRDExists, ApiServer.Get, ApiServer.Create, Untroubled, Tolerable;
    var _ :- CheckCRDExists(c, PIPELINE_CRD);
    var found := c.Get(PipelineKey(ns));
    if found.Success? {
      return Success(());
    }
    if found.error == NotFound {
      if Deploying(old(c.log), ns) {
        PipelineIsProper(PassOf(old(c.log)).now.spec);
        ProperIsSound(old(c.log), c.log, PipelineKey(ns), PIPELINE);
      }
      var _ :- c.Create(PipelineKey(ns), PIPELINE);
    }
    return Failure(found.error);
  }

  method HandleGitOps(c: Cluster, ns: string) returns (r: Result<()>)
    modifies c
    ensures Agrees(Spec.HandleGitOps(c.oracle, old(c.W()), ns), c.W(), r)
    ensures Follows(old(c.log), c.log)
    ensures StatusKept(c.oracle, old(c.cr), c.cr)
    ensures Clean(old(c.log)) && Deploying(old(c.log), ns) ==> Clean(c.log)
    ensures r.Success? ==>
      && HasBody(AppProjectKey(ns), APP_PROJECT.body) in Facts(c.log)
      && Exists(CRDKey(TASK_CRD)) in Facts(c.log)
      && Exists(CRDKey(PIPELINE_CRD)) in Facts(c.log)
      && Exists(PipelineKey(ns)) in Facts(c.log)
    ensures r.Success? && Unscathed(old(c.log)) ==> Unscathed(c.log)
    ensures r.Failure? ==> Blames(c.log, r.error)
  {
    hide Unscathed, Blames;
    hide Clean, Sound, DoneBefore, Spec.HandleArgoCDProject, Spec.HandleTektonTasks, Spec.HandleTektonPipeline;
    var _ :- HandleArgoCDProject(c, ns);
    var _ :- HandleTektonTasks(c, ns);
    r := HandleTektonPipeline(c, ns);
  }

  // ---------- Clean-up ----------

  lemma UnseenIsEnough(l: Log, kind: Kind, ns: string)
    ensures IsGone(NamespaceKey(ns)) in Facts(l) || CallFailed(LookUp(NamespaceKey(ns))) in Facts(l) ==>
      SingleGone(l, kind, ns) && TasksTried(l, ns)
  {
    hide Facts;
  }

  /** A list that failed, or that is NotFound and so counts as empty. */
  lemma NothingListed(l: Log, kind: Kind, ns: string)
    requires CallFailed(Listing(kind, ns)) in Facts(l) || Answered(kind, ns, {}) in Facts(l)
    ensures SingleGone(l, kind, ns) && (kind == Task ==> TasksTried(l, ns))
  {
    hide Facts;
    var f := Answered(kind, ns, {});
    assert f.Answered? && f.kind == kind && f.ns == ns && f.items == {};
  }

  lemma SingleMayGo(l: Log, l': Log, kind: Kind, ns: string, k: Key)
    requires Tidying(l, ns) && PassOf(l') == PassOf(l) && kind in {AppProject, Pipeline} && k.kind == kind && k.ns == ns
    ensures MayDelete(PassOf(l'), k)
  {
  }

  lemma TasksMayGo(l: Log, ns: string)
    requires Tidying(l, ns)
    ensures forall k: Key :: k.kind == Task && k.ns == ns ==> MayDelete(PassOf(l), k)
  {
  }

  lemma TasksAreTried(l: Log, ns: string, items: seq<Key>)
    requires Answered(Task, ns, set k | k in items) in Facts(l)
    requires forall k :: k in items ==> IsGone(k) in Facts(l) || CallFailed(Deletion(k)) in Facts(l)
    ensures TasksTried(l, ns)
  {
    hide Facts;
    var f := Answered(Task, ns, set k | k in items);
    assert f.Answered? && f.kind == Task && f.ns == ns;
  }

  method RemoveSingle(c: Cluster, kind: Kind, ns: string) returns (r: Result<()>)
    requires kind in {AppProject, Pipeline}
    modifies c
    ensures Agrees(Spec.RemoveSingle(c.oracle, old(c.W()), kind, ns), c.W(), r)
    ensures Follows(old(c.log), c.log)
    ensures StatusKept(c.oracle, old(c.cr), c.cr)
    ensures Clean(old(c.log)) && Tidying(old(c.log), ns) ==> Clean(c.log)
    ensures r.Success? ==> SingleGone(c.log, kind, ns)
    ensures r.Success? && Tidying(old(c.log), ns) && Untroubled(old(c.log)) ==> Untroubled(c.log)
    ensures r.Failure? ==> Blames(c.log, r.error)
  {
    hide Clean, Sound, Facts, LastSight, PassOf, DoneBefore, StatusIsOurs, Untroubled, Tolerable, Blames, SingleGone;
    hide Tidying, MayDelete, Kube.CheckNamespaceExist, ApiServer.List, ApiServer.Delete;
    if Tidying(c.log, ns) {
      TidyingFailures(c.log, kind, ns);
    }
    var check := CheckNamespaceExist(c, ns);
    if check.Failure? {
      UnseenIsEnough(c.log, kind, ns);
      return Success(());
    }
    var items := c.List(kind, ns);
    if items.Failure? {
      NothingListed(c.log, kind, ns);
      return Success(());
    }
    if |items.value| != 1 {
      SingleIsGone(c.log, kind, ns, items.value);
      return Success(());
    }
    assert items.value[0] in items.value;
    if Tidying(old(c.log), ns) {
      SingleMayGo(old(c.log), c.log, kind, ns, items.value[0]);
      DeletionIsSound(c.log, c.log, items.value[0]);
    }
    r := c.Delete(items.value[0]);
    if r.Success? {
      SingleIsGone(c.log, kind, ns, items.value);
    }
  }

  method HandleTektonTaskCleanUp(c: Cluster, ns: string) returns (r: Result<()>)
    modifies c
    ensures Agrees(Spec.HandleTektonTaskCleanUp(c.oracle, old(c.W()), ns), c.W(), r)
    ensures Follows(old(c.log), c.log)
    ensures StatusKept(c.oracle, old(c.cr), c.cr)
    ensures Clean(old(c.log)) && Tidying(old(c.log), ns) ==> Clean(c.log)
    ensures r.Success? && TasksTried(c.log, ns)
    ensures r.Success? && Tidying(old(c.log), ns) && Untroubled(old(c.log)) ==> Untroubled(c.log)
  {
    hide Clean, Sound, Facts, LastSight, PassOf, DoneBefore, StatusIsOurs, Untroubled, Tolerable, Blames, TasksTried;
    hide Kube.CheckNamespaceExist, ApiServer.List, Kube.RemoveAll, MayDelete;
    if Tidying(c.log, ns) {
      TidyingFailures(c.log, Task, ns);
      TasksMayGo(c.log, ns);
    }
    var check := CheckNamespaceExist(c, ns);
    if check.Failure? {
      UnseenIsEnough(c.log, Task, ns);
      return Success(());
    }
    var items := c.List(Task, ns);
    if items.Failure? {
      NothingListed(c.log, Task, ns);
      return Success(());
    }
    var _ := RemoveAll(c, items.value);
    TasksAreTried(c.log, ns, items.value);
    return Success(());
  }

  method HandleGitOpsCleanUp(c: Cluster, ns: string) returns (r: Result<()>)
    modifies c
    ensures Agrees(Spec.HandleGitOpsCleanUp(c.oracle, old(c.W()), ns), c.W(), r)
    ensures Follows(old(c.log), c.log)
    ensures StatusKept(c.oracle, old(c.cr), c.cr)
    ensures Clean(old(c.log)) && Tidying(old(c.log), ns) ==> Clean(c.log)
    ensures r.Success? ==> SingleGone(c.log, AppProject, ns) && SingleGone(c.log, Pipeline, ns) && TasksTried(c.log, ns)
    ensures r.Success? && Tidying(old(c.log), ns) && Untroubled(old(c.log)) ==> Untroubled(c.log)
    ensures r.Failure? ==> Blames(c.log, r.error)
  {
    hide Clean, Sound, Facts, DoneBefore, StatusIsOurs, Untroubled, Blames, SingleGone, TasksTried;
    hide Spec.RemoveSingle, Spec.HandleTektonTaskCleanUp;
    var _ :- RemoveSingle(c, AppProject, ns);
    ghost var first := c.log;
    var _ :- RemoveSingle(c, Pipeline, ns);
    ghost var second := c.log;
    r := HandleTektonTaskCleanUp(c, ns);
    SingleGoneStays(first, c.log, AppProject, ns);
    SingleGoneStays(second, c.log, Pipeline, ns);
  }

  method ReconcileGitOps(c: Cluster, s: Kubernetes.Spec) returns (r: Result<()>)
    modifies c
    ensures Agrees(Spec.ReconcileGitOps(c.oracle, old(c.W()), s), c.W(), r)
    ensures Follows(old(c.log), c.log)
    ensures StatusKept(c.oracle, old(c.cr), c.cr)
    ensures Clean(old(c.log)) && Entering(old(c.log), 5, s) ==> Clean(c.log)
    ensures r.Success? ==> GitOpsDone(c.log, s)
    ensures r.Success? && Untroubled(old(c.log)) && Entering(old(c.log), 5, s) ==> Untroubled(c.log)
    ensures r.Failure? ==> Blames(c.log, r.error)
  {
    hide Clean, Sound, DoneBefore, Untroubled, Blames, SingleGone, TasksTried, Spec.HandleGitOps, Spec.HandleGitOpsCleanUp;
    if s.argoCDEnabled && s.tektonEnabled {
      r := HandleGitOps(c, s.argoCDNamespace);
    } else {
      r := HandleGitOpsCleanUp(c, s.argoCDNamespace);
    }
  }
}
