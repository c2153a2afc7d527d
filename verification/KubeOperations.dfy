/** What the cluster primitives of the `kube` package do, as functions on the world. */
module KubeOperationsSpec {
  import opened Kubernetes
  import opened Desired
  import opened ApiServer

  /** The namespace exists; on the way it is adopted by adding the operator's label, and an
      error of that update is only logged. */
  function CheckNamespaceExist(o: Oracle, w: World, ns: string): Ret<()> {
    var k := NamespaceKey(ns);
    var (w1, obj) :- Get(o, w, k);
    if Labelled(obj.labels) then Ok(w1, ())
    else Ok(Update(o, w1, k, obj, Adopted(obj)).w, ())
  }

  function CreateNamespace(o: Oracle, w: World, ns: string): Ret<()> {
    Create(o, w, NamespaceKey(ns), NEW_NAMESPACE)
  }

  /** Any error of the look-up, not just NotFound, leads to an attempt to create the group. */
  function GetOperatorGroup(o: Oracle, w: World, c: Component): Ret<()> {
    var r := Get(o, w, GroupKey(c));
    if r.Ok? then Ok(r.w, ())
    else Create(o, r.w, GroupKey(c), NEW_GROUP)
  }

  function InstallSubscriptionAndOperatorGroup(o: Oracle, w: World, c: Component): Ret<()> {
    var (w1, _) :- GetOperatorGroup(o, w, c);
    Create(o, w1, SubscriptionKey(c), CreateSubscriptionObject(c))
  }

  /** None when the Subscription does not exist. */
  function CheckSubscriptionExists(o: Oracle, w: World, c: Component): Ret<Option<Obj>> {
    match Get(o, w, SubscriptionKey(c))
    case Ok(w1, sub) => Ok(w1, Some(sub))
    case Fail(w1, e) => if e == NotFound then Ok(w1, None) else Fail(w1, e)
  }

  function ApproveInstallPlan(o: Oracle, w: World, c: Component, name: string): Ret<()>
    requires c in COMPONENTS
  {
    var k := PlanKey(c, name);
    var (w1, plan) :- Get(o, w, k);
    if plan.body.approved then Ok(w1, ())
    else
      Update(o, w1, k, plan, Approved(plan))
  }

  function CheckCRDExists(o: Oracle, w: World, name: string): Ret<()> {
    var (w1, _) :- Get(o, w, CRDKey(name));
    Ok(w1, ())
  }

  /** Many resources are handled alike: created if the look-up says NotFound, otherwise left alone. */
  function GetOrCreate(o: Oracle, w: World, k: Key, obj: Obj): Ret<()>
    requires Fits(k.kind, obj.body) && Labelled(obj.labels)
    requires k.kind !in {Namespace, OperatorGroup, Subscription}
  {
    match Get(o, w, k)
    case Ok(w1, _) => Ok(w1, ())
    case Fail(w1, e) => if e == NotFound then Create(o, w1, k, obj) else Fail(w1, e)
  }

  function CleanUpNamespace(o: Oracle, w: World, ns: string): Ret<()> {
    var k := NamespaceKey(ns);
    match Get(o, w, k)
    case Fail(w1, e) => if e == NotFound then Ok(w1, ()) else Fail(w1, e)
    case Ok(w1, obj) =>
      if !Labelled(obj.labels) then Ok(w1, ())
      else match Delete(o, w1, k)
           case Ok(w2, _) => Ok(w2, ())
           case Fail(w2, e) => if e == NotFound then Ok(w2, ()) else Fail(w2, e)
  }

  // ---------- Bulk removal ----------

  /** Deletes the items in turn, collecting the errors. */
  function RemoveAll(o: Oracle, w: World, items: seq<Key>): (r: (World, seq<Error>))
    decreases |items|
  {
    if items == [] then (w, [])
    else
      var d := Delete(o, w, items[0]);
      var rest := RemoveAll(o, d.w, items[1..]);
      (rest.0, (if d.Fail? then [d.error] else []) + rest.1)
  }

  function RemoveCustomResourcesInNamespace(o: Oracle, w: World, kind: Kind, ns: string): Ret<()> {
    match List(o, w, kind, ns)
    case Fail(w1, e) => if e == NotFound then Ok(w1, ()) else Fail(w1, e)
    case Ok(w1, items) =>
      var r := RemoveAll(o, w1, items);
      if r.1 == [] then Ok(r.0, ()) else Fail(r.0, Aggregate(r.1))
  }

  // ---------- The installer, of which the source has three copies ----------

  /** The namespace check of an installer.  `Some(r)` is an early return. */
  function EnsureNamespace(o: Oracle, w: World, c: Component): (World, Option<Ret<()>>) {
    match CheckNamespaceExist(o, w, c.namespace)
    case Ok(w1, _) => (w1, None)
    case Fail(w1, e) =>
      if e == NotFound then
        match CreateNamespace(o, w1, c.namespace)
        case Fail(w2, e2) => (w2, Some(if c.strict then Ok(w2, ()) else Fail(w2, e2)))
        case Ok(w2, _) => (w2, if c.strict then Some(Fail(w2, e)) else None)
      else (w1, if c.strict then Some(Fail(w1, e)) else None)
  }

  /** Installs the Subscription, or repairs its spec; the result is the Subscription as it was
      read, with its new spec. */
  function EnsureSubscription(o: Oracle, w: World, c: Component): Ret<Option<Obj>>
    requires c in COMPONENTS
  {
    var (w1, found) :- CheckSubscriptionExists(o, w, c);
    match found
    case None =>
      var (w2, _) :- InstallSubscriptionAndOperatorGroup(o, w1, c);
      Ok(w2, None)
    case Some(sub) =>
      if sub.body.spec == CreateSubscriptionSpec(c) then Ok(w1, Some(sub))
      else
        var fixed := Repaired(c, sub);
        var (w2, _) :- Update(o, w1, SubscriptionKey(c), sub, fixed);
        Ok(w2, Some(fixed))
  }

  /** Approves the plan of a Subscription that resolved to the pinned version. */
  function ApproveIfPinned(o: Oracle, w: World, c: Component, sub: Option<Obj>): Ret<()>
    requires c in COMPONENTS
    requires sub.Some? ==> sub.value.body.SubscriptionBody?
  {
    if sub.Some? && sub.value.body.status.Resolved? && sub.value.body.status.currentCSV == c.csv then
      ApproveInstallPlan(o, w, c, sub.value.body.status.installPlan)
    else Ok(w, ())
  }

  function InstallOperator(o: Oracle, w: World, c: Component): Ret<()>
    requires c in COMPONENTS
  {
    var (w1, sub) :- EnsureSubscription(o, w, c);
    ApproveIfPinned(o, w1, c, sub)
  }

  function HandleOperatorInstallation(o: Oracle, w: World, c: Component): Ret<()>
    requires c in COMPONENTS
  {
    var (w1, early) := EnsureNamespace(o, w, c);
    if early.Some? then early.value else InstallOperator(o, w1, c)
  }
}

/** The cluster primitives of the `kube` package. */
module KubeOperations {
  import opened Kubernetes
  import opened Desired
  import opened Audit
  import opened Client
  import ApiServer
  import Spec = KubeOperationsSpec

  method CheckNamespaceExist(c: Cluster, ns: string) returns (r: Result<()>)
    modifies c
    ensures Agrees(Spec.CheckNamespaceExist(c.oracle, old(c.W()), ns), c.W(), r)
    ensures Follows(old(c.log), c.log)
    ensures StatusKept(c.oracle, old(c.cr), c.cr)
    ensures Clean(old(c.log)) && MayAdopt(old(c.log), ns) ==> Clean(c.log)
    ensures r.Success? ==> Exists(NamespaceKey(ns)) in Facts(c.log)
    ensures r.Failure? ==> Blames(c.log, r.error)
    ensures r.Failure? && r.error != NotFound ==> CallFailed(LookUp(NamespaceKey(ns))) in Facts(c.log)
    ensures r.Failure? && r.error == NotFound ==> IsGone(NamespaceKey(ns)) in Facts(c.log)
    ensures var p, k := PassOf(old(c.log)), NamespaceKey(ns);
      Untroubled(old(c.log)) && Tolerable(p, Change(k)) && (r.Success? || r.error == NotFound || Tolerable(p, LookUp(k)))
      ==> Untroubled(c.log)
  {
    hide ApiServer.Get, ApiServer.Update, Untroubled, Tolerable, Facts, PassOf, Blames;
    var obj :- c.Get(NamespaceKey(ns));
    if !Labelled(obj.labels) {
      var _ := c.Update(NamespaceKey(ns), obj, Adopted(obj));
    }
    return Success(());
  }

  method CreateNamespace(c: Cluster, ns: string) returns (r: Result<()>)
    modifies c
    ensures Agrees(Spec.CreateNamespace(c.oracle, old(c.W()), ns), c.W(), r)
    ensures Follows(old(c.log), c.log)
    ensures StatusKept(c.oracle, old(c.cr), c.cr)
    ensures Clean(old(c.log)) && MayMake(old(c.log), ns) ==> Clean(c.log)
    ensures r.Failure? ==> Blames(c.log, r.error)
    ensures Untroubled(old(c.log)) && (r.Success? || Tolerable(PassOf(old(c.log)), Creation(NamespaceKey(ns)))) ==> Untroubled(c.log)
    ensures r.Success? ==> Blames(c.log, NotFound)
  {
    hide ApiServer.Create;
    r := c.Create(NamespaceKey(ns), NEW_NAMESPACE);
  }

  method GetOperatorGroup(c: Cluster, p: Component) returns (r: Result<()>)
    modifies c
    ensures Agrees(Spec.GetOperatorGroup(c.oracle, old(c.W()), p), c.W(), r)
    ensures Follows(old(c.log), c.log)
    ensures StatusKept(c.oracle, old(c.cr), c.cr)
    ensures Clean(old(c.log)) && MayInstall(old(c.log), p) && p in COMPONENTS ==> Clean(c.log)
    ensures r.Success? && Unscathed(old(c.log)) ==> Unscathed(c.log)
    ensures r.Failure? ==> Blames(c.log, r.error)
  {
    hide ApiServer.Get, ApiServer.Create, PassOf, Facts, Untroubled, Tolerable, Blames;
    if Unscathed(c.log) {
      InstallingFailures(c.log);
    }
    var group := c.Get(GroupKey(p));
    if group.Success? {
      return Success(());
    }
    r := c.Create(GroupKey(p), NEW_GROUP);
  }

  method InstallSubscriptionAndOperatorGroup(c: Cluster, p: Component) returns (r: Result<()>)
    modifies c
    ensures Agrees(Spec.InstallSubscriptionAndOperatorGroup(c.oracle, old(c.W()), p), c.W(), r)
    ensures Follows(old(c.log), c.log)
    ensures StatusKept(c.oracle, old(c.cr), c.cr)
    ensures Clean(old(c.log)) && MayInstall(old(c.log), p) && p in COMPONENTS ==> Clean(c.log)
    ensures r.Success? ==> Exists(SubscriptionKey(p)) in Facts(c.log)
    ensures r.Success? && Unscathed(old(c.log)) ==> Unscathed(c.log)
    ensures r.Failure? ==> Blames(c.log, r.error)
  {
    hide ApiServer.Create, Spec.GetOperatorGroup, Untroubled, Tolerable, Blames;
    var _ :- GetOperatorGroup(c, p);
    r := c.Create(SubscriptionKey(p), CreateSubscriptionObject(p));
  }

  method CheckSubscriptionExists(c: Cluster, p: Component) returns (r: Result<Option<Obj>>)
    modifies c
    ensures Agrees(Spec.CheckSubscriptionExists(c.oracle, old(c.W()), p), c.W(), r)
    ensures Follows(old(c.log), c.log)
    ensures StatusKept(c.oracle, old(c.cr), c.cr)
    ensures Clean(old(c.log)) ==> Clean(c.log)
    ensures r.Success? && r.value.Some? ==>
      && r.value.value.body.SubscriptionBody?
      && LastSight(c.log, SubscriptionKey(p)) == r.value
      && Exists(SubscriptionKey(p)) in Facts(c.log)
    ensures r.Success? && Unscathed(old(c.log)) ==> Unscathed(c.log)
    ensures r.Failure? ==> r.error != NotFound && Blames(c.log, r.error)
  {
    hide ApiServer.Get, Untroubled, Tolerable, Blames;
    var sub := c.Get(SubscriptionKey(p));
    if sub.Success? {
      return Success(Some(sub.value));
    }
    return if sub.error == NotFound then Success(None) else Failure(sub.error);
  }

  method ApproveInstallPlan(c: Cluster, p: Component, name: string) returns (r: Result<()>)
    requires p in COMPONENTS
    modifies c
    ensures Agrees(Spec.ApproveInstallPlan(c.oracle, old(c.W()), p, name), c.W(), r)
    ensures Follows(old(c.log), c.log)
    ensures StatusKept(c.oracle, old(c.cr), c.cr)
    ensures Clean(old(c.log)) && MayInstall(old(c.log), p) && RequestedBy(old(c.log), PlanKey(p, name), p) ==> Clean(c.log)
    ensures r.Success? && Unscathed(old(c.log)) ==> Unscathed(c.log)
    ensures r.Failure? ==> Blames(c.log, r.error)
  {
    hide ApiServer.Get, ApiServer.Update, Clean, Sound, Facts, PassOf, LastSight, DoneBefore, StatusIsOurs, COMPONENTS;
    hide MayInstall, RequestedBy, Untroubled, Tolerable, Blames;
    var k := PlanKey(p, name);
    var plan :- c.Get(k);
    if plan.body.approved {
      return Success(());
    }
    if MayInstall(old(c.log), p) && RequestedBy(old(c.log), k, p) {
      ApprovalIsSound(old(c.log), c.log, k, plan, p);
    }
    r := c.Update(k, plan, Approved(plan));
  }

  method CheckCRDExists(c: Cluster, name: string) returns (r: Result<()>)
    modifies c
    ensures Agrees(Spec.CheckCRDExists(c.oracle, old(c.W()), name), c.W(), r)
    ensures Follows(old(c.log), c.log)
    ensures StatusKept(c.oracle, old(c.cr), c.cr)
    ensures Clean(old(c.log)) ==> Clean(c.log)
    ensures r.Success? ==> Exists(CRDKey(name)) in Facts(c.log)
    ensures r.Success? && Unscathed(old(c.log)) ==> Unscathed(c.log)
    ensures r.Failure? ==> Blames(c.log, r.error)
  {
    hide ApiServer.Get, Untroubled, Tolerable, Blames;
    var _ :- c.Get(CRDKey(name));
    return Success(());
  }

  method GetOrCreate(c: Cluster, k: Key, obj: Obj) returns (r: Result<()>)
    requires Fits(k.kind, obj.body) && Labelled(obj.labels)
    requires k.kind !in {Namespace, OperatorGroup, Subscription, ConfigMap}
    modifies c
    ensures Agrees(Spec.GetOrCreate(c.oracle, old(c.W()), k, obj), c.W(), r)
    ensures Follows(old(c.log), c.log)
    ensures StatusKept(c.oracle, old(c.cr), c.cr)
    ensures Clean(old(c.log)) && MayCreate(old(c.log), StageOf(k)) && Proper(PassOf(old(c.log)).now.spec, k, obj) ==> Clean(c.log)
    ensures r.Success? ==> Exists(k) in Facts(c.log)
    ensures r.Success? && Unscathed(old(c.log)) ==> Unscathed(c.log)
    ensures r.Failure? ==> Blames(c.log, r.error)
    ensures forall j :: j != k ==> LastSight(c.log, j) == LastSight(old(c.log), j)
  {
    hide ApiServer.Get, ApiServer.Create, Clean, Sound, Proper, Facts, PassOf, LastSight, DoneBefore, StatusIsOurs;
    hide Untroubled, Tolerable, Blames;
    var found := c.Get(k);
    if found.Success? {
      return Success(());
    }
    if found.error != NotFound {
      return Failure(found.error);
    }
    if MayCreate(old(c.log), StageOf(k)) && Proper(PassOf(old(c.log)).now.spec, k, obj) {
      ProperIsSound(old(c.log), c.log, k, obj);
    }
    r := c.Create(k, obj);
  }

  method CleanUpNamespace(c: Cluster, ns: string) returns (r: Result<()>)
    modifies c
    ensures Agrees(Spec.CleanUpNamespace(c.oracle, old(c.W()), ns), c.W(), r)
    ensures Follows(old(c.log), c.log)
    ensures StatusKept(c.oracle, old(c.cr), c.cr)
    ensures Clean(old(c.log)) && MayDelete(PassOf(old(c.log)), NamespaceKey(ns)) && DeletedInOrder(old(c.log), NamespaceKey(ns)) ==>
      Clean(c.log)
    ensures r.Success? ==> Settled(c.log, NamespaceKey(ns))
    ensures r.Success? && Untroubled(old(c.log)) ==> Untroubled(c.log)
    ensures r.Failure? ==> r.error != NotFound && Blames(c.log, r.error)
  {
    hide ApiServer.Get, ApiServer.Delete, Untroubled, Tolerable, Blames, Clean, Sound, MayDelete, DeletedInOrder, DoneBefore;
    var k := NamespaceKey(ns);
    var found := c.Get(k);
    if found.Failure? {
      return if found.error == NotFound then Success(()) else Failure(found.error);
    }
    if !Labelled(found.value.labels) {
      return Success(());
    }
    if MayDelete(PassOf(old(c.log)), k) && DeletedInOrder(old(c.log), k) {
      OrderStays(old(c.log), c.log, k);
      DeletionIsSound(c.log, c.log, k);
    }
    var deleted := c.Delete(k);
    return if deleted.Failure? && deleted.error != NotFound then Failure(deleted.error) else Success(());
  }

  // ---------- Bulk removal ----------

  ghost predicate Removable(l: Log, items: seq<Key>) {
    forall k :: k in items ==> SeenLabelled(l, k) && MayDelete(PassOf(l), k) && DeletedInOrder(l, k)
  }

  ghost predicate TolerableDeletions(l: Log, items: seq<Key>) {
    forall k :: k in items ==> Tolerable(PassOf(l), Deletion(k))
  }

  /** Deletes every item, whatever becomes of the others, and collects the errors. */
  method RemoveAll(c: Cluster, items: seq<Key>) returns (errors: seq<Error>)
    modifies c
    ensures Spec.RemoveAll(c.oracle, old(c.W()), items) == (c.W(), errors)
    ensures Follows(old(c.log), c.log)
    ensures StatusKept(c.oracle, old(c.cr), c.cr)
    ensures Clean(old(c.log)) && Removable(old(c.log), items) ==> Clean(c.log)
    ensures errors == [] ==> forall k :: k in items ==> IsGone(k) in Facts(c.log)
    ensures forall k :: k in items ==> IsGone(k) in Facts(c.log) || CallFailed(Deletion(k)) in Facts(c.log)
    ensures Untroubled(old(c.log)) && (errors == [] || TolerableDeletions(old(c.log), items)) ==> Untroubled(c.log)
  {
    hide Untroubled, Tolerable, Blames, DeletedInOrder;
    hide ApiServer.Delete, MayDelete, Sound, Clean, Facts, PassOf, LastSight, DoneBefore, StatusIsOurs;
    errors := [];
    var rest := items;
    ghost var all := Spec.RemoveAll(c.oracle, c.W(), items);
    while rest != []
      invariant forall k :: k in rest ==> k in items
      invariant all.0 == Spec.RemoveAll(c.oracle, c.W(), rest).0
      invariant all.1 == errors + Spec.RemoveAll(c.oracle, c.W(), rest).1
      invariant Follows(old(c.log), c.log)
      invariant StatusKept(c.oracle, old(c.cr), c.cr)
      invariant forall j :: LastSight(c.log, j) == LastSight(old(c.log), j)
      invariant Clean(old(c.log)) && Removable(old(c.log), items) ==> Clean(c.log)
      invariant errors == [] ==> forall k :: k in items ==> k in rest || IsGone(k) in Facts(c.log)
      invariant forall k :: k in items ==>
                  k in rest || IsGone(k) in Facts(c.log) || CallFailed(Deletion(k)) in Facts(c.log)
      invariant Untroubled(old(c.log)) && (errors == [] || TolerableDeletions(old(c.log), items)) ==> Untroubled(c.log)
      decreases |rest|
    {
      if Removable(old(c.log), items) {
        DeletionIsSound(old(c.log), c.log, rest[0]);
      }
      var d := c.Delete(rest[0]);
      if d.Failure? {
        errors := errors + [d.error];
      }
      rest := rest[1..];
    }
    assert errors + [] == errors;
  }

  ghost predicate MayClear(l: Log, kind: Kind, ns: string) {
    forall k: Key :: k.kind == kind && (ClusterScoped(kind) || k.ns == ns) ==> MayDelete(PassOf(l), k) && DeletedInOrder(l, k)
  }

  lemma ClearingGoesOn(l: Log, l': Log, kind: Kind, ns: string)
    requires MayClear(l, kind, ns) && PassOf(l') == PassOf(l) && Facts(l) <= Facts(l')
    ensures MayClear(l', kind, ns)
  {
    hide MayDelete, DeletedInOrder, Facts, PassOf;
    forall k: Key | k.kind == kind && (ClusterScoped(kind) || k.ns == ns) ensures DeletedInOrder(l', k) {
      OrderStays(l, l', k);
    }
  }

  method RemoveCustomResourcesInNamespace(c: Cluster, kind: Kind, ns: string) returns (r: Result<()>)
    modifies c
    ensures Agrees(Spec.RemoveCustomResourcesInNamespace(c.oracle, old(c.W()), kind, ns), c.W(), r)
    ensures Follows(old(c.log), c.log)
    ensures StatusKept(c.oracle, old(c.cr), c.cr)
    ensures Clean(old(c.log)) &&
      MayClear(old(c.log), kind, ns)
      ==> Clean(c.log)
    ensures r.Success? ==> Cleared(c.log, kind, At(kind, ns, "").ns)
    ensures r.Success? && Untroubled(old(c.log)) ==> Untroubled(c.log)
  {
    hide Untroubled, Tolerable, Blames, TolerableDeletions, DeletedInOrder;
    hide ApiServer.List, Spec.RemoveAll, MayDelete, Clean, Sound, Facts, PassOf, LastSight, DoneBefore, StatusIsOurs;
    var items := c.List(kind, ns);
    if items.Failure? {
      return if items.error == NotFound then Success(()) else Failure(items.error);
    }
    if MayClear(old(c.log), kind, ns) {
      ClearingGoesOn(old(c.log), c.log, kind, ns);
    }
    var errors := RemoveAll(c, items.value);
    return if errors == [] then Success(()) else Failure(Aggregate(errors));
  }

  // ---------- The installer ----------

  /** Which failures an installer passes over. */
  lemma NamespaceFailures(l: Log, p: Component)
    requires p in COMPONENTS
    ensures var k := NamespaceKey(p.namespace);
      (PassOf(l).InPass? ==> !PassOf(l).start.deleting) ==>
        && Tolerable(PassOf(l), Change(k))
        && (if p.strict then Tolerable(PassOf(l), Creation(k)) else Tolerable(PassOf(l), LookUp(k)))
  {
  }

  method EnsureNamespace(c: Cluster, p: Component) returns (early: Option<Result<()>>)
    modifies c
    ensures var spec := Spec.EnsureNamespace(c.oracle, old(c.W()), p);
      && spec.0 == c.W()
      && spec.1.Some? == early.Some?
      && (early.Some? ==> Agrees(spec.1.value, c.W(), early.value))
    ensures Follows(old(c.log), c.log)
    ensures StatusKept(c.oracle, old(c.cr), c.cr)
    ensures Clean(old(c.log)) && MayInstall(old(c.log), p) && p in COMPONENTS ==> Clean(c.log)
    ensures !p.strict && early.Some? ==> early.value.Failure?
    ensures (early.Some? ==> early.value.Success?) && p in COMPONENTS && Unscathed(old(c.log)) ==> Unscathed(c.log)
    ensures early.Some? && early.value.Failure? ==> Blames(c.log, early.value.error)
  {
    hide Spec.CheckNamespaceExist, Spec.CreateNamespace, Clean, Facts, DoneBefore, Untroubled, Tolerable, Blames;
    if p in COMPONENTS {
      NamespaceFailures(c.log, p);
    }
    var check := CheckNamespaceExist(c, p.namespace);
    if check.Success? {
      return None;
    }
    if check.error == NotFound {
      var created := CreateNamespace(c, p.namespace);
      if created.Failure? {
        return Some(if p.strict then Success(()) else created);
      }
    }
    return if p.strict then Some(Failure(check.error)) else None;
  }

  method EnsureSubscription(c: Cluster, p: Component) returns (r: Result<Option<Obj>>)
    requires p in COMPONENTS
    modifies c
    ensures Agrees(Spec.EnsureSubscription(c.oracle, old(c.W()), p), c.W(), r)
    ensures Follows(old(c.log), c.log)
    ensures StatusKept(c.oracle, old(c.cr), c.cr)
    ensures Clean(old(c.log)) && MayInstall(old(c.log), p) ==> Clean(c.log)
    ensures r.Success? ==> Exists(SubscriptionKey(p)) in Facts(c.log)
    ensures r.Success? && r.value.Some? ==>
      && r.value.value.body.SubscriptionBody?
      && LastSight(c.log, SubscriptionKey(p)).Some?
      && LastSight(c.log, SubscriptionKey(p)).value.body.SubscriptionBody?
      && LastSight(c.log, SubscriptionKey(p)).value.body.status == r.value.value.body.status
    ensures r.Success? && Unscathed(old(c.log)) ==> Unscathed(c.log)
    ensures r.Failure? ==> Blames(c.log, r.error)
  {
    hide Spec.CheckSubscriptionExists, Spec.InstallSubscriptionAndOperatorGroup, ApiServer.Update;
    hide Clean, Sound, Facts, PassOf, LastSight, DoneBefore, StatusIsOurs, COMPONENTS, MayInstall, CreateSubscriptionSpec;
    hide Untroubled, Tolerable, Blames;
    var found :- CheckSubscriptionExists(c, p);
    if MayInstall(old(c.log), p) {
      InstallingGoesOn(old(c.log), c.log, p);
    }
    if found.None? {
      var _ :- InstallSubscriptionAndOperatorGroup(c, p);
      return Success(None);
    }
    var sub := found.value;
    if sub.body.spec == CreateSubscriptionSpec(p) {
      return Success(Some(sub));
    }
    var fixed := Repaired(p, sub);
    if MayInstall(old(c.log), p) {
      SubscriptionRepairIsSound(old(c.log), c.log, sub, p);
    }
    var _ :- c.Update(SubscriptionKey(p), sub, fixed);
    return Success(Some(fixed));
  }

  method HandleOperatorInstallation(c: Cluster, p: Component) returns (r: Result<()>)
    requires p in COMPONENTS
    modifies c
    ensures Agrees(Spec.HandleOperatorInstallation(c.oracle, old(c.W()), p), c.W(), r)
    ensures Follows(old(c.log), c.log)
    ensures StatusKept(c.oracle, old(c.cr), c.cr)
    ensures Clean(old(c.log)) && MayInstall(old(c.log), p) ==> Clean(c.log)
    ensures !p.strict && r.Success? ==> Exists(SubscriptionKey(p)) in Facts(c.log)
    ensures r.Success? && Unscathed(old(c.log)) ==> Unscathed(c.log)
    ensures r.Failure? ==> Blames(c.log, r.error)
  {
    hide Spec.EnsureNamespace, Spec.EnsureSubscription, Spec.ApproveInstallPlan, Unscathed, Blames;
    var early := EnsureNamespace(c, p);
    if early.Some? {
      return early.value;
    }
    var sub :- EnsureSubscription(c, p);
    if sub.Some? && sub.value.body.status.Resolved? && sub.value.body.status.currentCSV == p.csv {
      r := ApproveInstallPlan(c, p, sub.value.body.status.installPlan);
    } else {
      r := Success(());
    }
  }
}
