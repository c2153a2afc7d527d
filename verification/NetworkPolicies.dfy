/** The network policy stage, as functions on the world.  `errors` is the map of failed policies
    that lives as long as the operator's process. */
module NetworkPoliciesSpec {
  import opened Kubernetes
  import opened Desired
  import opened ApiServer
  import opened KubeOperationsSpec

  type Errors = map<string, Error>

  datatype Namespaces = Namespaces(workflow: string, rhdh: string, database: string)

  function Wanted(name: string, n: Namespaces): Obj {
    Policy(name, n.workflow, n.rhdh, n.database)
  }

  /** Creates the policy, or repairs its spec. */
  function EnsurePolicy(o: Oracle, w: World, name: string, n: Namespaces): Ret<()> {
    var k := PolicyKey(n.workflow, name);
    match Get(o, w, k)
    case Fail(w1, e) => if e == NotFound then Create(o, w1, k, Wanted(name, n)) else Fail(w1, e)
    case Ok(w1, existing) =>
      if existing.body == Wanted(name, n).body then Ok(w1, ())
      else Update(o, w1, k, existing, existing.(body := Wanted(name, n).body))
  }

  /** The loop over the policy names; a failure is recorded and the loop goes on. */
  function HandleNetworkPolicy(o: Oracle, w: World, errors: Errors, names: seq<string>, n: Namespaces, monitoring: bool)
    : (World, Errors)
    decreases |names|
  {
    if names == [] then (w, errors)
    else if !Applicable(names[0], monitoring) then HandleNetworkPolicy(o, w, errors, names[1..], n, monitoring)
    else
      var r := EnsurePolicy(o, w, names[0], n);
      HandleNetworkPolicy(o, r.w, if r.Fail? then errors[names[0] := r.error] else errors, names[1..], n, monitoring)
  }

  function NamespacesOf(s: Spec): Namespaces {
    Namespaces(s.platform.namespace, s.rhdh.namespace, s.postgres.namespace)
  }

  function ReconcileNetworkPolicy(o: Oracle, w: World, errors: Errors, s: Spec): (Ret<()>, Errors) {
    match CheckNamespaceExist(o, w, s.platform.namespace)
    case Fail(w1, e) => (Fail(w1, e), errors)
    case Ok(w1, _) =>
      var (w2, errors2) := HandleNetworkPolicy(o, w1, errors, NETWORK_POLICIES, NamespacesOf(s), s.platform.monitoring);
      (if errors2 == map[] then Ok(w2, ()) else Fail(w2, Other), errors2)
  }
}

/** The network policy stage.  The map of failed policies is a variable of the process. */
module NetworkPolicies {
  import opened Kubernetes
  import opened Desired
  import opened Audit
  import opened Client
  import opened KubeOperations
  import ApiServer
  import Kube = KubeOperationsSpec
  import Spec = NetworkPoliciesSpec

  ghost predicate PolicySeen(l: Log, name: string, n: Spec.Namespaces) {
    HasBody(PolicyKey(n.workflow, name), Spec.Wanted(name, n).body) in Facts(l)
  }

  /** The pass asks for policies on these namespaces. */
  predicate Protecting(l: Log, n: Spec.Namespaces, monitoring: bool) {
    && MayCreate(l, 4)
    && n == Spec.NamespacesOf(PassOf(l).now.spec) && monitoring == PassOf(l).now.spec.platform.monitoring
  }

  method EnsurePolicy(c: Cluster, name: string, n: Spec.Namespaces) returns (r: Result<()>)
    modifies c
    ensures Agrees(Spec.EnsurePolicy(c.oracle, old(c.W()), name, n), c.W(), r)
    ensures Follows(old(c.log), c.log)
    ensures StatusKept(c.oracle, old(c.cr), c.cr)
    ensures Clean(old(c.log)) && MayCreate(old(c.log), 4)
      && ProperPolicy(PassOf(old(c.log)).now.spec, PolicyKey(n.workflow, name), Spec.Wanted(name, n).body)
      ==> Clean(c.log)
    ensures r.Success? ==> PolicySeen(c.log, name, n)
    ensures r.Success? && Unscathed(old(c.log)) ==> Unscathed(c.log)
    ensures r.Failure? ==> Blames(c.log, r.error)
  {
    hide Clean, Sound, DoneBefore, Facts, PassOf, LastSight, ProperPolicy, CreateIngress, StatusIsOurs;
    hide ApiServer.Get, ApiServer.Create, ApiServer.Update, Untroubled, Tolerable, Blames;
    hide Follows;
    var k := PolicyKey(n.workflow, name);
    var desired := Spec.Wanted(name, n);
    ghost var start := c.log;
    var found := c.Get(k);
    ghost var read := c.log;
    PassGoesOn(start, read);
    if found.Failure? {
      if found.error != NotFound {
        return Failure(found.error);
      }
      if MayCreate(old(c.log), 4) && ProperPolicy(PassOf(old(c.log)).now.spec, k, desired.body) {
        ProperIsSound(old(c.log), c.log, k, desired);
      }
      r := c.Create(k, desired);
      FollowsTwice(start, read, c.log);
      return;
    }
    if found.value.body == desired.body {
      return Success(());
    }
    if MayCreate(old(c.log), 4) && ProperPolicy(PassOf(old(c.log)).now.spec, k, desired.body) {
      PolicyRepairIsSound(old(c.log), c.log, k, found.value, desired);
    }
    r := c.Update(k, found.value, found.value.(body := desired.body));
    FollowsTwice(start, read, c.log);
  }

  class PolicyErrors {
    var allErrors: Spec.Errors

    constructor (errors: Spec.Errors)
      ensures allErrors == errors
    {
      allErrors := errors;
    }

    /** The map keeps the failures of earlier calls. */
    method HandleNetworkPolicy(c: Cluster, names: seq<string>, n: Spec.Namespaces, monitoring: bool)
      modifies c, this
      ensures (c.W(), allErrors) == Spec.HandleNetworkPolicy(c.oracle, old(c.W()), old(allErrors), names, n, monitoring)
      ensures Follows(old(c.log), c.log)
      ensures StatusKept(c.oracle, old(c.cr), c.cr)
      ensures Clean(old(c.log)) && Protecting(old(c.log), n, monitoring) && names == NETWORK_POLICIES ==> Clean(c.log)
      ensures old(allErrors).Keys <= allErrors.Keys
      ensures forall name :: name in names && Applicable(name, monitoring) && name !in allErrors ==> PolicySeen(c.log, name, n)
      ensures allErrors == map[] && Unscathed(old(c.log)) ==> Unscathed(c.log)
    {
      hide Spec.EnsurePolicy, Clean, DoneBefore, Facts, PassOf, Unscathed, Blames, StatusIsOurs, CreateIngress;
      var rest := names;
      while rest != []
        invariant forall name :: name in rest ==> name in names
        invariant Spec.HandleNetworkPolicy(c.oracle, c.W(), allErrors, rest, n, monitoring)
               == Spec.HandleNetworkPolicy(c.oracle, old(c.W()), old(allErrors), names, n, monitoring)
        invariant Follows(old(c.log), c.log)
        invariant StatusKept(c.oracle, old(c.cr), c.cr)
        invariant Clean(old(c.log)) && Protecting(old(c.log), n, monitoring) && names == NETWORK_POLICIES ==> Clean(c.log)
        invariant old(allErrors).Keys <= allErrors.Keys
        invariant forall name :: name in names && Applicable(name, monitoring) && name !in allErrors ==>
                    name in rest || PolicySeen(c.log, name, n)
        invariant allErrors == map[] && Unscathed(old(c.log)) ==> Unscathed(c.log)
        decreases |rest|
      {
        if Applicable(rest[0], monitoring) {
          var r := EnsurePolicy(c, rest[0], n);
          if r.Failure? {
            allErrors := allErrors[rest[0] := r.error];
            assert rest[0] in allErrors;
          }
        }
        rest := rest[1..];
      }
    }

    method ReconcileNetworkPolicy(c: Cluster, s: Kubernetes.Spec) returns (r: Result<()>)
      modifies c, this
      ensures var spec := Spec.ReconcileNetworkPolicy(c.oracle, old(c.W()), old(allErrors), s);
        Agrees(spec.0, c.W(), r) && allErrors == spec.1
      ensures Follows(old(c.log), c.log)
      ensures StatusKept(c.oracle, old(c.cr), c.cr)
      ensures Clean(old(c.log)) && Entering(old(c.log), 4, s) ==> Clean(c.log)
      ensures r.Success? ==> PoliciesDone(c.log, s)
      ensures old(allErrors).Keys <= allErrors.Keys
      ensures r.Success? ==> old(allErrors) == map[]
      ensures r.Success? && Unscathed(old(c.log)) ==> Unscathed(c.log)
      ensures r.Failure? ==> Blames(c.log, r.error) || (r.error == Other && allErrors != map[])
    {
      hide Untroubled, Blames, LastSight, StatusIsOurs;
      hide Kube.CheckNamespaceExist, Spec.HandleNetworkPolicy, DoneBefore, Clean, Sound, CreateIngress;
      var _ :- CheckNamespaceExist(c, s.platform.namespace);
      HandleNetworkPolicy(c, NETWORK_POLICIES, Spec.NamespacesOf(s), s.platform.monitoring);
      assert allErrors == map[] ==> old(allErrors).Keys == {};
      return if allErrors == map[] then Success(()) else Failure(Other);
    }
  }
}
