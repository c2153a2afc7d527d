/** What the network policy stage does to the cluster, whom it lets in, and what the process remembers. */
module PolicyEffects {
  import opened Kubernetes
  import opened Desired
  import opened ApiServer
  import opened NetworkPoliciesSpec
  import Kube = KubeOperationsSpec
  import ServerlessLogicSpec
  import KnativeSpec
  import DeveloperHubSpec
  import GitOpsSpec
  import ReconcileSpec
  import RunsSpec
  import Quiet
  import Goals
  import Convergence
  import Fixpoint
  import Calmness
  import Idleness
  import opened Solitude

  // ---------- The loop, whatever its calls meet ----------

  /** The policies whose calls fail. */
  function FailedIn(o: Oracle, w: World, names: seq<string>, n: Namespaces, monitoring: bool): set<string>
    decreases |names|
  {
    if names == [] then {}
    else if !Applicable(names[0], monitoring) then FailedIn(o, w, names[1..], n, monitoring)
    else
      var r := EnsurePolicy(o, w, names[0], n);
      (if r.Fail? then {names[0]} else {}) + FailedIn(o, r.w, names[1..], n, monitoring)
  }

  /** The map gains the policies that failed and loses none; what the calls do does not depend on it. */
  lemma {:induction false} ErrorsAccumulate(o: Oracle, w: World, errors: Errors, names: seq<string>, n: Namespaces, monitoring: bool)
    ensures var r := HandleNetworkPolicy(o, w, errors, names, n, monitoring);
      && r.1.Keys == errors.Keys + FailedIn(o, w, names, n, monitoring)
      && r.0 == HandleNetworkPolicy(o, w, map[], names, n, monitoring).0
    decreases |names|
  {
    hide EnsurePolicy, Applicable;
    if names != [] {
      if Applicable(names[0], monitoring) {
        var r := EnsurePolicy(o, w, names[0], n);
        var nothing: Errors := map[];
        ErrorsAccumulate(o, r.w, if r.Fail? then errors[names[0] := r.error] else errors, names[1..], n, monitoring);
        ErrorsAccumulate(o, r.w, if r.Fail? then nothing[names[0] := r.error] else nothing, names[1..], n, monitoring);
      } else {
        ErrorsAccumulate(o, w, errors, names[1..], n, monitoring);
      }
    }
  }

  /** The objects the loop may touch. */
  function Touched(names: seq<string>, n: Namespaces, monitoring: bool): set<Key> {
    set name | name in names && Applicable(name, monitoring) :: PolicyKey(n.workflow, name)
  }

  /** The policy has the wanted spec; an existing one has kept its labels. */
  ghost predicate Enforced(s: Store, t: Store, k: Key, wanted: Obj) {
    k in t && t[k] == if k in s then s[k].(body := wanted.body) else wanted
  }

  ghost predicate Untouched(s: Store, t: Store, k: Key) {
    (k in t <==> k in s) && (k in t && k in s ==> t[k] == s[k])
  }

  /** A call that failed may have had its effect all the same. */
  ghost predicate Handled(s: Store, t: Store, k: Key, wanted: Obj, failed: bool) {
    Enforced(s, t, k, wanted) || (failed && Untouched(s, t, k))
  }

  lemma OnePolicy(o: Oracle, w: World, name: string, n: Namespaces)
    requires Alone(o)
    ensures var r := EnsurePolicy(o, w, name, n); var k := PolicyKey(n.workflow, name);
      SameExcept(w.store, r.w.store, {k}) && Handled(w.store, r.w.store, k, Wanted(name, n), r.Fail?)
  {
    hide CreateIngress, Get, Create, Update, Alone;
    var k, wanted := PolicyKey(n.workflow, name), Wanted(name, n);
    LoneGet(o, w, k);
    var r := Get(o, w, k);
    if r.Fail? {
      LoneCreate(o, r.w, k, wanted);
    } else if r.value.body == wanted.body {
      assert r.value.(body := wanted.body) == r.value;
    } else {
      LoneUpdate(o, r.w, k, r.value, r.value.(body := wanted.body));
    }
  }

  /** Every applicable policy of the list is handled. */
  ghost predicate AllHandled(s: Store, t: Store, names: seq<string>, n: Namespaces, monitoring: bool, failed: set<string>) {
    forall name :: name in names && Applicable(name, monitoring) ==>
      Handled(s, t, PolicyKey(n.workflow, name), Wanted(name, n), name in failed)
  }

  lemma FrameOfRest(s: Store, s1: Store, t: Store, names: seq<string>, n: Namespaces, monitoring: bool)
    requires names != [] && Applicable(names[0], monitoring)
    requires SameExcept(s, s1, {PolicyKey(n.workflow, names[0])}) && SameExcept(s1, t, Touched(names[1..], n, monitoring))
    ensures SameExcept(s, t, Touched(names, n, monitoring))
  {
    hide Applicable;
    assert forall name :: name in names[1..] ==> name in names;
    forall k | k !in Touched(names, n, monitoring) ensures k !in Touched(names[1..], n, monitoring) && k != PolicyKey(n.workflow, names[0]) {
      assert PolicyKey(n.workflow, names[0]) in Touched(names, n, monitoring);
    }
    hide Touched;
  }

  lemma FirstThenRest(s: Store, s1: Store, t: Store, names: seq<string>, n: Namespaces, monitoring: bool,
                      first: bool, failed: set<string>)
    requires names != [] && names[0] !in names[1..] && names[0] !in failed
    requires SameExcept(s, s1, {PolicyKey(n.workflow, names[0])})
    requires Handled(s, s1, PolicyKey(n.workflow, names[0]), Wanted(names[0], n), first)
    requires SameExcept(s1, t, Touched(names[1..], n, monitoring)) && AllHandled(s1, t, names[1..], n, monitoring, failed)
    ensures AllHandled(s, t, names, n, monitoring, (if first then {names[0]} else {}) + failed)
  {
    hide Applicable, Wanted;
    var k0 := PolicyKey(n.workflow, names[0]);
    assert k0 !in Touched(names[1..], n, monitoring);
    assert Untouched(s1, t, k0);
    hide Touched;
    assert forall name :: name in names <==> name == names[0] || name in names[1..];
    forall name | name in names[1..] ensures Untouched(s, s1, PolicyKey(n.workflow, name)) {
      assert PolicyKey(n.workflow, name) != k0;
    }
    hide SameExcept;
  }

  /** Under any faults, but without interference: a policy whose calls succeed ends with the wanted
      spec, one whose calls fail is as it was or has the wanted spec, and nothing else is touched. */
  lemma {:induction false} LoopIsExact(o: Oracle, w: World, names: seq<string>, n: Namespaces, monitoring: bool)
    requires Alone(o) && forall i, j :: 0 <= i < j < |names| ==> names[i] != names[j]
    ensures var t := HandleNetworkPolicy(o, w, map[], names, n, monitoring).0.store;
      && SameExcept(w.store, t, Touched(names, n, monitoring))
      && AllHandled(w.store, t, names, n, monitoring, FailedIn(o, w, names, n, monitoring))
    decreases |names|
  {
    hide EnsurePolicy, Applicable, Wanted, Alone, Handled;
    if names != [] {
      var rest := names[1..];
      assert names[0] !in rest;
      if Applicable(names[0], monitoring) {
        hide SameExcept, AllHandled, Touched;
        OnePolicy(o, w, names[0], n);
        var r := EnsurePolicy(o, w, names[0], n);
        LoopIsExact(o, r.w, rest, n, monitoring);
        FailuresAreNames(o, r.w, rest, n, monitoring);
        var nothing: Errors := map[];
        ErrorsAccumulate(o, r.w, if r.Fail? then nothing[names[0] := r.error] else nothing, rest, n, monitoring);
        var t := HandleNetworkPolicy(o, r.w, map[], rest, n, monitoring).0.store;
        FrameOfRest(w.store, r.w.store, t, names, n, monitoring);
        FirstThenRest(w.store, r.w.store, t, names, n, monitoring, r.Fail?, FailedIn(o, r.w, rest, n, monitoring));
      } else {
        LoopIsExact(o, w, rest, n, monitoring);
        NotTouched(names, n, monitoring);
      }
    }
  }

  lemma NotTouched(names: seq<string>, n: Namespaces, monitoring: bool)
    requires names != [] && !Applicable(names[0], monitoring)
    ensures Touched(names, n, monitoring) == Touched(names[1..], n, monitoring)
    ensures forall name :: name in names && Applicable(name, monitoring) ==> name in names[1..]
  {
    hide Applicable;
    assert forall name :: name in names <==> name == names[0] || name in names[1..];
  }

  lemma {:induction false} FailuresAreNames(o: Oracle, w: World, names: seq<string>, n: Namespaces, monitoring: bool)
    ensures forall name :: name in FailedIn(o, w, names, n, monitoring) ==> name in names
    decreases |names|
  {
    hide EnsurePolicy, Applicable;
    if names != [] {
      assert forall name :: name in names[1..] ==> name in names;
      FailuresAreNames(o, if Applicable(names[0], monitoring) then EnsurePolicy(o, w, names[0], n).w else w, names[1..], n, monitoring);
    }
  }

  lemma NamesDiffer()
    ensures forall i, j :: 0 <= i < j < |NETWORK_POLICIES| ==> NETWORK_POLICIES[i] != NETWORK_POLICIES[j]
    ensures ALLOW_RHDH != ALLOW_INTRA && ALLOW_RHDH != ALLOW_MONITORING && ALLOW_RHDH != ALLOW_LOGIC
    ensures ALLOW_INTRA != ALLOW_MONITORING && ALLOW_INTRA != ALLOW_LOGIC && ALLOW_MONITORING != ALLOW_LOGIC
  {
    assert |ALLOW_RHDH| == 38 && |ALLOW_INTRA| == 21 && |ALLOW_MONITORING| == 44 && |ALLOW_LOGIC| == 60;
  }

  /** With its flag off, the monitoring policy stays as it is, even if it was made while the flag was on. */
  lemma MonitoringPolicyStays(o: Oracle, w: World, n: Namespaces)
    requires Alone(o)
    ensures var t := HandleNetworkPolicy(o, w, map[], NETWORK_POLICIES, n, false).0.store;
      Untouched(w.store, t, PolicyKey(n.workflow, ALLOW_MONITORING))
  {
    hide HandleNetworkPolicy, FailedIn, Wanted;
    NamesDiffer();
    hide NETWORK_POLICIES, ALLOW_MONITORING;
    LoopIsExact(o, w, NETWORK_POLICIES, n, false);
  }

  /** After a call without faults, another one makes no call but to look up the namespace and each
      applicable policy. */
  lemma SecondCallIsIdle(o: Oracle, w: World, spec: Spec)
    requires Calm(o) && NamespaceKey(spec.platform.namespace) in w.store
    ensures var (r, errors) := ReconcileNetworkPolicy(o, w, map[], spec);
      && r.Ok? && errors == map[]
      && var second := ReconcileNetworkPolicy(o, r.w, map[], spec).0.w;
        && second.store == r.w.store
        && Idleness.OnlyReads(r.w.log, second.log)
        && second.clock == r.w.clock + Idleness.PolicyCalls(spec)
  {
    hide ReconcileNetworkPolicy, Quiet.PolicyStage, Convergence.GoalsOf, Convergence.Shaped, Convergence.Tame;
    hide Fixpoint.PoliciesSettled, NETWORK_POLICIES;
    var goals := Convergence.GoalsOf(spec);
    Convergence.GoalsAreShaped(spec);
    PolicyGoalsBelong(spec);
    Calmness.CalmPolicyStage(o, w, map[], spec);
    var w1 := ReconcileNetworkPolicy(o, w, map[], spec).0.w;
    Convergence.PolicyStageEvolves(goals, w.store, spec);
    Fixpoint.PolicyStageSettles(goals, w.store, spec);
    hide Goals.Met, Idleness.JustReads, Idleness.PolicyCalls, Calm;
    CalmIsSmooth(o, w1.clock, Idleness.PolicyCalls(spec));
    Idleness.IdlePolicyStage(o, w1, spec);
    Idleness.ReadsKeep(w1, ReconcileNetworkPolicy(o, w1, map[], spec).0.w, Idleness.PolicyCalls(spec));
  }

  lemma CalmIsSmooth(o: Oracle, start: nat, n: nat)
    requires Calm(o)
    ensures Alone(o) && Idleness.Smooth(o, start, n)
  {
    assert forall t: nat {:trigger o(t)} :: o(t).fault.Healthy?;
  }

  lemma PolicyGoalsBelong(spec: Spec)
    ensures Convergence.PolicyGoals(spec) <= Convergence.GoalsOf(spec)
  {
  }

  // ---------- What the process remembers ----------

  /** The policies that fail in a pass: those a process would remember that has just been started. */
  function FailedInPass(o: Oracle, st: ReconcileSpec.State): set<string> {
    ReconcileSpec.Reconcile(o, st.(errors := map[])).0.errors.Keys
  }

  lemma StageErrors(o: Oracle, w: World, errors: Errors, spec: Spec)
    ensures var (a, b) := (ReconcileNetworkPolicy(o, w, errors, spec), ReconcileNetworkPolicy(o, w, map[], spec));
      a.1.Keys == errors.Keys + b.1.Keys && a.0.w == b.0.w
  {
    hide HandleNetworkPolicy, Kube.CheckNamespaceExist, FailedIn, NETWORK_POLICIES;
    var w1 := Kube.CheckNamespaceExist(o, w, spec.platform.namespace).w;
    ErrorsAccumulate(o, w1, errors, NETWORK_POLICIES, NamespacesOf(spec), spec.platform.monitoring);
    ErrorsAccumulate(o, w1, map[], NETWORK_POLICIES, NamespacesOf(spec), spec.platform.monitoring);
  }

  lemma PassErrors(o: Oracle, st: ReconcileSpec.State)
    ensures ReconcileSpec.Reconcile(o, st).0.errors.Keys == st.errors.Keys + FailedInPass(o, st)
  {
    hide GetCR, ReconcileSpec.Prepare, ReconcileSpec.Conclude, ReconcileSpec.RunStages;
    var r := GetCR(o, st.w, true);
    if r.Ok? {
      var p := ReconcileSpec.Prepare(o, r.w, r.value);
      if p.Go? {
        RunErrors(o, st.(w := p.w), p.value.spec);
      }
    }
  }

  lemma RunErrors(o: Oracle, st: ReconcileSpec.State, spec: Spec)
    ensures ReconcileSpec.RunStages(o, st, spec).0.errors.Keys
         == st.errors.Keys + ReconcileSpec.RunStages(o, st.(errors := map[]), spec).0.errors.Keys
  {
    hide ServerlessLogicSpec.ReconcileServerlessLogic, KnativeSpec.ReconcileKnative, DeveloperHubSpec.ReconcileRHDH;
    hide GitOpsSpec.ReconcileGitOps, ReconcileNetworkPolicy;
    var w1 := ServerlessLogicSpec.ReconcileServerlessLogic(o, st.w, spec).w;
    var w2 := KnativeSpec.ReconcileKnative(o, w1, spec).w;
    StageErrors(o, DeveloperHubSpec.ReconcileRHDH(o, w2, spec).w, st.errors, spec);
  }

  /** The policies that failed in any pass of a run without restarts. */
  function FailedInRun(o: Oracle, st: ReconcileSpec.State, jobs: seq<RunsSpec.Job>): set<string>
    decreases |jobs|
  {
    if jobs == [] then {}
    else (if jobs[0].Pass? then FailedInPass(o, st) else {}) + FailedInRun(o, RunsSpec.Do(o, st, jobs[0]), jobs[1..])
  }

  /** The process remembers every policy that has ever failed in it, also when it has been repaired. */
  lemma {:induction false} NothingIsForgotten(o: Oracle, st: ReconcileSpec.State, jobs: seq<RunsSpec.Job>)
    requires RunsSpec.Restart !in jobs
    ensures RunsSpec.Run(o, st, jobs).errors.Keys == st.errors.Keys + FailedInRun(o, st, jobs)
    decreases |jobs|
  {
    hide ReconcileSpec.Reconcile, ReconcileSpec.ReconcileSubscription, FailedInPass;
    if jobs != [] {
      assert RunsSpec.Restart !in jobs[1..];
      PassErrors(o, st);
      NothingIsForgotten(o, RunsSpec.Do(o, st, jobs[0]), jobs[1..]);
    }
  }

  /** So a pass finishes only in a process in which no policy has ever failed. */
  lemma FinishingNeedsACleanRecord(o: Oracle, st: ReconcileSpec.State, spec: Spec)
    ensures ReconcileSpec.RunStages(o, st, spec).1.None? ==> st.errors == map[] && ReconcileSpec.RunStages(o, st, spec).0.errors == map[]
  {
    hide ServerlessLogicSpec.ReconcileServerlessLogic, KnativeSpec.ReconcileKnative, DeveloperHubSpec.ReconcileRHDH;
    hide GitOpsSpec.ReconcileGitOps, HandleNetworkPolicy, Kube.CheckNamespaceExist, NETWORK_POLICIES;
    RunErrors(o, st, spec);
    var all, s := ReconcileSpec.RunStages(o, st, spec).0.errors, st.errors;
    assert all == map[] ==> all.Keys == {} && s.Keys == {};
  }

  // ---------- Effective ingress ----------

  predicate Matches(peer: PolicyPeer, ns: string, source: string) {
    match peer
    case FromNamespace(name) => name == source
    case FromPodsOfThisNamespace => ns == source
  }

  /** Does the policy let pods of this namespace in?  The policy is one of namespace `ns`. */
  predicate Admits(p: PolicySpec, ns: string, source: string) {
    exists rule, peer :: rule in p.ingress && peer in rule && Matches(peer, ns, source)
  }

  /** Policies are additive, and each of them is about all pods of its namespace: without any policy
      everybody is let in, otherwise those that some policy admits. */
  predicate LetIn(s: Store, ns: string, source: string) {
    (forall k :: k in s ==> !(k.kind == NetworkPolicy && k.ns == ns)) ||
    (exists k :: k in s && k.kind == NetworkPolicy && k.ns == ns && Admits(s[k].body.policy, ns, source))
  }

  /** No policies but the operator's own are in the namespace. */
  predicate OnlyOurs(s: Store, ns: string) {
    forall k :: k in s && k.kind == NetworkPolicy && k.ns == ns ==> k.name in NETWORK_POLICIES
  }

  lemma OneRule(peers: seq<PolicyPeer>, ns: string, source: string)
    ensures Admits(PolicySpec([peers]), ns, source) <==> exists peer :: peer in peers && Matches(peer, ns, source)
  {
    if exists peer :: peer in peers && Matches(peer, ns, source) {
      var peer :| peer in peers && Matches(peer, ns, source);
      assert peers in PolicySpec([peers]).ingress;
    }
  }

  /** The peers of the one rule of each policy. */
  function PeersOf(name: string, n: Namespaces): seq<PolicyPeer> {
    if name == ALLOW_RHDH then
      [FromNamespace(EVENTING), FromNamespace(SERVING), FromNamespace(n.workflow), FromNamespace(n.rhdh), FromNamespace(n.database)]
    else if name == ALLOW_INTRA then [FromPodsOfThisNamespace]
    else if name == ALLOW_MONITORING then [FromNamespace(MONITORING_NS)]
    else [FromNamespace(LOGIC.namespace)]
  }

  lemma IngressOfEach(name: string, n: Namespaces, source: string)
    requires name in NETWORK_POLICIES
    ensures Wanted(name, n).body.PolicyBody?
    ensures Admits(Wanted(name, n).body.policy, n.workflow, source) <==>
      if name == ALLOW_RHDH then source in {EVENTING, SERVING, n.workflow, n.rhdh, n.database}
      else if name == ALLOW_INTRA then source == n.workflow
      else if name == ALLOW_MONITORING then source == MONITORING_NS
      else source == LOGIC.namespace
  {
    hide ALLOW_RHDH, ALLOW_INTRA, ALLOW_MONITORING, ALLOW_LOGIC, EVENTING, SERVING, MONITORING_NS, LOGIC, Admits;
    assert Wanted(name, n).body.policy == PolicySpec([PeersOf(name, n)]);
    OneRule(PeersOf(name, n), n.workflow, source);
    var peers := PeersOf(name, n);
    if name == ALLOW_RHDH {
      assert peers[0] == FromNamespace(EVENTING) && peers[1] == FromNamespace(SERVING) && peers[2] == FromNamespace(n.workflow);
      assert peers[3] == FromNamespace(n.rhdh) && peers[4] == FromNamespace(n.database);
      assert source in {EVENTING, SERVING, n.workflow, n.rhdh, n.database} ==> FromNamespace(source) in peers;
    } else {
      assert peers[0] in peers;
    }
  }

  /** The namespaces the operator's policies let in, apart from the monitoring one. */
  function Friends(n: Namespaces): set<string> {
    {EVENTING, SERVING, n.workflow, n.rhdh, n.database, LOGIC.namespace}
  }

  /** The policies that always apply are there with the wanted specs. */
  ghost predicate InForce(s: Store, n: Namespaces, names: set<string>) {
    forall name :: name in names ==>
      PolicyKey(n.workflow, name) in s && s[PolicyKey(n.workflow, name)].body == Wanted(name, n).body
  }

  /** Let in are the friends, and whom the monitoring policy lets in if there is one. */
  lemma IngressIsExact(s: Store, n: Namespaces, source: string)
    requires OnlyOurs(s, n.workflow) && InForce(s, n, {ALLOW_RHDH, ALLOW_LOGIC})
    requires PolicyKey(n.workflow, ALLOW_INTRA) in s ==> InForce(s, n, {ALLOW_INTRA})
    ensures var m := PolicyKey(n.workflow, ALLOW_MONITORING);
      LetIn(s, n.workflow, source) <==> source in Friends(n) || (m in s && Admits(s[m].body.policy, n.workflow, source))
  {
    hide ALLOW_RHDH, ALLOW_INTRA, ALLOW_MONITORING, ALLOW_LOGIC, EVENTING, SERVING, MONITORING_NS, LOGIC;
    hide Admits, Wanted;
    var ns := n.workflow;
    assert PolicyKey(ns, ALLOW_RHDH) in s && PolicyKey(ns, ALLOW_LOGIC) in s;
    forall name | name in NETWORK_POLICIES ensures Wanted(name, n).body.PolicyBody? {
      IngressOfEach(name, n, source);
    }
    IngressOfEach(ALLOW_RHDH, n, source);
    IngressOfEach(ALLOW_INTRA, n, source);
    IngressOfEach(ALLOW_LOGIC, n, source);
    NamesDiffer();
    forall k | k in s && k.kind == NetworkPolicy && k.ns == ns
      ensures k in {PolicyKey(ns, ALLOW_RHDH), PolicyKey(ns, ALLOW_INTRA), PolicyKey(ns, ALLOW_MONITORING), PolicyKey(ns, ALLOW_LOGIC)}
    {
      assert k == PolicyKey(ns, k.name) && k.name in NETWORK_POLICIES;
    }
    if source in Friends(n) {
      var k := PolicyKey(ns, if source == LOGIC.namespace then ALLOW_LOGIC else ALLOW_RHDH);
      assert k in s && Admits(s[k].body.policy, ns, source);
    }
  }

  /** After a stage without faults, in a namespace without other policies: exactly these are let in. */
  lemma EffectiveIngress(o: Oracle, w: World, spec: Spec, source: string)
    requires Calm(o) && NamespaceKey(spec.platform.namespace) in w.store && OnlyOurs(w.store, spec.platform.namespace)
    ensures var t, n := ReconcileNetworkPolicy(o, w, map[], spec).0.w.store, NamespacesOf(spec);
      var m := PolicyKey(n.workflow, ALLOW_MONITORING);
      && (LetIn(t, n.workflow, source) <==> source in Friends(n) || (m in t && Admits(t[m].body.policy, n.workflow, source)))
      && (spec.platform.monitoring ==> m in t && (Admits(t[m].body.policy, n.workflow, source) <==> source == MONITORING_NS))
  {
    hide ReconcileNetworkPolicy, Friends, Admits, LetIn, OnlyOurs, Wanted, MONITORING_NS, EVENTING, SERVING, LOGIC;
    hide ALLOW_RHDH, ALLOW_INTRA, ALLOW_MONITORING, ALLOW_LOGIC;
    StageEnforces(o, w, spec);
    IngressIsExact(ReconcileNetworkPolicy(o, w, map[], spec).0.w.store, NamespacesOf(spec), source);
    NamesDiffer();
    IngressOfEach(ALLOW_MONITORING, NamespacesOf(spec), source);
  }

  lemma CalmIsAlone(o: Oracle)
    requires Calm(o)
    ensures Alone(o)
  {
  }

  lemma NothingFails(o: Oracle, w: World, spec: Spec)
    requires Calm(o) && NamespaceKey(spec.platform.namespace) in w.store
    ensures var w1 := Kube.CheckNamespaceExist(o, w, spec.platform.namespace).w;
      FailedIn(o, w1, NETWORK_POLICIES, NamespacesOf(spec), spec.platform.monitoring) == {}
  {
    hide Kube.CheckNamespaceExist, HandleNetworkPolicy, FailedIn, NETWORK_POLICIES, Quiet.PolicyStage;
    hide Convergence.GoalsOf, Convergence.Shaped, Convergence.Tame, Convergence.PolicyGoals;
    Convergence.GoalsAreShaped(spec);
    PolicyGoalsBelong(spec);
    Convergence.PolicyStageEvolves(Convergence.GoalsOf(spec), w.store, spec);
    Calmness.CalmPolicyStage(o, w, map[], spec);
    var w1 := Kube.CheckNamespaceExist(o, w, spec.platform.namespace).w;
    Calmness.CalmCheckNamespaceExist(o, w, spec.platform.namespace);
    ErrorsAccumulate(o, w1, map[], NETWORK_POLICIES, NamespacesOf(spec), spec.platform.monitoring);
  }

  lemma StageEnforces(o: Oracle, w: World, spec: Spec)
    requires Calm(o) && NamespaceKey(spec.platform.namespace) in w.store && OnlyOurs(w.store, spec.platform.namespace)
    ensures var n := NamespacesOf(spec); var t := ReconcileNetworkPolicy(o, w, map[], spec).0.w.store;
      && OnlyOurs(t, n.workflow)
      && InForce(t, n, {ALLOW_RHDH, ALLOW_INTRA, ALLOW_LOGIC})
      && (spec.platform.monitoring ==> InForce(t, n, {ALLOW_MONITORING}))
  {
    hide Kube.CheckNamespaceExist, HandleNetworkPolicy, FailedIn, Wanted, Calm, Alone, InForce, Handled;
    hide AllHandled, SameExcept, Touched, Applicable, NETWORK_POLICIES;
    hide ALLOW_RHDH, ALLOW_INTRA, ALLOW_MONITORING, ALLOW_LOGIC;
    var n := NamespacesOf(spec);
    NamesDiffer();
    CalmIsAlone(o);
    NothingFails(o, w, spec);
    Calmness.CalmCheckNamespaceExist(o, w, n.workflow);
    var w1 := Kube.CheckNamespaceExist(o, w, n.workflow).w;
    LoopIsExact(o, w1, NETWORK_POLICIES, n, spec.platform.monitoring);
    var t := HandleNetworkPolicy(o, w1, map[], NETWORK_POLICIES, n, spec.platform.monitoring).0.store;
    OursStay(w1.store, t, n, spec.platform.monitoring);
    HandledIsInForce(w1.store, t, n, spec.platform.monitoring);
  }

  lemma HandledIsInForce(s: Store, t: Store, n: Namespaces, monitoring: bool)
    requires AllHandled(s, t, NETWORK_POLICIES, n, monitoring, {})
    ensures InForce(t, n, {ALLOW_RHDH, ALLOW_INTRA, ALLOW_LOGIC}) && (monitoring ==> InForce(t, n, {ALLOW_MONITORING}))
  {
    hide Wanted, ALLOW_RHDH, ALLOW_INTRA, ALLOW_MONITORING, ALLOW_LOGIC;
    NamesDiffer();
    assert forall name :: name in {ALLOW_RHDH, ALLOW_INTRA, ALLOW_MONITORING, ALLOW_LOGIC} ==> name in NETWORK_POLICIES;
  }

  lemma OursStay(s: Store, t: Store, n: Namespaces, monitoring: bool)
    requires OnlyOurs(s, n.workflow) && SameExcept(s, t, Touched(NETWORK_POLICIES, n, monitoring))
    ensures OnlyOurs(t, n.workflow)
  {
    hide NETWORK_POLICIES, Applicable;
  }

  /** The policy on traffic within the namespace can go: the namespace is let in anyway. */
  lemma IntraNamespacePolicyIsIdle(s: Store, n: Namespaces, source: string)
    requires OnlyOurs(s, n.workflow) && InForce(s, n, {ALLOW_RHDH, ALLOW_INTRA, ALLOW_LOGIC})
    ensures LetIn(s - {PolicyKey(n.workflow, ALLOW_INTRA)}, n.workflow, source) <==> LetIn(s, n.workflow, source)
  {
    NamesDiffer();
    hide ALLOW_RHDH, ALLOW_INTRA, ALLOW_MONITORING, ALLOW_LOGIC, Admits, LetIn, Friends, Wanted, NETWORK_POLICIES;
    IngressIsExact(s, n, source);
    IngressIsExact(s - {PolicyKey(n.workflow, ALLOW_INTRA)}, n, source);
  }
}
