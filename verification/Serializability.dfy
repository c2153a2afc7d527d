/** Installers of different components, interleaved call by call. */
module Serializability {
  import opened Kubernetes
  import opened Desired
  import opened ApiServer
  import opened Installer
  import Kube = KubeOperationsSpec
  import ReconcileSpec
  import Quiet
  import Calmness

  /** All an installer of this component reads or writes. */
  predicate InFootprint(c: Component, k: Key) {
    k.ns == c.namespace || k == NamespaceKey(c.namespace)
  }

  ghost predicate AgreeOn(c: Component, s: Store, t: Store) {
    forall k :: InFootprint(c, k) ==> (k in s <==> k in t) && (k in s && k in t ==> s[k] == t[k])
  }

  /** The keys outside the footprint are as they were. */
  ghost predicate Frames(c: Component, s: Store, t: Store) {
    forall k :: !InFootprint(c, k) ==> (k in t <==> k in s) && (k in s && k in t ==> t[k] == s[k])
  }

  lemma MadeIsLocal(c: Component, f: Fault, s: Store, t: Store, k: Key, obj: Obj)
    requires Fits(k.kind, obj.body) && AgreeOn(c, s, t)
    requires InFootprint(c, k) && (k.kind == Namespace || k.ns == c.namespace)
    ensures Made(f, s, k, obj).1 == Made(f, t, k, obj).1
    ensures AgreeOn(c, Made(f, s, k, obj).0, Made(f, t, k, obj).0)
    ensures Frames(c, s, Made(f, s, k, obj).0)
  {
    assert InFootprint(c, NamespaceKey(c.namespace));
  }

  lemma ReplacedIsLocal(c: Component, f: Fault, s: Store, t: Store, k: Key, was: Obj, obj: Obj)
    requires Fits(k.kind, obj.body) && AgreeOn(c, s, t) && InFootprint(c, k)
    ensures Replaced(f, s, k, was, obj).1 == Replaced(f, t, k, was, obj).1
    ensures AgreeOn(c, Replaced(f, s, k, was, obj).0, Replaced(f, t, k, was, obj).0)
    ensures Frames(c, s, Replaced(f, s, k, was, obj).0)
  {
  }

  lemma StepIsLocal(c: Component, pc: Pc, f: Fault, s: Store, t: Store)
    requires ValidPc(pc) && AgreeOn(c, s, t)
    ensures Step(c, pc, f, s).0 == Step(c, pc, f, t).0
    ensures AgreeOn(c, Step(c, pc, f, s).1, Step(c, pc, f, t).1)
    ensures Frames(c, s, Step(c, pc, f, s).1)
  {
    hide Made, Replaced, Resolve;
    match pc
    case CheckNamespace => assert InFootprint(c, NamespaceKey(c.namespace));
    case LabelNamespace(ns) => ReplacedIsLocal(c, f, s, t, NamespaceKey(c.namespace), ns, Adopted(ns));
    case MakeNamespace => MadeIsLocal(c, f, s, t, NamespaceKey(c.namespace), NEW_NAMESPACE);
    case ReadSubscription => assert InFootprint(c, SubscriptionKey(c));
    case ReadGroup => assert InFootprint(c, GroupKey(c));
    case MakeGroup => MadeIsLocal(c, f, s, t, GroupKey(c), NEW_GROUP);
    case MakeSubscription => MadeIsLocal(c, f, s, t, SubscriptionKey(c), CreateSubscriptionObject(c));
    case RepairSubscription(sub) => ReplacedIsLocal(c, f, s, t, SubscriptionKey(c), sub, Repaired(c, sub));
    case ReadPlan(name) => assert InFootprint(c, PlanKey(c, name));
    case Approve(name, plan) => ReplacedIsLocal(c, f, s, t, PlanKey(c, name), plan, Approved(plan));
    case Done(_) =>
  }

  /** Two workers on one cluster; each meets its own sequence of faults. */
  datatype System = System(store: Store, a: Pc, b: Pc, callsA: nat, callsB: nat)

  datatype Workers = Workers(a: Component, b: Component, faultsA: nat -> Fault, faultsB: nat -> Fault)

  predicate Valid(y: System) {
    ValidPc(y.a) && ValidPc(y.b)
  }

  predicate Apart(p: Workers) {
    p.a.namespace != p.b.namespace && p.a.namespace != "" && p.b.namespace != ""
  }

  function StepA(p: Workers, y: System): (r: System)
    requires Valid(y)
    ensures Valid(r)
  {
    var (pc, s) := Step(p.a, y.a, p.faultsA(y.callsA), y.store);
    y.(store := s, a := pc, callsA := y.callsA + 1)
  }

  function StepB(p: Workers, y: System): (r: System)
    requires Valid(y)
    ensures Valid(r)
  {
    var (pc, s) := Step(p.b, y.b, p.faultsB(y.callsB), y.store);
    y.(store := s, b := pc, callsB := y.callsB + 1)
  }

  /** The schedule says call by call whose turn it is. */
  function Play(p: Workers, schedule: seq<bool>, y: System): (r: System)
    requires Valid(y)
    ensures Valid(r)
    decreases |schedule|
  {
    if schedule == [] then y
    else Play(p, schedule[1..], if schedule[0] then StepA(p, y) else StepB(p, y))
  }

  function OnlyA(p: Workers, n: nat, y: System): (r: System)
    requires Valid(y)
    ensures Valid(r)
    decreases n
  {
    if n == 0 then y else OnlyA(p, n - 1, StepA(p, y))
  }

  function OnlyB(p: Workers, n: nat, y: System): (r: System)
    requires Valid(y)
    ensures Valid(r)
    decreases n
  {
    if n == 0 then y else OnlyB(p, n - 1, StepB(p, y))
  }

  function Turns(schedule: seq<bool>, who: bool): nat {
    if schedule == [] then 0 else (if schedule[0] == who then 1 else 0) + Turns(schedule[1..], who)
  }

  lemma StoresCommute(a: Component, pa: Pc, fa: Fault, b: Component, pb: Pc, fb: Fault, s: Store)
    requires ValidPc(pa) && ValidPc(pb)
    requires a.namespace != b.namespace && a.namespace != "" && b.namespace != ""
    ensures var sa, sb := Step(a, pa, fa, s).1, Step(b, pb, fb, s).1;
      && Step(a, pa, fa, sb).0 == Step(a, pa, fa, s).0
      && Step(b, pb, fb, sa).0 == Step(b, pb, fb, s).0
      && Step(a, pa, fa, sb).1 == Step(b, pb, fb, sa).1
  {
    hide Step, AgreeOn, Frames, InFootprint;
    var sa, sb := Step(a, pa, fa, s).1, Step(b, pb, fb, s).1;
    AgreesWithItself(a, s);
    AgreesWithItself(b, s);
    StepIsLocal(a, pa, fa, s, s);
    StepIsLocal(b, pb, fb, s, s);
    FramedElsewhere(a, b, s, sa);
    FramedElsewhere(b, a, s, sb);
    StepIsLocal(a, pa, fa, s, sb);
    StepIsLocal(b, pb, fb, s, sa);
    StepIsLocal(a, pa, fa, sb, s);
    StepIsLocal(b, pb, fb, sa, s);
    OneStore(a, b, s, sa, sb, Step(a, pa, fa, sb).1, Step(b, pb, fb, sa).1);
  }

  lemma AgreesWithItself(c: Component, s: Store)
    ensures AgreeOn(c, s, s)
  {
  }

  /** What one leaves alone, the other finds as it was, and the other way round. */
  lemma FramedElsewhere(a: Component, b: Component, s: Store, t: Store)
    requires a.namespace != b.namespace && a.namespace != "" && b.namespace != ""
    ensures Frames(a, s, t) ==> AgreeOn(b, s, t) && AgreeOn(b, t, s)
  {
  }

  lemma OneStore(a: Component, b: Component, s: Store, sa: Store, sb: Store, sba: Store, sab: Store)
    requires a.namespace != b.namespace && a.namespace != "" && b.namespace != ""
    requires AgreeOn(a, sa, sba) && Frames(a, sb, sba) && Frames(a, s, sa)
    requires AgreeOn(b, sb, sab) && Frames(b, sa, sab) && Frames(b, s, sb)
    ensures sba == sab
  {
    forall k
      ensures k in sba <==> k in sab
      ensures k in sba && k in sab ==> sba[k] == sab[k]
    {
      assert InFootprint(a, k) ==> !InFootprint(b, k);
    }
  }

  lemma StepsCommute(p: Workers, y: System)
    requires Apart(p) && Valid(y)
    ensures StepA(p, StepB(p, y)) == StepB(p, StepA(p, y))
  {
    hide Step;
    StoresCommute(p.a, y.a, p.faultsA(y.callsA), p.b, y.b, p.faultsB(y.callsB), y.store);
  }

  lemma {:induction false} StepBPastA(p: Workers, n: nat, y: System)
    requires Apart(p) && Valid(y)
    ensures OnlyA(p, n, StepB(p, y)) == StepB(p, OnlyA(p, n, y))
    decreases n
  {
    hide StepA, StepB;
    if n > 0 {
      StepsCommute(p, y);
      StepBPastA(p, n - 1, StepA(p, y));
    }
  }

  lemma {:induction false} AThenB(p: Workers, i: nat, j: nat, y: System)
    requires Apart(p) && Valid(y)
    ensures OnlyB(p, j, OnlyA(p, i, y)) == OnlyA(p, i, OnlyB(p, j, y))
    decreases j
  {
    hide StepA, StepB;
    if j > 0 {
      StepBPastA(p, i, y);
      AThenB(p, i, j - 1, StepB(p, y));
    }
  }

  /** Every interleaving ends in the cluster, and with the results, of either sequential order. */
  lemma {:induction false} InstallersAreSerializable(p: Workers, schedule: seq<bool>, y: System)
    requires Apart(p) && Valid(y)
    ensures Play(p, schedule, y) == OnlyB(p, Turns(schedule, false), OnlyA(p, Turns(schedule, true), y))
    ensures Play(p, schedule, y) == OnlyA(p, Turns(schedule, true), OnlyB(p, Turns(schedule, false), y))
    decreases |schedule|
  {
    hide StepA, StepB;
    if schedule != [] {
      var i, j := Turns(schedule[1..], true), Turns(schedule[1..], false);
      if schedule[0] {
        InstallersAreSerializable(p, schedule[1..], StepA(p, y));
      } else {
        InstallersAreSerializable(p, schedule[1..], StepB(p, y));
        StepBPastA(p, i, y);
      }
      AThenB(p, Turns(schedule, true), Turns(schedule, false), y);
    }
  }

  lemma {:induction false} DoneStays(p: Workers, n: nat, y: System)
    requires Valid(y) && y.a.Done?
    ensures OnlyA(p, n, y).a == y.a && OnlyA(p, n, y).store == y.store
    decreases n
  {
    if n > 0 {
      DoneStays(p, n - 1, StepA(p, y));
    }
  }

  /** A worker that runs alone does what the installer does when it is run by itself. */
  lemma {:induction false} OnlyAIsRun(p: Workers, n: nat, y: System, o: Oracle, w: World)
    requires Valid(y) && Left(y.a) <= n
    requires Alone(o) && w.store == y.store && w.clock == y.callsA
    requires forall t: nat {:trigger o(t)} :: o(t).fault == p.faultsA(t)
    ensures OnlyA(p, n, y).a == Done(Run(o, w, p.a, y.a).1)
    ensures OnlyA(p, n, y).store == Run(o, w, p.a, y.a).0.store
    decreases n
  {
    hide Step;
    if y.a.Done? {
      DoneStays(p, n, y);
    } else {
      OnlyAIsRun(p, n - 1, StepA(p, y), o, After(o, w, p.a, y.a).0);
    }
  }

  lemma {:induction false} OtherWorkerStays(p: Workers, n: nat, y: System)
    requires Valid(y)
    ensures OnlyA(p, n, y).b == y.b && OnlyA(p, n, y).callsB == y.callsB
    ensures OnlyB(p, n, y).a == y.a && OnlyB(p, n, y).callsA == y.callsA
    decreases n
  {
    hide Step;
    if n > 0 {
      OtherWorkerStays(p, n - 1, StepA(p, y));
      OtherWorkerStays(p, n - 1, StepB(p, y));
    }
  }

  function Swap(p: Workers): Workers {
    Workers(p.b, p.a, p.faultsB, p.faultsA)
  }

  function Mirror(y: System): System {
    System(y.store, y.b, y.a, y.callsB, y.callsA)
  }

  lemma {:induction false} OnlyBIsMirrored(p: Workers, n: nat, y: System)
    requires Valid(y)
    ensures OnlyB(p, n, y) == Mirror(OnlyA(Swap(p), n, Mirror(y)))
    decreases n
  {
    hide Step;
    if n > 0 {
      OnlyBIsMirrored(p, n - 1, StepB(p, y));
    }
  }

  /** The world in which a worker makes its first call. */
  function Fresh(s: Store): World {
    World(s, None, 0, Start)
  }

  /** The installer of one component run by itself, from its first call on. */
  lemma RunsAsInstalled(p: Workers, n: nat, y: System, o: Oracle, w: World)
    requires Valid(y) && y.a == CheckNamespace && y.callsA == 0 && n >= 8 && p.a in COMPONENTS
    requires Alone(o) && forall t: nat {:trigger o(t)} :: o(t).fault == p.faultsA(t)
    requires w.store == y.store && w.clock == 0
    ensures OnlyA(p, n, y).store == Kube.HandleOperatorInstallation(o, w, p.a).w.store
    ensures OnlyA(p, n, y).a == Done(Kube.HandleOperatorInstallation(o, w, p.a).Outcome())
  {
    hide Step, Run, Kube.HandleOperatorInstallation, COMPONENTS;
    OnlyAIsRun(p, n, y, o, w);
    InstallerSteps(o, w, p.a);
  }

  /** The store that the handler of the watch leaves, for an event of a labelled Subscription. */
  function Watched(o: Oracle, s: Store, c: Component): Store {
    ReconcileSpec.ReconcileSubscription(o, Fresh(s), SubscriptionKey(c), OrchestratorLabel()).store
  }

  /** The store that the Knative installer of a pass leaves. */
  function Installed(o: Oracle, s: Store): Store {
    Kube.HandleOperatorInstallation(o, Fresh(s), SERVERLESS).w.store
  }

  /** The handler of the watch on the Subscription of the serverless logic operator and the Knative
      installer of a pass, however their calls are interleaved: the cluster is the one that either
      order of the two leaves, though both operator groups have the same name. */
  lemma WatchAndPassAreSerializable(oa: Oracle, ob: Oracle, schedule: seq<bool>, s: Store)
    requires Alone(oa) && Alone(ob) && Turns(schedule, true) >= 8 && Turns(schedule, false) >= 8
    ensures LOGIC.group == SERVERLESS.group
    ensures var p := Workers(LOGIC, SERVERLESS, (t: nat) => oa(t).fault, (t: nat) => ob(t).fault);
      var end := Play(p, schedule, System(s, CheckNamespace, CheckNamespace, 0, 0)).store;
      && end == Installed(ob, Watched(oa, s, LOGIC))
      && end == Watched(oa, Installed(ob, s), LOGIC)
  {
    WatchedIsInstalled(oa, s);
    WatchedIsInstalled(oa, Installed(ob, s));
    hide Watched;
    var p := Workers(LOGIC, SERVERLESS, (t: nat) => oa(t).fault, (t: nat) => ob(t).fault);
    var y := System(s, CheckNamespace, CheckNamespace, 0, 0);
    var i, j := Turns(schedule, true), Turns(schedule, false);
    assert |LOGIC.namespace| != |SERVERLESS.namespace| && LOGIC in COMPONENTS && SERVERLESS in COMPONENTS;
    hide Kube.HandleOperatorInstallation, Step, Run, COMPONENTS, LOGIC, SERVERLESS;
    InstallersAreSerializable(p, schedule, y);
    OtherWorkerStays(p, i, y);
    OtherWorkerStays(p, j, y);
    RunsAsInstalled(p, i, y, oa, Woken(s));
    RunsAsInstalled(p, i, OnlyB(p, j, y), oa, Woken(OnlyB(p, j, y).store));
    OnlyBIsMirrored(p, j, y);
    OnlyBIsMirrored(p, j, OnlyA(p, i, y));
    RunsAsInstalled(Swap(p), j, Mirror(y), ob, Fresh(s));
    RunsAsInstalled(Swap(p), j, Mirror(OnlyA(p, i, y)), ob, Fresh(OnlyA(p, i, y).store));
  }

  /** The world after the event has come in. */
  function Woken(s: Store): World {
    Note(Fresh(s), WatchStarted)
  }

  lemma WatchedIsInstalled(o: Oracle, s: Store)
    ensures Watched(o, s, LOGIC) == Kube.HandleOperatorInstallation(o, Woken(s), LOGIC).w.store
  {
    hide Kube.HandleOperatorInstallation;
  }

  // ---------- The handler of the watch ----------

  lemma {:induction false} RunFrames(o: Oracle, w: World, c: Component, pc: Pc)
    requires Alone(o) && ValidPc(pc)
    ensures Frames(c, w.store, Run(o, w, c, pc).0.store)
    decreases Left(pc)
  {
    hide Step;
    if !pc.Done? {
      var (w1, pc1) := After(o, w, c, pc);
      assert o(w.clock).others == [];
      AgreesWithItself(c, w.store);
      StepIsLocal(c, pc, o(w.clock).fault, w.store, w.store);
      RunFrames(o, w1, c, pc1);
    }
  }

  /** An event of one of the two Subscriptions that are watched for changes nothing but the operator's
      namespace and what is in it, whatever the calls meet. */
  lemma WatchIsLocal(o: Oracle, w: World, c: Component, labels: Labels)
    requires Alone(o) && c in {LOGIC, SERVERLESS} && Labelled(labels)
    ensures var t := ReconcileSpec.ReconcileSubscription(o, w, SubscriptionKey(c), labels).store;
      forall k: Key :: k.ns != c.namespace && k != NamespaceKey(c.namespace) ==>
        (k in t <==> k in w.store) && (k in t && k in w.store ==> t[k] == w.store[k])
  {
    assert c in COMPONENTS && SubscriptionKey(LOGIC) != SubscriptionKey(SERVERLESS);
    hide Kube.HandleOperatorInstallation, Run, Labelled, COMPONENTS, LOGIC, SERVERLESS;
    var w1 := Note(w, WatchStarted);
    RunFrames(o, w1, c, CheckNamespace);
    InstallerSteps(o, w1, c);
  }

  /** Without faults, such an event installs that operator. */
  lemma WatchInstalls(o: Oracle, w: World, c: Component, labels: Labels)
    requires Calm(o) && c in {LOGIC, SERVERLESS} && Labelled(labels)
    ensures var end := ReconcileSpec.ReconcileSubscription(o, w, SubscriptionKey(c), labels);
      end.store == Quiet.Install(w.store, c).s && end.cr == w.cr
  {
    assert c in COMPONENTS && SubscriptionKey(LOGIC) != SubscriptionKey(SERVERLESS);
    hide Kube.HandleOperatorInstallation, Labelled, COMPONENTS, LOGIC, SERVERLESS, Quiet.Install;
    Calmness.CalmInstall(o, Note(w, WatchStarted), c);
  }

  /** Any other event, of the RHDH operator's Subscription or of one without the label, makes no call. */
  lemma WatchIgnores(o: Oracle, w: World, sub: Key, labels: Labels)
    requires !Labelled(labels) || sub !in {SubscriptionKey(LOGIC), SubscriptionKey(SERVERLESS)}
    ensures ReconcileSpec.ReconcileSubscription(o, w, sub, labels) == w.(log := Snoc(w.log, WatchStarted))
    ensures SubscriptionKey(RHDH) !in {SubscriptionKey(LOGIC), SubscriptionKey(SERVERLESS)}
  {
    hide Kube.HandleOperatorInstallation, Labelled;
  }
}
