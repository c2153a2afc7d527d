/** Any number of installers, OLM and everybody else on one cluster. */
module ApprovalSafety {
  import opened Kubernetes
  import opened Desired
  import opened ApiServer
  import opened Installer

  datatype Thread = Thread(component: Component, pc: Pc)

  /** `installed` holds what OLM has installed: the plans and their versions. */
  datatype System = System(store: Store, threads: seq<Thread>, installed: set<(Key, string)>)

  /** The version each install plan is for: a plan never changes it. */
  type Versions = Key -> string

  predicate ValidThreads(y: System) {
    forall i :: 0 <= i < |y.threads| ==> ValidPc(y.threads[i].pc) && y.threads[i].component in COMPONENTS
  }

  datatype Move =
    | Call(thread: nat, fault: Fault)
    | Spawn(component: Component)
    | OlmResolve(sub: Key, name: string)
    | OlmInstall(plan: Key)
    | Others(act: Act)

  /** OLM resolves a Subscription to a plan and records the plan's version with it.  Everybody else
      neither approves plans, nor changes their version, nor fills in the status of a Subscription. */
  predicate Allowed(v: Versions, y: System, m: Move) {
    match m
    case Call(i, _) => i < |y.threads|
    case Spawn(c) => c in COMPONENTS
    case OlmResolve(k, _) => k.kind == Subscription && k in y.store
    case OlmInstall(k) => k.kind == InstallPlan && k in y.store && y.store[k].body.approved
    case Others(Put(k, obj)) =>
      && Fits(k.kind, obj.body)
      && (k.kind == InstallPlan ==> obj.body.csv == v(k) && (obj.body.approved ==> k in y.store && y.store[k].body.approved))
      && (k.kind == Subscription ==>
            obj.body.status == if k in y.store then y.store[k].body.status else Unresolved)
    case Others(_) => true
  }

  function ResolvedStore(v: Versions, s: Store, k: Key, plan: string): Store
    requires k.kind == Subscription && k in s
  {
    var p := Key(InstallPlan, k.ns, plan);
    var s1: Store := if p in s then s else s[p := Obj(map[], InstallPlanBody(v(p), false))];
    s1[k := s[k].(body := s[k].body.(status := Resolved(plan, v(p))))]
  }

  function Next(v: Versions, y: System, m: Move): (r: System)
    requires ValidThreads(y) && Allowed(v, y, m)
    ensures ValidThreads(r)
  {
    match m
    case Call(i, f) =>
      var t := y.threads[i];
      var (pc, s) := Step(t.component, t.pc, f, y.store);
      y.(store := s, threads := y.threads[i := t.(pc := pc)])
    case Spawn(c) => y.(threads := y.threads + [Thread(c, CheckNamespace)])
    case OlmResolve(k, plan) => y.(store := ResolvedStore(v, y.store, k, plan))
    case OlmInstall(k) => y.(installed := y.installed + {(k, y.store[k].body.csv)})
    case Others(a) => y.(store := Perform(World(y.store, None, 0, Start), a).store)
  }

  // ---------- The invariant ----------

  /** The pinned version of the component of this namespace, if it has one. */
  predicate Pinned(ns: string, version: string) {
    forall c :: c in COMPONENTS && c.namespace == ns ==> version == c.csv
  }

  predicate HonestStatus(v: Versions, ns: string, status: SubscriptionStatus) {
    status.Resolved? ==> status.currentCSV == v(Key(InstallPlan, ns, status.installPlan))
  }

  /** `since` holds the plans that were approved before. */
  predicate Honest(v: Versions, since: set<Key>, k: Key, obj: Obj)
    requires Fits(k.kind, obj.body)
  {
    && (k.kind == Subscription ==> HonestStatus(v, k.ns, obj.body.status))
    && (k.kind == InstallPlan ==> obj.body.csv == v(k) && (obj.body.approved ==> k in since || Pinned(k.ns, v(k))))
  }

  ghost predicate HonestStore(v: Versions, since: set<Key>, s: Store) {
    forall k :: k in s ==> Honest(v, since, k, s[k])
  }

  /** What an installer remembers is true of the plans. */
  predicate HonestMemory(v: Versions, t: Thread)
    requires ValidPc(t.pc)
  {
    match t.pc
    case RepairSubscription(sub) => HonestStatus(v, t.component.namespace, sub.body.status)
    case ReadPlan(name) => v(PlanKey(t.component, name)) == t.component.csv
    case Approve(name, plan) =>
      v(PlanKey(t.component, name)) == t.component.csv && plan.body.csv == t.component.csv
    case _ => true
  }

  ghost predicate Inv(v: Versions, start: System, y: System) {
    && ValidThreads(y)
    && HonestStore(v, ApprovedIn(start.store), y.store)
    && (forall i :: 0 <= i < |y.threads| ==> HonestMemory(v, y.threads[i]))
    && (forall e :: e in y.installed ==> e in start.installed || e.0 in ApprovedIn(start.store) || Pinned(e.0.ns, e.1))
  }

  function ApprovedIn(s: Store): set<Key> {
    set k | k in s && k.kind == InstallPlan && s[k].body.approved
  }

  lemma ComponentsDiffer(c: Component, d: Component)
    requires c in COMPONENTS && d in COMPONENTS && c.namespace == d.namespace
    ensures c == d
  {
  }

  lemma MadeIsHonest(v: Versions, since: set<Key>, f: Fault, s: Store, k: Key, obj: Obj)
    requires Fits(k.kind, obj.body) && HonestStore(v, since, s) && Honest(v, since, k, obj)
    ensures HonestStore(v, since, Made(f, s, k, obj).0)
  {
  }

  lemma ReplacedIsHonest(v: Versions, since: set<Key>, f: Fault, s: Store, k: Key, was: Obj, obj: Obj)
    requires Fits(k.kind, obj.body) && HonestStore(v, since, s)
    requires k in s && s[k] == was ==> Honest(v, since, k, obj)
    ensures HonestStore(v, since, Replaced(f, s, k, was, obj).0)
  {
  }

  /** What an installer learns from an honest store is true. */
  lemma CallKeepsMemory(v: Versions, since: set<Key>, s: Store, t: Thread, f: Fault)
    requires ValidPc(t.pc) && HonestStore(v, since, s) && HonestMemory(v, t)
    ensures HonestMemory(v, t.(pc := Step(t.component, t.pc, f, s).0))
  {
    hide Made, Replaced, Pinned, Labelled, CreateSubscriptionSpec;
  }

  lemma CallKeepsStore(v: Versions, since: set<Key>, s: Store, t: Thread, f: Fault)
    requires ValidPc(t.pc) && t.component in COMPONENTS && HonestStore(v, since, s) && HonestMemory(v, t)
    ensures HonestStore(v, since, Step(t.component, t.pc, f, s).1)
  {
    var c := t.component;
    forall d | d in COMPONENTS && d.namespace == c.namespace
      ensures d == c
    {
      ComponentsDiffer(c, d);
    }
    assert Pinned(c.namespace, c.csv);
    hide Made, Replaced, Pinned, Resolve, Labelled, CreateSubscriptionSpec, COMPONENTS;
    match t.pc
    case CheckNamespace =>
    case LabelNamespace(ns) => ReplacedIsHonest(v, since, f, s, NamespaceKey(c.namespace), ns, Adopted(ns));
    case MakeNamespace => MadeIsHonest(v, since, f, s, NamespaceKey(c.namespace), NEW_NAMESPACE);
    case ReadSubscription =>
    case ReadGroup =>
    case MakeGroup => MadeIsHonest(v, since, f, s, GroupKey(c), NEW_GROUP);
    case MakeSubscription => MadeIsHonest(v, since, f, s, SubscriptionKey(c), CreateSubscriptionObject(c));
    case RepairSubscription(sub) => ReplacedIsHonest(v, since, f, s, SubscriptionKey(c), sub, Repaired(c, sub));
    case ReadPlan(name) =>
    case Approve(name, plan) => ReplacedIsHonest(v, since, f, s, PlanKey(c, name), plan, Approved(plan));
    case Done(_) =>
  }

  lemma CallKeepsHonesty(v: Versions, since: set<Key>, s: Store, t: Thread, f: Fault)
    requires ValidPc(t.pc) && t.component in COMPONENTS && HonestStore(v, since, s) && HonestMemory(v, t)
    ensures var (pc, s2) := Step(t.component, t.pc, f, s);
      HonestStore(v, since, s2) && HonestMemory(v, t.(pc := pc))
  {
    hide Step, HonestStore, HonestMemory, COMPONENTS;
    CallKeepsMemory(v, since, s, t, f);
    CallKeepsStore(v, since, s, t, f);
  }

  lemma OthersKeepHonesty(v: Versions, since: set<Key>, y: System, m: Move)
    requires ValidThreads(y) && Allowed(v, y, m) && HonestStore(v, since, y.store) && !m.Call?
    ensures HonestStore(v, since, Next(v, y, m).store)
  {
  }

  lemma MoveKeepsInv(v: Versions, start: System, y: System, m: Move)
    requires Inv(v, start, y) && Allowed(v, y, m)
    ensures Inv(v, start, Next(v, y, m))
  {
    if m.Call? {
      CallKeepsInv(v, start, y, m);
    } else {
      OthersKeepHonesty(v, ApprovedIn(start.store), y, m);
      hide HonestStatus, COMPONENTS, ResolvedStore, Perform;
      assert m.OlmInstall? ==> Honest(v, ApprovedIn(start.store), m.plan, y.store[m.plan]);
      hide Honest, Pinned, HonestStore, ApprovedIn;
    }
  }

  lemma CallKeepsInv(v: Versions, start: System, y: System, m: Move)
    requires Inv(v, start, y) && Allowed(v, y, m) && m.Call?
    ensures Inv(v, start, Next(v, y, m))
  {
    CallKeepsHonesty(v, ApprovedIn(start.store), y.store, y.threads[m.thread], m.fault);
    hide Step, HonestStore, Pinned, COMPONENTS, HonestMemory, ApprovedIn;
  }

  // ---------- Runs ----------

  predicate AllowedRun(v: Versions, y: System, moves: seq<Move>)
    requires ValidThreads(y)
    decreases |moves|
  {
    moves == [] || (Allowed(v, y, moves[0]) && AllowedRun(v, Next(v, y, moves[0]), moves[1..]))
  }

  function Run(v: Versions, y: System, moves: seq<Move>): System
    requires ValidThreads(y) && AllowedRun(v, y, moves)
    decreases |moves|
  {
    if moves == [] then y else Run(v, Next(v, y, moves[0]), moves[1..])
  }

  lemma {:induction false} RunKeepsInv(v: Versions, start: System, y: System, moves: seq<Move>)
    requires Inv(v, start, y) && AllowedRun(v, y, moves)
    ensures Inv(v, start, Run(v, y, moves))
    decreases |moves|
  {
    hide Next, Allowed, HonestStore;
    if moves != [] {
      MoveKeepsInv(v, start, y, moves[0]);
      RunKeepsInv(v, start, Next(v, y, moves[0]), moves[1..]);
    }
  }

  /** No installer is running, and plans and Subscriptions agree about versions.  Plans of any version
      may be approved already, and any versions installed. */
  ghost predicate Consistent(v: Versions, y: System) {
    && y.threads == []
    && (forall k :: k in y.store && k.kind == Subscription ==> HonestStatus(v, k.ns, y.store[k].body.status))
    && (forall k :: k in y.store && k.kind == InstallPlan ==> y.store[k].body.csv == v(k))
  }

  /** However the installers, OLM and everybody else take turns: in a namespace the operator manages,
      every plan that is approved in the run is of the pinned version, and so is every version that is
      installed in the run, unless from a plan that was approved before. */
  lemma OnlyPinnedVersions(v: Versions, y: System, moves: seq<Move>)
    requires Consistent(v, y) && AllowedRun(v, y, moves)
    ensures var z := Run(v, y, moves);
      && (forall c, plan :: c in COMPONENTS && PlanKey(c, plan) in ApprovedIn(z.store) - ApprovedIn(y.store) ==>
            z.store[PlanKey(c, plan)].body.csv == c.csv)
      && (forall c, plan, version :: c in COMPONENTS && (PlanKey(c, plan), version) in z.installed - y.installed ==>
            PlanKey(c, plan) in ApprovedIn(y.store) || version == c.csv)
  {
    hide Run, AllowedRun, COMPONENTS;
    RunKeepsInv(v, y, y, moves);
    var z := Run(v, y, moves);
    forall c, plan | c in COMPONENTS && PlanKey(c, plan) in ApprovedIn(z.store) - ApprovedIn(y.store)
      ensures z.store[PlanKey(c, plan)].body.csv == c.csv
    {
      assert Honest(v, ApprovedIn(y.store), PlanKey(c, plan), z.store[PlanKey(c, plan)]);
    }
    forall c, plan, version | c in COMPONENTS && (PlanKey(c, plan), version) in z.installed - y.installed
      ensures PlanKey(c, plan) in ApprovedIn(y.store) || version == c.csv
    {
      assert Pinned(PlanKey(c, plan).ns, version) || PlanKey(c, plan) in ApprovedIn(y.store);
    }
  }

  /** No call of an installer, whatever it meets, withdraws an approval or touches a plan otherwise. */
  lemma ApprovalsStay(c: Component, pc: Pc, f: Fault, s: Store, plan: Key)
    requires ValidPc(pc) && plan.kind == InstallPlan && plan in s && s[plan].body.approved
    ensures plan in Installer.Step(c, pc, f, s).1 && Installer.Step(c, pc, f, s).1[plan].body.approved
  {
    hide Resolve, CreateSubscriptionSpec;
  }
}
