/** The installer one API call at a time, so that several of them can be interleaved. */
module Installer {
  import opened Kubernetes
  import opened Desired
  import opened ApiServer
  import Kube = KubeOperationsSpec

  /** The call an installer makes next, with what it remembers from earlier answers. */
  datatype Pc =
    | CheckNamespace
    | LabelNamespace(ns: Obj)
    | MakeNamespace
    | ReadSubscription
    | ReadGroup
    | MakeGroup
    | MakeSubscription
    | RepairSubscription(sub: Obj)
    | ReadPlan(name: string)
    | Approve(plan: string, read: Obj)
    | Done(result: Result<()>)

  predicate ValidPc(pc: Pc) {
    match pc
    case LabelNamespace(ns) => Fits(Namespace, ns.body)
    case RepairSubscription(sub) => Fits(Subscription, sub.body)
    case Approve(_, plan) => Fits(InstallPlan, plan.body)
    case _ => true
  }

  /** Calls an installer may still make. */
  function Left(pc: Pc): nat {
    match pc
    case CheckNamespace => 8
    case LabelNamespace(_) => 7
    case MakeNamespace => 7
    case ReadSubscription => 6
    case ReadGroup => 5
    case MakeGroup => 4
    case MakeSubscription => 3
    case RepairSubscription(_) => 3
    case ReadPlan(_) => 2
    case Approve(_, _) => 1
    case Done(_) => 0
  }

  // ---------- One call ----------

  /** The store after a call, and its answer. */
  function Asked(f: Fault, s: Store, k: Key): (Store, Result<Obj>) {
    (s, if f.Healthy? then (if k in s then Success(s[k]) else Failure(NotFound)) else Failure(f.error))
  }

  function Answered(f: Fault, done: Store, own: Option<Error>): (Store, Result<()>) {
    (done, if f.Lost? then Failure(f.error) else if own.Some? then Failure(own.value) else Success(()))
  }

  function Made(f: Fault, s: Store, k: Key, obj: Obj): (Store, Result<()>)
    requires Fits(k.kind, obj.body)
  {
    if f.Rejected? then (s, Failure(f.error))
    else if !HasNamespace(s, k) then Answered(f, s, Some(NotFound))
    else if k in s then Answered(f, s, Some(AlreadyExists))
    else Answered(f, s[k := obj], None)
  }

  function Replaced(f: Fault, s: Store, k: Key, was: Obj, obj: Obj): (Store, Result<()>)
    requires Fits(k.kind, obj.body)
  {
    if f.Rejected? then (s, Failure(f.error))
    else if k !in s then Answered(f, s, Some(NotFound))
    else if s[k] != was then Answered(f, s, Some(Conflict))
    else Answered(f, s[k := obj], None)
  }

  /** After the Subscription: its plan is looked up if it is the pinned one. */
  function Resolve(c: Component, sub: Obj): Pc
    requires sub.body.SubscriptionBody?
  {
    var status := sub.body.status;
    if status.Resolved? && status.currentCSV == c.csv then ReadPlan(status.installPlan) else Done(Success(()))
  }

  function Step(c: Component, pc: Pc, f: Fault, s: Store): (r: (Pc, Store))
    requires ValidPc(pc)
    ensures ValidPc(r.0)
    ensures !pc.Done? ==> Left(r.0) < Left(pc)
  {
    match pc
    case CheckNamespace =>
      var (s1, r) := Asked(f, s, NamespaceKey(c.namespace));
      (match r
       case Success(ns) => if Labelled(ns.labels) then ReadSubscription else LabelNamespace(ns)
       case Failure(e) => if e == NotFound then MakeNamespace else if c.strict then Done(Failure(e)) else ReadSubscription,
       s1)
    case LabelNamespace(ns) =>
      (ReadSubscription, Replaced(f, s, NamespaceKey(c.namespace), ns, Adopted(ns)).0)
    case MakeNamespace =>
      var (s1, r) := Made(f, s, NamespaceKey(c.namespace), NEW_NAMESPACE);
      (match r
       case Success(_) => if c.strict then Done(Failure(NotFound)) else ReadSubscription
       case Failure(e) => Done(if c.strict then Success(()) else Failure(e)),
       s1)
    case ReadSubscription =>
      var (s1, r) := Asked(f, s, SubscriptionKey(c));
      (match r
       case Success(sub) => if sub.body.spec == CreateSubscriptionSpec(c) then Resolve(c, sub) else RepairSubscription(sub)
       case Failure(e) => if e == NotFound then ReadGroup else Done(Failure(e)),
       s1)
    case ReadGroup =>
      var (s1, r) := Asked(f, s, GroupKey(c));
      (if r.Success? then MakeSubscription else MakeGroup, s1)
    case MakeGroup =>
      var (s1, r) := Made(f, s, GroupKey(c), NEW_GROUP);
      (if r.Success? then MakeSubscription else Done(r), s1)
    case MakeSubscription =>
      var (s1, r) := Made(f, s, SubscriptionKey(c), CreateSubscriptionObject(c));
      (Done(r), s1)
    case RepairSubscription(sub) =>
      var (s1, r) := Replaced(f, s, SubscriptionKey(c), sub, Repaired(c, sub));
      (if r.Success? then Resolve(c, sub) else Done(r), s1)
    case ReadPlan(name) =>
      var (s1, r) := Asked(f, s, PlanKey(c, name));
      (match r
       case Success(plan) => if plan.body.approved then Done(Success(())) else Approve(name, plan)
       case Failure(e) => Done(Failure(e)),
       s1)
    case Approve(name, plan) =>
      var (s1, r) := Replaced(f, s, PlanKey(c, name), plan, Approved(plan));
      (Done(r), s1)
    case Done(_) => (pc, s)
  }

  /** One step of an installer that meets the oracle's interference and fault. */
  function After(o: Oracle, w: World, c: Component, pc: Pc): (r: (World, Pc))
    requires ValidPc(pc)
    ensures ValidPc(r.1)
    ensures !pc.Done? ==> Left(r.1) < Left(pc)
  {
    var w1 := Tick(o, w);
    var (pc2, s2) := Step(c, pc, o(w.clock).fault, w1.store);
    (w1.(store := s2), pc2)
  }

  /** Steps until the installer is done. */
  function Run(o: Oracle, w: World, c: Component, pc: Pc): (World, Result<()>)
    requires ValidPc(pc)
    decreases Left(pc)
  {
    if pc.Done? then (w, pc.result)
    else
      var (w1, pc1) := After(o, w, c, pc);
      Run(o, w1, c, pc1)
  }

  // ---------- The steps are the installer ----------

  /** Equal up to the log. */
  ghost predicate Alike(v: World, w: World) {
    v.store == w.store && v.cr == w.cr && v.clock == w.clock
  }

  ghost predicate SameRun(a: (World, Result<()>), b: Ret<()>) {
    Alike(a.0, b.w) && a.1 == b.Outcome()
  }

  lemma PerformAlike(v: World, w: World, acts: seq<Act>)
    requires Alike(v, w)
    ensures Alike(PerformAll(v, acts), PerformAll(w, acts))
    decreases |acts|
  {
    if acts != [] {
      PerformAlike(Perform(v, acts[0]), Perform(w, acts[0]), acts[1..]);
    }
  }

  lemma TickAlike(o: Oracle, v: World, w: World)
    requires Alike(v, w)
    ensures Alike(Tick(o, v), Tick(o, w))
  {
    PerformAlike(v, w, o(w.clock).others);
  }

  lemma AskedAlike(o: Oracle, v: World, w: World, k: Key)
    requires Alike(v, w)
    ensures var (s, r) := Asked(o(v.clock).fault, Tick(o, v).store, k);
      Alike(Tick(o, v).(store := s), Get(o, w, k).w) && r == Get(o, w, k).Outcome()
  {
    hide Tick;
    TickAlike(o, v, w);
  }

  lemma MadeAlike(o: Oracle, v: World, w: World, k: Key, obj: Obj)
    requires Alike(v, w) && Fits(k.kind, obj.body)
    ensures var (s, r) := Made(o(v.clock).fault, Tick(o, v).store, k, obj);
      Alike(Tick(o, v).(store := s), Create(o, w, k, obj).w) && r == Create(o, w, k, obj).Outcome()
  {
    TickAlike(o, v, w);
    MadeIsCreated(o, w, k, obj);
    hide Tick, Create, Made;
  }

  /** What a response says, apart from the log. */
  lemma RespondAlike(f: Fault, w: World)
    ensures forall c: Call, own :: Alike(Respond(c, f, w, own, ()).w, w)
    ensures forall c: Call, own :: Respond(c, f, w, own, ()).Outcome() == Answered(f, w.store, own).1
  {
  }

  lemma MadeIsCreated(o: Oracle, w: World, k: Key, obj: Obj)
    requires Fits(k.kind, obj.body)
    ensures var c, w1 := Create(o, w, k, obj), Tick(o, w);
      && (c.w.store, c.Outcome()) == Made(o(w.clock).fault, w1.store, k, obj)
      && c.w.cr == w1.cr && c.w.clock == w1.clock
  {
    hide Tick, HasNamespace, Fits, Respond;
    var w1 := Tick(o, w);
    RespondAlike(o(w.clock).fault, w1);
    RespondAlike(o(w.clock).fault, Note(w1.(store := w1.store[k := obj]), Created(k, obj)));
  }

  lemma ReplacedIsUpdated(o: Oracle, w: World, k: Key, was: Obj, obj: Obj)
    requires Fits(k.kind, obj.body)
    ensures var c, w1 := Update(o, w, k, was, obj), Tick(o, w);
      && (c.w.store, c.Outcome()) == Replaced(o(w.clock).fault, w1.store, k, was, obj)
      && c.w.cr == w1.cr && c.w.clock == w1.clock
  {
    hide Tick, Fits, Respond;
    var w1 := Tick(o, w);
    RespondAlike(o(w.clock).fault, w1);
    RespondAlike(o(w.clock).fault, Note(w1.(store := w1.store[k := obj]), Updated(k, was, obj)));
  }

  lemma ReplacedAlike(o: Oracle, v: World, w: World, k: Key, was: Obj, obj: Obj)
    requires Alike(v, w) && Fits(k.kind, obj.body)
    ensures var (s, r) := Replaced(o(v.clock).fault, Tick(o, v).store, k, was, obj);
      Alike(Tick(o, v).(store := s), Update(o, w, k, was, obj).w) && r == Update(o, w, k, was, obj).Outcome()
  {
    TickAlike(o, v, w);
    ReplacedIsUpdated(o, w, k, was, obj);
    hide Tick, Update, Replaced;
  }

  lemma PlanSteps(o: Oracle, v: World, w: World, c: Component, name: string)
    requires Alike(v, w) && c in COMPONENTS
    ensures SameRun(Run(o, v, c, ReadPlan(name)), Kube.ApproveInstallPlan(o, w, c, name))
  {
    hide Get, Update, Asked, Replaced, Tick;
    AskedAlike(o, v, w, PlanKey(c, name));
    var r := Get(o, w, PlanKey(c, name));
    var (v1, pc1) := After(o, v, c, ReadPlan(name));
    if pc1.Approve? {
      ReplacedAlike(o, v1, r.w, PlanKey(c, name), r.value, Approved(r.value));
      var (v2, pc2) := After(o, v1, c, pc1);
      assert Run(o, v1, c, pc1) == Run(o, v2, c, pc2) == (v2, pc2.result);
    } else {
      assert Run(o, v1, c, pc1) == (v1, pc1.result);
    }
  }

  lemma ResolveSteps(o: Oracle, v: World, w: World, c: Component, sub: Obj)
    requires Alike(v, w) && c in COMPONENTS && sub.body.SubscriptionBody?
    ensures SameRun(Run(o, v, c, Resolve(c, sub)), Kube.ApproveIfPinned(o, w, c, Some(sub)))
  {
    hide After, Kube.ApproveInstallPlan;
    if Resolve(c, sub).ReadPlan? {
      PlanSteps(o, v, w, c, sub.body.status.installPlan);
    }
  }

  lemma MakeSubscriptionSteps(o: Oracle, v: World, w: World, c: Component)
    requires Alike(v, w)
    ensures SameRun(Run(o, v, c, MakeSubscription), Create(o, w, SubscriptionKey(c), CreateSubscriptionObject(c)))
  {
    hide Create, Made, Tick;
    MadeAlike(o, v, w, SubscriptionKey(c), CreateSubscriptionObject(c));
    var (v1, pc1) := After(o, v, c, MakeSubscription);
    assert Run(o, v, c, MakeSubscription) == Run(o, v1, c, pc1) == (v1, pc1.result);
  }

  lemma MakeSteps(o: Oracle, v: World, w: World, c: Component)
    requires Alike(v, w)
    ensures SameRun(Run(o, v, c, ReadGroup), Kube.InstallSubscriptionAndOperatorGroup(o, w, c))
  {
    hide Get, Create, Asked, Made, Tick, CreateSubscriptionObject;
    AskedAlike(o, v, w, GroupKey(c));
    var r := Get(o, w, GroupKey(c));
    var (v1, pc1) := After(o, v, c, ReadGroup);
    assert Run(o, v, c, ReadGroup) == Run(o, v1, c, pc1);
    if r.Ok? {
      MakeSubscriptionSteps(o, v1, r.w, c);
    } else {
      MadeAlike(o, v1, r.w, GroupKey(c), NEW_GROUP);
      var made := Create(o, r.w, GroupKey(c), NEW_GROUP);
      var (v2, pc2) := After(o, v1, c, pc1);
      assert Run(o, v1, c, pc1) == Run(o, v2, c, pc2);
      if made.Ok? {
        MakeSubscriptionSteps(o, v2, made.w, c);
      }
    }
  }

  lemma RepairSteps(o: Oracle, v: World, w: World, c: Component, sub: Obj)
    requires Alike(v, w) && c in COMPONENTS && sub.body.SubscriptionBody?
    ensures var u := Update(o, w, SubscriptionKey(c), sub, Repaired(c, sub));
      SameRun(Run(o, v, c, RepairSubscription(sub)),
              if u.Ok? then Kube.ApproveIfPinned(o, u.w, c, Some(Repaired(c, sub))) else Fail(u.w, u.error))
  {
    hide Replaced, Update, Tick, Kube.ApproveIfPinned, CreateSubscriptionSpec;
    ReplacedAlike(o, v, w, SubscriptionKey(c), sub, Repaired(c, sub));
    var u := Update(o, w, SubscriptionKey(c), sub, Repaired(c, sub));
    var (v1, pc1) := After(o, v, c, RepairSubscription(sub));
    assert Run(o, v, c, RepairSubscription(sub)) == Run(o, v1, c, pc1);
    if u.Ok? {
      ResolveSteps(o, v1, u.w, c, Repaired(c, sub));
    }
  }

  lemma AfterReading(o: Oracle, v: World, w: World, c: Component)
    requires Alike(v, w)
    ensures var r := Get(o, w, SubscriptionKey(c));
      var a := After(o, v, c, ReadSubscription);
      && Alike(a.0, r.w)
      && Run(o, v, c, ReadSubscription) == Run(o, a.0, c, a.1)
      && a.1 == (if r.Fail? then (if r.error == NotFound then ReadGroup else Done(Failure(r.error)))
                 else if r.value.body.spec == CreateSubscriptionSpec(c) then Resolve(c, r.value)
                 else RepairSubscription(r.value))
  {
    hide Get, Asked, Tick, Resolve, CreateSubscriptionSpec;
    AskedAlike(o, v, w, SubscriptionKey(c));
  }

  lemma SubscriptionSteps(o: Oracle, v: World, w: World, c: Component)
    requires Alike(v, w) && c in COMPONENTS
    ensures SameRun(Run(o, v, c, ReadSubscription), Kube.InstallOperator(o, w, c))
  {
    hide Get, Update, After, Resolve, Repaired;
    hide Kube.InstallSubscriptionAndOperatorGroup, Kube.ApproveInstallPlan, CreateSubscriptionSpec;
    AfterReading(o, v, w, c);
    var r := Get(o, w, SubscriptionKey(c));
    var (v1, pc1) := After(o, v, c, ReadSubscription);
    if r.Ok? {
      if r.value.body.spec == CreateSubscriptionSpec(c) {
        ResolveSteps(o, v1, r.w, c, r.value);
      } else {
        RepairSteps(o, v1, r.w, c, r.value);
      }
    } else if r.error == NotFound {
      MakeSteps(o, v1, r.w, c);
      var made := Kube.InstallSubscriptionAndOperatorGroup(o, r.w, c);
      assert made.Ok? ==> made.value == ();
    }
  }

  /** Run alone, the steps end in the world the installer ends in, with its result. */
  lemma InstallerSteps(o: Oracle, w: World, c: Component)
    requires c in COMPONENTS
    ensures SameRun(Run(o, w, c, CheckNamespace), Kube.HandleOperatorInstallation(o, w, c))
  {
    hide Get, Asked, Replaced, Made, Create, Update, Tick, Kube.InstallOperator, Labelled;
    var k := NamespaceKey(c.namespace);
    AskedAlike(o, w, w, k);
    var r := Get(o, w, k);
    var (v1, pc1) := After(o, w, c, CheckNamespace);
    assert Run(o, w, c, CheckNamespace) == Run(o, v1, c, pc1);
    match pc1
    case ReadSubscription =>
      SubscriptionSteps(o, v1, r.w, c);
    case LabelNamespace(ns) =>
      ReplacedAlike(o, v1, r.w, k, ns, Adopted(ns));
      var (v2, pc2) := After(o, v1, c, pc1);
      assert Run(o, v1, c, pc1) == Run(o, v2, c, pc2);
      SubscriptionSteps(o, v2, Update(o, r.w, k, ns, Adopted(ns)).w, c);
    case MakeNamespace =>
      MadeAlike(o, v1, r.w, k, NEW_NAMESPACE);
      var made := Create(o, r.w, k, NEW_NAMESPACE);
      var (v2, pc2) := After(o, v1, c, pc1);
      assert Run(o, v1, c, pc1) == Run(o, v2, c, pc2);
      if pc2.ReadSubscription? {
        SubscriptionSteps(o, v2, made.w, c);
      }
    case Done(_) =>
  }
}
