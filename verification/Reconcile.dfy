/** One reconciliation pass and the handler of the Subscription watch, as functions on the
    cluster and the operator's process. */
module ReconcileSpec {
  import opened Kubernetes
  import opened Desired
  import opened ApiServer
  import opened KubeOperationsSpec
  import opened NetworkPoliciesSpec
  import ServerlessLogicSpec
  import KnativeSpec
  import DeveloperHubSpec
  import GitOpsSpec

  /** The cluster, and the map of policy errors the process keeps. */
  datatype State = State(w: World, errors: Errors)

  /** What a pass tells the work queue. */
  datatype Verdict = Verdict(requeue: bool, after: bool, error: Option<Error>)

  const FINISHED := Verdict(false, false, None)
  const WAITING := Verdict(true, true, None)

  datatype Step<T> = Go(w: World, value: T) | Stop(w: World, verdict: Verdict) {
    predicate IsFailure() { Stop? }

    function PropagateFailure<U>(): Step<U>
      requires Stop?
    {
      Stop(w, verdict)
    }

    function Extract(): (World, T)
      requires Go?
    {
      (w, value)
    }
  }

  function OrStop<T>(r: Ret<T>, after: bool): Step<T> {
    match r
    case Ok(w, v) => Go(w, v)
    case Fail(w, e) => Stop(w, Verdict(false, after, Some(e)))
  }

  // ---------- Status ----------

  const AVAILABLE := "Available"
  const COMPLETED := "Completed"
  const DEGRADING := "Degrading"

  const STARTING := Condition(AVAILABLE, Unknown, "Reconciling", None)
  const DONE := Condition(COMPLETED, True, "ReconciliationCompleted", None)

  /** Overwrites the condition of the same type, or appends. */
  function SetStatusCondition(cs: seq<Condition>, c: Condition): seq<Condition> {
    if cs == [] then [c]
    else if cs[0].ctype == c.ctype then [c] + cs[1..]
    else [cs[0]] + SetStatusCondition(cs[1..], c)
  }

  function UpdateStatus(o: Oracle, w: World, cr: Orchestrator, phase: Phase, c: Condition): Ret<Orchestrator> {
    UpdateCRStatus(o, w, cr, Status(phase, SetStatusCondition(cr.status.conditions, c)))
  }

  // ---------- Before the stages ----------

  function HandleCleanUp(o: Oracle, w: World, s: Spec): Ret<()> {
    var (w1, _) :- KnativeSpec.HandleKnativeCleanUp(o, w);
    var (w2, _) :- ServerlessLogicSpec.HandleServerlessLogicCleanUp(o, w1, s.platform.namespace);
    DeveloperHubSpec.HandleRHDHCleanUp(o, w2, s.rhdh.namespace)
  }

  /** Cleans up after a resource that is being deleted; the pass goes on after that. */
  function HandleDeletion(o: Oracle, w: World, cr: Orchestrator): Step<Orchestrator> {
    if !cr.deleting then Go(w, cr)
    else
      var (w1, _) :- OrStop(HandleCleanUp(o, w, cr.spec), true);
      OrStop(UpdateCR(o, w1, cr, cr.(finalizers := cr.finalizers - {FINALIZER})), false)
  }

  function AddFinalizers(o: Oracle, w: World, cr: Orchestrator): Ret<Orchestrator> {
    if FINALIZER in cr.finalizers then Ok(w, cr)
    else UpdateCR(o, w, cr, cr.(finalizers := cr.finalizers + {FINALIZER}))
  }

  /** A resource without conditions gets its first one and is read again. */
  function InitializeStatus(o: Oracle, w: World, cr: Orchestrator): Step<Orchestrator> {
    if cr.status.conditions != [] then Go(w, cr)
    else
      var (w1, _) :- OrStop(UpdateStatus(o, w, cr, Running, STARTING), false);
      OrStop(GetCR(o, w1, false), true)
  }

  function Prepare(o: Oracle, w: World, cr: Orchestrator): Step<Orchestrator> {
    var (w1, cr1) :- HandleDeletion(o, w, cr);
    var (w2, cr2) :- OrStop(AddFinalizers(o, w1, cr1), false);
    InitializeStatus(o, w2, cr2)
  }

  // ---------- The stages ----------

  /** The first stage that failed, and its error. */
  datatype StageFailure = AtStage(stage: nat, error: Error)

  function RunStages(o: Oracle, st: State, s: Spec): (State, Option<StageFailure>) {
    var r1 := ServerlessLogicSpec.ReconcileServerlessLogic(o, st.w, s);
    if r1.Fail? then (st.(w := r1.w), Some(AtStage(1, r1.error)))
    else
      var r2 := KnativeSpec.ReconcileKnative(o, r1.w, s);
      if r2.Fail? then (st.(w := r2.w), Some(AtStage(2, r2.error)))
      else
        var r3 := DeveloperHubSpec.ReconcileRHDH(o, r2.w, s);
        if r3.Fail? then (st.(w := r3.w), Some(AtStage(3, r3.error)))
        else
          var (r4, errors) := ReconcileNetworkPolicy(o, r3.w, st.errors, s);
          if r4.Fail? then (State(r4.w, errors), Some(AtStage(4, r4.error)))
          else
            var r5 := GitOpsSpec.ReconcileGitOps(o, r4.w, s);
            (State(r5.w, errors), if r5.Fail? then Some(AtStage(5, r5.error)) else None)
  }

  function ReasonOf(stage: nat): string {
    if stage == 1 then "ReconcilingOSLResourcesFailed"
    else if stage == 2 then "ReconcilingKNativeResourcesFailed"
    else if stage == 3 then "ReconcilingRHDHResourcesFailed"
    else if stage == 4 then "ReconcilingNetworkPolicyFailed"
    else "ReconcilingGitOpsFailed"
  }

  /** A stage that waits for something is tried again without a trace in the status. */
  predicate Waits(f: StageFailure) {
    f.error == NotFound || (f.stage == 3 && f.error == NoMatch)
  }

  function DegradingCondition(f: StageFailure): Condition {
    Condition(DEGRADING, False, ReasonOf(f.stage), Some(f.error))
  }

  /** Errors of the closing status update are ignored. */
  function Conclude(o: Oracle, w: World, cr: Orchestrator, f: Option<StageFailure>): (World, Verdict) {
    match f
    case None => (UpdateStatus(o, w, cr, Completed, DONE).w, FINISHED)
    case Some(f) =>
      if Waits(f) then (w, WAITING)
      else (UpdateStatus(o, w, cr, Failed, DegradingCondition(f)).w, Verdict(f.stage >= 3, true, Some(f.error)))
  }

  // ---------- The pass ----------

  function Reconcile(o: Oracle, st: State): (State, Verdict) {
    match GetCR(o, st.w, true)
    case Fail(w1, e) => (st.(w := w1), if e == NotFound then FINISHED else Verdict(false, true, Some(e)))
    case Ok(w1, cr) =>
      match Prepare(o, w1, cr)
      case Stop(w2, v) => (st.(w := w2), v)
      case Go(w2, cr2) =>
        var (st3, failed) := RunStages(o, st.(w := w2), cr2.spec);
        var (w4, v) := Conclude(o, st3.w, cr2, failed);
        (st3.(w := w4), v)
  }

  /** The handler of the Subscription watch installs two of the three operators. */
  function ReconcileSubscription(o: Oracle, w: World, sub: Key, labels: Labels): World {
    var w1 := Note(w, WatchStarted);
    if !Labelled(labels) then w1
    else if sub == SubscriptionKey(LOGIC) then HandleOperatorInstallation(o, w1, LOGIC).w
    else if sub == SubscriptionKey(SERVERLESS) then HandleOperatorInstallation(o, w1, SERVERLESS).w
    else w1
  }
}

/** The controller: one reconciliation pass, and the handler of the Subscription watch. */
module Reconcile {
  import opened Kubernetes
  import opened Desired
  import opened Audit
  import opened Client
  import opened NetworkPolicies
  import KubeOperations
  import ServerlessLogic
  import Knative
  import DeveloperHub
  import GitOps
  import ApiServer
  import Kube = KubeOperationsSpec
  import LogicSpec = ServerlessLogicSpec
  import KnativeSpec
  import HubSpec = DeveloperHubSpec
  import PolicySpec = NetworkPoliciesSpec
  import GitOpsSpec
  import Spec = ReconcileSpec
  import opened Phases

  /** The outcome of a step that may end the pass. */
  datatype Step<T> = Go(value: T) | Stop(verdict: Spec.Verdict) {
    predicate IsFailure() { Stop? }

    function PropagateFailure<U>(): Step<U>
      requires Stop?
    {
      Stop(verdict)
    }

    function Extract(): T
      requires Go?
    {
      value
    }
  }

  ghost predicate Steps<T>(spec: Spec.Step<T>, w: World, r: Step<T>) {
    && spec.w == w
    && (match spec
        case Go(_, v) => r == Go(v)
        case Stop(_, v) => r == Stop(v))
  }

  function OrStop<T>(r: Result<T>, after: bool): Step<T> {
    match r
    case Success(v) => Go(v)
    case Failure(e) => Stop(Spec.Verdict(false, after, Some(e)))
  }

  class Reconciler {
    const c: Cluster
    const policies: PolicyErrors

    constructor (c: Cluster, errors: PolicySpec.Errors)
      ensures this.c == c && fresh(policies)
      ensures policies.allErrors == errors
    {
      this.c := c;
      this.policies := new PolicyErrors(errors);
    }

    function State(): Spec.State
      reads c, policies
    {
      Spec.State(c.W(), policies.allErrors)
    }

    method UpdateStatus(cr: Orchestrator, phase: Phase, cond: Condition) returns (r: Result<Orchestrator>)
      modifies c
      ensures Agrees(Spec.UpdateStatus(c.oracle, old(c.W()), cr, phase, cond), c.W(), r)
      ensures Follows(old(c.log), c.log)
      ensures Clean(old(c.log)) && Sound(old(c.log), Attempted(phase)) ==> Clean(c.log)
      ensures Overwritten(c.oracle, old(c.cr), c.cr, cr.status, Stamped(cr.status, phase, cond))
      ensures r.Success? ==> c.cr == Some(r.value) && r.value.status == Stamped(cr.status, phase, cond)
      ensures Faultless(old(c.log)) ==> Faultless(c.log)
      ensures Untroubled(old(c.log)) ==> Untroubled(c.log)
    {
      hide ApiServer.UpdateCRStatus, Clean, Sound, DoneBefore, Untroubled, Faultless;
      r := c.UpdateCRStatus(cr, Status(phase, Spec.SetStatusCondition(cr.status.conditions, cond)));
    }

    method HandleCleanUp(s: Kubernetes.Spec) returns (r: Result<()>)
      modifies c
      ensures Agrees(Spec.HandleCleanUp(c.oracle, old(c.W()), s), c.W(), r)
      ensures Follows(old(c.log), c.log)
      ensures StatusKept(c.oracle, old(c.cr), c.cr)
      ensures Clean(old(c.log)) && Removing(old(c.log), s) ==> Clean(c.log)
      ensures r.Success? ==> CleanedUp(c.log, s)
      ensures r.Success? && Removing(old(c.log), s) && Untroubled(old(c.log)) ==> Untroubled(c.log)
      ensures r.Failure? ==> r.error.Aggregate? || Blames(c.log, r.error)
    {
      hide Clean, Sound, DoneBefore, Untroubled;
      hide KnativeSpec.HandleKnativeCleanUp, LogicSpec.HandleServerlessLogicCleanUp, HubSpec.HandleRHDHCleanUp;
      var _ :- Knative.HandleKnativeCleanUp(c);
      var _ :- ServerlessLogic.HandleServerlessLogicCleanUp(c, s);
      r := DeveloperHub.HandleRHDHCleanUp(c, s);
    }

    /** The finalizer goes only after all three clean-ups. */
    method HandleDeletion(cr: Orchestrator) returns (r: Step<Orchestrator>)
      modifies c
      ensures Steps(Spec.HandleDeletion(c.oracle, old(c.W()), cr), c.W(), r)
      ensures Follows(old(c.log), c.log)
      ensures StatusKept(c.oracle, old(c.cr), c.cr)
      ensures Clean(old(c.log)) && PassOf(old(c.log)) == InPass(cr, cr) && Faultless(old(c.log)) ==> Clean(c.log)
      ensures !cr.deleting ==> c.log == old(c.log)
      ensures r.Go? ==> r.value.spec == cr.spec && r.value.deleting == cr.deleting && r.value.status == cr.status
      ensures r.Go? && cr.deleting ==> FINALIZER !in r.value.finalizers
    {
      hide Clean, DoneBefore, CleanedUp, Spec.HandleCleanUp, ApiServer.UpdateCR, Untroubled, Faultless;
      if Faultless(c.log) {
        FaultlessIsUntroubled(c.log);
      }
      if !cr.deleting {
        return Go(cr);
      }
      var cleaned := HandleCleanUp(cr.spec);
      var _ :- OrStop(cleaned, true);
      assert Clean(old(c.log)) && PassOf(old(c.log)) == InPass(cr, cr) ==> CleanedUp(c.log, cr.spec);
      var written := c.UpdateCR(cr, cr.(finalizers := cr.finalizers - {FINALIZER}));
      r := OrStop(written, false);
    }

    /** Fails on a resource that is being deleted and has lost the finalizer. */
    method AddFinalizers(cr: Orchestrator) returns (r: Result<Orchestrator>)
      modifies c
      ensures Agrees(Spec.AddFinalizers(c.oracle, old(c.W()), cr), c.W(), r)
      ensures Follows(old(c.log), c.log)
      ensures StatusKept(c.oracle, old(c.cr), c.cr)
      ensures Clean(old(c.log)) && PassOf(old(c.log)).InPass? ==> Clean(c.log)
      ensures r.Success? ==> r.value.spec == cr.spec && r.value.status == cr.status
      ensures r.Success? && cr.deleting ==> FINALIZER in cr.finalizers
      ensures Faultless(old(c.log)) ==> Faultless(c.log)
    {
      hide Clean, DoneBefore, ApiServer.UpdateCR, Untroubled, Faultless;
      if FINALIZER in cr.finalizers {
        return Success(cr);
      }
      r := c.UpdateCR(cr, cr.(finalizers := cr.finalizers + {FINALIZER}));
    }

    method InitializeStatus(cr: Orchestrator) returns (r: Step<Orchestrator>)
      modifies c
      ensures Steps(Spec.InitializeStatus(c.oracle, old(c.W()), cr), c.W(), r)
      ensures Clean(old(c.log)) ==> Clean(c.log)
      ensures r.Go? && PassOf(old(c.log)).InPass? ==>
        PassOf(c.log).InPass? && PassOf(c.log).start == PassOf(old(c.log)).start
      ensures r.Go? && PassOf(old(c.log)).InPass? && PassOf(old(c.log)).now.spec == cr.spec ==>
        PassOf(c.log).now.spec == r.value.spec
      ensures Moved(c.oracle, old(c.cr), c.cr) && StaysUncompleted(c.oracle, old(c.cr), c.cr)
      ensures cr.status.conditions != [] ==> StatusKept(c.oracle, old(c.cr), c.cr)
      ensures StatusIsOurs(c.oracle) && r.Go? ==> r.value.status.conditions != []
      ensures Faultless(old(c.log)) ==> Faultless(c.log)
    {
      hide Clean, DoneBefore, Spec.UpdateStatus, ApiServer.GetCR, Legal, Untroubled, Faultless;
      if cr.status.conditions == [] {
        StampKeepsLegal(cr.status, Running, Spec.STARTING);
      }
      if cr.status.conditions != [] {
        return Go(cr);
      }
      var updated := UpdateStatus(cr, Running, Spec.STARTING);
      var _ :- OrStop(updated, false);
      var read := c.GetCR(false);
      r := OrStop(read, true);
    }

    /** A pass that starts from a resource being deleted ends here. */
    method Prepare(cr: Orchestrator) returns (r: Step<Orchestrator>)
      modifies c
      ensures Steps(Spec.Prepare(c.oracle, old(c.W()), cr), c.W(), r)
      ensures Clean(old(c.log)) && PassOf(old(c.log)) == InPass(cr, cr) && Faultless(old(c.log)) ==> Clean(c.log)
      ensures r.Go? && Faultless(old(c.log)) ==> Faultless(c.log)
      ensures r.Go? && PassOf(old(c.log)) == InPass(cr, cr) ==>
        && !cr.deleting
        && PassOf(c.log).InPass? && PassOf(c.log).start == cr && PassOf(c.log).now.spec == r.value.spec
      ensures Moved(c.oracle, old(c.cr), c.cr) && StaysUncompleted(c.oracle, old(c.cr), c.cr)
      ensures cr.status.conditions != [] ==> StatusKept(c.oracle, old(c.cr), c.cr)
      ensures StatusIsOurs(c.oracle) && r.Go? ==> r.value.status.conditions != []
    {
      hide Untroubled, Faultless;
      hide Clean, Legal, Sound, DoneBefore, Spec.HandleDeletion, Spec.AddFinalizers, Spec.InitializeStatus;
      var cr1 :- HandleDeletion(cr);
      var added := AddFinalizers(cr1);
      var cr2 :- OrStop(added, false);
      assert !cr.deleting;
      r := InitializeStatus(cr2);
    }

    /** The stages in order; the first one that fails ends the run. */
    method RunStages(s: Kubernetes.Spec) returns (failed: Option<Spec.StageFailure>)
      modifies c, policies
      ensures (State(), failed) == Spec.RunStages(c.oracle, old(State()), s)
      ensures Follows(old(c.log), c.log)
      ensures StatusKept(c.oracle, old(c.cr), c.cr)
      ensures Clean(old(c.log)) && Entering(old(c.log), 1, s) ==> Clean(c.log)
      ensures failed.None? && Reached(old(c.log), 1) ==> DoneBefore(c.log, s, 6)
      ensures old(policies.allErrors).Keys <= policies.allErrors.Keys
      ensures failed.None? ==> old(policies.allErrors) == map[]
      ensures failed.None? && Entering(old(c.log), 1, s) && Untroubled(old(c.log)) ==> Untroubled(c.log)
      ensures failed.Some? ==>
        Blames(c.log, failed.value.error) || (failed.value == Spec.AtStage(4, Other) && policies.allErrors != map[])
    {
      hide Clean, Sound, LogicDone, KnativeDone, RHDHDone, PoliciesDone, GitOpsDone, Untroubled, Blames;
      hide LogicSpec.ReconcileServerlessLogic, KnativeSpec.ReconcileKnative, HubSpec.ReconcileRHDH;
      hide PolicySpec.ReconcileNetworkPolicy, GitOpsSpec.ReconcileGitOps;
      var r := ServerlessLogic.ReconcileServerlessLogic(c, s);
      if r.Failure? {
        return Some(Spec.AtStage(1, r.error));
      }
      assert DoneBefore(c.log, s, 2);
      r := Knative.ReconcileKnative(c, s);
      if r.Failure? {
        return Some(Spec.AtStage(2, r.error));
      }
      assert DoneBefore(c.log, s, 3);
      r := DeveloperHub.ReconcileRHDH(c, s);
      if r.Failure? {
        return Some(Spec.AtStage(3, r.error));
      }
      assert DoneBefore(c.log, s, 4);
      r := policies.ReconcileNetworkPolicy(c, s);
      if r.Failure? {
        return Some(Spec.AtStage(4, r.error));
      }
      assert DoneBefore(c.log, s, 5);
      r := GitOps.ReconcileGitOps(c, s);
      if r.Failure? {
        return Some(Spec.AtStage(5, r.error));
      }
      return None;
    }

    method Conclude(cr: Orchestrator, failed: Option<Spec.StageFailure>) returns (v: Spec.Verdict)
      modifies c
      ensures (c.W(), v) == Spec.Conclude(c.oracle, old(c.W()), cr, failed)
      ensures Clean(old(c.log)) && PassOf(old(c.log)).InPass? && (failed.None? ==> Reached(old(c.log), 6) && Untroubled(old(c.log))) ==> Clean(c.log)
      ensures cr.status.conditions != [] ==> Moved(c.oracle, old(c.cr), c.cr)
      ensures failed.Some? ==> StaysUncompleted(c.oracle, old(c.cr), c.cr)
      ensures v == Spec.WAITING ==> StatusKept(c.oracle, old(c.cr), c.cr)
    {
      hide Clean, DoneBefore, Spec.UpdateStatus, Legal, Untroubled, Faultless;
      if failed.None? {
        if cr.status.conditions != [] {
          StampKeepsLegal(cr.status, Completed, Spec.DONE);
        }
        var _ := UpdateStatus(cr, Completed, Spec.DONE);
        return Spec.FINISHED;
      }
      var f := failed.value;
      if Spec.Waits(f) {
        return Spec.WAITING;
      }
      if cr.status.conditions != [] {
        StampKeepsLegal(cr.status, Failed, Spec.DegradingCondition(f));
      }
      var _ := UpdateStatus(cr, Failed, Spec.DegradingCondition(f));
      return Spec.Verdict(f.stage >= 3, true, Some(f.error));
    }

    method Reconcile() returns (v: Spec.Verdict)
      modifies c, policies
      ensures (State(), v) == Spec.Reconcile(c.oracle, old(State()))
      ensures Clean(old(c.log)) ==> Clean(c.log)
      ensures Moved(c.oracle, old(c.cr), c.cr)
      ensures v == Spec.WAITING && old(c.cr).Some? && old(c.cr).value.status.conditions != [] ==>
        StatusKept(c.oracle, old(c.cr), c.cr)
      ensures old(policies.allErrors).Keys <= policies.allErrors.Keys
      ensures old(policies.allErrors) != map[] ==> StaysUncompleted(c.oracle, old(c.cr), c.cr)
    {
      hide Clean, Sound, LogicDone, KnativeDone, RHDHDone, PoliciesDone, GitOpsDone, Legal, Untroubled, Faultless, Blames;
      hide ApiServer.GetCR, Spec.Prepare, Spec.RunStages, Spec.Conclude;
      var read := c.GetCR(true);
      if read.Failure? {
        return if read.error == NotFound then Spec.FINISHED else Spec.Verdict(false, true, Some(read.error));
      }
      var ready := Prepare(read.value);
      if ready.Stop? {
        return ready.verdict;
      }
      if Faultless(c.log) {
        FaultlessIsUntroubled(c.log);
      }
      var failed := RunStages(ready.value.spec);
      v := Conclude(ready.value, failed);
    }

    /** Runs in parallel to passes; it never enqueues one. */
    method ReconcileSubscription(sub: Key, labels: Labels)
      modifies c
      ensures c.W() == Spec.ReconcileSubscription(c.oracle, old(c.W()), sub, labels)
      ensures Clean(old(c.log)) ==> Clean(c.log)
      ensures StatusKept(c.oracle, old(c.cr), c.cr)
    {
      hide Kube.HandleOperatorInstallation;
      c.Note(WatchStarted);
      if Labelled(labels) {
        if sub == SubscriptionKey(LOGIC) {
          var _ := KubeOperations.HandleOperatorInstallation(c, LOGIC);
        } else if sub == SubscriptionKey(SERVERLESS) {
          var _ := KubeOperations.HandleOperatorInstallation(c, SERVERLESS);
        }
      }
    }
  }
}
