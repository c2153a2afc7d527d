/** What a pass tells the work queue and writes to the status, whatever its calls meet. */
module Verdicts {
  import opened Kubernetes
  import opened ApiServer
  import opened ReconcileSpec
  import NetworkPoliciesSpec
  import ServerlessLogicSpec
  import KnativeSpec
  import DeveloperHubSpec
  import GitOpsSpec

  /** Nobody else acts at this time, and the call goes well. */
  predicate Quietly(o: Oracle, t: nat) {
    o(t).others == [] && o(t).fault.Healthy?
  }

  // ---------- The status ----------

  /** Why the stages failed, as the status tells it. */
  function ReasonTold(stage: nat): string {
    match stage
    case 1 => "ReconcilingOSLResourcesFailed"
    case 2 => "ReconcilingKNativeResourcesFailed"
    case 3 => "ReconcilingRHDHResourcesFailed"
    case 4 => "ReconcilingNetworkPolicyFailed"
    case 5 => "ReconcilingGitOpsFailed"
    case _ => ""
  }

  /** The condition is there, it is the only one of its type, and the others are as they were. */
  ghost predicate Tells(before: seq<Condition>, after: seq<Condition>, c: Condition) {
    && c in after
    && (forall d :: d in after && d.ctype == c.ctype && d != c ==> d in before)
    && (forall d: Condition :: d.ctype != c.ctype ==> (d in after <==> d in before))
  }

  lemma {:induction false} SettingTells(cs: seq<Condition>, c: Condition)
    ensures Tells(cs, SetStatusCondition(cs, c), c)
  {
    if cs != [] && cs[0].ctype != c.ctype {
      SettingTells(cs[1..], c);
      var rest := SetStatusCondition(cs[1..], c);
      assert forall d :: d in [cs[0]] + rest <==> d == cs[0] || d in rest;
      assert forall d :: d in cs <==> d == cs[0] || d in cs[1..];
    } else if cs != [] {
      assert forall d :: d in [c] + cs[1..] <==> d == c || d in cs[1..];
      assert forall d :: d in cs <==> d == cs[0] || d in cs[1..];
    }
  }

  /** A status that is written without disturbance is the stored one. */
  lemma QuietStatus(o: Oracle, w: World, cr: Orchestrator, phase: Phase, c: Condition)
    requires Quietly(o, w.clock) && w.cr == Some(cr)
    ensures var r := UpdateStatus(o, w, cr, phase, c);
      && r.Ok? && r.w.cr == Some(r.value) && r.w.store == w.store
      && r.value == cr.(status := r.value.status) && r.value.status.phase == phase
      && Tells(cr.status.conditions, r.value.status.conditions, c)
  {
    SettingTells(cr.status.conditions, c);
    hide SetStatusCondition, Tells;
  }

  lemma StatusIsAttempted(o: Oracle, w: World, cr: Orchestrator, phase: Phase, c: Condition)
    ensures UpdateStatus(o, w, cr, phase, c).w.log == Snoc(w.log, Attempted(phase))
  {
    hide SetStatusCondition;
  }

  // ---------- A pass that reaches the stages ----------

  /** The pass has read the resource, got it ready, and run the stages. */
  ghost predicate RanStages(o: Oracle, st: State, cr: Orchestrator, after: State, failed: Option<StageFailure>) {
    var r := GetCR(o, st.w, true);
    && r.Ok?
    && var p := Prepare(o, r.w, r.value);
      && p.Go? && p.value == cr
      && RunStages(o, st.(w := p.w), cr.spec) == (after, failed)
  }

  /** When the stages fail with NotFound, or the RHDH stage with NoMatch, the pass waits without a trace:
      it makes no further call and tells no error. */
  lemma WaitingPass(o: Oracle, st: State, cr: Orchestrator, after: State, n: nat, e: Error)
    requires RanStages(o, st, cr, after, Some(AtStage(n, e)))
    requires e == NotFound || (n == 3 && e == NoMatch)
    ensures Reconcile(o, st) == (after, Verdict(true, true, None))
  {
    hide GetCR, Prepare, RunStages, UpdateStatus;
  }

  /** With any other error, the pass attempts the phase Failed last, and tells the error; after the last
      three stages it sets the requeue flag, too. */
  lemma FailingPass(o: Oracle, st: State, cr: Orchestrator, after: State, n: nat, e: Error)
    requires RanStages(o, st, cr, after, Some(AtStage(n, e)))
    requires e != NotFound && !(n == 3 && e == NoMatch)
    ensures var (end, v) := Reconcile(o, st);
      && 1 <= n <= 5
      && v == Verdict(n in {3, 4, 5}, true, Some(e))
      && end.errors == after.errors
      && end.w.log == Snoc(after.w.log, Attempted(Failed))
      && (Quietly(o, after.w.clock) && after.w.cr == Some(cr) ==>
            && end.w.cr.Some? && end.w.store == after.w.store
            && end.w.cr.value == cr.(status := end.w.cr.value.status)
            && end.w.cr.value.status.phase == Failed
            && Tells(cr.status.conditions, end.w.cr.value.status.conditions,
                     Condition("Degrading", False, ReasonTold(n), Some(e))))
  {
    hide GetCR, Prepare, UpdateStatus, Tells;
    StageIsNumbered(o, st.(w := Prepare(o, GetCR(o, st.w, true).w, GetCR(o, st.w, true).value).w), cr.spec);
    hide RunStages;
    var c := Condition("Degrading", False, ReasonTold(n), Some(e));
    assert DegradingCondition(AtStage(n, e)) == c;
    StatusIsAttempted(o, after.w, cr, Failed, c);
    if Quietly(o, after.w.clock) && after.w.cr == Some(cr) {
      QuietStatus(o, after.w, cr, Failed, c);
    }
  }

  lemma StageIsNumbered(o: Oracle, st: State, spec: Spec)
    ensures RunStages(o, st, spec).1.Some? ==> 1 <= RunStages(o, st, spec).1.value.stage <= 5
  {
    hide ServerlessLogicSpec.ReconcileServerlessLogic, KnativeSpec.ReconcileKnative, DeveloperHubSpec.ReconcileRHDH;
    hide NetworkPoliciesSpec.ReconcileNetworkPolicy, GitOpsSpec.ReconcileGitOps;
  }

  /** When all stages succeed, the pass attempts the phase Completed last, and is finished, even if that
      attempt fails. */
  lemma CompletingPass(o: Oracle, st: State, cr: Orchestrator, after: State)
    requires RanStages(o, st, cr, after, None)
    ensures var (end, v) := Reconcile(o, st);
      && v == Verdict(false, false, None)
      && end.errors == after.errors
      && end.w.log == Snoc(after.w.log, Attempted(Completed))
      && (Quietly(o, after.w.clock) && after.w.cr == Some(cr) ==>
            && end.w.cr.Some? && end.w.store == after.w.store
            && end.w.cr.value == cr.(status := end.w.cr.value.status)
            && end.w.cr.value.status.phase == Completed
            && Tells(cr.status.conditions, end.w.cr.value.status.conditions,
                     Condition("Completed", True, "ReconciliationCompleted", None)))
  {
    hide GetCR, Prepare, RunStages, UpdateStatus, Tells;
    var c := Condition("Completed", True, "ReconciliationCompleted", None);
    StatusIsAttempted(o, after.w, cr, Completed, c);
    if Quietly(o, after.w.clock) && after.w.cr == Some(cr) {
      QuietStatus(o, after.w, cr, Completed, c);
    }
  }

  // ---------- A pass that does not ----------

  /** A resource that is gone ends the matter; a failing first read is tried again after a while. */
  lemma UnreadPass(o: Oracle, st: State)
    requires GetCR(o, st.w, true).Fail?
    ensures var r := GetCR(o, st.w, true);
      Reconcile(o, st) == (st.(w := r.w), if r.error == NotFound then Verdict(false, false, None) else Verdict(false, true, Some(r.error)))
  {
    hide GetCR;
  }

  /** A clean-up that fails ends the pass, which tells the error and asks to be tried again after a while. */
  lemma FailedCleanUp(o: Oracle, st: State)
    requires var r := GetCR(o, st.w, true); r.Ok? && r.value.deleting && HandleCleanUp(o, r.w, r.value.spec).Fail?
    ensures var r := GetCR(o, st.w, true); var c := HandleCleanUp(o, r.w, r.value.spec);
      Reconcile(o, st) == (st.(w := c.w), Verdict(false, true, Some(c.error)))
  {
    hide GetCR, HandleCleanUp;
  }

  /** A clean-up that succeeds: the one thing left to do is to take the finalizer off.  The pass tells an
      error anyhow: that of the removal, or the one met on trying to put the finalizer back. */
  lemma SucceededCleanUp(o: Oracle, st: State)
    requires var r := GetCR(o, st.w, true); r.Ok? && r.value.deleting && HandleCleanUp(o, r.w, r.value.spec).Ok?
    ensures var r := GetCR(o, st.w, true); var cr := r.value; var c := HandleCleanUp(o, r.w, cr.spec);
      var less := cr.(finalizers := cr.finalizers - {"rhdh.redhat.com/orchestrator-cleanup"});
      var u := UpdateCR(o, c.w, cr, less); var (end, v) := Reconcile(o, st);
      && v.error.Some? && v == Verdict(false, false, v.error)
      && end.errors == st.errors
      && (u.Fail? ==> end.w == u.w && v.error == Some(u.error))
  {
    hide GetCR, HandleCleanUp, UpdateCR, InitializeStatus, RunStages;
    var r := GetCR(o, st.w, true);
    var c := HandleCleanUp(o, r.w, r.value.spec);
    var less := r.value.(finalizers := r.value.finalizers - {FINALIZER});
    var u := UpdateCR(o, c.w, r.value, less);
    assert FINALIZER in (less.finalizers + {FINALIZER}) - less.finalizers;
  }

  /** Before the stages: the finalizer is put on unless it is there, and a resource without conditions
      gets the first one and is read again.  An error of any of these calls ends the pass and is told; after
      the second read, NotFound included, the pass asks to be tried again after a while. */
  lemma UnpreparedPass(o: Oracle, st: State)
    requires var r := GetCR(o, st.w, true); r.Ok? && !r.value.deleting && Prepare(o, r.w, r.value).Stop?
    ensures var r := GetCR(o, st.w, true); var cr := r.value; var (end, v) := Reconcile(o, st);
      var more := cr.(finalizers := cr.finalizers + {"rhdh.redhat.com/orchestrator-cleanup"});
      var u := UpdateCR(o, r.w, cr, more);
      var w2, cr2 := if "rhdh.redhat.com/orchestrator-cleanup" in cr.finalizers then r.w else u.w, more;
      if "rhdh.redhat.com/orchestrator-cleanup" !in cr.finalizers && u.Fail? then
        end == st.(w := u.w) && v == Verdict(false, false, Some(u.error))
      else
        && cr.status.conditions == []
        && var s := UpdateCRStatus(o, w2, cr2, Status(Running, [Condition("Available", Unknown, "Reconciling", None)]));
          if s.Fail? then end == st.(w := s.w) && v == Verdict(false, false, Some(s.error))
          else
            var again := GetCR(o, s.w, false);
            again.Fail? && end == st.(w := again.w) && v == Verdict(false, true, Some(again.error))
  {
    hide GetCR, UpdateCR, UpdateCRStatus, RunStages;
    var cr := GetCR(o, st.w, true).value;
    assert FINALIZER in cr.finalizers ==> cr.finalizers + {FINALIZER} == cr.finalizers;
  }

  // ---------- All passes ----------

  /** A pass is finished only if the resource is gone or Completed was attempted last.  Every other pass
      tells an error, or waits because a stage did not find something. */
  lemma NoPassIsForgotten(o: Oracle, st: State)
    ensures var r := GetCR(o, st.w, true); var (end, v) := Reconcile(o, st);
      || v.error.Some?
      || (v == Verdict(false, false, None) &&
          ((r.Fail? && r.error == NotFound) || (end.w.log.Snoc? && end.w.log.event == Attempted(Completed))))
      || (v == Verdict(true, true, None) && exists cr, after, n, e ::
            RanStages(o, st, cr, after, Some(AtStage(n, e))) && (e == NotFound || e == NoMatch))
  {
    hide GetCR, HandleCleanUp, UpdateCR, RunStages, Conclude;
    var r := GetCR(o, st.w, true);
    if r.Fail? {
      UnreadPass(o, st);
    } else if r.value.deleting {
      if HandleCleanUp(o, r.w, r.value.spec).Fail? {
        FailedCleanUp(o, st);
      } else {
        SucceededCleanUp(o, st);
      }
    } else {
      var p := Prepare(o, r.w, r.value);
      if p.Stop? {
        UnpreparedPass(o, st);
      } else {
        var (after, failed) := RunStages(o, st.(w := p.w), p.value.spec);
        assert RanStages(o, st, p.value, after, failed);
        if failed.None? {
          CompletingPass(o, st, p.value, after);
        } else if failed.value.error == NotFound || (failed.value.stage == 3 && failed.value.error == NoMatch) {
          WaitingPass(o, st, p.value, after, failed.value.stage, failed.value.error);
          assert RanStages(o, st, p.value, after, Some(AtStage(failed.value.stage, failed.value.error)));
        } else {
          FailingPass(o, st, p.value, after, failed.value.stage, failed.value.error);
        }
      }
    }
  }
}
