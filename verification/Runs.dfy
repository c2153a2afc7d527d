/** Everything a worker does after it was started: passes, watch events and restarts. */
module RunsSpec {
  import opened Kubernetes
  import opened ReconcileSpec

  datatype Job = Pass | Watch(sub: Key, labels: Labels) | Restart

  function Do(o: Oracle, st: State, job: Job): State {
    match job
    case Pass => Reconcile(o, st).0
    case Watch(sub, labels) => st.(w := ReconcileSubscription(o, st.w, sub, labels))
    case Restart => st.(errors := map[])
  }

  function Run(o: Oracle, st: State, jobs: seq<Job>): State
    decreases |jobs|
  {
    if jobs == [] then st else Run(o, Do(o, st, jobs[0]), jobs[1..])
  }
}

/** Runs of the operator, under any faults and any interference. */
module Runs {
  import opened Kubernetes
  import opened Audit
  import opened Client
  import opened Phases
  import opened Reconcile
  import opened RunsSpec
  import Spec = ReconcileSpec

  method Work(r: Reconciler, job: Job)
    modifies r.c, r.policies
    ensures r.State() == Do(r.c.oracle, old(r.State()), job)
    ensures Clean(old(r.c.log)) ==> Clean(r.c.log)
    ensures Moved(r.c.oracle, old(r.c.cr), r.c.cr)
    ensures !job.Restart? && old(r.policies.allErrors) != map[] ==>
      r.policies.allErrors != map[] && StaysUncompleted(r.c.oracle, old(r.c.cr), r.c.cr)
  {
    hide Clean, Legal, Spec.Reconcile, Spec.ReconcileSubscription;
    match job {
      case Pass =>
        var _ := r.Reconcile();
        assert old(r.policies.allErrors) != map[] ==> exists k :: k in old(r.policies.allErrors);
      case Watch(sub, labels) =>
        r.ReconcileSubscription(sub, labels);
      case Restart =>
        r.policies.allErrors := map[];
    }
  }

  /** Whatever the calls meet: the log of a run stays clean, the status moves within its machine, and
      a process that has once failed on a network policy completes no resource any more. */
  method Operate(o: Oracle, st: Spec.State, jobs: seq<Job>) returns (end: Spec.State)
    ensures end == Run(o, st, jobs)
    ensures Clean(st.w.log) ==> Clean(end.w.log)
    ensures Moved(o, st.w.cr, end.w.cr)
    ensures st.errors != map[] && Restart !in jobs ==> end.errors != map[] && StaysUncompleted(o, st.w.cr, end.w.cr)
  {
    hide Clean, Legal, Do;
    var c := new Cluster(o, st.w);
    var r := new Reconciler(c, st.errors);
    var rest := jobs;
    while rest != []
      invariant Run(o, r.State(), rest) == Run(o, st, jobs)
      invariant Clean(st.w.log) ==> Clean(c.log)
      invariant Moved(o, st.w.cr, c.cr)
      invariant st.errors != map[] && Restart !in jobs ==>
        Restart !in rest && r.policies.allErrors != map[] && StaysUncompleted(o, st.w.cr, c.cr)
      decreases |rest|
    {
      Work(r, rest[0]);
      rest := rest[1..];
    }
    end := r.State();
  }
}
