/** Steps of the operator and OLM together, without faults: each brings the end nearer. */
module Progress {
  import opened Kubernetes
  import opened Desired
  import opened ApiServer
  import opened Quiet
  import opened Goals
  import opened Convergence
  import Calmness
  import ReconcileSpec

  datatype Sys = Sys(s: Store, cr: Orchestrator)

  /** A pass of the operator, or OLM resolving a Subscription to a new plan of the version it asks
      for, or OLM adding a definition that an approved plan provides. */
  datatype Move = Pass(names: seq<string>) | Resolve(c: Component, plan: string) | Provide(c: Component, crd: string)

  ghost predicate Possible(y: Sys, m: Move) {
    match m
    case Pass(names) => IsOrder(names, CONFIG_MAPS.Keys)
    case Resolve(c, plan) =>
      && c in Enabled(y.cr.spec)
      && SubscriptionKey(c) in y.s && y.s[SubscriptionKey(c)].body.status.Unresolved?
      && PlanKey(c, plan) !in y.s
    case Provide(c, crd) =>
      && c in Enabled(y.cr.spec) && crd in Provides(c)
      && Met(PlanApproved(c), y.s) && CRDKey(crd) !in y.s
  }

  ghost function Next(y: Sys, m: Move): Sys
    requires Possible(y, m)
  {
    match m
    case Pass(names) =>
      var (t, _, failed) := Stages(y.s, map[], y.cr.spec, names);
      Sys(t, Ended(Started(y.cr), failed))
    case Resolve(c, plan) => y.(s := WithPlan(y.s, c, plan))
    case Provide(c, crd) => y.(s := y.s[CRDKey(crd) := Obj(map[], Blank)])
  }

  /** The resource is reported Completed. */
  predicate Finished(cr: Orchestrator) {
    cr == Ended(cr, None)
  }

  predicate Begun(cr: Orchestrator) {
    cr == Started(cr)
  }

  /** Open goals of the cluster and of the resource. */
  function Rank(y: Sys): nat {
    |Unmet(GoalsOf(y.cr.spec), y.s)| + (if Begun(y.cr) then 0 else 1) + (if Finished(y.cr) then 0 else 1)
  }

  predicate Live(y: Sys) {
    Ready(y.s, y.cr.spec) && !y.cr.deleting
  }

  // ---------- The resource ----------

  lemma {:induction false} SetTwice(cs: seq<Condition>, c: Condition)
    ensures var r := ReconcileSpec.SetStatusCondition(cs, c);
      r != [] && ReconcileSpec.SetStatusCondition(r, c) == r
  {
    if cs != [] && cs[0].ctype != c.ctype {
      SetTwice(cs[1..], c);
    }
  }

  /** The steps of a pass on the resource are done once and stay done. */
  lemma ResourceEvolves(cr: Orchestrator, failed: Option<ReconcileSpec.StageFailure>)
    requires failed.Some? ==> ReconcileSpec.Waits(failed.value)
    ensures var next := Ended(Started(cr), failed);
      && Begun(next) && next.spec == cr.spec && next.deleting == cr.deleting
      && (Finished(cr) ==> Finished(next))
      && (failed.None? ==> Finished(next))
      && (Begun(cr) && (failed.None? ==> Finished(cr)) ==> next == cr)
  {
    SetTwice(Started(cr).status.conditions, ReconcileSpec.DONE);
    SetTwice(cr.status.conditions, ReconcileSpec.DONE);
    assert (cr.finalizers + {FINALIZER}) + {FINALIZER} == cr.finalizers + {FINALIZER};
  }

  // ---------- OLM ----------

  lemma OlmResolves(s: Store, spec: Spec, c: Component, plan: string)
    requires c in Enabled(spec) && SubscriptionKey(c) in s && s[SubscriptionKey(c)].body.status.Unresolved?
    requires PlanKey(c, plan) !in s
    ensures Evolves(GoalsOf(spec), s, WithPlan(s, c, plan)) && WithPlan(s, c, plan) != s
  {
    hide GoalsOf, Enabled, Shaped, Evolves, Met, WithPlan, COMPONENTS, Welcome, InstallerGoals;
    EnabledBelongs(spec, c);
    GoalsAllowOlm(spec);
    ResolvingEvolves(GoalsOf(spec), s, c, plan);
  }

  lemma GoalsAllowOlm(spec: Spec)
    ensures var goals := GoalsOf(spec);
      && Welcome(goals, Subscription) && Welcome(goals, InstallPlan) && Welcome(goals, CustomResourceDefinition)
      && (forall h :: h in goals && ForSubscription(h) ==> h.component in COMPONENTS)
      && (forall h :: h in goals ==> !h.InOrder?)
      && (forall h :: h in goals && h.HasBody? ==> h.key.kind !in {Subscription, InstallPlan})
  {
    hide GoalsOf, COMPONENTS, TameGoal;
    GoalsAreShaped(spec);
  }

  lemma EnabledBelongs(spec: Spec, c: Component)
    requires c in Enabled(spec)
    ensures c in COMPONENTS && HasResolved(c) in GoalsOf(spec)
    ensures forall crd :: crd in Provides(c) ==> Present(CRDKey(crd)) in GoalsOf(spec)
  {
    assert HasResolved(c) in InstallerGoals(c);
    hide InstallerGoals, PolicyGoals, GitOpsGoals;
    assert InstallerGoals(c) <= (if c == LOGIC then LogicGoals(spec) else if c == SERVERLESS then KnativeGoals(spec) else HubGoals(spec));
  }

  lemma ProvidingEvolves(s: Store, spec: Spec, c: Component, crd: string)
    requires c in Enabled(spec) && crd in Provides(c) && CRDKey(crd) !in s
    ensures var t := s[CRDKey(crd) := Obj(map[], Blank)]; Evolves(GoalsOf(spec), s, t) && t != s
  {
    hide GoalsOf, Enabled, Provides, Evolves, Welcome;
    EnabledBelongs(spec, c);
    GoalsAllowOlm(spec);
    PuttingEvolves(GoalsOf(spec), s, CRDKey(crd), Obj(map[], Blank));
  }

  // ---------- Every step counts ----------

  lemma FewerGoals(goals: set<Goal>, a: Store, b: Store)
    requires Evolves(goals, a, b)
    ensures a == b || |Unmet(goals, b)| < |Unmet(goals, a)|
  {
    if a != b {
      SmallerSet(Unmet(goals, b), Unmet(goals, a));
    }
  }

  lemma SmallerSet<T>(a: set<T>, b: set<T>)
    requires a < b
    ensures |a| < |b|
  {
    assert b == a + (b - a);
    assert b - a != {};
  }

  /** A step that changes anything brings the end nearer, and the prerequisites stay. */
  lemma EveryStepCounts(y: Sys, m: Move)
    requires Live(y) && Possible(y, m)
    ensures Live(Next(y, m)) && Next(y, m).cr.spec == y.cr.spec
    ensures Next(y, m) == y || Rank(Next(y, m)) < Rank(y)
  {
    hide GoalsOf, Shaped, Tame, Enabled, Provides, Evolves, Ready, Stages, Started, Ended, Met, WithPlan;
    hide OlmIsAwaited, CONFIG_MAPS;
    var spec, next := y.cr.spec, Next(y, m);
    match m
    case Pass(names) =>
      GoalsAreShaped(spec);
      StagesEvolve(GoalsOf(spec), y.s, spec, names);
      var failed := Stages(y.s, map[], spec, names).2;
      ResourceEvolves(y.cr, failed);
      FewerGoals(GoalsOf(spec), y.s, next.s);
    case Resolve(c, plan) =>
      OlmResolves(y.s, spec, c, plan);
      ReadyStays(GoalsOf(spec), y.s, next.s, spec);
      FewerGoals(GoalsOf(spec), y.s, next.s);
    case Provide(c, crd) =>
      ProvidingEvolves(y.s, spec, c, crd);
      ReadyStays(GoalsOf(spec), y.s, next.s, spec);
      FewerGoals(GoalsOf(spec), y.s, next.s);
  }

  // ---------- The passes are those of the operator ----------

  /** A fault-free reconciliation is a pass of this system. */
  lemma PassIsReconcile(o: Oracle, st: ReconcileSpec.State) returns (names: seq<string>)
    requires Calm(o) && st.w.cr.Some? && !st.w.cr.value.deleting && st.errors == map[]
    ensures var y := Sys(st.w.store, st.w.cr.value);
      var (end, v) := ReconcileSpec.Reconcile(o, st);
      && Possible(y, Pass(names))
      && end.w.cr.Some? && Sys(end.w.store, end.w.cr.value) == Next(y, Pass(names))
      && end.errors == map[]
      && (v == ReconcileSpec.FINISHED ==> Finished(end.w.cr.value))
  {
    hide ReconcileSpec.Reconcile, Stages, GoalsOf, Shaped, Tame, Evolves, Ready, OlmIsAwaited, CONFIG_MAPS;
    names := Calmness.CalmPass(o, st);
    GoalsAreShaped(st.w.cr.value.spec);
    StagesEvolve(GoalsOf(st.w.cr.value.spec), st.w.store, st.w.cr.value.spec, names);
    if Stages(st.w.store, map[], st.w.cr.value.spec, names).2.None? {
      ResourceEvolves(st.w.cr.value, None);
    }
  }
}
