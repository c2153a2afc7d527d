/** What the operator and OLM are to bring about, and how single writes to the store move towards it. */
module Goals {
  import opened Kubernetes
  import opened Desired
  import opened ApiServer
  import opened Quiet

  datatype Goal =
    | Present(key: Key)
    | Marked(ns: string)
    | WellSpecified(component: Component)
    | Sane(component: Component)
    | HasResolved(component: Component)
    | PlanApproved(component: Component)
    | InOrder(component: Component)
    | HasBody(key: Key, body: Body)
    | NotSingle(kind: Kind, ns: string)
    | NoneOf(kind: Kind, ns: string)

  /** It is sane when the plan of the pinned version that it has resolved to, if any, is there. */
  predicate Met(g: Goal, s: Store) {
    match g
    case Present(k) => k in s
    case Marked(ns) => NamespaceKey(ns) in s && Labelled(s[NamespaceKey(ns)].labels)
    case WellSpecified(c) => SubscriptionKey(c) in s && s[SubscriptionKey(c)].body.spec == CreateSubscriptionSpec(c)
    case Sane(c) => PinnedPlan(s, c).Some? ==> PinnedPlan(s, c).value in s
    case HasResolved(c) => SubscriptionKey(c) in s && s[SubscriptionKey(c)].body.status.Resolved?
    case PlanApproved(c) =>
      PinnedPlan(s, c).Some? && PinnedPlan(s, c).value in s && s[PinnedPlan(s, c).value].body.approved
    case InOrder(c) =>
      PinnedPlan(s, c).Some? ==> PinnedPlan(s, c).value in s && s[PinnedPlan(s, c).value].body.approved
    case HasBody(k, body) => k in s && s[k].body == body
    case NotSingle(kind, ns) => |Matching(s, kind, ns)| != 1
    case NoneOf(kind, ns) => Matching(s, kind, ns) == map[]
  }

  /** A goal that is about a Subscription of the operator. */
  predicate ForSubscription(g: Goal) {
    g.WellSpecified? || g.Sane? || g.HasResolved? || g.PlanApproved? || g.InOrder?
  }

  function Unmet(goals: set<Goal>, s: Store): set<Goal> {
    set g | g in goals && !Met(g, s)
  }

  /** Nothing happens, or a goal is reached and none is lost. */
  predicate Evolves(goals: set<Goal>, a: Store, b: Store) {
    a == b || Unmet(goals, b) < Unmet(goals, a)
  }

  lemma StayingEvolves(goals: set<Goal>, s: Store)
    ensures Evolves(goals, s, s)
  {
  }

  lemma EvolvesOn(goals: set<Goal>, a: Store, b: Store, c: Store)
    requires Evolves(goals, a, b) && Evolves(goals, b, c)
    ensures Evolves(goals, a, c) && (c == a ==> b == a)
  {
  }

  lemma GoalsStay(goals: set<Goal>, a: Store, b: Store, g: Goal)
    requires Evolves(goals, a, b) && g in goals && Met(g, a)
    ensures Met(g, b)
  {
    assert Met(g, b) || g in Unmet(goals, b);
  }

  /** The goal that is new is enough to tell two sets of open goals apart. */
  lemma Reached(goals: set<Goal>, a: Store, b: Store, g: Goal)
    requires g in goals && !Met(g, a) && Met(g, b)
    requires forall h :: h in goals && Met(h, a) ==> Met(h, b)
    ensures Evolves(goals, a, b)
  {
    assert g in Unmet(goals, a) && g !in Unmet(goals, b);
  }

  // ---------- Single writes ----------

  /** Objects of one kind in one place are as they were. */
  lemma MatchingStays(a: Store, b: Store, kind: Kind, ns: string)
    requires forall k: Key :: k.kind == kind ==> (k in a <==> k in b) && (k in a && k in b ==> a[k] == b[k])
    ensures Matching(b, kind, ns) == Matching(a, kind, ns)
  {
  }

  /** No goal asks for fewer objects of this kind. */
  predicate Welcome(goals: set<Goal>, kind: Kind) {
    forall g :: g in goals && (g.NotSingle? || g.NoneOf?) ==> g.kind != kind
  }

  lemma PuttingEvolves(goals: set<Goal>, s: Store, k: Key, obj: Obj)
    requires Fits(k.kind, obj.body) && k.kind != Subscription && Welcome(goals, k.kind)
    requires k in s || Present(k) in goals
    ensures Evolves(goals, s, GetOrPut(s, k, obj).s)
  {
    if k !in s && HasNamespace(s, k) {
      var t: Store := s[k := obj];
      forall h | h in goals && Met(h, s) ensures Met(h, t) {
        if h.NotSingle? || h.NoneOf? {
          MatchingStays(s, t, h.kind, h.ns);
        }
      }
      Reached(goals, s, t, Present(k));
    }
  }

  /** Making sure of an object; with its namespace there, it can be had. */
  lemma EnsuringEvolves(goals: set<Goal>, s: Store, k: Key, obj: Obj)
    requires Fits(k.kind, obj.body) && k.kind != Subscription && Welcome(goals, k.kind)
    requires Present(k) in goals
    ensures var q := GetOrPut(s, k, obj);
      && Evolves(goals, s, q.s)
      && (forall j :: j in s ==> j in q.s)
      && (HasNamespace(s, k) ==> q.Fine? && k in q.s)
  {
    hide Evolves, Welcome;
    PuttingEvolves(goals, s, k, obj);
  }

  lemma SubscribingEvolves(goals: set<Goal>, s: Store, c: Component)
    requires c in COMPONENTS && Present(SubscriptionKey(c)) in goals && Welcome(goals, Subscription)
    requires forall h :: h in goals && ForSubscription(h) ==> h.component in COMPONENTS
    ensures Evolves(goals, s, PutNew(s, SubscriptionKey(c), CreateSubscriptionObject(c)).s)
  {
    var k := SubscriptionKey(c);
    if k !in s && HasNamespace(s, k) {
      var t: Store := s[k := CreateSubscriptionObject(c)];
      forall h | h in goals && Met(h, s) ensures Met(h, t) {
        if h.NotSingle? || h.NoneOf? {
          MatchingStays(s, t, h.kind, h.ns);
        }
      }
      Reached(goals, s, t, Present(k));
    }
  }

  lemma AdoptingEvolves(goals: set<Goal>, s: Store, ns: string)
    requires Marked(ns) in goals && Welcome(goals, Namespace)
    ensures Evolves(goals, s, Adopt(s, ns))
  {
    var k := NamespaceKey(ns);
    if k in s {
      var t := Adopt(s, ns);
      if Labelled(s[k].labels) {
        assert s[k].labels[CREATED_BY := ORCHESTRATOR] == s[k].labels;
        assert t == s;
      } else {
        forall h | h in goals && Met(h, s) ensures Met(h, t) {
          if h.NotSingle? || h.NoneOf? {
            MatchingStays(s, t, h.kind, h.ns);
          }
        }
        Reached(goals, s, t, Marked(ns));
      }
    }
  }

  lemma MakingANamespaceEvolves(goals: set<Goal>, s: Store, ns: string)
    requires Marked(ns) in goals && Present(NamespaceKey(ns)) in goals && Welcome(goals, Namespace)
    ensures Evolves(goals, s, AdoptOrMake(s, ns))
  {
    AdoptingEvolves(goals, s, ns);
    PuttingEvolves(goals, s, NamespaceKey(ns), NEW_NAMESPACE);
  }

  /** Giving an object the one body a goal asks for. */
  lemma RepairingEvolves(goals: set<Goal>, s: Store, k: Key, obj: Obj)
    requires Fits(k.kind, obj.body) && k.kind !in {Namespace, Subscription, InstallPlan} && Welcome(goals, k.kind)
    requires Present(k) in goals && HasBody(k, obj.body) in goals
    requires forall b :: HasBody(k, b) in goals ==> b == obj.body
    ensures Evolves(goals, s, PutOrRepair(s, k, obj).s)
  {
    if k in s {
      var t: Store := s[k := s[k].(body := obj.body)];
      if s[k].body == obj.body {
        assert t == s;
      } else {
        forall h | h in goals && Met(h, s) ensures Met(h, t) {
          if h.NotSingle? || h.NoneOf? {
            MatchingStays(s, t, h.kind, h.ns);
          }
        }
        Reached(goals, s, t, HasBody(k, obj.body));
      }
    } else {
      PuttingEvolves(goals, s, k, obj);
    }
  }

  lemma RespecifyingEvolves(goals: set<Goal>, s: Store, c: Component)
    requires c in COMPONENTS && SubscriptionKey(c) in s && WellSpecified(c) in goals && Welcome(goals, Subscription)
    requires forall h :: h in goals && ForSubscription(h) ==> h.component in COMPONENTS
    requires forall h :: h in goals && h.HasBody? ==> h.key.kind != Subscription
    ensures Evolves(goals, s, s[SubscriptionKey(c) := Repaired(c, s[SubscriptionKey(c)])])
  {
    var k := SubscriptionKey(c);
    var t: Store := s[k := Repaired(c, s[k])];
    if s[k].body.spec == CreateSubscriptionSpec(c) {
      assert Repaired(c, s[k]) == s[k];
      assert t == s;
    } else {
      forall h | h in goals && Met(h, s) ensures Met(h, t) {
        if h.NotSingle? || h.NoneOf? {
          MatchingStays(s, t, h.kind, h.ns);
        }
      }
      Reached(goals, s, t, WellSpecified(c));
    }
  }

  lemma ApprovingEvolves(goals: set<Goal>, s: Store, c: Component)
    requires c in COMPONENTS && PlanApproved(c) in goals && Welcome(goals, InstallPlan)
    requires forall h :: h in goals && h.HasBody? ==> h.key.kind != InstallPlan
    ensures Evolves(goals, s, Approve(s, c).s)
  {
    var p := PinnedPlan(s, c);
    if p.Some? && p.value in s {
      var t := Approve(s, c).s;
      if s[p.value].body.approved {
        assert Approved(s[p.value]) == s[p.value];
        assert t == s;
      } else {
        forall h | h in goals && Met(h, s) ensures Met(h, t) {
          if h.NotSingle? || h.NoneOf? {
            MatchingStays(s, t, h.kind, h.ns);
          }
        }
        Reached(goals, s, t, PlanApproved(c));
      }
    }
  }

  /** What is left when the labelled objects of a kind are removed. */
  lemma RemovedFrom(s: Store, kind: Kind, ns: string)
    ensures var t := RemoveKind(s, kind, ns);
      && Matching(t, kind, ns) == map[]
      && (forall k: Key :: k.kind != kind ==> (k in t <==> k in s) && (k in t && k in s ==> t[k] == s[k]))
      && (Matching(s, kind, ns) == map[] ==> t == s)
  {
    var t := RemoveKind(s, kind, ns);
    var m, m' := Matching(s, kind, ns), Matching(t, kind, ns);
    assert forall k :: k in m' ==> k in m && k !in m;
    assert forall k :: k in m ==> k.kind == kind;
    hide Matching;
    if m == map[] {
      assert m.Keys == {};
    }
  }

  /** Removing the labelled objects of a kind nothing else asks for. */
  lemma RemovingEvolves(goals: set<Goal>, s: Store, kind: Kind, ns: string)
    requires kind in {AppProject, Pipeline, Task}
    requires forall h :: h in goals && (h.Present? || h.HasBody?) ==> h.key.kind != kind
    requires forall h :: h in goals && (h.NotSingle? || h.NoneOf?) && h.kind == kind ==> h.ns == ns
    requires NoneOf(kind, ns) in goals || (NotSingle(kind, ns) in goals && |Matching(s, kind, ns)| == 1)
    ensures Evolves(goals, s, RemoveKind(s, kind, ns))
  {
    var t := RemoveKind(s, kind, ns);
    RemovedFrom(s, kind, ns);
    hide RemoveKind, Matching, Met, Evolves;
    if Matching(s, kind, ns) == map[] {
      StayingEvolves(goals, s);
    } else {
      forall h | h in goals && Met(h, s) ensures Met(h, t) {
        GoalOutlives(s, t, kind, ns, h);
      }
      CountsOfRemoved(s, t, kind, ns);
      Reached(goals, s, t, if NoneOf(kind, ns) in goals then NoneOf(kind, ns) else NotSingle(kind, ns));
    }
  }

  /** A goal that does not ask for the removed objects. */
  lemma GoalOutlives(s: Store, t: Store, kind: Kind, ns: string, h: Goal)
    requires kind in {AppProject, Pipeline, Task} && Met(h, s)
    requires h.Present? || h.HasBody? ==> h.key.kind != kind
    requires (h.NotSingle? || h.NoneOf?) && h.kind == kind ==> h.ns == ns
    requires Matching(t, kind, ns) == map[]
    requires forall k: Key :: k.kind != kind ==> (k in t <==> k in s) && (k in t && k in s ==> t[k] == s[k])
    ensures Met(h, t)
  {
    if (h.NotSingle? || h.NoneOf?) && h.kind != kind {
      MatchingStays(s, t, h.kind, h.ns);
    }
    hide Matching, CreateSubscriptionSpec, Labelled;
  }

  lemma CountsOfRemoved(s: Store, t: Store, kind: Kind, ns: string)
    requires Matching(t, kind, ns) == map[] && Matching(s, kind, ns) != map[]
    ensures Met(NoneOf(kind, ns), t) && Met(NotSingle(kind, ns), t) && !Met(NoneOf(kind, ns), s)
    ensures |Matching(s, kind, ns)| == 1 ==> !Met(NotSingle(kind, ns), s)
  {
    hide Matching;
  }

  // ---------- OLM ----------

  /** OLM makes a plan for the version the Subscription asks for, and records both. */
  function WithPlan(s: Store, c: Component, plan: string): Store
    requires SubscriptionKey(c) in s
  {
    var sub := s[SubscriptionKey(c)];
    var csv := sub.body.spec.startingCSV;
    s[PlanKey(c, plan) := Obj(map[], InstallPlanBody(csv, false))]
     [SubscriptionKey(c) := sub.(body := sub.body.(status := SubscriptionStatus.Resolved(plan, csv)))]
  }

  lemma ResolvingEvolves(goals: set<Goal>, s: Store, c: Component, plan: string)
    requires c in COMPONENTS && SubscriptionKey(c) in s && s[SubscriptionKey(c)].body.status.Unresolved?
    requires PlanKey(c, plan) !in s && HasResolved(c) in goals
    requires Welcome(goals, Subscription) && Welcome(goals, InstallPlan)
    requires forall h :: h in goals && ForSubscription(h) ==> h.component in COMPONENTS
    requires forall h :: h in goals && h.HasBody? ==> h.key.kind !in {Subscription, InstallPlan}
    requires forall h :: h in goals ==> !h.InOrder?
    ensures Evolves(goals, s, WithPlan(s, c, plan)) && WithPlan(s, c, plan) != s
  {
    var t := WithPlan(s, c, plan);
    forall h | h in goals && Met(h, s) ensures Met(h, t) {
      if h.NotSingle? || h.NoneOf? {
        MatchingStays(s, t, h.kind, h.ns);
      }
    }
    Reached(goals, s, t, HasResolved(c));
  }
}
