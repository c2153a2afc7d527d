/** Cleaning up: exactly what goes, and that attempts which failed do not matter. */
module CleanUpRestart {
  import opened Kubernetes
  import opened Desired
  import opened ApiServer
  import opened Solitude
  import Quiet
  import Calmness
  import BulkRemoval
  import Kube = KubeOperationsSpec
  import KnativeSpec
  import LogicSpec = ServerlessLogicSpec
  import HubSpec = DeveloperHubSpec
  import ReconcileSpec

  // ---------- What goes ----------

  /** The namespace itself, or an object in it. */
  predicate Within(k: Key, ns: string) {
    k == NamespaceKey(ns) || (k.ns == ns && !ClusterScoped(k.kind))
  }

  predicate Goes(s: Store, ns: string) {
    NamespaceKey(ns) in s && Labelled(s[NamespaceKey(ns)].labels)
  }

  const FOUR := {EVENTING, SERVING, SERVERLESS.namespace, LOGIC.namespace}

  /** The RHDH namespace is none of the others that are cleaned up. */
  predicate Distinct(spec: Spec) {
    spec.rhdh.namespace !in FOUR && spec.rhdh.namespace != RHDH.namespace
  }

  function Backstages(s: Store, spec: Spec): nat {
    |Matching(s, Backstage, spec.rhdh.namespace)|
  }

  /** The RHDH namespace goes if it holds exactly one labelled Backstage, whoever made the namespace. */
  predicate HubGoes(s: Store, spec: Spec) {
    NamespaceKey(spec.rhdh.namespace) in s && Backstages(s, spec) == 1
  }

  /** The namespace of the RHDH operator stays if the RHDH namespace is there without a Backstage. */
  predicate HubOperatorGoes(s: Store, spec: Spec) {
    Goes(s, RHDH.namespace) && !(NamespaceKey(spec.rhdh.namespace) in s && Backstages(s, spec) == 0)
  }

  const PLATFORMS := {SonataFlowPlatform, SonataFlowClusterPlatform}

  /** A labelled platform of one of these kinds: of the workflow namespace, or of the cluster. */
  predicate LabelledPlatform(s: Store, spec: Spec, k: Key, kinds: set<Kind>)
    requires k in s
  {
    k.kind in kinds && Labelled(s[k].labels) && (ClusterScoped(k.kind) || k.ns == spec.platform.namespace)
  }

  ghost predicate Doomed(s: Store, spec: Spec, k: Key)
    requires k in s
  {
    || (exists ns :: ns in FOUR && Goes(s, ns) && Within(k, ns))
    || LabelledPlatform(s, spec, k, PLATFORMS)
    || (HubGoes(s, spec) && Within(k, spec.rhdh.namespace))
    || (HubOperatorGoes(s, spec) && Within(k, RHDH.namespace))
  }

  /** What stays, stays as it is, but for the label the RHDH namespace gets. */
  function Kept(s: Store, spec: Spec, k: Key): Obj
    requires k in s
  {
    if k == NamespaceKey(spec.rhdh.namespace) then Adopted(s[k]) else s[k]
  }

  /** The store after a clean-up. */
  ghost function Final(s: Store, spec: Spec): Store {
    map k | k in s && !Doomed(s, spec, k) :: Kept(s, spec, k)
  }

  // ---------- The steps ----------

  lemma DropExactly(s: Store, ns: string)
    ensures var t := Quiet.DropNamespace(s, ns);
      && (forall k :: k in t <==> k in s && !(Goes(s, ns) && Within(k, ns)))
      && (forall k :: k in t ==> t[k] == s[k])
      && (forall m :: m != ns ==> (Goes(t, m) <==> Goes(s, m)))
  {
  }

  lemma RemoveExactly(s: Store, kind: Kind, ns: string)
    requires kind in {SonataFlowPlatform, SonataFlowClusterPlatform}
    ensures var t := Quiet.RemoveKind(s, kind, ns);
      && (forall k :: k in t <==> k in s && !(k.kind == kind && (ClusterScoped(kind) || k.ns == ns) && Labelled(s[k].labels)))
      && (forall k :: k in t ==> t[k] == s[k])
      && (forall m :: Goes(t, m) <==> Goes(s, m))
  {
  }

  lemma NamespacesDiffer()
    ensures EVENTING != SERVING && EVENTING != SERVERLESS.namespace && EVENTING != LOGIC.namespace && EVENTING != RHDH.namespace
    ensures SERVING != SERVERLESS.namespace && SERVING != LOGIC.namespace && SERVING != RHDH.namespace
    ensures SERVERLESS.namespace != LOGIC.namespace && SERVERLESS.namespace != RHDH.namespace && LOGIC.namespace != RHDH.namespace
  {
    assert |EVENTING| == 16 && |SERVING| == 15 && |SERVERLESS.namespace| == 20 && |LOGIC.namespace| == 26 && |RHDH.namespace| == 13;
  }

  /** These namespaces and platforms are gone, as far as they were the operator's. */
  ghost predicate Reduced(s: Store, t: Store, spec: Spec, names: set<string>, kinds: set<Kind>) {
    && (forall k :: k in t <==>
          k in s && !(exists ns :: ns in names && Goes(s, ns) && Within(k, ns)) && !LabelledPlatform(s, spec, k, kinds))
    && (forall k :: k in t ==> t[k] == s[k])
  }

  lemma OtherNamespaceStays(s: Store, t: Store, spec: Spec, names: set<string>, kinds: set<Kind>, ns: string)
    requires Reduced(s, t, spec, names, kinds) && kinds <= PLATFORMS && ns !in names
    ensures Goes(t, ns) <==> Goes(s, ns)
  {
    assert forall m :: m in names ==> !Within(NamespaceKey(ns), m);
  }

  lemma DropOneMore(s: Store, t: Store, spec: Spec, names: set<string>, kinds: set<Kind>, ns: string)
    requires Reduced(s, t, spec, names, kinds) && kinds <= PLATFORMS && ns !in names
    ensures Reduced(s, Quiet.DropNamespace(t, ns), spec, names + {ns}, kinds)
  {
    OtherNamespaceStays(s, t, spec, names, kinds, ns);
    DropExactly(t, ns);
    hide Quiet.DropNamespace, Goes, Within, LabelledPlatform;
  }

  lemma RemoveOneMore(s: Store, t: Store, spec: Spec, names: set<string>, kinds: set<Kind>, kind: Kind)
    requires Reduced(s, t, spec, names, kinds) && kind in PLATFORMS
    ensures Reduced(s, Quiet.RemoveKind(t, kind, spec.platform.namespace), spec, names, kinds + {kind})
  {
    RemoveExactly(t, kind, spec.platform.namespace);
    hide Quiet.RemoveKind, Goes, Within, Labelled;
  }

  lemma NothingReduced(s: Store, spec: Spec)
    ensures Reduced(s, s, spec, {}, {})
  {
  }

  lemma KnativeGoneIsExact(s: Store, spec: Spec)
    ensures Reduced(s, Quiet.KnativeGone(s), spec, {EVENTING, SERVING, SERVERLESS.namespace}, {})
  {
    NamespacesDiffer();
    hide Quiet.DropNamespace, Reduced, EVENTING, SERVING, SERVERLESS, LOGIC, RHDH, PLATFORMS;
    var s1 := Quiet.DropNamespace(s, EVENTING);
    NothingReduced(s, spec);
    DropOneMore(s, s, spec, {}, {}, EVENTING);
    DropOneMore(s, s1, spec, {} + {EVENTING}, {}, SERVING);
    DropOneMore(s, Quiet.DropNamespace(s1, SERVING), spec, ({} + {EVENTING}) + {SERVING}, {}, SERVERLESS.namespace);
    assert (({} + {EVENTING}) + {SERVING}) + {SERVERLESS.namespace} == {EVENTING, SERVING, SERVERLESS.namespace};
  }

  lemma FirstHalfIsExact(s: Store, spec: Spec)
    ensures Reduced(s, Quiet.LogicGone(Quiet.KnativeGone(s), spec.platform.namespace), spec, FOUR, PLATFORMS)
  {
    NamespacesDiffer();
    var three := {EVENTING, SERVING, SERVERLESS.namespace};
    var none: set<Kind> := {};
    assert three + {LOGIC.namespace} == FOUR && (none + {SonataFlowPlatform}) + {SonataFlowClusterPlatform} == PLATFORMS;
    assert none + {SonataFlowPlatform} <= PLATFORMS && LOGIC.namespace !in three;
    hide Quiet.KnativeGone, Quiet.DropNamespace, Quiet.RemoveKind, Reduced, EVENTING, SERVING, SERVERLESS;
    hide LOGIC, RHDH, PLATFORMS, FOUR;
    var s3 := Quiet.KnativeGone(s);
    KnativeGoneIsExact(s, spec);
    var s4 := Quiet.RemoveKind(s3, SonataFlowPlatform, spec.platform.namespace);
    var s5 := Quiet.RemoveKind(s4, SonataFlowClusterPlatform, spec.platform.namespace);
    PlatformKinds();
    RemoveOneMore(s, s3, spec, three, none, SonataFlowPlatform);
    RemoveOneMore(s, s4, spec, three, none + {SonataFlowPlatform}, SonataFlowClusterPlatform);
    DropOneMore(s, s5, spec, three, PLATFORMS, LOGIC.namespace);
  }

  lemma PlatformKinds()
    ensures SonataFlowPlatform in PLATFORMS && SonataFlowClusterPlatform in PLATFORMS
  {
  }

  // ---------- The RHDH half ----------

  lemma SameBackstages(s: Store, t: Store, spec: Spec, names: set<string>, kinds: set<Kind>)
    requires Reduced(s, t, spec, names, kinds) && kinds <= PLATFORMS && spec.rhdh.namespace !in names
    ensures Matching(t, Backstage, spec.rhdh.namespace) == Matching(s, Backstage, spec.rhdh.namespace)
    ensures NamespaceKey(spec.rhdh.namespace) in t <==> NamespaceKey(spec.rhdh.namespace) in s
    ensures RHDH.namespace !in names ==> (Goes(t, RHDH.namespace) <==> Goes(s, RHDH.namespace))
  {
    if RHDH.namespace !in names {
      OtherNamespaceStays(s, t, spec, names, kinds, RHDH.namespace);
    }
    hide RHDH, Goes, Labelled, Matching, LabelledPlatform;
    KindsOfPlatforms(s, spec, kinds);
    forall k: Key | k.kind == Backstage && k.ns == spec.rhdh.namespace
      ensures k in t <==> k in s
    {
      assert forall m :: m in names ==> !Within(k, m);
    }
    assert forall m :: m in names ==> !Within(NamespaceKey(spec.rhdh.namespace), m);
    SameMatching(s, t, spec.rhdh.namespace);
  }

  lemma KindsOfPlatforms(s: Store, spec: Spec, kinds: set<Kind>)
    requires kinds <= PLATFORMS
    ensures forall k :: k in s && LabelledPlatform(s, spec, k, kinds) ==> k.kind !in {Namespace, Backstage}
  {
  }

  lemma SameMatching(s: Store, t: Store, ns: string)
    requires forall k: Key :: k.kind == Backstage && k.ns == ns ==> (k in t <==> k in s)
    requires forall k :: k in t && k in s ==> t[k] == s[k]
    ensures Matching(t, Backstage, ns) == Matching(s, Backstage, ns)
  {
  }

  lemma HubGoneIsExact(s: Store, spec: Spec)
    requires spec.rhdh.namespace != RHDH.namespace
    ensures HubReduced(s, Quiet.HubGone(s, spec.rhdh.namespace), spec)
  {
    var ns := spec.rhdh.namespace;
    hide Quiet.DropNamespace, RHDH, Quiet.Adopt, Matching, HubReduced;
    if NamespaceKey(ns) !in s {
      NoHubIsExact(s, spec);
    } else {
      AdoptExactly(s, spec);
      if Backstages(s, spec) == 1 {
        OneHubIsExact(s, spec);
      } else {
        OtherHubIsExact(s, spec);
      }
    }
  }

  lemma NoHubIsExact(s: Store, spec: Spec)
    requires NamespaceKey(spec.rhdh.namespace) !in s
    ensures HubReduced(s, Quiet.DropNamespace(s, RHDH.namespace), spec)
  {
    hide Quiet.DropNamespace, RHDH, Matching, Within, Goes;
    DropExactly(s, RHDH.namespace);
  }

  lemma OneHubIsExact(s: Store, spec: Spec)
    requires spec.rhdh.namespace != RHDH.namespace && NamespaceKey(spec.rhdh.namespace) in s && Backstages(s, spec) == 1
    ensures var s1 := Quiet.Adopt(s, spec.rhdh.namespace);
      HubReduced(s, Quiet.DropNamespace(Quiet.DropNamespace(s1, spec.rhdh.namespace), RHDH.namespace), spec)
  {
    hide Quiet.DropNamespace, Quiet.Adopt, RHDH, Matching, Within, Goes, Kept;
    var s1 := Quiet.Adopt(s, spec.rhdh.namespace);
    AdoptExactly(s, spec);
    DropExactly(s1, spec.rhdh.namespace);
    DropExactly(Quiet.DropNamespace(s1, spec.rhdh.namespace), RHDH.namespace);
  }

  /** With none, nothing goes; with several, only the namespace of the operator. */
  lemma OtherHubIsExact(s: Store, spec: Spec)
    requires spec.rhdh.namespace != RHDH.namespace && NamespaceKey(spec.rhdh.namespace) in s && Backstages(s, spec) != 1
    ensures var s1 := Quiet.Adopt(s, spec.rhdh.namespace);
      HubReduced(s, if Backstages(s, spec) == 0 then s1 else Quiet.DropNamespace(s1, RHDH.namespace), spec)
  {
    hide Quiet.DropNamespace, Quiet.Adopt, RHDH, Matching, Within, Goes, Kept;
    AdoptExactly(s, spec);
    DropExactly(Quiet.Adopt(s, spec.rhdh.namespace), RHDH.namespace);
  }

  lemma AdoptExactly(s: Store, spec: Spec)
    requires NamespaceKey(spec.rhdh.namespace) in s
    ensures var t := Quiet.Adopt(s, spec.rhdh.namespace);
      && t.Keys == s.Keys && (forall k :: k in s ==> t[k] == Kept(s, spec, k))
      && Goes(t, spec.rhdh.namespace)
      && (forall m :: m != spec.rhdh.namespace ==> (Goes(t, m) <==> Goes(s, m)))
      && Matching(t, Backstage, spec.rhdh.namespace) == Matching(s, Backstage, spec.rhdh.namespace)
  {
    var ns := spec.rhdh.namespace;
    assert Labelled(Adopted(s[NamespaceKey(ns)]).labels);
  }

  /** What the RHDH half of the clean-up leaves of `s`. */
  ghost predicate HubReduced(s: Store, t: Store, spec: Spec) {
    && (forall k :: k in t <==> k in s && !(HubGoes(s, spec) && Within(k, spec.rhdh.namespace))
                                && !(HubOperatorGoes(s, spec) && Within(k, RHDH.namespace)))
    && (forall k :: k in t ==> t[k] == Kept(s, spec, k))
  }

  lemma HalvesMakeAWhole(s: Store, t: Store, u: Store, spec: Spec)
    requires Reduced(s, t, spec, FOUR, PLATFORMS) && HubReduced(t, u, spec)
    requires (HubGoes(t, spec) <==> HubGoes(s, spec)) && (HubOperatorGoes(t, spec) <==> HubOperatorGoes(s, spec))
    ensures u == Final(s, spec)
  {
    hide HubGoes, HubOperatorGoes, Goes, Within, LabelledPlatform, FOUR, PLATFORMS, RHDH, Adopted;
    var v := Final(s, spec);
    forall k ensures (k in u <==> k in v) && (k in u && k in v ==> u[k] == v[k]) {
    }
  }

  /** A clean-up without faults leaves exactly this. */
  lemma CleanUpIsExact(s: Store, spec: Spec)
    requires Distinct(spec)
    ensures Quiet.CleanedUp(s, spec) == Final(s, spec)
  {
    hide Quiet.KnativeGone, Quiet.LogicGone, Quiet.HubGone, RHDH, EVENTING, SERVING, SERVERLESS, LOGIC, FOUR;
    hide PLATFORMS;
    hide Matching, Goes, Reduced, Final, HubReduced, Adopted;
    OperatorIsNotOfTheFour();
    var t := Quiet.LogicGone(Quiet.KnativeGone(s), spec.platform.namespace);
    FirstHalfIsExact(s, spec);
    SameBackstages(s, t, spec, FOUR, PLATFORMS);
    HubGoneIsExact(t, spec);
    HalvesMakeAWhole(s, t, Quiet.CleanedUp(s, spec), spec);
  }

  lemma OperatorIsNotOfTheFour()
    ensures RHDH.namespace !in FOUR
  {
    NamespacesDiffer();
  }

  // ---------- What an attempt has done already, a clean-up does not miss ----------

  /** Only doomed objects have gone, and what is left is as doomed as before. */
  lemma DoomedMayGo(s: Store, t: Store, spec: Spec)
    requires forall k :: k in s && k !in t ==> Doomed(s, spec, k)
    requires forall k :: k in t ==> k in s && (t[k] == s[k] || (k == NamespaceKey(spec.rhdh.namespace) && t[k] == Adopted(s[k])))
    requires forall k :: k in t ==> (Doomed(t, spec, k) <==> Doomed(s, spec, k))
    ensures Final(t, spec) == Final(s, spec)
  {
    hide Doomed;
    assert forall obj: Obj :: Adopted(Adopted(obj)) == Adopted(obj) by {
      forall obj: Obj ensures Adopted(Adopted(obj)) == Adopted(obj) {
        AdoptingTwice(obj);
      }
    }
    var u, v := Final(t, spec), Final(s, spec);
    forall k ensures (k in u <==> k in v) && (k in u && k in v ==> u[k] == v[k]) {
    }
  }

  lemma AdoptingTwice(obj: Obj)
    ensures Adopted(Adopted(obj)) == Adopted(obj)
  {
    var l := obj.labels[CREATED_BY := ORCHESTRATOR];
    assert l[CREATED_BY := ORCHESTRATOR] == l;
  }

  /** The one case in which the half-done work of an attempt can matter. */
  predicate EmptyHub(s: Store, spec: Spec) {
    NamespaceKey(spec.rhdh.namespace) in s && Backstages(s, spec) == 0 && Goes(s, RHDH.namespace)
  }

  lemma DroppedOneOfFour(s: Store, spec: Spec, ns: string)
    requires Distinct(spec) && ns in FOUR && Goes(s, ns)
    ensures Final(Without(s, NamespaceKey(ns)), spec) == Final(s, spec)
    ensures EmptyHub(Without(s, NamespaceKey(ns)), spec) <==> EmptyHub(s, spec)
  {
    var t := Without(s, NamespaceKey(ns));
    OperatorIsNotOfTheFour();
    hide FOUR, RHDH, Final, LabelledPlatform;
    assert forall m :: m != ns ==> (Goes(t, m) <==> Goes(s, m));
    assert !Goes(t, ns);
    assert Backstages(t, spec) == Backstages(s, spec) by {
      SameMatching(s, t, spec.rhdh.namespace);
    }
    assert HubGoes(t, spec) <==> HubGoes(s, spec);
    assert HubOperatorGoes(t, spec) <==> HubOperatorGoes(s, spec);
    hide HubGoes, HubOperatorGoes, Goes;
    assert forall k :: k in t ==> k in s && t[k] == s[k] && !Within(k, ns);
    assert forall k :: k in s && k !in t ==> Within(k, ns);
    SamePlatforms(s, t, spec);
    DoomedMayGo(s, t, spec);
  }

  lemma SamePlatforms(s: Store, t: Store, spec: Spec)
    requires forall k :: k in t ==> k in s && t[k].labels == s[k].labels
    ensures forall k :: k in t ==> (LabelledPlatform(t, spec, k, PLATFORMS) <==> LabelledPlatform(s, spec, k, PLATFORMS))
  {
  }

  lemma RemovedPlatforms(s: Store, spec: Spec, gone: set<Key>)
    requires forall k :: k in gone ==> k in s && LabelledPlatform(s, spec, k, PLATFORMS)
    ensures Final(s - gone, spec) == Final(s, spec)
    ensures EmptyHub(s - gone, spec) <==> EmptyHub(s, spec)
  {
    var t := s - gone;
    SameOutlook(s, spec, gone);
    hide HubGoes, HubOperatorGoes, Goes, Final, EmptyHub, FOUR, RHDH, PLATFORMS, Within;
    SamePlatforms(s, t, spec);
    DoomedMayGo(s, t, spec);
  }

  lemma SameOutlook(s: Store, spec: Spec, gone: set<Key>)
    requires forall k :: k in gone ==> k in s && LabelledPlatform(s, spec, k, PLATFORMS)
    ensures var t := s - gone;
      && (forall ns :: Goes(t, ns) <==> Goes(s, ns))
      && (HubGoes(t, spec) <==> HubGoes(s, spec))
      && (HubOperatorGoes(t, spec) <==> HubOperatorGoes(s, spec))
      && (EmptyHub(t, spec) <==> EmptyHub(s, spec))
  {
    var t := s - gone;
    assert forall k :: k in gone ==> k.kind in {SonataFlowPlatform, SonataFlowClusterPlatform};
    hide Labelled, RHDH, PLATFORMS, LabelledPlatform;
    SameMatching(s, t, spec.rhdh.namespace);
    hide Matching;
  }

  lemma AdoptedHub(s: Store, spec: Spec)
    requires Distinct(spec)
    ensures Final(Quiet.Adopt(s, spec.rhdh.namespace), spec) == Final(s, spec)
  {
    if NamespaceKey(spec.rhdh.namespace) in s {
      var t := Quiet.Adopt(s, spec.rhdh.namespace);
      AdoptExactly(s, spec);
      hide Quiet.Adopt, Goes, Final, FOUR, RHDH, Adopted, Matching;
      assert HubGoes(t, spec) <==> HubGoes(s, spec);
      assert HubOperatorGoes(t, spec) <==> HubOperatorGoes(s, spec);
      hide HubGoes, HubOperatorGoes;
      DoomedMayGo(s, t, spec);
    }
  }

  lemma DroppedHub(s: Store, spec: Spec)
    requires Distinct(spec) && HubGoes(s, spec)
    ensures Final(Without(s, NamespaceKey(spec.rhdh.namespace)), spec) == Final(s, spec)
    ensures !EmptyHub(Without(s, NamespaceKey(spec.rhdh.namespace)), spec)
  {
    var ns := spec.rhdh.namespace;
    var t := Without(s, NamespaceKey(ns));
    hide FOUR, RHDH, Final, LabelledPlatform, Matching;
    assert forall m :: m != ns ==> (Goes(t, m) <==> Goes(s, m));
    assert !HubGoes(t, spec);
    assert HubOperatorGoes(t, spec) <==> HubOperatorGoes(s, spec);
    hide HubOperatorGoes, Goes;
    assert forall k :: k in t ==> k in s && t[k] == s[k] && !Within(k, ns);
    assert forall k :: k in s && k !in t ==> Within(k, ns);
    SamePlatforms(s, t, spec);
    DoomedMayGo(s, t, spec);
  }

  lemma DroppedHubOperator(s: Store, spec: Spec)
    requires Distinct(spec) && HubOperatorGoes(s, spec)
    ensures Final(Without(s, NamespaceKey(RHDH.namespace)), spec) == Final(s, spec)
    ensures !EmptyHub(Without(s, NamespaceKey(RHDH.namespace)), spec)
  {
    var ns := RHDH.namespace;
    var t := Without(s, NamespaceKey(ns));
    OperatorIsNotOfTheFour();
    hide FOUR, RHDH, Final, LabelledPlatform;
    assert forall m :: m != ns ==> (Goes(t, m) <==> Goes(s, m));
    assert !Goes(t, ns);
    assert Backstages(t, spec) == Backstages(s, spec) by {
      SameMatching(s, t, spec.rhdh.namespace);
    }
    assert HubGoes(t, spec) <==> HubGoes(s, spec);
    hide HubGoes, Goes;
    assert forall k :: k in t ==> k in s && t[k] == s[k] && !Within(k, ns);
    assert forall k :: k in s && k !in t ==> Within(k, ns);
    SamePlatforms(s, t, spec);
    DoomedMayGo(s, t, spec);
  }

  // ---------- One attempt ----------

  /** Where a later clean-up ends is not changed by what has happened. */
  ghost predicate Harmless(s: Store, t: Store, spec: Spec) {
    Final(t, spec) == Final(s, spec) && (EmptyHub(t, spec) ==> EmptyHub(s, spec))
  }

  /** Harmless, and none of the business of the RHDH half. */
  ghost predicate Aside(s: Store, t: Store, spec: Spec) {
    Harmless(s, t, spec) && (EmptyHub(t, spec) <==> EmptyHub(s, spec))
  }

  ghost predicate NoLostReplies(o: Oracle) {
    forall t: nat {:trigger o(t)} :: !o(t).fault.Lost?
  }

  lemma LoneCleanUpNamespace(o: Oracle, w: World, ns: string)
    requires Alone(o)
    ensures var r := Kube.CleanUpNamespace(o, w, ns);
      && (r.w.store == w.store || (Goes(w.store, ns) && r.w.store == Without(w.store, NamespaceKey(ns))))
      && (r.Fail? && NoLostReplies(o) ==> r.w.store == w.store)
  {
    hide Get, Delete, Without;
    var k := NamespaceKey(ns);
    LoneGet(o, w, k);
    var w1 := Get(o, w, k).w;
    LoneDelete(o, w1, k);
    RejectedOrDone(o, w1, k);
  }

  lemma RejectedOrDone(o: Oracle, w: World, k: Key)
    requires Alone(o)
    ensures Delete(o, w, k).Fail? && NoLostReplies(o) ==> Delete(o, w, k).w.store == w.store
  {
    assert o(w.clock).others == [];
    if NoLostReplies(o) {
      assert !o(w.clock).fault.Lost?;
    }
  }

  lemma HarmlessTwice(r: Store, s: Store, t: Store, spec: Spec)
    requires Harmless(r, s, spec) && Harmless(s, t, spec)
    ensures Harmless(r, t, spec)
  {
  }

  lemma AsideTwice(r: Store, s: Store, t: Store, spec: Spec)
    requires Aside(r, s, spec) && Aside(s, t, spec)
    ensures Aside(r, t, spec)
  {
  }

  /** Whatever becomes of the calls, dropping one of the four namespaces is harmless. */
  lemma FourIsHarmless(o: Oracle, w: World, spec: Spec, ns: string)
    requires Alone(o) && Distinct(spec) && ns in FOUR
    ensures Aside(w.store, Kube.CleanUpNamespace(o, w, ns).w.store, spec)
  {
    hide Kube.CleanUpNamespace, Without, Goes, FOUR, Final, EmptyHub;
    LoneCleanUpNamespace(o, w, ns);
    if Goes(w.store, ns) {
      DroppedOneOfFour(w.store, spec, ns);
    }
  }

  lemma PlatformsAreHarmless(o: Oracle, w: World, spec: Spec, kind: Kind)
    requires Alone(o) && kind in PLATFORMS
    ensures Aside(w.store, Kube.RemoveCustomResourcesInNamespace(o, w, kind, spec.platform.namespace).w.store, spec)
  {
    var ns := spec.platform.namespace;
    hide Kube.RemoveCustomResourcesInNamespace, Final, EmptyHub, BulkRemoval.Failures, BulkRemoval.Successes;
    hide BulkRemoval.Listing;
    BulkRemoval.BulkRemovalIsExact(o, w, kind, ns);
    BulkRemoval.ListingIsRemovable(o, w, kind, ns);
    var gone := BulkRemoval.Gone(o, w.clock + 1, BulkRemoval.Listing(o, w, kind, ns));
    forall k | k in gone ensures k in w.store && LabelledPlatform(w.store, spec, k, PLATFORMS) {
      assert k in BulkRemoval.Listing(o, w, kind, ns);
      assert k in Matching(w.store, kind, ns);
    }
    RemovedPlatforms(w.store, spec, gone);
  }

  lemma KnativeIsHarmless(o: Oracle, w: World, spec: Spec)
    requires Alone(o) && Distinct(spec)
    ensures Aside(w.store, KnativeSpec.HandleKnativeCleanUp(o, w).w.store, spec)
  {
    assert {EVENTING, SERVING, SERVERLESS.namespace} <= FOUR;
    hide Kube.CleanUpNamespace, FOUR, EVENTING, SERVING, SERVERLESS, Aside, Alone;
    var w1 := Kube.CleanUpNamespace(o, w, EVENTING).w;
    var w2 := Kube.CleanUpNamespace(o, w1, SERVING).w;
    FourIsHarmless(o, w, spec, EVENTING);
    FourIsHarmless(o, w1, spec, SERVING);
    FourIsHarmless(o, w2, spec, SERVERLESS.namespace);
    AsideTwice(w.store, w1.store, w2.store, spec);
    AsideTwice(w.store, w2.store, Kube.CleanUpNamespace(o, w2, SERVERLESS.namespace).w.store, spec);
  }

  lemma LogicIsHarmless(o: Oracle, w: World, spec: Spec)
    requires Alone(o) && Distinct(spec)
    ensures Aside(w.store, LogicSpec.HandleServerlessLogicCleanUp(o, w, spec.platform.namespace).w.store, spec)
  {
    PlatformKinds();
    assert LOGIC.namespace in FOUR;
    hide Kube.RemoveCustomResourcesInNamespace, Kube.CleanUpNamespace, FOUR, LOGIC, PLATFORMS, Aside, Alone;
    var ns := spec.platform.namespace;
    var w1 := Kube.RemoveCustomResourcesInNamespace(o, w, SonataFlowPlatform, ns).w;
    var w2 := Kube.RemoveCustomResourcesInNamespace(o, w1, SonataFlowClusterPlatform, ns).w;
    PlatformsAreHarmless(o, w, spec, SonataFlowPlatform);
    PlatformsAreHarmless(o, w1, spec, SonataFlowClusterPlatform);
    FourIsHarmless(o, w2, spec, LOGIC.namespace);
    AsideTwice(w.store, w1.store, w2.store, spec);
    AsideTwice(w.store, w2.store, Kube.CleanUpNamespace(o, w2, LOGIC.namespace).w.store, spec);
  }

  /** The check adopts the namespace, or does nothing. */
  lemma LoneCheck(o: Oracle, w: World, ns: string)
    requires Alone(o)
    ensures var r := Kube.CheckNamespaceExist(o, w, ns);
      && (r.w.store == w.store || r.w.store == Quiet.Adopt(w.store, ns))
      && (r.Ok? ==> NamespaceKey(ns) in r.w.store)
      && (r.Fail? ==> r.w.store == w.store)
  {
    hide Get, Update;
    var k := NamespaceKey(ns);
    LoneGet(o, w, k);
    var r := Get(o, w, k);
    if r.Ok? {
      LoneUpdate(o, r.w, k, r.value, Adopted(r.value));
    }
  }

  /** What makes an attempt harmless: it fails without a lost reply, or the RHDH namespace does not
      stand empty. */
  ghost predicate Forgiven<T>(o: Oracle, w: World, spec: Spec, r: Ret<T>) {
    (r.Fail? && NoLostReplies(o)) || !EmptyHub(w.store, spec)
  }

  /** Dropping the RHDH operator's namespace at the end of an attempt. */
  lemma LastDropIsHarmless(o: Oracle, w: World, spec: Spec)
    requires Alone(o) && Distinct(spec) && Forgiven(o, w, spec, Kube.CleanUpNamespace(o, w, RHDH.namespace))
    ensures Harmless(w.store, Kube.CleanUpNamespace(o, w, RHDH.namespace).w.store, spec)
  {
    hide Kube.CleanUpNamespace, Without, Goes, Final, RHDH;
    LoneCleanUpNamespace(o, w, RHDH.namespace);
    if HubOperatorGoes(w.store, spec) {
      DroppedHubOperator(w.store, spec);
    }
  }

  lemma AdoptingIsHarmless(s: Store, spec: Spec)
    requires Distinct(spec)
    ensures Harmless(s, Quiet.Adopt(s, spec.rhdh.namespace), spec)
    ensures EmptyHub(Quiet.Adopt(s, spec.rhdh.namespace), spec) <==> EmptyHub(s, spec)
    ensures Backstages(Quiet.Adopt(s, spec.rhdh.namespace), spec) == Backstages(s, spec)
  {
    AdoptedHub(s, spec);
    if NamespaceKey(spec.rhdh.namespace) in s {
      AdoptExactly(s, spec);
      hide Quiet.Adopt, Goes, Final, Matching;
    }
  }

  /** The RHDH clean-up from the moment it knows that there are Backstages. */
  function AfterListing(o: Oracle, w: World, ns: string, n: nat): Ret<()> {
    var (w2, _) :- if n == 1 then Kube.CleanUpNamespace(o, w, ns) else Ok(w, ());
    Kube.CleanUpNamespace(o, w2, RHDH.namespace)
  }

  lemma AfterListingIsHarmless(o: Oracle, w: World, spec: Spec, n: nat)
    requires Alone(o) && Distinct(spec) && NamespaceKey(spec.rhdh.namespace) in w.store
    requires n == Backstages(w.store, spec) > 0
    ensures Harmless(w.store, AfterListing(o, w, spec.rhdh.namespace, n).w.store, spec)
  {
    hide Kube.CleanUpNamespace, Without, Goes, Final, RHDH, Matching, Alone, FOUR;
    var ns := spec.rhdh.namespace;
    if n == 1 {
      var first := Kube.CleanUpNamespace(o, w, ns);
      LoneCleanUpNamespace(o, w, ns);
      DroppedHub(w.store, spec);
      HubIsGone(w.store, ns);
      if first.Ok? {
        LastDropIsHarmless(o, first.w, spec);
      }
    } else {
      LastDropIsHarmless(o, w, spec);
    }
  }

  lemma HubIsGone(s: Store, ns: string)
    ensures NamespaceKey(ns) !in Without(s, NamespaceKey(ns))
  {
  }

  lemma HubIsHarmless(o: Oracle, w: World, spec: Spec)
    requires Alone(o) && Distinct(spec) && Forgiven(o, w, spec, HubSpec.HandleRHDHCleanUp(o, w, spec.rhdh.namespace))
    ensures Harmless(w.store, HubSpec.HandleRHDHCleanUp(o, w, spec.rhdh.namespace).w.store, spec)
  {
    hide Kube.CheckNamespaceExist, Kube.CleanUpNamespace, List, Harmless, EmptyHub, RHDH, Quiet.Adopt, Alone;
    hide FOUR, NoLostReplies;
    var ns := spec.rhdh.namespace;
    LoneCheck(o, w, ns);
    AdoptingIsHarmless(w.store, spec);
    var check := Kube.CheckNamespaceExist(o, w, ns);
    StandingStill(w.store, spec);
    if check.Fail? {
      LastDropIsHarmless(o, check.w, spec);
    } else {
      LoneList(o, check.w, Backstage, ns);
      var r := List(o, check.w, Backstage, ns);
      if r.Ok? && |r.value| > 0 {
        OrderSize(r.value, Matching(check.w.store, Backstage, ns).Keys);
        assert HubSpec.HandleRHDHCleanUp(o, w, ns) == AfterListing(o, r.w, ns, |r.value|);
        AfterListingIsHarmless(o, r.w, spec, |r.value|);
        HarmlessTwice(w.store, check.w.store, AfterListing(o, r.w, ns, |r.value|).w.store, spec);
      }
    }
  }

  lemma StandingStill(s: Store, spec: Spec)
    ensures Harmless(s, s, spec)
  {
  }

  /** Whatever an attempt has done, a later clean-up ends where it would have ended without it.  If the
      RHDH namespace stands empty, this is so for an attempt that fails without lost replies. */
  lemma AttemptIsHarmless(o: Oracle, w: World, spec: Spec)
    requires Alone(o) && Distinct(spec)
    ensures var r := ReconcileSpec.HandleCleanUp(o, w, spec); Forgiven(o, w, spec, r) ==> Harmless(w.store, r.w.store, spec)
  {
    hide KnativeSpec.HandleKnativeCleanUp, LogicSpec.HandleServerlessLogicCleanUp, HubSpec.HandleRHDHCleanUp;
    hide Final, EmptyHub, Alone, NoLostReplies;
    var r1 := KnativeSpec.HandleKnativeCleanUp(o, w);
    KnativeIsHarmless(o, w, spec);
    if r1.Ok? {
      var r2 := LogicSpec.HandleServerlessLogicCleanUp(o, r1.w, spec.platform.namespace);
      LogicIsHarmless(o, r1.w, spec);
      if r2.Ok? && Forgiven(o, w, spec, HubSpec.HandleRHDHCleanUp(o, r2.w, spec.rhdh.namespace)) {
        HubIsHarmless(o, r2.w, spec);
      }
    }
  }

  // ---------- Many attempts ----------

  /** One attempt, with the calls it meets; the time and the log it starts with do not matter. */
  datatype Try = Try(o: Oracle, w: World)

  function Attempt(s: Store, a: Try, spec: Spec): Ret<()> {
    ReconcileSpec.HandleCleanUp(a.o, a.w.(store := s), spec)
  }

  function AfterTries(s: Store, tries: seq<Try>, spec: Spec): Store
    decreases |tries|
  {
    if tries == [] then s else AfterTries(Attempt(s, tries[0], spec).w.store, tries[1..], spec)
  }

  ghost predicate AllFail(s: Store, tries: seq<Try>, spec: Spec)
    decreases |tries|
  {
    tries == [] ||
    (Alone(tries[0].o) && Attempt(s, tries[0], spec).Fail? && AllFail(Attempt(s, tries[0], spec).w.store, tries[1..], spec))
  }

  lemma {:induction false} TriesAreHarmless(s: Store, tries: seq<Try>, spec: Spec)
    requires Distinct(spec) && AllFail(s, tries, spec)
    requires (forall a :: a in tries ==> NoLostReplies(a.o)) || !EmptyHub(s, spec)
    ensures Harmless(s, AfterTries(s, tries, spec), spec)
    decreases |tries|
  {
    hide ReconcileSpec.HandleCleanUp, Final, EmptyHub, Alone, NoLostReplies;
    if tries != [] {
      AttemptIsHarmless(tries[0].o, tries[0].w.(store := s), spec);
      assert tries[0] in tries && forall a :: a in tries[1..] ==> a in tries;
      TriesAreHarmless(Attempt(s, tries[0], spec).w.store, tries[1..], spec);
    }
  }

  /** Any number of attempts that are cut short by an error at any call, and then one without faults,
      leave the cluster that the one without faults leaves by itself. */
  lemma CleanUpCanBeRetried(s: Store, tries: seq<Try>, spec: Spec, o: Oracle, w: World)
    requires Distinct(spec) && AllFail(s, tries, spec) && Calm(o) && w.store == AfterTries(s, tries, spec)
    requires (forall a :: a in tries ==> NoLostReplies(a.o)) || !EmptyHub(s, spec)
    ensures var r := ReconcileSpec.HandleCleanUp(o, w, spec);
      && r.Ok? && r.w.store == Final(s, spec)
      && (forall v: World :: v.store == s ==> ReconcileSpec.HandleCleanUp(o, v, spec).w.store == r.w.store)
  {
    hide ReconcileSpec.HandleCleanUp, Final, EmptyHub, Alone, NoLostReplies, Quiet.CleanedUp, AfterTries, Calm;
    TriesAreHarmless(s, tries, spec);
    Calmness.CalmCleanUp(o, w, spec);
    CleanUpIsExact(w.store, spec);
    CleanUpIsExact(s, spec);
    forall v: World | v.store == s ensures ReconcileSpec.HandleCleanUp(o, v, spec).w.store == Final(s, spec) {
      Calmness.CalmCleanUp(o, v, spec);
    }
  }

  // ---------- The pass of a deletion ----------

  /** A pass without faults on a resource that is being deleted: the clean-up is complete, the finalizer
      is gone, and the resource with it if that was the last one.  The pass goes on nevertheless, fails
      to put the finalizer back, and reports an error; nothing is installed. */
  lemma DeletionPass(o: Oracle, st: ReconcileSpec.State)
    requires Calm(o) && st.w.cr.Some? && st.w.cr.value.deleting && Distinct(st.w.cr.value.spec)
    ensures var (end, v) := ReconcileSpec.Reconcile(o, st); var cr := st.w.cr.value;
      && end.w.store == Final(st.w.store, cr.spec)
      && end.w.cr == (if cr.finalizers <= {FINALIZER} then None else Some(cr.(finalizers := cr.finalizers - {FINALIZER})))
      && v == ReconcileSpec.Verdict(false, false, Some(if cr.finalizers <= {FINALIZER} then NotFound else Invalid))
      && end.errors == st.errors
  {
    hide GetCR, ReconcileSpec.HandleCleanUp, Final, Quiet.CleanedUp, ReconcileSpec.RunStages, ReconcileSpec.Conclude;
    var cr := st.w.cr.value;
    Calmness.CalmGetCR(o, st.w, true);
    var w1 := GetCR(o, st.w, true).w;
    Calmness.CalmCleanUp(o, w1, cr.spec);
    CleanUpIsExact(w1.store, cr.spec);
    var w2 := ReconcileSpec.HandleCleanUp(o, w1, cr.spec).w;
    var less := cr.(finalizers := cr.finalizers - {FINALIZER});
    assert o(w2.clock).fault.Healthy? && o(w2.clock).others == [];
    assert cr.finalizers <= {FINALIZER} <==> less.finalizers == {};
    var w3 := UpdateCR(o, w2, cr, less).w;
    assert o(w3.clock).fault.Healthy? && o(w3.clock).others == [];
  }

  // ---------- Passes that do not complete a deletion ----------

  /** A pass on a resource that is being deleted, whatever its calls meet: harmless, and the resource is
      as it was, or without the finalizer, or gone. */
  lemma DeletionPassIsHarmless(o: Oracle, st: ReconcileSpec.State)
    requires Alone(o) && st.w.cr.Some? && st.w.cr.value.deleting
    requires Distinct(st.w.cr.value.spec) && !EmptyHub(st.w.store, st.w.cr.value.spec)
    ensures var end := ReconcileSpec.Reconcile(o, st).0.w; var cr := st.w.cr.value;
      && Harmless(st.w.store, end.store, cr.spec)
      && end.cr in {st.w.cr, Settle(cr.(finalizers := cr.finalizers - {FINALIZER}))}
  {
    hide ReconcileSpec.HandleCleanUp, Harmless, EmptyHub, ReconcileSpec.RunStages, ReconcileSpec.Conclude;
    hide ReconcileSpec.InitializeStatus, UpdateCR;
    var cr := st.w.cr.value;
    StandingStill(st.w.store, cr.spec);
    LoneGetCR(o, st.w);
    var w1 := GetCR(o, st.w, true).w;
    AttemptIsHarmless(o, w1, cr.spec);
    var r := ReconcileSpec.HandleCleanUp(o, w1, cr.spec);
    CleanUpKeepsResource(o, w1, cr.spec);
    var less := cr.(finalizers := cr.finalizers - {FINALIZER});
    LoneUpdateCR(o, r.w, cr, less);
    var u := UpdateCR(o, r.w, cr, less);
    NoFinalizerAdded(o, u.w, less);
  }

  lemma LoneGetCR(o: Oracle, w: World)
    requires Alone(o)
    ensures var r := GetCR(o, w, true);
      r.w.store == w.store && r.w.cr == w.cr && (r.Ok? ==> w.cr == Some(r.value))
  {
    assert o(w.clock).others == [];
  }

  lemma LoneUpdateCR(o: Oracle, w: World, seen: Orchestrator, next: Orchestrator)
    requires Alone(o) && next.status == seen.status && next.deleting == seen.deleting
    ensures var r := UpdateCR(o, w, seen, next);
      r.w.store == w.store && r.w.cr in {w.cr, Settle(next)} && (r.Ok? ==> r.value == next)
  {
    assert o(w.clock).others == [];
  }

  /** The server refuses to put the finalizer back. */
  lemma NoFinalizerAdded(o: Oracle, w: World, cr: Orchestrator)
    requires Alone(o) && cr.deleting && FINALIZER !in cr.finalizers
    ensures var r := ReconcileSpec.AddFinalizers(o, w, cr);
      r.Fail? && r.w.store == w.store && r.w.cr == w.cr
  {
    hide FINALIZER;
    assert o(w.clock).others == [];
    assert FINALIZER in (cr.finalizers + {FINALIZER}) - cr.finalizers;
  }

  lemma CleanUpKeepsResource(o: Oracle, w: World, spec: Spec)
    requires Alone(o)
    ensures ReconcileSpec.HandleCleanUp(o, w, spec).w.cr == w.cr
  {
    hide KnativeSpec.HandleKnativeCleanUp, LogicSpec.HandleServerlessLogicCleanUp, HubSpec.HandleRHDHCleanUp;
    var w1 := KnativeSpec.HandleKnativeCleanUp(o, w).w;
    var w2 := LogicSpec.HandleServerlessLogicCleanUp(o, w1, spec.platform.namespace).w;
    KnativeKeepsResource(o, w);
    LogicKeepsResource(o, w1, spec.platform.namespace);
    HubKeepsResource(o, w2, spec.rhdh.namespace);
  }

  lemma NamespaceKeepsResource(o: Oracle, w: World, ns: string)
    requires Alone(o)
    ensures Kube.CleanUpNamespace(o, w, ns).w.cr == w.cr
  {
    hide Get, Delete;
    LoneGet(o, w, NamespaceKey(ns));
    LoneDelete(o, Get(o, w, NamespaceKey(ns)).w, NamespaceKey(ns));
  }

  lemma KnativeKeepsResource(o: Oracle, w: World)
    requires Alone(o)
    ensures KnativeSpec.HandleKnativeCleanUp(o, w).w.cr == w.cr
  {
    hide Kube.CleanUpNamespace;
    NamespaceKeepsResource(o, w, EVENTING);
    var w1 := Kube.CleanUpNamespace(o, w, EVENTING).w;
    NamespaceKeepsResource(o, w1, SERVING);
    NamespaceKeepsResource(o, Kube.CleanUpNamespace(o, w1, SERVING).w, SERVERLESS.namespace);
  }

  lemma {:induction false} RemovalKeepsResource(o: Oracle, w: World, items: seq<Key>)
    requires Alone(o)
    ensures Kube.RemoveAll(o, w, items).0.cr == w.cr
    decreases |items|
  {
    hide Delete;
    if items != [] {
      LoneDelete(o, w, items[0]);
      RemovalKeepsResource(o, Delete(o, w, items[0]).w, items[1..]);
    }
  }

  lemma LogicKeepsResource(o: Oracle, w: World, ns: string)
    requires Alone(o)
    ensures LogicSpec.HandleServerlessLogicCleanUp(o, w, ns).w.cr == w.cr
  {
    hide Kube.RemoveCustomResourcesInNamespace, Kube.CleanUpNamespace;
    KindKeepsResource(o, w, SonataFlowPlatform, ns);
    var w1 := Kube.RemoveCustomResourcesInNamespace(o, w, SonataFlowPlatform, ns).w;
    KindKeepsResource(o, w1, SonataFlowClusterPlatform, ns);
    var w2 := Kube.RemoveCustomResourcesInNamespace(o, w1, SonataFlowClusterPlatform, ns).w;
    NamespaceKeepsResource(o, w2, LOGIC.namespace);
  }

  lemma KindKeepsResource(o: Oracle, w: World, kind: Kind, ns: string)
    requires Alone(o)
    ensures Kube.RemoveCustomResourcesInNamespace(o, w, kind, ns).w.cr == w.cr
  {
    hide List, Kube.RemoveAll;
    LoneList(o, w, kind, ns);
    var r := List(o, w, kind, ns);
    if r.Ok? {
      RemovalKeepsResource(o, r.w, r.value);
    }
  }

  lemma HubKeepsResource(o: Oracle, w: World, ns: string)
    requires Alone(o)
    ensures HubSpec.HandleRHDHCleanUp(o, w, ns).w.cr == w.cr
  {
    hide Kube.CheckNamespaceExist, Kube.CleanUpNamespace, List;
    CheckKeepsResource(o, w, ns);
    var check := Kube.CheckNamespaceExist(o, w, ns);
    NamespaceKeepsResource(o, check.w, RHDH.namespace);
    LoneList(o, check.w, Backstage, ns);
    var w1 := List(o, check.w, Backstage, ns).w;
    NamespaceKeepsResource(o, w1, ns);
    NamespaceKeepsResource(o, w1, RHDH.namespace);
    NamespaceKeepsResource(o, Kube.CleanUpNamespace(o, w1, ns).w, RHDH.namespace);
  }

  lemma CheckKeepsResource(o: Oracle, w: World, ns: string)
    requires Alone(o)
    ensures Kube.CheckNamespaceExist(o, w, ns).w.cr == w.cr
  {
    hide Get, Update;
    var k := NamespaceKey(ns);
    LoneGet(o, w, k);
    var r := Get(o, w, k);
    if r.Ok? {
      LoneUpdate(o, r.w, k, r.value, Adopted(r.value));
    }
  }

  /** The state after passes whose calls meet these turns. */
  function AfterPasses(st: ReconcileSpec.State, turns: seq<Oracle>): ReconcileSpec.State
    decreases |turns|
  {
    if turns == [] then st else AfterPasses(ReconcileSpec.Reconcile(turns[0], st).0, turns[1..])
  }

  /** The resource is still being deleted, with the same specification. */
  predicate StillDeleting(before: Orchestrator, after: Option<Orchestrator>) {
    after.Some? ==> after.value.deleting && after.value.spec == before.spec
  }

  /** A pass on a resource that is gone does nothing. */
  lemma NothingToReconcile(o: Oracle, st: ReconcileSpec.State)
    requires Alone(o) && st.w.cr.None?
    ensures var end := ReconcileSpec.Reconcile(o, st).0.w; end.store == st.w.store && end.cr.None?
  {
    hide ReconcileSpec.Prepare;
    LoneGetCR(o, st.w);
  }

  lemma {:induction false} GoneStaysGone(st: ReconcileSpec.State, turns: seq<Oracle>)
    requires st.w.cr.None? && forall i :: 0 <= i < |turns| ==> Alone(turns[i])
    ensures AfterPasses(st, turns).w.store == st.w.store && AfterPasses(st, turns).w.cr.None?
    decreases |turns|
  {
    hide ReconcileSpec.Reconcile, Alone;
    if turns != [] {
      NothingToReconcile(turns[0], st);
      GoneStaysGone(ReconcileSpec.Reconcile(turns[0], st).0, turns[1..]);
    }
  }

  lemma {:induction false} PassesAreHarmless(st: ReconcileSpec.State, turns: seq<Oracle>)
    requires st.w.cr.Some? && st.w.cr.value.deleting && forall i :: 0 <= i < |turns| ==> Alone(turns[i])
    requires Distinct(st.w.cr.value.spec) && !EmptyHub(st.w.store, st.w.cr.value.spec)
    ensures var end := AfterPasses(st, turns);
      Harmless(st.w.store, end.w.store, st.w.cr.value.spec) && StillDeleting(st.w.cr.value, end.w.cr)
    decreases |turns|
  {
    hide ReconcileSpec.Reconcile, Alone, Final, EmptyHub;
    if turns != [] {
      DeletionPassIsHarmless(turns[0], st);
      var next := ReconcileSpec.Reconcile(turns[0], st).0;
      if next.w.cr.Some? {
        PassesAreHarmless(next, turns[1..]);
      } else {
        GoneStaysGone(next, turns[1..]);
      }
    }
  }

  /** A deletion can be retried: after any number of passes, whatever their calls have met, whether
      the clean-up failed or only the removal of the finalizer, a pass without faults on the resource
      leaves the cluster that it would have left in the first place. */
  lemma DeletionCanBeRetried(st: ReconcileSpec.State, turns: seq<Oracle>, o: Oracle)
    requires st.w.cr.Some? && st.w.cr.value.deleting && forall i :: 0 <= i < |turns| ==> Alone(turns[i])
    requires Distinct(st.w.cr.value.spec) && !EmptyHub(st.w.store, st.w.cr.value.spec)
    requires Calm(o)
    ensures var end := AfterPasses(st, turns);
      end.w.cr.Some? ==>
        && ReconcileSpec.Reconcile(o, end).0.w.store == Final(st.w.store, st.w.cr.value.spec)
        && ReconcileSpec.Reconcile(o, end).0.w.store == ReconcileSpec.Reconcile(o, st).0.w.store
  {
    hide ReconcileSpec.Reconcile, Alone, Final, EmptyHub, AfterPasses, Calm;
    PassesAreHarmless(st, turns);
    var end := AfterPasses(st, turns);
    if end.w.cr.Some? {
      DeletionPass(o, end);
      DeletionPass(o, st);
    }
  }

  // ---------- The exception ----------

  /** Turns that let an attempt skip everything but the last deletion, whose reply is lost. */
  function Sly(o: Oracle, start: nat): Oracle {
    (t: nat) =>
      Turn([], if t < start + 6 then Rejected(NotFound)
               else if t == start + 6 then Rejected(Other)
               else if t == start + 7 then Healthy
               else Lost(Other), o(t).order)
  }

  lemma SkippedNamespace(o: Oracle, w: World, ns: string)
    requires o(w.clock).others == [] && o(w.clock).fault == Rejected(NotFound)
    ensures var r := Kube.CleanUpNamespace(o, w, ns);
      r.Ok? && r.w.store == w.store && r.w.clock == w.clock + 1
  {
  }

  lemma SkippedList(o: Oracle, w: World, kind: Kind, ns: string)
    requires o(w.clock).others == [] && o(w.clock).fault == Rejected(NotFound)
    ensures var r := Kube.RemoveCustomResourcesInNamespace(o, w, kind, ns);
      r.Ok? && r.w.store == w.store && r.w.clock == w.clock + 1
  {
  }

  lemma SkippedHalf(o: Oracle, w: World, spec: Spec)
    requires forall t: nat {:trigger o(t)} :: w.clock <= t < w.clock + 6 ==> o(t).others == [] && o(t).fault == Rejected(NotFound)
    ensures var r1 := KnativeSpec.HandleKnativeCleanUp(o, w);
      var r2 := LogicSpec.HandleServerlessLogicCleanUp(o, r1.w, spec.platform.namespace);
      r1.Ok? && r2.Ok? && r2.w.store == w.store && r2.w.clock == w.clock + 6
  {
    hide Kube.CleanUpNamespace, Kube.RemoveCustomResourcesInNamespace;
    SkippedNamespace(o, w, EVENTING);
    var w1 := Kube.CleanUpNamespace(o, w, EVENTING).w;
    SkippedNamespace(o, w1, SERVING);
    var w2 := Kube.CleanUpNamespace(o, w1, SERVING).w;
    SkippedNamespace(o, w2, SERVERLESS.namespace);
    var w3 := Kube.CleanUpNamespace(o, w2, SERVERLESS.namespace).w;
    SkippedList(o, w3, SonataFlowPlatform, spec.platform.namespace);
    var w4 := Kube.RemoveCustomResourcesInNamespace(o, w3, SonataFlowPlatform, spec.platform.namespace).w;
    SkippedList(o, w4, SonataFlowClusterPlatform, spec.platform.namespace);
    var w5 := Kube.RemoveCustomResourcesInNamespace(o, w4, SonataFlowClusterPlatform, spec.platform.namespace).w;
    SkippedNamespace(o, w5, LOGIC.namespace);
  }

  /** The look-up of the RHDH namespace fails, so that the operator's namespace is deleted; the reply is lost. */
  lemma BlindHub(o: Oracle, w: World, ns: string)
    requires o(w.clock).others == [] && o(w.clock).fault == Rejected(Other)
    requires o(w.clock + 1).others == [] && o(w.clock + 1).fault.Healthy?
    requires o(w.clock + 2).others == [] && o(w.clock + 2).fault == Lost(Other)
    requires Goes(w.store, RHDH.namespace)
    ensures var r := HubSpec.HandleRHDHCleanUp(o, w, ns);
      r.Fail? && r.w.store == Without(w.store, NamespaceKey(RHDH.namespace))
  {
    hide Without, RHDH, Labelled;
    var check := Kube.CheckNamespaceExist(o, w, ns);
    assert check.Fail? && check.w.store == w.store && check.w.clock == w.clock + 1;
    var k := NamespaceKey(RHDH.namespace);
    var r := Get(o, check.w, k);
    assert r.Ok? && r.value == w.store[k] && r.w.store == w.store && r.w.clock == w.clock + 2;
    var d := Delete(o, r.w, k);
    assert d.Fail? && d.error == Other && d.w.store == Without(w.store, k);
  }

  /** With the RHDH namespace standing empty, an attempt without lost replies leaves the namespace of
      the RHDH operator; one whose look-up of the RHDH namespace fails, and whose last reply is lost,
      has already removed it. */
  lemma EmptyHubMatters(o: Oracle, w: World, spec: Spec)
    requires Distinct(spec) && EmptyHub(w.store, spec)
    ensures var sly := Sly(o, w.clock); var r := ReconcileSpec.HandleCleanUp(sly, w, spec);
      Alone(sly) && r.Fail? && !Harmless(w.store, r.w.store, spec)
  {
    hide KnativeSpec.HandleKnativeCleanUp, LogicSpec.HandleServerlessLogicCleanUp, HubSpec.HandleRHDHCleanUp;
    hide Final, Labelled, Matching, RHDH, FOUR;
    var sly := Sly(o, w.clock);
    SkippedHalf(sly, w, spec);
    var r1 := KnativeSpec.HandleKnativeCleanUp(sly, w);
    var r2 := LogicSpec.HandleServerlessLogicCleanUp(sly, r1.w, spec.platform.namespace);
    BlindHub(sly, r2.w, spec.rhdh.namespace);
    OperatorStays(w.store, spec);
  }

  lemma OperatorStays(s: Store, spec: Spec)
    requires Distinct(spec) && EmptyHub(s, spec)
    ensures NamespaceKey(RHDH.namespace) in Final(s, spec)
    ensures NamespaceKey(RHDH.namespace) !in Final(Without(s, NamespaceKey(RHDH.namespace)), spec)
  {
    OperatorIsNotOfTheFour();
    hide FOUR, RHDH, Labelled, Matching;
    var k := NamespaceKey(RHDH.namespace);
    assert forall ns :: ns in FOUR ==> !Within(k, ns);
  }
}
