/** Bulk removal under any pattern of failing calls. */
module BulkRemoval {
  import opened Kubernetes
  import opened ApiServer
  import opened KubeOperationsSpec
  import ServerlessLogicSpec

  /** The errors among the `n` calls from time `t` on. */
  function Failures(o: Oracle, t: nat, n: nat): seq<Error>
    decreases n
  {
    if n == 0 then []
    else (if o(t).fault.Healthy? then [] else [o(t).fault.error]) + Failures(o, t + 1, n - 1)
  }

  function Successes(o: Oracle, t: nat, n: nat): nat
    decreases n
  {
    if n == 0 then 0 else (if o(t).fault.Healthy? then 1 else 0) + Successes(o, t + 1, n - 1)
  }

  /** The items whose deletion took effect: a reply that is lost is one of an effective deletion. */
  ghost function Gone(o: Oracle, t: nat, items: seq<Key>): set<Key> {
    set i | 0 <= i < |items| && !o(t + i).fault.Rejected? :: items[i]
  }

  /** Objects that can be deleted one after the other. */
  ghost predicate Removable(s: Store, items: seq<Key>) {
    && (forall i :: 0 <= i < |items| ==> items[i] in s && items[i].kind != Namespace)
    && (forall i, j :: 0 <= i < j < |items| ==> items[i] != items[j])
  }

  lemma OneDeletion(o: Oracle, w: World, k: Key)
    requires Alone(o) && k in w.store && k.kind != Namespace
    ensures var f, r := o(w.clock).fault, Delete(o, w, k);
      && r.w.clock == w.clock + 1 && r.w.cr == w.cr
      && (r.Ok? <==> f.Healthy?) && (r.Fail? ==> r.error == f.error)
      && r.w.store == if f.Rejected? then w.store else w.store - {k}
  {
    assert o(w.clock).others == [];
    assert Without(w.store, k) == w.store - {k};
  }

  /** The first item, if its deletion took effect. */
  ghost function FirstGone(o: Oracle, t: nat, items: seq<Key>): set<Key>
    requires items != []
  {
    if o(t).fault.Rejected? then {} else {items[0]}
  }

  lemma GoneOfRest(o: Oracle, t: nat, items: seq<Key>)
    requires items != []
    ensures Gone(o, t, items) == FirstGone(o, t, items) + Gone(o, t + 1, items[1..])
  {
    var rest := items[1..];
    forall k | k in Gone(o, t + 1, rest) ensures k in Gone(o, t, items) {
      var i :| 0 <= i < |rest| && !o(t + 1 + i).fault.Rejected? && rest[i] == k;
      assert items[i + 1] == k && o(t + (i + 1)) == o(t + 1 + i);
    }
    forall k | k in Gone(o, t, items) ensures k in FirstGone(o, t, items) + Gone(o, t + 1, rest) {
      var i :| 0 <= i < |items| && !o(t + i).fault.Rejected? && items[i] == k;
      if i > 0 {
        assert rest[i - 1] == k && o(t + 1 + (i - 1)) == o(t + i);
      }
    }
    assert !o(t).fault.Rejected? ==> items[0] in Gone(o, t, items) by {
      assert t + 0 == t;
    }
  }

  /** The other items can still be deleted after the first. */
  lemma RestIsRemovable(o: Oracle, w: World, items: seq<Key>)
    requires Alone(o) && Removable(w.store, items) && items != []
    ensures Removable(Delete(o, w, items[0]).w.store, items[1..])
  {
    hide Delete;
    OneDeletion(o, w, items[0]);
    var t, rest := Delete(o, w, items[0]).w.store, items[1..];
    forall i | 0 <= i < |rest| ensures rest[i] in t && rest[i].kind != Namespace {
      assert rest[i] == items[i + 1];
    }
  }

  lemma {:induction false} ErrorsAreCollected(o: Oracle, w: World, items: seq<Key>)
    requires Alone(o) && Removable(w.store, items)
    ensures var (end, errors) := RemoveAll(o, w, items);
      errors == Failures(o, w.clock, |items|) && end.clock == w.clock + |items| && end.cr == w.cr
    decreases |items|
  {
    hide Delete, Alone, Removable;
    if items != [] {
      FirstIsRemovable(w.store, items);
      OneDeletion(o, w, items[0]);
      RestIsRemovable(o, w, items);
      ErrorsAreCollected(o, Delete(o, w, items[0]).w, items[1..]);
    }
  }

  lemma FirstIsRemovable(s: Store, items: seq<Key>)
    requires Removable(s, items) && items != []
    ensures items[0] in s && items[0].kind != Namespace
  {
  }

  lemma {:induction false} JustTheseAreLeft(o: Oracle, w: World, items: seq<Key>)
    requires Alone(o) && Removable(w.store, items)
    ensures RemoveAll(o, w, items).0.store == w.store - Gone(o, w.clock, items)
    decreases |items|
  {
    hide Delete, Alone, Removable, Gone, FirstGone, RemoveAll;
    if items == [] {
      NoneIsLeft(o, w);
    } else {
      FirstThenRest(o, w, items);
      RestIsRemovable(o, w, items);
      FirstDeletion(o, w, items);
      JustTheseAreLeft(o, Delete(o, w, items[0]).w, items[1..]);
      GoneOfRest(o, w.clock, items);
      LeftByBoth(w.store, FirstGone(o, w.clock, items), Gone(o, w.clock + 1, items[1..]));
    }
  }

  lemma NoneIsLeft(o: Oracle, w: World)
    ensures RemoveAll(o, w, []).0.store == w.store - Gone(o, w.clock, [])
  {
    assert Gone(o, w.clock, []) == {};
  }

  lemma FirstThenRest(o: Oracle, w: World, items: seq<Key>)
    requires items != []
    ensures RemoveAll(o, w, items).0 == RemoveAll(o, Delete(o, w, items[0]).w, items[1..]).0
  {
    hide Delete;
  }

  lemma FirstDeletion(o: Oracle, w: World, items: seq<Key>)
    requires Alone(o) && Removable(w.store, items) && items != []
    ensures var d := Delete(o, w, items[0]).w;
      d.store == w.store - FirstGone(o, w.clock, items) && d.clock == w.clock + 1
  {
    hide Delete;
    OneDeletion(o, w, items[0]);
  }

  lemma LeftByBoth(s: Store, a: set<Key>, b: set<Key>)
    ensures (s - a) - b == s - (a + b)
  {
  }

  /** Every item is tried; each error is collected, in order; just the items whose deletion was
      rejected are left, and nothing else is touched. */
  lemma RemovalIsExact(o: Oracle, w: World, items: seq<Key>)
    requires Alone(o) && Removable(w.store, items)
    ensures var (end, errors) := RemoveAll(o, w, items);
      && end.store == w.store - Gone(o, w.clock, items)
      && errors == Failures(o, w.clock, |items|)
      && Successes(o, w.clock, |items|) + |errors| == |items|
      && end.clock == w.clock + |items| && end.cr == w.cr
  {
    hide RemoveAll, Gone, Alone, Removable, Failures, Successes;
    ErrorsAreCollected(o, w, items);
    JustTheseAreLeft(o, w, items);
    SuccessesAndFailures(o, w.clock, |items|);
  }

  /** The `n` calls from time `t` on all go well. */
  ghost predicate AllHealthy(o: Oracle, t: nat, n: nat) {
    forall u: nat {:trigger o(u)} :: t <= u < t + n ==> o(u).fault.Healthy?
  }

  lemma {:induction false} NoFailures(o: Oracle, t: nat, n: nat)
    ensures Failures(o, t, n) == [] <==> AllHealthy(o, t, n)
    decreases n
  {
    if n > 0 {
      NoFailures(o, t + 1, n - 1);
    }
  }

  /** The order in which the labelled objects of a kind are deleted. */
  function Listing(o: Oracle, w: World, kind: Kind, ns: string): seq<Key> {
    InOrder(o(w.clock).order, Matching(w.store, kind, ns).Keys)
  }

  /** The call fails exactly if the list or one of the deletions fails; a list that is NotFound counts
      as empty.  Just those labelled objects survive whose deletion was rejected. */
  lemma BulkRemovalIsExact(o: Oracle, w: World, kind: Kind, ns: string)
    requires Alone(o) && kind != Namespace
    ensures var r, f, items := RemoveCustomResourcesInNamespace(o, w, kind, ns), o(w.clock).fault, Listing(o, w, kind, ns);
      && (r.Ok? <==> if f.Healthy? then AllHealthy(o, w.clock + 1, |items|)
                     else f.error == NotFound)
      && r.w.store == (if f.Healthy? then w.store - Gone(o, w.clock + 1, items) else w.store)
      && (f.Healthy? && r.Fail? ==> r.error == Aggregate(Failures(o, w.clock + 1, |items|)))
      && Successes(o, w.clock + 1, |items|) + |Failures(o, w.clock + 1, |items|)| == |items|
  {
    hide RemoveAll, Matching, Removable, Gone, Failures, Successes, AllHealthy;
    assert o(w.clock).others == [];
    hide Alone;
    var items := Listing(o, w, kind, ns);
    ListingIsRemovable(o, w, kind, ns);
    var r := List(o, w, kind, ns);
    if r.Ok? {
      RemovalIsExact(o, r.w, items);
      NoFailures(o, w.clock + 1, |items|);
    } else {
      SuccessesAndFailures(o, w.clock + 1, |items|);
    }
  }

  lemma ListingIsRemovable(o: Oracle, w: World, kind: Kind, ns: string)
    requires kind != Namespace
    ensures Removable(w.store, Listing(o, w, kind, ns))
    ensures forall k :: k in Listing(o, w, kind, ns) <==> k in Matching(w.store, kind, ns)
  {
    var items := Listing(o, w, kind, ns);
    forall i | 0 <= i < |items| ensures items[i] in w.store && items[i].kind != Namespace {
      assert items[i] in items;
    }
  }

  lemma {:induction false} SuccessesAndFailures(o: Oracle, t: nat, n: nat)
    ensures Successes(o, t, n) + |Failures(o, t, n)| == n
    decreases n
  {
    if n > 0 {
      SuccessesAndFailures(o, t + 1, n - 1);
    }
  }

  lemma AllGone(o: Oracle, w: World, kind: Kind, ns: string)
    requires kind != Namespace && AllHealthy(o, w.clock + 1, |Listing(o, w, kind, ns)|)
    ensures Gone(o, w.clock + 1, Listing(o, w, kind, ns)) == Matching(w.store, kind, ns).Keys
  {
    hide Listing, Matching;
    var items := Listing(o, w, kind, ns);
    ListingIsRemovable(o, w, kind, ns);
    forall k | k in items ensures k in Gone(o, w.clock + 1, items) {
      var i :| 0 <= i < |items| && items[i] == k;
      assert o(w.clock + 1 + i).fault.Healthy?;
    }
  }

  /** The second kind is removed even if the removal of the first has failed, and the result tells
      whether both went well. */
  lemma BothKindsAreTried(o: Oracle, w: World, ns: string)
    requires Alone(o)
    ensures var r1 := RemoveCustomResourcesInNamespace(o, w, SonataFlowPlatform, ns);
      var items := Listing(o, r1.w, SonataFlowClusterPlatform, ns);
      var r := ServerlessLogicSpec.HandleRemovalOfOSLCRs(o, w, ns);
      && (r.Ok? ==> r1.Ok?)
      && (AllHealthy(o, r1.w.clock, 1 + |items|) ==>
            && (r.Ok? <==> r1.Ok?)
            && r.w.store == r1.w.store - Matching(r1.w.store, SonataFlowClusterPlatform, ns).Keys)
  {
    hide RemoveCustomResourcesInNamespace, Matching, Listing, Gone, Failures, Successes;
    var r1 := RemoveCustomResourcesInNamespace(o, w, SonataFlowPlatform, ns);
    var items := Listing(o, r1.w, SonataFlowClusterPlatform, ns);
    BulkRemovalIsExact(o, r1.w, SonataFlowClusterPlatform, ns);
    if AllHealthy(o, r1.w.clock, 1 + |items|) {
      assert o(r1.w.clock).fault.Healthy?;
      AllGone(o, r1.w, SonataFlowClusterPlatform, ns);
    }
  }
}
