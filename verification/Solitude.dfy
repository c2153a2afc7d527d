/** Calls without interference, whatever faults they meet. */
module Solitude {
  import opened Kubernetes
  import opened ApiServer

  /** Only objects of these keys may differ. */
  ghost predicate SameExcept(s: Store, t: Store, keys: set<Key>) {
    forall k :: k !in keys ==> (k in s <==> k in t) && (k in s && k in t ==> s[k] == t[k])
  }

  /** The answer to a call changes nothing but the log. */
  lemma RespondKeeps(f: Fault, w: World)
    ensures forall c: Call, own :: Respond(c, f, w, own, ()).w == w.(log := Respond(c, f, w, own, ()).w.log)
    ensures forall c: Call, own :: Respond(c, f, w, own, ()).Ok? <==> !f.Lost? && own.None?
  {
  }

  lemma LoneGet(o: Oracle, w: World, k: Key)
    requires Alone(o)
    ensures var r := Get(o, w, k);
      && r.w.store == w.store && r.w.cr == w.cr && r.w.clock == w.clock + 1
      && (r.Ok? ==> k in w.store && r.value == w.store[k])
      && (o(w.clock).fault.Healthy? ==> (r.Ok? <==> k in w.store) && (r.Fail? ==> r.error == NotFound))
  {
    assert o(w.clock).others == [];
  }

  lemma LoneList(o: Oracle, w: World, kind: Kind, ns: string)
    requires Alone(o)
    ensures var r := List(o, w, kind, ns);
      && r.w.store == w.store && r.w.cr == w.cr && r.w.clock == w.clock + 1
      && (r.Ok? ==> IsEnumeration(r.value, Matching(w.store, kind, ns).Keys))
  {
    assert o(w.clock).others == [];
  }

  /** The object is made, or nothing happens; success means that it is made. */
  lemma LoneCreate(o: Oracle, w: World, k: Key, obj: Obj)
    requires Alone(o) && Fits(k.kind, obj.body)
    ensures var r := Create(o, w, k, obj);
      && r.w.cr == w.cr && r.w.clock == w.clock + 1
      && (r.w.store == w.store || (k !in w.store && r.w.store == w.store[k := obj]))
      && (r.Ok? ==> k !in w.store && r.w.store == w.store[k := obj])
      && (r.Ok? <==> o(w.clock).fault.Healthy? && k !in w.store && HasNamespace(w.store, k))
  {
    hide Respond;
    var w1 := Tick(o, w);
    RespondKeeps(o(w.clock).fault, w1);
    RespondKeeps(o(w.clock).fault, Note(w1.(store := w1.store[k := obj]), Created(k, obj)));
    assert o(w.clock).others == [];
  }

  lemma LoneUpdate(o: Oracle, w: World, k: Key, was: Obj, obj: Obj)
    requires Alone(o) && Fits(k.kind, obj.body)
    ensures var r := Update(o, w, k, was, obj);
      && r.w.cr == w.cr && r.w.clock == w.clock + 1
      && (r.w.store == w.store || (k in w.store && w.store[k] == was && r.w.store == w.store[k := obj]))
      && (r.Ok? ==> k in w.store && w.store[k] == was && r.w.store == w.store[k := obj])
  {
    hide Respond;
    var w1 := Tick(o, w);
    RespondKeeps(o(w.clock).fault, w1);
    RespondKeeps(o(w.clock).fault, Note(w1.(store := w1.store[k := obj]), Updated(k, was, obj)));
    assert o(w.clock).others == [];
  }

  lemma LoneDelete(o: Oracle, w: World, k: Key)
    requires Alone(o)
    ensures var r := Delete(o, w, k);
      && r.w.cr == w.cr && r.w.clock == w.clock + 1
      && (r.w.store == w.store || (k in w.store && r.w.store == Without(w.store, k)))
      && (r.Ok? ==> k in w.store && r.w.store == Without(w.store, k))
      && (o(w.clock).fault.Rejected? ==> r.w.store == w.store)
  {
    assert o(w.clock).others == [];
  }
}
