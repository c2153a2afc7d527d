/** The client through which the operator reads and changes the cluster. */
module Client {
  import opened Kubernetes
  import opened Audit
  import ApiServer

  /** What a list has shown is seen with its label. */
  lemma ListedIsSeen(s: Store, l: Log, kind: Kind, ns: string)
    requires l.Snoc? && l.event == Listed(kind, At(kind, ns, "").ns, ApiServer.Matching(s, kind, ns))
    ensures forall k :: k in ApiServer.Matching(s, kind, ns).Keys ==>
      k.kind == kind && (ClusterScoped(kind) || k.ns == ns) && SeenLabelled(l, k)
  {
  }

  lemma CleanGoesOn(l: Log, e: Event)
    ensures Clean(l) && Sound(l, e) ==> Clean(Snoc(l, e))
    ensures e.Missing? || e.Refused? ==> Sound(l, e)
  {
    hide MayDelete, MayUpdate, MayMakeObject, CleanedUp, Reached, Untroubled;
  }

  lemma CreatedIsSeen(l: Log, k: Key, obj: Obj)
    ensures var l' := Snoc(l, Created(k, obj));
      && (forall j :: j != k ==> LastSight(l', j) == LastSight(l, j))
      && Exists(k) in Shows(l'.event) && HasBody(k, obj.body) in Shows(l'.event)
  {
  }

  lemma UpdatedIsSeen(l: Log, k: Key, was: Obj, obj: Obj)
    ensures var l' := Snoc(l, Updated(k, was, obj));
      && LastSight(l', k) == Some(obj)
      && (forall j :: j != k ==> LastSight(l', j) == LastSight(l, j))
      && HasBody(k, obj.body) in Shows(l'.event)
  {
  }

  class Cluster {
    const oracle: Oracle
    var store: Store
    var cr: Option<Orchestrator>
    var clock: nat
    var log: Log

    constructor (oracle: Oracle, w: World)
      ensures this.oracle == oracle && W() == w
    {
      this.oracle := oracle;
      this.store, this.cr, this.clock, this.log := w.store, w.cr, w.clock, w.log;
    }

    function W(): World
      reads this
    {
      World(store, cr, clock, log)
    }

    /** The others act, and the clock moves on. */
    method Turn() returns (f: Fault)
      modifies this
      ensures W() == ApiServer.Tick(oracle, old(W())) && f == oracle(old(clock)).fault
    {
      f := oracle(clock).fault;
      var acts := oracle(clock).others;
      ghost var w := W();
      while acts != []
        invariant clock == old(clock)
        invariant ApiServer.PerformAll(W(), acts) == ApiServer.PerformAll(w, oracle(old(clock)).others)
        decreases |acts|
      {
        var next := ApiServer.Perform(W(), acts[0]);
        store, cr := next.store, next.cr;
        acts := acts[1..];
      }
      clock := clock + 1;
    }

    method Note(e: Event)
      modifies this`log
      ensures log == Snoc(old(log), e)
      ensures !Opens(e) && !e.Refetched? ==> Follows(old(log), log) && Shows(e) <= Facts(log)
      ensures !Opens(e) && !e.Refetched? ==>
        && (Untroubled(old(log)) && (e.Refused? ==> Tolerable(PassOf(old(log)), e.call)) ==> Untroubled(log))
        && (Faultless(old(log)) && !e.Refused? ==> Faultless(log))
    {
      if !Opens(e) && !e.Refetched? {
        StaysUntroubled(log, e);
      }
      log := Snoc(log, e);
    }

    /** An injected NotFound is an answer of the server like a true one. */
    method Get(k: Key) returns (r: Result<Obj>)
      modifies this
      ensures Agrees(ApiServer.Get(oracle, old(W()), k), W(), r)
      ensures Follows(old(log), log)
      ensures StatusKept(oracle, old(cr), cr)
      ensures Clean(old(log)) ==> Clean(log)
      ensures forall j :: j != k ==> LastSight(log, j) == LastSight(old(log), j)
      ensures r.Success? ==>
        && Fits(k.kind, r.value.body)
        && LastSight(log, k) == Some(r.value)
        && Exists(k) in Facts(log)
        && HasBody(k, r.value.body) in Facts(log)
        && (!Labelled(r.value.labels) ==> IsForeign(k) in Facts(log))
      ensures r.Failure? && r.error == NotFound ==> IsGone(k) in Facts(log)
      ensures r.Failure? ==> Blames(log, r.error)
      ensures r.Failure? && r.error != NotFound ==> CallFailed(LookUp(k)) in Facts(log)
      ensures Untroubled(old(log)) && (r.Success? || r.error == NotFound || Tolerable(PassOf(old(log)), LookUp(k))) ==>
        Untroubled(log)
    {
      hide DoneBefore, Facts, PassOf, StatusIsOurs, Untroubled, Tolerable, MayDelete, MayUpdate, MayMakeObject, CleanedUp, Reached;
      var f := Turn();
      if !f.Healthy? {
        Note(if f.error == NotFound then Missing(k) else Refused(LookUp(k), f.error));
        return Failure(f.error);
      }
      if k in store {
        Note(Found(k, store[k]));
        return Success(store[k]);
      }
      Note(Missing(k));
      return Failure(NotFound);
    }

    method List(kind: Kind, ns: string) returns (r: Result<seq<Key>>)
      modifies this
      ensures Agrees(ApiServer.List(oracle, old(W()), kind, ns), W(), r)
      ensures Follows(old(log), log)
      ensures StatusKept(oracle, old(cr), cr)
      ensures Clean(old(log)) ==> Clean(log)
      ensures r.Success? ==>
        && Answered(kind, At(kind, ns, "").ns, set k | k in r.value) in Facts(log)
        && (forall k :: k in r.value ==> k.kind == kind && (ClusterScoped(kind) || k.ns == ns) && SeenLabelled(log, k))
      ensures r.Failure? && r.error == NotFound ==> Answered(kind, At(kind, ns, "").ns, {}) in Facts(log)
      ensures var c := Listing(kind, At(kind, ns, "").ns);
        && (r.Failure? ==> Blames(log, r.error))
        && (r.Failure? && r.error != NotFound ==> CallFailed(c) in Facts(log))
        && (Untroubled(old(log)) && (r.Success? || r.error == NotFound || Tolerable(PassOf(old(log)), c)) ==> Untroubled(log))
    {
      hide Untroubled, Faultless, Tolerable;
      hide DoneBefore, Facts, PassOf, StatusIsOurs, LastSight, MayDelete, MayUpdate, MayMakeObject, CleanedUp, Reached;
      hide ApiServer.Matching, ApiServer.InOrder;
      var order := oracle(clock).order;
      var f := Turn();
      var scope := At(kind, ns, "").ns;
      var nothing: map<Key, Obj> := map[];
      assert nothing.Keys == {};
      if !f.Healthy? {
        Note(if f.error == NotFound then Listed(kind, scope, nothing) else Refused(Listing(kind, scope), f.error));
        return Failure(f.error);
      }
      var items := ApiServer.Matching(store, kind, ns);
      Note(Listed(kind, scope, items));
      ListedIsSeen(store, log, kind, ns);
      return Success(ApiServer.InOrder(order, items.Keys));
    }

    /** The caller's result of a call that is done. */
    method Answer(f: Fault, own: Option<Error>) returns (r: Result<()>)
      ensures Agrees(ApiServer.Reply(f, W(), own, ()), W(), r)
    {
      if f.Lost? {
        return Failure(f.error);
      }
      r := if own.Some? then Failure(own.value) else Success(());
    }

    /** The same for a call whose failure is noted. */
    method Respond(c: Call, f: Fault, own: Option<Error>) returns (r: Result<()>)
      modifies this`log
      ensures Agrees(ApiServer.Respond(c, f, old(W()), own, ()), W(), r)
      ensures r.Success? ==> log == old(log)
      ensures log == old(log) || (r.Failure? && log == Snoc(old(log), Refused(c, r.error)))
      ensures Follows(old(log), log) && (Clean(old(log)) ==> Clean(log))
      ensures forall j :: LastSight(log, j) == LastSight(old(log), j)
      ensures r.Failure? && ApiServer.IsRefusal(c, r.error) ==> Blames(log, r.error) && CallFailed(c) in Facts(log)
      ensures Untroubled(old(log)) && (log == old(log) || Tolerable(PassOf(old(log)), c)) ==> Untroubled(log)
    {
      hide DoneBefore, Facts, PassOf, Untroubled, Tolerable, MayDelete, MayUpdate, MayMakeObject, CleanedUp, Reached;
      r := Answer(f, own);
      if r.Failure? && ApiServer.IsRefusal(c, r.error) {
        Note(Refused(c, r.error));
      }
    }

    method Create(k: Key, obj: Obj) returns (r: Result<()>)
      requires Fits(k.kind, obj.body)
      modifies this
      ensures Agrees(ApiServer.Create(oracle, old(W()), k, obj), W(), r)
      ensures Follows(old(log), log)
      ensures StatusKept(oracle, old(cr), cr)
      ensures Clean(old(log)) && Sound(old(log), Created(k, obj)) ==> Clean(log)
      ensures forall j :: j != k ==> LastSight(log, j) == LastSight(old(log), j)
      ensures r.Success? ==> Exists(k) in Facts(log) && HasBody(k, obj.body) in Facts(log)
      ensures r.Failure? ==> Blames(log, r.error) && CallFailed(Creation(k)) in Facts(log)
      ensures r.Success? ==> log.Snoc? && log.event == Created(k, obj)
      ensures Untroubled(old(log)) && (r.Success? || Tolerable(PassOf(old(log)), Creation(k))) ==> Untroubled(log)
    {
      hide Sound, Clean, DoneBefore, Facts, PassOf, StatusIsOurs, LastSight, Shows, Untroubled, Faultless, Tolerable;
      var f := Turn();
      if f.Rejected? {
        r := Respond(Creation(k), f, Some(f.error));
        return;
      }
      if !ApiServer.HasNamespace(store, k) {
        r := Respond(Creation(k), f, Some(NotFound));
        return;
      }
      if k in store {
        r := Respond(Creation(k), f, Some(AlreadyExists));
        return;
      }
      store := store[k := obj];
      CreatedIsSeen(log, k, obj);
      CleanGoesOn(log, Created(k, obj));
      Note(Created(k, obj));
      r := Respond(Creation(k), f, None);
    }

    /** Replaces the object that was read, unless it has changed meanwhile. */
    method Update(k: Key, was: Obj, obj: Obj) returns (r: Result<()>)
      requires Fits(k.kind, obj.body)
      modifies this
      ensures Agrees(ApiServer.Update(oracle, old(W()), k, was, obj), W(), r)
      ensures Follows(old(log), log)
      ensures StatusKept(oracle, old(cr), cr)
      ensures Clean(old(log)) && Sound(old(log), Updated(k, was, obj)) ==> Clean(log)
      ensures forall j :: j != k ==> LastSight(log, j) == LastSight(old(log), j)
      ensures LastSight(log, k) == LastSight(old(log), k) || LastSight(log, k) == Some(obj)
      ensures r.Success? ==> HasBody(k, obj.body) in Facts(log)
      ensures r.Failure? ==> Blames(log, r.error) && CallFailed(Change(k)) in Facts(log)
      ensures Untroubled(old(log)) && (r.Success? || Tolerable(PassOf(old(log)), Change(k))) ==> Untroubled(log)
    {
      hide Sound, Clean, DoneBefore, Facts, PassOf, StatusIsOurs, LastSight, Shows, Untroubled, Faultless, Tolerable;
      var f := Turn();
      if f.Rejected? {
        r := Respond(Change(k), f, Some(f.error));
        return;
      }
      if k !in store {
        r := Respond(Change(k), f, Some(NotFound));
        return;
      }
      if store[k] != was {
        r := Respond(Change(k), f, Some(Conflict));
        return;
      }
      store := store[k := obj];
      UpdatedIsSeen(log, k, was, obj);
      CleanGoesOn(log, Updated(k, was, obj));
      Note(Updated(k, was, obj));
      r := Respond(Change(k), f, None);
    }

    method Delete(k: Key) returns (r: Result<()>)
      modifies this
      ensures Agrees(ApiServer.Delete(oracle, old(W()), k), W(), r)
      ensures Follows(old(log), log)
      ensures StatusKept(oracle, old(cr), cr)
      ensures Clean(old(log)) && Sound(old(log), Deleted(k)) ==> Clean(log)
      ensures forall j :: LastSight(log, j) == LastSight(old(log), j)
      ensures r.Success? || r.error == NotFound ==> IsGone(k) in Facts(log)
      ensures r.Failure? ==> Blames(log, r.error)
      ensures r.Failure? && r.error != NotFound ==> CallFailed(Deletion(k)) in Facts(log)
      ensures Untroubled(old(log)) && (r.Success? || r.error == NotFound || Tolerable(PassOf(old(log)), Deletion(k))) ==>
        Untroubled(log)
    {
      hide Untroubled, Faultless, Tolerable, Clean, Sound;
      hide DoneBefore, Facts, PassOf, StatusIsOurs, ApiServer.Without, MayDelete, MayUpdate, MayMakeObject, CleanedUp, Reached;
      var f := Turn();
      if f.Rejected? {
        CleanGoesOn(log, if f.error == NotFound then Missing(k) else Refused(Deletion(k), f.error));
        Note(if f.error == NotFound then Missing(k) else Refused(Deletion(k), f.error));
        return Failure(f.error);
      }
      if k !in store {
        CleanGoesOn(log, Missing(k));
        Note(Missing(k));
        r := Respond(Deletion(k), f, Some(NotFound));
        return;
      }
      store := ApiServer.Without(store, k);
      CleanGoesOn(log, Deleted(k));
      Note(Deleted(k));
      r := Respond(Deletion(k), f, None);
    }

    method GetCR(first: bool) returns (r: Result<Orchestrator>)
      modifies this
      ensures Agrees(ApiServer.GetCR(oracle, old(W()), first), W(), r)
      ensures StatusKept(oracle, old(cr), cr)
      ensures Clean(old(log)) ==> Clean(log)
      ensures r.Success? ==> cr == Some(r.value)
      ensures r.Success? && first ==> PassOf(log) == InPass(r.value, r.value) && Faultless(log)
      ensures Faultless(old(log)) ==> Faultless(log)
      ensures r.Success? && !first && PassOf(old(log)).InPass? ==> PassOf(log) == InPass(PassOf(old(log)).start, r.value)
    {
      hide DoneBefore, LastSight, StatusIsOurs, Untroubled, MayDelete, MayUpdate, MayMakeObject, CleanedUp, Reached;
      var f := Turn();
      if !f.Healthy? {
        return Failure(f.error);
      }
      if cr.None? {
        return Failure(NotFound);
      }
      Note(if first then PassStarted(cr.value) else Refetched(cr.value));
      return Success(cr.value);
    }

    /** No finalizer may be added to a resource that is being deleted. */
    method UpdateCR(seen: Orchestrator, next: Orchestrator) returns (r: Result<Orchestrator>)
      requires next.status == seen.status && next.deleting == seen.deleting
      modifies this
      ensures Agrees(ApiServer.UpdateCR(oracle, old(W()), seen, next), W(), r)
      ensures Follows(old(log), log)
      ensures StatusKept(oracle, old(cr), cr)
      ensures Clean(old(log)) && Sound(old(log), CRWritten(seen, next)) ==> Clean(log)
      ensures (Untroubled(old(log)) ==> Untroubled(log)) && (Faultless(old(log)) ==> Faultless(log))
      ensures r.Success? ==> r.value == next
      ensures seen.deleting && !(next.finalizers <= seen.finalizers) ==> r.Failure?
    {
      hide Sound, DoneBefore, Untroubled, Faultless, Tolerable;
      var f := Turn();
      if f.Rejected? {
        return Failure(f.error);
      }
      var own := None;
      if cr.None? {
        own := Some(NotFound);
      } else if cr.value != seen {
        own := Some(Conflict);
      } else if seen.deleting && !(next.finalizers <= seen.finalizers) {
        own := Some(Invalid);
      } else {
        cr := ApiServer.Settle(next);
        Note(CRWritten(seen, next));
      }
      var a := Answer(f, own);
      r := if a.Failure? then Failure(a.error) else Success(next);
    }

    method UpdateCRStatus(seen: Orchestrator, status: Status) returns (r: Result<Orchestrator>)
      modifies this
      ensures Agrees(ApiServer.UpdateCRStatus(oracle, old(W()), seen, status), W(), r)
      ensures Follows(old(log), log)
      ensures Clean(old(log)) && Sound(old(log), Attempted(status.phase)) ==> Clean(log)
      ensures (Untroubled(old(log)) ==> Untroubled(log)) && (Faultless(old(log)) ==> Faultless(log))
      ensures r.Success? ==> r.value == seen.(status := status) && cr == Some(r.value)
      ensures StatusIsOurs(oracle) && cr.Some? ==>
        && old(cr).Some?
        && (cr.value.status == old(cr).value.status || (old(cr).value.status == seen.status && cr.value.status == status))
    {
      hide Sound, DoneBefore, Untroubled, Faultless, Tolerable;
      var f := Turn();
      Note(Attempted(status.phase));
      if f.Rejected? {
        return Failure(f.error);
      }
      var own := None;
      if cr.None? {
        own := Some(NotFound);
      } else if cr.value != seen {
        own := Some(Conflict);
      } else {
        cr := Some(seen.(status := status));
      }
      var a := Answer(f, own);
      r := if a.Failure? then Failure(a.error) else Success(seen.(status := status));
    }
  }
}
