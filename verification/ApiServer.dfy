/** The API server as functions on the world: each call takes one turn of the oracle. */
module ApiServer {
  import opened Kubernetes

  // ---------- Interference ----------

  predicate HasNamespace(s: Store, k: Key) {
    ClusterScoped(k.kind) || NamespaceKey(k.ns) in s
  }

  /** Deleting a namespace takes its contents with it. */
  function Without(s: Store, k: Key): Store {
    map j | j in s && j != k && !(k.kind == Namespace && j.ns == k.name && !ClusterScoped(j.kind)) :: s[j]
  }

  /** A resource being deleted goes with its last finalizer. */
  function Settle(cr: Orchestrator): Option<Orchestrator> {
    if cr.deleting && cr.finalizers == {} then None else Some(cr)
  }

  function Perform(w: World, a: Act): World {
    match a
    case Put(k, obj) =>
      if Fits(k.kind, obj.body) && HasNamespace(w.store, k) then w.(store := w.store[k := obj]) else w
    case Drop(k) => w.(store := Without(w.store, k))
    case EditCR(spec, deleting, finalizers) =>
      if w.cr.None? then w
      else w.(cr := Settle(Orchestrator(spec, deleting, finalizers, w.cr.value.status)))
    case PutCR(cr) => w.(cr := Settle(cr))
    case DropCR => w.(cr := None)
  }

  function PerformAll(w: World, acts: seq<Act>): (r: World)
    ensures r.log == w.log && r.clock == w.clock
    ensures acts == [] ==> r == w
    ensures (forall a :: a in acts ==> !a.PutCR?) && r.cr.Some? ==> w.cr.Some? && r.cr.value.status == w.cr.value.status
    decreases |acts|
  {
    if acts == [] then w else PerformAll(Perform(w, acts[0]), acts[1..])
  }

  /** The others act, then the call has its turn. */
  function Tick(o: Oracle, w: World): (r: World)
    ensures r.log == w.log && r.clock == w.clock + 1
    ensures o(w.clock).others == [] ==> r.store == w.store && r.cr == w.cr
    ensures StatusKept(o, w.cr, r.cr)
  {
    PerformAll(w, o(w.clock).others).(clock := w.clock + 1)
  }

  function Note(w: World, e: Event): World {
    w.(log := Snoc(w.log, e))
  }

  /** The answer to a call that had this effect and this error of its own. */
  function Reply<T>(f: Fault, done: World, own: Option<Error>, value: T): Ret<T> {
    match f
    case Lost(e) => Fail(done, e)
    case _ => if own.Some? then Fail(done, own.value) else Ok(done, value)
  }

  /** NotFound is no failure of a deletion. */
  predicate IsRefusal(c: Call, e: Error) {
    !(c.Deletion? && e == NotFound)
  }

  /** The answer to a call whose failure is noted, whether or not it took effect. */
  function Respond<T>(c: Call, f: Fault, done: World, own: Option<Error>, value: T): Ret<T> {
    var r := Reply(f, done, own, value);
    if r.Fail? && IsRefusal(c, r.error) then Fail(Note(r.w, Refused(c, r.error)), r.error) else r
  }

  /** A failed look-up or list: NotFound is an answer. */
  function Unread(w: World, c: Call, e: Error, answer: Event): World {
    Note(w, if e == NotFound then answer else Refused(c, e))
  }

  // ---------- Calls on cluster objects ----------

  /** A NotFound answer is an answer, whether it is true or an injected fault. */
  function Get(o: Oracle, w: World, k: Key): (r: Ret<Obj>)
    ensures r.Ok? ==> Fits(k.kind, r.value.body)
  {
    var w1 := Tick(o, w);
    match o(w.clock).fault
    case Rejected(e) => Fail(Unread(w1, LookUp(k), e, Missing(k)), e)
    case Lost(e) => Fail(Unread(w1, LookUp(k), e, Missing(k)), e)
    case Healthy =>
      if k in w1.store then Ok(Note(w1, Found(k, w1.store[k])), w1.store[k])
      else Fail(Note(w1, Missing(k)), NotFound)
  }

  /** The labelled objects of a kind: those of one namespace, or all if the kind has none. */
  function Matching(s: Store, kind: Kind, ns: string): map<Key, Obj> {
    map k | k in s && k.kind == kind && (ClusterScoped(kind) || k.ns == ns) && Labelled(s[k].labels) :: s[k]
  }

  function InOrder(f: Order, keys: set<Key>): (q: seq<Key>)
    ensures IsEnumeration(q, keys)
    ensures (set k | k in q) == keys
  {
    f(keys)
  }

  function List(o: Oracle, w: World, kind: Kind, ns: string): (r: Ret<seq<Key>>)
    ensures r.Ok? ==> IsEnumeration(r.value, set k | k in r.value)
  {
    var w1 := Tick(o, w);
    var scope := At(kind, ns, "").ns;
    var nothing: map<Key, Obj> := map[];
    assert nothing.Keys == {};
    match o(w.clock).fault
    case Rejected(e) => Fail(Unread(w1, Listing(kind, scope), e, Listed(kind, scope, nothing)), e)
    case Lost(e) => Fail(Unread(w1, Listing(kind, scope), e, Listed(kind, scope, nothing)), e)
    case Healthy =>
      var items := Matching(w1.store, kind, ns);
      Ok(Note(w1, Listed(kind, scope, items)), InOrder(o(w.clock).order, items.Keys))
  }

  function Create(o: Oracle, w: World, k: Key, obj: Obj): Ret<()>
    requires Fits(k.kind, obj.body)
  {
    var w1 := Tick(o, w);
    var f := o(w.clock).fault;
    if f.Rejected? then Respond(Creation(k), f, w1, Some(f.error), ())
    else if !HasNamespace(w1.store, k) then Respond(Creation(k), f, w1, Some(NotFound), ())
    else if k in w1.store then Respond(Creation(k), f, w1, Some(AlreadyExists), ())
    else Respond(Creation(k), f, Note(w1.(store := w1.store[k := obj]), Created(k, obj)), None, ())
  }

  /** Replaces the object that was read by another one, unless it has changed meanwhile. */
  function Update(o: Oracle, w: World, k: Key, was: Obj, obj: Obj): Ret<()>
    requires Fits(k.kind, obj.body)
  {
    var w1 := Tick(o, w);
    var f := o(w.clock).fault;
    if f.Rejected? then Respond(Change(k), f, w1, Some(f.error), ())
    else if k !in w1.store then Respond(Change(k), f, w1, Some(NotFound), ())
    else if w1.store[k] != was then Respond(Change(k), f, w1, Some(Conflict), ())
    else Respond(Change(k), f, Note(w1.(store := w1.store[k := obj]), Updated(k, was, obj)), None, ())
  }

  function Delete(o: Oracle, w: World, k: Key): Ret<()> {
    var w1 := Tick(o, w);
    var f := o(w.clock).fault;
    if f.Rejected? then Fail(Unread(w1, Deletion(k), f.error, Missing(k)), f.error)
    else if k !in w1.store then Respond(Deletion(k), f, Note(w1, Missing(k)), Some(NotFound), ())
    else Respond(Deletion(k), f, Note(w1.(store := Without(w1.store, k)), Deleted(k)), None, ())
  }

  // ---------- Calls on the Orchestrator resource ----------

  /** Reads the resource; `first` tells the read a pass starts with from the later one. */
  function GetCR(o: Oracle, w: World, first: bool): Ret<Orchestrator> {
    var w1 := Tick(o, w);
    match o(w.clock).fault
    case Rejected(e) => Fail(w1, e)
    case Lost(e) => Fail(w1, e)
    case Healthy =>
      match w1.cr
      case None => Fail(w1, NotFound)
      case Some(cr) => Ok(Note(w1, if first then PassStarted(cr) else Refetched(cr)), cr)
  }

  /** Writes metadata and spec; the status of the stored resource stays.  No finalizer may be
      added to a resource that is being deleted. */
  function UpdateCR(o: Oracle, w: World, seen: Orchestrator, next: Orchestrator): (r: Ret<Orchestrator>)
    requires next.status == seen.status && next.deleting == seen.deleting
    ensures r.Ok? ==> r.value == next
    ensures seen.deleting && !(next.finalizers <= seen.finalizers) ==> r.Fail?
  {
    var w1 := Tick(o, w);
    var f := o(w.clock).fault;
    if f.Rejected? then Fail(w1, f.error)
    else if w1.cr.None? then Reply(f, w1, Some(NotFound), next)
    else if w1.cr.value != seen then Reply(f, w1, Some(Conflict), next)
    else if seen.deleting && !(next.finalizers <= seen.finalizers) then Reply(f, w1, Some(Invalid), next)
    else Reply(f, Note(w1.(cr := Settle(next)), CRWritten(seen, next)), None, next)
  }

  /** Writes the status only. */
  function UpdateCRStatus(o: Oracle, w: World, seen: Orchestrator, status: Status): (r: Ret<Orchestrator>)
    ensures r.Ok? ==> r.value == seen.(status := status)
  {
    var w1 := Note(Tick(o, w), Attempted(status.phase));
    var f := o(w.clock).fault;
    if f.Rejected? then Fail(w1, f.error)
    else if w1.cr.None? then Reply(f, w1, Some(NotFound), seen)
    else if w1.cr.value != seen then Reply(f, w1, Some(Conflict), seen)
    else Reply(f, w1.(cr := Some(seen.(status := status))), None, seen.(status := status))
  }
}
