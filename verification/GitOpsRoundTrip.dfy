/** Switching the GitOps resources on and off again: when the cluster is as it was before. */
module GitOpsRoundTrip {
  import opened Kubernetes
  import opened Desired
  import opened ApiServer
  import opened Quiet
  import opened Goals
  import Calmness
  import Convergence
  import Fixpoint
  import GitOpsSpec
  import PassBound
  import Progress
  import ReconcileSpec
  import DeveloperHubSpec
  import NetworkPoliciesSpec

  /** The stage can work: its namespace and the definitions are there. */
  predicate Usable(s: Store, ns: string) {
    NamespaceKey(ns) in s && CRDKey(APP_PROJECT_CRD) in s && CRDKey(TASK_CRD) in s && CRDKey(PIPELINE_CRD) in s
  }

  /** The objects of this kind are those they were. */
  ghost predicate SameKind(s: Store, t: Store, kind: Kind) {
    forall k: Key :: k.kind == kind ==> (k in s <==> k in t) && (k in s && k in t ==> s[k] == t[k])
  }

  // ---------- Switching on ----------

  lemma {:induction false} TasksKeep(s: Store, names: seq<string>, ns: string)
    requires NamespaceKey(ns) in s
    ensures var q := Tasks(s, names, ns);
      && q.Fine?
      && (forall k :: k in s ==> k in q.s && q.s[k] == s[k])
      && (forall k :: k in q.s && k !in s ==> exists n :: n in names && k == TaskKey(ns, n) && q.s[k] == NewTask(n))
      && (forall n :: n in names ==> TaskKey(ns, n) in q.s)
    decreases |names|
  {
    hide NewTask;
    if names != [] {
      assert NewTask(names[0]).body.Manifest? by { NewTaskFits(names[0]); }
      var k := TaskKey(ns, names[0]);
      NewTaskFits(names[0]);
      TasksKeep(GetOrPut(s, k, NewTask(names[0])).s, names[1..], ns);
      assert forall n :: n in names <==> n == names[0] || n in names[1..];
    }
  }

  lemma NewTaskFits(name: string)
    ensures NewTask(name).body.Manifest? && Labelled(NewTask(name).labels)
  {
  }

  // ---------- Switched on ----------

  /** The one object of a kind under the operator's name is there; the others of the kind stay. */
  ghost predicate OneMade(s: Store, t: Store, k: Key, made: Obj) {
    && k in t && t[k] == made
    && (forall j: Key :: j.kind == k.kind && j != k ==> (j in s <==> j in t) && (j in s && j in t ==> t[j] == s[j]))
  }

  function ProjectFrom(s: Store, ns: string): Obj {
    var k := AppProjectKey(ns);
    if k in s then s[k].(body := APP_PROJECT.body) else APP_PROJECT
  }

  function PipelineFrom(s: Store, ns: string): Obj {
    if PipelineKey(ns) in s then s[PipelineKey(ns)] else PIPELINE
  }

  /** Existing Tasks stay, and new ones carry the label. */
  ghost predicate TasksMade(s: Store, t: Store, ns: string) {
    && (forall k: Key :: k.kind == Task && k in s ==> k in t && t[k] == s[k])
    && (forall k: Key :: k.kind == Task && k in t && k !in s ==> k.ns == ns && Labelled(t[k].labels))
  }

  /** What the stage makes of `s` while it is switched on. */
  ghost predicate SwitchedOn(s: Store, t: Store, ns: string) {
    && OneMade(s, t, AppProjectKey(ns), ProjectFrom(s, ns))
    && OneMade(s, t, PipelineKey(ns), PipelineFrom(s, ns))
    && TasksMade(s, t, ns)
    && NamespaceKey(ns) in t
  }

  /** The stage has left the GitOps resources as they were. */
  ghost predicate Leaves(s: Store, t: Store) {
    forall k :: !Elsewhere(k) ==> (k in s <==> k in t) && (k in s && k in t ==> s[k] == t[k])
  }

  predicate Elsewhere(k: Key) {
    k.kind !in {AppProject, Pipeline, Task}
  }

  lemma AddedByTasks(s: Store, ns: string, kind: Kind)
    requires NamespaceKey(ns) in s && kind != Task
    ensures SameKind(s, Tasks(s, TASKS, ns).s, kind)
  {
    hide Tasks, TASKS;
    TasksKeep(s, TASKS, ns);
  }

  lemma OtherKindsStay(s: Store, k: Key, obj: Obj, kind: Kind)
    requires Fits(k.kind, obj.body) && kind != k.kind
    ensures SameKind(s, PutOrRepair(s, k, obj).s, kind) && SameKind(s, GetOrPut(s, k, obj).s, kind)
  {
  }

  lemma MakingTasks(s: Store, ns: string)
    requires NamespaceKey(ns) in s
    ensures TasksMade(s, Tasks(s, TASKS, ns).s, ns)
  {
    hide Tasks, TASKS, NewTask, Labelled;
    TasksKeep(s, TASKS, ns);
    var t := Tasks(s, TASKS, ns).s;
    forall k | k in t && k !in s ensures k.ns == ns && Labelled(t[k].labels) {
      var n :| n in TASKS && k == TaskKey(ns, n) && t[k] == NewTask(n);
      NewTaskFits(n);
    }
  }

  lemma MakingThePipeline(s: Store, ns: string)
    requires NamespaceKey(ns) in s
    ensures OneMade(s, GetOrPut(s, PipelineKey(ns), PIPELINE).s, PipelineKey(ns), PipelineFrom(s, ns))
    ensures GetOrPut(s, PipelineKey(ns), PIPELINE).s == PipelineOnce(s, ns).s
    ensures PipelineOnce(s, ns).Fine? <==> PipelineKey(ns) in s
  {
  }

  lemma MakingTheProject(s: Store, ns: string)
    requires NamespaceKey(ns) in s
    ensures var q := PutOrRepair(s, AppProjectKey(ns), APP_PROJECT);
      q.Fine? && OneMade(s, q.s, AppProjectKey(ns), ProjectFrom(s, ns)) && NamespaceKey(ns) in q.s
  {
  }

  /** The stage comes as far as the Pipeline, which it may have to report as missing. */
  lemma StageSwitchesOn(s: Store, ns: string)
    requires Usable(s, ns)
    ensures SwitchedOn(s, GitOpsOn(s, ns).s, ns)
    ensures GitOpsOn(s, ns).Fine? <==> PipelineKey(ns) in s
  {
    hide Tasks, TASKS, PutOrRepair, GetOrPut, PipelineOnce, APP_PROJECT, APP_PROJECT_CRD, TASK_CRD;
    hide PIPELINE_CRD, PIPELINE;
    hide ProjectFrom, OneMade, TasksMade, SameKind, SwitchedOn;
    var k := AppProjectKey(ns);
    Fixpoint.ProjectFits(ns);
    MakingTheProject(s, ns);
    var s1 := PutOrRepair(s, k, APP_PROJECT).s;
    TasksKeep(s1, TASKS, ns);
    var s2 := Tasks(s1, TASKS, ns).s;
    OthersAreThere(s, s1, ns);
    assert GitOpsOn(s, ns) == PipelineOnce(s2, ns);
    MakingTasks(s1, ns);
    MakingThePipeline(s2, ns);
    StepsSwitchOn(s, ns);
  }

  lemma OthersAreThere(s: Store, t: Store, ns: string)
    requires t == PutOrRepair(s, AppProjectKey(ns), APP_PROJECT).s && Usable(s, ns)
    ensures Usable(t, ns) && (PipelineKey(ns) in s <==> PipelineKey(ns) in t)
  {
    hide APP_PROJECT_CRD, TASK_CRD, PIPELINE_CRD;
  }

  lemma MadeAndKept(s: Store, t: Store, u: Store, k: Key, made: Obj)
    requires OneMade(s, t, k, made) && SameKind(t, u, k.kind)
    ensures OneMade(s, u, k, made)
  {
  }

  lemma KeptAndMade(s: Store, t: Store, u: Store, k: Key, made: Obj)
    requires SameKind(s, t, k.kind) && OneMade(t, u, k, made)
    ensures OneMade(s, u, k, made)
  {
  }

  lemma TasksBetween(s: Store, s1: Store, s2: Store, t: Store, ns: string)
    requires SameKind(s, s1, Task) && TasksMade(s1, s2, ns) && SameKind(s2, t, Task)
    ensures TasksMade(s, t, ns)
  {
    hide Labelled;
  }

  lemma SameTwice(r: Store, s: Store, t: Store, kind: Kind)
    requires SameKind(r, s, kind) && SameKind(s, t, kind)
    ensures SameKind(r, t, kind)
  {
  }

  lemma SamePipeline(s: Store, t: Store, ns: string)
    requires SameKind(s, t, Pipeline)
    ensures PipelineFrom(s, ns) == PipelineFrom(t, ns)
  {
  }

  lemma StepsSwitchOn(s: Store, ns: string)
    requires NamespaceKey(ns) in s
    ensures SwitchedOn(s, PipelineOnce(Tasks(PutOrRepair(s, AppProjectKey(ns), APP_PROJECT).s, TASKS, ns).s, ns).s, ns)
  {
    var k := AppProjectKey(ns);
    var s1 := PutOrRepair(s, k, APP_PROJECT).s;
    MakingTheProject(s, ns);
    var s2 := Tasks(s1, TASKS, ns).s;
    var t := PipelineOnce(s2, ns).s;
    OtherKindsStay(s, k, APP_PROJECT, Pipeline);
    OtherKindsStay(s, k, APP_PROJECT, Task);
    hide Tasks, TASKS, PutOrRepair, GetOrPut, PipelineOnce, APP_PROJECT, PIPELINE, PipelineFrom, ProjectFrom;
    hide OneMade, TasksMade, SameKind;
    TasksKeep(s1, TASKS, ns);
    AddedByTasks(s1, ns, AppProject);
    AddedByTasks(s1, ns, Pipeline);
    PipelineLeaves(s2, ns);
    SameTwice(s1, s2, t, AppProject);
    MadeAndKept(s, s1, t, k, ProjectFrom(s, ns));
    SameTwice(s, s1, s2, Pipeline);
    SamePipeline(s, s2, ns);
    MakingThePipeline(s2, ns);
    KeptAndMade(s, s2, t, PipelineKey(ns), PipelineFrom(s, ns));
    MakingTasks(s1, ns);
    TasksBetween(s, s1, s2, t, ns);
    NamespaceKept(s2, t, ns);
  }

  lemma NamespaceKept(s: Store, t: Store, ns: string)
    requires SameKind(s, t, Namespace) && NamespaceKey(ns) in s
    ensures NamespaceKey(ns) in t
  {
  }

  lemma PipelineLeaves(s: Store, ns: string)
    ensures var t := PipelineOnce(s, ns).s;
      SameKind(s, t, AppProject) && SameKind(s, t, Task) && SameKind(s, t, Namespace)
  {
  }

  /** Switching on what is switched on changes nothing further. */
  lemma SwitchedOnTwice(r: Store, s: Store, t: Store, ns: string)
    requires SwitchedOn(r, s, ns) && NamespaceKey(ns) in t && (SwitchedOn(s, t, ns) || Leaves(s, t))
    ensures SwitchedOn(r, t, ns)
  {
  }

  lemma LeavingFirst(r: Store, s: Store, t: Store, ns: string)
    requires Leaves(r, s) && SwitchedOn(s, t, ns)
    ensures SwitchedOn(r, t, ns)
  {
  }

  // ---------- Switching off again ----------

  /** Of each kind, exactly what switching off removes. */
  lemma SwitchingOff(s: Store, ns: string)
    requires NamespaceKey(ns) in s
    ensures var t := GitOpsOff(s, ns);
      && SameKind(if |Matching(s, AppProject, ns)| == 1 then RemoveKind(s, AppProject, ns) else s, t, AppProject)
      && SameKind(if |Matching(s, Pipeline, ns)| == 1 then RemoveKind(s, Pipeline, ns) else s, t, Pipeline)
      && SameKind(RemoveKind(s, Task, ns), t, Task)
  {
    hide RemoveIfSingle, RemoveTasks, RemoveKind, Matching, SameKind;
    var s1 := RemoveIfSingle(s, AppProject, ns);
    var s2 := RemoveIfSingle(s1, Pipeline, ns);
    RemovingOne(s, AppProject, ns);
    RemovingOne(s1, Pipeline, ns);
    RemovingTasks(s2, ns);
    var p := if |Matching(s, AppProject, ns)| == 1 then RemoveKind(s, AppProject, ns) else s;
    SameTwice(p, s1, s2, AppProject);
    SameTwice(p, s2, RemoveTasks(s2, ns), AppProject);
    RemovingAlike(s, s1, Pipeline, ns);
    var q := if |Matching(s, Pipeline, ns)| == 1 then RemoveKind(s, Pipeline, ns) else s;
    SameTwice(q, if |Matching(s, Pipeline, ns)| == 1 then RemoveKind(s1, Pipeline, ns) else s1, s2, Pipeline);
    SameTwice(q, s2, RemoveTasks(s2, ns), Pipeline);
    SameTwice(s, s1, s2, Task);
    RemovingAlike(s, s2, Task, ns);
    SameTwice(RemoveKind(s, Task, ns), RemoveKind(s2, Task, ns), RemoveTasks(s2, ns), Task);
  }

  lemma RemovingOne(s: Store, kind: Kind, ns: string)
    requires NamespaceKey(ns) in s && kind in {AppProject, Pipeline}
    ensures var t := RemoveIfSingle(s, kind, ns);
      && NamespaceKey(ns) in t
      && SameKind(if |Matching(s, kind, ns)| == 1 then RemoveKind(s, kind, ns) else s, t, kind)
      && (forall other :: other !in {kind, Namespace} ==> SameKind(s, t, other))
  {
    hide Matching, Adopt, RemoveKind, SameKind;
    var s1 := Adopt(s, ns);
    AdoptingKeepsKinds(s, ns);
    RemovingAlike(s, s1, kind, ns);
    RemovingKeepsKinds(s1, kind, ns);
    var t := RemoveKind(s1, kind, ns);
    forall other | other !in {kind, Namespace} ensures SameKind(s, t, other) {
      SameTwice(s, s1, t, other);
    }
  }

  lemma AdoptingKeepsKinds(s: Store, ns: string)
    ensures NamespaceKey(ns) in s <==> NamespaceKey(ns) in Adopt(s, ns)
    ensures forall kind :: kind != Namespace ==> SameKind(s, Adopt(s, ns), kind)
  {
  }

  lemma RemovingKeepsKinds(s: Store, kind: Kind, ns: string)
    requires kind != Namespace
    ensures NamespaceKey(ns) in s ==> NamespaceKey(ns) in RemoveKind(s, kind, ns)
    ensures forall other :: other != kind ==> SameKind(s, RemoveKind(s, kind, ns), other)
  {
  }

  lemma RemovingTasks(s: Store, ns: string)
    requires NamespaceKey(ns) in s
    ensures var t := RemoveTasks(s, ns);
      && SameKind(RemoveKind(s, Task, ns), t, Task)
      && (forall other :: other !in {Task, Namespace} ==> SameKind(s, t, other))
  {
    hide Matching, Adopt, RemoveKind, SameKind;
    var s1 := Adopt(s, ns);
    AdoptingKeepsKinds(s, ns);
    RemovingAlike(s, s1, Task, ns);
    RemovingKeepsKinds(s1, Task, ns);
    forall other | other !in {Task, Namespace} ensures SameKind(s, RemoveKind(s1, Task, ns), other) {
      SameTwice(s, s1, RemoveKind(s1, Task, ns), other);
    }
  }

  lemma RemovingAlike(s: Store, t: Store, kind: Kind, ns: string)
    requires SameKind(s, t, kind)
    ensures SameKind(RemoveKind(s, kind, ns), RemoveKind(t, kind, ns), kind) && Matching(t, kind, ns) == Matching(s, kind, ns)
  {
    MatchingStays(s, t, kind, ns);
  }

  // ---------- The round trip ----------

  lemma RemovedExactly(s: Store, kind: Kind, ns: string)
    ensures var t := RemoveKind(s, kind, ns);
      forall j :: (j in t <==> j in s && j !in Matching(s, kind, ns)) && (j in t ==> t[j] == s[j])
  {
    hide Matching;
  }

  lemma MatchingExactly(s: Store, kind: Kind, ns: string)
    requires !ClusterScoped(kind)
    ensures forall j :: j in Matching(s, kind, ns) <==> j in s && j.kind == kind && j.ns == ns && Labelled(s[j].labels)
  {
  }

  lemma OneMore(m: map<Key, Obj>, m': map<Key, Obj>, k: Key)
    requires k !in m && forall j :: j in m' <==> j in m || j == k
    ensures |m'| == |m| + 1
  {
    assert m'.Keys == m.Keys + {k};
    assert |m'| == |m'.Keys| && |m| == |m.Keys|;
  }

  /** A name that was unused: its object is one more labelled object. */
  lemma NewNameReturns(s: Store, t: Store, kind: Kind, ns: string, k: Key, wanted: Obj)
    requires k.kind == kind && k.ns == ns && kind in {AppProject, Pipeline} && Labelled(wanted.labels)
    requires k !in s && k in t && t[k] == wanted
    requires forall j: Key :: j.kind == kind && j != k ==> (j in s <==> j in t) && (j in s ==> t[j] == s[j])
    ensures SameKind(s, if |Matching(t, kind, ns)| == 1 then RemoveKind(t, kind, ns) else t, kind)
      <==> Matching(s, kind, ns) == map[]
  {
    hide Matching, RemoveKind, Labelled;
    MatchingExactly(s, kind, ns);
    MatchingExactly(t, kind, ns);
    RemovedExactly(t, kind, ns);
    var m := Matching(s, kind, ns);
    OneMore(m, Matching(t, kind, ns), k);
    if m == map[] {
      assert |m| == 0;
    } else {
      assert |m| == |m.Keys| && m.Keys != {};
      assert k in t && k !in s;
    }
  }

  /** A name that was used: as many objects are labelled as before. */
  lemma UsedNameReturns(s: Store, t: Store, kind: Kind, ns: string, k: Key, wanted: Obj)
    requires k.kind == kind && k.ns == ns && kind in {AppProject, Pipeline}
    requires k in s && k in t && t[k] == s[k].(body := wanted.body)
    requires forall j: Key :: j.kind == kind && j != k ==> (j in s <==> j in t) && (j in s ==> t[j] == s[j])
    ensures SameKind(s, if |Matching(t, kind, ns)| == 1 then RemoveKind(t, kind, ns) else t, kind)
      <==> s[k].body == wanted.body && |Matching(s, kind, ns)| != 1
  {
    hide Matching, RemoveKind, Labelled;
    MatchingExactly(s, kind, ns);
    MatchingExactly(t, kind, ns);
    RemovedExactly(t, kind, ns);
    var m, m' := Matching(s, kind, ns), Matching(t, kind, ns);
    assert m'.Keys == m.Keys;
    assert |m'| == |m'.Keys| && |m| == |m.Keys|;
    var u := RemoveKind(t, kind, ns);
    if |m| == 1 {
      var j :| j in m.Keys;
      assert j in s && j !in u;
    } else if s[k].body == wanted.body {
      assert t[k] == s[k];
    } else {
      assert t[k] != s[k];
    }
  }

  lemma SameForBoth(r: Store, s: Store, t: Store, kind: Kind)
    requires SameKind(s, t, kind)
    ensures SameKind(r, s, kind) <==> SameKind(r, t, kind)
  {
  }

  /** The AppProjects return if and only if the operator's name was unused and none was labelled, or
      the name was used for the wanted spec and the number of labelled ones was not one. */
  lemma ProjectsReturn(s: Store, t: Store, ns: string)
    requires SwitchedOn(s, t, ns)
    ensures SameKind(s, GitOpsOff(t, ns), AppProject)
      <==> if AppProjectKey(ns) in s then s[AppProjectKey(ns)].body == APP_PROJECT.body && |Matching(s, AppProject, ns)| != 1
           else Matching(s, AppProject, ns) == map[]
  {
    var k := AppProjectKey(ns);
    assert Labelled(APP_PROJECT.labels) && k.kind == AppProject && k.ns == ns;
    hide GitOpsOff, SameKind, RemoveKind, Matching, Labelled, APP_PROJECT, TasksMade;
    SwitchingOff(t, ns);
    if k in s {
      UsedNameReturns(s, t, AppProject, ns, k, APP_PROJECT);
    } else {
      NewNameReturns(s, t, AppProject, ns, k, APP_PROJECT);
    }
    SameForBoth(s, if |Matching(t, AppProject, ns)| == 1 then RemoveKind(t, AppProject, ns) else t, GitOpsOff(t, ns), AppProject);
  }

  /** A Pipeline of the operator's name is never repaired. */
  lemma PipelinesReturn(s: Store, t: Store, ns: string)
    requires SwitchedOn(s, t, ns)
    ensures SameKind(s, GitOpsOff(t, ns), Pipeline)
      <==> if PipelineKey(ns) in s then |Matching(s, Pipeline, ns)| != 1 else Matching(s, Pipeline, ns) == map[]
  {
    var k := PipelineKey(ns);
    assert Labelled(PIPELINE.labels) && k.kind == Pipeline && k.ns == ns;
    hide GitOpsOff, SameKind, RemoveKind, Matching, Labelled, PIPELINE, TasksMade;
    SwitchingOff(t, ns);
    if k in s {
      assert t[k] == s[k].(body := s[k].body);
      UsedNameReturns(s, t, Pipeline, ns, k, s[k]);
    } else {
      NewNameReturns(s, t, Pipeline, ns, k, PIPELINE);
    }
    SameForBoth(s, if |Matching(t, Pipeline, ns)| == 1 then RemoveKind(t, Pipeline, ns) else t, GitOpsOff(t, ns), Pipeline);
  }

  /** The Tasks return if and only if none was labelled. */
  lemma TasksReturn(s: Store, t: Store, ns: string)
    requires SwitchedOn(s, t, ns)
    ensures SameKind(s, GitOpsOff(t, ns), Task) <==> Matching(s, Task, ns) == map[]
  {
    hide GitOpsOff, Labelled, Matching, RemoveKind, OneMade, SameKind, TasksMade;
    SwitchingOff(t, ns);
    SameForBoth(s, RemoveKind(t, Task, ns), GitOpsOff(t, ns), Task);
    RemovedTasksReturn(s, t, ns);
  }

  lemma RemovedTasksReturn(s: Store, t: Store, ns: string)
    requires TasksMade(s, t, ns)
    ensures SameKind(s, RemoveKind(t, Task, ns), Task) <==> Matching(s, Task, ns) == map[]
  {
    hide Labelled, Matching, RemoveKind;
    MatchingExactly(s, Task, ns);
    MatchingExactly(t, Task, ns);
    RemovedExactly(t, Task, ns);
    var m := Matching(s, Task, ns);
    if m != map[] {
      assert m.Keys != {};
      var k :| k in m.Keys;
      assert k in s && k !in RemoveKind(t, Task, ns);
    }
  }

  // ---------- The other stages ----------

  lemma LeavesTwice(r: Store, s: Store, t: Store)
    requires Leaves(r, s) && Leaves(s, t)
    ensures Leaves(r, t)
  {
  }

  lemma PuttingLeaves(s: Store, k: Key, obj: Obj)
    requires Fits(k.kind, obj.body) && Elsewhere(k)
    ensures Leaves(s, GetOrPut(s, k, obj).s) && Leaves(s, PutOrRepair(s, k, obj).s)
  {
  }

  lemma AdoptingLeaves(s: Store, ns: string)
    ensures Leaves(s, Adopt(s, ns)) && Leaves(s, AdoptOrMake(s, ns))
  {
  }

  lemma InstallLeaves(s: Store, c: Component)
    ensures Leaves(s, Install(s, c).s)
  {
    hide Leaves, Subscribe, Approve, AdoptOrMake;
    var s1 := Home(s, c).s;
    AdoptingLeaves(s, c.namespace);
    var s2 := Subscribe(s1, c).s;
    SubscribeLeaves(s1, c);
    ApproveLeaves(s2, c);
    LeavesTwice(s, s1, s2);
    LeavesTwice(s, s2, Approve(s2, c).s);
  }

  lemma SubscribeLeaves(s: Store, c: Component)
    ensures Leaves(s, Subscribe(s, c).s)
  {
  }

  lemma ApproveLeaves(s: Store, c: Component)
    ensures Leaves(s, Approve(s, c).s)
  {
  }

  lemma LogicCRsLeave(s: Store, spec: Spec)
    ensures Leaves(s, LogicCRs(s, spec).s)
  {
    var wf := spec.platform.namespace;
    var s1 := Adopt(s, wf);
    AdoptingLeaves(s, wf);
    var s2 := GetOrPut(s1, CLUSTER_PLATFORM_KEY, ClusterPlatform(wf)).s;
    PuttingLeaves(s1, CLUSTER_PLATFORM_KEY, ClusterPlatform(wf));
    PuttingLeaves(s2, PlatformKey(wf), Platform(spec));
    hide Adopt, GetOrPut, Leaves, CLUSTER_PLATFORM_KEY;
    LeavesTwice(s, s1, s2);
    LeavesTwice(s, s2, GetOrPut(s2, PlatformKey(wf), Platform(spec)).s);
    Same(s);
  }

  lemma Same(s: Store)
    ensures Leaves(s, s)
  {
  }

  lemma LogicLeaves(s: Store, spec: Spec)
    ensures Leaves(s, Logic(s, spec).s)
  {
    hide Install, LogicCRs, Adopt, AdoptOrMake, CLUSTER_PLATFORM_CRD, LOGIC, Leaves;
    Same(s);
    if spec.serverlessLogic {
      var wf := spec.platform.namespace;
      var s1 := Workflow(s, wf).s;
      AdoptingLeaves(s, wf);
      var s2 := Install(s1, LOGIC).s;
      InstallLeaves(s1, LOGIC);
      LogicCRsLeave(s2, spec);
      LeavesTwice(s, s1, s2);
      LeavesTwice(s, s2, LogicCRs(s2, spec).s);
    }
  }

  lemma KnativeResourceLeaves(s: Store, ns: string, k: Key)
    requires k.kind in {KnativeEventing, KnativeServing}
    ensures Leaves(s, KnativeResource(s, ns, k).s)
  {
    hide GetOrPut, AdoptOrMake, Leaves;
    AdoptingLeaves(s, ns);
    PuttingLeaves(AdoptOrMake(s, ns), k, KNATIVE_CR);
    LeavesTwice(s, AdoptOrMake(s, ns), GetOrPut(AdoptOrMake(s, ns), k, KNATIVE_CR).s);
  }

  lemma KnativeCRsLeave(s: Store)
    ensures Leaves(s, KnativeCRs(s).s)
  {
    KnativeKinds();
    hide KnativeResource, EVENTING, SERVING, EVENTING_KEY, SERVING_KEY, EVENTING_CRD, SERVING_CRD, Leaves;
    Same(s);
    var s1 := KnativeResource(s, EVENTING, EVENTING_KEY).s;
    KnativeResourceLeaves(s, EVENTING, EVENTING_KEY);
    KnativeResourceLeaves(s1, SERVING, SERVING_KEY);
    LeavesTwice(s, s1, KnativeResource(s1, SERVING, SERVING_KEY).s);
  }

  lemma KnativeLeaves(s: Store, spec: Spec)
    ensures Leaves(s, Knative(s, spec).s)
  {
    hide Install, KnativeCRs, SERVERLESS, Leaves;
    Same(s);
    if spec.serverless {
      var s1 := Install(s, SERVERLESS).s;
      InstallLeaves(s, SERVERLESS);
      KnativeCRsLeave(s1);
      LeavesTwice(s, s1, KnativeCRs(s1).s);
    }
  }

  lemma {:induction false} ConfigMapsLeave(s: Store, names: seq<string>, i: DeveloperHubSpec.Inputs)
    requires forall n :: n in names ==> n in CONFIG_MAPS
    ensures Leaves(s, ConfigMaps(s, names, CONFIG_MAPS, i).s)
    decreases |names|
  {
    hide DeveloperHubSpec.TextOf, CONFIG_MAPS, GetOrPut, Leaves;
    Same(s);
    if names != [] {
      var k, obj := ConfigMapKey(i.rhdh.namespace, names[0]), NewConfigMap(CONFIG_MAPS[names[0]], DeveloperHubSpec.TextOf(names[0], i));
      PuttingLeaves(s, k, obj);
      var s1 := GetOrPut(s, k, obj).s;
      ConfigMapsLeave(s1, names[1..], i);
      LeavesTwice(s, s1, ConfigMaps(s1, names[1..], CONFIG_MAPS, i).s);
    }
  }

  lemma HubRestLeaves(s: Store, spec: Spec, names: seq<string>)
    requires CLUSTER_INGRESS_KEY in s && forall n :: n in names ==> n in CONFIG_MAPS
    ensures Leaves(s, Convergence.HubRest(s, spec, names).s)
  {
    hide ConfigMaps, CONFIG_MAPS, GetOrPut, Leaves, Mounted, BACKSTAGE_CRD, CLUSTER_INGRESS_KEY, REGISTRY_SECRET;
    var s3 := GetOrPut(s, SecretKey(spec.rhdh.namespace), NPMRC).s;
    PuttingLeaves(s, SecretKey(spec.rhdh.namespace), NPMRC);
    var s4 := ConfigMaps(s3, names, CONFIG_MAPS, InputsOf(s, spec)).s;
    ConfigMapsLeave(s3, names, InputsOf(s, spec));
    LeavesTwice(s, s3, s4);
    PuttingLeaves(s4, BackstageKey(spec.rhdh), NewBackstage(Mounted(names)));
    LeavesTwice(s, s4, GetOrPut(s4, BackstageKey(spec.rhdh), NewBackstage(Mounted(names))).s);
  }

  lemma HubLeaves(s: Store, spec: Spec, names: seq<string>)
    requires forall n :: n in names ==> n in CONFIG_MAPS
    ensures Leaves(s, Hub(s, spec, names).s)
  {
    hide Install, ConfigMaps, CONFIG_MAPS, GetOrPut, HubCRs, Leaves, RHDH, CLUSTER_INGRESS_KEY;
    Same(s);
    if spec.rhdh.installOperator {
      var s1 := Install(s, RHDH).s;
      InstallLeaves(s, RHDH);
      if Install(s, RHDH).Fine? && CLUSTER_INGRESS_KEY in s1 {
        assert Hub(s, spec, names) == Convergence.HubRest(s1, spec, names);
        hide Convergence.HubRest;
        HubRestLeaves(s1, spec, names);
        LeavesTwice(s, s1, Convergence.HubRest(s1, spec, names).s);
      }
    }
  }

  lemma {:induction false} PoliciesLeave(s: Store, errors: NetworkPoliciesSpec.Errors, names: seq<string>,
                                         n: NetworkPoliciesSpec.Namespaces, monitoring: bool)
    ensures Leaves(s, Policies(s, errors, names, n, monitoring).0)
    decreases |names|
  {
    hide Applicable, CreateIngress, PutOrRepair, Leaves;
    Same(s);
    if names != [] {
      if Applicable(names[0], monitoring) {
        var k, obj := PolicyKey(n.workflow, names[0]), NetworkPoliciesSpec.Wanted(names[0], n);
        var q := PutOrRepair(s, k, obj);
        PuttingLeaves(s, k, obj);
        var errors' := if q.Bad? then errors[names[0] := q.error] else errors;
        PoliciesLeave(q.s, errors', names[1..], n, monitoring);
        LeavesTwice(s, q.s, Policies(q.s, errors', names[1..], n, monitoring).0);
      } else {
        PoliciesLeave(s, errors, names[1..], n, monitoring);
      }
    }
  }

  lemma PolicyStageLeaves(s: Store, errors: NetworkPoliciesSpec.Errors, spec: Spec)
    ensures Leaves(s, PolicyStage(s, errors, spec).0.s)
  {
    hide Policies, NETWORK_POLICIES, Leaves, Adopt;
    Same(s);
    var wf, n := spec.platform.namespace, NetworkPoliciesSpec.NamespacesOf(spec);
    var s1 := Adopt(s, wf);
    AdoptingLeaves(s, wf);
    PoliciesLeave(s1, errors, NETWORK_POLICIES, n, spec.platform.monitoring);
    LeavesTwice(s, s1, Policies(s1, errors, NETWORK_POLICIES, n, spec.platform.monitoring).0);
  }

  // ---------- The pass ----------

  /** A pass without faults in which both flags are on leaves the GitOps resources alone, or switches
      them on; a pass that finishes switches them on. */
  lemma StagesSwitchOn(s: Store, spec: Spec, names: seq<string>)
    requires Convergence.Ready(s, spec) && Convergence.GitOpsIsOn(spec) && forall n :: n in names ==> n in CONFIG_MAPS
    ensures var (t, _, failed) := Stages(s, map[], spec, names);
      && (Leaves(s, t) || SwitchedOn(s, t, spec.argoCDNamespace))
      && (failed.None? ==> SwitchedOn(s, t, spec.argoCDNamespace))
  {
    hide Logic, Knative, Hub, PolicyStage, GitOpsOn, Leaves, SwitchedOn, Convergence.Ready, CONFIG_MAPS;
    hide Convergence.GoalsOf;
    hide Convergence.Shaped, Convergence.Tame, Convergence.Waiting, Evolves;
    var goals := Convergence.GoalsOf(spec);
    Convergence.GoalsAreShaped(spec);
    PartsBelong(spec);
    var q1 := Logic(s, spec);
    LogicLeaves(s, spec);
    Convergence.LogicEvolves(goals, s, spec);
    Convergence.ReadyStays(goals, s, q1.s, spec);
    if q1.Fine? {
      var q2 := Knative(q1.s, spec);
      KnativeLeaves(q1.s, spec);
      LeavesTwice(s, q1.s, q2.s);
      Convergence.KnativeEvolves(goals, q1.s, spec);
      Convergence.ReadyStays(goals, q1.s, q2.s, spec);
      Convergence.WorkflowStays(goals, q1.s, q2.s, spec);
      if q2.Fine? {
        var q3 := Hub(q2.s, spec, names);
        HubLeaves(q2.s, spec, names);
        LeavesTwice(s, q2.s, q3.s);
        Convergence.HubEvolves(goals, q2.s, spec, names);
        Convergence.ReadyStays(goals, q2.s, q3.s, spec);
        Convergence.WorkflowStays(goals, q2.s, q3.s, spec);
        if q3.Fine? {
          var s4 := PolicyStage(q3.s, map[], spec).0.s;
          PolicyStageLeaves(q3.s, map[], spec);
          LeavesTwice(s, q3.s, s4);
          Convergence.PolicyStageEvolves(goals, q3.s, spec);
          Convergence.ReadyStays(goals, q3.s, s4, spec);
          ReadyIsUsable(s4, spec);
          StageSwitchesOn(s4, spec.argoCDNamespace);
          LeavingFirst(s, s4, GitOpsOn(s4, spec.argoCDNamespace).s, spec.argoCDNamespace);
        }
      }
    }
  }

  lemma PartsBelong(spec: Spec)
    ensures Convergence.LogicGoals(spec) <= Convergence.GoalsOf(spec) && Convergence.KnativeGoals(spec) <= Convergence.GoalsOf(spec)
    ensures Convergence.PolicyGoals(spec) <= Convergence.GoalsOf(spec)
  {
  }

  lemma ReadyIsUsable(s: Store, spec: Spec)
    requires Convergence.Ready(s, spec) && Convergence.GitOpsIsOn(spec)
    ensures Usable(s, spec.argoCDNamespace)
  {
  }

  /** A resource that is reconciled without faults while both flags are on. */
  ghost predicate RunsWithGitOps(o: Oracle, st: ReconcileSpec.State) {
    && Calm(o) && st.errors == map[]
    && st.w.cr.Some? && !st.w.cr.value.deleting
    && Convergence.Ready(st.w.store, st.w.cr.value.spec) && Convergence.GitOpsIsOn(st.w.cr.value.spec)
  }

  lemma PassSwitchesOn(o: Oracle, st: ReconcileSpec.State)
    requires RunsWithGitOps(o, st)
    ensures var (end, v) := ReconcileSpec.Reconcile(o, st); var ns := st.w.cr.value.spec.argoCDNamespace;
      && RunsWithGitOps(o, end) && end.w.cr.value.spec == st.w.cr.value.spec
      && (Leaves(st.w.store, end.w.store) || SwitchedOn(st.w.store, end.w.store, ns))
      && (v == ReconcileSpec.FINISHED ==> SwitchedOn(st.w.store, end.w.store, ns))
  {
    hide ReconcileSpec.Reconcile, Stages, Leaves, SwitchedOn, Convergence.Ready, CONFIG_MAPS, Convergence.GoalsOf;
    hide Convergence.Shaped, Convergence.Tame, Convergence.OlmIsAwaited, Evolves;
    var cr := st.w.cr.value;
    var names := Calmness.CalmPass(o, st);
    StagesSwitchOn(st.w.store, cr.spec, names);
    Convergence.GoalsAreShaped(cr.spec);
    Convergence.StagesEvolve(Convergence.GoalsOf(cr.spec), st.w.store, cr.spec, names);
    Progress.ResourceEvolves(cr, Stages(st.w.store, map[], cr.spec, names).2);
  }

  /** Passes up to one that finishes. */
  lemma {:induction false} PassesSwitchOn(o: Oracle, st: ReconcileSpec.State, n: nat)
    requires RunsWithGitOps(o, st)
    ensures ReconcileSpec.Reconcile(o, PassBound.Passes(o, st, n)).1 == ReconcileSpec.FINISHED ==>
      SwitchedOn(st.w.store, PassBound.Passes(o, st, n + 1).w.store, st.w.cr.value.spec.argoCDNamespace)
    decreases n
  {
    hide ReconcileSpec.Reconcile, Leaves, SwitchedOn, Convergence.Ready;
    var ns := st.w.cr.value.spec.argoCDNamespace;
    var st1 := ReconcileSpec.Reconcile(o, st).0;
    PassSwitchesOn(o, st);
    if n > 0 && ReconcileSpec.Reconcile(o, PassBound.Passes(o, st, n)).1 == ReconcileSpec.FINISHED {
      PassesSwitchOn(o, st1, n - 1);
      var t := PassBound.Passes(o, st, n + 1).w.store;
      if Leaves(st.w.store, st1.w.store) {
        LeavingFirst(st.w.store, st1.w.store, t, ns);
      } else {
        SwitchedOnHasNamespace(st1.w.store, t, ns);
        SwitchedOnTwice(st.w.store, st1.w.store, t, ns);
      }
    }
  }

  lemma SwitchedOnHasNamespace(s: Store, t: Store, ns: string)
    requires SwitchedOn(s, t, ns)
    ensures NamespaceKey(ns) in t
  {
  }

  /** The whole round: passes with both flags on, up to one that finishes, and then the stage with a
      flag off.  The AppProjects, Pipelines and Tasks are those of the start exactly under these
      conditions on the start; in particular if none of them is labelled and the names are unused. */
  lemma RoundTrip(o: Oracle, st: ReconcileSpec.State, n: nat, off: Spec)
    requires RunsWithGitOps(o, st)
    requires !Convergence.GitOpsIsOn(off) && off.argoCDNamespace == st.w.cr.value.spec.argoCDNamespace
    ensures var s, ns := st.w.store, off.argoCDNamespace;
      var t := GitOpsSpec.ReconcileGitOps(o, PassBound.Passes(o, st, n + 1).w, off).w.store;
      ReconcileSpec.Reconcile(o, PassBound.Passes(o, st, n)).1 == ReconcileSpec.FINISHED ==>
      && (SameKind(s, t, AppProject) <==>
            if AppProjectKey(ns) in s then s[AppProjectKey(ns)].body == APP_PROJECT.body && |Matching(s, AppProject, ns)| != 1
            else Matching(s, AppProject, ns) == map[])
      && (SameKind(s, t, Pipeline) <==>
            if PipelineKey(ns) in s then |Matching(s, Pipeline, ns)| != 1 else Matching(s, Pipeline, ns) == map[])
      && (SameKind(s, t, Task) <==> Matching(s, Task, ns) == map[])
  {
    hide ReconcileSpec.Reconcile, GitOpsSpec.ReconcileGitOps, SwitchedOn, Matching, SameKind, Convergence.Ready;
    hide PassBound.Passes;
    hide APP_PROJECT, GitOpsOff;
    var u := PassBound.Passes(o, st, n + 1).w;
    PassesSwitchOn(o, st, n);
    if ReconcileSpec.Reconcile(o, PassBound.Passes(o, st, n)).1 == ReconcileSpec.FINISHED {
      Calmness.CalmGitOps(o, u, off);
      ProjectsReturn(st.w.store, u.store, off.argoCDNamespace);
      PipelinesReturn(st.w.store, u.store, off.argoCDNamespace);
      TasksReturn(st.w.store, u.store, off.argoCDNamespace);
    }
  }
}
