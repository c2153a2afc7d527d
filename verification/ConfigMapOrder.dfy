/** The loop over the ConfigMap names does not depend on the order in which Go visits a map. */
module ConfigMapOrder {
  import opened Kubernetes
  import opened Desired
  import opened ApiServer
  import opened DeveloperHubSpec
  import opened Quiet
  import Calmness

  function KeysOf(ns: string, dataKeys: map<string, string>): set<Key> {
    set n | n in dataKeys :: ConfigMapKey(ns, n)
  }

  /** The store with the missing ConfigMaps added. */
  function Filled(s: Store, dataKeys: map<string, string>, i: Inputs): Store {
    s + map k | k in KeysOf(i.rhdh.namespace, dataKeys) && k !in s :: NewConfigMap(dataKeys[k.name], TextOf(k.name, i))
  }

  /** What the loop does, without mentioning an order. */
  function Unordered(s: Store, dataKeys: map<string, string>, i: Inputs): Out {
    if NamespaceKey(i.rhdh.namespace) in s || KeysOf(i.rhdh.namespace, dataKeys) <= s.Keys then Fine(Filled(s, dataKeys, i))
    else Bad(s, NotFound)
  }

  /** The names that have been visited do not matter any more. */
  lemma {:induction false} LoopIsUnordered(s: Store, names: seq<string>, dataKeys: map<string, string>, i: Inputs)
    requires forall n :: n in names ==> n in dataKeys
    requires forall n :: n in dataKeys ==> n in names || ConfigMapKey(i.rhdh.namespace, n) in s
    ensures ConfigMaps(s, names, dataKeys, i) == Unordered(s, dataKeys, i)
    decreases |names|
  {
    hide TextOf;
    if names == [] {
      hide ConfigMaps;
      NothingToFill(s, dataKeys, i);
    } else {
      var k := ConfigMapKey(i.rhdh.namespace, names[0]);
      var obj := NewConfigMap(dataKeys[names[0]], TextOf(names[0], i));
      assert forall n :: n in names ==> n == names[0] || n in names[1..];
      assert k in KeysOf(i.rhdh.namespace, dataKeys);
      hide Filled, KeysOf;
      if k in s {
        LoopIsUnordered(s, names[1..], dataKeys, i);
      } else if NamespaceKey(i.rhdh.namespace) in s {
        OneStep(s, k, obj, dataKeys, i);
        LoopIsUnordered(s[k := obj], names[1..], dataKeys, i);
      }
    }
  }

  lemma OneStep(s: Store, k: Key, obj: Obj, dataKeys: map<string, string>, i: Inputs)
    requires k in KeysOf(i.rhdh.namespace, dataKeys) && obj == NewConfigMap(dataKeys[k.name], TextOf(k.name, i))
    requires k in s || NamespaceKey(i.rhdh.namespace) in s
    ensures var t := GetOrPut(s, k, obj).s;
      Filled(t, dataKeys, i) == Filled(s, dataKeys, i) &&
      (NamespaceKey(i.rhdh.namespace) in t <==> NamespaceKey(i.rhdh.namespace) in s) &&
      (k in s ==> t == s)
  {
    hide TextOf;
    assert k.kind == ConfigMap && k.ns == i.rhdh.namespace;
    hide KeysOf, Filled;
    if k !in s {
      FilledAhead(s, k, obj, dataKeys, i);
    }
  }

  /** Filling in one object before the others. */
  lemma FilledAhead(s: Store, k: Key, obj: Obj, dataKeys: map<string, string>, i: Inputs)
    requires k in KeysOf(i.rhdh.namespace, dataKeys) && obj == NewConfigMap(dataKeys[k.name], TextOf(k.name, i)) && k !in s
    requires Fits(k.kind, obj.body)
    ensures Filled(s[k := obj], dataKeys, i) == Filled(s, dataKeys, i)
  {
    hide TextOf, NewConfigMap, KeysOf, Filled;
    var t: Store := s[k := obj];
    var a, b := Filled(t, dataKeys, i), Filled(s, dataKeys, i);
    forall j ensures (j in a <==> j in b) && (j in a ==> a[j] == b[j]) {
      FilledAt(t, dataKeys, i, j);
      FilledAt(s, dataKeys, i, j);
    }
  }

  lemma FilledAt(s: Store, dataKeys: map<string, string>, i: Inputs, j: Key)
    ensures var t := Filled(s, dataKeys, i);
      && (j in t <==> j in s || j in KeysOf(i.rhdh.namespace, dataKeys))
      && (j in s ==> t[j] == s[j])
      && (j in t && j !in s ==> j.name in dataKeys && t[j] == NewConfigMap(dataKeys[j.name], TextOf(j.name, i)))
  {
    hide TextOf, NewConfigMap;
  }

  lemma NothingToFill(s: Store, dataKeys: map<string, string>, i: Inputs)
    requires forall n :: n in dataKeys ==> ConfigMapKey(i.rhdh.namespace, n) in s
    ensures ConfigMaps(s, [], dataKeys, i) == Fine(s) && Unordered(s, dataKeys, i) == Fine(s)
  {
    hide TextOf, NewConfigMap;
    assert Filled(s, dataKeys, i) == s;
  }

  /** Existing objects are kept as they are, and every name is there in the end. */
  lemma FilledKeeps(s: Store, dataKeys: map<string, string>, i: Inputs)
    ensures var t := Filled(s, dataKeys, i);
      && (forall k :: k in s ==> k in t && t[k] == s[k])
      && (forall n :: n in dataKeys ==> ConfigMapKey(i.rhdh.namespace, n) in t)
      && t.Keys == s.Keys + KeysOf(i.rhdh.namespace, dataKeys)
  {
    hide TextOf;
    assert forall n :: n in dataKeys ==> ConfigMapKey(i.rhdh.namespace, n) in KeysOf(i.rhdh.namespace, dataKeys);
  }

  lemma {:induction false} MountedOnce(names: seq<string>, n: string)
    requires forall i, j :: 0 <= i < j < |names| ==> names[i] != names[j]
    ensures multiset(Mounted(names))[n] == if n in names && n != DYNAMIC_PLUGINS then 1 else 0
    decreases |names|
  {
    hide DYNAMIC_PLUGINS;
    if names != [] {
      var rest := names[1..];
      assert names[0] !in rest && (n in names <==> n == names[0] || n in rest);
      MountedOnce(rest, n);
    }
  }

  /** The result is a permutation of the names without the dynamic plugins. */
  lemma MountedIsPermutation(names: seq<string>, all: set<string>)
    requires IsOrder(names, all)
    ensures multiset(Mounted(names)) == multiset(all - {DYNAMIC_PLUGINS})
  {
    hide DYNAMIC_PLUGINS, Mounted;
    forall n ensures multiset(Mounted(names))[n] == multiset(all - {DYNAMIC_PLUGINS})[n] {
      MountedOnce(names, n);
    }
  }

  /** Two calls without faults from the same store leave the same store, whatever the two orders, for
      any names and data keys; and they list the same names. */
  lemma OrderDoesNotMatter(o1: Oracle, w1: World, names1: seq<string>, o2: Oracle, w2: World, names2: seq<string>,
                           dataKeys: map<string, string>, i: Inputs)
    requires Calm(o1) && Calm(o2) && w1.store == w2.store
    requires IsOrder(names1, dataKeys.Keys) && IsOrder(names2, dataKeys.Keys)
    ensures var a, b := EnsureConfigMaps(o1, w1, names1, dataKeys, i), EnsureConfigMaps(o2, w2, names2, dataKeys, i);
      && a.w.store == b.w.store
      && (a.Ok? <==> b.Ok?)
      && (a.Ok? ==> multiset(a.value) == multiset(b.value) == multiset(dataKeys.Keys - {DYNAMIC_PLUGINS}))
      && (NamespaceKey(i.rhdh.namespace) in w1.store ==> a.Ok? && a.w.store == Filled(w1.store, dataKeys, i))
  {
    hide EnsureConfigMaps, ConfigMaps, Mounted, Filled;
    Calmness.CalmConfigMaps(o1, w1, names1, dataKeys, i);
    Calmness.CalmConfigMaps(o2, w2, names2, dataKeys, i);
    LoopIsUnordered(w1.store, names1, dataKeys, i);
    LoopIsUnordered(w2.store, names2, dataKeys, i);
    MountedIsPermutation(names1, dataKeys.Keys);
    MountedIsPermutation(names2, dataKeys.Keys);
  }
}
