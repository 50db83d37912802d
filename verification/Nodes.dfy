/** Finding the object of a node, and creating the objects that are missing. */
module Nodes {
  import opened Types
  import opened Admission
  import opened Protocol
  import opened ApiServer

  function FirstBound(list: seq<LocalStorage>, node: string): Option<LocalStorage> {
    if list == [] then None
    else if list[0].spec.node == node then Some(list[0])
    else FirstBound(list[1..], node)
  }

  ghost predicate FirstAt(list: seq<LocalStorage>, i: nat, node: string) {
    i < |list| && list[i].spec.node == node && forall j :: 0 <= j < i ==> list[j].spec.node != node
  }

  ghost predicate LastAt(list: seq<LocalStorage>, i: nat, node: string) {
    i < |list| && list[i].spec.node == node && forall j :: i < j < |list| ==> list[j].spec.node != node
  }

  method GetLocalStorageByNode(list: seq<LocalStorage>, node: string) returns (r: Option<LocalStorage>)
    ensures r == FirstBound(list, node)
    ensures r.Some? ==> exists i: nat :: FirstAt(list, i, node) && list[i] == r.value
    ensures r.None? ==> forall o :: o in list ==> o.spec.node != node
  {
    var i := 0;
    while i < |list|
      invariant 0 <= i <= |list|
      invariant forall j :: 0 <= j < i ==> list[j].spec.node != node
      invariant FirstBound(list, node) == FirstBound(list[i..], node)
    {
      assert list[i..][1..] == list[i + 1..];
      if list[i].spec.node == node {
        assert FirstAt(list, i, node);
        return Some(list[i]);
      }
      i := i + 1;
    }
    r := None;
  }

  function LastBound(list: seq<LocalStorage>, node: string): Option<LocalStorage> {
    if list == [] then None
    else if list[|list| - 1].spec.node == node then Some(list[|list| - 1])
    else LastBound(list[..|list| - 1], node)
  }

  /** m holds, for every node, the last listed object bound to it. */
  ghost predicate IsNodeMap(m: map<string, LocalStorage>, list: seq<LocalStorage>) {
    forall n :: (n in m <==> LastBound(list, n).Some?) && (n in m ==> m[n] == LastBound(list, n).value)
  }

  /** The map that Filter and Score use: a later object of the same node replaces an earlier one. */
  method GetLocalStorageMap(list: seq<LocalStorage>) returns (m: map<string, LocalStorage>)
    ensures IsNodeMap(m, list)
  {
    m := map[];
    for i := 0 to |list|
      invariant IsNodeMap(m, list[..i])
    {
      assert list[..i + 1][..i] == list[..i];
      m := m[list[i].spec.node := list[i]];
    }
    assert list[..|list|] == list;
  }

  lemma {:induction false} FirstBoundFinds(list: seq<LocalStorage>, node: string)
    ensures FirstBound(list, node).Some? ==> FirstBound(list, node).value in list && FirstBound(list, node).value.spec.node == node
    ensures FirstBound(list, node).None? ==> forall o :: o in list ==> o.spec.node != node
  {
    if list != [] {
      FirstBoundFinds(list[1..], node);
      assert forall o :: o in list <==> o == list[0] || o in list[1..];
    }
  }

  lemma {:induction false} LastBoundFinds(list: seq<LocalStorage>, node: string)
    ensures LastBound(list, node).Some? ==> LastBound(list, node).value in list && LastBound(list, node).value.spec.node == node
    ensures LastBound(list, node).None? ==> forall o :: o in list ==> o.spec.node != node
  {
    if list != [] {
      LastBoundFinds(list[..|list| - 1], node);
      assert list == list[..|list| - 1] + [list[|list| - 1]];
    }
  }

  /** The last entry bound to the node, if there is one. */
  lemma {:induction false} LastBoundIsLast(list: seq<LocalStorage>, node: string)
    ensures LastBound(list, node).Some? ==> exists i: nat :: LastAt(list, i, node) && list[i] == LastBound(list, node).value
    ensures LastBound(list, node).None? <==> forall o :: o in list ==> o.spec.node != node
  {
    LastBoundFinds(list, node);
    if list != [] {
      var front := list[..|list| - 1];
      if list[|list| - 1].spec.node == node {
        assert LastAt(list, |list| - 1, node);
      } else if LastBound(list, node).Some? {
        LastBoundIsLast(front, node);
        var i: nat :| LastAt(front, i, node) && front[i] == LastBound(front, node).value;
        assert forall j :: 0 <= j < |front| ==> front[j] == list[j];
        assert LastAt(list, i, node);
      }
    }
  }

  /** With one object a node, the first-match search and the last-writer-wins map find the same object,
      which is the one bound to the node. */
  lemma SearchesAgree(list: seq<LocalStorage>, store: Store, node: string)
    requires NodesUnique(store) && Lists(list, store)
    ensures FirstBound(list, node) == LastBound(list, node)
    ensures forall k :: Bound(store, k, node) ==> FirstBound(list, node) == Some(store[k])
    ensures FirstBound(list, node).Some? ==> Bound(store, FirstBound(list, node).value.name, node)
  {
    FirstBoundFinds(list, node);
    LastBoundFinds(list, node);
  }

  // ---------- CreateLocalStorages ----------

  function Fresh(node: string): LocalStorage {
    LocalStorage("ls-" + node, TypeMeta("", ""), 0, 0, false, [], NoNote, Spec(node, Some(PathSpec("/data")), None),
                 Status(Unset, None, None, []))
  }

  function BoundNodes(m: Store): set<string> {
    set k | k in m :: m[k].spec.node
  }

  /** What other clients make of store and revision before the job's i-th create. */
  type Others = (nat, Store, nat) -> (Store, nat)

  /** The loop over node names; had is the set listed before it started. */
  function CreateAll(m: Store, rev: nat, had: set<string>, names: seq<string>, kubeNodes: set<string>, others: Others, i: nat): (Store, nat, bool)
    decreases names
  {
    if names == [] then (m, rev, true)
    else if names[0] in had then CreateAll(m, rev, had, names[1..], kubeNodes, others, i)
    else
      var (m1, rev1) := others(i, m, rev);
      match Created(m1, Fresh(names[0]), kubeNodes, rev1 + 1)
      case None => (m1, rev1, false)
      case Some(o) => CreateAll(m1[o.name := o], rev1 + 1, had, names[1..], kubeNodes, others, i + 1)
  }

  method CreateLocalStorages(api: Server, names: seq<string>, kubeNodes: set<string>, others: Others) returns (ok: bool)
    modifies api
    ensures (api.store, api.rev, ok) == CreateAll(old(api.store), old(api.rev), BoundNodes(old(api.store)), names, kubeNodes, others, 0)
  {
    if |names| == 0 {
      return true;
    }
    var had := BoundNodes(api.store);
    var n, i := 0, 0;
    while n < |names|
      invariant 0 <= n <= |names| && i >= 0
      invariant CreateAll(old(api.store), old(api.rev), had, names, kubeNodes, others, 0)
                == CreateAll(api.store, api.rev, had, names[n..], kubeNodes, others, i)
    {
      assert names[n..][1..] == names[n + 1..];
      if names[n] !in had {
        var (m, rev) := others(i, api.store, api.rev);
        api.Become(m, rev);
        var made := api.Create(Fresh(names[n]), kubeNodes);
        if !made {
          return false;
        }
        i := i + 1;
      }
      n := n + 1;
    }
    ok := true;
  }

  /** Whatever the others write goes through admission too, so it keeps one object a node. */
  ghost predicate KeepUnique(others: Others) {
    forall i: nat, m, rev: nat :: NodesUnique(m) ==> NodesUnique(others(i, m, rev).0)
  }

  ghost predicate KeepNodes(others: Others) {
    forall i: nat, m, rev: nat :: BoundNodes(m) <= BoundNodes(others(i, m, rev).0)
  }

  ghost predicate KeepStill(others: Others) {
    forall i: nat, m, rev: nat :: others(i, m, rev) == (m, rev)
  }

  /** What the job stores for a node: under the node's name with "ls-" in front, a path backend in /data, the
      state of a new object and the protecting finalizer. */
  ghost predicate IsJobObject(o: LocalStorage, node: string) {
    && o.name == "ls-" + node && o.note == NoNote && !o.marked && o.finalizers == [LS_PROTECTION]
    && o.spec == Spec(node, Some(PathSpec("/data")), None)
    && o.status == Status(Pending, None, None, [])
  }

  /** The state after one create of the job. */
  lemma CreateOneBinds(m: Store, name: string, kubeNodes: set<string>, rev: nat)
    requires NodesUnique(m) && Created(m, Fresh(name), kubeNodes, rev).Some?
    ensures var o := Created(m, Fresh(name), kubeNodes, rev).value; var m' := m[o.name := o];
            && o.spec.node == name && o.name !in m && NodesUnique(m')
            && BoundNodes(m') == BoundNodes(m) + {name} && name !in BoundNodes(m)
            && forall k :: k in m ==> m'[k] == m[k]
  {
    var o := Created(m, Fresh(name), kubeNodes, rev).value;
    UniqueAfterCreateIff(m, o);
    var m' := m[o.name := o];
    assert o.name in m' && m'[o.name].spec.node == name;
    assert forall k :: k in m ==> m'[k] == m[k];
  }

  lemma CreateOneMakes(m: Store, name: string, kubeNodes: set<string>, rev: nat)
    requires Created(m, Fresh(name), kubeNodes, rev).Some?
    ensures var o := Created(m, Fresh(name), kubeNodes, rev).value; IsJobObject(o, name) && o.uid == o.rv == rev
  {
  }

  /** Whatever other clients write meanwhile, the job keeps one object a node. If they leave no node without
      its object, neither does the job, and when it succeeds every name has one; if they write nothing, it
      changes no object that was there. */
  lemma {:induction false} CreateAllBinds(m: Store, rev: nat, had: set<string>, names: seq<string>, kubeNodes: set<string>, others: Others, i: nat)
    requires NodesUnique(m) && KeepUnique(others)
    ensures var (m', _, ok) := CreateAll(m, rev, had, names, kubeNodes, others, i);
            && NodesUnique(m')
            && (KeepNodes(others) && had <= BoundNodes(m) ==>
                  BoundNodes(m) <= BoundNodes(m') && (ok ==> forall n :: n in names ==> n in BoundNodes(m')))
            && (KeepStill(others) ==> forall k :: k in m ==> k in m' && m'[k] == m[k])
    decreases names
  {
    if names != [] {
      assert forall n :: n in names <==> n == names[0] || n in names[1..];
      if names[0] in had {
        CreateAllBinds(m, rev, had, names[1..], kubeNodes, others, i);
      } else {
        var (m1, rev1) := others(i, m, rev);
        var made := Created(m1, Fresh(names[0]), kubeNodes, rev1 + 1);
        assert KeepNodes(others) ==> BoundNodes(m) <= BoundNodes(m1);
        if made.Some? {
          CreateOneBinds(m1, names[0], kubeNodes, rev1 + 1);
          CreateAllBinds(m1[made.value.name := made.value], rev1 + 1, had, names[1..], kubeNodes, others, i + 1);
        }
      }
    }
  }

  /** If no one else writes, a successful job leaves, for every name that had no object, the one described. */
  lemma {:induction false} CreateAllMakes(m: Store, rev: nat, had: set<string>, names: seq<string>, kubeNodes: set<string>, others: Others, i: nat, n: string)
    requires NodesUnique(m) && KeepStill(others) && n in names && n !in had
    requires CreateAll(m, rev, had, names, kubeNodes, others, i).2
    ensures var m' := CreateAll(m, rev, had, names, kubeNodes, others, i).0; "ls-" + n in m' && IsJobObject(m'["ls-" + n], n)
    decreases names
  {
    if names[0] in had {
      assert n in names[1..];
      CreateAllMakes(m, rev, had, names[1..], kubeNodes, others, i, n);
    } else {
      assert others(i, m, rev) == (m, rev);
      var o := Created(m, Fresh(names[0]), kubeNodes, rev + 1).value;
      CreateOneBinds(m, names[0], kubeNodes, rev + 1);
      if n == names[0] {
        CreateOneMakes(m, n, kubeNodes, rev + 1);
        CreateAllBinds(m[o.name := o], rev + 1, had, names[1..], kubeNodes, others, i + 1);
      } else {
        assert n in names[1..];
        CreateAllMakes(m[o.name := o], rev + 1, had, names[1..], kubeNodes, others, i + 1, n);
      }
    }
  }

  /** A first create for this node can be admitted. */
  predicate Creatable(m: Store, node: string, kubeNodes: set<string>) {
    node != "" && |node| <= 49 && node in kubeNodes && "ls-" + node !in m && NodeFree(m, node)
  }

  lemma CreateOneSucceedsIff(m: Store, node: string, kubeNodes: set<string>, rev: nat, other: string)
    ensures var made := Created(m, Fresh(node), kubeNodes, rev);
            && (made.Some? <==> Creatable(m, node, kubeNodes))
            && (made.Some? ==> (Creatable(m[made.value.name := made.value], other, kubeNodes)
                                <==> other != node && Creatable(m, other, kubeNodes)))
  {
    var made := Created(m, Fresh(node), kubeNodes, rev);
    if made.Some? {
      var m' := m[made.value.name := made.value];
      assert ("ls-" + other)[3..] == other && ("ls-" + node)[3..] == node;
      assert m'["ls-" + node].spec.node == node;
      assert forall k :: k in m ==> m'[k] == m[k];
    }
  }

  /** If no one else writes, the job succeeds exactly if every name that had no object is a short enough name of
      a cluster node that no object is bound to or named after, and is given once. */
  lemma {:induction false} CreateAllSucceedsIff(m: Store, rev: nat, had: set<string>, names: seq<string>, kubeNodes: set<string>, others: Others, i: nat)
    requires KeepStill(others)
    ensures CreateAll(m, rev, had, names, kubeNodes, others, i).2 <==>
            && (forall n :: n in names && n !in had ==> Creatable(m, n, kubeNodes))
            && (forall a, b :: 0 <= a < b < |names| && names[a] == names[b] ==> names[a] in had)
    decreases names
  {
    if names != [] {
      var first, rest := names[0], names[1..];
      assert forall n :: n in names <==> n == first || n in rest;
      assert forall a :: 0 < a < |names| ==> names[a] == rest[a - 1] && names[a] in rest;
      assert forall a :: 0 <= a < |rest| ==> rest[a] == names[a + 1];
      if first in had {
        CreateAllSucceedsIff(m, rev, had, rest, kubeNodes, others, i);
      } else {
        assert others(i, m, rev) == (m, rev);
        var made := Created(m, Fresh(first), kubeNodes, rev + 1);
        forall n
          ensures (made.Some? <==> Creatable(m, first, kubeNodes))
                  && (made.Some? ==> (Creatable(m[made.value.name := made.value], n, kubeNodes) <==> n != first && Creatable(m, n, kubeNodes)))
        {
          CreateOneSucceedsIff(m, first, kubeNodes, rev + 1, n);
        }
        if made.Some? {
          CreateAllSucceedsIff(m[made.value.name := made.value], rev + 1, had, rest, kubeNodes, others, i + 1);
        }
      }
    }
  }

  lemma {:induction false} CreateAllSkips(m: Store, rev: nat, had: set<string>, names: seq<string>, kubeNodes: set<string>, others: Others, i: nat)
    requires forall n :: n in names ==> n in had
    ensures CreateAll(m, rev, had, names, kubeNodes, others, i) == (m, rev, true)
  {
    if names != [] {
      assert names[0] in names;
      assert forall n :: n in names[1..] ==> n in names;
      CreateAllSkips(m, rev, had, names[1..], kubeNodes, others, i);
    }
  }

  /** Running the job again after it succeeded creates nothing and succeeds, whatever others wrote during the
      first run as long as they left no node without its object. */
  lemma CreateLocalStoragesIsIdempotent(m: Store, rev: nat, names: seq<string>, kubeNodes: set<string>, others: Others, again: Others)
    requires NodesUnique(m) && KeepUnique(others) && KeepNodes(others)
    requires CreateAll(m, rev, BoundNodes(m), names, kubeNodes, others, 0).2
    ensures var (m', rev', _) := CreateAll(m, rev, BoundNodes(m), names, kubeNodes, others, 0);
            CreateAll(m', rev', BoundNodes(m'), names, kubeNodes, again, 0) == (m', rev', true)
  {
    CreateAllBinds(m, rev, BoundNodes(m), names, kubeNodes, others, 0);
    var (m', rev', _) := CreateAll(m, rev, BoundNodes(m), names, kubeNodes, others, 0);
    CreateAllSkips(m', rev', BoundNodes(m'), names, kubeNodes, again, 0);
  }

  /** A single create fails on a node that another client has bound since the list was taken, so the job then
      stops with an error instead of binding it twice. */
  lemma TakenMeanwhileStops(m: Store, rev: nat, had: set<string>, names: seq<string>, kubeNodes: set<string>, others: Others, i: nat)
    requires names != [] && names[0] !in had && names[0] in BoundNodes(others(i, m, rev).0)
    ensures CreateAll(m, rev, had, names, kubeNodes, others, i) == (others(i, m, rev).0, others(i, m, rev).1, false)
  {
    var m1 := others(i, m, rev).0;
    assert !NodeFree(m1, names[0]);
  }
}
