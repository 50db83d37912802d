/** The API server as a client sees it: a store that Create and Update change through admission. */
module ApiServer {
  import opened Types
  import opened Admission
  import opened Protocol

  predicate NodeFree(m: Store, node: string) {
    forall k :: k in m ==> m[k].spec.node != node
  }

  /** What a create stores, or None if it is refused. */
  function Created(m: Store, obj: LocalStorage, kubeNodes: set<string>, rev: nat): Option<LocalStorage> {
    var o := Mutate(obj.(marked := false, status := Status(Unset, None, None, [])), CreateOp);
    if o.name in m || !GoodName(o.name) || !WellFormed(o.spec) || o.spec.node !in kubeNodes || !NodeFree(m, o.spec.node)
    then None
    else Some(o.(uid := rev, rv := rev))
  }

  /** The create that clients see is the create that admission decides, with the store as its list. */
  lemma CreatedIsAdmitted(m: Store, obj: LocalStorage, kubeNodes: set<string>, rev: nat, list: seq<LocalStorage>)
    requires Lists(list, m)
    ensures var o := Mutate(obj.(marked := false, status := Status(Unset, None, None, [])), CreateOp);
            Created(m, obj, kubeNodes, rev) ==
            if o.name !in m && ValidateCreate(o, kubeNodes, list).Allowed? then Some(o.(uid := rev, rv := rev)) else None
  {
    var o := Mutate(obj.(marked := false, status := Status(Unset, None, None, [])), CreateOp);
    CreateAllowedIff(o, kubeNodes, list);
    assert NodeFree(m, o.spec.node) <==> forall other :: other in list ==> other.spec.node != o.spec.node;
  }

  function StoreAfter(m: Store, key: string, r: Outcome): Store {
    match r
    case Replaced(o) => m[key := o]
    case Erased => m - {key}
    case _ => m
  }

  class Server {
    var store: Store
    var rev: nat

    constructor ()
      ensures store == map[] && rev == 0
    {
      store, rev := map[], 0;
    }

    /** What other clients have left behind when a client sends its next request. */
    method Become(m: Store, newRev: nat)
      modifies this
      ensures store == m && rev == newRev
    {
      store, rev := m, newRev;
    }

    method Create(obj: LocalStorage, kubeNodes: set<string>) returns (ok: bool)
      modifies this
      ensures var made := Created(old(store), obj, kubeNodes, old(rev) + 1);
              if ok then made.Some? && store == old(store)[made.value.name := made.value] && rev == old(rev) + 1
              else made.None? && store == old(store) && rev == old(rev)
    {
      var made := Created(store, obj, kubeNodes, rev + 1);
      ok := made.Some?;
      if ok {
        store, rev := store[made.value.name := made.value], rev + 1;
      }
    }

    method Update(o: LocalStorage) returns (r: Outcome)
      modifies this
      ensures r == Protocol.Update(old(store), o, old(rev) + 1)
      ensures store == StoreAfter(old(store), o.name, r)
      ensures rev == old(rev) + if r.Replaced? || r.Erased? then 1 else 0
    {
      r := Protocol.Update(store, o, rev + 1);
      store := StoreAfter(store, o.name, r);
      if r.Replaced? || r.Erased? {
        rev := rev + 1;
      }
    }
  }
}
