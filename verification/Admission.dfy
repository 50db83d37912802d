/** The admission webhooks: defaults on the way in, then validation against the stored version. */
module Admission {
  import opened Types

  const LS_PROTECTION := "caoyingjunz.io/ls-protection"

  /** DNS1035LabelMaxLength - 11 */
  const MAX_NAME := 63 - 11

  datatype Operation = CreateOp | UpdateOp

  datatype Reason =
    | NameEmpty | NameTooLong | IdentityChanged | NodeChanged | NodeEmpty | NodeUnknown | NodeTaken
    | TwoBackends | PathEmpty | PathChanged | GroupEmpty | DisksEmpty | LvmChanged

  datatype Verdict = Allowed | Denied(why: Reason)

  // ---------- mutating webhook ----------

  function AddFinalizer(fs: seq<string>, f: string): seq<string> {
    if f in fs then fs else fs + [f]
  }

  function SetStatus(o: LocalStorage, op: Operation): LocalStorage {
    if op.CreateOp? && o.status.phase == Unset then WithPhase(o, Pending) else o
  }

  function SetVolumes(o: LocalStorage, op: Operation): LocalStorage {
    if op.CreateOp? && |o.status.volumes| != 0 then o.(status := o.status.(volumes := [])) else o
  }

  function Mutate(o: LocalStorage, op: Operation): LocalStorage {
    var guarded := if o.marked then o else o.(finalizers := AddFinalizer(o.finalizers, LS_PROTECTION));
    SetVolumes(SetStatus(guarded, op), op)
  }

  // ---------- validating webhook ----------

  function ValidateName(o: LocalStorage): Verdict {
    if |o.name| == 0 then Denied(NameEmpty)
    else if |o.name| > MAX_NAME then Denied(NameTooLong)
    else Allowed
  }

  /** The search loop over the listed objects. */
  predicate Taken(list: seq<LocalStorage>, node: string) {
    list != [] && (list[0].spec.node == node || Taken(list[1..], node))
  }

  function ValidateKubeNode(o: LocalStorage, kubeNodes: set<string>, list: seq<LocalStorage>): Verdict {
    if |o.spec.node| == 0 then Denied(NodeEmpty)
    else if o.spec.node !in kubeNodes then Denied(NodeUnknown)
    else if Taken(list, o.spec.node) then Denied(NodeTaken)
    else Allowed
  }

  function CheckPath(p: PathSpec): Verdict {
    if |p.volumeDir| == 0 then Denied(PathEmpty) else Allowed
  }

  function CheckLvm(l: LvmSpec): Verdict {
    if |l.volumeGroup| == 0 then Denied(GroupEmpty)
    else if |l.disks| == 0 then Denied(DisksEmpty)
    else Allowed
  }

  /** prev is None on create. */
  function ValidatePath(prev: Option<Spec>, cur: Spec): Verdict {
    match prev
    case None => if cur.path.None? then Allowed else CheckPath(cur.path.value)
    case Some(o) =>
      if o.path.None? && cur.path.Some? then CheckPath(cur.path.value)
      else if o.path != cur.path then Denied(PathChanged)
      else Allowed
  }

  function ValidateLvm(prev: Option<Spec>, cur: Spec): Verdict {
    match prev
    case None => if cur.lvm.None? then Allowed else CheckLvm(cur.lvm.value)
    case Some(o) =>
      if o.lvm.None? && cur.lvm.Some? then CheckLvm(cur.lvm.value)
      else if o.lvm != cur.lvm then Denied(LvmChanged)
      else Allowed
  }

  function ValidateBackend(prev: Option<Spec>, cur: Spec): Verdict {
    if cur.path.Some? && cur.lvm.Some? then Denied(TwoBackends)
    else if ValidatePath(prev, cur).Denied? then ValidatePath(prev, cur)
    else ValidateLvm(prev, cur)
  }

  function ValidateCreate(o: LocalStorage, kubeNodes: set<string>, list: seq<LocalStorage>): Verdict {
    if ValidateName(o).Denied? then ValidateName(o)
    else if ValidateKubeNode(o, kubeNodes, list).Denied? then ValidateKubeNode(o, kubeNodes, list)
    else ValidateBackend(None, o.spec)
  }

  function ValidateUpdate(prev: LocalStorage, cur: LocalStorage): Verdict {
    if ValidateName(cur).Denied? then ValidateName(cur)
    else if prev.name != cur.name || prev.typeMeta != cur.typeMeta then Denied(IdentityChanged)
    else if prev.spec.node != cur.spec.node then Denied(NodeChanged)
    else ValidateBackend(Some(prev.spec), cur.spec)
  }

  // ---------- what admission is for ----------

  predicate GoodPath(p: Option<PathSpec>) {
    p.Some? ==> p.value.volumeDir != ""
  }

  predicate GoodLvm(l: Option<LvmSpec>) {
    l.Some? ==> l.value.volumeGroup != "" && l.value.disks != []
  }

  predicate WellFormed(s: Spec) {
    && s.node != ""
    && !(s.path.Some? && s.lvm.Some?)
    && GoodPath(s.path)
    && GoodLvm(s.lvm)
  }

  predicate GoodName(name: string) {
    1 <= |name| <= 52
  }

  /** cur may replace prev: the node stays, a backend once set stays, and at most one is set. */
  predicate Grows(prev: Spec, cur: Spec) {
    && cur.node == prev.node
    && (prev.path.Some? ==> cur.path == prev.path)
    && (prev.lvm.Some? ==> cur.lvm == prev.lvm)
    && (WellFormed(prev) ==> WellFormed(cur))
  }

  lemma {:induction false} TakenIff(list: seq<LocalStorage>, node: string)
    ensures Taken(list, node) <==> exists o :: o in list && o.spec.node == node
  {
    if list != [] {
      TakenIff(list[1..], node);
      assert forall o :: o in list <==> o == list[0] || o in list[1..];
    }
  }

  lemma CreateAllowedIff(o: LocalStorage, kubeNodes: set<string>, list: seq<LocalStorage>)
    ensures ValidateCreate(o, kubeNodes, list).Allowed? <==>
            && GoodName(o.name) && WellFormed(o.spec) && o.spec.node in kubeNodes
            && forall other :: other in list ==> other.spec.node != o.spec.node
  {
    TakenIff(list, o.spec.node);
  }

  /** Validation of updates is exactly the growth relation on well-formed specs. */
  lemma UpdateAllowedIff(prev: LocalStorage, cur: LocalStorage)
    requires WellFormed(prev.spec)
    ensures ValidateUpdate(prev, cur).Allowed? <==>
            && GoodName(cur.name) && cur.name == prev.name && cur.typeMeta == prev.typeMeta
            && Grows(prev.spec, cur.spec)
  {
  }

  /** Which check refuses a create: the first in this order that fails. */
  lemma CreateDeniedWhy(o: LocalStorage, kubeNodes: set<string>, list: seq<LocalStorage>)
    ensures var v := ValidateCreate(o, kubeNodes, list); var bound := exists other :: other in list && other.spec.node == o.spec.node;
            v.Denied? ==>
              match v.why
              case NameEmpty => o.name == ""
              case NameTooLong => |o.name| > 52
              case NodeEmpty => GoodName(o.name) && o.spec.node == ""
              case NodeUnknown => GoodName(o.name) && o.spec.node != "" && o.spec.node !in kubeNodes
              case NodeTaken => GoodName(o.name) && o.spec.node in kubeNodes && bound
              case TwoBackends => GoodName(o.name) && !bound && o.spec.path.Some? && o.spec.lvm.Some?
              case PathEmpty => GoodName(o.name) && !bound && o.spec.path == Some(PathSpec("")) && o.spec.lvm.None?
              case GroupEmpty => GoodName(o.name) && !bound && o.spec.lvm.Some? && o.spec.lvm.value.volumeGroup == "" && o.spec.path.None?
              case DisksEmpty => GoodName(o.name) && !bound && o.spec.lvm.Some? && o.spec.lvm.value.volumeGroup != "" && o.spec.lvm.value.disks == []
              case _ => false
  {
    TakenIff(list, o.spec.node);
  }

  /** Which check refuses an update of a well-formed object. */
  lemma UpdateDeniedWhy(prev: LocalStorage, cur: LocalStorage)
    requires WellFormed(prev.spec)
    ensures var v := ValidateUpdate(prev, cur);
            v.Denied? ==>
              match v.why
              case NameEmpty => cur.name == ""
              case NameTooLong => |cur.name| > 52
              case IdentityChanged => cur.name != prev.name || cur.typeMeta != prev.typeMeta
              case NodeChanged => cur.name == prev.name && cur.typeMeta == prev.typeMeta && cur.spec.node != prev.spec.node
              case TwoBackends => cur.spec.path.Some? && cur.spec.lvm.Some?
              case PathEmpty => prev.spec.path.None? && cur.spec.path == Some(PathSpec(""))
              case PathChanged => prev.spec.path.Some? && cur.spec.path != prev.spec.path
              case GroupEmpty => prev.spec.lvm.None? && cur.spec.lvm.Some? && cur.spec.lvm.value.volumeGroup == ""
              case DisksEmpty => prev.spec.lvm.None? && cur.spec.lvm.Some? && cur.spec.lvm.value.volumeGroup != "" && cur.spec.lvm.value.disks == []
              case LvmChanged => prev.spec.lvm.Some? && cur.spec.lvm != prev.spec.lvm
              case _ => false
  {
  }

  /** What the mutating webhook does, field by field: it protects an object that is not being deleted and keeps
      its other finalizers in order; a create starts without volumes, Pending unless it names a phase; nothing
      else changes. */
  lemma MutateSays(o: LocalStorage, op: Operation)
    ensures var o' := Mutate(o, op);
            && o' == o.(finalizers := o'.finalizers, status := o'.status)
            && (o.marked || LS_PROTECTION in o.finalizers ==> o'.finalizers == o.finalizers)
            && (!o.marked && LS_PROTECTION !in o.finalizers ==> o'.finalizers == o.finalizers + ["caoyingjunz.io/ls-protection"])
            && (op.UpdateOp? ==> o'.status == o.status)
            && (op.CreateOp? ==>
                  o'.status == o.status.(volumes := [], phase := if o.status.phase == Unset then Pending else o.status.phase))
  {
  }

  lemma GrowsTransitive(a: Spec, b: Spec, c: Spec)
    requires Grows(a, b) && Grows(b, c)
    ensures Grows(a, c)
  {
  }

  /** Across any chain of admitted updates the spec is write-once. */
  lemma {:induction false} AdmittedChainIsWriteOnce(chain: seq<LocalStorage>, i: nat, j: nat)
    requires i <= j < |chain| && WellFormed(chain[0].spec)
    requires forall k :: 0 <= k < |chain| - 1 ==> ValidateUpdate(chain[k], chain[k + 1]).Allowed?
    ensures WellFormed(chain[i].spec) && WellFormed(chain[j].spec) && Grows(chain[i].spec, chain[j].spec)
    decreases j
  {
    if j > 0 {
      AdmittedChainIsWriteOnce(chain, if i < j then i else i - 1, j - 1);
      assert ValidateUpdate(chain[j - 1], chain[j - 1 + 1]).Allowed?;
      UpdateAllowedIff(chain[j - 1], chain[j]);
      if i < j {
        GrowsTransitive(chain[i].spec, chain[j - 1].spec, chain[j].spec);
      }
    }
  }

  /** A write that touches only the status of an admitted object passes both webhooks untouched. */
  lemma StatusWritePasses(prev: LocalStorage, cur: LocalStorage)
    requires GoodName(prev.name) && WellFormed(prev.spec)
    requires !prev.marked ==> LS_PROTECTION in prev.finalizers
    requires cur == prev.(status := cur.status)
    ensures Mutate(cur, UpdateOp) == cur
    ensures ValidateUpdate(prev, cur).Allowed?
  {
  }

  ghost predicate NodesUnique(m: Store) {
    forall a, b :: a in m && b in m && m[a].spec.node == m[b].spec.node ==> a == b
  }

  /** A create admitted against any list keeps one object per node exactly when no stored object
      is bound to its node; a list as fresh as the store guarantees that, a stale one does not. */
  lemma UniqueAfterCreateIff(m: Store, o: LocalStorage)
    requires NodesUnique(m) && o.name !in m
    ensures NodesUnique(m[o.name := o]) <==> forall k :: k in m ==> m[k].spec.node != o.spec.node
  {
    var m' := m[o.name := o];
    if k :| k in m && m[k].spec.node == o.spec.node {
      assert m'[k].spec.node == m'[o.name].spec.node;
    }
  }

  lemma FreshListKeepsUnique(m: Store, o: LocalStorage, kubeNodes: set<string>, list: seq<LocalStorage>)
    requires NodesUnique(m) && o.name !in m
    requires forall k :: k in m ==> m[k] in list
    requires ValidateCreate(o, kubeNodes, list).Allowed?
    ensures NodesUnique(m[o.name := o])
  {
    CreateAllowedIff(o, kubeNodes, list);
    UniqueAfterCreateIff(m, o);
  }

  lemma StaleListBreaksUnique() returns (m: Store, o: LocalStorage, kubeNodes: set<string>)
    ensures NodesUnique(m) && o.name !in m
    ensures ValidateCreate(o, kubeNodes, []).Allowed? && !NodesUnique(m[o.name := o])
  {
    var first := LocalStorage("a", TypeMeta("", ""), 1, 1, false, [LS_PROTECTION], NoNote, Spec("n", None, None), NEW_STATUS);
    m, o, kubeNodes := map["a" := first], first.(name := "b"), {"n"};
    CreateAllowedIff(o, kubeNodes, []);
    UniqueAfterCreateIff(m, o);
    assert "a" in m && m["a"].spec.node == o.spec.node;
  }
}
