/** LocalStorage as the Go code holds it: pointers to quantities, slices over shared arrays. */
module Heap {
  import opened Types
  import opened Volumes
  import opened Admission

  class Quantity {
    var value: int

    constructor (v: int)
      ensures value == v
    {
      value := v;
    }

    method Add(n: int)
      modifies this
      ensures value == old(value) + n
    {
      value := value + n;
    }

    method Sub(n: int)
      modifies this
      ensures value == old(value) - n
    {
      value := value - n;
    }
  }

  class PathBox {
    var volumeDir: string

    constructor (dir: string)
      ensures volumeDir == dir
    {
      volumeDir := dir;
    }
  }

  class LvmBox {
    var volumeGroup: string
    var disks: array<DiskSpec>

    constructor (group: string, ds: array<DiskSpec>)
      ensures volumeGroup == group && disks == ds
    {
      volumeGroup, disks := group, ds;
    }
  }

  /** Deleting entry i from a slice of length len the Go way: the tail moves one place down, in place. */
  method ShiftLeft<T>(a: array<T>, i: nat, len: nat)
    requires i < len <= a.Length
    modifies a
    ensures a[..len - 1] == old(a[..i]) + old(a[i + 1..len])
  {
    var j := i;
    while j < len - 1
      invariant i <= j <= len - 1
      invariant forall m :: 0 <= m < i ==> a[m] == old(a[m])
      invariant forall m :: i <= m < j ==> a[m] == old(a[m + 1])
      invariant forall m :: j <= m < a.Length ==> a[m] == old(a[m])
    {
      a[j] := a[j + 1];
      j := j + 1;
    }
  }

  /** make and copy: a new array holding the first len elements. */
  method CopySlice<T(0)>(a: array<T>, len: nat) returns (b: array<T>)
    requires len <= a.Length
    ensures fresh(b) && b.Length == len && b[..] == a[..len]
  {
    b := new T[len];
    for i := 0 to len
      invariant b[..i] == a[..i]
    {
      b[i] := a[i];
    }
  }

  function Drop(fs: seq<string>, f: string): seq<string> {
    if fs == [] then []
    else if fs[0] == f then Drop(fs[1..], f)
    else [fs[0]] + Drop(fs[1..], f)
  }

  lemma {:induction false} DropAbsent(fs: seq<string>, f: string)
    ensures f !in Drop(fs, f)
    ensures f !in fs ==> Drop(fs, f) == fs
    ensures f in fs ==> |Drop(fs, f)| < |fs|
    ensures |Drop(fs, f)| <= |fs|
  {
    if fs != [] {
      DropAbsent(fs[1..], f);
      assert forall g :: g in fs <==> g == fs[0] || g in fs[1..];
    }
  }

  /** The loop of RemoveFinalizer from index i on: after a deletion it looks at the same index again. */
  function DropFrom(fs: seq<string>, f: string, i: nat, hit: bool): (seq<string>, bool)
    decreases |fs| - i
  {
    if i >= |fs| then (fs, hit)
    else if fs[i] == f then DropFrom(fs[..i] + fs[i + 1..], f, i, true)
    else DropFrom(fs, f, i + 1, hit)
  }

  lemma {:induction false} DropFromDrops(fs: seq<string>, f: string, i: nat, hit: bool)
    requires i <= |fs|
    ensures DropFrom(fs, f, i, hit) == (fs[..i] + Drop(fs[i..], f), hit || f in fs[i..])
    decreases |fs| - i
  {
    if i < |fs| {
      assert fs[i..] == [fs[i]] + fs[i + 1..];
      if fs[i] == f {
        var shorter := fs[..i] + fs[i + 1..];
        DropFromDrops(shorter, f, i, true);
        assert shorter[..i] == fs[..i] && shorter[i..] == fs[i..][1..];
      } else {
        DropFromDrops(fs, f, i + 1, hit);
        assert fs[i + 1..] == fs[i..][1..];
        assert fs[..i + 1] + Drop(fs[i + 1..], f) == fs[..i] + ([fs[i]] + Drop(fs[i + 1..], f));
      }
    } else {
      assert fs[..i] + [] == fs && fs[i..] == [];
    }
  }

  /** RemoveFinalizer filters every list and reports whether there was anything to remove. */
  lemma RemoveFinalizerIsFilter(fs: seq<string>, f: string)
    ensures DropFrom(fs, f, 0, false) == (Drop(fs, f), f in fs)
    ensures f !in Drop(fs, f) && (f !in fs ==> Drop(fs, f) == fs)
  {
    DropFromDrops(fs, f, 0, false);
    assert fs[0..] == fs && fs[..0] + Drop(fs, f) == Drop(fs, f);
    DropAbsent(fs, f);
  }

  datatype Meta = Meta(name: string, typeMeta: TypeMeta, uid: nat, rv: nat, marked: bool, note: SizeNote)

  class LocalStorageObject {
    var meta: Meta
    var finalizers: array<string>
    var finLen: nat
    var node: string
    var path: PathBox?
    var lvm: LvmBox?
    var phase: Phase
    var allocatable: Quantity?
    var capacity: Quantity?
    var vols: array<Volume>
    var volLen: nat

    /** Everything the object owns. */
    ghost function Repr(): set<object?>
      reads this, lvm
    {
      {this, finalizers, vols}
      + (if path == null then {} else {path})
      + (if lvm == null then {} else {lvm, lvm.disks})
      + (if allocatable == null then {} else {allocatable})
      + (if capacity == null then {} else {capacity})
    }

    ghost predicate Valid()
      reads this
    {
      finLen <= finalizers.Length && volLen <= vols.Length
    }

    ghost function SpecValue(): Spec
      reads `node, `path, `lvm, path, lvm, if lvm == null then {} else {lvm.disks}
    {
      Spec(node,
           if path == null then None else Some(PathSpec(path.volumeDir)),
           if lvm == null then None else Some(LvmSpec(lvm.volumeGroup, lvm.disks[..])))
    }

    ghost function StatusValue(): Status
      requires volLen <= vols.Length
      reads `phase, `allocatable, `capacity, `vols, `volLen, allocatable, capacity, vols
    {
      Status(phase,
             if allocatable == null then None else Some(allocatable.value),
             if capacity == null then None else Some(capacity.value),
             vols[..volLen])
    }

    /** The object as the API server would store it. */
    ghost function Value(): LocalStorage
      requires Valid()
      reads this, lvm, Repr()
    {
      LocalStorage(meta.name, meta.typeMeta, meta.uid, meta.rv, meta.marked, finalizers[..finLen], meta.note,
                   SpecValue(), StatusValue())
    }

    /** What is sent to the API server. */
    method Encode() returns (v: LocalStorage)
      requires Valid()
      ensures v == Value()
    {
      var p, l, a, c := None, None, None, None;
      if path != null {
        p := Some(PathSpec(path.volumeDir));
      }
      if lvm != null {
        l := Some(LvmSpec(lvm.volumeGroup, lvm.disks[..]));
      }
      if allocatable != null {
        a := Some(allocatable.value);
      }
      if capacity != null {
        c := Some(capacity.value);
      }
      v := LocalStorage(meta.name, meta.typeMeta, meta.uid, meta.rv, meta.marked, finalizers[..finLen], meta.note,
                        Spec(node, p, l), Status(phase, a, c, vols[..volLen]));
    }

    /** A struct assignment: every field is copied, so pointers and slices are shared. */
    constructor Shallow(src: LocalStorageObject)
      requires src.Valid()
      ensures Valid() && meta == src.meta && finalizers == src.finalizers && finLen == src.finLen && node == src.node
      ensures path == src.path && lvm == src.lvm && phase == src.phase && allocatable == src.allocatable
      ensures capacity == src.capacity && vols == src.vols && volLen == src.volLen
    {
      meta, finalizers, finLen, node := src.meta, src.finalizers, src.finLen, src.node;
      path, lvm, phase, allocatable := src.path, src.lvm, src.phase, src.allocatable;
      capacity, vols, volLen := src.capacity, src.vols, src.volLen;
    }

    /** The metadata part of DeepCopyInto, with a new finalizer slice. */
    method CopyMeta() returns (c: LocalStorageObject)
      requires Valid()
      ensures fresh(c) && fresh(c.finalizers) && c.Valid() && c.meta == meta && c.node == node && c.phase == phase
      ensures c.finalizers[..c.finLen] == finalizers[..finLen]
      ensures c.path == path && c.lvm == lvm && c.allocatable == allocatable && c.capacity == capacity
      ensures c.vols == vols && c.volLen == volLen
    {
      c := new LocalStorageObject.Shallow(this);
      c.finalizers := CopySlice(finalizers, finLen);
      assert c.finalizers[..c.finLen] == finalizers[..finLen];
    }

    /** The spec part of DeepCopyInto: new path and lvm structs, new disk slice. */
    method CopySpecInto(out: LocalStorageObject)
      requires out != this && out.path == path && out.lvm == lvm && out.node == node
      modifies out`path, out`lvm
      ensures out.path != null ==> fresh(out.path)
      ensures out.lvm != null ==> fresh(out.lvm) && fresh(out.lvm.disks)
      ensures out.SpecValue() == SpecValue()
    {
      if path != null {
        out.path := new PathBox(path.volumeDir);
      }
      if lvm != null {
        var ds := CopySlice(lvm.disks, lvm.disks.Length);
        out.lvm := new LvmBox(lvm.volumeGroup, ds);
        assert out.lvm.disks[..] == lvm.disks[..];
      }
    }

    /** The status part of DeepCopyInto: two new quantities, even from one, and a new volume slice. */
    method CopyStatusInto(out: LocalStorageObject)
      requires Valid() && out.Valid() && out != this && out.allocatable == allocatable && out.capacity == capacity
      requires out.phase == phase && out.volLen == volLen
      modifies out`allocatable, out`capacity, out`vols
      ensures out.Valid()
      ensures out.allocatable != null ==> fresh(out.allocatable)
      ensures out.capacity != null ==> fresh(out.capacity)
      ensures out.allocatable != null && out.capacity != null ==> out.allocatable != out.capacity
      ensures fresh(out.vols) && out.vols.Length == volLen
      ensures out.StatusValue() == StatusValue()
    {
      if allocatable != null {
        out.allocatable := new Quantity(allocatable.value);
      }
      if capacity != null {
        out.capacity := new Quantity(capacity.value);
      }
      out.vols := CopySlice(vols, volLen);
      assert out.vols[..out.volLen] == vols[..volLen];
    }

    /** DeepCopy shares nothing with its source, separates Allocatable from Capacity even if the source
        does not, and leaves no spare room in the volume slice. */
    method DeepCopy() returns (c: LocalStorageObject)
      requires Valid()
      ensures c.Valid() && c.Value() == Value()
      ensures fresh(c) && fresh(c.finalizers) && fresh(c.vols)
      ensures c.path != null ==> fresh(c.path)
      ensures c.lvm != null ==> fresh(c.lvm) && fresh(c.lvm.disks)
      ensures c.allocatable != null ==> fresh(c.allocatable)
      ensures c.capacity != null ==> fresh(c.capacity)
      ensures c.allocatable != null && c.capacity != null ==> c.allocatable != c.capacity
      ensures c.vols.Length == c.volLen
    {
      c := CopyMeta();
      CopySpecInto(c);
      CopyStatusInto(c);
    }

    method ContainsVolume(id: string) returns (found: bool)
      requires Valid()
      ensures found <==> Contains(vols[..volLen], id)
    {
      for i := 0 to volLen
        invariant forall j :: 0 <= j < i ==> vols[j].volID != id
      {
        if vols[i].volID == id {
          assert vols[..volLen][i].volID == id;
          return true;
        }
      }
      found := false;
    }

    /** append writes into spare room if there is any, and otherwise moves to a new array. */
    method AddVolume(v: Volume)
      requires Valid()
      modifies this`vols, this`volLen, vols
      ensures Valid() && (vols == old(vols) || fresh(vols))
      ensures Value() == old(Value()).(status := old(Value()).status.(volumes := Volumes.AddVolume(old(Value()).status.volumes, v)))
    {
      var found := ContainsVolume(v.volID);
      if found {
        return;
      }
      if volLen < vols.Length {
        vols[volLen] := v;
      } else {
        var bigger := new Volume[volLen + 1](i requires 0 <= i < volLen + 1 && Valid() reads this, vols => if i < volLen then vols[i] else v);
        vols := bigger;
      }
      volLen := volLen + 1;
      assert vols[..volLen] == old(vols[..volLen]) + [v];
    }

    /** The deletion loop: the index advances also after a deletion. */
    method RemoveVolume(id: string) returns (vol: Volume)
      requires Valid()
      modifies this`volLen, vols
      ensures Valid() && allocatable == old(allocatable)
      ensures var (vs, got) := Volumes.RemoveVolume(old(Value()).status.volumes, id);
              vol == got && Value() == old(Value()).(status := old(Value()).status.(volumes := vs))
    {
      vol := NO_VOLUME;
      var i, n := 0, volLen;
      while i < n
        invariant 0 <= i <= n + 1 && 0 <= n <= vols.Length
        invariant RemoveFrom(vols[..n], id, i, vol) == Volumes.RemoveVolume(old(vols[..volLen]), id)
        decreases n - i
      {
        if vols[i].volID == id {
          ghost var s := vols[..n];
          vol := vols[i];
          ShiftLeft(vols, i, n);
          n := n - 1;
          assert vols[..n] == s[..i] + s[i + 1..];
        }
        i := i + 1;
      }
      volLen := n;
    }

    /** calculateAllocatedSize: the quantity is changed through the pointer. */
    method ChangeAllocatable(n: int)
      requires Valid() && allocatable != null && allocatable != capacity
      modifies allocatable
      ensures Valid() && Value() == old(Value()).(status := old(Value()).status.(allocatable := Some(old(allocatable.value) + n)))
    {
      if n >= 0 {
        allocatable.Add(n);
      } else {
        allocatable.Sub(-n);
      }
    }

    /** SetLocalStoragePhase */
    method SetPhase(p: Phase)
      requires Valid()
      modifies `phase
      ensures Valid() && Value() == WithPhase(old(Value()), p)
    {
      phase := p;
    }

    /** sync takes the address of one quantity twice. */
    method SetQuantities(q: Quantity)
      requires Valid()
      modifies `capacity, `allocatable
      ensures Valid() && Value() == old(Value()).(status := old(Value()).status.(capacity := Some(q.value), allocatable := Some(q.value)))
    {
      capacity := q;
      allocatable := q;
    }

    /** RemoveFinalizer steps back after a deletion, so it filters every list. */
    method RemoveFinalizer(f: string) returns (updated: bool)
      requires Valid()
      modifies this`finLen, finalizers
      ensures Valid()
      ensures Value() == old(Value()).(finalizers := Drop(old(Value()).finalizers, f))
      ensures updated <==> f in old(Value()).finalizers
    {
      updated := false;
      var i, n := 0, finLen;
      while i < n
        invariant 0 <= i <= n <= finalizers.Length
        invariant DropFrom(finalizers[..n], f, i, updated) == DropFrom(old(finalizers[..finLen]), f, 0, false)
        decreases n - i
      {
        if finalizers[i] == f {
          ghost var s := finalizers[..n];
          ShiftLeft(finalizers, i, n);
          n := n - 1;
          updated := true;
          assert finalizers[..n] == s[..i] + s[i + 1..];
        } else {
          i := i + 1;
        }
      }
      RemoveFinalizerIsFilter(old(finalizers[..finLen]), f);
      finLen := n;
    }

    method AddFinalizer(f: string) returns (updated: bool)
      requires Valid()
      modifies this`finLen, this`finalizers, finalizers
      ensures Valid() && (finalizers == old(finalizers) || fresh(finalizers))
      ensures Value() == old(Value()).(finalizers := Admission.AddFinalizer(old(Value()).finalizers, f))
      ensures updated <==> f !in old(Value()).finalizers
    {
      for i := 0 to finLen
        invariant forall j :: 0 <= j < i ==> finalizers[j] != f
      {
        if finalizers[i] == f {
          assert finalizers[..finLen][i] == f;
          return false;
        }
      }
      if finLen < finalizers.Length {
        finalizers[finLen] := f;
      } else {
        var bigger := new string[finLen + 1](i requires 0 <= i < finLen + 1 && Valid() reads this, finalizers => if i < finLen then finalizers[i] else f);
        finalizers := bigger;
      }
      finLen := finLen + 1;
      assert finalizers[..finLen] == old(finalizers[..finLen]) + [f];
      updated := true;
    }

    // ---------- the mutating webhook, on the decoded object ----------

    method SetStatus(op: Operation)
      requires Valid()
      modifies `phase
      ensures Valid() && Value() == Admission.SetStatus(old(Value()), op)
    {
      if op.CreateOp? && phase == Unset {
        phase := Pending;
      }
    }

    method SetVolumes(op: Operation)
      requires Valid()
      modifies `vols, `volLen
      ensures Valid() && Value() == Admission.SetVolumes(old(Value()), op)
    {
      if op.CreateOp? && volLen != 0 {
        vols, volLen := new Volume[0], 0;
      }
    }

    /** Handle: the protection finalizer unless the object is being deleted, then the defaults in order. */
    method Default(op: Operation)
      requires Valid()
      modifies this`finLen, this`finalizers, this`phase, this`vols, this`volLen, finalizers
      ensures Valid() && Value() == Mutate(old(Value()), op)
    {
      if !meta.marked {
        var _ := AddFinalizer(LS_PROTECTION);
      }
      SetStatus(op);
      SetVolumes(op);
    }
  }
}
