/** The components as the Go code runs them: they edit a deep copy of a lister object in place, send it
    to the API server, and drive their work queue. Each method is tied to the functions of the protocol. */
module Driver {
  import opened Types
  import opened Ledger
  import Workqueue
  import opened Reconcile
  import opened Protocol
  import opened ApiServer
  import opened Heap
  import opened Promises
  import opened Volumes

  // ---------- the work queue ----------

  class WorkQueue {
    var active: set<string>
    var delayed: set<string>
    var requeues: map<string, nat>
    var dropped: set<string>

    ghost function Q(): Workqueue.Queue
      reads this
    {
      Workqueue.Queue(active, delayed, requeues, dropped)
    }

    constructor ()
      ensures Q() == Workqueue.NO_WORK
    {
      active, delayed, requeues, dropped := {}, {}, map[], {};
    }

    method Add(k: string)
      modifies this
      ensures Q() == Workqueue.Add(old(Q()), k)
    {
      active, dropped := active + {k}, dropped - {k};
    }

    method Take(k: string)
      modifies this
      ensures Q() == Workqueue.Take(old(Q()), k)
    {
      active, dropped := active - {k}, dropped - {k};
    }

    /** The delay of k is over. */
    method Fire(k: string)
      modifies this
      ensures Q() == Workqueue.Fire(old(Q()), k)
    {
      if k in delayed {
        delayed := delayed - {k};
        Add(k);
      }
    }

    method NumRequeues(k: string) returns (n: nat)
      ensures n == Workqueue.NumRequeues(Q(), k)
    {
      n := if k in requeues then requeues[k] else 0;
    }

    method AddRateLimited(k: string)
      modifies this
      ensures Q() == Workqueue.AddRateLimited(old(Q()), k)
    {
      var n := NumRequeues(k);
      requeues := requeues[k := n + 1];
      delayed, dropped := delayed + {k}, dropped - {k};
    }

    method Forget(k: string)
      modifies this
      ensures Q() == Workqueue.Forget(old(Q()), k)
    {
      requeues := requeues - {k};
    }

    method HandleErr(k: string, failed: bool)
      modifies this
      ensures Q() == Workqueue.HandleErr(old(Q()), k, failed)
    {
      if !failed {
        Forget(k);
        return;
      }
      var n := NumRequeues(k);
      if n < Workqueue.MAX_RETRIES {
        AddRateLimited(k);
        return;
      }
      dropped := dropped + {k};
      Forget(k);
    }

    /** The worker loop on a key whose sync always fails, with delays that end in any order: 16 attempts from
        a reset counter, then dropped. */
    method WorkFailing(k: string, order: nat -> bool) returns (attempts: nat)
      requires Workqueue.Queued(Q(), k) && Workqueue.NumRequeues(Q(), k) == 0
      modifies this
      ensures attempts == 16 && !Workqueue.Queued(Q(), k) && k in dropped && Workqueue.NumRequeues(Q(), k) == 0
      ensures Q() == Workqueue.AfterFailing(old(Q()), k, order, 0)
    {
      ghost var q := Q();
      Workqueue.BoundedRetry(q, k, order, 0);
      attempts := 0;
      var round := 0;
      while k in active || k in delayed
        invariant Workqueue.NumRequeues(Q(), k) <= Workqueue.MAX_RETRIES && round >= 0
        invariant attempts + Workqueue.FailingAttempts(Q(), k, order, round) == Workqueue.FailingAttempts(q, k, order, 0)
        invariant Workqueue.AfterFailing(Q(), k, order, round) == Workqueue.AfterFailing(q, k, order, 0)
        decreases Workqueue.Attempts(Q(), k, 0), if k in delayed then 1 else 0
      {
        if k in active && (order(round) || k !in delayed) {
          Take(k);
          HandleErr(k, true);
          attempts := attempts + 1;
        } else {
          Fire(k);
        }
        round := round + 1;
      }
    }
  }

  // ---------- listers ----------

  /** at is the first position bound to node, or the length if there is none. */
  ghost predicate IsFirst(list: seq<LocalStorageObject>, at: nat, node: string)
    reads list
  {
    && at <= |list|
    && (forall j :: 0 <= j < at ==> list[j].node != node)
    && (at < |list| ==> list[at].node == node)
  }

  /** at is a position with this name, or the length if there is none. */
  ghost predicate IsNamed(list: seq<LocalStorageObject>, at: nat, name: string)
    reads list
  {
    && at <= |list|
    && (forall j :: 0 <= j < at ==> list[j].meta.name != name)
    && (at < |list| ==> list[at].meta.name == name)
  }

  method FindByNode(list: seq<LocalStorageObject>, node: string) returns (at: nat)
    ensures IsFirst(list, at, node)
  {
    at := 0;
    while at < |list|
      invariant 0 <= at <= |list|
      invariant forall j :: 0 <= j < at ==> list[j].node != node
    {
      if list[at].node == node {
        return;
      }
      at := at + 1;
    }
  }

  method FindByName(list: seq<LocalStorageObject>, name: string) returns (at: nat)
    ensures IsNamed(list, at, name)
  {
    at := 0;
    while at < |list|
      invariant 0 <= at <= |list|
      invariant forall j :: 0 <= j < at ==> list[j].meta.name != name
    {
      if list[at].meta.name == name {
        return;
      }
      at := at + 1;
    }
  }

  // ---------- sending ----------

  /** The store, the revision and what the client believes when it stops waiting for one update. */
  function Sent(m: Store, rev: nat, o: LocalStorage, d: Delivery): (Store, nat, bool) {
    if d.NeverSent? || d.InFlight? then (m, rev, false)
    else
      var r := Update(m, o, rev + 1);
      (StoreAfter(m, o.name, r), rev + (if r.Replaced? || r.Erased? then 1 else 0), d.Answered? && Accepted(r))
  }

  method SendUpdate(api: Server, s: LocalStorageObject, d: Delivery) returns (ok: bool)
    requires s.Valid()
    modifies api
    ensures (api.store, api.rev, ok) == Sent(old(api.store), old(api.rev), s.Value(), d)
  {
    var v := s.Encode();
    if d.NeverSent? || d.InFlight? {
      return false;
    }
    var r := api.Update(v);
    ok := d.Answered? && Accepted(r);
  }

  /** Sending a status change of a copy: it is known to be done exactly if the copy is current and the reply arrives;
      it is stored exactly if the copy is current and the update arrives, and changes something. */
  lemma SentSays(m: Store, rev: nat, view: LocalStorage, o: LocalStorage, d: Delivery)
    requires Genuine(m, view) && o == view.(status := o.status)
    ensures var (m', rev', ok) := Sent(m, rev, o, d);
            && (ok <==> Stored(m, view) && d.Answered?)
            && (if Stored(m, view) && Delivered(d) && o.status != view.status
                then m' == WithStatus(m, view, o.status, rev + 1) && rev' == rev + 1
                else m' == m && rev' == rev)
  {
    StatusUpdateSays(m, view, o, rev + 1);
  }

  // ---------- edits of a deep copy ----------

  /** CreateVolume's edit: copy, append the volume, subtract its size through the pointer. Nothing that
      existed before is modified. */
  method EditForCreate(o: LocalStorageObject, v: Volume) returns (s: LocalStorageObject, ok: bool)
    requires o.Valid()
    ensures fresh(s) && s.Valid()
    ensures ok <==> CreateEdit(old(o.Value()), v).Some?
    ensures ok ==> s.Value() == CreateEdit(old(o.Value()), v).value
  {
    s := o.DeepCopy();
    s.AddVolume(v);
    ok := s.allocatable != null;
    if ok {
      s.ChangeAllocatable(-v.volSize);
    }
  }

  /** DeleteVolume's edit: copy, shift the volume out in place, add its size through the pointer. */
  method EditForDelete(o: LocalStorageObject, id: string) returns (s: LocalStorageObject, ok: bool)
    requires o.Valid()
    ensures fresh(s) && s.Valid()
    ensures ok <==> DeleteEdit(old(o.Value()), id).Some?
    ensures ok ==> s.Value() == DeleteEdit(old(o.Value()), id).value
  {
    s := o.DeepCopy();
    var got := s.RemoveVolume(id);
    ok := s.allocatable != null;
    if ok {
      s.ChangeAllocatable(got.volSize);
    }
  }

  /** sync's edit; Capacity and Allocatable of the copy end up as one shared quantity. */
  method EditForSync(o: LocalStorageObject, dirOk: bool) returns (s: LocalStorageObject, ghost decision: Decision, write: bool, failed: bool)
    requires o.Valid()
    ensures fresh(s) && s.Valid()
    ensures decision == Sync(old(o.Value()), dirOk)
    ensures (write <==> decision.Write?) && (failed <==> decision.Fail?)
    ensures write ==> s.Value() == decision.obj
  {
    decision, write, failed := Sync(o.Value(), dirOk), false, false;
    s := o.DeepCopy();
    if s.phase == Pending {
      s.SetPhase(Initiating);
      write := true;
      return;
    }
    if s.path == null && s.lvm == null {
      return;
    }
    if s.path != null && s.lvm != null {
      failed := true;
      return;
    }
    var quantity := new Quantity(0);
    if s.path != null {
      var size := NoteSize(s.meta.note);
      if size.None? || !dirOk {
        failed := true;
        return;
      }
      quantity := new Quantity(size.value);
    }
    if s.lvm != null {
      return;
    }
    s.SetQuantities(quantity);
    s.SetPhase(Ready);
    write := true;
  }

  // ---------- the CSI calls ----------

  /** Store, revision and answer after sending an edit; without Allocatable there is none. */
  function SendResult(edit: Option<LocalStorage>, d: Delivery, m: Store, rev: nat): (Store, nat, Rpc) {
    match edit
    case None => (m, rev, Panicked)
    case Some(o) => var (m', rev', ok) := Sent(m, rev, o, d); (m', rev', if ok then Done else Failed)
  }

  /** Directories, store, revision and answer after CreateVolume, from the copy that was found. */
  function CreateResult(view: Option<LocalStorage>, valid: bool, v: Volume, dir: DirResult, d: Delivery,
                        dirs: set<string>, m: Store, rev: nat): (set<string>, Store, nat, Rpc)
  {
    if !valid then (dirs, m, rev, InvalidArgument)
    else if view.None? || dir.DirFailed? then (dirs, m, rev, Failed)
    else if dir.DirMadeButFailed? then (dirs + {v.volID}, m, rev, Failed)
    else var (m', rev', r) := SendResult(CreateEdit(view.value, v), d, m, rev); (dirs + {v.volID}, m', rev', r)
  }

  /** The same for DeleteVolume; the directory goes only after an accepted update. */
  function DeleteResult(view: Option<LocalStorage>, id: string, d: Delivery, rmOk: bool,
                        dirs: set<string>, m: Store, rev: nat): (set<string>, Store, nat, Rpc)
  {
    if id == "" then (dirs, m, rev, InvalidArgument)
    else if view.None? then (dirs, m, rev, Failed)
    else
      var (m', rev', r) := SendResult(DeleteEdit(view.value, id), d, m, rev);
      if !r.Done? then (dirs, m', rev', r)
      else if !rmOk then (dirs, m', rev', Failed)
      else (dirs - {id}, m', rev', Done)
  }

  /** CreateResult keeps the promise of CreateVolume, for every copy that may be in the lister. */
  lemma CreateKeepsPromise(view: Option<LocalStorage>, name: string, hasCapabilities: bool, uuid: string, path: string, size: int,
                           dir: DirResult, d: Delivery, dirs: set<string>, m: Store, rev: nat)
    ensures var (dirs', m', rev', r) := CreateResult(view, name != "" && hasCapabilities, Volume(name, uuid, path, size, "", false), dir, d, dirs, m, rev);
            (view.Some? ==> Genuine(m, view.value)) ==> CreatePromise(view, name, hasCapabilities, uuid, path, size, dir, d, dirs, m, rev, dirs', m', rev', r)
  {
    var v := Volume(name, uuid, path, size, "", false);
    if view.Some? && Genuine(m, view.value) && view.value.status.allocatable.Some? {
      SentSays(m, rev, view.value, CreateEdit(view.value, v).value, d);
      ContainsIff(view.value.status.volumes, uuid);
    }
  }

  /** On unique IDs the edit takes the volume out and gives back its bytes; it changes something exactly if the
      ID was there. */
  lemma DeleteEditSays(o: LocalStorage, id: string)
    requires DistinctIds(o.status.volumes) && o.status.allocatable.Some?
    ensures var st := o.status;
            DeleteEdit(o, id).Some? && DeleteEdit(o, id).value ==
              o.(status := Status(st.phase, Some(st.allocatable.value + SizeOf(st.volumes, id)), st.capacity, Without(st.volumes, id)))
    ensures DeleteEdit(o, id).value.status != o.status <==> id in Ids(o.status.volumes)
  {
    RemoveVolumeOnDistinct(o.status.volumes, id);
  }

  /** DeleteResult keeps the promise of DeleteVolume. */
  lemma DeleteKeepsPromise(view: Option<LocalStorage>, id: string, d: Delivery, rmOk: bool, dirs: set<string>, m: Store, rev: nat)
    ensures var (dirs', m', rev', r) := DeleteResult(view, id, d, rmOk, dirs, m, rev);
            (view.Some? ==> Genuine(m, view.value)) ==> DeletePromise(view, id, d, rmOk, dirs, m, rev, dirs', m', rev', r)
  {
    if view.Some? && Genuine(m, view.value) && view.value.status.allocatable.Some? {
      DeleteEditSays(view.value, id);
      SentSays(m, rev, view.value, DeleteEdit(view.value, id).value, d);
    }
  }

  method SendCreate(api: Server, o: LocalStorageObject, v: Volume, d: Delivery) returns (r: Rpc)
    requires o.Valid()
    modifies api
    ensures (api.store, api.rev, r) == SendResult(CreateEdit(old(o.Value()), v), d, old(api.store), old(api.rev))
  {
    var s, edited := EditForCreate(o, v);
    if !edited {
      return Panicked;
    }
    var ok := SendUpdate(api, s, d);
    r := if ok then Done else Failed;
  }

  method SendDelete(api: Server, o: LocalStorageObject, id: string, d: Delivery) returns (r: Rpc)
    requires o.Valid()
    modifies api
    ensures (api.store, api.rev, r) == SendResult(DeleteEdit(old(o.Value()), id), d, old(api.store), old(api.rev))
  {
    var s, edited := EditForDelete(o, id);
    if !edited {
      return Panicked;
    }
    var ok := SendUpdate(api, s, d);
    r := if ok then Done else Failed;
  }

  ghost predicate AllValid(list: seq<LocalStorageObject>)
    reads list
  {
    forall i :: 0 <= i < |list| ==> list[i].Valid()
  }

  class NodePlugin {
    const node: string
    const volumeDir: string
    const api: Server
    const queue: WorkQueue
    var lister: seq<LocalStorageObject>
    var dirs: set<string>

    constructor (node: string, volumeDir: string, api: Server)
      ensures this.node == node && this.volumeDir == volumeDir && this.api == api
      ensures lister == [] && dirs == {} && fresh(queue) && queue.Q() == Workqueue.NO_WORK
    {
      this.node, this.volumeDir, this.api := node, volumeDir, api;
      lister, dirs := [], {};
      queue := new WorkQueue();
    }

    function VolumeFor(name: string, uuid: string, size: int): Volume {
      Volume(name, uuid, volumeDir + "/" + uuid, size, "", false)
    }

    /** CreateVolume: the directory first, then the edited copy. No lister object is in the frame. */
    method CreateVolume(name: string, hasCapabilities: bool, uuid: string, size: int, dir: DirResult, d: Delivery)
      returns (r: Rpc, ghost at: nat)
      requires AllValid(lister)
      modifies `dirs, api
      ensures IsFirst(lister, at, node)
      ensures var view := if at < |lister| then Some(old(lister[at].Value())) else None;
              (dirs, api.store, api.rev, r) ==
              CreateResult(view, name != "" && hasCapabilities, VolumeFor(name, uuid, size), dir, d, old(dirs), old(api.store), old(api.rev))
      ensures var view := if at < |lister| then Some(old(lister[at].Value())) else None;
              (view.Some? ==> Genuine(old(api.store), view.value)) ==>
              CreatePromise(view, name, hasCapabilities, uuid, volumeDir + "/" + uuid, size, dir, d,
                            old(dirs), old(api.store), old(api.rev), dirs, api.store, api.rev, r)
    {
      var i := FindByNode(lister, node);
      at := i;
      ghost var view := if i < |lister| then Some(lister[i].Value()) else None;
      CreateKeepsPromise(view, name, hasCapabilities, uuid, volumeDir + "/" + uuid, size, dir, d, dirs, api.store, api.rev);
      if name == "" || !hasCapabilities {
        r := InvalidArgument;
      } else if i == |lister| || dir.DirFailed? {
        r := Failed;
      } else {
        dirs := dirs + {uuid};
        if dir.DirMadeButFailed? {
          r := Failed;
        } else {
          r := SendCreate(api, lister[i], VolumeFor(name, uuid, size), d);
        }
      }
    }

    /** DeleteVolume: the edited copy first, then the directory. */
    method DeleteVolume(id: string, d: Delivery, rmOk: bool) returns (r: Rpc, ghost at: nat)
      requires AllValid(lister)
      modifies `dirs, api
      ensures IsFirst(lister, at, node)
      ensures var view := if at < |lister| then Some(old(lister[at].Value())) else None;
              (dirs, api.store, api.rev, r) == DeleteResult(view, id, d, rmOk, old(dirs), old(api.store), old(api.rev))
      ensures var view := if at < |lister| then Some(old(lister[at].Value())) else None;
              (view.Some? ==> Genuine(old(api.store), view.value)) ==>
              DeletePromise(view, id, d, rmOk, old(dirs), old(api.store), old(api.rev), dirs, api.store, api.rev, r)
    {
      var i := FindByNode(lister, node);
      at := i;
      ghost var view := if i < |lister| then Some(lister[i].Value()) else None;
      DeleteKeepsPromise(view, id, d, rmOk, dirs, api.store, api.rev);
      if id == "" {
        r := InvalidArgument;
      } else if i == |lister| {
        r := Failed;
      } else {
        r := SendDelete(api, lister[i], id, d);
        if r.Done? {
          if rmOk {
            dirs := dirs - {id};
          } else {
            r := Failed;
          }
        }
      }
    }

    /** sync: the decision of Reconcile.Sync on the copy found under the key. */
    method SyncKey(key: string, dirOk: bool, d: Delivery) returns (failed: bool, ghost at: nat)
      requires AllValid(lister)
      modifies api
      ensures IsNamed(lister, at, key)
      ensures var view := if at < |lister| then Some(old(lister[at].Value())) else None;
              (api.store, api.rev, failed) == SyncResult(view, dirOk, d, old(api.store), old(api.rev))
      ensures var view := if at < |lister| then Some(old(lister[at].Value())) else None;
              (view.Some? ==> Genuine(old(api.store), view.value)) ==>
              SyncPromise(view, dirOk, d, old(api.store), old(api.rev), api.store, api.rev, failed)
    {
      var i := FindByName(lister, key);
      at := i;
      ghost var view := if i < |lister| then Some(lister[i].Value()) else None;
      SyncKeepsPromise(view, dirOk, d, api.store, api.rev);
      if i == |lister| {
        return false, at;
      }
      failed := SendSync(api, lister[i], dirOk, d);
    }

    /** processNextWorkItem on the key that Get returned. */
    method ProcessNextWorkItem(key: string, dirOk: bool, d: Delivery) returns (ghost failed: bool, ghost at: nat)
      requires AllValid(lister) && key in queue.active
      modifies api, queue
      ensures IsNamed(lister, at, key)
      ensures var view := if at < |lister| then Some(old(lister[at].Value())) else None;
              (api.store, api.rev, failed) == SyncResult(view, dirOk, d, old(api.store), old(api.rev))
      ensures var view := if at < |lister| then Some(old(lister[at].Value())) else None;
              (view.Some? ==> Genuine(old(api.store), view.value)) ==>
              SyncPromise(view, dirOk, d, old(api.store), old(api.rev), api.store, api.rev, failed)
      ensures queue.Q() == Workqueue.HandleErr(Workqueue.Take(old(queue.Q()), key), key, failed)
    {
      queue.Take(key);
      var bad;
      bad, at := SyncKey(key, dirOk, d);
      failed := bad;
      queue.HandleErr(key, bad);
    }
  }

  // ---------- sync ----------

  /** Store, revision and whether an error was returned; a missing object is no error. */
  function SyncResult(view: Option<LocalStorage>, dirOk: bool, d: Delivery, m: Store, rev: nat): (Store, nat, bool) {
    if view.None? then (m, rev, false)
    else match Sync(view.value, dirOk)
      case Finish => (m, rev, false)
      case Fail => (m, rev, true)
      case Write(o) => var (m', rev', ok) := Sent(m, rev, o, d); (m', rev', !ok)
  }

  /** SyncResult keeps the promise of sync. */
  lemma SyncKeepsPromise(view: Option<LocalStorage>, dirOk: bool, d: Delivery, m: Store, rev: nat)
    ensures var (m', rev', failed) := SyncResult(view, dirOk, d, m, rev);
            (view.Some? ==> Genuine(m, view.value)) ==> SyncPromise(view, dirOk, d, m, rev, m', rev', failed)
  {
    if view.Some? && Genuine(m, view.value) {
      var o := view.value;
      SyncSays(o, dirOk);
      if Sync(o, dirOk).Write? {
        var w := Sync(o, dirOk).obj;
        SentSays(m, rev, o, w, d);
        assert Aims(o, dirOk, w.status);
        assert forall st :: Aims(o, dirOk, st) ==> st == w.status;
      }
    }
  }

  method SendSync(api: Server, o: LocalStorageObject, dirOk: bool, d: Delivery) returns (failed: bool)
    requires o.Valid()
    modifies api
    ensures (api.store, api.rev, failed) == SyncResult(Some(old(o.Value())), dirOk, d, old(api.store), old(api.rev))
  {
    ghost var decision;
    var s, write;
    s, decision, write, failed := EditForSync(o, dirOk);
    if write {
      var ok := SendUpdate(api, s, d);
      failed := !ok;
    }
  }

  // ---------- the controller ----------

  function SyncStorageResult(view: Option<LocalStorage>, d: Delivery, m: Store, rev: nat): (Store, nat, bool) {
    if view.None? then (m, rev, false)
    else match SyncStorage(view.value)
      case Write(o) => var (m', rev', ok) := Sent(m, rev, o, d); (m', rev', !ok)
      case _ => (m, rev, false)
  }

  /** SyncStorageResult keeps the promise of syncStorage. */
  lemma SyncStorageKeepsPromise(view: Option<LocalStorage>, d: Delivery, m: Store, rev: nat)
    ensures var (m', rev', failed) := SyncStorageResult(view, d, m, rev);
            (view.Some? ==> Genuine(m, view.value)) ==> SyncStoragePromise(view, d, m, rev, m', rev', failed)
  {
    if view.Some? && Genuine(m, view.value) {
      SyncStorageSays(view.value);
      if NeedsController(view.value) {
        SentSays(m, rev, view.value, SyncStorage(view.value).obj, d);
      }
    }
  }

  method EditForSyncStorage(o: LocalStorageObject) returns (s: LocalStorageObject, ghost decision: Decision, write: bool)
    requires o.Valid()
    ensures fresh(s) && s.Valid()
    ensures decision == SyncStorage(old(o.Value())) && !decision.Fail?
    ensures write <==> decision.Write?
    ensures write ==> s.Value() == decision.obj
  {
    decision := SyncStorage(o.Value());
    s := o.DeepCopy();
    write := false;
    if s.meta.marked {
      if s.phase != Terminating {
        s.SetPhase(Terminating);
        write := true;
      }
    } else if s.phase == Pending {
      s.SetPhase(Initiating);
      write := true;
    }
  }

  method SendSyncStorage(api: Server, o: LocalStorageObject, d: Delivery) returns (failed: bool)
    requires o.Valid()
    modifies api
    ensures (api.store, api.rev, failed) == SyncStorageResult(Some(old(o.Value())), d, old(api.store), old(api.rev))
  {
    failed := false;
    ghost var decision;
    var s, write;
    s, decision, write := EditForSyncStorage(o);
    if write {
      var ok := SendUpdate(api, s, d);
      failed := !ok;
    }
  }

  class StorageController {
    const api: Server
    const queue: WorkQueue
    var lister: seq<LocalStorageObject>

    constructor (api: Server)
      ensures this.api == api && lister == [] && fresh(queue) && queue.Q() == Workqueue.NO_WORK
    {
      this.api := api;
      lister := [];
      queue := new WorkQueue();
    }

    method ProcessNextWorkItem(key: string, d: Delivery) returns (ghost failed: bool, ghost at: nat)
      requires AllValid(lister) && key in queue.active
      modifies api, queue
      ensures IsNamed(lister, at, key)
      ensures var view := if at < |lister| then Some(old(lister[at].Value())) else None;
              (api.store, api.rev, failed) == SyncStorageResult(view, d, old(api.store), old(api.rev))
      ensures var view := if at < |lister| then Some(old(lister[at].Value())) else None;
              (view.Some? ==> Genuine(old(api.store), view.value)) ==>
              SyncStoragePromise(view, d, old(api.store), old(api.rev), api.store, api.rev, failed)
      ensures queue.Q() == Workqueue.HandleErr(Workqueue.Take(old(queue.Q()), key), key, failed)
    {
      queue.Take(key);
      var i := FindByName(lister, key);
      at := i;
      ghost var view := if i < |lister| then Some(lister[i].Value()) else None;
      SyncStorageKeepsPromise(view, d, api.store, api.rev);
      var bad := false;
      if i < |lister| {
        bad := SendSyncStorage(api, lister[i], d);
      }
      failed := bad;
      queue.HandleErr(key, bad);
    }
  }

  // ---------- the calls are the steps of the protocol ----------

  function AsServer(h: Hist): (Store, nat)
    requires h.snaps != []
  {
    (Cur(h), |h.snaps| - 1)
  }

  lemma SubmitIsSent(h: Hist, c: Commit, o: LocalStorage, d: Delivery)
    requires h.snaps != [] && !d.NeverSent? && !d.InFlight?
    ensures var (h', r) := Submit(h, c, o); var (m, rev) := AsServer(h);
            Sent(m, rev, o, d) == (AsServer(h').0, AsServer(h').1, d.Answered? && Accepted(r))
  {
  }

  /** CreateVolume is CreateBegin followed by Send. */
  lemma CreateVolumeIsTwoSteps(s: Sys, n: string, k: string, v: Volume, dir: DirResult, d: Delivery)
    requires |s.h.snaps| == |s.h.log| + 1 && n in s.plugins && CreateEnabled(s, n, k, v)
    ensures var s1 := Next(s, ByPlugin(n, CreateBegin(k, v, dir))); var s2 := Next(s1, ByPlugin(n, Send(d)));
            var view := Some(s.h.snaps[s.plugins[n].seen][k]);
            var (dirs, m, rev, _) := CreateResult(view, true, v, dir, d, s.plugins[n].dirs, AsServer(s.h).0, AsServer(s.h).1);
            && s2.plugins[n].op.Idle? && s2.plugins[n].dirs == dirs && AsServer(s2.h) == (m, rev)
  {
    var view := s.h.snaps[s.plugins[n].seen][k];
    var s1 := Next(s, ByPlugin(n, CreateBegin(k, v, dir)));
    if dir.DirMade? && CreateEdit(view, v).Some? && !d.NeverSent? && !d.InFlight? {
      assert s1.plugins[n].op == Creating(view, v);
      SubmitIsSent(s.h, Commit(PluginOn(n), VolumeAdded(view.name, v)), CreateEdit(view, v).value, d);
    }
  }

  /** DeleteVolume is DeleteBegin, Send and RemoveDir. */
  lemma DeleteVolumeIsThreeSteps(s: Sys, n: string, k: string, id: string, d: Delivery, rmOk: bool)
    requires |s.h.snaps| == |s.h.log| + 1 && n in s.plugins && s.plugins[n].op.Idle? && s.plugins[n].seen < |s.h.snaps|
    requires Bound(s.h.snaps[s.plugins[n].seen], k, n) && id != ""
    ensures var s1 := Next(s, ByPlugin(n, DeleteBegin(k, id))); var s2 := Next(s1, ByPlugin(n, Send(d)));
            var s3 := Next(s2, ByPlugin(n, RemoveDir(rmOk)));
            var view := Some(s.h.snaps[s.plugins[n].seen][k]);
            var (dirs, m, rev, _) := DeleteResult(view, id, d, rmOk, s.plugins[n].dirs, AsServer(s.h).0, AsServer(s.h).1);
            && s3.plugins[n].op.Idle? && s3.plugins[n].dirs == dirs && AsServer(s3.h) == (m, rev)
  {
    var view := s.h.snaps[s.plugins[n].seen][k];
    var s1 := Next(s, ByPlugin(n, DeleteBegin(k, id)));
    if DeleteEdit(view, id).Some? && !d.NeverSent? && !d.InFlight? {
      assert s1.plugins[n].op == Deleting(view, id);
      SubmitIsSent(s.h, Commit(PluginOn(n), VolumeRemoved(view.name, id)), DeleteEdit(view, id).value, d);
    }
  }

  /** A work item of the plugin is Get, SyncBegin and Send. */
  lemma WorkItemIsThreeSteps(s: Sys, n: string, k: string, dirOk: bool, d: Delivery)
    requires |s.h.snaps| == |s.h.log| + 1 && n in s.plugins && s.plugins[n].op.Idle? && s.plugins[n].seen < |s.h.snaps|
    requires s.plugins[n].work.None? && k in s.plugins[n].queue.active
    requires k in s.h.snaps[s.plugins[n].seen] ==> s.h.snaps[s.plugins[n].seen][k].name == k
    ensures var s1 := Next(s, ByPlugin(n, Get(k))); var s2 := Next(s1, ByPlugin(n, SyncBegin(dirOk))); var s3 := Next(s2, ByPlugin(n, Send(d)));
            var shown := s.h.snaps[s.plugins[n].seen];
            var (m, rev, failed) := SyncResult(if k in shown then Some(shown[k]) else None, dirOk, d, AsServer(s.h).0, AsServer(s.h).1);
            && s3.plugins[n].op.Idle? && s3.plugins[n].work.None? && AsServer(s3.h) == (m, rev)
            && s3.plugins[n].queue == Workqueue.HandleErr(Workqueue.Take(s.plugins[n].queue, k), k, failed)
  {
    var shown := s.h.snaps[s.plugins[n].seen];
    var s1 := Next(s, ByPlugin(n, Get(k)));
    var s2 := Next(s1, ByPlugin(n, SyncBegin(dirOk)));
    if k in shown && Sync(shown[k], dirOk).Write? {
      assert s2.plugins[n].op == Syncing(shown[k]) && Sync(shown[k], true) == Sync(shown[k], dirOk);
      if !d.NeverSent? && !d.InFlight? {
        var o := Sync(shown[k], true).obj;
        SubmitIsSent(s.h, Commit(PluginOn(n), PhaseAct(o)), o, d);
      }
    }
  }

  /** A work item of the controller is CtlGet, CtlBegin and CtlSend. */
  lemma ControllerItemIsThreeSteps(s: Sys, k: string, d: Delivery)
    requires |s.h.snaps| == |s.h.log| + 1 && s.ctl.seen < |s.h.snaps|
    requires k in s.ctl.queue.active && k !in s.ctl.got && k !in s.ctl.busy
    requires k in s.h.snaps[s.ctl.seen] ==> s.h.snaps[s.ctl.seen][k].name == k
    ensures var s1 := Next(s, ByController(CtlGet(k))); var s2 := Next(s1, ByController(CtlBegin(k))); var s3 := Next(s2, ByController(CtlSend(k, d)));
            var shown := s.h.snaps[s.ctl.seen];
            var (m, rev, failed) := SyncStorageResult(if k in shown then Some(shown[k]) else None, d, AsServer(s.h).0, AsServer(s.h).1);
            && k !in s3.ctl.got && k !in s3.ctl.busy && AsServer(s3.h) == (m, rev)
            && s3.ctl.queue == Workqueue.HandleErr(Workqueue.Take(s.ctl.queue, k), k, failed)
  {
    var shown := s.h.snaps[s.ctl.seen];
    if k in shown && SyncStorage(shown[k]).Write? && !d.NeverSent? && !d.InFlight? {
      var o := SyncStorage(shown[k]).obj;
      SubmitIsSent(s.h, Commit(Manager, PhaseAct(o)), o, d);
    }
  }
}
