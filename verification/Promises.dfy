/** What each call promises its caller, in terms of requests, copies and stores alone: when it succeeds, which
    answer it gives otherwise, and what is stored afterwards. */
module Promises {
  import opened Types
  import opened Volumes
  import opened Admission
  import opened Ledger
  import opened Protocol

  // ---------- updates ----------

  /** The copy carries the stored resource version. */
  predicate Stored(m: Store, o: LocalStorage) {
    o.name in m && m[o.name].rv == o.rv
  }

  /** What holds of every copy of a committed version: it is sound, and if its resource version is the stored
      one, it is what is stored. */
  ghost predicate Genuine(m: Store, o: LocalStorage) {
    Sound(o) && (Stored(m, o) ==> m[o.name] == o)
  }

  lemma VersionIsGenuine(h: Hist, o: LocalStorage)
    requires Valid(h) && IsVersion(h, o)
    ensures Genuine(Cur(h), o)
  {
    VersionSound(h, o);
    if Stored(Cur(h), o) {
      SameRvSameObject(h, o);
    }
  }

  /** An update may replace what is stored: its identity stays and its spec grows. */
  ghost predicate Admissible(prev: LocalStorage, cur: LocalStorage) {
    GoodName(cur.name) && cur.name == prev.name && cur.typeMeta == prev.typeMeta && Grows(prev.spec, cur.spec)
  }

  /** An update is stored, protected, with the next revision, exactly if it is current and admissible, changes
      something and does not let go of the last finalizer of a marked object; every other case has its answer. */
  lemma UpdateSays(m: Store, o: LocalStorage, rev: nat)
    requires o.name in m ==> WellFormed(m[o.name].spec)
    ensures var r := Update(m, o, rev); var current := Stored(m, o); var allowed := current && Admissible(m[o.name], o);
            var kept := o.(finalizers := if o.marked || LS_PROTECTION in o.finalizers then o.finalizers else o.finalizers + [LS_PROTECTION]);
            && (r.NotFound? <==> o.name !in m)
            && (r.Conflict? <==> o.name in m && !current)
            && (r.Rejected? <==> current && !allowed)
            && (r.Unchanged? <==> allowed && kept == m[o.name])
            && (r.Erased? <==> allowed && kept != m[o.name] && o.marked && o.finalizers == [])
            && (r.Replaced? ==> r.obj == kept.(rv := rev))
  {
    MutateSays(o, UpdateOp);
    if Stored(m, o) {
      UpdateAllowedIff(m[o.name], Mutate(o, UpdateOp));
    }
  }

  /** An update that changes only the status of a copy. */
  lemma StatusUpdateSays(m: Store, view: LocalStorage, o: LocalStorage, rev: nat)
    requires Genuine(m, view) && o == view.(status := o.status)
    ensures Update(m, o, rev) ==
            if view.name !in m then NotFound
            else if !Stored(m, view) then Conflict
            else if o == view then Unchanged
            else Replaced(o.(rv := rev))
  {
    StatusWritePasses(view, o);
  }

  /** The update reaches the API server while its sender waits. */
  predicate Delivered(d: Delivery) {
    d.Answered? || d.ReplyLost?
  }

  /** The store after a status write on a copy that was current. */
  function WithStatus(m: Store, o: LocalStorage, st: Status, rev: nat): Store {
    m[o.name := o.(status := st, rv := rev)]
  }

  // ---------- the CSI calls ----------

  datatype Rpc = Done | InvalidArgument | Failed | Panicked

  /** CreateVolume succeeds exactly if the request is valid, the node's object is found, the directory is made,
      Allocatable is set, the copy is current and the reply arrives. The ledger then has one volume more, as
      requested, and that many bytes less; a create whose reply is lost is in it too, and no other is. An ID
      that the copy already has is not listed again. */
  ghost predicate CreatePromise(view: Option<LocalStorage>, name: string, hasCapabilities: bool, uuid: string, path: string, size: int,
                                dir: DirResult, d: Delivery, dirs: set<string>, m: Store, rev: nat,
                                dirs': set<string>, m': Store, rev': nat, r: Rpc)
  {
    var asked := name != "" && hasCapabilities && view.Some?;
    var able := asked && dir.DirMade? && view.value.status.allocatable.Some?;
    var current := able && Stored(m, view.value);
    && (r.Done? <==> current && d.Answered?)
    && (r.InvalidArgument? <==> name == "" || !hasCapabilities)
    && (r.Panicked? <==> asked && dir.DirMade? && !able)
    && dirs' == (if asked && !dir.DirFailed? then dirs + {uuid} else dirs)
    && (!(current && Delivered(d)) ==> m' == m && rev' == rev)
    && (current && Delivered(d) ==>
          var st := view.value.status;
          var st' := Status(st.phase, Some(st.allocatable.value - size), st.capacity,
                            if uuid in Ids(st.volumes) then st.volumes else st.volumes + [Volume(name, uuid, path, size, "", false)]);
          if st' == st then m' == m && rev' == rev else m' == WithStatus(m, view.value, st', rev + 1) && rev' == rev + 1)
  }

  /** DeleteVolume succeeds exactly if an ID is given, the node's object is found, Allocatable is set, the copy is
      current, the reply arrives and the directory is removed. The ledger has then lost the volume and got
      back its bytes; an ID that it does not have leaves it as it is. */
  ghost predicate DeletePromise(view: Option<LocalStorage>, id: string, d: Delivery, rmOk: bool, dirs: set<string>, m: Store, rev: nat,
                                dirs': set<string>, m': Store, rev': nat, r: Rpc)
  {
    var asked := id != "" && view.Some?;
    var able := asked && view.value.status.allocatable.Some?;
    var current := able && Stored(m, view.value);
    && (r.Done? <==> current && d.Answered? && rmOk)
    && (r.InvalidArgument? <==> id == "")
    && (r.Panicked? <==> asked && !able)
    && dirs' == (if current && d.Answered? && rmOk then dirs - {id} else dirs)
    && (!(current && Delivered(d)) || id !in Ids(view.value.status.volumes) ==> m' == m && rev' == rev)
    && (current && Delivered(d) && id in Ids(view.value.status.volumes) ==>
          var st := view.value.status;
          && rev' == rev + 1
          && m' == WithStatus(m, view.value, Status(st.phase, Some(st.allocatable.value + SizeOf(st.volumes, id)), st.capacity,
                                                    Without(st.volumes, id)), rev + 1))
  }

  // ---------- the reconcilers ----------

  /** The size that a node with a path backend gets, by its annotation. */
  predicate IsNodeSize(note: SizeNote, size: int) {
    (note.NoNote? && size == 500 * 1024 * 1024 * 1024) || (note.Bytes? && size == note.size)
  }

  /** The status that sync means to write, if it means to write any. */
  ghost predicate Aims(o: LocalStorage, dirOk: bool, st: Status) {
    if o.status.phase == Pending then st == o.status.(phase := Initiating)
    else
      && o.spec.path.Some? && o.spec.lvm.None? && dirOk
      && st.phase == Ready && st.volumes == o.status.volumes && st.allocatable == st.capacity
      && st.capacity.Some? && IsNodeSize(o.note, st.capacity.value)
  }

  /** sync returns an error exactly for a path that it cannot set up, for two backends, or for a write that is not
      known to have succeeded; it writes what it aims at exactly if the copy is current and the write arrives. */
  ghost predicate SyncPromise(view: Option<LocalStorage>, dirOk: bool, d: Delivery, m: Store, rev: nat, m': Store, rev': nat, failed: bool) {
    if view.None? then !failed && m' == m && rev' == rev
    else
      var o := view.value;
      var refused := o.status.phase != Pending && o.spec.path.Some? && (o.spec.lvm.Some? || o.note.Malformed? || !dirOk);
      var aims := exists st :: Aims(o, dirOk, st);
      && (failed <==> refused || (aims && !(Stored(m, o) && d.Answered?)))
      && (!(aims && Stored(m, o) && Delivered(d)) ==> m' == m && rev' == rev)
      && forall st :: Aims(o, dirOk, st) && Stored(m, o) && Delivered(d) ==>
           if st == o.status then m' == m && rev' == rev else m' == WithStatus(m, o, st, rev + 1) && rev' == rev + 1
  }

  /** syncStorage terminates a marked object that is not Terminating and initiates an unmarked Pending one, and
      returns an error exactly if such a write is not known to have succeeded. */
  ghost predicate SyncStoragePromise(view: Option<LocalStorage>, d: Delivery, m: Store, rev: nat, m': Store, rev': nat, failed: bool) {
    if view.None? then !failed && m' == m && rev' == rev
    else
      var o := view.value;
      var due := if o.marked then o.status.phase != Terminating else o.status.phase == Pending;
      && (failed <==> due && !(Stored(m, o) && d.Answered?))
      && (if due && Stored(m, o) && Delivered(d)
          then m' == WithStatus(m, o, o.status.(phase := if o.marked then Terminating else Initiating), rev + 1) && rev' == rev + 1
          else m' == m && rev' == rev)
  }

  // ---------- users ----------

  /** A user's edit of a stored object: refused exactly if it changes the type or shrinks the spec; otherwise it is
      stored with the protection it needs, or lets a marked object go. */
  lemma UserEditSays(h: Hist, key: string, tm: TypeMeta, note: SizeNote, fs: seq<string>, spec: Spec)
    requires Valid(h) && key in Cur(h)
    ensures var prev, h' := Cur(h)[key], UserNext(h, Edit(key, tm, note, fs, spec));
            if tm != prev.typeMeta || !Grows(prev.spec, spec) then h' == h
            else if prev.marked && fs == [] then Cur(h') == Cur(h) - {key}
            else
              var kept := if prev.marked || LS_PROTECTION in fs then fs else fs + [LS_PROTECTION];
              && key in Cur(h') && Cur(h')[key].note == note && Cur(h')[key].spec == spec && Cur(h')[key].finalizers == kept
              && Cur(h')[key].status == prev.status && Cur(h')[key].marked == prev.marked && Cur(h')[key].uid == prev.uid
              && forall k :: k != key ==> (k in Cur(h') <==> k in Cur(h)) && (k in Cur(h) ==> Cur(h')[k] == Cur(h)[k])
  {
    HistorySound(h, |h.snaps| - 1);
    var o := Cur(h)[key].(typeMeta := tm, note := note, finalizers := fs, spec := spec);
    UpdateSays(Cur(h), o, |h.snaps|);
  }

  /** A user's create is stored exactly if the name is new, name and spec are well-formed, the node exists and is
      free; it then starts Pending, protected and without quantities or volumes. */
  lemma UserCreateSays(h: Hist, obj: LocalStorage, kubeNodes: set<string>, list: seq<LocalStorage>)
    requires Valid(h) && Lists(list, Cur(h))
    ensures var h' := UserNext(h, Create(obj, kubeNodes, list));
            if obj.name !in Cur(h) && GoodName(obj.name) && WellFormed(obj.spec) && obj.spec.node in kubeNodes
               && (forall k :: k in Cur(h) ==> Cur(h)[k].spec.node != obj.spec.node)
            then
              && obj.name in Cur(h') && LS_PROTECTION in Cur(h')[obj.name].finalizers
              && Cur(h')[obj.name] == obj.(uid := |h.snaps|, rv := |h.snaps|, marked := false, finalizers := Cur(h')[obj.name].finalizers,
                                           status := Status(Pending, None, None, []))
              && (forall f :: f in obj.finalizers ==> f in Cur(h')[obj.name].finalizers)
              && Cur(h') == Cur(h)[obj.name := Cur(h')[obj.name]]
            else h' == h
  {
    var o := obj.(marked := false, status := Status(Unset, None, None, []));
    MutateSays(o, CreateOp);
    CreateAllowedIff(Mutate(o, CreateOp), kubeNodes, list);
    assert (forall k :: k in Cur(h) ==> Cur(h)[k].spec.node != obj.spec.node) <==> forall other :: other in list ==> other.spec.node != obj.spec.node;
  }

  /** A user's delete marks an unmarked object once; every object has a finalizer, so none goes away at once. */
  lemma UserDeleteSays(h: Hist, key: string)
    requires Valid(h)
    ensures var h' := UserNext(h, Delete(key));
            if key in Cur(h) && !Cur(h)[key].marked
            then Cur(h') == Cur(h)[key := Cur(h)[key].(marked := true, rv := |h.snaps|)]
            else h' == h
  {
    HistorySound(h, |h.snaps| - 1);
  }
}
