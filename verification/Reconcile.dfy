/** What each component writes, as a function of the copy it read: the decisions of sync and
    syncStorage, and the edits of CreateVolume and DeleteVolume. */
module Reconcile {
  import opened Types
  import opened Volumes
  import opened Ledger

  /** Finish: return nil without writing. Fail: return an error without writing. */
  datatype Decision = Finish | Fail | Write(obj: LocalStorage)

  /** The plugin's sync; dirOk is whether the volume base directory could be made. */
  function Sync(o: LocalStorage, dirOk: bool): Decision {
    if o.status.phase == Pending then Write(WithPhase(o, Initiating))
    else if o.spec.path.None? && o.spec.lvm.None? then Finish
    else if o.spec.path.Some? && o.spec.lvm.Some? then Fail
    else if o.spec.path.Some? && NoteSize(o.note).None? then Fail
    else if o.spec.path.Some? && !dirOk then Fail
    else if o.spec.lvm.Some? then Finish
    else
      var size := NoteSize(o.note);
      Write(o.(status := o.status.(phase := Ready, capacity := size, allocatable := size)))
  }

  /** The controller's syncStorage. */
  function SyncStorage(o: LocalStorage): Decision {
    if o.marked then
      if o.status.phase != Terminating then Write(WithPhase(o, Terminating)) else Finish
    else if o.status.phase == Pending then Write(WithPhase(o, Initiating))
    else Finish
  }

  /** What sync does, by phase, backend, annotation and directory: a Pending object is initiated; one with a
      path only becomes Ready with the size of its annotation, or 500Gi without one, if the size parses and
      the directory can be made, and is an error otherwise; any other waits. */
  lemma SyncSays(o: LocalStorage, dirOk: bool)
    ensures Sync(o, dirOk).Write? <==>
              o.status.phase == Pending || (o.spec.path.Some? && o.spec.lvm.None? && !o.note.Malformed? && dirOk)
    ensures Sync(o, dirOk).Fail? <==>
              o.status.phase != Pending && o.spec.path.Some? && (o.spec.lvm.Some? || o.note.Malformed? || !dirOk)
    ensures Sync(o, dirOk).Write? ==>
              Sync(o, dirOk).obj ==
              if o.status.phase == Pending then o.(status := o.status.(phase := Initiating))
              else
                var size := if o.note.NoNote? then 500 * 1024 * 1024 * 1024 else o.note.size;
                o.(status := Status(Ready, Some(size), Some(size), o.status.volumes))
  {
  }

  /** The controller still has something to do for this version. */
  predicate NeedsController(o: LocalStorage) {
    if o.marked then o.status.phase != Terminating else o.status.phase == Pending
  }

  /** What syncStorage does, by mark and phase. */
  lemma SyncStorageSays(o: LocalStorage)
    ensures !SyncStorage(o).Fail? && (SyncStorage(o).Write? <==> NeedsController(o))
    ensures NeedsController(o) ==>
              SyncStorage(o).obj == o.(status := o.status.(phase := if o.marked then Terminating else Initiating))
  {
  }

  /** CreateVolume's edit; nil Allocatable is dereferenced, so there is no edit. */
  function CreateEdit(o: LocalStorage, v: Volume): Option<LocalStorage> {
    if o.status.allocatable.None? then None
    else Some(o.(status := o.status.(volumes := AddVolume(o.status.volumes, v),
                                     allocatable := Some(o.status.allocatable.value - v.volSize))))
  }

  function DeleteEdit(o: LocalStorage, id: string): Option<LocalStorage> {
    if o.status.allocatable.None? then None
    else
      var (vs, got) := RemoveVolume(o.status.volumes, id);
      Some(o.(status := o.status.(volumes := vs, allocatable := Some(o.status.allocatable.value + got.volSize))))
  }

  /** The ledger act that a phase write stands for. */
  function PhaseAct(o: LocalStorage): Act {
    match o.status.phase
    case Initiating => Initiated(o.name)
    case Ready => MadeReady(o.name, if o.status.capacity.Some? then o.status.capacity.value else 0)
    case _ => Terminated(o.name)
  }
}
