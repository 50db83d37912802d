/** The values that the API server stores: one LocalStorage object per node. */
module Types {

  datatype Option<+T> = None | Some(value: T)

  /** Unset is the empty string, which is how an object arrives before admission fills it in. */
  datatype Phase = Unset | Pending | Initiating | Ready | Terminating | Extending | Maintaining | Unknown

  datatype Volume = Volume(volName: string, volID: string, volPath: string, volSize: int, nodeID: string, attached: bool)

  /** Go's zero value, which RemoveVolume returns when nothing matched. */
  const NO_VOLUME := Volume("", "", "", 0, "", false)

  datatype DiskSpec = DiskSpec(name: string, identifier: string)

  datatype PathSpec = PathSpec(volumeDir: string)

  datatype LvmSpec = LvmSpec(volumeGroup: string, disks: seq<DiskSpec>)

  datatype Spec = Spec(node: string, path: Option<PathSpec>, lvm: Option<LvmSpec>)

  /** Quantities are exact integers; None is the nil pointer. */
  datatype Status = Status(phase: Phase, allocatable: Option<int>, capacity: Option<int>, volumes: seq<Volume>)

  datatype TypeMeta = TypeMeta(apiVersion: string, kind: string)

  /** The node-size annotation: absent, a text that is no quantity, or a quantity. */
  datatype SizeNote = NoNote | Malformed | Bytes(size: int)

  /** marked says that the deletion timestamp is set; rv is the resource version. */
  datatype LocalStorage = LocalStorage(
    name: string, typeMeta: TypeMeta, uid: nat, rv: nat, marked: bool,
    finalizers: seq<string>, note: SizeNote, spec: Spec, status: Status)

  type Store = map<string, LocalStorage>

  /** "500Gi", the capacity of a path backend without annotation. */
  const DEFAULT_PATH_SIZE := 500 * 0x4000_0000

  const NEW_STATUS := Status(Pending, None, None, [])

  predicate Early(o: LocalStorage) {
    o.status.phase == Pending || o.status.phase == Initiating
  }

  /** FilterFunc of the plugin's informer. */
  predicate Assigned(o: LocalStorage, node: string) {
    o.spec.node == node && Early(o)
  }

  function WithPhase(o: LocalStorage, phase: Phase): LocalStorage {
    o.(status := o.status.(phase := phase))
  }
}
