/** The atomic ledger machine: every write takes effect in one step on the current store.
    A history is a run of it, with all past stores kept; the n-th commit gives resource version n. */
module Ledger {
  import opened Types
  import opened Volumes
  import opened Admission

  datatype Writer = User | Manager | PluginOn(node: string)

  datatype Act =
    | Born(name: string, typeMeta: TypeMeta, note: SizeNote, finalizers: seq<string>, spec: Spec)
    | Edited(name: string, note: SizeNote, finalizers: seq<string>, spec: Spec)
    | Marked(name: string)
    | Removed(name: string)
    | Initiated(name: string)
    | MadeReady(name: string, size: int)
    | Terminated(name: string)
    | VolumeAdded(name: string, vol: Volume)
    | VolumeRemoved(name: string, id: string)

  datatype Commit = Commit(who: Writer, act: Act)

  datatype Hist = Hist(snaps: seq<Store>, log: seq<Commit>)

  function NoteSize(note: SizeNote): Option<int> {
    match note
    case NoNote => Some(DEFAULT_PATH_SIZE)
    case Malformed => None
    case Bytes(n) => Some(n)
  }

  ghost predicate Can(c: Commit, m: Store) {
    if c.act.Born? then
      && c.who.User? && c.act.name !in m && GoodName(c.act.name) && WellFormed(c.act.spec)
      && LS_PROTECTION in c.act.finalizers
      && forall k :: k in m ==> m[k].spec.node != c.act.spec.node
    else
      && c.act.name in m
      && var o := m[c.act.name];
         match c.act
         case Edited(_, _, fs, spec) =>
           c.who.User? && Grows(o.spec, spec) && fs != [] && (!o.marked ==> LS_PROTECTION in fs)
         case Marked(_) => c.who.User? && !o.marked
         case Removed(_) => c.who.User? && o.marked
         case Initiated(_) => o.status.phase == Pending && (c.who.PluginOn? || (c.who.Manager? && !o.marked))
         case MadeReady(_, size) =>
           && c.who.PluginOn? && o.status.phase != Pending
           && o.spec.path.Some? && NoteSize(o.note) == Some(size)
         case Terminated(_) => c.who.Manager? && o.marked && o.status.phase != Terminating
         case VolumeAdded(_, v) =>
           && c.who == PluginOn(o.spec.node) && o.status.allocatable.Some?
           && v.volSize >= 0 && v.volID !in Ids(o.status.volumes)
         case VolumeRemoved(_, id) =>
           c.who == PluginOn(o.spec.node) && o.status.allocatable.Some? && id in Ids(o.status.volumes)
  }

  /** The new version of the object that an act rewrites. */
  function Rewrite(a: Act, o: LocalStorage): LocalStorage {
    var st := o.status;
    match a
    case Born(_, _, _, _, _) => o
    case Removed(_) => o
    case Edited(_, note, fs, spec) => o.(note := note, finalizers := fs, spec := spec)
    case Marked(_) => o.(marked := true)
    case Initiated(_) => WithPhase(o, Initiating)
    case MadeReady(_, size) => o.(status := st.(phase := Ready, allocatable := Some(size), capacity := Some(size)))
    case Terminated(_) => WithPhase(o, Terminating)
    case VolumeAdded(_, v) =>
      if st.allocatable.None? then o
      else o.(status := st.(allocatable := Some(st.allocatable.value - v.volSize), volumes := st.volumes + [v]))
    case VolumeRemoved(_, id) =>
      if st.allocatable.None? then o
      else o.(status := st.(allocatable := Some(st.allocatable.value + SizeOf(st.volumes, id)),
                            volumes := Without(st.volumes, id)))
  }

  function Effect(a: Act, m: Store, rev: nat): Store {
    match a
    case Born(name, tm, note, fs, spec) =>
      m[name := LocalStorage(name, tm, rev, rev, false, fs, note, spec, NEW_STATUS)]
    case Removed(name) => m - {name}
    case _ => if a.name in m then m[a.name := Rewrite(a, m[a.name]).(rv := rev)] else m
  }

  /** The i-th commit was possible, and the next store is its effect. */
  ghost predicate CommitAt(h: Hist, i: nat)
    requires |h.snaps| == |h.log| + 1 && i < |h.log|
  {
    Can(h.log[i], h.snaps[i]) && h.snaps[i + 1] == Effect(h.log[i].act, h.snaps[i], i + 1)
  }

  ghost predicate Valid(h: Hist) {
    && |h.snaps| == |h.log| + 1
    && h.snaps[0] == map[]
    && forall i :: 0 <= i < |h.log| ==> CommitAt(h, i)
  }

  const EMPTY := Hist([map[]], [])

  function Cur(h: Hist): Store
    requires h.snaps != []
  {
    h.snaps[|h.snaps| - 1]
  }

  function Extend(h: Hist, c: Commit): Hist
    requires h.snaps != []
  {
    Hist(h.snaps + [Effect(c.act, Cur(h), |h.snaps|)], h.log + [c])
  }

  lemma ExtendValid(h: Hist, c: Commit)
    requires Valid(h) && Can(c, Cur(h))
    ensures Valid(Extend(h, c))
  {
    var h' := Extend(h, c);
    forall i | 0 <= i < |h'.log|
      ensures CommitAt(h', i)
    {
      if i < |h.log| {
        assert CommitAt(h, i);
      }
    }
  }

  // ---------- what every stored version satisfies ----------

  ghost predicate SoundStatus(st: Status) {
    && (st.phase == Pending || st.phase == Initiating || st.phase == Ready || st.phase == Terminating)
    && (st.phase == Pending || st.phase == Initiating ==> st.allocatable.None?)
    && (st.phase == Ready ==> st.allocatable.Some?)
    && (st.allocatable.Some? <==> st.capacity.Some?)
    && (st.allocatable.None? ==> st.volumes == [])
    && DistinctIds(st.volumes)
    && SizesNonNegative(st.volumes)
  }

  ghost predicate Sound(o: LocalStorage) {
    && GoodName(o.name)
    && WellFormed(o.spec)
    && SoundStatus(o.status)
    && (o.status.phase == Terminating ==> o.marked)
    && (o.status.capacity.Some? ==> o.spec.path.Some?)
    && o.finalizers != []
    && (!o.marked ==> LS_PROTECTION in o.finalizers)
  }

  ghost predicate SoundStore(m: Store) {
    && (forall k :: k in m ==> m[k].name == k && Sound(m[k]))
    && NodesUnique(m)
  }

  lemma RewriteSound(a: Act, o: LocalStorage, who: Writer, m: Store)
    requires !a.Born? && !a.Removed? && a.name in m && m[a.name] == o && Can(Commit(who, a), m) && Sound(o)
    ensures Sound(Rewrite(a, o)) && Rewrite(a, o).name == o.name && Rewrite(a, o).uid == o.uid
    ensures Grows(o.spec, Rewrite(a, o).spec)
    ensures Stage(o) <= Stage(Rewrite(a, o))
    ensures o.marked ==> Rewrite(a, o).marked
    ensures o.status.capacity.Some? ==> Rewrite(a, o).status.capacity.Some?
  {
    match a
    case VolumeAdded(_, v) => AddVolumeAppends(o.status.volumes, v);
    case VolumeRemoved(_, id) =>
      WithoutDropsExactly(o.status.volumes, id);
      WithoutKeepsDistinct(o.status.volumes, id);
    case _ =>
  }

  lemma ReplaceSound(m: Store, k: string, o: LocalStorage)
    requires SoundStore(m) && k in m && Sound(o) && o.name == k && o.spec.node == m[k].spec.node
    ensures SoundStore(m[k := o])
  {
    var m' := m[k := o];
    forall a, b | a in m' && b in m' && m'[a].spec.node == m'[b].spec.node
      ensures a == b
    {
      assert m[a].spec.node == m'[a].spec.node && m[b].spec.node == m'[b].spec.node;
    }
  }

  lemma EffectSound(c: Commit, m: Store, rev: nat)
    requires SoundStore(m) && Can(c, m)
    ensures SoundStore(Effect(c.act, m, rev))
  {
    var m' := Effect(c.act, m, rev);
    if c.act.Born? {
      UniqueAfterCreateIff(m, m'[c.act.name]);
      assert Sound(m'[c.act.name]);
    } else if c.act.Removed? {
      assert forall k :: k in m' ==> k in m && m'[k] == m[k];
    } else {
      RewriteSound(c.act, m[c.act.name], c.who, m);
      ReplaceSound(m, c.act.name, m'[c.act.name]);
    }
  }

  lemma {:induction false} HistorySound(h: Hist, i: nat)
    requires Valid(h) && i < |h.snaps|
    ensures SoundStore(h.snaps[i])
  {
    if i > 0 {
      HistorySound(h, i - 1);
      StepBack(h, i);
      EffectSound(h.log[i - 1], h.snaps[i - 1], i);
    }
  }

  // ---------- resource versions identify versions ----------

  /** What one commit does to one object. */
  lemma EffectOn(c: Commit, m: Store, rev: nat, k: string)
    requires Can(c, m) && k in Effect(c.act, m, rev)
    ensures var o := Effect(c.act, m, rev)[k];
            && (c.act.name == k ==> o.rv == rev && !c.act.Removed?)
            && (c.act.name != k ==> k in m && o == m[k])
            && (k !in m ==> c.act.Born? && c.act.name == k && o.uid == rev)
            && (k in m ==> o.uid == m[k].uid)
            && (k in m && c.act.name == k ==> !c.act.Born? && o == Rewrite(c.act, m[k]).(rv := rev))
  {
  }

  /** The commit before revision i, with its effect. */
  lemma StepBack(h: Hist, i: nat)
    requires Valid(h) && 0 < i < |h.snaps|
    ensures Can(h.log[i - 1], h.snaps[i - 1]) && h.snaps[i] == Effect(h.log[i - 1].act, h.snaps[i - 1], i)
  {
    assert CommitAt(h, i - 1);
  }

  lemma {:induction false} RvBound(h: Hist, i: nat, k: string)
    requires Valid(h) && i < |h.snaps| && k in h.snaps[i]
    ensures 1 <= h.snaps[i][k].uid <= h.snaps[i][k].rv <= i
  {
    if i > 0 {
      StepBack(h, i);
      EffectOn(h.log[i - 1], h.snaps[i - 1], i, k);
      if k in h.snaps[i - 1] {
        RvBound(h, i - 1, k);
      }
    }
  }

  /** A version is what the store held at every revision from its own on. */
  lemma {:induction false} VersionStable(h: Hist, i: nat, j: nat, k: string)
    requires Valid(h) && j <= i < |h.snaps| && k in h.snaps[i] && h.snaps[i][k].rv <= j
    ensures k in h.snaps[j] && h.snaps[j][k] == h.snaps[i][k]
    decreases i
  {
    if j < i {
      StepBack(h, i);
      EffectOn(h.log[i - 1], h.snaps[i - 1], i, k);
      VersionStable(h, i - 1, j, k);
    }
  }

  /** o is a version that was once committed. */
  ghost predicate IsVersion(h: Hist, o: LocalStorage) {
    o.rv < |h.snaps| && o.name in h.snaps[o.rv] && h.snaps[o.rv][o.name] == o
  }

  lemma SnapshotVersion(h: Hist, i: nat, k: string)
    requires Valid(h) && i < |h.snaps| && k in h.snaps[i]
    ensures IsVersion(h, h.snaps[i][k]) && h.snaps[i][k].name == k
  {
    HistorySound(h, i);
    RvBound(h, i, k);
    VersionStable(h, i, h.snaps[i][k].rv, k);
  }

  /** The compare-and-swap argument: equal resource versions mean equal objects. */
  lemma SameRvSameObject(h: Hist, view: LocalStorage)
    requires Valid(h) && IsVersion(h, view)
    requires view.name in Cur(h) && Cur(h)[view.name].rv == view.rv
    ensures Cur(h)[view.name] == view
  {
    SnapshotVersion(h, |h.snaps| - 1, view.name);
  }

  lemma VersionSound(h: Hist, o: LocalStorage)
    requires Valid(h) && IsVersion(h, o)
    ensures Sound(o)
  {
    HistorySound(h, o.rv);
  }

  // ---------- one object, followed through its life ----------

  /** Between two sightings with the same uid the object never left the store. */
  lemma {:induction false} SameLife(h: Hist, i: nat, j: nat, k: string)
    requires Valid(h) && i < j < |h.snaps| && k in h.snaps[i] && k in h.snaps[j]
    requires h.snaps[i][k].uid == h.snaps[j][k].uid
    ensures k in h.snaps[j - 1] && h.snaps[j - 1][k].uid == h.snaps[j][k].uid
  {
    StepBack(h, j);
    EffectOn(h.log[j - 1], h.snaps[j - 1], j, k);
    RvBound(h, i, k);
  }

  /** A uid is the revision at which the object was created, and what was created there. */
  lemma {:induction false} BornAtUid(h: Hist, i: nat, k: string)
    requires Valid(h) && i < |h.snaps| && k in h.snaps[i]
    ensures 1 <= h.snaps[i][k].uid <= i && h.log[h.snaps[i][k].uid - 1].act.Born? && h.log[h.snaps[i][k].uid - 1].act.name == k
  {
    if i > 0 {
      StepBack(h, i);
      EffectOn(h.log[i - 1], h.snaps[i - 1], i, k);
      if k in h.snaps[i - 1] {
        BornAtUid(h, i - 1, k);
      }
    }
  }

  /** Two sightings with the same uid have the same name. */
  lemma UidNamesOne(h: Hist, i: nat, a: string, j: nat, b: string)
    requires Valid(h) && i < |h.snaps| && j < |h.snaps| && a in h.snaps[i] && b in h.snaps[j]
    requires h.snaps[i][a].uid == h.snaps[j][b].uid
    ensures a == b
  {
    BornAtUid(h, i, a);
    BornAtUid(h, j, b);
  }

  function Stage(o: LocalStorage): nat {
    match o.status.phase
    case Pending => 0
    case Initiating => 1
    case _ => 2
  }

  /** b may follow a in the life of one object. */
  ghost predicate Follows(a: LocalStorage, b: LocalStorage) {
    && Grows(a.spec, b.spec)
    && Stage(a) <= Stage(b)
    && (a.marked ==> b.marked)
    && (a.status.capacity.Some? ==> b.status.capacity.Some?)
  }

  lemma EffectFollows(c: Commit, m: Store, rev: nat, k: string)
    requires SoundStore(m) && Can(c, m) && k in m && k in Effect(c.act, m, rev)
    ensures Follows(m[k], Effect(c.act, m, rev)[k])
  {
    EffectOn(c, m, rev, k);
    if c.act.name == k {
      RewriteSound(c.act, m[k], c.who, m);
    }
  }

  lemma StepFollows(h: Hist, j: nat, k: string)
    requires Valid(h) && 0 < j < |h.snaps| && k in h.snaps[j - 1] && k in h.snaps[j]
    ensures Follows(h.snaps[j - 1][k], h.snaps[j][k])
  {
    StepBack(h, j);
    HistorySound(h, j - 1);
    EffectFollows(h.log[j - 1], h.snaps[j - 1], j, k);
  }

  lemma FollowsTransitive(a: LocalStorage, b: LocalStorage, c: LocalStorage)
    requires Follows(a, b) && Follows(b, c)
    ensures Follows(a, c)
  {
  }

  /** Through the whole life of an object its spec is write-once, its phase never goes back to an
      earlier stage, and the deletion mark and the quantities, once set, stay. */
  lemma {:induction false} LifeIsMonotone(h: Hist, i: nat, j: nat, k: string)
    requires Valid(h) && i <= j < |h.snaps| && k in h.snaps[i] && k in h.snaps[j]
    requires h.snaps[i][k].uid == h.snaps[j][k].uid
    ensures Follows(h.snaps[i][k], h.snaps[j][k])
    decreases j
  {
    if i < j {
      SameLife(h, i, j, k);
      LifeIsMonotone(h, i, j - 1, k);
      StepFollows(h, j, k);
      FollowsTransitive(h.snaps[i][k], h.snaps[j - 1][k], h.snaps[j][k]);
    }
  }

  /** In every committed version: an object is listed once per node, has its status fields filled
      exactly when it has been made ready, and is well-formed; so Filter's dereference is safe. */
  lemma ReadyHasQuantities(h: Hist, i: nat, k: string)
    requires Valid(h) && i < |h.snaps| && k in h.snaps[i]
    ensures h.snaps[i][k].status.phase == Ready ==> h.snaps[i][k].status.allocatable.Some? && h.snaps[i][k].status.capacity.Some?
    ensures h.snaps[i][k].status.allocatable.None? ==> h.snaps[i][k].status.volumes == []
    ensures !(h.snaps[i][k].spec.path.Some? && h.snaps[i][k].spec.lvm.Some?)
    ensures forall other :: other in h.snaps[i] && h.snaps[i][other].spec.node == h.snaps[i][k].spec.node ==> other == k
  {
    HistorySound(h, i);
  }
}
