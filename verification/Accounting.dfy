/** What every history of the ledger keeps: bytes are conserved up to a known drift, admitted
    creates never overcommit, and each volume is debited once and credited at most once. */
module Accounting {
  import opened Types
  import opened Volumes
  import opened Ledger

  // ---------- conservation ----------

  ghost predicate Conserved(st: Status) {
    st.allocatable.Some? && st.capacity.Some? &&
    st.capacity.value == st.allocatable.value + TotalSize(st.volumes)
  }

  /** The bytes of the volumes that stood in k when the plugin last declared it ready. */
  ghost function StandingAtReady(h: Hist, k: string, i: nat): int
    requires |h.snaps| == |h.log| + 1 && i < |h.snaps|
  {
    if i == 0 then 0
    else if h.log[i - 1].act.name != k || h.log[i - 1].act.Edited? then StandingAtReady(h, k, i - 1)
    else match h.log[i - 1].act
      case MadeReady(_, _) => if k in h.snaps[i - 1] then TotalSize(h.snaps[i - 1][k].status.volumes) else 0
      case Born(_, _, _, _, _) => 0
      case _ => StandingAtReady(h, k, i - 1)
  }

  lemma CommitKeepsDrift(c: Commit, m: Store, rev: nat, k: string)
    requires SoundStore(m) && Can(c, m) && k in m && k in Effect(c.act, m, rev)
    requires Effect(c.act, m, rev)[k].status.capacity.Some? && !(c.act.MadeReady? && c.act.name == k)
    ensures var st, st' := m[k].status, Effect(c.act, m, rev)[k].status;
            && st.capacity.Some? && st.allocatable.Some? && st'.allocatable.Some?
            && st'.allocatable.value + TotalSize(st'.volumes) - st'.capacity.value
               == st.allocatable.value + TotalSize(st.volumes) - st.capacity.value
  {
    EffectOn(c, m, rev, k);
    if c.act.name == k {
      match c.act
      case VolumeAdded(_, v) => TotalSizeAppend(m[k].status.volumes, v);
      case VolumeRemoved(_, id) => WithoutCredits(m[k].status.volumes, id);
      case _ =>
    }
  }

  /** Conservation without any hypothesis: what allocatable and volumes exceed the capacity by is
      exactly what stood there at the last Ready write. */
  lemma {:induction false} DriftIsStandingAtReady(h: Hist, i: nat, k: string)
    requires Valid(h) && i < |h.snaps| && k in h.snaps[i] && h.snaps[i][k].status.capacity.Some?
    ensures var st := h.snaps[i][k].status;
            st.allocatable.Some? && st.allocatable.value + TotalSize(st.volumes) - st.capacity.value == StandingAtReady(h, k, i)
  {
    if i > 0 {
      StepBack(h, i);
      HistorySound(h, i - 1);
      var c := h.log[i - 1];
      EffectOn(c, h.snaps[i - 1], i, k);
      if !(c.act.MadeReady? && c.act.name == k) {
        CommitKeepsDrift(c, h.snaps[i - 1], i, k);
        DriftIsStandingAtReady(h, i - 1, k);
      }
    }
  }

  /** Capacity = Allocatable + volumes holds exactly when nothing stood at the last Ready write. */
  lemma ConservedIff(h: Hist, i: nat, k: string)
    requires Valid(h) && i < |h.snaps| && k in h.snaps[i] && h.snaps[i][k].status.capacity.Some?
    ensures Conserved(h.snaps[i][k].status) <==> StandingAtReady(h, k, i) == 0
  {
    DriftIsStandingAtReady(h, i, k);
  }

  /** Between revisions lo and i, every Ready write to k replaced a version that the plugin's informer filter
      lets through. */
  ghost predicate ReadyFromFiltered(h: Hist, k: string, lo: nat, i: nat) {
    forall j :: lo <= j < i && j < |h.log| && j < |h.snaps| && h.log[j].act.MadeReady? && h.log[j].act.name == k && k in h.snaps[j] ==>
      Early(h.snaps[j][k])
  }

  lemma {:induction false} NothingStands(h: Hist, lo: nat, i: nat, k: string)
    requires Valid(h) && lo <= i < |h.snaps| && ReadyFromFiltered(h, k, lo, i) && StandingAtReady(h, k, lo) == 0
    ensures StandingAtReady(h, k, i) == 0
    decreases i
  {
    if lo < i {
      NothingStands(h, lo, i - 1, k);
      HistorySound(h, i - 1);
      var a := h.log[i - 1].act;
      if a.name == k && a.MadeReady? && k in h.snaps[i - 1] {
        assert h.snaps[i - 1][k].status.volumes == [];
      }
    }
  }

  /** At the revision that is its uid, the object was new. */
  lemma NewAtUid(h: Hist, i: nat, k: string)
    requires Valid(h) && i < |h.snaps| && k in h.snaps[i]
    ensures var uid := h.snaps[i][k].uid;
            uid <= i && k in h.snaps[uid] && h.snaps[uid][k].status == NEW_STATUS && StandingAtReady(h, k, uid) == 0
  {
    BornAtUid(h, i, k);
    StepBack(h, h.snaps[i][k].uid);
  }

  /** Only the Ready writes in the life of this object matter. */
  lemma ConservationWhenFiltered(h: Hist, i: nat, k: string)
    requires Valid(h) && i < |h.snaps| && k in h.snaps[i] && h.snaps[i][k].status.capacity.Some?
    requires ReadyFromFiltered(h, k, h.snaps[i][k].uid, i)
    ensures Conserved(h.snaps[i][k].status)
  {
    NewAtUid(h, i, k);
    NothingStands(h, h.snaps[i][k].uid, i, k);
    ConservedIff(h, i, k);
  }

  // ---------- no overcommit, with drift or without ----------

  /** The quantities of an initialised object as they should be. */
  ghost predicate WithinCapacity(m: Store, k: string) {
    k in m && m[k].status.capacity.Some? ==>
      var st := m[k].status;
      st.allocatable.Some? && 0 <= st.allocatable.value <= st.capacity.value && TotalSize(st.volumes) <= st.capacity.value
  }

  /** A create fits into what is allocatable and into what the capacity leaves, a delete gives back no more
      than the capacity leaves, and a size holds the volumes that stand there. */
  ghost predicate Guarded(a: Act, m: Store) {
    a.name in m && (a.MadeReady? || (m[a.name].status.allocatable.Some? && m[a.name].status.capacity.Some?)) ==>
      var st := m[a.name].status;
      match a
      case VolumeAdded(_, v) => v.volSize <= st.allocatable.value && TotalSize(st.volumes) + v.volSize <= st.capacity.value
      case VolumeRemoved(_, id) => st.allocatable.value + SizeOf(st.volumes, id) <= st.capacity.value
      case MadeReady(_, size) => TotalSize(st.volumes) <= size
      case _ => true
  }

  /** So it was for every commit to k between revisions lo and i. */
  ghost predicate AllGuarded(h: Hist, k: string, lo: nat, i: nat) {
    forall j :: lo <= j < i && j < |h.log| && j < |h.snaps| && h.log[j].act.name == k ==> Guarded(h.log[j].act, h.snaps[j])
  }

  ghost predicate AlwaysWithin(h: Hist, k: string, lo: nat, i: nat) {
    forall j :: lo <= j <= i && j < |h.snaps| ==> WithinCapacity(h.snaps[j], k)
  }

  /** One commit on an object that is within its capacity. */
  lemma GuardedIff(c: Commit, m: Store, rev: nat, k: string)
    requires SoundStore(m) && Can(c, m) && WithinCapacity(m, k)
    ensures WithinCapacity(Effect(c.act, m, rev), k) <==> (c.act.name == k ==> Guarded(c.act, m))
  {
    if c.act.name == k && k in m {
      TotalSizeNonNegative(m[k].status.volumes);
      match c.act
      case VolumeAdded(_, v) => TotalSizeAppend(m[k].status.volumes, v);
      case VolumeRemoved(_, id) =>
        SizeOfNonNegative(m[k].status.volumes, id);
        WithoutCredits(m[k].status.volumes, id);
      case _ =>
    }
  }

  /** From a revision at which k is within its capacity on, it stays so exactly if each commit to it meets its
      guard, whatever happened before and whatever drift there is. */
  lemma {:induction false} AlwaysWithinIff(h: Hist, lo: nat, i: nat, k: string)
    requires Valid(h) && lo <= i < |h.snaps| && WithinCapacity(h.snaps[lo], k)
    ensures AlwaysWithin(h, k, lo, i) <==> AllGuarded(h, k, lo, i)
    decreases i
  {
    if lo < i {
      AlwaysWithinIff(h, lo, i - 1, k);
      StepBack(h, i);
      HistorySound(h, i - 1);
      assert AlwaysWithin(h, k, lo, i) <==> AlwaysWithin(h, k, lo, i - 1) && WithinCapacity(h.snaps[i], k);
      assert AllGuarded(h, k, lo, i) <==> AllGuarded(h, k, lo, i - 1) && (h.log[i - 1].act.name == k ==> Guarded(h.log[i - 1].act, h.snaps[i - 1]));
      if AlwaysWithin(h, k, lo, i - 1) {
        assert WithinCapacity(h.snaps[i - 1], k);
        GuardedIff(h.log[i - 1], h.snaps[i - 1], i, k);
      }
    }
  }

  /** With no hypothesis: an object has been within its capacity all its life exactly if each commit in its
      life met its guard. */
  lemma NoOvercommitIff(h: Hist, i: nat, k: string)
    requires Valid(h) && i < |h.snaps| && k in h.snaps[i]
    ensures var uid := h.snaps[i][k].uid; AlwaysWithin(h, k, uid, i) <==> AllGuarded(h, k, uid, i)
  {
    NewAtUid(h, i, k);
    AlwaysWithinIff(h, h.snaps[i][k].uid, i, k);
  }

  // ---------- no overcommit without drift ----------

  /** A create takes no more than the Allocatable it replaces, and a node size is at least 0. */
  predicate Affords(a: Act, m: Store) {
    match a
    case VolumeAdded(k, v) => k in m && m[k].status.allocatable.Some? ==> v.volSize <= m[k].status.allocatable.value
    case MadeReady(_, size) => size >= 0
    case _ => true
  }

  /** So it was for every commit to k between revisions lo and i. */
  ghost predicate Affordable(h: Hist, k: string, lo: nat, i: nat) {
    forall j :: lo <= j < i && j < |h.log| && j < |h.snaps| && h.log[j].act.name == k ==> Affords(h.log[j].act, h.snaps[j])
  }

  predicate InTheBlack(m: Store, k: string) {
    k in m && m[k].status.allocatable.Some? ==> m[k].status.allocatable.value >= 0
  }

  ghost predicate NeverShort(h: Hist, k: string, lo: nat, i: nat) {
    forall j :: lo <= j <= i && j < |h.snaps| ==> InTheBlack(h.snaps[j], k)
  }

  /** One commit on an object whose Allocatable is not negative. */
  lemma AffordsIff(c: Commit, m: Store, rev: nat, k: string)
    requires SoundStore(m) && Can(c, m) && InTheBlack(m, k)
    ensures InTheBlack(Effect(c.act, m, rev), k) <==> (c.act.name == k ==> Affords(c.act, m))
  {
    if c.act.name == k && c.act.VolumeRemoved? {
      SizeOfNonNegative(m[k].status.volumes, c.act.id);
    }
  }

  lemma {:induction false} NeverShortFrom(h: Hist, lo: nat, i: nat, k: string)
    requires Valid(h) && lo <= i < |h.snaps| && InTheBlack(h.snaps[lo], k)
    ensures NeverShort(h, k, lo, i) <==> Affordable(h, k, lo, i)
    decreases i
  {
    if lo < i {
      NeverShortFrom(h, lo, i - 1, k);
      StepBack(h, i);
      HistorySound(h, i - 1);
      assert NeverShort(h, k, lo, i) <==> NeverShort(h, k, lo, i - 1) && InTheBlack(h.snaps[i], k);
      assert Affordable(h, k, lo, i) <==> Affordable(h, k, lo, i - 1) && (h.log[i - 1].act.name == k ==> Affords(h.log[i - 1].act, h.snaps[i - 1]));
      if NeverShort(h, k, lo, i - 1) {
        assert InTheBlack(h.snaps[i - 1], k);
        AffordsIff(h.log[i - 1], h.snaps[i - 1], i, k);
      }
    }
  }

  /** The Allocatable of an object was never negative in its life exactly if every create took no more than
      the Allocatable it replaced and every node size was at least 0. */
  lemma NeverShortIff(h: Hist, i: nat, k: string)
    requires Valid(h) && i < |h.snaps| && k in h.snaps[i]
    ensures var uid := h.snaps[i][k].uid; NeverShort(h, k, uid, i) <==> Affordable(h, k, uid, i)
  {
    NewAtUid(h, i, k);
    NeverShortFrom(h, h.snaps[i][k].uid, i, k);
  }

  lemma {:induction false} SizeOfNonNegative(vs: seq<Volume>, id: string)
    requires SizesNonNegative(vs)
    ensures SizeOf(vs, id) >= 0
  {
    if vs != [] {
      assert forall i :: 0 <= i < |vs| - 1 ==> vs[1..][i] == vs[i + 1];
      SizeOfNonNegative(vs[1..], id);
    }
  }

  /** Nothing stood at any of k's Ready writes between revisions lo and i. */
  ghost predicate NoDrift(h: Hist, k: string, lo: nat, i: nat)
    requires |h.snaps| == |h.log| + 1
  {
    forall j :: lo <= j <= i && j < |h.snaps| ==> StandingAtReady(h, k, j) == 0
  }

  /** Filtered Ready writes are one way to have no drift. */
  lemma FilteredHasNoDrift(h: Hist, i: nat, k: string)
    requires Valid(h) && i < |h.snaps| && k in h.snaps[i] && ReadyFromFiltered(h, k, h.snaps[i][k].uid, i)
    ensures NoDrift(h, k, h.snaps[i][k].uid, i)
  {
    NewAtUid(h, i, k);
    var uid := h.snaps[i][k].uid;
    forall j: nat | uid <= j <= i
      ensures StandingAtReady(h, k, j) == 0
    {
      NothingStands(h, uid, j, k);
    }
  }

  lemma WithinIffInTheBlack(h: Hist, j: nat, k: string)
    requires Valid(h) && j < |h.snaps| && StandingAtReady(h, k, j) == 0
    ensures WithinCapacity(h.snaps[j], k) <==> InTheBlack(h.snaps[j], k)
  {
    HistorySound(h, j);
    if k in h.snaps[j] && h.snaps[j][k].status.capacity.Some? {
      ConservedIff(h, j, k);
      TotalSizeNonNegative(h.snaps[j][k].status.volumes);
    }
  }

  /** Without drift, an object has been within its capacity all its life exactly if each commit in its life
      was affordable. */
  lemma NoOvercommitWithoutDriftIff(h: Hist, i: nat, k: string)
    requires Valid(h) && i < |h.snaps| && k in h.snaps[i] && NoDrift(h, k, h.snaps[i][k].uid, i)
    ensures var uid := h.snaps[i][k].uid; AlwaysWithin(h, k, uid, i) <==> Affordable(h, k, uid, i)
  {
    var uid := h.snaps[i][k].uid;
    NewAtUid(h, i, k);
    NeverShortIff(h, i, k);
    forall j: nat | uid <= j <= i
      ensures WithinCapacity(h.snaps[j], k) <==> InTheBlack(h.snaps[j], k)
    {
      WithinIffInTheBlack(h, j, k);
    }
  }

  /** Filter's test of one node's object. */
  predicate Fits(o: LocalStorage, request: int) {
    o.status.phase == Ready && o.status.allocatable.Some? && request <= o.status.allocatable.value
  }

  /** Between revisions lo and i, every create on k was no larger than a request that Filter admitted against
      the version it replaced, and every size of k's node was at least 0. */
  ghost predicate Admitted(h: Hist, k: string, lo: nat, i: nat) {
    forall j :: lo <= j < i && j < |h.log| && j < |h.snaps| && h.log[j].act.name == k && k in h.snaps[j] ==>
      && (h.log[j].act.VolumeAdded? ==> exists request :: Fits(h.snaps[j][k], request) && h.log[j].act.vol.volSize <= request)
      && (h.log[j].act.MadeReady? ==> h.log[j].act.size >= 0)
  }

  /** What Filter admits is affordable, so an object without drift stays within its capacity. */
  lemma NoOvercommit(h: Hist, i: nat, k: string)
    requires Valid(h) && i < |h.snaps| && k in h.snaps[i]
    requires var uid := h.snaps[i][k].uid; NoDrift(h, k, uid, i) && Admitted(h, k, uid, i)
    ensures AlwaysWithin(h, k, h.snaps[i][k].uid, i) && WithinCapacity(h.snaps[i], k)
  {
    var uid := h.snaps[i][k].uid;
    NewAtUid(h, i, k);
    forall j: nat | uid <= j < i && h.log[j].act.name == k
      ensures Affords(h.log[j].act, h.snaps[j])
    {
      StepBack(h, j + 1);
    }
    NoOvercommitWithoutDriftIff(h, i, k);
  }

  // ---------- exactly-once accounting ----------

  predicate Adds(c: Commit, id: string) {
    c.act.VolumeAdded? && c.act.vol.volID == id
  }

  predicate Credits(c: Commit, id: string) {
    c.act.VolumeRemoved? && c.act.id == id
  }

  /** No volume ID is ever committed twice. */
  ghost predicate FreshIds(log: seq<Commit>) {
    forall i, j :: 0 <= i < j < |log| && log[i].act.VolumeAdded? && log[j].act.VolumeAdded? ==>
      log[i].act.vol.volID != log[j].act.vol.volID
  }

  function DebitCount(log: seq<Commit>, id: string, n: nat): nat
    requires n <= |log|
  {
    if n == 0 then 0 else DebitCount(log, id, n - 1) + if Adds(log[n - 1], id) then 1 else 0
  }

  function CreditCount(log: seq<Commit>, id: string, n: nat): nat
    requires n <= |log|
  {
    if n == 0 then 0 else CreditCount(log, id, n - 1) + if Credits(log[n - 1], id) then 1 else 0
  }

  ghost predicate Live(m: Store, k: string, id: string) {
    k in m && id in Ids(m[k].status.volumes)
  }

  lemma {:induction false} DebitedOnce(log: seq<Commit>, id: string, n: nat)
    requires FreshIds(log) && n <= |log|
    ensures DebitCount(log, id, n) <= 1
    ensures DebitCount(log, id, n) == 1 <==> exists j :: 0 <= j < n && Adds(log[j], id)
  {
    if n > 0 {
      DebitedOnce(log, id, n - 1);
    }
  }

  /** A live volume lives in the object it was added to. */
  lemma {:induction false} LiveAtHome(h: Hist, i: nat, k: string, id: string)
    requires Valid(h) && i < |h.snaps| && Live(h.snaps[i], k, id)
    ensures exists j :: 0 <= j < i && Adds(h.log[j], id) && h.log[j].act.name == k
  {
    if i > 0 {
      StepBack(h, i);
      var c, m := h.log[i - 1], h.snaps[i - 1];
      EffectOn(c, m, i, k);
      if c.act.name == k && c.act.VolumeAdded? && c.act.vol.volID == id {
        assert Adds(h.log[i - 1], id);
      } else {
        if c.act.name == k && c.act.VolumeRemoved? {
          WithoutDropsExactly(m[k].status.volumes, c.act.id);
        }
        LiveAtHome(h, i - 1, k, id);
      }
    }
  }

  lemma CreditMeansLive(h: Hist, i: nat, id: string)
    requires Valid(h) && 0 < i < |h.snaps|
    ensures Credits(h.log[i - 1], id) ==> Live(h.snaps[i - 1], h.log[i - 1].act.name, id)
  {
    StepBack(h, i);
  }

  /** Over any history each volume is debited at most once and credited at most as often; one that is
      live has been debited and not yet credited. */
  lemma {:induction false} ExactlyOnce(h: Hist, i: nat, id: string)
    requires Valid(h) && FreshIds(h.log) && i < |h.snaps|
    ensures CreditCount(h.log, id, i) <= DebitCount(h.log, id, i) <= 1
    ensures forall k :: Live(h.snaps[i], k, id) ==> DebitCount(h.log, id, i) == 1 && CreditCount(h.log, id, i) == 0
    decreases i, 1
  {
    DebitedOnce(h.log, id, i);
    if i > 0 {
      ExactlyOnce(h, i - 1, id);
      CreditMeansLive(h, i, id);
      forall k | Live(h.snaps[i], k, id)
        ensures DebitCount(h.log, id, i) == 1 && CreditCount(h.log, id, i) == 0
      {
        LiveNowLiveBefore(h, i, k, id);
      }
    }
  }

  /** Being live after a commit: added by it, or live before and not credited by it. */
  lemma LiveNowLiveBefore(h: Hist, i: nat, k: string, id: string)
    requires Valid(h) && FreshIds(h.log) && 0 < i < |h.snaps| && Live(h.snaps[i], k, id)
    ensures !Credits(h.log[i - 1], id)
    ensures Adds(h.log[i - 1], id) || Live(h.snaps[i - 1], k, id)
    ensures Adds(h.log[i - 1], id) ==> CreditCount(h.log, id, i - 1) == 0
    decreases i, 0
  {
    StepBack(h, i);
    var c, m := h.log[i - 1], h.snaps[i - 1];
    EffectOn(c, m, i, k);
    if c.act.name == k && c.act.VolumeRemoved? {
      WithoutDropsExactly(m[k].status.volumes, c.act.id);
    }
    if Credits(c, id) {
      LiveAtHome(h, i - 1, c.act.name, id);
      LiveAtHome(h, i - 1, k, id);
    }
    if Adds(c, id) {
      DebitedOnce(h.log, id, i - 1);
      ExactlyOnce(h, i - 1, id);
    }
  }

  // ---------- the list is the creation-ordered list of live volumes ----------

  /** The volumes added to k since k was last born, in the order of their commits. */
  ghost function AddedTo(h: Hist, k: string, i: nat): seq<Volume>
    requires i <= |h.log|
  {
    if i == 0 then []
    else
      var a, before := h.log[i - 1].act, AddedTo(h, k, i - 1);
      if a.name != k then before
      else if a.Born? then []
      else if a.VolumeAdded? then before + [a.vol]
      else before
  }

  /** The IDs removed from k since k was last born. */
  ghost function RemovedFrom(h: Hist, k: string, i: nat): set<string>
    requires i <= |h.log|
  {
    if i == 0 then {}
    else
      var a, before := h.log[i - 1].act, RemovedFrom(h, k, i - 1);
      if a.name != k then before
      else if a.Born? then {}
      else if a.VolumeRemoved? then before + {a.id}
      else before
  }

  ghost function Survivors(vs: seq<Volume>, gone: set<string>): seq<Volume> {
    if vs == [] then []
    else if vs[0].volID in gone then Survivors(vs[1..], gone)
    else [vs[0]] + Survivors(vs[1..], gone)
  }

  lemma {:induction false} SurvivorsWithout(vs: seq<Volume>, gone: set<string>, id: string)
    ensures Survivors(vs, gone + {id}) == Without(Survivors(vs, gone), id)
  {
    if vs != [] {
      SurvivorsWithout(vs[1..], gone, id);
      if vs[0].volID !in gone {
        assert Survivors(vs, gone)[1..] == Survivors(vs[1..], gone);
      }
    }
  }

  lemma {:induction false} SurvivorsAppend(vs: seq<Volume>, gone: set<string>, v: Volume)
    requires v.volID !in gone
    ensures Survivors(vs + [v], gone) == Survivors(vs, gone) + [v]
  {
    if vs == [] {
      assert (vs + [v])[1..] == [];
    } else {
      SurvivorsAppend(vs[1..], gone, v);
      assert (vs + [v])[1..] == vs[1..] + [v];
    }
  }

  lemma {:induction false} RemovedWereAdded(h: Hist, i: nat, k: string, id: string)
    requires Valid(h) && i < |h.snaps| && id in RemovedFrom(h, k, i)
    ensures exists j :: 0 <= j < i && Adds(h.log[j], id)
  {
    if i > 0 {
      if Credits(h.log[i - 1], id) {
        CreditMeansLive(h, i, id);
        LiveAtHome(h, i - 1, h.log[i - 1].act.name, id);
      } else {
        RemovedWereAdded(h, i - 1, k, id);
      }
    }
  }

  lemma {:induction false} ListIsCreationOrder(h: Hist, i: nat, k: string)
    requires Valid(h) && FreshIds(h.log) && i < |h.snaps| && k in h.snaps[i]
    ensures h.snaps[i][k].status.volumes == Survivors(AddedTo(h, k, i), RemovedFrom(h, k, i))
  {
    if i > 0 {
      StepBack(h, i);
      var c, m := h.log[i - 1], h.snaps[i - 1];
      EffectOn(c, m, i, k);
      if k in m {
        ListIsCreationOrder(h, i - 1, k);
        if c.act.name == k && c.act.VolumeAdded? {
          if c.act.vol.volID in RemovedFrom(h, k, i - 1) {
            RemovedWereAdded(h, i - 1, k, c.act.vol.volID);
          }
          SurvivorsAppend(AddedTo(h, k, i - 1), RemovedFrom(h, k, i - 1), c.act.vol);
        } else if c.act.name == k && c.act.VolumeRemoved? {
          SurvivorsWithout(AddedTo(h, k, i - 1), RemovedFrom(h, k, i - 1), c.act.id);
        }
      }
    }
  }
}
