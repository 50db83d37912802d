/** The whole system: API server, one plugin a node, the controller and users, each reading its own
    stale copy of the store. A step that cannot be taken leaves the state as it is, so every sequence
    of steps is a run. */
module Protocol {
  import opened Types
  import opened Admission
  import opened Ledger
  import opened Workqueue
  import opened Reconcile

  // ---------- the API server ----------

  datatype Outcome = NotFound | Conflict | Rejected | Unchanged | Replaced(obj: LocalStorage) | Erased

  /** Update: webhooks, then compare-and-swap on the resource version. A write that changes nothing
      succeeds without a new version; a marked object without finalizers goes away. */
  function Update(m: Store, o: LocalStorage, rev: nat): Outcome {
    if o.name !in m then NotFound
    else if o.rv != m[o.name].rv then Conflict
    else
      var o' := Mutate(o, UpdateOp);
      if ValidateUpdate(m[o.name], o').Denied? then Rejected
      else if o' == m[o.name] then Unchanged
      else if o'.marked && o'.finalizers == [] then Erased
      else Replaced(o'.(rv := rev))
  }

  predicate Accepted(r: Outcome) {
    r.Unchanged? || r.Replaced? || r.Erased?
  }

  function Submit(h: Hist, c: Commit, o: LocalStorage): (res: (Hist, Outcome))
    requires h.snaps != []
    ensures res.0.snaps != []
  {
    var r := Update(Cur(h), o, |h.snaps|);
    match r
    case Replaced(o') => (Hist(h.snaps + [Cur(h)[o.name := o']], h.log + [c]), r)
    case Erased => (Hist(h.snaps + [Cur(h) - {o.name}], h.log + [Commit(c.who, Removed(o.name))]), r)
    case _ => (h, r)
  }

  // ---------- components ----------

  /** What the plugin's lock is held for. Copies are kept as they were read. */
  datatype Op =
    | Idle
    | Syncing(view: LocalStorage)
    | Creating(view: LocalStorage, vol: Volume)
    | Deleting(view: LocalStorage, id: string)
    | Removing(id: string)

  /** seen: the revision the lister shows; told: the last revision whose event the handlers got; work: the
      key that the worker has got and not yet done, while it waits for the lock or holds it. */
  datatype Plugin = Plugin(seen: nat, told: nat, queue: Queue, work: Option<string>, op: Op, dirs: set<string>)

  /** got: keys taken from the queue whose object has not been read yet. */
  datatype Controller = Controller(seen: nat, told: nat, queue: Queue, got: set<string>, busy: map<string, LocalStorage>)

  /** An update that is still under way although its sender has given up on it. */
  datatype Flight = FromPlugin(node: string, op: Op) | FromController(view: LocalStorage)

  datatype Sys = Sys(h: Hist, plugins: map<string, Plugin>, ctl: Controller, used: set<string>, air: set<Flight>)

  /** Made but failing stands for a directory that exists although the call returned an error. */
  datatype DirResult = DirMade | DirMadeButFailed | DirFailed

  /** InFlight: the sender sees a failure, and the update may arrive at any later time. */
  datatype Delivery = Answered | ReplyLost | NeverSent | InFlight

  datatype UserStep =
    | Create(obj: LocalStorage, kubeNodes: set<string>, list: seq<LocalStorage>)
    | Edit(key: string, typeMeta: TypeMeta, note: SizeNote, finalizers: seq<string>, spec: Spec)
    | Delete(key: string)

  datatype PluginStep =
    | See(upto: nat)
    | Hear
    | HearList(upto: nat)
    | Resync
    | Restart(at: nat)
    | Fire(key: string)
    | Get(key: string)
    | SyncBegin(dirOk: bool)
    | CreateBegin(key: string, vol: Volume, dir: DirResult)
    | DeleteBegin(key: string, id: string)
    | Send(delivery: Delivery)
    | RemoveDir(ok: bool)

  datatype CtlStep =
    | CtlSee(upto: nat)
    | CtlHear
    | CtlHearList(upto: nat)
    | CtlResync
    | CtlRestart(at: nat)
    | CtlFire(key: string)
    | CtlGet(key: string)
    | CtlBegin(key: string)
    | CtlSend(key: string, delivery: Delivery)

  datatype Step = ByUser(u: UserStep) | ByPlugin(node: string, p: PluginStep) | ByController(c: CtlStep) | Land(f: Flight)

  // ---------- users ----------

  /** The list that admission reads is the store itself. */
  ghost predicate Lists(list: seq<LocalStorage>, m: Store) {
    (forall k :: k in m ==> m[k] in list) && (forall o :: o in list ==> o.name in m && m[o.name] == o)
  }

  ghost function UserNext(h: Hist, u: UserStep): (h': Hist)
    requires h.snaps != []
    ensures h'.snaps != []
  {
    var m := Cur(h);
    match u
    case Create(obj, kubeNodes, list) =>
      var o := Mutate(obj.(marked := false, status := Status(Unset, None, None, [])), CreateOp);
      if o.name in m || !Lists(list, m) || ValidateCreate(o, kubeNodes, list).Denied? then h
      else Hist(h.snaps + [m[o.name := o.(uid := |h.snaps|, rv := |h.snaps|)]],
                h.log + [Commit(User, Born(o.name, o.typeMeta, o.note, o.finalizers, o.spec))])
    case Edit(key, tm, note, fs, spec) =>
      if key !in m then h
      else
        var o := m[key].(typeMeta := tm, note := note, finalizers := fs, spec := spec);
        Submit(h, Commit(User, Edited(key, note, Mutate(o, UpdateOp).finalizers, spec)), o).0
    case Delete(key) =>
      if key !in m || m[key].marked then h
      else if m[key].finalizers == [] then
        Hist(h.snaps + [m - {key}], h.log + [Commit(User, Removed(key))])
      else
        Hist(h.snaps + [m[key := m[key].(marked := true, rv := |h.snaps|)]], h.log + [Commit(User, Marked(key))])
  }

  // ---------- plugins ----------

  function FilteredKeys(m: Store, n: string): set<string> {
    set k | k in m && Assigned(m[k], n)
  }

  function Hearing(h: Hist, p: Plugin, n: string): Plugin
    requires |h.snaps| == |h.log| + 1 && p.told + 1 < |h.snaps|
  {
    var m, k := h.snaps[p.told + 1], h.log[p.told].act.name;
    p.(told := p.told + 1, queue := if k in m && Assigned(m[k], n) then Add(p.queue, k) else p.queue)
  }

  /** A watch that was interrupted lists again: instead of the events up to a revision, the handlers get
      every object of its store, and the queue stays as it is otherwise. */
  function HearingList(h: Hist, p: Plugin, n: string, upto: nat): Plugin
    requires upto < |h.snaps|
  {
    p.(told := upto, queue := AddAll(p.queue, FilteredKeys(h.snaps[upto], n)))
  }

  /** The worker is done with k. */
  function Done(p: Plugin, k: string, failed: bool): Plugin {
    p.(queue := HandleErr(p.queue, k, failed), work := None)
  }

  /** sync of the key in hand, up to the update. */
  function BeginSync(h: Hist, p: Plugin, k: string, dirOk: bool): Plugin
    requires p.seen < |h.snaps|
  {
    var m := h.snaps[p.seen];
    if k !in m then Done(p, k, false)
    else match Sync(m[k], dirOk)
      case Finish => Done(p, k, false)
      case Fail => Done(p, k, true)
      case Write(_) => p.(op := Syncing(m[k]))
  }

  /** The update a busy plugin sends, and the ledger act it stands for. */
  function Request(n: string, op: Op): Option<(Commit, LocalStorage)> {
    match op
    case Syncing(view) =>
      (match Sync(view, true)
       case Write(o) => Some((Commit(PluginOn(n), PhaseAct(o)), o))
       case _ => None)
    case Creating(view, v) =>
      (match CreateEdit(view, v)
       case Some(o) => Some((Commit(PluginOn(n), VolumeAdded(view.name, v)), o))
       case None => None)
    case Deleting(view, id) =>
      (match DeleteEdit(view, id)
       case Some(o) => Some((Commit(PluginOn(n), VolumeRemoved(view.name, id)), o))
       case None => None)
    case _ => None
  }

  /** What the plugin does once it knows, or has given up on, the answer. */
  function AfterSend(p: Plugin, ok: bool): Plugin {
    match p.op
    case Syncing(view) => Done(p.(op := Idle), view.name, !ok)
    case Deleting(_, id) => p.(op := if ok then Removing(id) else Idle)
    case _ => p.(op := Idle)
  }

  /** Every plugin step except Send: only the plugin's own state changes. */
  function PluginLocal(s: Sys, n: string, st: PluginStep): Plugin
    requires n in s.plugins
  {
    var h, p := s.h, s.plugins[n];
    if |h.snaps| != |h.log| + 1 || p.seen >= |h.snaps| then p
    else match st
      case See(upto) => if p.seen <= upto < |h.snaps| then p.(seen := upto) else p
      case Hear => if p.told < p.seen then Hearing(h, p, n) else p
      case HearList(upto) => if p.told <= upto <= p.seen then HearingList(h, p, n, upto) else p
      case Resync => p.(queue := AddAll(p.queue, FilteredKeys(h.snaps[p.seen], n)))
      case Restart(at) =>
        if at < |h.snaps| then Plugin(at, at, AddAll(NO_WORK, FilteredKeys(h.snaps[at], n)), None, Idle, p.dirs) else p
      case Fire(k) => p.(queue := Workqueue.Fire(p.queue, k))
      case Get(k) => if p.work.None? && k in p.queue.active then p.(queue := Take(p.queue, k), work := Some(k)) else p
      case SyncBegin(dirOk) => if p.op.Idle? && p.work.Some? then BeginSync(h, p, p.work.value, dirOk) else p
      case CreateBegin(k, v, dir) =>
        if !CreateEnabled(s, n, k, v) then p
        else
          var p' := if dir.DirFailed? then p else p.(dirs := p.dirs + {v.volID});
          if dir.DirMade? && CreateEdit(h.snaps[p.seen][k], v).Some? then p'.(op := Creating(h.snaps[p.seen][k], v)) else p'
      case DeleteBegin(k, id) =>
        if p.op.Idle? && Bound(h.snaps[p.seen], k, n) && DeleteEdit(h.snaps[p.seen][k], id).Some?
        then p.(op := Deleting(h.snaps[p.seen][k], id)) else p
      case RemoveDir(ok) =>
        if p.op.Removing? then p.(op := Idle, dirs := if ok then p.dirs - {p.op.id} else p.dirs) else p
      case Send(_) => p
  }

  /** GetLocalStorageByNode found k; the lister's order is arbitrary, so any match may be found. */
  predicate Bound(m: Store, k: string, n: string) {
    k in m && m[k].spec.node == n
  }

  /** The ID is a new UUID and the requested size is at least 0. */
  predicate CreateEnabled(s: Sys, n: string, k: string, v: Volume)
    requires n in s.plugins
  {
    && s.plugins[n].op.Idle? && s.plugins[n].seen < |s.h.snaps| && Bound(s.h.snaps[s.plugins[n].seen], k, n)
    && v.volID !in s.used && v.volSize >= 0
  }

  function PluginSend(s: Sys, n: string, d: Delivery): Sys
    requires n in s.plugins && s.h.snaps != []
  {
    var p := s.plugins[n];
    match Request(n, p.op)
    case None => s
    case Some((c, o)) =>
      if d.NeverSent? then s.(plugins := s.plugins[n := AfterSend(p, false)])
      else if d.InFlight? then s.(plugins := s.plugins[n := AfterSend(p, false)], air := s.air + {FromPlugin(n, p.op)})
      else
        var (h', r) := Submit(s.h, c, o);
        s.(h := h', plugins := s.plugins[n := AfterSend(p, d.Answered? && Accepted(r))])
  }

  // ---------- controller ----------

  function CtlLocal(h: Hist, c: Controller, st: CtlStep): Controller {
    if |h.snaps| != |h.log| + 1 || c.seen >= |h.snaps| then c
    else match st
      case CtlSee(upto) => if c.seen <= upto < |h.snaps| then c.(seen := upto) else c
      case CtlHear =>
        if c.told < c.seen then c.(told := c.told + 1, queue := Add(c.queue, h.log[c.told].act.name)) else c
      case CtlHearList(upto) =>
        if c.told <= upto <= c.seen
        then c.(told := upto, queue := AddAll(c.queue, h.snaps[c.told].Keys + h.snaps[upto].Keys)) else c
      case CtlResync => c.(queue := AddAll(c.queue, h.snaps[c.seen].Keys))
      case CtlRestart(at) =>
        if at < |h.snaps| then Controller(at, at, AddAll(NO_WORK, h.snaps[at].Keys), {}, map[]) else c
      case CtlFire(k) => c.(queue := Workqueue.Fire(c.queue, k))
      case CtlGet(k) =>
        if k in c.queue.active && k !in c.got && k !in c.busy then c.(queue := Take(c.queue, k), got := c.got + {k}) else c
      case CtlBegin(k) =>
        if k !in c.got then c
        else
          var m, c' := h.snaps[c.seen], c.(got := c.got - {k});
          if k in m && SyncStorage(m[k]).Write? then c'.(busy := c.busy[k := m[k]])
          else c'.(queue := HandleErr(c.queue, k, false))
      case CtlSend(_, _) => c
  }

  function CtlSendNext(s: Sys, k: string, d: Delivery): Sys
    requires s.h.snaps != []
  {
    var c := s.ctl;
    if k !in c.busy || !SyncStorage(c.busy[k]).Write? then s
    else
      var o := SyncStorage(c.busy[k]).obj;
      var (h', r) := if d.NeverSent? || d.InFlight? then (s.h, NotFound) else Submit(s.h, Commit(Manager, PhaseAct(o)), o);
      s.(h := h', ctl := c.(busy := c.busy - {k}, queue := HandleErr(c.queue, k, !(d.Answered? && Accepted(r)))),
         air := if d.InFlight? then s.air + {FromController(c.busy[k])} else s.air)
  }

  // ---------- updates that arrive late ----------

  /** The update of a flight, and the ledger act it stands for. */
  function Carried(f: Flight): Option<(Commit, LocalStorage)> {
    match f
    case FromPlugin(n, op) => Request(n, op)
    case FromController(view) =>
      (match SyncStorage(view)
       case Write(o) => Some((Commit(Manager, PhaseAct(o)), o))
       case _ => None)
  }

  /** The update arrives; nobody waits for the answer. */
  function LandNext(s: Sys, f: Flight): (s': Sys)
    requires s.h.snaps != []
    ensures s'.h.snaps != []
  {
    match Carried(f)
    case None => s
    case Some((c, o)) => if f in s.air then s.(h := Submit(s.h, c, o).0, air := s.air - {f}) else s
  }

  // ---------- runs ----------

  function UsedAfter(s: Sys, n: string, st: PluginStep): set<string>
    requires n in s.plugins
  {
    if st.CreateBegin? && CreateEnabled(s, n, st.key, st.vol) then s.used + {st.vol.volID} else s.used
  }

  ghost function Next(s: Sys, step: Step): (s': Sys)
    requires s.h.snaps != []
    ensures s'.h.snaps != []
  {
    match step
    case ByUser(u) => s.(h := UserNext(s.h, u))
    case ByPlugin(n, st) =>
      if n !in s.plugins then s
      else if st.Send? then PluginSend(s, n, st.delivery)
      else s.(plugins := s.plugins[n := PluginLocal(s, n, st)], used := UsedAfter(s, n, st))
    case ByController(st) =>
      if st.CtlSend? then CtlSendNext(s, st.key, st.delivery) else s.(ctl := CtlLocal(s.h, s.ctl, st))
    case Land(f) => LandNext(s, f)
  }

  ghost function Run(s: Sys, steps: seq<Step>): (s': Sys)
    requires s.h.snaps != []
    ensures s'.h.snaps != []
  {
    if steps == [] then s else Next(Run(s, steps[..|steps| - 1]), steps[|steps| - 1])
  }

  function Start(nodes: set<string>): Sys {
    Sys(EMPTY, map n | n in nodes :: Plugin(0, 0, NO_WORK, None, Idle, {}), Controller(0, 0, NO_WORK, {}, map[]), {}, {})
  }
}
