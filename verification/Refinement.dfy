/** Stale reads are harmless: every interleaving of the components commits a run of the atomic ledger. */
module Refinement {
  import opened Types
  import opened Volumes
  import opened Admission
  import opened Ledger
  import opened Accounting
  import opened Reconcile
  import opened Protocol

  ghost predicate NeverAdded(log: seq<Commit>, id: string) {
    forall i :: 0 <= i < |log| ==> !Adds(log[i], id)
  }

  /** The copy a busy plugin works on was once committed, and for the RPCs it is the node's own object. */
  ghost predicate OpOk(h: Hist, used: set<string>, n: string, op: Op) {
    match op
    case Syncing(view) => IsVersion(h, view) && Sync(view, true).Write?
    case Creating(view, v) =>
      && IsVersion(h, view) && view.spec.node == n && view.status.allocatable.Some?
      && v.volSize >= 0 && v.volID in used && NeverAdded(h.log, v.volID)
    case Deleting(view, _) => IsVersion(h, view) && view.spec.node == n && view.status.allocatable.Some?
    case _ => true
  }

  ghost predicate PluginOk(h: Hist, used: set<string>, n: string, p: Plugin) {
    p.told <= p.seen < |h.snaps| && OpOk(h, used, n, p.op) && (p.op.Syncing? ==> p.work == Some(p.op.view.name))
  }

  /** The same for a copy whose update is in flight. */
  ghost predicate FlightOk(h: Hist, used: set<string>, f: Flight) {
    match f
    case FromPlugin(n, op) => OpOk(h, used, n, op) && Request(n, op).Some?
    case FromController(view) => IsVersion(h, view) && SyncStorage(view).Write?
  }

  ghost predicate ControllerOk(h: Hist, c: Controller) {
    && c.told <= c.seen < |h.snaps|
    && forall k :: k in c.busy ==> c.busy[k].name == k && IsVersion(h, c.busy[k]) && SyncStorage(c.busy[k]).Write?
  }

  predicate Creates(op: Op, id: string) {
    op.Creating? && op.vol.volID == id
  }

  predicate FlightCreates(f: Flight, id: string) {
    f.FromPlugin? && Creates(f.op, id)
  }

  /** No two creates that are begun or in flight have the same ID. */
  ghost predicate DistinctCreates(plugins: map<string, Plugin>, air: set<Flight>) {
    && (forall a, b, id :: (a in plugins && b in plugins && Creates(plugins[a].op, id) && Creates(plugins[b].op, id)) ==> a == b)
    && (forall a, f, id :: a in plugins && f in air && Creates(plugins[a].op, id) ==> !FlightCreates(f, id))
    && (forall f, g, id :: f in air && g in air && FlightCreates(f, id) && FlightCreates(g, id) ==> f == g)
  }

  ghost predicate IdsUsed(log: seq<Commit>, used: set<string>) {
    forall i :: 0 <= i < |log| && log[i].act.VolumeAdded? ==> log[i].act.vol.volID in used
  }

  ghost predicate Inv(s: Sys) {
    && Valid(s.h)
    && FreshIds(s.h.log)
    && IdsUsed(s.h.log, s.used)
    && (forall n :: n in s.plugins ==> PluginOk(s.h, s.used, n, s.plugins[n]))
    && (forall f :: f in s.air ==> FlightOk(s.h, s.used, f))
    && DistinctCreates(s.plugins, s.air)
    && ControllerOk(s.h, s.ctl)
  }

  // ---------- one update ----------

  /** h' is h, or h with one more atomic commit. */
  ghost predicate AtMostOneCommit(h: Hist, h': Hist, c: Commit)
    requires h.snaps != []
  {
    h' == h || (Can(c, Cur(h)) && h' == Extend(h, c))
  }

  /** An update computed from any past version commits nothing, or exactly the atomic act on the
      current version. */
  lemma StatusUpdateIsAtomic(h: Hist, view: LocalStorage, c: Commit, o: LocalStorage)
    requires Valid(h) && IsVersion(h, view) && o == view.(status := o.status) && c.act.name == view.name
    requires !c.act.Born? && !c.act.Removed?
    requires view.name in Cur(h) && Cur(h)[view.name] == view && o != view ==>
               Can(c, Cur(h)) && o == Rewrite(c.act, view)
    ensures AtMostOneCommit(h, Submit(h, c, o).0, c)
    ensures !Submit(h, c, o).1.Erased?
    ensures !Submit(h, c, o).1.Rejected?
    ensures Accepted(Submit(h, c, o).1) ==> view.name in Cur(h) && Cur(h)[view.name] == view
    ensures Submit(h, c, o).1.Replaced? ==> Submit(h, c, o).0 == Extend(h, c)
    ensures Submit(h, c, o).1.Unchanged? ==> o == view
    ensures !Submit(h, c, o).1.Replaced? ==> Submit(h, c, o).0 == h
  {
    if view.name in Cur(h) && Cur(h)[view.name].rv == view.rv {
      SameRvSameObject(h, view);
      VersionSound(h, view);
      StatusWritePasses(view, o);
    }
  }

  lemma CreateIsAtomic(h: Hist, used: set<string>, n: string, view: LocalStorage, v: Volume)
    requires Valid(h) && OpOk(h, used, n, Creating(view, v))
    requires view.name in Cur(h) && Cur(h)[view.name] == view
    ensures var c := Commit(PluginOn(n), VolumeAdded(view.name, v));
            Can(c, Cur(h)) && CreateEdit(view, v) == Some(Rewrite(c.act, view))
  {
    if Live(Cur(h), view.name, v.volID) {
      LiveAtHome(h, |h.snaps| - 1, view.name, v.volID);
      assert false;
    }
    AddVolumeAppends(view.status.volumes, v);
  }

  lemma DeleteIsAtomic(h: Hist, n: string, view: LocalStorage, id: string)
    requires Valid(h) && IsVersion(h, view) && view.spec.node == n && view.status.allocatable.Some?
    requires view.name in Cur(h) && Cur(h)[view.name] == view
    ensures var c := Commit(PluginOn(n), VolumeRemoved(view.name, id));
            && DeleteEdit(view, id) == Some(Rewrite(c.act, view))
            && (id in Ids(view.status.volumes) <==> DeleteEdit(view, id) != Some(view))
            && (id in Ids(view.status.volumes) ==> Can(c, Cur(h)))
  {
    VersionSound(h, view);
    RemoveVolumeOnDistinct(view.status.volumes, id);
  }

  lemma SyncIsAtomic(h: Hist, n: string, view: LocalStorage)
    requires Valid(h) && IsVersion(h, view) && Sync(view, true).Write?
    requires view.name in Cur(h) && Cur(h)[view.name] == view
    ensures var o := Sync(view, true).obj;
            Can(Commit(PluginOn(n), PhaseAct(o)), Cur(h)) && o == Rewrite(PhaseAct(o), view)
  {
    VersionSound(h, view);
  }

  lemma SyncStorageIsAtomic(h: Hist, view: LocalStorage)
    requires Valid(h) && IsVersion(h, view) && SyncStorage(view).Write?
    requires view.name in Cur(h) && Cur(h)[view.name] == view
    ensures var o := SyncStorage(view).obj;
            Can(Commit(Manager, PhaseAct(o)), Cur(h)) && o == Rewrite(PhaseAct(o), view)
  {
  }

  /** The request of a busy plugin, whatever it is doing. */
  lemma RequestIsAtomic(h: Hist, used: set<string>, n: string, op: Op)
    requires Valid(h) && OpOk(h, used, n, op) && Request(n, op).Some?
    ensures var (c, o) := Request(n, op).value; var (h', r) := Submit(h, c, o);
            && c.who == PluginOn(n) && c.act.name == op.view.name
            && AtMostOneCommit(h, h', c)
            && (Accepted(r) ==> op.view.name in Cur(h) && Cur(h)[op.view.name] == op.view)
            && (r.Replaced? <==> h' != h) && !r.Erased? && !r.Rejected?
            && (r.Replaced? ==> h' == Extend(h, c))
            && (r.Unchanged? ==> o == op.view)
  {
    var (c, o) := Request(n, op).value;
    var view := op.view;
    VersionSound(h, view);
    if view.name in Cur(h) && Cur(h)[view.name] == view {
      match op
      case Syncing(_) => SyncIsAtomic(h, n, view);
      case Creating(_, v) => CreateIsAtomic(h, used, n, view, v);
      case Deleting(_, id) => DeleteIsAtomic(h, n, view, id);
    }
    StatusUpdateIsAtomic(h, view, c, o);
  }

  function Sender(f: Flight): Writer {
    if f.FromPlugin? then PluginOn(f.node) else Manager
  }

  /** The same for an update that arrives late, also the controller's. */
  lemma CarriedIsAtomic(h: Hist, used: set<string>, f: Flight)
    requires Valid(h) && FlightOk(h, used, f)
    ensures Carried(f).Some?
    ensures var (c, o) := Carried(f).value; var (h', r) := Submit(h, c, o); var view := if f.FromPlugin? then f.op.view else f.view;
            && c.who == Sender(f) && c.act.name == view.name
            && AtMostOneCommit(h, h', c)
            && (Accepted(r) ==> view.name in Cur(h) && Cur(h)[view.name] == view)
            && (r.Replaced? <==> h' != h) && !r.Erased? && !r.Rejected?
            && (r.Replaced? ==> h' == Extend(h, c))
            && (f.FromController? ==> !c.act.VolumeAdded? && c == Commit(Manager, PhaseAct(SyncStorage(f.view).obj)) && !r.Unchanged?)
  {
    match f
    case FromPlugin(n, op) => RequestIsAtomic(h, used, n, op);
    case FromController(view) =>
      var (c, o) := Carried(f).value;
      if view.name in Cur(h) && Cur(h)[view.name] == view {
        SyncStorageIsAtomic(h, view);
      }
      StatusUpdateIsAtomic(h, view, c, o);
  }

  lemma UserIsAtomic(h: Hist, u: UserStep) returns (c: Commit)
    requires Valid(h)
    ensures c.who.User? && !c.act.VolumeAdded? && AtMostOneCommit(h, UserNext(h, u), c)
  {
    HistorySound(h, |h.snaps| - 1);
    var m := Cur(h);
    match u
    case Create(obj, kubeNodes, list) => c := UserCreateIsAtomic(h, obj, kubeNodes, list);
    case Edit(key, tm, note, fs, spec) =>
      c := Commit(User, Removed(key));
      if key in m {
        var o := m[key].(typeMeta := tm, note := note, finalizers := fs, spec := spec);
        UpdateAllowedIff(m[key], Mutate(o, UpdateOp));
        if !Update(m, o, |h.snaps|).Erased? {
          c := Commit(User, Edited(key, note, Mutate(o, UpdateOp).finalizers, spec));
        }
      }
    case Delete(key) => c := Commit(User, Marked(key));
  }

  lemma UserCreateIsAtomic(h: Hist, obj: LocalStorage, kubeNodes: set<string>, list: seq<LocalStorage>) returns (c: Commit)
    requires Valid(h)
    ensures c.who.User? && !c.act.VolumeAdded? && AtMostOneCommit(h, UserNext(h, Create(obj, kubeNodes, list)), c)
  {
    var o := Mutate(obj.(marked := false, status := Status(Unset, None, None, [])), CreateOp);
    c := Commit(User, Born(o.name, o.typeMeta, o.note, o.finalizers, o.spec));
    CreateAllowedIff(o, kubeNodes, list);
  }

  // ---------- every step keeps the invariant ----------

  lemma HistoryExtends(s: Sys, c: Commit)
    requires Inv(s) && Can(c, Cur(s.h))
    requires c.act.VolumeAdded? ==> c.act.vol.volID in s.used && NeverAdded(s.h.log, c.act.vol.volID)
    ensures Valid(Extend(s.h, c)) && FreshIds(Extend(s.h, c).log) && IdsUsed(Extend(s.h, c).log, s.used)
    ensures forall o :: IsVersion(s.h, o) ==> IsVersion(Extend(s.h, c), o)
  {
    ExtendValid(s.h, c);
    var h' := Extend(s.h, c);
    forall i, j | 0 <= i < j < |h'.log| && h'.log[i].act.VolumeAdded? && h'.log[j].act.VolumeAdded?
      ensures h'.log[i].act.vol.volID != h'.log[j].act.vol.volID
    {
      assert h'.log[i] == s.h.log[i];
      if j == |s.h.log| {
        assert !Adds(s.h.log[i], c.act.vol.volID);
      }
    }
  }

  lemma OpExtends(h: Hist, c: Commit, used: set<string>, n: string, op: Op)
    requires h.snaps != [] && OpOk(h, used, n, op) && (op.Creating? ==> !Adds(c, op.vol.volID))
    ensures OpOk(Extend(h, c), used, n, op)
  {
  }

  /** After a commit, every copy is in order but the create that was committed. */
  lemma PluginsExtend(s: Sys, c: Commit)
    requires Inv(s) && Can(c, Cur(s.h))
    requires c.act.VolumeAdded? ==> c.act.vol.volID in s.used && NeverAdded(s.h.log, c.act.vol.volID)
    ensures Valid(Extend(s.h, c)) && FreshIds(Extend(s.h, c).log) && IdsUsed(Extend(s.h, c).log, s.used)
    ensures ControllerOk(Extend(s.h, c), s.ctl)
    ensures forall n :: n in s.plugins && !(c.act.VolumeAdded? && Creates(s.plugins[n].op, c.act.vol.volID)) ==>
              PluginOk(Extend(s.h, c), s.used, n, s.plugins[n])
    ensures forall f :: f in s.air && !(c.act.VolumeAdded? && FlightCreates(f, c.act.vol.volID)) ==> FlightOk(Extend(s.h, c), s.used, f)
  {
    HistoryExtends(s, c);
    forall n | n in s.plugins && !(c.act.VolumeAdded? && Creates(s.plugins[n].op, c.act.vol.volID))
      ensures PluginOk(Extend(s.h, c), s.used, n, s.plugins[n])
    {
      OpExtends(s.h, c, s.used, n, s.plugins[n].op);
    }
    forall f | f in s.air && !(c.act.VolumeAdded? && FlightCreates(f, c.act.vol.volID))
      ensures FlightOk(Extend(s.h, c), s.used, f)
    {
      if f.FromPlugin? {
        OpExtends(s.h, c, s.used, f.node, f.op);
      }
    }
  }

  lemma UserKeepsInv(s: Sys, u: UserStep)
    requires Inv(s)
    ensures Inv(Next(s, ByUser(u)))
  {
    var c := UserIsAtomic(s.h, u);
    if UserNext(s.h, u) != s.h {
      PluginsExtend(s, c);
    }
  }

  lemma PluginLocalOk(s: Sys, n: string, st: PluginStep)
    requires Inv(s) && n in s.plugins && !st.CreateBegin?
    ensures PluginOk(s.h, s.used, n, PluginLocal(s, n, st))
    ensures PluginLocal(s, n, st).op.Creating? ==> PluginLocal(s, n, st).op == s.plugins[n].op
  {
    var p := s.plugins[n];
    if st.SyncBegin? && p.work.Some? && p.work.value in s.h.snaps[p.seen] {
      SnapshotVersion(s.h, p.seen, p.work.value);
    }
    if st.DeleteBegin? && st.key in s.h.snaps[p.seen] {
      SnapshotVersion(s.h, p.seen, st.key);
    }
  }

  lemma CreateBeginOk(s: Sys, n: string, st: PluginStep)
    requires Inv(s) && n in s.plugins && st.CreateBegin? && CreateEnabled(s, n, st.key, st.vol)
    ensures PluginOk(s.h, s.used + {st.vol.volID}, n, PluginLocal(s, n, st))
    ensures PluginLocal(s, n, st).op.Creating? ==> PluginLocal(s, n, st).op.vol == st.vol
  {
    SnapshotVersion(s.h, s.plugins[n].seen, st.key);
  }

  lemma OpUsed(h: Hist, used: set<string>, more: set<string>, n: string, op: Op)
    requires OpOk(h, used, n, op)
    ensures OpOk(h, used + more, n, op)
    ensures forall id :: Creates(op, id) ==> id in used
  {
  }

  lemma PluginLocalKeepsInv(s: Sys, n: string, st: PluginStep)
    requires Inv(s) && n in s.plugins && !st.Send?
    ensures Inv(Next(s, ByPlugin(n, st)))
  {
    if st.CreateBegin? && CreateEnabled(s, n, st.key, st.vol) {
      CreateBeginOk(s, n, st);
      forall a | a in s.plugins
        ensures PluginOk(s.h, s.used + {st.vol.volID}, a, s.plugins[a]) && !Creates(s.plugins[a].op, st.vol.volID)
      {
        OpUsed(s.h, s.used, {st.vol.volID}, a, s.plugins[a].op);
      }
      forall f | f in s.air
        ensures FlightOk(s.h, s.used + {st.vol.volID}, f) && !FlightCreates(f, st.vol.volID)
      {
        if f.FromPlugin? {
          OpUsed(s.h, s.used, {st.vol.volID}, f.node, f.op);
        }
      }
    } else if !st.CreateBegin? {
      PluginLocalOk(s, n, st);
    }
  }

  /** The copies of everyone but n, and the flights, are in order under h'. */
  ghost predicate OthersOk(s: Sys, h': Hist, n: string) {
    && Valid(h') && FreshIds(h'.log) && IdsUsed(h'.log, s.used) && ControllerOk(h', s.ctl)
    && (forall a :: a in s.plugins && a != n ==> PluginOk(h', s.used, a, s.plugins[a]))
    && (forall f :: f in s.air ==> FlightOk(h', s.used, f))
  }

  /** A plugin that is done with its update is in order, whatever it is told. */
  lemma PluginFreed(s: Sys, h': Hist, n: string, p': Plugin)
    requires OthersOk(s, h', n) && DistinctCreates(s.plugins, s.air) && n in s.plugins
    requires p'.told <= p'.seen < |h'.snaps| && (p'.op.Idle? || p'.op.Removing?)
    ensures Inv(s.(h := h', plugins := s.plugins[n := p']))
  {
  }

  /** A commit of n's own request leaves every other copy in order. */
  lemma SendExtends(s: Sys, n: string, c: Commit)
    requires Inv(s) && n in s.plugins && Request(n, s.plugins[n].op).Some? && c == Request(n, s.plugins[n].op).value.0
    requires Can(c, Cur(s.h))
    ensures OthersOk(s, Extend(s.h, c), n)
  {
    assert PluginOk(s.h, s.used, n, s.plugins[n]);
    PluginsExtend(s, c);
    if c.act.VolumeAdded? {
      assert Creates(s.plugins[n].op, c.act.vol.volID);
    }
  }

  /** Giving up on an update that may still arrive. */
  lemma LaunchKeepsInv(s: Sys, n: string, p': Plugin)
    requires Inv(s) && n in s.plugins && Request(n, s.plugins[n].op).Some?
    requires p'.told <= p'.seen < |s.h.snaps| && p'.op.Idle?
    ensures Inv(s.(plugins := s.plugins[n := p'], air := s.air + {FromPlugin(n, s.plugins[n].op)}))
  {
    var f := FromPlugin(n, s.plugins[n].op);
    var s' := s.(plugins := s.plugins[n := p'], air := s.air + {f});
    assert PluginOk(s.h, s.used, n, s.plugins[n]);
    forall id | FlightCreates(f, id)
      ensures Creates(s.plugins[n].op, id)
    {
    }
    assert DistinctCreates(s'.plugins, s'.air);
  }

  lemma PluginSendKeepsInv(s: Sys, n: string, d: Delivery)
    requires Inv(s) && n in s.plugins
    ensures Inv(PluginSend(s, n, d))
  {
    var p := s.plugins[n];
    assert PluginOk(s.h, s.used, n, p);
    if Request(n, p.op).Some? {
      var (c, o) := Request(n, p.op).value;
      if d.InFlight? {
        LaunchKeepsInv(s, n, AfterSend(p, false));
      } else {
        var h' := if d.NeverSent? then s.h else Submit(s.h, c, o).0;
        RequestIsAtomic(s.h, s.used, n, p.op);
        if h' != s.h {
          SendExtends(s, n, c);
        }
        PluginFreed(s, h', n, AfterSend(p, !d.NeverSent? && d.Answered? && Accepted(Submit(s.h, c, o).1)));
      }
    }
  }

  lemma LandKeepsInv(s: Sys, f: Flight)
    requires Inv(s)
    ensures Inv(LandNext(s, f))
  {
    if f in s.air {
      CarriedIsAtomic(s.h, s.used, f);
      var (c, o) := Carried(f).value;
      if Submit(s.h, c, o).0 != s.h {
        PluginsExtend(s, c);
        if c.act.VolumeAdded? {
          assert FlightCreates(f, c.act.vol.volID);
        }
      }
    }
  }

  lemma ControllerSendIsAtomic(s: Sys, k: string, d: Delivery) returns (c: Commit)
    requires Inv(s)
    ensures c.who.Manager? && !c.act.VolumeAdded? && AtMostOneCommit(s.h, CtlSendNext(s, k, d).h, c)
    ensures CtlSendNext(s, k, d).h != s.h ==> k in s.ctl.busy && c.act.name == k && c == Commit(Manager, PhaseAct(SyncStorage(s.ctl.busy[k]).obj))
    ensures k in s.ctl.busy && CtlSendNext(s, k, d).h != s.h ==> k in Cur(s.h) && Cur(s.h)[k] == s.ctl.busy[k]
  {
    c := Commit(Manager, Terminated(k));
    if k in s.ctl.busy && !d.NeverSent? && !d.InFlight? {
      CarriedIsAtomic(s.h, s.used, FromController(s.ctl.busy[k]));
      c := Carried(FromController(s.ctl.busy[k])).value.0;
    }
  }

  lemma ControllerSendKeepsInv(s: Sys, k: string, d: Delivery)
    requires Inv(s)
    ensures Inv(CtlSendNext(s, k, d))
  {
    var c := ControllerSendIsAtomic(s, k, d);
    if CtlSendNext(s, k, d).h != s.h {
      PluginsExtend(s, c);
    }
  }

  lemma ControllerKeepsInv(s: Sys, st: CtlStep)
    requires Inv(s)
    ensures Inv(Next(s, ByController(st)))
  {
    match st
    case CtlSend(k, d) => ControllerSendKeepsInv(s, k, d);
    case CtlBegin(k) =>
      if k in s.h.snaps[s.ctl.seen] {
        SnapshotVersion(s.h, s.ctl.seen, k);
      }
    case _ =>
  }

  lemma StepKeepsInv(s: Sys, step: Step)
    requires Inv(s)
    ensures Inv(Next(s, step))
  {
    match step
    case ByUser(u) => UserKeepsInv(s, u);
    case ByController(st) => ControllerKeepsInv(s, st);
    case Land(f) => LandKeepsInv(s, f);
    case ByPlugin(n, st) =>
      if n in s.plugins {
        if st.Send? {
          PluginSendKeepsInv(s, n, st.delivery);
        } else {
          PluginLocalKeepsInv(s, n, st);
        }
      }
  }

  /** Who makes the commit of a step. */
  function StepWriter(step: Step): Writer {
    match step
    case ByUser(_) => User
    case ByController(_) => Manager
    case ByPlugin(n, _) => PluginOn(n)
    case Land(f) => Sender(f)
  }

  /** The commit of a step, if it made one. */
  lemma StepIsAtomic(s: Sys, step: Step) returns (c: Commit)
    requires Inv(s)
    ensures AtMostOneCommit(s.h, Next(s, step).h, c)
    ensures c.who == StepWriter(step)
    ensures step.ByPlugin? && !step.p.Send? ==> Next(s, step).h == s.h
  {
    match step
    case ByUser(u) => c := UserIsAtomic(s.h, u);
    case ByController(st) =>
      c := Commit(Manager, Terminated(""));
      if st.CtlSend? {
        c := ControllerSendIsAtomic(s, st.key, st.delivery);
      }
    case Land(f) =>
      c := Commit(Sender(f), Initiated(""));
      if f in s.air {
        CarriedIsAtomic(s.h, s.used, f);
        c := Carried(f).value.0;
      }
    case ByPlugin(n, st) =>
      c := Commit(PluginOn(n), Initiated(""));
      if n in s.plugins && st.Send? && Request(n, s.plugins[n].op).Some? {
        assert PluginOk(s.h, s.used, n, s.plugins[n]);
        RequestIsAtomic(s.h, s.used, n, s.plugins[n].op);
        c := Request(n, s.plugins[n].op).value.0;
      }
  }

  lemma {:induction false} RunKeepsInv(s: Sys, steps: seq<Step>)
    requires Inv(s)
    ensures Inv(Run(s, steps))
  {
    if steps != [] {
      RunKeepsInv(s, steps[..|steps| - 1]);
      StepKeepsInv(Run(s, steps[..|steps| - 1]), steps[|steps| - 1]);
    }
  }

  /** For every interleaving over arbitrarily lagging caches, with crashes, lost replies and retries,
      the committed history is a run of the atomic ledger machine in which no volume ID repeats. */
  lemma StaleReadsAreHarmless(nodes: set<string>, steps: seq<Step>)
    ensures Valid(Run(Start(nodes), steps).h)
    ensures FreshIds(Run(Start(nodes), steps).h.log)
  {
    assert Inv(Start(nodes));
    RunKeepsInv(Start(nodes), steps);
  }

  /** The history of a run. */
  ghost function HistoryOf(nodes: set<string>, steps: seq<Step>): (h: Hist)
    ensures Valid(h) && FreshIds(h.log)
  {
    StaleReadsAreHarmless(nodes, steps);
    Run(Start(nodes), steps).h
  }
}
