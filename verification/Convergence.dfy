/** No wake-up is lost, so a quiet system has converged. */
module Convergence {
  import opened Types
  import opened Ledger
  import opened Accounting
  import opened Workqueue
  import opened Reconcile
  import opened Protocol
  import opened Refinement

  /** The plugin still has k in hand, has given it up, or has nothing to do for this version. */
  predicate PluginHolds(p: Plugin, k: string, o: LocalStorage) {
    || Queued(p.queue, k)
    || p.work == Some(k)
    || k in p.queue.dropped
    || (o.status.phase == Initiating && o.spec.path.None?)
  }

  /** Every current version that passes the filter and has been announced is in the plugin's hands. */
  ghost predicate PluginWake(h: Hist, n: string, p: Plugin)
    requires h.snaps != []
  {
    forall k :: k in Cur(h) && Assigned(Cur(h)[k], n) && Cur(h)[k].rv <= p.told ==> PluginHolds(p, k, Cur(h)[k])
  }

  ghost predicate ControllerWake(h: Hist, c: Controller)
    requires h.snaps != []
  {
    forall k :: k in Cur(h) && NeedsController(Cur(h)[k]) && Cur(h)[k].rv <= c.told ==>
      Queued(c.queue, k) || k in c.got || k in c.busy || k in c.queue.dropped
  }

  ghost predicate WakeInv(s: Sys) {
    && Inv(s)
    && (forall n :: n in s.plugins ==> PluginWake(s.h, n, s.plugins[n]))
    && ControllerWake(s.h, s.ctl)
  }

  /** After a commit, an object old enough to have been announced is an unchanged one. */
  lemma AnnouncedIsUnchanged(h: Hist, c: Commit, k: string, told: nat)
    requires Valid(h) && Can(c, Cur(h)) && told < |h.snaps|
    requires k in Cur(Extend(h, c)) && Cur(Extend(h, c))[k].rv <= told
    ensures k in Cur(h) && Cur(h)[k] == Cur(Extend(h, c))[k] && c.act.name != k
  {
    EffectOn(c, Cur(h), |h.snaps|, k);
  }

  lemma CommitKeepsWake(h: Hist, c: Commit, n: string, p: Plugin)
    requires Valid(h) && Can(c, Cur(h)) && p.told < |h.snaps| && PluginWake(h, n, p)
    ensures PluginWake(Extend(h, c), n, p)
  {
    forall k | k in Cur(Extend(h, c)) && Cur(Extend(h, c))[k].rv <= p.told
      ensures k in Cur(h) && Cur(h)[k] == Cur(Extend(h, c))[k]
    {
      AnnouncedIsUnchanged(h, c, k, p.told);
    }
  }

  lemma CommitKeepsControllerWake(h: Hist, c: Commit, ctl: Controller)
    requires Valid(h) && Can(c, Cur(h)) && ctl.told < |h.snaps| && ControllerWake(h, ctl)
    ensures ControllerWake(Extend(h, c), ctl)
  {
    forall k | k in Cur(Extend(h, c)) && Cur(Extend(h, c))[k].rv <= ctl.told
      ensures k in Cur(h) && Cur(h)[k] == Cur(Extend(h, c))[k]
    {
      AnnouncedIsUnchanged(h, c, k, ctl.told);
    }
  }

  /** The event at revision i is about the object whose version it is. */
  lemma EventNamesItsObject(h: Hist, i: nat, k: string)
    requires Valid(h) && 0 < i < |h.snaps| && k in Cur(h) && Cur(h)[k].rv == i
    ensures k in h.snaps[i] && h.snaps[i][k] == Cur(h)[k] && h.log[i - 1].act.name == k
  {
    VersionStable(h, |h.snaps| - 1, i, k);
    StepBack(h, i);
    EffectOn(h.log[i - 1], h.snaps[i - 1], i, k);
    if h.log[i - 1].act.name != k {
      RvBound(h, i - 1, k);
    }
  }

  lemma HearKeepsWake(s: Sys, n: string)
    requires WakeInv(s) && n in s.plugins
    ensures PluginWake(s.h, n, PluginLocal(s, n, Hear))
  {
    var p := s.plugins[n];
    assert PluginOk(s.h, s.used, n, p) && PluginWake(s.h, n, p);
    if p.told < p.seen {
      forall k | k in Cur(s.h) && Cur(s.h)[k].rv == p.told + 1
        ensures k in s.h.snaps[p.told + 1] && s.h.snaps[p.told + 1][k] == Cur(s.h)[k] && s.h.log[p.told].act.name == k
      {
        EventNamesItsObject(s.h, p.told + 1, k);
      }
    }
  }

  /** The key that is taken goes to the worker, or fails and is put back or dropped, or needs nothing. */
  lemma BeginHolds(h: Hist, n: string, p: Plugin, key: string, dirOk: bool)
    requires Valid(h) && p.told <= p.seen < |h.snaps| && p.op.Idle? && p.work == Some(key) && PluginWake(h, n, p)
    ensures PluginWake(h, n, BeginSync(h, p, key, dirOk))
  {
    if key in Cur(h) && Cur(h)[key].rv <= p.told {
      VersionStable(h, |h.snaps| - 1, p.seen, key);
      SnapshotVersion(h, p.seen, key);
    }
  }

  lemma BeginKeepsWake(s: Sys, n: string, dirOk: bool)
    requires WakeInv(s) && n in s.plugins
    ensures PluginWake(s.h, n, PluginLocal(s, n, SyncBegin(dirOk)))
  {
    var p := s.plugins[n];
    assert PluginOk(s.h, s.used, n, p) && PluginWake(s.h, n, p);
    if p.op.Idle? && p.work.Some? {
      BeginHolds(s.h, n, p, p.work.value, dirOk);
    }
  }

  lemma RestartKeepsWake(s: Sys, n: string, at: nat)
    requires WakeInv(s) && n in s.plugins
    ensures PluginWake(s.h, n, PluginLocal(s, n, Restart(at)))
  {
    assert PluginOk(s.h, s.used, n, s.plugins[n]) && PluginWake(s.h, n, s.plugins[n]);
    if at < |s.h.snaps| {
      forall k | k in Cur(s.h) && Assigned(Cur(s.h)[k], n) && Cur(s.h)[k].rv <= at
        ensures k in FilteredKeys(s.h.snaps[at], n)
      {
        VersionStable(s.h, |s.h.snaps| - 1, at, k);
      }
    }
  }

  lemma HearListKeepsWake(s: Sys, n: string, upto: nat)
    requires WakeInv(s) && n in s.plugins
    ensures PluginWake(s.h, n, PluginLocal(s, n, HearList(upto)))
  {
    var p := s.plugins[n];
    assert PluginOk(s.h, s.used, n, p) && PluginWake(s.h, n, p);
    if p.told <= upto <= p.seen {
      forall k | k in Cur(s.h) && Assigned(Cur(s.h)[k], n) && Cur(s.h)[k].rv <= upto
        ensures k in FilteredKeys(s.h.snaps[upto], n)
      {
        VersionStable(s.h, |s.h.snaps| - 1, upto, k);
      }
    }
  }

  lemma LocalKeepsWake(s: Sys, n: string, st: PluginStep)
    requires WakeInv(s) && n in s.plugins && !st.Send?
    ensures PluginWake(s.h, n, PluginLocal(s, n, st))
  {
    assert PluginWake(s.h, n, s.plugins[n]);
    match st
    case Hear => HearKeepsWake(s, n);
    case SyncBegin(dirOk) => BeginKeepsWake(s, n, dirOk);
    case HearList(upto) => HearListKeepsWake(s, n, upto);
    case Restart(at) => RestartKeepsWake(s, n, at);
    case _ =>
  }

  lemma UnansweredKeepsWake(h: Hist, n: string, p: Plugin)
    requires h.snaps != [] && PluginWake(h, n, p) && Request(n, p.op).Some?
    requires p.op.Syncing? ==> p.work == Some(p.op.view.name)
    ensures PluginWake(h, n, AfterSend(p, false))
  {
  }

  /** A sync that was accepted replaced the version it was woken for. */
  lemma AnswerKeepsWake(h: Hist, used: set<string>, n: string, p: Plugin, ok: bool)
    requires Valid(h) && PluginOk(h, used, n, p) && PluginWake(h, n, p) && Request(n, p.op).Some?
    requires ok ==> Accepted(Submit(h, Request(n, p.op).value.0, Request(n, p.op).value.1).1)
    ensures PluginWake(Submit(h, Request(n, p.op).value.0, Request(n, p.op).value.1).0, n, AfterSend(p, ok))
  {
    var (c, o) := Request(n, p.op).value;
    RequestIsAtomic(h, used, n, p.op);
    var (h', r) := Submit(h, c, o);
    if h' != h {
      CommitKeepsWake(h, c, n, p);
      if p.op.view.name in Cur(h') {
        EffectOn(c, Cur(h), |h.snaps|, p.op.view.name);
      }
    }
  }

  lemma SendKeepsWake(s: Sys, n: string, d: Delivery)
    requires WakeInv(s) && n in s.plugins
    ensures WakeInv(PluginSend(s, n, d))
  {
    PluginSendKeepsInv(s, n, d);
    var p := s.plugins[n];
    assert PluginOk(s.h, s.used, n, p);
    if Request(n, p.op).Some? {
      var (c, o) := Request(n, p.op).value;
      var (h', r) := Submit(s.h, c, o);
      UnansweredKeepsWake(s.h, n, p);
      AnswerKeepsWake(s.h, s.used, n, p, d.Answered? && Accepted(r));
      RequestIsAtomic(s.h, s.used, n, p.op);
      if h' != s.h {
        CommitKeepsAllWake(s, c);
      }
    }
  }

  lemma LandKeepsWake(s: Sys, f: Flight)
    requires WakeInv(s) && f in s.air
    ensures WakeInv(LandNext(s, f))
  {
    LandKeepsInv(s, f);
    CarriedIsAtomic(s.h, s.used, f);
    if LandNext(s, f).h != s.h {
      CommitKeepsAllWake(s, Carried(f).value.0);
    }
  }

  lemma CommitKeepsAllWake(s: Sys, c: Commit)
    requires WakeInv(s) && Can(c, Cur(s.h))
    ensures ControllerWake(Extend(s.h, c), s.ctl)
    ensures forall a :: a in s.plugins ==> PluginWake(Extend(s.h, c), a, s.plugins[a])
  {
    CommitKeepsControllerWake(s.h, c, s.ctl);
    forall a | a in s.plugins
      ensures PluginWake(Extend(s.h, c), a, s.plugins[a])
    {
      assert PluginOk(s.h, s.used, a, s.plugins[a]);
      CommitKeepsWake(s.h, c, a, s.plugins[a]);
    }
  }

  lemma ControllerLocalKeepsWake(s: Sys, st: CtlStep)
    requires WakeInv(s) && !st.CtlSend?
    ensures ControllerWake(s.h, CtlLocal(s.h, s.ctl, st))
  {
    var c := s.ctl;
    match st
    case CtlHear =>
      forall k | k in Cur(s.h) && Cur(s.h)[k].rv == c.told + 1 && c.told < c.seen
        ensures s.h.log[c.told].act.name == k
      {
        EventNamesItsObject(s.h, c.told + 1, k);
      }
    case CtlBegin(k) =>
      if k in Cur(s.h) && Cur(s.h)[k].rv <= c.told {
        VersionStable(s.h, |s.h.snaps| - 1, c.seen, k);
      }
    case CtlHearList(upto) =>
      forall k | k in Cur(s.h) && Cur(s.h)[k].rv <= upto <= c.seen
        ensures k in s.h.snaps[upto]
      {
        VersionStable(s.h, |s.h.snaps| - 1, upto, k);
      }
    case CtlRestart(at) =>
      forall k | k in Cur(s.h) && Cur(s.h)[k].rv <= at < |s.h.snaps|
        ensures k in s.h.snaps[at]
      {
        VersionStable(s.h, |s.h.snaps| - 1, at, k);
      }
    case _ =>
  }

  lemma ControllerSendKeepsWake(s: Sys, k: string, d: Delivery)
    requires WakeInv(s)
    ensures WakeInv(CtlSendNext(s, k, d))
  {
    ControllerKeepsInv(s, CtlSend(k, d));
    var c := ControllerSendIsAtomic(s, k, d);
    if CtlSendNext(s, k, d).h != s.h {
      CommitKeepsAllWake(s, c);
      if k in Cur(Extend(s.h, c)) {
        EffectOn(c, Cur(s.h), |s.h.snaps|, k);
      }
    } else if k in s.ctl.busy && !d.NeverSent? && !d.InFlight? {
      ControllerUnchangedIsRejected(s.h, s.ctl.busy[k]);
    }
  }

  /** The controller never sends a write that changes nothing. */
  lemma ControllerUnchangedIsRejected(h: Hist, view: LocalStorage)
    requires Valid(h) && IsVersion(h, view) && SyncStorage(view).Write?
    ensures var o := SyncStorage(view).obj; !Submit(h, Commit(Manager, PhaseAct(o)), o).1.Unchanged?
    ensures var o := SyncStorage(view).obj; var (h', r) := Submit(h, Commit(Manager, PhaseAct(o)), o);
            h' == h ==> !Accepted(r)
  {
    var o := SyncStorage(view).obj;
    if view.name in Cur(h) && Cur(h)[view.name] == view {
      SyncStorageIsAtomic(h, view);
    }
    StatusUpdateIsAtomic(h, view, Commit(Manager, PhaseAct(o)), o);
  }

  lemma StepKeepsWake(s: Sys, step: Step)
    requires WakeInv(s)
    ensures WakeInv(Next(s, step))
  {
    StepKeepsInv(s, step);
    match step
    case ByUser(u) =>
      var c := UserIsAtomic(s.h, u);
      if UserNext(s.h, u) != s.h {
        CommitKeepsAllWake(s, c);
      }
    case ByController(st) =>
      if st.CtlSend? {
        ControllerSendKeepsWake(s, st.key, st.delivery);
      } else {
        ControllerLocalKeepsWake(s, st);
      }
    case Land(f) =>
      if f in s.air {
        LandKeepsWake(s, f);
      }
    case ByPlugin(n, st) =>
      if n in s.plugins {
        if st.Send? {
          SendKeepsWake(s, n, st.delivery);
        } else {
          LocalKeepsWake(s, n, st);
        }
      }
  }

  lemma {:induction false} RunKeepsWake(nodes: set<string>, steps: seq<Step>)
    ensures WakeInv(Run(Start(nodes), steps))
  {
    if steps == [] {
      assert Inv(Start(nodes));
    } else {
      RunKeepsWake(nodes, steps[..|steps| - 1]);
      StepKeepsWake(Run(Start(nodes), steps[..|steps| - 1]), steps[|steps| - 1]);
    }
  }

  // ---------- quiescence ----------

  /** Every handler has heard every event, and no queue or worker holds anything. */
  ghost predicate Quiet(s: Sys)
    requires s.h.snaps != []
  {
    && s.ctl.told == |s.h.snaps| - 1 && s.ctl.queue.active == {} && s.ctl.queue.delayed == {}
    && s.ctl.got == {} && s.ctl.busy == map[]
    && forall n :: n in s.plugins ==>
         && s.plugins[n].told == |s.h.snaps| - 1 && s.plugins[n].queue.active == {} && s.plugins[n].queue.delayed == {}
         && s.plugins[n].work.None?
  }

  /** The phase an object is meant to settle in. */
  function Settled(o: LocalStorage): Phase {
    if o.marked then Terminating else if o.spec.path.Some? then Ready else Initiating
  }

  /** However the components raced, crashed and retried: once nothing is left to do, every object that
      no worker gave up on is Terminating if it is marked, Ready with its quantities filled in if it has
      a path backend, and otherwise waiting in Initiating for one. */
  lemma QuietMeansConverged(nodes: set<string>, steps: seq<Step>, k: string)
    requires var s := Run(Start(nodes), steps); Quiet(s) && k in Cur(s.h)
    requires var s := Run(Start(nodes), steps); var n := Cur(s.h)[k].spec.node;
             n in s.plugins && k !in s.plugins[n].queue.dropped && k !in s.ctl.queue.dropped
    ensures var o := Cur(Run(Start(nodes), steps).h)[k];
            && o.status.phase == Settled(o)
            && (o.status.phase == Ready ==> o.status.allocatable.Some? && o.status.capacity.Some?)
  {
    RunKeepsWake(nodes, steps);
    var s := Run(Start(nodes), steps);
    var o := Cur(s.h)[k];
    var n := o.spec.node;
    assert PluginWake(s.h, n, s.plugins[n]);
    HistorySound(s.h, |s.h.snaps| - 1);
    RvBound(s.h, |s.h.snaps| - 1, k);
    assert !NeedsController(o);
  }

  lemma ControllerHasInitiated(s: Sys, k: string)
    requires WakeInv(s) && s.h.snaps != [] && k in Cur(s.h) && s.ctl.told == |s.h.snaps| - 1
    requires !Queued(s.ctl.queue, k) && k !in s.ctl.got && k !in s.ctl.busy && k !in s.ctl.queue.dropped
    ensures !NeedsController(Cur(s.h)[k])
  {
    RvBound(s.h, |s.h.snaps| - 1, k);
  }

  /** The controller's own part, whether or not the node has a running plugin: once it has heard everything and
      holds nothing, no unmarked object that it has not given up is Pending, and every marked one is
      Terminating. */
  lemma {:induction false} QuietControllerHasInitiated(nodes: set<string>, steps: seq<Step>, k: string)
    requires var s := Run(Start(nodes), steps);
             && s.ctl.told == |s.h.snaps| - 1 && !Queued(s.ctl.queue, k) && k !in s.ctl.got && k !in s.ctl.busy
             && k !in s.ctl.queue.dropped && k in Cur(s.h)
    ensures var o := Cur(Run(Start(nodes), steps).h)[k];
            if o.marked then o.status.phase == Terminating else o.status.phase != Pending
  {
    RunKeepsWake(nodes, steps);
    ControllerHasInitiated(Run(Start(nodes), steps), k);
  }

  // ---------- resyncs ----------

  /** A resync of the informer queues every object that its lister shows and its filter lets through. */
  lemma ResyncQueuesListed(s: Sys, n: string, k: string)
    requires Inv(s) && n in s.plugins
    ensures var p := s.plugins[n];
            k in PluginLocal(s, n, Resync).queue.active <==>
            k in p.queue.active || (k in s.h.snaps[p.seen] && s.h.snaps[p.seen][k].spec.node == n && Early(s.h.snaps[p.seen][k]))
    ensures k in CtlLocal(s.h, s.ctl, CtlResync).queue.active <==> k in s.ctl.queue.active || k in s.h.snaps[s.ctl.seen]
  {
    assert PluginOk(s.h, s.used, n, s.plugins[n]);
  }

  /** A list after an interrupted watch queues the same for the plugin; the controller also hears of every object
      it knew that is gone. */
  lemma RelistQueuesListed(s: Sys, n: string, upto: nat, k: string)
    requires Inv(s) && n in s.plugins
    ensures var p := s.plugins[n];
            p.told <= upto <= p.seen ==>
              (k in PluginLocal(s, n, HearList(upto)).queue.active <==>
               k in p.queue.active || (k in s.h.snaps[upto] && s.h.snaps[upto][k].spec.node == n && Early(s.h.snaps[upto][k])))
    ensures s.ctl.told <= upto <= s.ctl.seen ==>
              (k in CtlLocal(s.h, s.ctl, CtlHearList(upto)).queue.active <==>
               k in s.ctl.queue.active || k in s.h.snaps[s.ctl.told] || k in s.h.snaps[upto])
  {
    assert PluginOk(s.h, s.used, n, s.plugins[n]);
  }

  // ---------- racing initiators ----------

  predicate PhaseWrite(a: Act, k: string) {
    a.name == k && (a.Initiated? || a.MadeReady? || a.Terminated?)
  }

  function PhaseWrites(h: Hist, k: string, i: nat, j: nat): nat
    requires i <= j <= |h.log|
    decreases j
  {
    if i == j then 0 else PhaseWrites(h, k, i, j - 1) + if PhaseWrite(h.log[j - 1].act, k) then 1 else 0
  }

  /** What one commit adds to the stage of an unmarked object, against whether it writes the phase. */
  lemma PhaseWriteRaisesIff(h: Hist, j: nat, k: string)
    requires Valid(h) && 0 < j < |h.snaps| && k in h.snaps[j - 1] && k in h.snaps[j] && !h.snaps[j - 1][k].marked
    ensures var raised, wrote := Stage(h.snaps[j][k]) - Stage(h.snaps[j - 1][k]), if PhaseWrite(h.log[j - 1].act, k) then 1 else 0;
            && raised <= wrote
            && (raised == wrote <==> ReadyFromFiltered(h, k, j - 1, j))
  {
    StepBack(h, j);
    HistorySound(h, j - 1);
    EffectOn(h.log[j - 1], h.snaps[j - 1], j, k);
    var c := h.log[j - 1];
    assert ReadyFromFiltered(h, k, j - 1, j) <==> (c.act.MadeReady? && c.act.name == k ==> Early(h.snaps[j - 1][k]));
  }

  /** While an object is unmarked, the phase writes between two revisions are as many as the stages it rises by,
      Pending < Initiating < Ready, exactly if each of its Ready writes there replaced a filtered version,
      whoever makes them; otherwise there are more. */
  lemma {:induction false} RacingInitiatorsIff(h: Hist, i: nat, j: nat, k: string)
    requires Valid(h) && i <= j < |h.snaps| && k in h.snaps[i] && k in h.snaps[j]
    requires h.snaps[i][k].uid == h.snaps[j][k].uid && !h.snaps[j][k].marked
    ensures Stage(h.snaps[j][k]) - Stage(h.snaps[i][k]) <= PhaseWrites(h, k, i, j)
    ensures PhaseWrites(h, k, i, j) == Stage(h.snaps[j][k]) - Stage(h.snaps[i][k]) <==> ReadyFromFiltered(h, k, i, j)
    decreases j
  {
    if i < j {
      SameLife(h, i, j, k);
      StepFollows(h, j, k);
      PhaseWriteRaisesIff(h, j, k);
      RacingInitiatorsIff(h, i, j - 1, k);
      FilteredSplits(h, k, i, j);
    }
  }

  lemma FilteredSplits(h: Hist, k: string, i: nat, j: nat)
    requires i < j
    ensures ReadyFromFiltered(h, k, i, j) <==> ReadyFromFiltered(h, k, i, j - 1) && ReadyFromFiltered(h, k, j - 1, j)
  {
  }

  /** So with filtered Ready writes at most two phase writes occur, and each raises the stage. */
  lemma RacingInitiatorsConverge(h: Hist, i: nat, j: nat, k: string)
    requires Valid(h) && i <= j < |h.snaps| && k in h.snaps[i] && k in h.snaps[j]
    requires h.snaps[i][k].uid == h.snaps[j][k].uid && !h.snaps[j][k].marked && ReadyFromFiltered(h, k, i, j)
    ensures PhaseWrites(h, k, i, j) == Stage(h.snaps[j][k]) - Stage(h.snaps[i][k]) <= 2
  {
    RacingInitiatorsIff(h, i, j, k);
  }
}
