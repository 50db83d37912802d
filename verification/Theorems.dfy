/** What every run of the whole system keeps, from a cluster without objects on: the theorems about
    histories, carried over to all interleavings with stale caches, crashes, lost replies and retries. */
module Theorems {
  import opened Types
  import opened Volumes
  import opened Admission
  import opened Ledger
  import opened Accounting
  import opened Reconcile
  import opened Protocol
  import opened Refinement
  import opened CrashOrdering
  import opened Ownership
  import opened Convergence
  import opened Termination
  import Driver
  import opened Nodes
  import opened Scheduler
  import opened Promises

  /** Bytes: the drift of an initialised object is what stood in it at the last Ready write, so exact
      conservation holds if and only if that was nothing, in particular if every Ready write in its life
      replaced a version that the informer filter accepts. It has been within its capacity all its life if
      and only if each commit met its guard; without drift, if and only if each commit was affordable. */
  lemma EveryRunConservesCapacity(nodes: set<string>, steps: seq<Step>, i: nat, k: string)
    requires var h := HistoryOf(nodes, steps); i < |h.snaps| && k in h.snaps[i] && h.snaps[i][k].status.capacity.Some?
    ensures var h := HistoryOf(nodes, steps); var st, uid := h.snaps[i][k].status, h.snaps[i][k].uid;
            && st.allocatable.Some?
            && st.allocatable.value + TotalSize(st.volumes) - st.capacity.value == StandingAtReady(h, k, i)
            && (Conserved(st) <==> StandingAtReady(h, k, i) == 0)
            && (ReadyFromFiltered(h, k, uid, i) ==> NoDrift(h, k, uid, i) && Conserved(st))
            && (AlwaysWithin(h, k, uid, i) <==> AllGuarded(h, k, uid, i))
            && (NoDrift(h, k, uid, i) ==> (AlwaysWithin(h, k, uid, i) <==> Affordable(h, k, uid, i)))
  {
    var h := HistoryOf(nodes, steps);
    var uid := h.snaps[i][k].uid;
    DriftIsStandingAtReady(h, i, k);
    ConservedIff(h, i, k);
    NoOvercommitIff(h, i, k);
    if ReadyFromFiltered(h, k, uid, i) {
      ConservationWhenFiltered(h, i, k);
      FilteredHasNoDrift(h, i, k);
    }
    if NoDrift(h, k, uid, i) {
      NoOvercommitWithoutDriftIff(h, i, k);
    }
  }

  /** Lives: between any two revisions of one object the spec is write-once and the phase never returns
      to Pending or Initiating from a later stage; every version is well-formed and has its quantities
      when Ready and no volumes when without them; no two objects share a node. */
  lemma EveryRunIsMonotone(nodes: set<string>, steps: seq<Step>, i: nat, j: nat, k: string)
    requires var h := HistoryOf(nodes, steps);
             i <= j < |h.snaps| && k in h.snaps[i] && k in h.snaps[j] && h.snaps[i][k].uid == h.snaps[j][k].uid
    ensures var h := HistoryOf(nodes, steps);
            && Follows(h.snaps[i][k], h.snaps[j][k])
            && Sound(h.snaps[j][k]) && NodesUnique(h.snaps[j])
            && !(h.snaps[j][k].spec.path.Some? && h.snaps[j][k].spec.lvm.Some?)
  {
    var h := HistoryOf(nodes, steps);
    LifeIsMonotone(h, i, j, k);
    HistorySound(h, j);
  }

  /** Volumes: each is debited at most once and credited at most as often, over all retries and crashes,
      and the committed list is the live volumes in the order of their creation. */
  lemma EveryRunCountsOnce(nodes: set<string>, steps: seq<Step>, i: nat, k: string, id: string)
    requires var h := HistoryOf(nodes, steps); i < |h.snaps| && k in h.snaps[i]
    ensures var h := HistoryOf(nodes, steps);
            && CreditCount(h.log, id, i) <= DebitCount(h.log, id, i) <= 1
            && (id in Ids(h.snaps[i][k].status.volumes) ==> DebitCount(h.log, id, i) == 1 && CreditCount(h.log, id, i) == 0)
            && h.snaps[i][k].status.volumes == Survivors(AddedTo(h, k, i), RemovedFrom(h, k, i))
  {
    var h := HistoryOf(nodes, steps);
    ExactlyOnce(h, i, id);
    ListIsCreationOrder(h, i, k);
    assert Live(h.snaps[i], k, id) <==> id in Ids(h.snaps[i][k].status.volumes);
  }

  /** Delivering a delete of an ID that is not in the ledger commits nothing, in time or late, however stale
      the plugin's copy is. */
  lemma UnknownDeleteCommitsNothing(nodes: set<string>, steps: seq<Step>, step: Step)
    requires var s := Run(Start(nodes), steps);
             && ((step.ByPlugin? && step.node in s.plugins && step.p.Send?) || (step.Land? && step.f in s.air))
             && StepOp(s, step).Deleting? && !Live(Cur(s.h), StepOp(s, step).view.name, StepOp(s, step).id)
    ensures var s := Run(Start(nodes), steps); Next(s, step).h == s.h
  {
    assert Inv(Start(nodes));
    RunKeepsInv(Start(nodes), steps);
    UnknownDeleteIsNoStep(Run(Start(nodes), steps), step);
  }

  lemma UnknownDeleteIsNoStep(s: Sys, step: Step)
    requires Inv(s)
    requires (step.ByPlugin? && step.node in s.plugins && step.p.Send?) || (step.Land? && step.f in s.air)
    requires StepOp(s, step).Deleting? && !Live(Cur(s.h), StepOp(s, step).view.name, StepOp(s, step).id)
    ensures Next(s, step).h == s.h
  {
    if step.ByPlugin? {
      assert PluginOk(s.h, s.used, step.node, s.plugins[step.node]);
      if Request(step.node, s.plugins[step.node].op).Some? {
        RequestIsAtomic(s.h, s.used, step.node, s.plugins[step.node].op);
      }
    } else {
      CarriedIsAtomic(s.h, s.used, step.f);
    }
  }

  // ---------- calls from a current copy ----------

  /** The plugin is idle and its lister shows the current store, with the node's object k. */
  ghost predicate CaughtUp(s: Sys, n: string, k: string) {
    && s.h.snaps != [] && n in s.plugins && s.plugins[n].op.Idle? && s.plugins[n].seen == |s.h.snaps| - 1
    && Bound(Cur(s.h), k, n)
  }

  /** From the current version DeleteVolume answers with success, every reply arriving, if and only if
      Allocatable is set. Without it the call panics before it has changed anything, even for an ID that
      is unknown. */
  lemma DeleteSucceedsIff(h: Hist, n: string, k: string, id: string, dirs: set<string>)
    requires Valid(h) && Bound(Cur(h), k, n) && id != ""
    ensures var (dirs', m, rev, answer) := Driver.DeleteResult(Some(Cur(h)[k]), id, Answered, true, dirs, Cur(h), |h.snaps| - 1);
            && (answer.Done? <==> Cur(h)[k].status.allocatable.Some?)
            && (!answer.Done? ==> answer.Panicked? && dirs' == dirs && m == Cur(h) && rev == |h.snaps| - 1)
            && (answer.Done? ==> dirs' == dirs - {id} && Gone(m, n, id))
  {
    if Cur(h)[k].status.allocatable.Some? {
      CurrentDeleteAccepted(h, n, k, id);
      var (c, o) := Request(n, Deleting(Cur(h)[k], id)).value;
      Driver.SubmitIsSent(h, c, o, Answered);
    }
  }

  /** From the current version CreateVolume, given a new ID, answers with success if and only if Allocatable is
      set. Without it the call panics; the ledger is as it was, and the new directory stays behind. */
  lemma CreateSucceedsIff(h: Hist, n: string, k: string, v: Volume, dirs: set<string>)
    requires Valid(h) && Bound(Cur(h), k, n) && NeverAdded(h.log, v.volID) && v.volSize >= 0
    ensures var (dirs', m, rev, answer) := Driver.CreateResult(Some(Cur(h)[k]), true, v, DirMade, Answered, dirs, Cur(h), |h.snaps| - 1);
            && dirs' == dirs + {v.volID}
            && (answer.Done? <==> Cur(h)[k].status.allocatable.Some?)
            && (!answer.Done? ==> answer.Panicked? && m == Cur(h) && rev == |h.snaps| - 1 && forall j :: !Live(m, j, v.volID))
            && (answer.Done? ==> Live(m, k, v.volID) && rev == |h.snaps|)
  {
    var view := Cur(h)[k];
    SnapshotVersion(h, |h.snaps| - 1, k);
    if view.status.allocatable.Some? {
      CurrentCreateCommits(h, {v.volID}, n, view, v);
      var (c, o) := Request(n, Creating(view, v)).value;
      Driver.SubmitIsSent(h, c, o, Answered);
      CurrentCreateIsAccepted(h, n, view, v);
      CreateIsAtomic(h, {v.volID}, n, view, v);
      assert v in o.status.volumes;
    } else {
      forall j | Live(Cur(h), j, v.volID)
        ensures false
      {
        LiveAtHome(h, |h.snaps| - 1, j, v.volID);
      }
    }
  }

  lemma CurrentCreateIsAccepted(h: Hist, n: string, view: LocalStorage, v: Volume)
    requires Valid(h) && OpOk(h, {v.volID}, n, Creating(view, v)) && view.name in Cur(h) && Cur(h)[view.name] == view
    ensures Request(n, Creating(view, v)).Some?
    ensures var (c, o) := Request(n, Creating(view, v)).value; Submit(h, c, o).1 == Replaced(o.(rv := |h.snaps|))
  {
    var (c, o) := Request(n, Creating(view, v)).value;
    CurrentCreateCommits(h, {v.volID}, n, view, v);
    RequestIsAtomic(h, {v.volID}, n, Creating(view, v));
    VersionSound(h, view);
    StatusWritePasses(view, o);
  }

  /** A request computed from the current version is accepted and removes the ID, or changes nothing if
      the ID was not there; there is such a request exactly if Allocatable is set. */
  lemma CurrentDeleteAccepted(h: Hist, n: string, k: string, id: string)
    requires Valid(h) && Bound(Cur(h), k, n)
    ensures Request(n, Deleting(Cur(h)[k], id)).Some? <==> Cur(h)[k].status.allocatable.Some?
    ensures Cur(h)[k].status.allocatable.Some? ==>
              var (c, o) := Request(n, Deleting(Cur(h)[k], id)).value; var (h', r) := Submit(h, c, o);
              && Accepted(r) && Gone(Cur(h'), n, id)
              && Bound(Cur(h'), k, n) && Cur(h')[k].status.allocatable.Some?
              && (!Live(Cur(h), k, id) ==> h' == h)
  {
    var view := Cur(h)[k];
    if view.status.allocatable.Some? {
      SnapshotVersion(h, |h.snaps| - 1, k);
      VersionSound(h, view);
      DeleteIsAtomic(h, n, view, id);
      RequestIsAtomic(h, {}, n, Deleting(view, id));
      AcceptedDeleteIsGone(h, {}, n, Deleting(view, id));
      StatusWritePasses(view, DeleteEdit(view, id).value);
    }
  }

  /** DeleteVolume with every answer arriving, and the lister catching up with the result. */
  ghost function Deleted(s: Sys, n: string, k: string, id: string): (s': Sys)
    requires s.h.snaps != []
    ensures s'.h.snaps != []
  {
    var s3 := Next(Next(Next(s, ByPlugin(n, DeleteBegin(k, id))), ByPlugin(n, Send(Answered))), ByPlugin(n, RemoveDir(true)));
    Next(s3, ByPlugin(n, See(|s3.h.snaps| - 1)))
  }

  /** s with another history and another plugin on n. */
  function With(s: Sys, h: Hist, n: string, p: Plugin): Sys {
    s.(h := h, plugins := s.plugins[n := p])
  }

  lemma DeleteBegins(s: Sys, n: string, k: string, id: string)
    requires |s.h.snaps| == |s.h.log| + 1 && CaughtUp(s, n, k) && Cur(s.h)[k].status.allocatable.Some?
    ensures Next(s, ByPlugin(n, DeleteBegin(k, id))) == With(s, s.h, n, s.plugins[n].(op := Deleting(Cur(s.h)[k], id)))
  {
  }

  lemma DeleteSends(s: Sys, h': Hist, n: string, op: Op)
    requires s.h.snaps != [] && n in s.plugins && op.Deleting? && Request(n, op).Some?
    requires var (c, o) := Request(n, op).value; Submit(s.h, c, o).0 == h' && Accepted(Submit(s.h, c, o).1)
    ensures Next(With(s, s.h, n, s.plugins[n].(op := op)), ByPlugin(n, Send(Answered)))
            == With(s, h', n, s.plugins[n].(op := Removing(op.id)))
  {
  }

  lemma DeleteEnds(s: Sys, h': Hist, n: string, id: string)
    requires n in s.plugins && s.plugins[n].op.Idle? && |h'.snaps| == |h'.log| + 1 && s.plugins[n].seen < |h'.snaps|
    ensures var p := s.plugins[n];
            var s3 := Next(With(s, h', n, p.(op := Removing(id))), ByPlugin(n, RemoveDir(true)));
            Next(s3, ByPlugin(n, See(|h'.snaps| - 1))) == With(s, h', n, p.(seen := |h'.snaps| - 1, dirs := p.dirs - {id}))
            && s3.h == h'
  {
  }

  /** The state that DeleteVolume ends in. */
  lemma DeletePasses(s: Sys, n: string, k: string, id: string, h': Hist)
    requires |s.h.snaps| == |s.h.log| + 1 && CaughtUp(s, n, k) && Request(n, Deleting(Cur(s.h)[k], id)).Some?
    requires var (c, o) := Request(n, Deleting(Cur(s.h)[k], id)).value;
             Submit(s.h, c, o).0 == h' && Accepted(Submit(s.h, c, o).1)
    requires |h'.snaps| == |h'.log| + 1 && |s.h.snaps| <= |h'.snaps|
    ensures var p := s.plugins[n];
            Deleted(s, n, k, id) == With(s, h', n, p.(seen := |h'.snaps| - 1, dirs := p.dirs - {id}))
  {
    DeleteBegins(s, n, k, id);
    DeleteSends(s, h', n, Deleting(Cur(s.h)[k], id));
    DeleteEnds(s, h', n, id);
  }

  /** A call that panics leaves the state as it is. */
  lemma DeletePanics(s: Sys, n: string, k: string, id: string)
    requires |s.h.snaps| == |s.h.log| + 1 && CaughtUp(s, n, k) && Cur(s.h)[k].status.allocatable.None?
    ensures Deleted(s, n, k, id) == s
  {
    assert s.plugins[n := s.plugins[n]] == s.plugins;
  }

  /** In every reachable state: from a current copy DeleteVolume gets through, whatever earlier attempts
      left behind, if and only if Allocatable is set. The ID is then in no object of the node, its
      directory is gone and every other one stays; an ID that was not there leaves the ledger as it was.
      Otherwise nothing changes at all. */
  lemma CurrentDeleteSucceeds(s: Sys, n: string, k: string, id: string)
    requires Inv(s) && CaughtUp(s, n, k)
    ensures var s' := Deleted(s, n, k, id);
            if Cur(s.h)[k].status.allocatable.Some? then
              && CaughtUp(s', n, k) && Cur(s'.h)[k].status.allocatable.Some?
              && s'.plugins[n].dirs == s.plugins[n].dirs - {id}
              && Gone(Cur(s'.h), n, id)
              && (!Live(Cur(s.h), k, id) ==> s'.h == s.h)
            else s' == s
  {
    CurrentDeleteAccepted(s.h, n, k, id);
    if Cur(s.h)[k].status.allocatable.Some? {
      var (c, o) := Request(n, Deleting(Cur(s.h)[k], id)).value;
      var h' := Submit(s.h, c, o).0;
      assert |h'.snaps| == |h'.log| + 1 && |s.h.snaps| <= |h'.snaps|;
      DeletePasses(s, n, k, id, h');
    } else {
      DeletePanics(s, n, k, id);
    }
  }

  lemma DeletedKeepsInv(s: Sys, n: string, k: string, id: string)
    requires Inv(s)
    ensures Inv(Deleted(s, n, k, id))
  {
    StepKeepsInv(s, ByPlugin(n, DeleteBegin(k, id)));
    var s1 := Next(s, ByPlugin(n, DeleteBegin(k, id)));
    StepKeepsInv(s1, ByPlugin(n, Send(Answered)));
    var s2 := Next(s1, ByPlugin(n, Send(Answered)));
    StepKeepsInv(s2, ByPlugin(n, RemoveDir(true)));
    var s3 := Next(s2, ByPlugin(n, RemoveDir(true)));
    StepKeepsInv(s3, ByPlugin(n, See(|s3.h.snaps| - 1)));
  }

  /** DeleteVolume twice is DeleteVolume once, initialised or not. */
  lemma RepeatedDeleteIsIdempotent(s: Sys, n: string, k: string, id: string)
    requires Inv(s) && CaughtUp(s, n, k)
    ensures var s1 := Deleted(s, n, k, id); var s2 := Deleted(s1, n, k, id);
            n in s1.plugins && n in s2.plugins && s2.h == s1.h && s2.plugins[n].dirs == s1.plugins[n].dirs
  {
    CurrentDeleteSucceeds(s, n, k, id);
    DeletedKeepsInv(s, n, k, id);
    CurrentDeleteSucceeds(Deleted(s, n, k, id), n, k, id);
  }

  // ---------- phases ----------

  /** The state after a run, with everything that every step keeps. */
  ghost function StateOf(nodes: set<string>, steps: seq<Step>): (s: Sys)
    ensures WakeInv(s) && OwnInv(s) && TermInv(s) && BegunHaveDirs(s)
  {
    RunKeepsWake(nodes, steps);
    RunKeepsOwned(nodes, steps);
    RunKeepsBegun(nodes, steps);
    RunGrows(Start(nodes), steps);
    Run(Start(nodes), steps)
  }

  /** Reconcilers: from any reachable state on, the phase writes to k are bounded, by whoever made, as long
      as its object stays in the store. */
  lemma {:induction false} RunSettles(nodes: set<string>, before: seq<Step>, steps: seq<Step>, k: string)
    requires var s := StateOf(nodes, before); At(s, k) && k in Cur(Run(s, steps).h)
    ensures var s := StateOf(nodes, before); var s' := Run(s, steps);
            Cur(s'.h)[k].uid == Cur(s.h)[k].uid ==>
              && |s.h.log| <= |s'.h.log|
              && PhaseWrites(s'.h, k, |s.h.log|, |s'.h.log|) <= PotentialOf(s, k) + RunCost(s, steps, k)
  {
    var s := StateOf(nodes, before);
    if Cur(Run(s, steps).h)[k].uid == Cur(s.h)[k].uid {
      PhaseWritesBounded(s, steps, k);
    }
  }

  /** Termination: a reachable state that has absorbed it never leaves it, as long as the object stays. */
  lemma {:induction false} RunStaysTerminating(nodes: set<string>, before: seq<Step>, steps: seq<Step>, k: string)
    requires var s := StateOf(nodes, before); Absorbed(s, k) && k in Cur(Run(s, steps).h)
    ensures var s := StateOf(nodes, before); var s' := Run(s, steps);
            NoStaleRestart(s, steps, k) && Cur(s'.h)[k].uid == Cur(s.h)[k].uid ==> Cur(s'.h)[k].status.phase == Terminating
  {
    var s := StateOf(nodes, before);
    if Cur(Run(s, steps).h)[k].uid == Cur(s.h)[k].uid {
      TerminationIsAbsorbing(s, steps, k);
    }
  }

  /** The extender: on any snapshot of any run Filter dereferences no nil, and finds for every node the
      one object bound to it and the reason it cannot take a request, if any. */
  lemma EveryRunSchedulesSafely(nodes: set<string>, steps: seq<Step>, i: nat, list: seq<LocalStorage>, name: string)
    requires var h := HistoryOf(nodes, steps); i < |h.snaps| && Lists(list, h.snaps[i])
    ensures Dereferenceable(list)
    ensures FirstBound(list, name) == LastBound(list, name)
    ensures var h := HistoryOf(nodes, steps);
            forall k, request :: Bound(h.snaps[i], k, name) ==>
              var st := h.snaps[i][k].status;
              && (WhyNot(list, request, name) == Some(NotReady) <==> st.phase != Ready)
              && (WhyNot(list, request, name) == Some(TooSmall) <==> st.phase == Ready && st.allocatable.value < request)
              && (WhyNot(list, request, name) == None <==> st.phase == Ready && request <= st.allocatable.value)
    ensures var h := HistoryOf(nodes, steps);
            forall request :: WhyNot(list, request, name) == Some(NoLocalStorage) <==> forall k :: !Bound(h.snaps[i], k, name)
  {
    var h := HistoryOf(nodes, steps);
    SnapshotsAreDereferenceable(h, i, list);
    HistorySound(h, i);
    SearchesAgree(list, h.snaps[i], name);
    forall k | Bound(h.snaps[i], k, name)
      ensures var st := h.snaps[i][k].status; st.phase == Ready ==> st.allocatable.Some?
    {
      assert h.snaps[i][k] in list;
    }
    LastBoundFinds(list, name);
  }

  // ---------- answers ----------

  /** Whatever version a lister of any run shows, the calls keep their promises on it: it is sound, and it is
      what is stored if it carries the stored resource version. */
  lemma EveryCopyIsGenuine(nodes: set<string>, steps: seq<Step>, i: nat, k: string)
    requires var h := HistoryOf(nodes, steps); i < |h.snaps| && k in h.snaps[i]
    ensures var h := HistoryOf(nodes, steps); Genuine(Cur(h), h.snaps[i][k])
  {
    var h := HistoryOf(nodes, steps);
    SnapshotVersion(h, i, k);
    VersionIsGenuine(h, h.snaps[i][k]);
  }
}
