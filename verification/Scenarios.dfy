/** Runs of the protocol that show what the code does not do, and so why the theorems have conditions. */
module Scenarios {
  import opened Types
  import opened Volumes
  import opened Admission
  import opened Ledger
  import opened Accounting
  import opened Workqueue
  import opened Reconcile
  import opened Protocol
  import Scheduler

  /** The run from s through steps ends in s'. */
  ghost predicate Leads(s: Sys, steps: seq<Step>, s': Sys) {
    s.h.snaps != [] && Run(s, steps) == s'
  }

  lemma RunLast(s: Sys, steps: seq<Step>, step: Step)
    requires s.h.snaps != []
    ensures Run(s, steps + [step]) == Next(Run(s, steps), step)
  {
    assert (steps + [step])[..|steps|] == steps;
  }

  lemma SplitLast(a: seq<Step>, b: seq<Step>)
    requires b != []
    ensures a + b == a + b[..|b| - 1] + [b[|b| - 1]] && b == b[..|b| - 1] + [b[|b| - 1]]
  {
  }

  /** Two runs that end in the same state do so after one more step. */
  lemma SameNext(s: Sys, a: seq<Step>, t: Sys, b: seq<Step>, step: Step)
    requires s.h.snaps != [] && t.h.snaps != [] && Run(s, a) == Run(t, b)
    ensures Run(s, a + [step]) == Run(t, b + [step])
  {
    RunLast(s, a, step);
    RunLast(t, b, step);
  }

  lemma {:induction false} RunConcat(s: Sys, a: seq<Step>, b: seq<Step>)
    requires s.h.snaps != []
    ensures Run(s, a + b) == Run(Run(s, a), b)
    decreases b
  {
    if b == [] {
      assert a + b == a;
    } else {
      RunConcat(s, a, b[..|b| - 1]);
      SplitLast(a, b);
      SameNext(s, a + b[..|b| - 1], Run(s, a), b[..|b| - 1], b[|b| - 1]);
    }
  }

  lemma Then(s: Sys, a: seq<Step>, s1: Sys, b: seq<Step>, s2: Sys)
    requires Leads(s, a, s1) && Leads(s1, b, s2)
    ensures Leads(s, a + b, s2)
  {
    RunConcat(s, a, b);
  }

  /** The i-th step leads from the i-th state to the next one. */
  ghost predicate StepAt(states: seq<Sys>, steps: seq<Step>, i: nat) {
    i < |steps| && i + 1 < |states| && states[i].h.snaps != [] && Next(states[i], steps[i]) == states[i + 1]
  }

  lemma {:induction false} PathTo(states: seq<Sys>, steps: seq<Step>, n: nat)
    requires n <= |steps| && |states| == |steps| + 1 && states[0].h.snaps != []
    requires forall i :: 0 <= i < |steps| ==> StepAt(states, steps, i)
    ensures Leads(states[0], steps[..n], states[n])
  {
    if n > 0 {
      PathTo(states, steps, n - 1);
      assert StepAt(states, steps, n - 1);
      assert steps[..n][..n - 1] == steps[..n - 1];
    }
  }

  lemma Path(states: seq<Sys>, steps: seq<Step>)
    requires |states| == |steps| + 1 && states[0].h.snaps != []
    requires forall i :: 0 <= i < |steps| ==> StepAt(states, steps, i)
    ensures Leads(states[0], steps, states[|steps|])
  {
    PathTo(states, steps, |steps|);
    assert steps[..|steps|] == steps;
  }

  // ---------- histories with one object ----------

  function After(h: Hist, c: Commit, o: LocalStorage): Hist {
    Hist(h.snaps + [map["x" := o]], h.log + [c])
  }

  function Working(seen: nat, told: nat, active: set<string>, work: Option<string>, op: Op, dirs: set<string>): Plugin {
    Plugin(seen, told, Queue(active, {}, map[], {}), work, op, dirs)
  }

  const IDLE_CONTROLLER := Controller(0, 0, NO_WORK, {}, map[])

  function Solo(h: Hist, p: Plugin, used: set<string>, air: set<Flight>): Sys {
    Sys(h, map["n" := p], IDLE_CONTROLLER, used, air)
  }

  function ByN(st: PluginStep): Step {
    ByPlugin("n", st)
  }

  lemma QueueMoves()
    ensures var none, one := Queue({}, {}, map[], {}), Queue({"x"}, {}, map[], {});
            && Add(none, "x") == one && Add(one, "x") == one && Take(one, "x") == none
            && HandleErr(none, "x", false) == none && HandleErr(one, "x", false) == one
  {
    assert {} + {"x"} == {"x"} && {"x"} - {"x"} == {};
    var none: map<string, nat> := map[];
    assert none - {"x"} == none;
  }

  /** An answered request from the current version of x goes through. */
  lemma SendCommits(s: Sys, n: string, c: Commit, o: LocalStorage, view: LocalStorage)
    requires s.h.snaps != [] && Cur(s.h) == map["x" := view] && n in s.plugins && Request(n, s.plugins[n].op) == Some((c, o))
    requires view.name == "x" && WellFormed(view.spec) && LS_PROTECTION in view.finalizers
    requires o == view.(status := o.status) && o != view
    ensures PluginSend(s, n, Answered)
            == s.(h := After(s.h, c, o.(rv := |s.h.snaps|)), plugins := s.plugins[n := AfterSend(s.plugins[n], true)])
  {
    StatusWritePasses(view, o);
    assert Cur(s.h)["x" := o.(rv := |s.h.snaps|)] == map["x" := o.(rv := |s.h.snaps|)];
  }

  function WithPlugin(s: Sys, n: string, p: Plugin): Sys {
    s.(plugins := s.plugins[n := p])
  }

  /** The lister catches up, the worker gets x, and its sync is answered. */
  lemma RunOfSync(s: Sys, n: string, view: LocalStorage, o: LocalStorage) returns (steps: seq<Step>)
    requires |s.h.snaps| == |s.h.log| + 1 && Cur(s.h) == map["x" := view] && n in s.plugins
    requires var p := s.plugins[n];
             p.op.Idle? && p.work.None? && p.queue == Queue({"x"}, {}, map[], {}) && p.seen < |s.h.snaps|
    requires view.name == "x" && WellFormed(view.spec) && LS_PROTECTION in view.finalizers && Sync(view, true) == Write(o) && o != view
    ensures Leads(s, steps, s.(h := After(s.h, Commit(PluginOn(n), PhaseAct(o)), o.(rv := |s.h.snaps|)),
                               plugins := s.plugins[n := s.plugins[n].(seen := |s.h.snaps| - 1, queue := NO_WORK)]))
  {
    QueueMoves();
    var p := s.plugins[n].(seen := |s.h.snaps| - 1);
    var done := p.(queue := NO_WORK);
    var landed := s.(h := After(s.h, Commit(PluginOn(n), PhaseAct(o)), o.(rv := |s.h.snaps|)), plugins := s.plugins[n := done]);
    steps := [ByPlugin(n, See(|s.h.snaps| - 1)), ByPlugin(n, Get("x")), ByPlugin(n, SyncBegin(true)), ByPlugin(n, Send(Answered))];
    var states := [
      s, WithPlugin(s, n, p), WithPlugin(s, n, done.(work := Some("x"))),
      WithPlugin(s, n, done.(work := Some("x"), op := Syncing(view))), landed];
    SendCommits(states[3], n, Commit(PluginOn(n), PhaseAct(o)), o, view);
    assert PluginSend(states[3], n, Answered) == landed;
    Path(states, steps);
  }

  // ---------- up to Ready, with a queue entry left over ----------

  const BLANK := LocalStorage("x", TypeMeta("", ""), 0, 0, false, [], Bytes(10), Spec("n", Some(PathSpec("/d")), None), NEW_STATUS)

  const BORN := BLANK.(uid := 1, rv := 1, finalizers := [LS_PROTECTION])
  const STARTED := BORN.(rv := 2, status := Status(Initiating, None, None, []))
  const READY := BORN.(rv := 3, status := Status(Ready, Some(10), Some(10), []))

  const CREATED := After(EMPTY, Commit(User, Born("x", BLANK.typeMeta, BLANK.note, [LS_PROTECTION], BLANK.spec)), BORN)
  const INITIATED := After(CREATED, Commit(PluginOn("n"), Initiated("x")), STARTED)
  const READIED := After(INITIATED, Commit(PluginOn("n"), MadeReady("x", 10)), READY)

  const QUEUED := Working(2, 2, {"x"}, None, Idle, {})

  function Fresh(h: Hist, p: Plugin): Sys {
    Solo(h, p, {}, {})
  }

  lemma Birth()
    ensures Next(Start({"n"}), ByUser(Create(BLANK, {"n"}, []))) == Fresh(CREATED, Working(0, 0, {}, None, Idle, {}))
  {
    var o := Mutate(BLANK.(marked := false, status := Status(Unset, None, None, [])), CreateOp);
    assert o == BLANK.(finalizers := [LS_PROTECTION]);
    assert ValidateCreate(o, {"n"}, []).Allowed?;
    assert Lists([], map[]);
    assert (map["x" := BORN]) == Cur(EMPTY)["x" := BORN];
  }

  lemma RunToInitiating() returns (steps: seq<Step>)
    ensures Leads(Fresh(CREATED, Working(0, 0, {}, None, Idle, {})), steps, Fresh(INITIATED, Working(1, 1, {}, None, Idle, {})))
  {
    QueueMoves();
    var hear := [ByN(See(1)), ByN(Hear)];
    var states := [
      Fresh(CREATED, Working(0, 0, {}, None, Idle, {})), Fresh(CREATED, Working(1, 0, {}, None, Idle, {})),
      Fresh(CREATED, Working(1, 1, {"x"}, None, Idle, {}))];
    Path(states, hear);
    var sync := RunOfSync(states[2], "n", BORN, STARTED.(rv := 1));
    Then(states[0], hear, states[2], sync, Fresh(INITIATED, Working(1, 1, {}, None, Idle, {})));
    steps := hear + sync;
  }

  lemma RunToSyncing() returns (steps: seq<Step>)
    ensures Leads(Fresh(INITIATED, Working(1, 1, {}, None, Idle, {})), steps, Fresh(INITIATED, Working(2, 2, {}, Some("x"), Syncing(STARTED), {})))
  {
    QueueMoves();
    steps := [ByN(See(2)), ByN(Hear), ByN(Get("x")), ByN(SyncBegin(true))];
    var states := [
      Fresh(INITIATED, Working(1, 1, {}, None, Idle, {})), Fresh(INITIATED, Working(2, 1, {}, None, Idle, {})),
      Fresh(INITIATED, Working(2, 2, {"x"}, None, Idle, {})), Fresh(INITIATED, Working(2, 2, {}, Some("x"), Idle, {})),
      Fresh(INITIATED, Working(2, 2, {}, Some("x"), Syncing(STARTED), {}))];
    Path(states, steps);
  }

  /** While the Ready write is under way, the informer's resync queues the key again. */
  lemma RunToReady() returns (steps: seq<Step>)
    ensures Leads(Fresh(INITIATED, Working(2, 2, {}, Some("x"), Syncing(STARTED), {})), steps, Fresh(READIED, QUEUED))
  {
    QueueMoves();
    steps := [ByN(Resync), ByN(Send(Answered))];
    var states := [
      Fresh(INITIATED, Working(2, 2, {}, Some("x"), Syncing(STARTED), {})),
      Fresh(INITIATED, Working(2, 2, {"x"}, Some("x"), Syncing(STARTED), {})), Fresh(READIED, QUEUED)];
    assert FilteredKeys(INITIATED.snaps[2], "n") == {"x"};
    SendCommits(states[1], "n", Commit(PluginOn("n"), MadeReady("x", 10)), READY.(rv := 2), STARTED);
    Path(states, steps);
  }

  lemma RunToQueued() returns (steps: seq<Step>)
    ensures Leads(Start({"n"}), steps, Fresh(READIED, QUEUED))
  {
    Birth();
    var born := Fresh(CREATED, Working(0, 0, {}, None, Idle, {}));
    Path([Start({"n"}), born], [ByUser(Create(BLANK, {"n"}, []))]);
    var initiate := RunToInitiating();
    var syncing := RunToSyncing();
    var ready := RunToReady();
    var working := Fresh(INITIATED, Working(2, 2, {}, Some("x"), Syncing(STARTED), {}));
    Then(born, initiate, Fresh(INITIATED, Working(1, 1, {}, None, Idle, {})), syncing, working);
    Then(born, initiate + syncing, working, ready, Fresh(READIED, QUEUED));
    steps := initiate + syncing + ready;
    Then(Start({"n"}), [ByUser(Create(BLANK, {"n"}, []))], born, steps, Fresh(READIED, QUEUED));
    steps := [ByUser(Create(BLANK, {"n"}, []))] + steps;
  }

  /** CreateVolume's edit of the Ready version. */
  lemma EditOfReady(v: Volume)
    ensures CreateEdit(READY, v) == Some(READY.(status := Status(Ready, Some(10 - v.volSize), Some(10), [v])))
  {
    assert READY.status.volumes + [v] == [v];
  }

  // ---------- a second Ready write forgets what is allocated ----------

  const VOLUME := Volume("pvc", "id", "/d/id", 4, "", false)

  const FULL := READY.(rv := 4, status := Status(Ready, Some(6), Some(10), [VOLUME]))
  const RESET := READY.(rv := 5, status := Status(Ready, Some(10), Some(10), [VOLUME]))
  const EMPTIED := READY.(rv := 6, status := Status(Ready, Some(14), Some(10), []))

  const FILLED := After(READIED, Commit(PluginOn("n"), VolumeAdded("x", VOLUME)), FULL)
  const DRIFTED := After(FILLED, Commit(PluginOn("n"), MadeReady("x", 10)), RESET)
  const DRAINED := After(DRIFTED, Commit(PluginOn("n"), VolumeRemoved("x", "id")), EMPTIED)

  function Holding(h: Hist, p: Plugin): Sys {
    Solo(h, p, {"id"}, {})
  }

  lemma RunToFilled() returns (steps: seq<Step>)
    ensures Leads(Fresh(READIED, QUEUED), steps, Holding(FILLED, Working(3, 2, {"x"}, None, Idle, {"id"})))
  {
    steps := [ByN(See(3)), ByN(CreateBegin("x", VOLUME, DirMade)), ByN(Send(Answered))];
    var states := [
      Fresh(READIED, QUEUED), Fresh(READIED, Working(3, 2, {"x"}, None, Idle, {})),
      Holding(READIED, Working(3, 2, {"x"}, None, Creating(READY, VOLUME), {"id"})),
      Holding(FILLED, Working(3, 2, {"x"}, None, Idle, {"id"}))];
    assert {} + {"id"} == {"id"};
    EditOfReady(VOLUME);
    SendCommits(states[2], "n", Commit(PluginOn("n"), VolumeAdded("x", VOLUME)), FULL.(rv := 3), READY);
    Path(states, steps);
  }

  lemma RunToReset() returns (steps: seq<Step>)
    ensures Leads(Holding(FILLED, Working(3, 2, {"x"}, None, Idle, {"id"})), steps, Holding(DRIFTED, Working(4, 2, {}, None, Idle, {"id"})))
  {
    steps := RunOfSync(Holding(FILLED, Working(3, 2, {"x"}, None, Idle, {"id"})), "n", FULL, RESET.(rv := 4));
  }

  lemma RunToDrift() returns (steps: seq<Step>)
    ensures Leads(Start({"n"}), steps, Holding(DRIFTED, Working(4, 2, {}, None, Idle, {"id"})))
  {
    var queued := RunToQueued();
    var fill := RunToFilled();
    var reset := RunToReset();
    var filled := Holding(FILLED, Working(3, 2, {"x"}, None, Idle, {"id"}));
    Then(Start({"n"}), queued, Fresh(READIED, QUEUED), fill, filled);
    Then(Start({"n"}), queued + fill, filled, reset, Holding(DRIFTED, Working(4, 2, {}, None, Idle, {"id"})));
    steps := queued + fill + reset;
  }

  /** A run that breaks Capacity = Allocatable + volumes: sync does not look at the phase again, so a
      queue entry left over from initialisation resets Allocatable while a volume stands. */
  lemma ConservationCanFail() returns (steps: seq<Step>)
    ensures var m := Cur(Run(Start({"n"}), steps).h);
            "x" in m && m["x"].status.phase == Phase.Ready && m["x"].status.capacity.Some? && !Conserved(m["x"].status)
  {
    steps := RunToDrift();
    assert TotalSize([VOLUME]) == 4;
  }

  lemma RunToDrained() returns (steps: seq<Step>)
    ensures Leads(Holding(DRIFTED, Working(4, 2, {}, None, Idle, {"id"})), steps, Holding(DRAINED, Working(5, 2, {}, None, Idle, {})))
  {
    steps := [ByN(See(5)), ByN(DeleteBegin("x", "id")), ByN(Send(Answered)), ByN(RemoveDir(true))];
    var states := [
      Holding(DRIFTED, Working(4, 2, {}, None, Idle, {"id"})), Holding(DRIFTED, Working(5, 2, {}, None, Idle, {"id"})),
      Holding(DRIFTED, Working(5, 2, {}, None, Deleting(RESET, "id"), {"id"})),
      Holding(DRAINED, Working(5, 2, {}, None, Removing("id"), {"id"})), Holding(DRAINED, Working(5, 2, {}, None, Idle, {}))];
    assert DeleteEdit(RESET, "id") == Some(EMPTIED.(rv := 5)) by {
      RemoveVolumeOnDistinct([VOLUME], "id");
    }
    SendCommits(states[2], "n", Commit(PluginOn("n"), VolumeRemoved("x", "id")), EMPTIED.(rv := 5), RESET);
    assert {"id"} - {"id"} == {};
    Path(states, steps);
  }

  lemma RunToDrainedFromStart() returns (steps: seq<Step>)
    ensures Leads(Start({"n"}), steps, Holding(DRAINED, Working(5, 2, {}, None, Idle, {})))
  {
    var drift := RunToDrift();
    var drain := RunToDrained();
    steps := drift + drain;
    Then(Start({"n"}), drift, Holding(DRIFTED, Working(4, 2, {}, None, Idle, {"id"})), drain, Holding(DRAINED, Working(5, 2, {}, None, Idle, {})));
  }

  /** After drift and a delete, Score leaves 0..100: 14 of 10 bytes are allocatable. */
  lemma ScoreCanLeaveRange(platform: Scheduler.Platform) returns (steps: seq<Step>)
    ensures var m := Cur(Run(Start({"n"}), steps).h);
            && "x" in m && m["x"].status.phase == Phase.Ready && m["x"].status.allocatable.Some? && m["x"].status.capacity.Some?
            && Scheduler.ScoreOf(m["x"].status.allocatable.value, m["x"].status.capacity.value, platform) == 140
  {
    steps := RunToDrainedFromStart();
    assert 1400 / 10 == 140;
  }

  /** In that run every create took no more than the Allocatable it replaced; with drift that is not enough. */
  lemma AffordableIsNotEnough() returns (steps: seq<Step>)
    ensures var h := Run(Start({"n"}), steps).h;
            && |h.snaps| == 7 && "x" in h.snaps[6] && h.snaps[6]["x"].uid == 1
            && Affordable(h, "x", 1, 6) && !WithinCapacity(h.snaps[6], "x")
  {
    steps := RunToDrainedFromStart();
    var h := DRAINED;
    assert h.snaps[3]["x"] == READY;
    assert forall j :: 1 <= j < 6 && h.log[j].act.VolumeAdded? ==> j == 3;
  }

  // ---------- a create larger than what is left ----------

  const HUGE := Volume("pvc", "id", "/d/id", 11, "", false)
  const OVERDRAWN := READY.(rv := 4, status := Status(Ready, Some(-1), Some(10), [HUGE]))
  const OVERCOMMITTED := After(READIED, Commit(PluginOn("n"), VolumeAdded("x", HUGE)), OVERDRAWN)

  lemma RunToOverdrawn() returns (steps: seq<Step>)
    ensures Leads(Fresh(READIED, QUEUED), steps, Holding(OVERCOMMITTED, Working(3, 2, {"x"}, None, Idle, {"id"})))
  {
    steps := [ByN(See(3)), ByN(CreateBegin("x", HUGE, DirMade)), ByN(Send(Answered))];
    var states := [
      Fresh(READIED, QUEUED), Fresh(READIED, Working(3, 2, {"x"}, None, Idle, {})),
      Holding(READIED, Working(3, 2, {"x"}, None, Creating(READY, HUGE), {"id"})),
      Holding(OVERCOMMITTED, Working(3, 2, {"x"}, None, Idle, {"id"}))];
    assert {} + {"id"} == {"id"};
    EditOfReady(HUGE);
    SendCommits(states[2], "n", Commit(PluginOn("n"), VolumeAdded("x", HUGE)), OVERDRAWN.(rv := 3), READY);
    Path(states, steps);
  }

  /** CreateVolume does not compare the size with Allocatable. */
  lemma OvercommitCanHappen() returns (steps: seq<Step>)
    ensures var m := Cur(Run(Start({"n"}), steps).h);
            && "x" in m && m["x"].status.allocatable == Some(-1) && m["x"].status.capacity == Some(10)
            && TotalSize(m["x"].status.volumes) == 11 && Conserved(m["x"].status)
  {
    var queued := RunToQueued();
    var create := RunToOverdrawn();
    Then(Start({"n"}), queued, Fresh(READIED, QUEUED), create, Holding(OVERCOMMITTED, Working(3, 2, {"x"}, None, Idle, {"id"})));
    steps := queued + create;
    assert TotalSize([HUGE]) == 11;
  }

  // ---------- a Terminating object becomes Ready again ----------

  const MARKED := READY.(rv := 4, marked := true)
  const ENDED := MARKED.(rv := 5, status := MARKED.status.(phase := Terminating))
  const REVIVED := MARKED.(rv := 6)

  const DOOMED := After(READIED, Commit(User, Marked("x")), MARKED)
  const TERMINATED := After(DOOMED, Commit(Manager, Terminated("x")), ENDED)
  const RESURRECTED := After(TERMINATED, Commit(PluginOn("n"), MadeReady("x", 10)), REVIVED)

  function Managed(h: Hist, p: Plugin, ctl: Controller): Sys {
    Sys(h, map["n" := p], ctl, {}, {})
  }

  /** A user deletes the object, and a restarted controller sees that and terminates it. */
  lemma RunToTerminating() returns (steps: seq<Step>)
    ensures Leads(Fresh(READIED, QUEUED), steps, Managed(TERMINATED, QUEUED, Controller(4, 4, NO_WORK, {}, map[])))
  {
    QueueMoves();
    steps := [ByUser(Delete("x")), ByController(CtlRestart(4)), ByController(CtlGet("x")), ByController(CtlBegin("x")), ByController(CtlSend("x", Answered))];
    var states := [
      Fresh(READIED, QUEUED), Managed(DOOMED, QUEUED, IDLE_CONTROLLER),
      Managed(DOOMED, QUEUED, Controller(4, 4, Queue({"x"}, {}, map[], {}), {}, map[])),
      Managed(DOOMED, QUEUED, Controller(4, 4, NO_WORK, {"x"}, map[])),
      Managed(DOOMED, QUEUED, Controller(4, 4, NO_WORK, {}, map["x" := MARKED])),
      Managed(TERMINATED, QUEUED, Controller(4, 4, NO_WORK, {}, map[]))];
    assert Cur(READIED)["x" := MARKED] == map["x" := MARKED];
    assert DOOMED.snaps[4].Keys == {"x"};
    var nothing: map<string, LocalStorage> := map[];
    assert nothing["x" := MARKED] == map["x" := MARKED] && (map["x" := MARKED]) - {"x"} == nothing;
    assert {} + {"x"} == {"x"} && {"x"} - {"x"} == {};
    StatusWritePasses(MARKED, ENDED.(rv := 4));
    assert Cur(DOOMED)["x" := ENDED] == map["x" := ENDED];
    Path(states, steps);
  }

  lemma RunToRevived() returns (steps: seq<Step>)
    ensures var ctl := Controller(4, 4, NO_WORK, {}, map[]);
            Leads(Managed(TERMINATED, QUEUED, ctl), steps, Managed(RESURRECTED, Working(5, 2, {}, None, Idle, {}), ctl))
  {
    steps := RunOfSync(Managed(TERMINATED, QUEUED, Controller(4, 4, NO_WORK, {}, map[])), "n", ENDED, REVIVED.(rv := 5));
  }

  /** A run in which a marked object goes from Terminating back to Ready: sync does not look at the
      deletion mark, so a queue entry left over from initialisation is enough. */
  lemma TerminationCanBeUndone() returns (before: seq<Step>, after: seq<Step>)
    ensures var s := Run(Start({"n"}), before); var s' := Run(s, after);
            && "x" in Cur(s.h) && Cur(s.h)["x"].marked && Cur(s.h)["x"].status.phase == Terminating
            && "x" in Cur(s'.h) && Cur(s'.h)["x"].marked && Cur(s'.h)["x"].status.phase == Phase.Ready
            && Cur(s'.h)["x"].uid == Cur(s.h)["x"].uid
  {
    var queued := RunToQueued();
    var terminate := RunToTerminating();
    after := RunToRevived();
    before := queued + terminate;
    Then(Start({"n"}), queued, Fresh(READIED, QUEUED), terminate, Managed(TERMINATED, QUEUED, Controller(4, 4, NO_WORK, {}, map[])));
  }

  // ---------- a late create without its directory ----------

  const LATE := FromPlugin("n", Creating(READY, VOLUME))

  function Aloft(h: Hist, p: Plugin): Sys {
    Solo(h, p, {"id"}, {LATE})
  }

  lemma RunToAloft() returns (steps: seq<Step>)
    ensures Leads(Fresh(READIED, QUEUED), steps, Aloft(READIED, Working(3, 2, {"x"}, None, Idle, {"id"})))
  {
    steps := [ByN(See(3)), ByN(CreateBegin("x", VOLUME, DirMade)), ByN(Send(InFlight))];
    var states := [
      Fresh(READIED, QUEUED), Fresh(READIED, Working(3, 2, {"x"}, None, Idle, {})),
      Holding(READIED, Working(3, 2, {"x"}, None, Creating(READY, VOLUME), {"id"})),
      Aloft(READIED, Working(3, 2, {"x"}, None, Idle, {"id"}))];
    assert {} + {"id"} == {"id"} && {} + {LATE} == {LATE};
    Path(states, steps);
  }

  lemma RunToForgotten() returns (steps: seq<Step>)
    ensures Leads(Aloft(READIED, Working(3, 2, {"x"}, None, Idle, {"id"})), steps, Aloft(READIED, Working(3, 2, {"x"}, None, Idle, {})))
  {
    steps := [ByN(DeleteBegin("x", "id")), ByN(Send(Answered)), ByN(RemoveDir(true))];
    var states := [
      Aloft(READIED, Working(3, 2, {"x"}, None, Idle, {"id"})), Aloft(READIED, Working(3, 2, {"x"}, None, Deleting(READY, "id"), {"id"})),
      Aloft(READIED, Working(3, 2, {"x"}, None, Removing("id"), {"id"})), Aloft(READIED, Working(3, 2, {"x"}, None, Idle, {}))];
    assert DeleteEdit(READY, "id") == Some(READY);
    StatusWritePasses(READY, READY);
    assert {"id"} - {"id"} == {};
    Path(states, steps);
  }

  lemma RunToLanded() returns (steps: seq<Step>)
    ensures Leads(Aloft(READIED, Working(3, 2, {"x"}, None, Idle, {})), steps, Holding(FILLED, Working(3, 2, {"x"}, None, Idle, {})))
  {
    steps := [Land(LATE)];
    EditOfReady(VOLUME);
    StatusWritePasses(READY, FULL.(rv := 3));
    assert Carried(LATE) == Some((Commit(PluginOn("n"), VolumeAdded("x", VOLUME)), FULL.(rv := 3)));
    assert Cur(READIED)["x" := FULL] == map["x" := FULL] && {LATE} - {LATE} == {};
    Path([Aloft(READIED, Working(3, 2, {"x"}, None, Idle, {})), Holding(FILLED, Working(3, 2, {"x"}, None, Idle, {}))], steps);
  }

  lemma RunToMissing() returns (steps: seq<Step>)
    ensures Leads(Start({"n"}), steps, Holding(FILLED, Working(3, 2, {"x"}, None, Idle, {})))
  {
    var queued := RunToQueued();
    var launch := RunToAloft();
    var forget := RunToForgotten();
    var land := RunToLanded();
    var aloft, forgotten := Aloft(READIED, Working(3, 2, {"x"}, None, Idle, {"id"})), Aloft(READIED, Working(3, 2, {"x"}, None, Idle, {}));
    Then(Start({"n"}), queued, Fresh(READIED, QUEUED), launch, aloft);
    Then(Start({"n"}), queued + launch, aloft, forget, forgotten);
    Then(Start({"n"}), queued + launch + forget, forgotten, land, Holding(FILLED, Working(3, 2, {"x"}, None, Idle, {})));
    steps := queued + launch + forget + land;
  }

  /** A run after which a volume in the ledger has no directory: DeleteVolume is called with the ID of a
      create that is still in flight, which no caller has been told. */
  lemma DirectoryCanBeMissing() returns (steps: seq<Step>)
    ensures var s := Run(Start({"n"}), steps);
            && "n" in s.plugins && "x" in Cur(s.h) && Cur(s.h)["x"].spec.node == "n"
            && "id" in Ids(Cur(s.h)["x"].status.volumes) && "id" !in s.plugins["n"].dirs
  {
    steps := RunToMissing();
    assert VOLUME in FULL.status.volumes;
  }

  // ---------- a create before initialisation ----------

  /** CreateVolume on an object without Allocatable panics after it has made the directory. */
  lemma OrphanDirectoryCanRemain() returns (steps: seq<Step>)
    ensures var s := Run(Start({"n"}), steps);
            && "n" in s.plugins && s.plugins["n"].op.Idle? && "id" in s.plugins["n"].dirs
            && "x" in Cur(s.h) && Cur(s.h)["x"].status == NEW_STATUS && s.air == {}
  {
    Birth();
    steps := [ByUser(Create(BLANK, {"n"}, [])), ByN(See(1)), ByN(CreateBegin("x", VOLUME, DirMade))];
    var states := [
      Start({"n"}), Fresh(CREATED, Working(0, 0, {}, None, Idle, {})), Fresh(CREATED, Working(1, 0, {}, None, Idle, {})),
      Holding(CREATED, Working(1, 0, {}, None, Idle, {"id"}))];
    assert {} + {"id"} == {"id"};
    Path(states, steps);
  }

  // ---------- a reused name sends a plugin to another node's object ----------

  const FIRST := LocalStorage("x", TypeMeta("", ""), 1, 1, false, [LS_PROTECTION], NoNote, Spec("a", None, None), NEW_STATUS)
  const LEAVING := FIRST.(rv := 2, marked := true)
  const SECOND := FIRST.(uid := 4, rv := 4, spec := Spec("b", None, None))
  const TAKEN := SECOND.(rv := 5, status := Status(Initiating, None, None, []))

  const FIRST_BORN := After(EMPTY, Commit(User, Born("x", FIRST.typeMeta, NoNote, [LS_PROTECTION], FIRST.spec)), FIRST)
  const FIRST_MARKED := After(FIRST_BORN, Commit(User, Marked("x")), LEAVING)
  const FIRST_GONE := Hist(FIRST_MARKED.snaps + [map[]], FIRST_MARKED.log + [Commit(User, Removed("x"))])
  const SECOND_BORN := After(FIRST_GONE, Commit(User, Born("x", FIRST.typeMeta, NoNote, [LS_PROTECTION], SECOND.spec)), SECOND)
  const SECOND_TAKEN := After(SECOND_BORN, Commit(PluginOn("a"), Initiated("x")), TAKEN)

  function Pair(h: Hist, p: Plugin): Sys {
    Sys(h, map["a" := p, "b" := Working(0, 0, {}, None, Idle, {})], IDLE_CONTROLLER, {}, {})
  }

  function ByA(st: PluginStep): Step {
    ByPlugin("a", st)
  }

  /** Creating x on a node, into an empty store. */
  lemma BirthOn(s: Sys, o: LocalStorage)
    requires s.h.snaps != [] && Cur(s.h) == map[] && |s.h.snaps| == o.rv && (o == FIRST || o == SECOND)
    ensures Next(s, ByUser(Create(o, {"a", "b"}, [])))
            == s.(h := After(s.h, Commit(User, Born("x", FIRST.typeMeta, NoNote, [LS_PROTECTION], o.spec)), o))
  {
    var stored := Mutate(o.(marked := false, status := Status(Unset, None, None, [])), CreateOp);
    assert stored == o;
    assert ValidateCreate(stored, {"a", "b"}, []).Allowed?;
    assert Lists([], Cur(s.h));
    assert Cur(s.h)["x" := o] == map["x" := o];
  }

  lemma RunToHeard() returns (steps: seq<Step>)
    ensures Leads(Start({"a", "b"}), steps, Pair(FIRST_BORN, Working(1, 1, {"x"}, None, Idle, {})))
  {
    QueueMoves();
    steps := [ByUser(Create(FIRST, {"a", "b"}, [])), ByA(See(1)), ByA(Hear)];
    var states := [
      Start({"a", "b"}), Pair(FIRST_BORN, Working(0, 0, {}, None, Idle, {})), Pair(FIRST_BORN, Working(1, 0, {}, None, Idle, {})),
      Pair(FIRST_BORN, Working(1, 1, {"x"}, None, Idle, {}))];
    BirthOn(states[0], FIRST);
    Path(states, steps);
  }

  lemma RunToRecreated() returns (steps: seq<Step>)
    ensures Leads(Pair(FIRST_BORN, Working(1, 1, {"x"}, None, Idle, {})), steps, Pair(SECOND_BORN, Working(1, 1, {"x"}, None, Idle, {})))
  {
    var p := Working(1, 1, {"x"}, None, Idle, {});
    steps := [ByUser(Delete("x")), ByUser(Edit("x", LEAVING.typeMeta, NoNote, [], LEAVING.spec)), ByUser(Create(SECOND, {"a", "b"}, []))];
    var states := [Pair(FIRST_BORN, p), Pair(FIRST_MARKED, p), Pair(FIRST_GONE, p), Pair(SECOND_BORN, p)];
    assert Cur(FIRST_BORN)["x" := LEAVING] == map["x" := LEAVING];
    var o := LEAVING.(finalizers := []);
    assert Mutate(o, UpdateOp) == o && ValidateUpdate(LEAVING, o).Allowed?;
    assert Cur(FIRST_MARKED) - {"x"} == map[];
    BirthOn(states[2], SECOND);
    Path(states, steps);
  }

  lemma RunToTaken() returns (steps: seq<Step>)
    ensures Leads(Pair(SECOND_BORN, Working(1, 1, {"x"}, None, Idle, {})), steps, Pair(SECOND_TAKEN, Working(4, 1, {}, None, Idle, {})))
  {
    steps := RunOfSync(Pair(SECOND_BORN, Working(1, 1, {"x"}, None, Idle, {})), "a", SECOND, TAKEN.(rv := 4));
  }

  /** When a name is used again for another node, the first node's plugin can initiate the new object. */
  lemma ForeignWriteCanHappen() returns (steps: seq<Step>)
    ensures var h := Run(Start({"a", "b"}), steps).h;
            && |h.log| == 5 && h.log[4].who == PluginOn("a") && |h.snaps| == 6
            && "x" in h.snaps[4] && h.log[4].act == Initiated("x") && h.snaps[4]["x"].spec.node == "b"
  {
    var heard := RunToHeard();
    var recreate := RunToRecreated();
    var take := RunToTaken();
    var p := Working(1, 1, {"x"}, None, Idle, {});
    Then(Start({"a", "b"}), heard, Pair(FIRST_BORN, p), recreate, Pair(SECOND_BORN, p));
    Then(Start({"a", "b"}), heard + recreate, Pair(SECOND_BORN, p), take, Pair(SECOND_TAKEN, Working(4, 1, {}, None, Idle, {})));
    steps := heard + recreate + take;
  }
}
