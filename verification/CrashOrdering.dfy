/** Directories and ledger across crashes: every volume in the committed ledger has its directory. */
module CrashOrdering {
  import opened Types
  import opened Volumes
  import opened Admission
  import opened Ledger
  import opened Protocol
  import opened Refinement

  ghost predicate Covered(m: Store, n: string, dirs: set<string>) {
    forall k :: k in m && m[k].spec.node == n ==> Ids(m[k].status.volumes) <= dirs
  }

  ghost predicate Gone(m: Store, n: string, id: string) {
    forall k :: k in m && m[k].spec.node == n ==> id !in Ids(m[k].status.volumes)
  }

  predicate Removes(op: Op, id: string) {
    (op.Deleting? || op.Removing?) && op.id == id
  }

  predicate InAir(f: Flight, n: string, id: string) {
    FlightCreates(f, id) && f.node == n
  }

  /** An update computed from this copy would be accepted. */
  predicate IsCurrent(m: Store, view: LocalStorage) {
    view.name in m && m[view.name] == view
  }

  /** n's create of id may still arrive and be accepted. */
  ghost predicate Pending(m: Store, air: set<Flight>, n: string, id: string) {
    exists f :: f in air && InAir(f, n, id) && IsCurrent(m, f.op.view)
  }

  /** Creates in flight that would be accepted have their directory, and nobody is about to remove it. */
  ghost predicate AirOk(m: Store, air: set<Flight>, n: string, p: Plugin) {
    forall f, id :: f in air && InAir(f, n, id) && IsCurrent(m, f.op.view) ==> id in p.dirs && !Removes(p.op, id)
  }

  ghost predicate DirsOk(m: Store, n: string, p: Plugin) {
    && Covered(m, n, p.dirs)
    && (p.op.Creating? ==> p.op.vol.volID in p.dirs)
    && (p.op.Removing? ==> Gone(m, n, p.op.id))
  }

  ghost predicate CrashInv(s: Sys) {
    Inv(s) && forall n :: n in s.plugins ==> DirsOk(Cur(s.h), n, s.plugins[n]) && AirOk(Cur(s.h), s.air, n, s.plugins[n])
  }

  /** What one commit does to the volume IDs of one object. */
  lemma IdsAfter(c: Commit, m: Store, rev: nat, k: string)
    requires SoundStore(m) && Can(c, m) && k in Effect(c.act, m, rev)
    ensures var o := Effect(c.act, m, rev)[k];
            if k in m then
              && o.spec.node == m[k].spec.node
              && (c.act.name == k && c.act.VolumeAdded? ==>
                    c.who == PluginOn(o.spec.node) && Ids(o.status.volumes) == Ids(m[k].status.volumes) + {c.act.vol.volID})
              && (c.act.name == k && c.act.VolumeRemoved? ==> Ids(o.status.volumes) == Ids(m[k].status.volumes) - {c.act.id})
              && (c.act.name != k || (!c.act.VolumeAdded? && !c.act.VolumeRemoved?) ==> o.status.volumes == m[k].status.volumes)
            else o.status.volumes == []
  {
    EffectOn(c, m, rev, k);
    if c.act.name == k && c.act.VolumeAdded? {
      AddVolumeAppends(m[k].status.volumes, c.act.vol);
    } else if c.act.name == k && c.act.VolumeRemoved? {
      WithoutDropsExactly(m[k].status.volumes, c.act.id);
    }
  }

  /** A commit leaves a volume of n without directory exactly if it adds one that has none. */
  lemma CommitUncoversIff(h: Hist, c: Commit, n: string, dirs: set<string>)
    requires Valid(h) && Can(c, Cur(h)) && Covered(Cur(h), n, dirs)
    ensures !Covered(Cur(Extend(h, c)), n, dirs) <==> c.act.VolumeAdded? && c.who == PluginOn(n) && c.act.vol.volID !in dirs
  {
    HistorySound(h, |h.snaps| - 1);
    var m' := Cur(Extend(h, c));
    forall k | k in m' && m'[k].spec.node == n && !(c.act.VolumeAdded? && c.act.name == k && c.act.vol.volID !in dirs)
      ensures Ids(m'[k].status.volumes) <= dirs
    {
      IdsAfter(c, Cur(h), |h.snaps|, k);
    }
    if c.act.VolumeAdded? {
      IdsAfter(c, Cur(h), |h.snaps|, c.act.name);
      assert c.act.vol.volID in Ids(m'[c.act.name].status.volumes);
    }
  }

  /** A commit other than a create of the ID that is being removed keeps n's directories in order. */
  lemma CommitKeepsDirs(h: Hist, c: Commit, n: string, p: Plugin)
    requires Valid(h) && Can(c, Cur(h)) && DirsOk(Cur(h), n, p)
    requires c.act.VolumeAdded? && c.who == PluginOn(n) ==> c.act.vol.volID in p.dirs && !Removes(p.op, c.act.vol.volID)
    ensures DirsOk(Cur(Extend(h, c)), n, p)
  {
    CommitUncoversIff(h, c, n, p.dirs);
    HistorySound(h, |h.snaps| - 1);
    forall k | k in Cur(Extend(h, c)) && Cur(Extend(h, c))[k].spec.node == n
      ensures p.op.Removing? ==> p.op.id !in Ids(Cur(Extend(h, c))[k].status.volumes)
    {
      IdsAfter(c, Cur(h), |h.snaps|, k);
    }
  }

  /** A delete that was accepted proves its view current, so the ID is in no object of the node. */
  lemma AcceptedDeleteIsGone(h: Hist, used: set<string>, n: string, op: Op)
    requires Valid(h) && op.Deleting? && OpOk(h, used, n, op) && Request(n, op).Some?
    ensures var (c, o) := Request(n, op).value; var (h', r) := Submit(h, c, o);
            Accepted(r) ==> Gone(Cur(h'), n, op.id)
  {
    RequestIsAtomic(h, used, n, op);
    HistorySound(h, |h.snaps| - 1);
    var (c, o) := Request(n, op).value;
    var (h', r) := Submit(h, c, o);
    if Accepted(r) {
      DeleteIsAtomic(h, n, op.view, op.id);
      if r.Replaced? {
        DeleteCommitGone(h, n, c, op.view);
      } else {
        OwnObjectOnly(Cur(h), n, op.view, op.id);
      }
    }
  }

  lemma OwnObjectOnly(m: Store, n: string, view: LocalStorage, id: string)
    requires NodesUnique(m) && view.name in m && m[view.name] == view && view.spec.node == n
    requires id !in Ids(view.status.volumes)
    ensures Gone(m, n, id)
  {
    forall k | k in m && m[k].spec.node == n
      ensures id !in Ids(m[k].status.volumes)
    {
      assert k == view.name;
    }
  }

  lemma DeleteCommitGone(h: Hist, n: string, c: Commit, view: LocalStorage)
    requires Valid(h) && SoundStore(Cur(h)) && Can(c, Cur(h)) && c.act.VolumeRemoved? && c.act.name == view.name
    requires view.name in Cur(h) && Cur(h)[view.name] == view && view.spec.node == n
    ensures Gone(Cur(Extend(h, c)), n, c.act.id)
  {
    EffectSound(c, Cur(h), |h.snaps|);
    IdsAfter(c, Cur(h), |h.snaps|, view.name);
    OwnObjectOnly(Cur(Extend(h, c)), n, Cur(Extend(h, c))[view.name], c.act.id);
  }

  /** The store after a plugin's request, whichever way it went. */
  lemma RequestKeepsDirs(s: Sys, n: string, c: Commit, o: LocalStorage, a: string)
    requires CrashInv(s) && n in s.plugins && Request(n, s.plugins[n].op) == Some((c, o)) && a in s.plugins
    ensures DirsOk(Cur(Submit(s.h, c, o).0), a, s.plugins[a])
  {
    assert PluginOk(s.h, s.used, n, s.plugins[n]) && DirsOk(Cur(s.h), n, s.plugins[n]);
    RequestIsAtomic(s.h, s.used, n, s.plugins[n].op);
    if Submit(s.h, c, o).0 != s.h {
      CommitKeepsDirs(s.h, c, a, s.plugins[a]);
    }
  }

  lemma SendKeepsDirs(s: Sys, n: string, d: Delivery)
    requires CrashInv(s) && n in s.plugins
    ensures forall a :: a in s.plugins ==> DirsOk(Cur(PluginSend(s, n, d).h), a, PluginSend(s, n, d).plugins[a])
  {
    var p := s.plugins[n];
    assert PluginOk(s.h, s.used, n, p);
    if Request(n, p.op).Some? && !d.NeverSent? && !d.InFlight? {
      var (c, o) := Request(n, p.op).value;
      var (h', r) := Submit(s.h, c, o);
      forall a | a in s.plugins
        ensures DirsOk(Cur(h'), a, s.plugins[a])
      {
        RequestKeepsDirs(s, n, c, o, a);
      }
      if p.op.Deleting? {
        AcceptedDeleteIsGone(s.h, s.used, n, p.op);
      }
      assert DirsOk(Cur(h'), n, AfterSend(p, d.Answered? && Accepted(r)));
    }
  }

  /** A copy that a commit has left current was current before. */
  lemma CommitKeepsAir(s: Sys, c: Commit, air: set<Flight>, n: string)
    requires CrashInv(s) && n in s.plugins && Can(c, Cur(s.h)) && air <= s.air
    ensures AirOk(Cur(Extend(s.h, c)), air, n, s.plugins[n])
  {
    forall f, id | f in air && InAir(f, n, id) && IsCurrent(Cur(Extend(s.h, c)), f.op.view)
      ensures id in s.plugins[n].dirs && !Removes(s.plugins[n].op, id)
    {
      assert FlightOk(s.h, s.used, f) && AirOk(Cur(s.h), s.air, n, s.plugins[n]);
      EffectOn(c, Cur(s.h), |s.h.snaps|, f.op.view.name);
    }
  }

  /** What goes into the air has its directory. */
  lemma LaunchKeepsAir(s: Sys, n: string, a: string)
    requires CrashInv(s) && n in s.plugins && a in s.plugins
    ensures AirOk(Cur(s.h), s.air + {FromPlugin(n, s.plugins[n].op)}, a, if a == n then AfterSend(s.plugins[n], false) else s.plugins[a])
  {
    assert DirsOk(Cur(s.h), n, s.plugins[n]) && AirOk(Cur(s.h), s.air, a, s.plugins[a]);
    forall f, id | f == FromPlugin(n, s.plugins[n].op) && InAir(f, a, id)
      ensures a == n && id in s.plugins[n].dirs && s.plugins[n].op.Creating?
    {
    }
  }

  lemma SendKeepsAir(s: Sys, n: string, d: Delivery)
    requires CrashInv(s) && n in s.plugins
    ensures var s' := PluginSend(s, n, d);
            forall a :: a in s.plugins ==> AirOk(Cur(s'.h), s'.air, a, s'.plugins[a])
  {
    var s' := PluginSend(s, n, d);
    forall a | a in s.plugins
      ensures AirOk(Cur(s'.h), s'.air, a, s'.plugins[a])
    {
      assert AirOk(Cur(s.h), s.air, a, s.plugins[a]) && PluginOk(s.h, s.used, n, s.plugins[n]);
      if Request(n, s.plugins[n].op).Some? {
        RequestIsAtomic(s.h, s.used, n, s.plugins[n].op);
        LaunchKeepsAir(s, n, a);
        if s'.h != s.h {
          CommitKeepsAir(s, Request(n, s.plugins[n].op).value.0, s.air, a);
        }
      }
    }
  }

  lemma LocalKeepsDirs(s: Sys, n: string, st: PluginStep)
    requires CrashInv(s) && n in s.plugins && !st.Send?
    ensures DirsOk(Cur(s.h), n, PluginLocal(s, n, st))
  {
    assert DirsOk(Cur(s.h), n, s.plugins[n]);
  }

  /** The caller of DeleteVolume names no volume whose create is still in flight and would be accepted.
      CreateVolume makes a new ID on every call and returns it only on success, so nobody has been told
      such an ID. */
  ghost predicate Informed(s: Sys, step: Step)
    requires s.h.snaps != []
  {
    step.ByPlugin? && step.p.DeleteBegin? ==> !Pending(Cur(s.h), s.air, step.node, step.p.id)
  }

  /** What a local step does to directories and to what is about to be removed. */
  lemma LocalRemoves(s: Sys, n: string, st: PluginStep)
    requires n in s.plugins && !st.Send?
    ensures var p, p' := s.plugins[n], PluginLocal(s, n, st);
            && (forall id :: id in p.dirs && !Removes(p.op, id) ==> id in p'.dirs)
            && (forall id :: Removes(p'.op, id) ==> Removes(p.op, id) || (st.DeleteBegin? && st.id == id))
  {
  }

  lemma LocalKeepsAir(s: Sys, n: string, st: PluginStep)
    requires CrashInv(s) && n in s.plugins && !st.Send? && Informed(s, ByPlugin(n, st))
    ensures AirOk(Cur(s.h), s.air, n, PluginLocal(s, n, st))
  {
    LocalRemoves(s, n, st);
    AirKept(s, n, st, PluginLocal(s, n, st));
  }

  lemma AirKept(s: Sys, n: string, st: PluginStep, p': Plugin)
    requires CrashInv(s) && n in s.plugins && Informed(s, ByPlugin(n, st))
    requires forall id :: id in s.plugins[n].dirs && !Removes(s.plugins[n].op, id) ==> id in p'.dirs
    requires forall id :: Removes(p'.op, id) ==> Removes(s.plugins[n].op, id) || (st.DeleteBegin? && st.id == id)
    ensures AirOk(Cur(s.h), s.air, n, p')
  {
    assert AirOk(Cur(s.h), s.air, n, s.plugins[n]);
    if st.DeleteBegin? {
      assert forall f :: f in s.air && InAir(f, n, st.id) ==> !IsCurrent(Cur(s.h), f.op.view);
    }
  }

  lemma LandKeepsDirs(s: Sys, f: Flight)
    requires CrashInv(s) && f in s.air
    ensures AllDirsOk(LandNext(s, f))
  {
    CarriedIsAtomic(s.h, s.used, f);
    var (c, o) := Carried(f).value;
    if Submit(s.h, c, o).0 != s.h {
      forall a | a in s.plugins
        ensures DirsOk(Cur(Extend(s.h, c)), a, s.plugins[a]) && AirOk(Cur(Extend(s.h, c)), s.air - {f}, a, s.plugins[a])
      {
        LandCommitKeepsDirs(s, f, c, a);
        CommitKeepsAir(s, c, s.air - {f}, a);
      }
    } else {
      assert forall a :: a in s.plugins ==> AirOk(Cur(s.h), s.air, a, s.plugins[a]);
    }
  }

  lemma LandCommitKeepsDirs(s: Sys, f: Flight, c: Commit, a: string)
    requires CrashInv(s) && f in s.air && a in s.plugins && Can(c, Cur(s.h)) && Carried(f).Some? && c == Carried(f).value.0
    requires f.FromPlugin? ==> IsCurrent(Cur(s.h), f.op.view) && c.who == PluginOn(f.node)
    requires f.FromController? ==> !c.act.VolumeAdded?
    ensures DirsOk(Cur(Extend(s.h, c)), a, s.plugins[a])
  {
    if c.act.VolumeAdded? && c.who == PluginOn(a) {
      assert InAir(f, a, c.act.vol.volID) && AirOk(Cur(s.h), s.air, a, s.plugins[a]);
    }
    CommitKeepsDirs(s.h, c, a, s.plugins[a]);
  }

  lemma CommitKeepsAllDirs(s: Sys, c: Commit)
    requires CrashInv(s) && Can(c, Cur(s.h)) && !c.act.VolumeAdded?
    ensures forall a :: a in s.plugins ==>
              DirsOk(Cur(Extend(s.h, c)), a, s.plugins[a]) && AirOk(Cur(Extend(s.h, c)), s.air, a, s.plugins[a])
  {
    forall a | a in s.plugins
      ensures DirsOk(Cur(Extend(s.h, c)), a, s.plugins[a]) && AirOk(Cur(Extend(s.h, c)), s.air, a, s.plugins[a])
    {
      CommitKeepsDirs(s.h, c, a, s.plugins[a]);
      CommitKeepsAir(s, c, s.air, a);
    }
  }

  /** Every plugin's directories are in order. */
  ghost predicate AllDirsOk(s: Sys)
    requires s.h.snaps != []
  {
    forall n :: n in s.plugins ==> DirsOk(Cur(s.h), n, s.plugins[n]) && AirOk(Cur(s.h), s.air, n, s.plugins[n])
  }

  lemma UserKeepsDirs(s: Sys, u: UserStep)
    requires CrashInv(s)
    ensures AllDirsOk(Next(s, ByUser(u)))
  {
    var c := UserIsAtomic(s.h, u);
    if UserNext(s.h, u) != s.h {
      CommitKeepsAllDirs(s, c);
    }
  }

  lemma ControllerKeepsDirs(s: Sys, st: CtlStep)
    requires CrashInv(s)
    ensures AllDirsOk(Next(s, ByController(st)))
  {
    if st.CtlSend? {
      var c := ControllerSendIsAtomic(s, st.key, st.delivery);
      if CtlSendNext(s, st.key, st.delivery).h != s.h {
        CommitKeepsAllDirs(s, c);
      }
      assert forall f :: f in CtlSendNext(s, st.key, st.delivery).air && f.FromPlugin? ==> f in s.air;
    }
  }

  lemma PluginKeepsDirs(s: Sys, n: string, st: PluginStep)
    requires CrashInv(s) && n in s.plugins && Informed(s, ByPlugin(n, st))
    ensures AllDirsOk(Next(s, ByPlugin(n, st)))
  {
    if st.Send? {
      SendKeepsDirs(s, n, st.delivery);
      SendKeepsAir(s, n, st.delivery);
    } else {
      LocalKeepsDirs(s, n, st);
      LocalKeepsAir(s, n, st);
    }
  }

  lemma StepKeepsDirs(s: Sys, step: Step)
    requires CrashInv(s) && Informed(s, step)
    ensures CrashInv(Next(s, step))
  {
    StepKeepsInv(s, step);
    match step
    case ByUser(u) => UserKeepsDirs(s, u);
    case ByController(st) => ControllerKeepsDirs(s, st);
    case Land(f) =>
      if f in s.air {
        LandKeepsDirs(s, f);
      }
    case ByPlugin(n, st) =>
      if n in s.plugins {
        PluginKeepsDirs(s, n, st);
      }
  }

  ghost predicate AlwaysInformed(s: Sys, steps: seq<Step>)
    requires s.h.snaps != []
  {
    steps == [] ||
    (AlwaysInformed(s, steps[..|steps| - 1]) && Informed(Run(s, steps[..|steps| - 1]), steps[|steps| - 1]))
  }

  lemma {:induction false} RunKeepsDirs(nodes: set<string>, steps: seq<Step>)
    requires AlwaysInformed(Start(nodes), steps)
    ensures CrashInv(Run(Start(nodes), steps))
  {
    if steps == [] {
      assert Inv(Start(nodes));
    } else {
      RunKeepsDirs(nodes, steps[..|steps| - 1]);
      StepKeepsDirs(Run(Start(nodes), steps[..|steps| - 1]), steps[|steps| - 1]);
    }
  }

  /** With crashes, conflicts, lost and late updates and failed directory calls between any two steps,
      every volume in the committed ledger of a node has its directory there. */
  lemma {:induction false} LedgerVolumesHaveDirectories(nodes: set<string>, steps: seq<Step>)
    requires AlwaysInformed(Start(nodes), steps)
    ensures var s := Run(Start(nodes), steps);
            forall n, k :: n in s.plugins && k in Cur(s.h) && Cur(s.h)[k].spec.node == n ==>
              Ids(Cur(s.h)[k].status.volumes) <= s.plugins[n].dirs
  {
    RunKeepsDirs(nodes, steps);
    var s := Run(Start(nodes), steps);
    forall n, k | n in s.plugins && k in Cur(s.h) && Cur(s.h)[k].spec.node == n
      ensures Ids(Cur(s.h)[k].status.volumes) <= s.plugins[n].dirs
    {
      assert DirsOk(Cur(s.h), n, s.plugins[n]);
    }
  }

  // ---------- exactly when a volume loses its directory ----------

  /** A late create arrives, is current, and its directory is gone; or DeleteVolume removes the directory
      of an ID that is in the ledger, because a create of that ID has landed since the update was accepted
      (LandedBeforeRemoval). */
  ghost predicate Uncovers(s: Sys, step: Step, n: string)
    requires s.h.snaps != [] && n in s.plugins
  {
    || (step.Land? && step.f in s.air && step.f.FromPlugin? && step.f.node == n && step.f.op.Creating?
        && step.f.op.view.name in Cur(s.h) && Cur(s.h)[step.f.op.view.name] == step.f.op.view
        && step.f.op.vol.volID !in s.plugins[n].dirs)
    || (step == ByPlugin(n, RemoveDir(true)) && s.plugins[n].op.Removing? && !Gone(Cur(s.h), n, s.plugins[n].op.id))
  }

  /** A create computed from the current version always goes through. */
  lemma CurrentCreateCommits(h: Hist, used: set<string>, n: string, view: LocalStorage, v: Volume)
    requires Valid(h) && OpOk(h, used, n, Creating(view, v)) && view.name in Cur(h) && Cur(h)[view.name] == view
    ensures Request(n, Creating(view, v)).Some?
    ensures var (c, o) := Request(n, Creating(view, v)).value; Submit(h, c, o).0 == Extend(h, c)
  {
    var (c, o) := Request(n, Creating(view, v)).value;
    CreateIsAtomic(h, used, n, view, v);
    VersionSound(h, view);
    StatusWritePasses(view, o);
    assert |o.status.volumes| == |view.status.volumes| + 1;
  }

  lemma LandUncoversIff(s: Sys, f: Flight, n: string)
    requires Inv(s) && n in s.plugins && f in s.air && Covered(Cur(s.h), n, s.plugins[n].dirs)
    ensures !Covered(Cur(LandNext(s, f).h), n, s.plugins[n].dirs) <==> Uncovers(s, Land(f), n)
  {
    assert FlightOk(s.h, s.used, f);
    CarriedIsAtomic(s.h, s.used, f);
    var (c, o) := Carried(f).value;
    if f.FromPlugin? && f.op.Creating? && f.op.view.name in Cur(s.h) && Cur(s.h)[f.op.view.name] == f.op.view {
      CurrentCreateCommits(s.h, s.used, f.node, f.op.view, f.op.vol);
    }
    if Submit(s.h, c, o).0 != s.h {
      CommitUncoversIff(s.h, c, n, s.plugins[n].dirs);
    }
  }

  lemma RemoveDirUncoversIff(m: Store, n: string, p: Plugin, ok: bool)
    requires Covered(m, n, p.dirs) && p.op.Removing?
    ensures !Covered(m, n, if ok then p.dirs - {p.op.id} else p.dirs) <==> ok && !Gone(m, n, p.op.id)
  {
  }

  lemma RequestUncoversNothing(s: Sys, a: string, n: string)
    requires Inv(s) && n in s.plugins && a in s.plugins && Covered(Cur(s.h), n, s.plugins[n].dirs)
    requires s.plugins[n].op.Creating? ==> s.plugins[n].op.vol.volID in s.plugins[n].dirs
    requires Request(a, s.plugins[a].op).Some?
    ensures var (c, o) := Request(a, s.plugins[a].op).value; Covered(Cur(Submit(s.h, c, o).0), n, s.plugins[n].dirs)
  {
    var (c, o) := Request(a, s.plugins[a].op).value;
    assert PluginOk(s.h, s.used, a, s.plugins[a]);
    RequestIsAtomic(s.h, s.used, a, s.plugins[a].op);
    if Submit(s.h, c, o).0 != s.h {
      CommitUncoversIff(s.h, c, n, s.plugins[n].dirs);
    }
  }

  lemma SendUncoversNothing(s: Sys, a: string, d: Delivery, n: string)
    requires Inv(s) && n in s.plugins && a in s.plugins && Covered(Cur(s.h), n, s.plugins[n].dirs)
    requires s.plugins[n].op.Creating? ==> s.plugins[n].op.vol.volID in s.plugins[n].dirs
    ensures Covered(Cur(PluginSend(s, a, d).h), n, PluginSend(s, a, d).plugins[n].dirs)
  {
    if Request(a, s.plugins[a].op).Some? {
      RequestUncoversNothing(s, a, n);
    }
  }

  lemma LocalUncoversIff(s: Sys, a: string, st: PluginStep, n: string)
    requires Inv(s) && n in s.plugins && a in s.plugins && !st.Send? && Covered(Cur(s.h), n, s.plugins[n].dirs)
    ensures !Covered(Cur(s.h), n, (if a == n then PluginLocal(s, n, st) else s.plugins[n]).dirs) <==> Uncovers(s, ByPlugin(a, st), n)
  {
    if st.RemoveDir? && s.plugins[n].op.Removing? {
      RemoveDirUncoversIff(Cur(s.h), n, s.plugins[n], st.ok);
    }
  }

  lemma StepLosesDirectoryIff(s: Sys, step: Step, n: string)
    requires Inv(s) && BegunHaveDirs(s) && n in s.plugins && Covered(Cur(s.h), n, s.plugins[n].dirs)
    ensures !Covered(Cur(Next(s, step).h), n, Next(s, step).plugins[n].dirs) <==> Uncovers(s, step, n)
  {
    match step
    case Land(f) =>
      if f in s.air {
        LandUncoversIff(s, f, n);
      }
    case ByPlugin(a, st) =>
      if a in s.plugins {
        if st.Send? {
          SendUncoversNothing(s, a, st.delivery, n);
        } else {
          LocalUncoversIff(s, a, st, n);
        }
      }
    case _ =>
      var c := StepIsAtomic(s, step);
      if Next(s, step).h != s.h {
        CommitUncoversIff(s.h, c, n, s.plugins[n].dirs);
      }
  }

  /** A create that is begun has its directory, whatever callers delete. */
  ghost predicate BegunHaveDirs(s: Sys) {
    forall n :: n in s.plugins && s.plugins[n].op.Creating? ==> s.plugins[n].op.vol.volID in s.plugins[n].dirs
  }

  lemma {:induction false} RunKeepsBegun(nodes: set<string>, steps: seq<Step>)
    ensures BegunHaveDirs(Run(Start(nodes), steps))
  {
    if steps != [] {
      RunKeepsBegun(nodes, steps[..|steps| - 1]);
      StepKeepsBegun(Run(Start(nodes), steps[..|steps| - 1]), steps[|steps| - 1]);
    }
  }

  lemma StepKeepsBegun(s: Sys, step: Step)
    requires s.h.snaps != [] && BegunHaveDirs(s)
    ensures BegunHaveDirs(Next(s, step))
  {
  }

  /** After every run, whatever callers have deleted: a step leaves a volume of n without directory exactly if
      a late create that is current lands without its directory, or the directory of an ID in the ledger is
      removed. */
  lemma LosesDirectoryIff(nodes: set<string>, steps: seq<Step>, step: Step, n: string)
    requires var s := Run(Start(nodes), steps); n in s.plugins && Covered(Cur(s.h), n, s.plugins[n].dirs)
    ensures var s := Run(Start(nodes), steps);
            !Covered(Cur(Next(s, step).h), n, Next(s, step).plugins[n].dirs) <==> Uncovers(s, step, n)
  {
    assert Inv(Start(nodes));
    RunKeepsInv(Start(nodes), steps);
    RunKeepsBegun(nodes, steps);
    StepLosesDirectoryIff(Run(Start(nodes), steps), step, n);
  }

  // ---------- how a directory can be removed under a ledger volume ----------

  /** A create of the ID lands while n, whose update was accepted, has yet to remove the directory. */
  ghost predicate LandsUnderRemoval(s: Sys, step: Step, n: string, id: string)
    requires s.h.snaps != []
  {
    && n in s.plugins && s.plugins[n].op == Removing(id)
    && step.Land? && step.f in s.air && InAir(step.f, n, id) && IsCurrent(Cur(s.h), step.f.op.view)
  }

  lemma CommitBreaksGone(h: Hist, c: Commit, n: string, id: string)
    requires Valid(h) && Can(c, Cur(h)) && Gone(Cur(h), n, id) && !Gone(Cur(Extend(h, c)), n, id)
    ensures c.act.VolumeAdded? && c.who == PluginOn(n) && c.act.vol.volID == id
  {
    HistorySound(h, |h.snaps| - 1);
    var k :| k in Cur(Extend(h, c)) && Cur(Extend(h, c))[k].spec.node == n && id in Ids(Cur(Extend(h, c))[k].status.volumes);
    IdsAfter(c, Cur(h), |h.snaps|, k);
  }

  lemma SendLeavesGone(s: Sys, n: string, d: Delivery, id: string)
    requires Inv(s) && n in s.plugins && s.plugins[n].op != Removing(id) && PluginSend(s, n, d).plugins[n].op == Removing(id)
    ensures Gone(Cur(PluginSend(s, n, d).h), n, id)
  {
    assert PluginOk(s.h, s.used, n, s.plugins[n]);
    AcceptedDeleteIsGone(s.h, s.used, n, s.plugins[n].op);
  }

  /** Before the removal starts, the ID is gone; after that, only a late create brings it back. */
  lemma StepUnderRemoval(s: Sys, step: Step, n: string, id: string)
    requires Inv(s) && n in s.plugins && Next(s, step).plugins[n].op == Removing(id) && !Gone(Cur(Next(s, step).h), n, id)
    ensures s.plugins[n].op == Removing(id)
    ensures Gone(Cur(s.h), n, id) ==> LandsUnderRemoval(s, step, n, id)
  {
    if step.ByPlugin? && step.node == n && step.p.Send? && s.plugins[n].op != Removing(id) {
      SendLeavesGone(s, n, step.p.delivery, id);
    }
    var c := StepIsAtomic(s, step);
    if Gone(Cur(s.h), n, id) {
      CommitBreaksGone(s.h, c, n, id);
      LandBreaksGone(s, step, c, n, id);
    }
  }

  lemma LandBreaksGone(s: Sys, step: Step, c: Commit, n: string, id: string)
    requires Inv(s) && n in s.plugins && s.plugins[n].op == Removing(id) && c.who == PluginOn(n) && c.who == StepWriter(step)
    requires Next(s, step).h == Extend(s.h, c) && c.act.VolumeAdded? && c.act.vol.volID == id
    ensures LandsUnderRemoval(s, step, n, id)
  {
    if step.Land? {
      CarriedIsAtomic(s.h, s.used, step.f);
      assert Next(s, step).h.log[|s.h.log|] == c;
    }
  }

  /** The state after the first t steps. */
  ghost function StateAt(nodes: set<string>, steps: seq<Step>, t: nat): (s: Sys)
    requires t <= |steps|
    ensures s.h.snaps != [] && Inv(s)
  {
    assert Inv(Start(nodes));
    RunKeepsInv(Start(nodes), steps[..t]);
    Run(Start(nodes), steps[..t])
  }

  lemma StateAtNext(nodes: set<string>, steps: seq<Step>, t: nat)
    requires t < |steps|
    ensures StateAt(nodes, steps, t + 1) == Next(StateAt(nodes, steps, t), steps[t])
    ensures StateAt(nodes, steps, t + 1).plugins.Keys == StateAt(nodes, steps, t).plugins.Keys
  {
    assert steps[..t + 1][..t] == steps[..t];
  }

  ghost predicate LandedAt(nodes: set<string>, steps: seq<Step>, t: nat, n: string, id: string) {
    t < |steps| && LandsUnderRemoval(StateAt(nodes, steps, t), steps[t], n, id)
  }

  ghost predicate RemovingAt(nodes: set<string>, steps: seq<Step>, t: nat, n: string, id: string) {
    t <= |steps| && n in StateAt(nodes, steps, t).plugins && StateAt(nodes, steps, t).plugins[n].op == Removing(id)
  }

  ghost predicate GoneAt(nodes: set<string>, steps: seq<Step>, t: nat, n: string, id: string) {
    t <= |steps| && Gone(Cur(StateAt(nodes, steps, t).h), n, id)
  }

  lemma NotRemovingAtStart(nodes: set<string>, steps: seq<Step>, n: string, id: string)
    ensures !RemovingAt(nodes, steps, 0, n, id)
  {
  }

  lemma LastUnderRemoval(nodes: set<string>, steps: seq<Step>, m: nat, n: string, id: string)
    requires 0 < m <= |steps| && RemovingAt(nodes, steps, m, n, id) && !GoneAt(nodes, steps, m, n, id)
    ensures RemovingAt(nodes, steps, m - 1, n, id)
    ensures GoneAt(nodes, steps, m - 1, n, id) ==> LandedAt(nodes, steps, m - 1, n, id)
  {
    StateAtNext(nodes, steps, m - 1);
    StepUnderRemoval(StateAt(nodes, steps, m - 1), steps[m - 1], n, id);
  }

  /** From m back: removing stays true as long as it is not gone, and where it was gone it landed. */
  lemma {:induction false} LookBack(removing: nat -> bool, gone: nat -> bool, landed: nat -> bool, m: nat) returns (t: nat)
    requires removing(m) && !gone(m) && !removing(0)
    requires forall i :: 0 < i <= m && removing(i) && !gone(i) ==> removing(i - 1) && (gone(i - 1) ==> landed(i - 1))
    ensures t < m && landed(t) && forall u :: t <= u <= m ==> removing(u)
    decreases m
  {
    assert m > 0;
    t := m - 1;
    if !gone(m - 1) {
      t := LookBack(removing, gone, landed, m - 1);
    }
  }

  /** If after m steps a plugin is about to remove the directory of an ID that is in the ledger, a create of
      that ID landed after its delete was accepted, and it has been about to remove it ever since. */
  lemma LandedBeforeRemoval(nodes: set<string>, steps: seq<Step>, m: nat, n: string, id: string) returns (t: nat)
    requires RemovingAt(nodes, steps, m, n, id) && !GoneAt(nodes, steps, m, n, id)
    ensures t < m && LandedAt(nodes, steps, t, n, id)
    ensures forall u: nat :: t <= u <= m ==> RemovingAt(nodes, steps, u, n, id)
  {
    NotRemovingAtStart(nodes, steps, n, id);
    forall i: nat | 0 < i <= m && RemovingAt(nodes, steps, i, n, id) && !GoneAt(nodes, steps, i, n, id)
      ensures RemovingAt(nodes, steps, i - 1, n, id) && (GoneAt(nodes, steps, i - 1, n, id) ==> LandedAt(nodes, steps, i - 1, n, id))
    {
      LastUnderRemoval(nodes, steps, i, n, id);
    }
    var removing := (u: nat) => RemovingAt(nodes, steps, u, n, id);
    t := LookBack(removing, (u: nat) => GoneAt(nodes, steps, u, n, id), (u: nat) => LandedAt(nodes, steps, u, n, id), m);
    forall u: nat | t <= u <= m
      ensures RemovingAt(nodes, steps, u, n, id)
    {
      assert removing(u);
    }
  }
}
