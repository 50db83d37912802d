/** A plugin writes only the objects of its own node, also through keys queued long before. */
module Ownership {
  import opened Types
  import opened Ledger
  import opened Workqueue
  import opened Protocol
  import opened Refinement

  /** Some version of k up to revision i was bound to n. */
  ghost predicate OnceBound(h: Hist, i: nat, k: string, n: string) {
    exists j :: 0 <= j <= i && j < |h.snaps| && Bound(h.snaps[j], k, n)
  }

  ghost predicate QueueOwned(h: Hist, n: string, p: Plugin) {
    && (forall k :: Queued(p.queue, k) ==> OnceBound(h, |h.snaps|, k, n))
    && (p.work.Some? ==> OnceBound(h, |h.snaps|, p.work.value, n))
  }

  ghost predicate FlightOwned(h: Hist, f: Flight) {
    f.FromPlugin? && f.op.Syncing? ==> OnceBound(h, |h.snaps|, f.op.view.name, f.node)
  }

  ghost predicate LogOwned(h: Hist) {
    forall i :: 0 <= i < |h.log| && h.log[i].who.PluginOn? ==> OnceBound(h, i, h.log[i].act.name, h.log[i].who.node)
  }

  ghost predicate OwnInv(s: Sys) {
    && Inv(s)
    && LogOwned(s.h)
    && (forall n :: n in s.plugins ==> QueueOwned(s.h, n, s.plugins[n]))
    && (forall f :: f in s.air ==> FlightOwned(s.h, f))
  }

  lemma BoundAt(h: Hist, j: nat, k: string, n: string)
    requires j < |h.snaps| && Bound(h.snaps[j], k, n)
    ensures OnceBound(h, |h.snaps|, k, n)
  {
  }

  lemma OnceBoundExtends(h: Hist, c: Commit, i: nat, k: string, n: string)
    requires h.snaps != [] && OnceBound(h, i, k, n)
    ensures OnceBound(Extend(h, c), i, k, n) && OnceBound(Extend(h, c), |Extend(h, c).snaps|, k, n)
  {
    var j :| 0 <= j <= i && j < |h.snaps| && Bound(h.snaps[j], k, n);
    assert Bound(Extend(h, c).snaps[j], k, n);
  }

  lemma QueueOwnedExtends(h: Hist, c: Commit, n: string, p: Plugin)
    requires h.snaps != [] && QueueOwned(h, n, p)
    ensures QueueOwned(Extend(h, c), n, p)
  {
    forall k | OnceBound(h, |h.snaps|, k, n)
      ensures OnceBound(Extend(h, c), |Extend(h, c).snaps|, k, n)
    {
      OnceBoundExtends(h, c, |h.snaps|, k, n);
    }
  }

  lemma LogOwnedExtends(h: Hist, c: Commit)
    requires Valid(h) && LogOwned(h)
    requires c.who.PluginOn? ==> OnceBound(h, |h.snaps|, c.act.name, c.who.node)
    ensures LogOwned(Extend(h, c))
  {
    var h' := Extend(h, c);
    forall i | 0 <= i < |h'.log| && h'.log[i].who.PluginOn?
      ensures OnceBound(h', i, h'.log[i].act.name, h'.log[i].who.node)
    {
      if i < |h.log| {
        assert h'.log[i] == h.log[i];
        OnceBoundExtends(h, c, i, h.log[i].act.name, h.log[i].who.node);
      } else {
        var j :| 0 <= j <= |h.snaps| && j < |h.snaps| && Bound(h.snaps[j], c.act.name, c.who.node);
        assert Bound(h'.snaps[j], c.act.name, c.who.node);
      }
    }
  }

  lemma LocalKeepsOwned(s: Sys, n: string, st: PluginStep)
    requires OwnInv(s) && n in s.plugins && !st.Send?
    ensures QueueOwned(s.h, n, PluginLocal(s, n, st))
  {
    var p := s.plugins[n];
    assert PluginOk(s.h, s.used, n, p) && QueueOwned(s.h, n, p);
    forall j, k | 0 <= j < |s.h.snaps| && Bound(s.h.snaps[j], k, n)
      ensures OnceBound(s.h, |s.h.snaps|, k, n)
    {
      BoundAt(s.h, j, k, n);
    }
    match st
    case Hear =>
      if p.told < p.seen {
        var k := s.h.log[p.told].act.name;
        assert k in s.h.snaps[p.told + 1] && Assigned(s.h.snaps[p.told + 1][k], n) ==> Bound(s.h.snaps[p.told + 1], k, n);
      }
    case HearList(upto) =>
      if p.told <= upto <= p.seen {
        FilteredAreBound(s.h.snaps[upto], n);
      }
    case Resync => FilteredAreBound(s.h.snaps[p.seen], n);
    case Restart(at) =>
      if at < |s.h.snaps| {
        FilteredAreBound(s.h.snaps[at], n);
      }
    case SyncBegin(_) =>
      if p.work.Some? && p.work.value in s.h.snaps[p.seen] {
        SnapshotVersion(s.h, p.seen, p.work.value);
      }
    case _ =>
  }

  lemma FilteredAreBound(m: Store, n: string)
    ensures forall k :: k in FilteredKeys(m, n) ==> Bound(m, k, n)
  {
  }

  lemma OpOwns(h: Hist, used: set<string>, n: string, op: Op)
    requires Valid(h) && OpOk(h, used, n, op) && Request(n, op).Some?
    requires op.Syncing? ==> OnceBound(h, |h.snaps|, op.view.name, n)
    ensures OnceBound(h, |h.snaps|, op.view.name, n)
  {
    if !op.Syncing? {
      assert Bound(h.snaps[op.view.rv], op.view.name, n);
    }
  }

  lemma SenderOwns(s: Sys, n: string)
    requires OwnInv(s) && n in s.plugins && Request(n, s.plugins[n].op).Some?
    ensures OnceBound(s.h, |s.h.snaps|, s.plugins[n].op.view.name, n)
  {
    var p := s.plugins[n];
    assert PluginOk(s.h, s.used, n, p) && QueueOwned(s.h, n, p);
    OpOwns(s.h, s.used, n, p.op);
  }

  lemma FlightOwns(s: Sys, f: Flight)
    requires OwnInv(s) && f in s.air && f.FromPlugin?
    ensures OnceBound(s.h, |s.h.snaps|, f.op.view.name, f.node)
  {
    assert FlightOk(s.h, s.used, f) && FlightOwned(s.h, f);
    OpOwns(s.h, s.used, f.node, f.op);
  }

  lemma CommitKeepsOwned(s: Sys, c: Commit)
    requires OwnInv(s)
    requires c.who.PluginOn? ==> OnceBound(s.h, |s.h.snaps|, c.act.name, c.who.node)
    ensures LogOwned(Extend(s.h, c))
    ensures forall a :: a in s.plugins ==> QueueOwned(Extend(s.h, c), a, s.plugins[a])
    ensures forall f :: f in s.air ==> FlightOwned(Extend(s.h, c), f)
  {
    LogOwnedExtends(s.h, c);
    forall a | a in s.plugins
      ensures QueueOwned(Extend(s.h, c), a, s.plugins[a])
    {
      QueueOwnedExtends(s.h, c, a, s.plugins[a]);
    }
    forall f | f in s.air && f.FromPlugin? && f.op.Syncing?
      ensures OnceBound(Extend(s.h, c), |Extend(s.h, c).snaps|, f.op.view.name, f.node)
    {
      assert FlightOwned(s.h, f);
      OnceBoundExtends(s.h, c, |s.h.snaps|, f.op.view.name, f.node);
    }
  }

  lemma AnswerKeepsOwned(h: Hist, n: string, p: Plugin, ok: bool)
    requires QueueOwned(h, n, p) && (p.op.Syncing? ==> OnceBound(h, |h.snaps|, p.op.view.name, n))
    ensures QueueOwned(h, n, AfterSend(p, ok))
  {
  }

  lemma SendKeepsOwned(s: Sys, n: string, d: Delivery)
    requires OwnInv(s) && n in s.plugins && Inv(PluginSend(s, n, d))
    ensures OwnInv(PluginSend(s, n, d))
  {
    var p := s.plugins[n];
    assert PluginOk(s.h, s.used, n, p) && QueueOwned(s.h, n, p);
    if Request(n, p.op).Some? {
      var (c, o) := Request(n, p.op).value;
      RequestIsAtomic(s.h, s.used, n, p.op);
      SenderOwns(s, n);
      var s' := PluginSend(s, n, d);
      if s'.h != s.h {
        CommittedSendKeepsOwned(s, n, d, c);
      } else {
        AnswerKeepsOwned(s.h, n, p, d.Answered? && Accepted(Submit(s.h, c, o).1));
        AnswerKeepsOwned(s.h, n, p, false);
      }
    }
  }

  lemma CommittedSendKeepsOwned(s: Sys, n: string, d: Delivery, c: Commit)
    requires OwnInv(s) && n in s.plugins && Inv(PluginSend(s, n, d)) && Request(n, s.plugins[n].op).Some?
    requires c.who == PluginOn(n) && c.act.name == s.plugins[n].op.view.name && PluginSend(s, n, d).h == Extend(s.h, c)
    requires OnceBound(s.h, |s.h.snaps|, c.act.name, n)
    ensures OwnInv(PluginSend(s, n, d))
  {
    var p := s.plugins[n];
    CommitKeepsOwned(s, c);
    OnceBoundExtends(s.h, c, |s.h.snaps|, p.op.view.name, n);
    AnswerKeepsOwned(Extend(s.h, c), n, p, true);
    AnswerKeepsOwned(Extend(s.h, c), n, p, false);
    assert !d.InFlight?;
  }

  lemma StepKeepsOwned(s: Sys, step: Step)
    requires OwnInv(s)
    ensures OwnInv(Next(s, step))
  {
    StepKeepsInv(s, step);
    match step
    case ByPlugin(n, st) =>
      if n in s.plugins {
        if st.Send? {
          SendKeepsOwned(s, n, st.delivery);
        } else {
          LocalKeepsOwned(s, n, st);
        }
      }
    case Land(f) =>
      if f in s.air {
        CarriedIsAtomic(s.h, s.used, f);
        if f.FromPlugin? {
          FlightOwns(s, f);
        }
        if LandNext(s, f).h != s.h {
          CommitKeepsOwned(s, Carried(f).value.0);
        }
      }
    case _ =>
      var c := StepIsAtomic(s, step);
      if Next(s, step).h != s.h {
        CommitKeepsOwned(s, c);
      }
  }

  lemma {:induction false} RunKeepsOwned(nodes: set<string>, steps: seq<Step>)
    ensures OwnInv(Run(Start(nodes), steps))
  {
    if steps == [] {
      assert Inv(Start(nodes));
    } else {
      RunKeepsOwned(nodes, steps[..|steps| - 1]);
      StepKeepsOwned(Run(Start(nodes), steps[..|steps| - 1]), steps[|steps| - 1]);
    }
  }

  // ---------- exactly when a write is foreign ----------

  /** The call whose update a step delivers. */
  function StepOp(s: Sys, step: Step): Op {
    match step
    case ByPlugin(n, _) => if n in s.plugins then s.plugins[n].op else Idle
    case Land(f) => if f.FromPlugin? then f.op else Idle
    case _ => Idle
  }

  /** A plugin's commit changes the object of another node exactly if it comes from a sync whose copy was
      bound to another node: sync does not look at the node of the copy it has read. */
  lemma ForeignWriteIff(s: Sys, step: Step)
    requires Inv(s) && Next(s, step).h != s.h && StepWriter(step).PluginOn?
    ensures var n, op, c := StepWriter(step).node, StepOp(s, step), Next(s, step).h.log[|Next(s, step).h.log| - 1];
            && c.who == PluginOn(n) && (op.Syncing? || op.Creating? || op.Deleting?) && c.act.name == op.view.name
            && c.act.name in Cur(s.h)
            && (Cur(s.h)[c.act.name].spec.node != n <==> op.Syncing? && op.view.spec.node != n)
  {
    match step
    case ByPlugin(n, _) =>
      assert PluginOk(s.h, s.used, n, s.plugins[n]);
      RequestIsAtomic(s.h, s.used, n, s.plugins[n].op);
    case Land(f) =>
      assert FlightOk(s.h, s.used, f);
      RequestIsAtomic(s.h, s.used, f.node, f.op);
  }

  /** If k is in the store at both revisions, it is bound to the same node. */
  ghost predicate SameNode(h: Hist, i: nat, j: nat, k: string) {
    i < |h.snaps| && j < |h.snaps| && k in h.snaps[i] && k in h.snaps[j] ==> h.snaps[i][k].spec.node == h.snaps[j][k].spec.node
  }

  /** k was bound to one node only up to revision i, however often it was deleted and created again. */
  ghost predicate OneNode(h: Hist, k: string, i: nat) {
    forall a: nat, b: nat :: a <= i && b <= i ==> SameNode(h, a, b, k)
  }

  /** Volume writes always go to the plugin's own object; phase writes do if the name was not used for
      another node before. */
  lemma PluginsWriteOwnObjects(nodes: set<string>, steps: seq<Step>, i: nat)
    requires var h := HistoryOf(nodes, steps); i < |h.log| && h.log[i].who.PluginOn?
    ensures var h := HistoryOf(nodes, steps); var c := h.log[i];
            && c.act.name in h.snaps[i]
            && (c.act.VolumeAdded? || c.act.VolumeRemoved? || OneNode(h, c.act.name, i) ==> h.snaps[i][c.act.name].spec.node == c.who.node)
  {
    RunKeepsOwned(nodes, steps);
    var h := HistoryOf(nodes, steps);
    var c := h.log[i];
    StepBack(h, i + 1);
    if OneNode(h, c.act.name, i) {
      assert OnceBound(h, i, c.act.name, c.who.node);
      var j :| 0 <= j <= i && j < |h.snaps| && Bound(h.snaps[j], c.act.name, c.who.node);
      assert SameNode(h, j, i, c.act.name);
    }
  }
}
