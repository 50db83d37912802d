/** A potential that every committed phase write uses up: the reconcilers cannot fight for ever over an
    object, and termination, once all plugins have caught up, is final. */
module Termination {
  import Admission
  import opened Types
  import opened Ledger
  import opened Workqueue
  import opened Protocol
  import opened Refinement
  import opened Convergence

  ghost predicate TermInv(s: Sys) {
    Inv(s) && forall n :: n in s.plugins ==> RetriesOk(s.plugins[n].queue)
  }

  // ---------- the potential ----------

  /** Revision i is a version of k that n's filter lets through. */
  predicate Passing(h: Hist, i: nat, k: string, n: string)
    requires |h.snaps| == |h.log| + 1 && 0 < i < |h.snaps|
  {
    h.log[i - 1].act.name == k && k in h.snaps[i] && Assigned(h.snaps[i][k], n)
  }

  /** How many filtered versions of k are still to be announced from revision i on. */
  function Unheard(h: Hist, i: nat, k: string, n: string): nat
    requires |h.snaps| == |h.log| + 1 && 0 < i <= |h.snaps|
    decreases |h.snaps| - i
  {
    if i == |h.snaps| then 0 else (if Passing(h, i, k, n) then 1 else 0) + Unheard(h, i + 1, k, n)
  }

  /** The worker has k in its hands. */
  function Held(p: Plugin, k: string): nat {
    if p.work == Some(k) then 1 else 0
  }

  /** What plugin n may still do about k. */
  function Share(h: Hist, p: Plugin, n: string, k: string): int
    requires |h.snaps| == |h.log| + 1 && p.told < |h.snaps|
  {
    32 * Unheard(h, p.told + 1, k, n) + 2 * Attempts(p.queue, k, Held(p, k))
  }

  ghost predicate InHistory(h: Hist, ps: map<string, Plugin>) {
    |h.snaps| == |h.log| + 1 && forall n :: n in ps ==> ps[n].told < |h.snaps|
  }

  /** The shares of the plugins named. */
  ghost function Shares(h: Hist, ps: map<string, Plugin>, names: set<string>, k: string): int
    requires InHistory(h, ps) && names <= ps.Keys
  {
    if names == {} then 0
    else var n :| n in names; Share(h, ps[n], n, k) + Shares(h, ps, names - {n}, k)
  }

  function Rank(o: LocalStorage): nat {
    match o.status.phase
    case Pending => 2
    case Initiating => 1
    case _ => 0
  }

  function Flag(o: LocalStorage): nat {
    if o.status.phase == Terminating then 0 else 1
  }

  function PhasePart(o: LocalStorage): nat {
    34 * Rank(o) + Flag(o)
  }

  /** A sync of this version is in flight. */
  ghost predicate SyncInAir(air: set<Flight>, o: LocalStorage) {
    exists a :: FromPlugin(a, Syncing(o)) in air
  }

  ghost function Danger(air: set<Flight>, o: LocalStorage): nat {
    if SyncInAir(air, o) then 2 else 0
  }

  /** k is in the store. */
  ghost predicate At(s: Sys, k: string) {
    Valid(s.h) && InHistory(s.h, s.plugins) && k in Cur(s.h)
  }

  /** What all plugins may still write to k, or set off. */
  ghost function PotentialOf(s: Sys, k: string): int
    requires At(s, k)
  {
    Shares(s.h, s.plugins, s.plugins.Keys, k) + PhasePart(Cur(s.h)[k]) + Danger(s.air, Cur(s.h)[k])
  }

  // ---------- sums of shares ----------

  lemma {:induction false} SharesPick(h: Hist, ps: map<string, Plugin>, names: set<string>, k: string, n: string)
    requires InHistory(h, ps) && names <= ps.Keys && n in names
    ensures Shares(h, ps, names, k) == Share(h, ps[n], n, k) + Shares(h, ps, names - {n}, k)
    decreases names
  {
    var m :| m in names && Shares(h, ps, names, k) == Share(h, ps[m], m, k) + Shares(h, ps, names - {m}, k);
    if m != n {
      SharesPick(h, ps, names - {m}, k, n);
      SharesPick(h, ps, names - {n}, k, m);
      assert names - {m} - {n} == names - {n} - {m};
    }
  }

  lemma {:induction false} SharesSame(h: Hist, ps: map<string, Plugin>, h': Hist, ps': map<string, Plugin>, names: set<string>, k: string)
    requires InHistory(h, ps) && InHistory(h', ps') && names <= ps.Keys && names <= ps'.Keys
    requires forall n :: n in names ==> Share(h', ps'[n], n, k) == Share(h, ps[n], n, k)
    ensures Shares(h', ps', names, k) == Shares(h, ps, names, k)
    decreases names
  {
    if names != {} {
      var n :| n in names;
      SharesPick(h, ps, names, k, n);
      SharesPick(h', ps', names, k, n);
      SharesSame(h, ps, h', ps', names - {n}, k);
    }
  }

  /** If all shares but n's are the same, the sums differ by what n's do. */
  lemma SharesBut(h: Hist, ps: map<string, Plugin>, h': Hist, ps': map<string, Plugin>, k: string, n: string)
    requires InHistory(h, ps) && InHistory(h', ps') && ps'.Keys == ps.Keys && n in ps
    requires forall a :: a in ps && a != n ==> Share(h', ps'[a], a, k) == Share(h, ps[a], a, k)
    ensures Shares(h', ps', ps'.Keys, k) - Shares(h, ps, ps.Keys, k) == Share(h', ps'[n], n, k) - Share(h, ps[n], n, k)
  {
    SharesPick(h, ps, ps.Keys, k, n);
    SharesPick(h', ps', ps'.Keys, k, n);
    SharesSame(h, ps, h', ps', ps.Keys - {n}, k);
  }

  lemma {:induction false} SharesNonNegative(h: Hist, ps: map<string, Plugin>, names: set<string>, k: string)
    requires InHistory(h, ps) && names <= ps.Keys && forall n :: n in ps ==> RetriesOk(ps[n].queue)
    ensures Shares(h, ps, names, k) >= 0
    decreases names
  {
    if names != {} {
      var n :| n in names;
      SharesPick(h, ps, names, k, n);
      SharesNonNegative(h, ps, names - {n}, k);
    }
  }

  // ---------- queues ----------

  lemma HandleErrAttempts(q: Queue, key: string, failed: bool, k: string)
    requires RetriesOk(q)
    ensures RetriesOk(HandleErr(q, key, failed))
    ensures k != key ==> forall held :: Attempts(HandleErr(q, key, failed), k, held) == Attempts(q, k, held)
    ensures Attempts(HandleErr(q, k, failed), k, 0) < Attempts(q, k, 1)
  {
  }

  lemma AddAttempts(q: Queue, key: string, k: string, held: nat)
    requires RetriesOk(q)
    ensures RetriesOk(Add(q, key))
    ensures Attempts(q, k, held) <= Attempts(Add(q, key), k, held) <= Attempts(q, k, held) + 16
    ensures key != k ==> Attempts(Add(q, key), k, held) == Attempts(q, k, held)
  {
  }

  /** A worker that is done with its key, whichever way, has used up an attempt. */
  lemma DoneAttempts(p: Plugin, key: string, failed: bool, k: string)
    requires RetriesOk(p.queue) && p.work == Some(key)
    ensures RetriesOk(Done(p, key, failed).queue)
    ensures var p' := Done(p, key, failed);
            if key == k then Attempts(p'.queue, k, Held(p', k)) < Attempts(p.queue, k, Held(p, k))
            else Attempts(p'.queue, k, Held(p', k)) == Attempts(p.queue, k, Held(p, k))
  {
    HandleErrAttempts(p.queue, key, failed, k);
  }

  lemma AnswerAttempts(p: Plugin, ok: bool, k: string)
    requires RetriesOk(p.queue) && (p.op.Syncing? || p.op.Creating? || p.op.Deleting?)
    requires p.op.Syncing? ==> p.work == Some(p.op.view.name)
    ensures RetriesOk(AfterSend(p, ok).queue)
    ensures var p' := AfterSend(p, ok);
            if p.op.Syncing? && p.op.view.name == k then Attempts(p'.queue, k, Held(p', k)) < Attempts(p.queue, k, Held(p, k))
            else Attempts(p'.queue, k, Held(p', k)) == Attempts(p.queue, k, Held(p, k))
  {
    if p.op.Syncing? {
      DoneAttempts(p.(op := Idle), p.op.view.name, !ok, k);
    }
  }

  // ---------- steps without a commit ----------

  /** A list of store m gives n work about k. */
  predicate ShowsTo(m: Store, k: string, n: string) {
    k in m && Assigned(m[k], n)
  }

  /** What a local step may add to n's share of k: an entry, if a list it is given shows k to it, and after a
      restart also what has happened since that list. */
  ghost function LocalCost(h: Hist, p: Plugin, st: PluginStep, k: string, n: string): nat {
    if |h.snaps| != |h.log| + 1 || p.seen >= |h.snaps| then 0
    else match st
      case Resync => if ShowsTo(h.snaps[p.seen], k, n) then 32 else 0
      case HearList(upto) => if p.told <= upto <= p.seen && ShowsTo(h.snaps[upto], k, n) then 32 else 0
      case Restart(at) =>
        if at >= |h.snaps| then 0
        else 32 * Unheard(h, at + 1, k, n) + if ShowsTo(h.snaps[at], k, n) then 32 else 0
      case _ => 0
  }

  ghost predicate PluginFit(h: Hist, p: Plugin) {
    |h.snaps| == |h.log| + 1 && p.told <= p.seen < |h.snaps| && RetriesOk(p.queue)
  }

  lemma {:induction false} UnheardShrinks(h: Hist, i: nat, j: nat, k: string, n: string)
    requires |h.snaps| == |h.log| + 1 && 0 < i <= j <= |h.snaps|
    ensures Unheard(h, j, k, n) <= Unheard(h, i, k, n)
    decreases j - i
  {
    if i < j {
      UnheardShrinks(h, i + 1, j, k, n);
    }
  }

  lemma HearShare(h: Hist, p: Plugin, n: string, k: string)
    requires PluginFit(h, p) && p.told < p.seen
    ensures PluginFit(h, Hearing(h, p, n)) && Share(h, Hearing(h, p, n), n, k) <= Share(h, p, n, k)
  {
    AddAttempts(p.queue, h.log[p.told].act.name, k, Held(p, k));
  }

  lemma AddAllAttempts(q: Queue, ks: set<string>, k: string, held: nat)
    requires RetriesOk(q)
    ensures RetriesOk(AddAll(q, ks))
    ensures Attempts(AddAll(q, ks), k, held) <= Attempts(q, k, held) + (if k in ks then 16 else 0)
  {
  }

  lemma ListShare(h: Hist, p: Plugin, n: string, k: string, upto: nat)
    requires PluginFit(h, p) && p.told <= upto <= p.seen
    ensures PluginFit(h, HearingList(h, p, n, upto))
    ensures Share(h, HearingList(h, p, n, upto), n, k) <= Share(h, p, n, k) + if ShowsTo(h.snaps[upto], k, n) then 32 else 0
  {
    AddAllAttempts(p.queue, FilteredKeys(h.snaps[upto], n), k, Held(p, k));
    UnheardShrinks(h, p.told + 1, upto + 1, k, n);
  }

  lemma BeginShare(h: Hist, p: Plugin, key: string, dirOk: bool, n: string, k: string)
    requires PluginFit(h, p) && p.work == Some(key)
    ensures PluginFit(h, BeginSync(h, p, key, dirOk)) && Share(h, BeginSync(h, p, key, dirOk), n, k) <= Share(h, p, n, k)
  {
    DoneAttempts(p, key, true, k);
    DoneAttempts(p, key, false, k);
  }

  lemma RestartShare(h: Hist, p: Plugin, n: string, k: string, at: nat)
    requires PluginFit(h, p) && at < |h.snaps|
    ensures var p' := Plugin(at, at, AddAll(NO_WORK, FilteredKeys(h.snaps[at], n)), None, Idle, p.dirs);
            && PluginFit(h, p')
            && Share(h, p', n, k) <= Share(h, p, n, k) + 32 * Unheard(h, at + 1, k, n) + if ShowsTo(h.snaps[at], k, n) then 32 else 0
  {
    assert Attempts(p.queue, k, Held(p, k)) >= 0;
  }

  /** Every local step, against the share of one object. */
  lemma LocalShare(s: Sys, n: string, st: PluginStep, k: string)
    requires n in s.plugins && !st.Send? && PluginFit(s.h, s.plugins[n])
    ensures var p, p' := s.plugins[n], PluginLocal(s, n, st);
            PluginFit(s.h, p') && Share(s.h, p', n, k) <= Share(s.h, p, n, k) + LocalCost(s.h, p, st, k, n)
  {
    var p := s.plugins[n];
    match st
    case SyncBegin(dirOk) =>
      if p.work.Some? {
        BeginShare(s.h, p, p.work.value, dirOk, n, k);
      }
    case Hear =>
      if p.told < p.seen {
        HearShare(s.h, p, n, k);
      }
    case HearList(upto) =>
      if p.told <= upto <= p.seen {
        ListShare(s.h, p, n, k, upto);
      }
    case Resync => AddAllAttempts(p.queue, FilteredKeys(s.h.snaps[p.seen], n), k, Held(p, k));
    case Restart(at) =>
      if at < |s.h.snaps| {
        RestartShare(s.h, p, n, k, at);
      }
    case _ =>
  }

  // ---------- steps with a commit ----------

  lemma {:induction false} UnheardExtends(h: Hist, c: Commit, i: nat, k: string, n: string)
    requires |h.snaps| == |h.log| + 1 && 0 < i <= |h.snaps|
    ensures Unheard(Extend(h, c), i, k, n) == Unheard(h, i, k, n) + (if Passing(Extend(h, c), |h.snaps|, k, n) then 1 else 0)
    decreases |h.snaps| - i
  {
    var h' := Extend(h, c);
    if i < |h.snaps| {
      UnheardExtends(h, c, i + 1, k, n);
      assert h'.snaps[i] == h.snaps[i] && h'.log[i - 1] == h.log[i - 1];
    } else {
      assert Unheard(h', i + 1, k, n) == 0;
    }
  }

  function Wrote(c: Commit, k: string): nat {
    if PhaseWrite(c.act, k) then 1 else 0
  }

  /** What an act does to the phase of k. */
  predicate PhaseEffect(c: Commit, k: string, o: LocalStorage, o': LocalStorage) {
    if c.act.name != k then o' == o
    else match c.act
      case VolumeAdded(_, _) => !Early(o') && o'.status.phase == o.status.phase
      case VolumeRemoved(_, _) => !Early(o') && o'.status.phase == o.status.phase
      case Initiated(_) => o.status.phase == Pending && o'.status.phase == Initiating
      case Terminated(_) => o.status.phase != Terminating && o'.status.phase == Terminating
      case MadeReady(_, _) => o'.status.phase == Ready
      case _ => c.who.User? && o'.status.phase == o.status.phase
  }

  lemma ActOnPhase(h: Hist, c: Commit, k: string)
    requires Valid(h) && Can(c, Cur(h)) && k in Cur(h) && k in Cur(Extend(h, c))
    ensures PhaseEffect(c, k, Cur(h)[k], Cur(Extend(h, c))[k])
  {
    HistorySound(h, |h.snaps| - 1);
    EffectOn(c, Cur(h), |h.snaps|, k);
  }

  /** What a commit adds in unannounced versions: only to the plugin of the object's node. */
  function Announced(c: Commit, k: string, o': LocalStorage, n: string): nat {
    if c.act.name == k && Assigned(o', n) then 32 else 0
  }

  lemma {:induction false} SharesExtend(h: Hist, c: Commit, ps: map<string, Plugin>, k: string)
    requires |h.snaps| == |h.log| + 1 && InHistory(h, ps) && k in Cur(Extend(h, c))
    ensures InHistory(Extend(h, c), ps)
    ensures var o' := Cur(Extend(h, c))[k];
            Shares(Extend(h, c), ps, ps.Keys, k) <= Shares(h, ps, ps.Keys, k) + Announced(c, k, o', o'.spec.node)
  {
    var h' := Extend(h, c);
    var n := Cur(h')[k].spec.node;
    forall a | a in ps
      ensures Share(h', ps[a], a, k) == Share(h, ps[a], a, k) + Announced(c, k, Cur(h')[k], a)
    {
      UnheardExtends(h, c, ps[a].told + 1, k, a);
    }
    if n in ps {
      SharesBut(h, ps, h', ps, k, n);
    } else {
      SharesSame(h, ps, h', ps, ps.Keys, k);
    }
  }

  /** What a commit adds in unannounced versions and takes from the phase. */
  lemma PhasePays(c: Commit, k: string, o: LocalStorage, o': LocalStorage)
    requires PhaseEffect(c, k, o, o')
    ensures var d := Announced(c, k, o', o'.spec.node) + PhasePart(o') - PhasePart(o);
            if c.act.name != k || c.act.VolumeAdded? || c.act.VolumeRemoved? then d == 0
            else match c.act
              case Initiated(_) => d <= -2
              case Terminated(_) => d <= -1
              case MadeReady(_, _) => d <= 1
              case _ => d <= 32
  {
  }

  /** Flights carry older versions, so none of them is a sync of what a commit has just written. */
  lemma NothingInAir(s: Sys, c: Commit, air: set<Flight>, k: string)
    requires Inv(s) && air <= s.air && Can(c, Cur(s.h)) && k in Cur(s.h) && k in Cur(Extend(s.h, c))
    ensures Danger(air, Cur(Extend(s.h, c))[k]) <= Danger(s.air, Cur(s.h)[k])
    ensures c.act.name == k ==> Danger(air, Cur(Extend(s.h, c))[k]) == 0
  {
    EffectOn(c, Cur(s.h), |s.h.snaps|, k);
    forall f | f in s.air && f.FromPlugin? && f.op.Syncing?
      ensures f.op.view.rv < |s.h.snaps|
    {
      assert FlightOk(s.h, s.used, f);
    }
  }

  /** A commit, with the plugins as they were: what is not paid is a Ready write, or a user's. */
  lemma CommitPays(s: Sys, c: Commit, air: set<Flight>, k: string)
    requires Inv(s) && InHistory(s.h, s.plugins) && air <= s.air && Can(c, Cur(s.h)) && k in Cur(s.h) && k in Cur(Extend(s.h, c))
    ensures var s' := s.(h := Extend(s.h, c), air := air);
            && At(s', k)
            && PotentialOf(s', k) + Wrote(c, k)
               <= PotentialOf(s, k)
                  + (if c.act.name != k then 0
                     else if c.who.User? then 32
                     else if c.act.MadeReady? then 2 - Danger(s.air, Cur(s.h)[k])
                     else 0)
  {
    ExtendValid(s.h, c);
    SharesExtend(s.h, c, s.plugins, k);
    ActOnPhase(s.h, c, k);
    PhasePays(c, k, Cur(s.h)[k], Cur(Extend(s.h, c))[k]);
    NothingInAir(s, c, air, k);
  }

  // ---------- every step ----------

  lemma FitPlugins(s: Sys)
    requires TermInv(s)
    ensures InHistory(s.h, s.plugins)
    ensures forall n :: n in s.plugins ==> PluginFit(s.h, s.plugins[n])
  {
    forall n | n in s.plugins
      ensures PluginFit(s.h, s.plugins[n])
    {
      assert PluginOk(s.h, s.used, n, s.plugins[n]);
    }
  }

  lemma StepKeepsTerm(s: Sys, step: Step)
    requires TermInv(s)
    ensures TermInv(Next(s, step))
  {
    StepKeepsInv(s, step);
    if step.ByPlugin? && step.node in s.plugins {
      PluginKeepsRetries(s, step.node, step.p);
    }
  }

  lemma PluginKeepsRetries(s: Sys, n: string, st: PluginStep)
    requires TermInv(s) && n in s.plugins
    ensures forall a :: a in Next(s, ByPlugin(n, st)).plugins ==> RetriesOk(Next(s, ByPlugin(n, st)).plugins[a].queue)
  {
    FitPlugins(s);
    if st.Send? {
      AnswerKeepsRetries(s, n);
    } else {
      LocalShare(s, n, st, "");
    }
  }

  lemma AnswerKeepsRetries(s: Sys, n: string)
    requires TermInv(s) && n in s.plugins
    ensures forall ok :: RetriesOk(AfterSend(s.plugins[n], ok).queue)
  {
    assert RetriesOk(s.plugins[n].queue);
  }

  /** What a step may add to the potential of k: new work by a user, by a list that shows k to a plugin, and by
      what a restarted plugin hears again. */
  ghost function StepCost(s: Sys, step: Step, k: string): nat {
    match step
    case ByUser(u) => if !u.Create? && u.key == k then 32 else 0
    case ByPlugin(n, st) => if n in s.plugins then LocalCost(s.h, s.plugins[n], st, k, n) else 0
    case _ => 0
  }

  /** The commits of one step that write k's phase. */
  function StepWrites(s: Sys, s': Sys, k: string): nat
    requires |s.h.log| <= |s'.h.log|
  {
    PhaseWrites(s'.h, k, |s.h.log|, |s'.h.log|)
  }

  lemma OneCommitWrites(h: Hist, c: Commit, k: string)
    requires |h.snaps| == |h.log| + 1
    ensures PhaseWrites(Extend(h, c), k, |h.log|, |Extend(h, c).log|) == Wrote(c, k)
    ensures PhaseWrites(h, k, |h.log|, |h.log|) == 0
  {
    assert PhaseWrites(Extend(h, c), k, |h.log|, |h.log|) == 0;
  }

  /** A plugin's share after its answer. */
  lemma AnswerShare(h: Hist, p: Plugin, ok: bool, n: string, k: string)
    requires PluginFit(h, p) && (p.op.Syncing? || p.op.Creating? || p.op.Deleting?)
    requires p.op.Syncing? ==> p.work == Some(p.op.view.name)
    ensures PluginFit(h, AfterSend(p, ok))
    ensures Share(h, AfterSend(p, ok), n, k) <= Share(h, p, n, k) - if p.op.Syncing? && p.op.view.name == k then 2 else 0
  {
    AnswerAttempts(p, ok, k);
  }

  /** What a send does: its answer changes the sender, and its request is committed, dropped or put in the air. */
  ghost predicate Sent(s: Sys, s': Sys, a: string, c: Commit, ok: bool)
    requires Valid(s.h) && a in s.plugins
  {
    && Request(a, s.plugins[a].op).Some? && c == Request(a, s.plugins[a].op).value.0
    && s'.plugins == s.plugins[a := AfterSend(s.plugins[a], ok)]
    && (if s'.air == s.air then AtMostOneCommit(s.h, s'.h, c) else s'.h == s.h && s'.air == s.air + {FromPlugin(a, s.plugins[a].op)})
  }

  lemma SendShape(s: Sys, a: string, d: Delivery) returns (c: Commit, ok: bool)
    requires Inv(s) && a in s.plugins && Request(a, s.plugins[a].op).Some?
    ensures Sent(s, PluginSend(s, a, d), a, c, ok)
  {
    var p := s.plugins[a];
    assert PluginOk(s.h, s.used, a, p);
    RequestIsAtomic(s.h, s.used, a, p.op);
    c := Request(a, p.op).value.0;
    var o := Request(a, p.op).value.1;
    ok := !d.NeverSent? && !d.InFlight? && d.Answered? && Accepted(Submit(s.h, c, o).1);
  }

  /** The sender's share, within the whole. */
  lemma SenderPays(s: Sys, a: string, ok: bool, k: string)
    requires TermInv(s) && a in s.plugins && Request(a, s.plugins[a].op).Some?
    ensures InHistory(s.h, s.plugins)
    ensures var ps' := s.plugins[a := AfterSend(s.plugins[a], ok)];
            && InHistory(s.h, ps')
            && Shares(s.h, ps', ps'.Keys, k)
               <= Shares(s.h, s.plugins, s.plugins.Keys, k) - (if s.plugins[a].op.Syncing? && s.plugins[a].op.view.name == k then 2 else 0)
  {
    FitPlugins(s);
    assert PluginOk(s.h, s.used, a, s.plugins[a]);
    AnswerShare(s.h, s.plugins[a], ok, a, k);
    SharesBut(s.h, s.plugins, s.h, s.plugins[a := AfterSend(s.plugins[a], ok)], k, a);
  }

  lemma LaunchPotential(s: Sys, s': Sys, a: string, c: Commit, ok: bool, k: string)
    requires TermInv(s) && a in s.plugins && At(s, k) && Sent(s, s', a, c, ok) && s'.h == s.h
    ensures At(s', k) && PotentialOf(s', k) <= PotentialOf(s, k)
  {
    SenderPays(s, a, ok, k);
    SnapshotVersion(s.h, |s.h.snaps| - 1, k);
  }

  lemma SendPotential(s: Sys, s': Sys, a: string, c: Commit, ok: bool, k: string)
    requires TermInv(s) && a in s.plugins && At(s, k) && Sent(s, s', a, c, ok) && k in Cur(s'.h)
    ensures At(s', k) && |s.h.log| <= |s'.h.log| && PotentialOf(s', k) + StepWrites(s, s', k) <= PotentialOf(s, k)
  {
    OneCommitWrites(s.h, c, k);
    if s'.h == s.h {
      LaunchPotential(s, s', a, c, ok, k);
    } else {
      CommittedPotential(s, s', a, c, ok, k);
    }
  }

  lemma CommittedPotential(s: Sys, s': Sys, a: string, c: Commit, ok: bool, k: string)
    requires TermInv(s) && a in s.plugins && At(s, k) && Sent(s, s', a, c, ok) && k in Cur(s'.h)
    requires s'.air == s.air && Can(c, Cur(s.h)) && s'.h == Extend(s.h, c)
    ensures At(s', k) && PotentialOf(s', k) + Wrote(c, k) <= PotentialOf(s, k)
  {
    assert PluginOk(s.h, s.used, a, s.plugins[a]);
    RequestIsAtomic(s.h, s.used, a, s.plugins[a].op);
    CommitPays(s, c, s.air, k);
    AnsweredShares(s, c, a, ok, k);
  }

  /** The sender's share after the commit. */
  lemma AnsweredShares(s: Sys, c: Commit, a: string, ok: bool, k: string)
    requires TermInv(s) && a in s.plugins && Request(a, s.plugins[a].op).Some?
    ensures InHistory(Extend(s.h, c), s.plugins)
    ensures var ps' := s.plugins[a := AfterSend(s.plugins[a], ok)];
            && InHistory(Extend(s.h, c), ps')
            && Shares(Extend(s.h, c), ps', ps'.Keys, k)
               <= Shares(Extend(s.h, c), s.plugins, s.plugins.Keys, k) - (if s.plugins[a].op.Syncing? && s.plugins[a].op.view.name == k then 2 else 0)
  {
    FitPlugins(s);
    assert PluginOk(s.h, s.used, a, s.plugins[a]);
    AnswerShare(Extend(s.h, c), s.plugins[a], ok, a, k);
    SharesBut(Extend(s.h, c), s.plugins, Extend(s.h, c), s.plugins[a := AfterSend(s.plugins[a], ok)], k, a);
  }

  /** A commit by a flight: if it is a sync of k, it was counted as a danger. */
  lemma LandPotential(s: Sys, f: Flight, k: string)
    requires TermInv(s) && At(s, k) && k in Cur(LandNext(s, f).h)
    ensures var s' := LandNext(s, f);
            At(s', k) && |s.h.log| <= |s'.h.log| && PotentialOf(s', k) + StepWrites(s, s', k) <= PotentialOf(s, k)
  {
    var s' := LandNext(s, f);
    if f in s.air {
      CarriedIsAtomic(s.h, s.used, f);
      var c := Carried(f).value.0;
      OneCommitWrites(s.h, c, k);
      if s'.h != s.h {
        if c.act.name == k && c.act.MadeReady? {
          assert f == FromPlugin(f.node, Syncing(Cur(s.h)[k]));
        }
        CommitPays(s, c, s'.air, k);
      }
    } else {
      assert StepWrites(s, s, k) == 0;
    }
  }

  /** A step of a user or the controller leaves the plugins alone and puts no sync in the air. */
  lemma OutsideShape(s: Sys, step: Step)
    requires Inv(s) && (step.ByUser? || step.ByController?)
    ensures Next(s, step).plugins == s.plugins
    ensures forall o :: SyncInAir(Next(s, step).air, o) <==> SyncInAir(s.air, o)
  {
  }

  lemma OutsideCommit(s: Sys, s': Sys, c: Commit, k: string)
    requires TermInv(s) && At(s, k) && AtMostOneCommit(s.h, s'.h, c) && !c.who.PluginOn? && s'.plugins == s.plugins
    requires k in Cur(s'.h) && forall o :: SyncInAir(s'.air, o) <==> SyncInAir(s.air, o)
    ensures At(s', k) && |s.h.log| <= |s'.h.log|
    ensures PotentialOf(s', k) + StepWrites(s, s', k)
            <= PotentialOf(s, k) + (if s'.h != s.h && c.who.User? && c.act.name == k then 32 else 0)
  {
    OneCommitWrites(s.h, c, k);
    if s'.h != s.h {
      CommitPays(s, c, s.air, k);
    }
  }

  lemma OutsidePotential(s: Sys, step: Step, k: string)
    requires TermInv(s) && At(s, k) && (step.ByUser? || step.ByController?) && k in Cur(Next(s, step).h)
    ensures var s' := Next(s, step);
            && At(s', k) && |s.h.log| <= |s'.h.log|
            && PotentialOf(s', k) + StepWrites(s, s', k) <= PotentialOf(s, k) + StepCost(s, step, k)
  {
    var c := StepIsAtomic(s, step);
    OutsideShape(s, step);
    if step.ByUser? && Next(s, step).h != s.h && c.act.name == k {
      UserCommitKey(s.h, step.u, c);
    }
    OutsideCommit(s, Next(s, step), c, k);
  }

  lemma UserCommitKey(h: Hist, u: UserStep, c: Commit)
    requires Valid(h) && UserNext(h, u) != h && Can(c, Cur(h)) && UserNext(h, u) == Extend(h, c)
    requires c.act.name in Cur(h)
    ensures !u.Create? && u.key == c.act.name
  {
    HistorySound(h, |h.snaps| - 1);
    assert UserNext(h, u).log[|h.log|] == c;
  }

  lemma LocalStepPotential(s: Sys, n: string, st: PluginStep, k: string)
    requires TermInv(s) && At(s, k) && !st.Send? && n in s.plugins
    ensures var s' := Next(s, ByPlugin(n, st));
            && At(s', k) && s'.h == s.h && s'.air == s.air
            && PotentialOf(s', k) <= PotentialOf(s, k) + StepCost(s, ByPlugin(n, st), k)
  {
    FitPlugins(s);
    LocalShare(s, n, st, k);
    SharesBut(s.h, s.plugins, s.h, s.plugins[n := PluginLocal(s, n, st)], k, n);
  }

  /** Every committed phase write of k uses up potential, by whoever it is made; only user edits, lists that
      show k to a plugin and restarts add any. */
  lemma StepPotential(s: Sys, step: Step, k: string)
    requires TermInv(s) && At(s, k) && k in Cur(Next(s, step).h)
    ensures var s' := Next(s, step);
            && At(s', k) && |s.h.log| <= |s'.h.log|
            && PotentialOf(s', k) + StepWrites(s, s', k) <= PotentialOf(s, k) + StepCost(s, step, k)
  {
    match step
    case ByPlugin(a, st) =>
      if a in s.plugins && st.Send? && Request(a, s.plugins[a].op).Some? {
        var c, ok := SendShape(s, a, st.delivery);
        SendPotential(s, Next(s, step), a, c, ok, k);
      } else {
        assert StepWrites(s, Next(s, step), k) == 0;
        if a in s.plugins && !st.Send? {
          LocalStepPotential(s, a, st, k);
        }
      }
    case Land(f) => LandPotential(s, f, k);
    case _ => OutsidePotential(s, step, k);
  }

  // ---------- runs ----------

  ghost predicate Grown(h: Hist, h': Hist) {
    h.snaps <= h'.snaps && h.log <= h'.log
  }

  lemma StepGrows(s: Sys, step: Step)
    requires Inv(s)
    ensures Grown(s.h, Next(s, step).h)
  {
    var c := StepIsAtomic(s, step);
  }

  lemma {:induction false} PhaseWritesGrown(h: Hist, h': Hist, k: string, i: nat, j: nat)
    requires Grown(h, h') && i <= j <= |h.log|
    ensures PhaseWrites(h', k, i, j) == PhaseWrites(h, k, i, j)
    decreases j
  {
    if i < j {
      PhaseWritesGrown(h, h', k, i, j - 1);
    }
  }

  lemma {:induction false} PhaseWritesSplit(h: Hist, k: string, i: nat, m: nat, j: nat)
    requires i <= m <= j <= |h.log|
    ensures PhaseWrites(h, k, i, j) == PhaseWrites(h, k, i, m) + PhaseWrites(h, k, m, j)
    decreases j
  {
    if m < j {
      PhaseWritesSplit(h, k, i, m, j - 1);
    }
  }

  /** An object seen before and now was there all the time, and has been the same one. */
  lemma {:induction false} PresentThroughout(h: Hist, i: nat, j: nat, k: string)
    requires Valid(h) && i <= j < |h.snaps| && k in h.snaps[i] && k in Cur(h) && h.snaps[i][k].uid == Cur(h)[k].uid
    ensures k in h.snaps[j] && h.snaps[j][k].uid == Cur(h)[k].uid
    decreases |h.snaps| - j
  {
    if i < j < |h.snaps| - 1 {
      PresentThroughout(h, i, j + 1, k);
      SameLife(h, i, j + 1, k);
    }
  }

  lemma {:induction false} RunGrows(s: Sys, steps: seq<Step>)
    requires TermInv(s)
    ensures TermInv(Run(s, steps)) && Grown(s.h, Run(s, steps).h)
  {
    if steps != [] {
      RunGrows(s, steps[..|steps| - 1]);
      StepKeepsTerm(Run(s, steps[..|steps| - 1]), steps[|steps| - 1]);
      StepGrows(Run(s, steps[..|steps| - 1]), steps[|steps| - 1]);
    }
  }

  /** What the steps of a run add to the potential of k. */
  ghost function RunCost(s: Sys, steps: seq<Step>, k: string): nat
    requires s.h.snaps != []
  {
    if steps == [] then 0
    else RunCost(s, steps[..|steps| - 1], k) + StepCost(Run(s, steps[..|steps| - 1]), steps[|steps| - 1], k)
  }

  /** k's object is in the store after the run too. */
  ghost predicate Stays(s: Sys, s': Sys, k: string)
    requires s.h.snaps != [] && s'.h.snaps != []
  {
    k in Cur(s.h) && k in Cur(s'.h) && Cur(s'.h)[k].uid == Cur(s.h)[k].uid
  }

  /** The phase writes since s, and the potential left, are paid for by the potential at s and the cost. */
  ghost predicate Paid(s: Sys, s': Sys, k: string, cost: nat)
    requires At(s, k)
  {
    && At(s', k) && Grown(s.h, s'.h)
    && PotentialOf(s', k) + PhaseWrites(s'.h, k, |s.h.log|, |s'.h.log|) <= PotentialOf(s, k) + cost
  }

  lemma PaidStep(s: Sys, s1: Sys, s': Sys, k: string, cost: nat, more: nat)
    requires At(s, k) && Paid(s, s1, k, cost) && At(s', k) && Grown(s1.h, s'.h)
    requires PotentialOf(s', k) + StepWrites(s1, s', k) <= PotentialOf(s1, k) + more
    ensures Paid(s, s', k, cost + more)
  {
    PhaseWritesGrown(s1.h, s'.h, k, |s.h.log|, |s1.h.log|);
    PhaseWritesSplit(s'.h, k, |s.h.log|, |s1.h.log|, |s'.h.log|);
  }

  lemma NextPaid(s: Sys, s1: Sys, step: Step, s': Sys, k: string, cost: nat)
    requires At(s, k) && TermInv(s1) && Paid(s, s1, k, cost) && s' == Next(s1, step) && k in Cur(s'.h)
    ensures Paid(s, s', k, cost + StepCost(s1, step, k))
  {
    StepGrows(s1, step);
    StepPotential(s1, step, k);
    PaidStep(s, s1, s', k, cost, StepCost(s1, step, k));
  }

  lemma StaysThroughout(h: Hist, h1: Hist, h': Hist, k: string)
    requires h.snaps != [] && Valid(h') && Grown(h, h1) && Grown(h1, h')
    requires k in Cur(h) && k in Cur(h') && Cur(h')[k].uid == Cur(h)[k].uid
    ensures k in Cur(h1) && Cur(h1)[k].uid == Cur(h)[k].uid
  {
    assert h'.snaps[|h.snaps| - 1] == Cur(h) && h'.snaps[|h1.snaps| - 1] == Cur(h1);
    PresentThroughout(h', |h.snaps| - 1, |h1.snaps| - 1, k);
  }

  /** The state before the last step of a run. */
  lemma BeforeLast(s: Sys, steps: seq<Step>, k: string)
    requires TermInv(s) && steps != [] && Stays(s, Run(s, steps), k)
    ensures TermInv(Run(s, steps[..|steps| - 1])) && Stays(s, Run(s, steps[..|steps| - 1]), k)
  {
    var s1 := Run(s, steps[..|steps| - 1]);
    RunGrows(s, steps);
    RunGrows(s, steps[..|steps| - 1]);
    StepGrows(s1, steps[|steps| - 1]);
    StaysThroughout(s.h, s1.h, Run(s, steps).h, k);
  }

  lemma {:induction false} RunPaid(s: Sys, steps: seq<Step>, k: string)
    requires TermInv(s) && At(s, k) && Stays(s, Run(s, steps), k)
    ensures Paid(s, Run(s, steps), k, RunCost(s, steps, k))
  {
    if steps == [] {
      assert PhaseWrites(s.h, k, |s.h.log|, |s.h.log|) == 0;
    } else {
      var before := steps[..|steps| - 1];
      BeforeLast(s, steps, k);
      RunPaid(s, before, k);
      NextPaid(s, Run(s, before), steps[|steps| - 1], Run(s, steps), k, RunCost(s, before, k));
    }
  }

  /** The reconcilers cannot fight for ever: over any run in which k's object stays, whatever its name was
      used for before, the phase writes committed to it are bounded by the potential at the start and the
      cost of user edits, of lists that show it to a plugin, and of restarts. */
  lemma {:induction false} PhaseWritesBounded(s: Sys, steps: seq<Step>, k: string)
    requires TermInv(s) && At(s, k) && Stays(s, Run(s, steps), k)
    ensures var s' := Run(s, steps);
            && |s.h.log| <= |s'.h.log|
            && PhaseWrites(s'.h, k, |s.h.log|, |s'.h.log|) <= PotentialOf(s, k) + RunCost(s, steps, k)
  {
    RunPaid(s, steps, k);
    RunGrows(s, steps);
    var s' := Run(s, steps);
    SharesNonNegative(s'.h, s'.plugins, s'.plugins.Keys, k);
  }

  // ---------- exactly when an object leaves Terminating ----------

  /** The step delivers a sync of the current version. */
  ghost predicate DeliversSync(s: Sys, step: Step, k: string)
    requires s.h.snaps != [] && k in Cur(s.h)
  {
    match step
    case ByPlugin(a, st) =>
      && a in s.plugins && st.Send? && !st.delivery.NeverSent? && !st.delivery.InFlight?
      && s.plugins[a].op == Syncing(Cur(s.h)[k])
    case Land(f) => f in s.air && f.FromPlugin? && f.op == Syncing(Cur(s.h)[k])
    case _ => false
  }

  /** No commit but a Ready write changes the phase. */
  lemma CommitKeepsTerminating(h: Hist, c: Commit, k: string)
    requires Valid(h) && Can(c, Cur(h)) && k in Cur(h) && k in Cur(Extend(h, c)) && Cur(h)[k].status.phase == Terminating
    ensures Cur(Extend(h, c))[k].status.phase != Terminating <==> c.act.MadeReady? && c.act.name == k
  {
    ActOnPhase(h, c, k);
  }

  lemma SyncMakesReadyIff(h: Hist, used: set<string>, n: string, op: Op, k: string)
    requires Valid(h) && OpOk(h, used, n, op) && Request(n, op).Some? && k in Cur(h) && Cur(h)[k].status.phase == Terminating
    requires var (c, o) := Request(n, op).value; k in Cur(Submit(h, c, o).0)
    ensures var (c, o) := Request(n, op).value; Cur(Submit(h, c, o).0)[k].status.phase != Terminating <==> op == Syncing(Cur(h)[k])
  {
    var (c, o) := Request(n, op).value;
    RequestIsAtomic(h, used, n, op);
    SnapshotVersion(h, |h.snaps| - 1, k);
    if op == Syncing(Cur(h)[k]) {
      VersionSound(h, op.view);
      Admission.StatusWritePasses(op.view, o);
    }
    if Submit(h, c, o).0 != h {
      CommitKeepsTerminating(h, c, k);
    }
  }

  lemma OutsideKeepsTerminating(s: Sys, step: Step, k: string)
    requires Inv(s) && StepWriter(step) in {User, Manager} && k in Cur(s.h) && Cur(s.h)[k].status.phase == Terminating
    requires k in Cur(Next(s, step).h)
    ensures Cur(Next(s, step).h)[k].status.phase == Terminating
  {
    var c := StepIsAtomic(s, step);
    if Next(s, step).h != s.h {
      CommitKeepsTerminating(s.h, c, k);
    }
  }

  /** In every reachable state, a Terminating object that stays in the store leaves its phase exactly if a
      sync of its current version is delivered, then or late: sync does not look at the deletion mark. */
  lemma LeavesTerminatingIff(s: Sys, step: Step, k: string)
    requires Inv(s) && k in Cur(s.h) && Cur(s.h)[k].status.phase == Terminating && k in Cur(Next(s, step).h)
    ensures Cur(Next(s, step).h)[k].status.phase != Terminating <==> DeliversSync(s, step, k)
  {
    match step
    case ByPlugin(a, st) =>
      if a in s.plugins && st.Send? && Request(a, s.plugins[a].op).Some? {
        assert PluginOk(s.h, s.used, a, s.plugins[a]);
        if !st.delivery.NeverSent? && !st.delivery.InFlight? {
          SyncMakesReadyIff(s.h, s.used, a, s.plugins[a].op, k);
        }
      } else if a in s.plugins {
        assert PluginOk(s.h, s.used, a, s.plugins[a]);
      }
    case Land(f) =>
      if f in s.air {
        assert FlightOk(s.h, s.used, f);
        if f.FromPlugin? {
          SyncMakesReadyIff(s.h, s.used, f.node, f.op, k);
        } else {
          OutsideKeepsTerminating(s, step, k);
        }
      }
    case _ => OutsideKeepsTerminating(s, step, k);
  }

  // ---------- termination is absorbing ----------

  /** From revision i on, k is no version that n's filter lets through. */
  ghost predicate NeverListed(h: Hist, i: nat, k: string, n: string) {
    forall j :: i <= j < |h.snaps| ==> !ShowsTo(h.snaps[j], k, n)
  }

  /** Plugin n has no entry for k, does not work on it, and will hear of no version that it would queue. */
  ghost predicate Deaf(h: Hist, p: Plugin, n: string, k: string) {
    !Queued(p.queue, k) && p.work != Some(k) && NeverListed(h, p.told, k, n)
  }

  ghost predicate NoSyncInAir(air: set<Flight>, k: string) {
    forall f :: f in air && f.FromPlugin? && f.op.Syncing? ==> f.op.view.name != k
  }

  /** k is Terminating, all plugins have caught up with that, and no sync of it is in flight. */
  ghost predicate Absorbed(s: Sys, k: string) {
    && s.h.snaps != [] && k in Cur(s.h) && Cur(s.h)[k].status.phase == Terminating
    && (forall n :: n in s.plugins ==> Deaf(s.h, s.plugins[n], n, k))
    && NoSyncInAir(s.air, k)
  }

  /** A plugin restarts from a list that shows k to it, or is followed by such a version. */
  ghost predicate StaleRestart(s: Sys, step: Step, k: string) {
    && step.ByPlugin? && step.node in s.plugins && step.p.Restart? && step.p.at < |s.h.snaps|
    && !NeverListed(s.h, step.p.at, k, step.node)
  }

  lemma LocalDeafIff(s: Sys, n: string, st: PluginStep, k: string)
    requires Inv(s) && n in s.plugins && Deaf(s.h, s.plugins[n], n, k) && !st.Send?
    ensures Deaf(s.h, PluginLocal(s, n, st), n, k) <==> !StaleRestart(s, ByPlugin(n, st), k)
  {
    var p := s.plugins[n];
    assert PluginOk(s.h, s.used, n, p);
    if p.told < p.seen {
      assert !ShowsTo(s.h.snaps[p.told + 1], k, n);
    }
    assert forall j :: p.told <= j < |s.h.snaps| ==> k !in FilteredKeys(s.h.snaps[j], n);
  }

  /** A version that is past initialisation is listed to nobody. */
  lemma DeafExtends(h: Hist, c: Commit, p: Plugin, n: string, k: string)
    requires h.snaps != [] && Deaf(h, p, n, k) && k in Cur(Extend(h, c)) && Cur(Extend(h, c))[k].status.phase == Terminating
    ensures Deaf(Extend(h, c), p, n, k)
  {
    var h' := Extend(h, c);
    forall j | p.told <= j < |h'.snaps|
      ensures !ShowsTo(h'.snaps[j], k, n)
    {
      if j < |h.snaps| {
        assert h'.snaps[j] == h.snaps[j];
      }
    }
  }

  lemma AllDeafExtend(s: Sys, c: Commit, k: string)
    requires Absorbed(s, k) && k in Cur(Extend(s.h, c)) && Cur(Extend(s.h, c))[k].status.phase == Terminating
    ensures forall n :: n in s.plugins ==> Deaf(Extend(s.h, c), s.plugins[n], n, k)
  {
    forall n | n in s.plugins
      ensures Deaf(Extend(s.h, c), s.plugins[n], n, k)
    {
      DeafExtends(s.h, c, s.plugins[n], n, k);
    }
  }

  /** A step that commits delivers no sync of k, so k stays Terminating and the plugins deaf. */
  lemma CommitKeepsAbsorbed(s: Sys, step: Step, k: string)
    requires Inv(s) && Absorbed(s, k) && k in Cur(Next(s, step).h) && Next(s, step).h != s.h
    ensures Cur(Next(s, step).h)[k].status.phase == Terminating
    ensures forall n :: n in s.plugins ==> Deaf(Next(s, step).h, s.plugins[n], n, k)
  {
    NothingDelivered(s, step, k);
    LeavesTerminatingIff(s, step, k);
    var c := StepIsAtomic(s, step);
    AllDeafExtend(s, c, k);
  }

  lemma NothingDelivered(s: Sys, step: Step, k: string)
    requires Inv(s) && Absorbed(s, k)
    ensures !DeliversSync(s, step, k)
  {
    SnapshotVersion(s.h, |s.h.snaps| - 1, k);
    if step.ByPlugin? && step.node in s.plugins {
      assert PluginOk(s.h, s.used, step.node, s.plugins[step.node]) && Deaf(s.h, s.plugins[step.node], step.node, k);
    }
  }

  lemma AnswerKeepsDeaf(h: Hist, p: Plugin, ok: bool, n: string, k: string)
    requires Deaf(h, p, n, k) && (p.op.Syncing? ==> p.op.view.name != k)
    ensures Deaf(h, AfterSend(p, ok), n, k)
  {
  }

  lemma SendKeepsAbsorbed(s: Sys, a: string, d: Delivery, k: string)
    requires Inv(s) && Absorbed(s, k) && a in s.plugins && k in Cur(PluginSend(s, a, d).h)
    ensures Absorbed(PluginSend(s, a, d), k)
  {
    var s' := PluginSend(s, a, d);
    var p := s.plugins[a];
    assert PluginOk(s.h, s.used, a, p) && Deaf(s.h, p, a, k);
    if Request(a, p.op).Some? {
      var c, ok := SendShape(s, a, d);
      if s'.h != s.h {
        CommitKeepsAbsorbed(s, ByPlugin(a, Send(d)), k);
      }
      AnswerKeepsDeaf(s'.h, p, ok, a, k);
    }
  }

  lemma LocalKeepsAbsorbedIff(s: Sys, n: string, st: PluginStep, k: string)
    requires Inv(s) && Absorbed(s, k) && n in s.plugins && !st.Send?
    ensures Absorbed(Next(s, ByPlugin(n, st)), k) <==> !StaleRestart(s, ByPlugin(n, st), k)
  {
    LocalDeafIff(s, n, st, k);
    var s' := Next(s, ByPlugin(n, st));
    assert s'.plugins[n] == PluginLocal(s, n, st);
  }

  lemma OutsideKeepsAbsorbed(s: Sys, step: Step, k: string)
    requires Inv(s) && Absorbed(s, k) && !step.ByPlugin? && k in Cur(Next(s, step).h)
    ensures Absorbed(Next(s, step), k)
  {
    if Next(s, step).h != s.h {
      CommitKeepsAbsorbed(s, step, k);
    }
  }

  /** That state is left exactly by a restart from an old list. */
  lemma StepKeepsAbsorbedIff(s: Sys, step: Step, k: string)
    requires Inv(s) && Absorbed(s, k) && k in Cur(Next(s, step).h)
    ensures Absorbed(Next(s, step), k) <==> !StaleRestart(s, step, k)
  {
    if step.ByPlugin? {
      if step.node in s.plugins {
        if step.p.Send? {
          SendKeepsAbsorbed(s, step.node, step.p.delivery, k);
        } else {
          LocalKeepsAbsorbedIff(s, step.node, step.p, k);
        }
      }
    } else {
      OutsideKeepsAbsorbed(s, step, k);
    }
  }

  ghost predicate NoStaleRestart(s: Sys, steps: seq<Step>, k: string)
    requires s.h.snaps != []
  {
    steps == [] ||
    (NoStaleRestart(s, steps[..|steps| - 1], k) && !StaleRestart(Run(s, steps[..|steps| - 1]), steps[|steps| - 1], k))
  }

  lemma {:induction false} RunKeepsAbsorbed(s: Sys, steps: seq<Step>, k: string)
    requires TermInv(s) && Absorbed(s, k) && NoStaleRestart(s, steps, k) && Stays(s, Run(s, steps), k)
    ensures Absorbed(Run(s, steps), k)
  {
    if steps != [] {
      var before, step := steps[..|steps| - 1], steps[|steps| - 1];
      BeforeLast(s, steps, k);
      RunKeepsAbsorbed(s, before, k);
      StepKeepsAbsorbedIff(Run(s, before), step, k);
    }
  }

  /** Once all plugins have caught up with a Terminating object, no run brings it back: as long as the
      object exists it stays Terminating, whatever its name was used for before. */
  lemma {:induction false} TerminationIsAbsorbing(s: Sys, steps: seq<Step>, k: string)
    requires TermInv(s) && Absorbed(s, k) && Stays(s, Run(s, steps), k)
    ensures NoStaleRestart(s, steps, k) ==> Cur(Run(s, steps).h)[k].status.phase == Terminating
  {
    if NoStaleRestart(s, steps, k) {
      RunKeepsAbsorbed(s, steps, k);
    }
  }
}
