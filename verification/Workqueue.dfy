/** The rate-limited work queue of client-go as the two worker loops use it. */
module Workqueue {

  const MAX_RETRIES: nat := 15

  /** active: keys a worker can get now; delayed: keys whose rate-limited entry has yet to fire, which an
      active entry does not replace; requeues: rate-limited adds since the last Forget; dropped: keys
      whose last attempt was given up and that nothing has added since. */
  datatype Queue = Queue(active: set<string>, delayed: set<string>, requeues: map<string, nat>, dropped: set<string>)

  const NO_WORK := Queue({}, {}, map[], {})

  function NumRequeues(q: Queue, k: string): nat {
    if k in q.requeues then q.requeues[k] else 0
  }

  function Add(q: Queue, k: string): Queue {
    q.(active := q.active + {k}, dropped := q.dropped - {k})
  }

  function AddAll(q: Queue, ks: set<string>): Queue {
    q.(active := q.active + ks, dropped := q.dropped - ks)
  }

  /** Get, which leaves a delayed entry of the same key where it is. */
  function Take(q: Queue, k: string): Queue {
    q.(active := q.active - {k}, dropped := q.dropped - {k})
  }

  /** The delay of k is over: its entry becomes an ordinary one, or joins the one that is there. */
  function Fire(q: Queue, k: string): Queue {
    if k in q.delayed then Add(q.(delayed := q.delayed - {k}), k) else q
  }

  function AddRateLimited(q: Queue, k: string): Queue {
    q.(delayed := q.delayed + {k}, dropped := q.dropped - {k}, requeues := q.requeues[k := NumRequeues(q, k) + 1])
  }

  function Forget(q: Queue, k: string): Queue {
    q.(requeues := q.requeues - {k})
  }

  function HandleErr(q: Queue, k: string, failed: bool): Queue {
    if !failed then Forget(q, k)
    else if NumRequeues(q, k) < MAX_RETRIES then AddRateLimited(q, k)
    else Forget(q.(dropped := q.dropped + {k}), k)
  }

  predicate Queued(q: Queue, k: string) {
    k in q.active || k in q.delayed
  }

  function Entries(q: Queue, k: string): nat {
    (if k in q.active then 1 else 0) + (if k in q.delayed then 1 else 0)
  }

  /** The attempts that k can still get out of its entries, of which held are in a worker's hands: the first
      has the retries that are left, every further one may start from a reset counter. */
  function Attempts(q: Queue, k: string, held: nat): int {
    var entries := Entries(q, k) + held;
    if entries == 0 then 0 else 16 - NumRequeues(q, k) + 16 * (entries - 1)
  }

  ghost predicate RetriesOk(q: Queue) {
    forall k :: k in q.requeues ==> q.requeues[k] <= MAX_RETRIES
  }

  /** One round for a key that always fails: an active entry is processed, or a delay ends. If both can
      happen, processFirst says which does. */
  function FailingRound(q: Queue, k: string, processFirst: bool): Queue {
    if k in q.active && (processFirst || k !in q.delayed) then HandleErr(Take(q, k), k, true) else Fire(q, k)
  }

  /** How often k is processed from now on when every attempt fails and no event adds it again; order
      decides, for every round, what comes first. */
  function FailingAttempts(q: Queue, k: string, order: nat -> bool, round: nat): nat
    requires NumRequeues(q, k) <= MAX_RETRIES
    decreases Attempts(q, k, 0), if k in q.delayed then 1 else 0
  {
    if !Queued(q, k) then 0
    else
      (if k in q.active && (order(round) || k !in q.delayed) then 1 else 0)
      + FailingAttempts(FailingRound(q, k, order(round)), k, order, round + 1)
  }

  function AfterFailing(q: Queue, k: string, order: nat -> bool, round: nat): Queue
    requires NumRequeues(q, k) <= MAX_RETRIES
    decreases Attempts(q, k, 0), if k in q.delayed then 1 else 0
  {
    if !Queued(q, k) then q else AfterFailing(FailingRound(q, k, order(round)), k, order, round + 1)
  }

  /** A key that always fails is tried once more than the retries it has left, then dropped with its
      counter reset; no other key notices. From a reset counter that is exactly 16 attempts, in whatever
      order delays end and entries are processed. Only when the last retry is given up while a delayed entry
      is still waiting does that one start over. */
  lemma {:induction false} BoundedRetry(q: Queue, k: string, order: nat -> bool, round: nat)
    requires Queued(q, k) && NumRequeues(q, k) <= MAX_RETRIES
    ensures var over := if Entries(q, k) == 2 && NumRequeues(q, k) == MAX_RETRIES && order(round) then MAX_RETRIES + 1 else 0;
            FailingAttempts(q, k, order, round) == MAX_RETRIES + 1 - NumRequeues(q, k) + over
    ensures var q' := AfterFailing(q, k, order, round);
            && !Queued(q', k) && NumRequeues(q', k) == 0 && k in q'.dropped
            && q'.active == q.active - {k} && q'.delayed == q.delayed - {k}
            && forall j :: j != k ==> NumRequeues(q', j) == NumRequeues(q, j) && (j in q'.dropped <==> j in q.dropped)
    decreases Attempts(q, k, 0), if k in q.delayed then 1 else 0
  {
    var next := FailingRound(q, k, order(round));
    if Queued(next, k) {
      BoundedRetry(next, k, order, round + 1);
    } else {
      assert FailingAttempts(next, k, order, round + 1) == 0 && AfterFailing(next, k, order, round + 1) == next;
    }
  }

  // ---------- successes and failures mixed ----------

  /** k is processed once for every outcome, true standing for an error; a delay ends before the next attempt. */
  function Processed(q: Queue, k: string, outcomes: seq<bool>): Queue {
    if outcomes == [] then q
    else HandleErr(Take(Fire(Processed(q, k, outcomes[..|outcomes| - 1]), k), k), k, outcomes[|outcomes| - 1])
  }

  /** The length of the run of failures at the end. */
  function Streak(outcomes: seq<bool>): nat {
    if outcomes == [] || !outcomes[|outcomes| - 1] then 0 else 1 + Streak(outcomes[..|outcomes| - 1])
  }

  /** From a reset counter, over every sequence of outcomes: the counter is the number of failures since the
      last success or drop; the key is given up exactly on every 16th failure in a row, waits for a retry
      exactly after any other failure, and after a success is neither; other keys do not notice. */
  lemma {:induction false} CounterIsStreak(q: Queue, k: string, outcomes: seq<bool>)
    requires NumRequeues(q, k) == 0 && k !in q.delayed && outcomes != []
    ensures var q', streak := Processed(q, k, outcomes), Streak(outcomes);
            && NumRequeues(q', k) == streak % 16
            && k !in q'.active
            && (k in q'.dropped <==> streak > 0 && streak % 16 == 0)
            && (k in q'.delayed <==> streak % 16 != 0)
            && forall j :: j != k ==>
                 NumRequeues(q', j) == NumRequeues(q, j) && (j in q'.dropped <==> j in q.dropped)
                 && (j in q'.active <==> j in q.active) && (j in q'.delayed <==> j in q.delayed)
    decreases |outcomes|
  {
    var front := outcomes[..|outcomes| - 1];
    if front != [] {
      CounterIsStreak(q, k, front);
    }
  }
}
