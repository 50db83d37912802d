/** The scheduler extender: Filter and Score over one snapshot of the lister. */
module Scheduler {
  import opened Types
  import opened Ledger
  import opened Accounting
  import opened Protocol
  import opened Nodes

  // ---------- the claim of a pod ----------

  datatype PodVolume = PodVolume(claim: Option<string>)

  datatype Claim = Claim(name: string, storageClass: Option<string>, request: Option<int>)

  datatype Lookup = LookupFailed | NotUsed | Found(claim: Claim)

  const DRIVER := "localstorage.csi.caoyingjunz.io"

  /** The first claim of our driver; a claim or class that cannot be read ends the search. */
  function FindClaim(vs: seq<PodVolume>, claims: map<string, Claim>, provisioners: map<string, string>): Lookup {
    if vs == [] then NotUsed
    else if vs[0].claim.None? then FindClaim(vs[1..], claims, provisioners)
    else if vs[0].claim.value !in claims then LookupFailed
    else
      var c := claims[vs[0].claim.value];
      if c.storageClass.None? || c.storageClass.value == "" then FindClaim(vs[1..], claims, provisioners)
      else if c.storageClass.value !in provisioners then LookupFailed
      else if provisioners[c.storageClass.value] == DRIVER then Found(c)
      else FindClaim(vs[1..], claims, provisioners)
  }

  /** The volume names a readable claim whose class is provisioned by this driver. */
  predicate Ours(v: PodVolume, claims: map<string, Claim>, provisioners: map<string, string>) {
    && v.claim.Some? && v.claim.value in claims
    && var c := claims[v.claim.value];
       c.storageClass.Some? && c.storageClass.value != "" && c.storageClass.value in provisioners && provisioners[c.storageClass.value] == DRIVER
  }

  /** The volume names a claim that cannot be read, or whose class cannot. */
  predicate Fails(v: PodVolume, claims: map<string, Claim>, provisioners: map<string, string>) {
    && v.claim.Some?
    && (v.claim.value !in claims
        || (var c := claims[v.claim.value];
            c.storageClass.Some? && c.storageClass.value != "" && c.storageClass.value !in provisioners))
  }

  /** The i-th volume is the first that is ours or fails. */
  predicate Decides(vs: seq<PodVolume>, i: nat, claims: map<string, Claim>, provisioners: map<string, string>) {
    && i < |vs| && (Ours(vs[i], claims, provisioners) || Fails(vs[i], claims, provisioners))
    && forall j :: 0 <= j < i ==> !Ours(vs[j], claims, provisioners) && !Fails(vs[j], claims, provisioners)
  }

  /** Some claim cannot be read before any volume is ours. */
  ghost predicate LookupFails(vs: seq<PodVolume>, claims: map<string, Claim>, provisioners: map<string, string>) {
    exists i: nat :: Decides(vs, i, claims, provisioners) && Fails(vs[i], claims, provisioners)
  }

  /** c is the claim of the first volume that is ours, and every claim before it can be read. */
  ghost predicate IsFirstClaim(c: Claim, vs: seq<PodVolume>, claims: map<string, Claim>, provisioners: map<string, string>) {
    exists i: nat :: Decides(vs, i, claims, provisioners) && Ours(vs[i], claims, provisioners) && claims[vs[i].claim.value] == c
  }

  /** Every claim can be read and none is ours. */
  ghost predicate Unused(vs: seq<PodVolume>, claims: map<string, Claim>, provisioners: map<string, string>) {
    forall i :: 0 <= i < |vs| ==> !Ours(vs[i], claims, provisioners) && !Fails(vs[i], claims, provisioners)
  }

  lemma DecidesTail(vs: seq<PodVolume>, i: nat, claims: map<string, Claim>, provisioners: map<string, string>)
    requires vs != []
    ensures !Ours(vs[0], claims, provisioners) && !Fails(vs[0], claims, provisioners) ==>
              (Decides(vs, i + 1, claims, provisioners) <==> Decides(vs[1..], i, claims, provisioners))
  {
    var rest := vs[1..];
    assert forall j :: 0 <= j < |rest| ==> rest[j] == vs[j + 1];
    if Decides(rest, i, claims, provisioners) && !Ours(vs[0], claims, provisioners) && !Fails(vs[0], claims, provisioners) {
      forall j | 0 <= j < i + 1
        ensures !Ours(vs[j], claims, provisioners) && !Fails(vs[j], claims, provisioners)
      {
        if j > 0 {
          assert vs[j] == rest[j - 1];
        }
      }
    }
  }

  /** Where the search ends. */
  lemma {:induction false} SearchEnds(vs: seq<PodVolume>, claims: map<string, Claim>, provisioners: map<string, string>) returns (i: nat)
    ensures FindClaim(vs, claims, provisioners).NotUsed? ==> Unused(vs, claims, provisioners)
    ensures !FindClaim(vs, claims, provisioners).NotUsed? ==> Decides(vs, i, claims, provisioners)
    ensures FindClaim(vs, claims, provisioners).LookupFailed? ==> Fails(vs[i], claims, provisioners)
    ensures FindClaim(vs, claims, provisioners).Found? ==>
              Ours(vs[i], claims, provisioners) && claims[vs[i].claim.value] == FindClaim(vs, claims, provisioners).claim
  {
    i := 0;
    if vs != [] && !Ours(vs[0], claims, provisioners) && !Fails(vs[0], claims, provisioners) {
      var t := SearchEnds(vs[1..], claims, provisioners);
      DecidesTail(vs, t, claims, provisioners);
      i := t + 1;
      assert forall j :: 0 < j < |vs| ==> vs[j] == vs[1..][j - 1];
    }
  }

  /** All three answers, exactly: the first volume that is ours or fails decides. */
  lemma FindClaimFindsFirst(vs: seq<PodVolume>, claims: map<string, Claim>, provisioners: map<string, string>)
    ensures FindClaim(vs, claims, provisioners).LookupFailed? <==> LookupFails(vs, claims, provisioners)
    ensures FindClaim(vs, claims, provisioners).NotUsed? <==> Unused(vs, claims, provisioners)
    ensures forall c :: FindClaim(vs, claims, provisioners) == Found(c) <==> IsFirstClaim(c, vs, claims, provisioners)
  {
    var i := SearchEnds(vs, claims, provisioners);
    forall j: nat | Decides(vs, j, claims, provisioners) && Decides(vs, i, claims, provisioners)
      ensures j == i
    {
      DecidesOnce(vs, i, j, claims, provisioners);
    }
  }

  lemma DecidesOnce(vs: seq<PodVolume>, i: nat, j: nat, claims: map<string, Claim>, provisioners: map<string, string>)
    requires Decides(vs, i, claims, provisioners) && Decides(vs, j, claims, provisioners)
    ensures i == j && !(Ours(vs[i], claims, provisioners) && Fails(vs[i], claims, provisioners))
  {
  }

  // ---------- Filter ----------

  datatype Why = NoLocalStorage | NotReady | TooSmall

  datatype FilterResult = FilterError | Ignored(names: seq<string>) | Filtered(fit: seq<string>, failed: map<string, Why>)

  /** Why a node cannot take the request, or None if it can. */
  function WhyNot(list: seq<LocalStorage>, request: int, name: string): Option<Why> {
    match LastBound(list, name)
    case None => Some(NoLocalStorage)
    case Some(o) => if o.status.phase != Ready then Some(NotReady) else if !Fits(o, request) then Some(TooSmall) else None
  }

  function Fitting(list: seq<LocalStorage>, request: int, names: seq<string>): seq<string> {
    if names == [] then []
    else
      var rest := Fitting(list, request, names[..|names| - 1]);
      if WhyNot(list, request, names[|names| - 1]).None? then rest + [names[|names| - 1]] else rest
  }

  /** Filter dereferences Allocatable of every Ready object. */
  predicate Dereferenceable(list: seq<LocalStorage>) {
    forall i :: 0 <= i < |list| && list[i].status.phase == Ready ==> list[i].status.allocatable.Some? && list[i].status.capacity.Some?
  }

  /** failed gives the reason of exactly those names that cannot take the request. */
  ghost predicate IsFailures(failed: map<string, Why>, list: seq<LocalStorage>, request: int, names: seq<string>) {
    && (forall n :: n in failed <==> n in names && WhyNot(list, request, n).Some?)
    && (forall n :: n in failed ==> WhyNot(list, request, n) == Some(failed[n]))
  }

  /** The test of one node, on the map that both extender calls use. */
  method TestNode(m: map<string, LocalStorage>, ghost list: seq<LocalStorage>, request: int, name: string) returns (why: Option<Why>)
    requires IsNodeMap(m, list) && Dereferenceable(list)
    ensures why == WhyNot(list, request, name)
  {
    LastBoundFinds(list, name);
    if name !in m {
      why := Some(NoLocalStorage);
    } else if m[name].status.phase != Ready {
      why := Some(NotReady);
    } else {
      var size := m[name].status.allocatable.value;
      why := if request > size then Some(TooSmall) else None;
    }
  }

  lemma FailuresStep(failed: map<string, Why>, list: seq<LocalStorage>, request: int, names: seq<string>, i: nat)
    requires i < |names| && IsFailures(failed, list, request, names[..i])
    ensures var why := WhyNot(list, request, names[i]);
            IsFailures(if why.Some? then failed[names[i] := why.value] else failed, list, request, names[..i + 1])
  {
    assert forall n :: n in names[..i + 1] <==> n == names[i] || n in names[..i];
  }

  method FilterNodes(list: seq<LocalStorage>, request: int, names: seq<string>) returns (fit: seq<string>, failed: map<string, Why>)
    requires Dereferenceable(list)
    ensures fit == Fitting(list, request, names)
    ensures IsFailures(failed, list, request, names)
  {
    var m := GetLocalStorageMap(list);
    fit, failed := [], map[];
    for i := 0 to |names|
      invariant fit == Fitting(list, request, names[..i])
      invariant IsFailures(failed, list, request, names[..i])
    {
      assert names[..i + 1][..i] == names[..i];
      FailuresStep(failed, list, request, names, i);
      var why := TestNode(m, list, request, names[i]);
      if why.Some? {
        failed := failed[names[i] := why.value];
      } else {
        fit := fit + [names[i]];
      }
    }
    assert names[..|names|] == names;
  }

  method Filter(pod: Option<seq<PodVolume>>, claims: map<string, Claim>, provisioners: map<string, string>,
                list: seq<LocalStorage>, names: seq<string>) returns (r: FilterResult)
    requires Dereferenceable(list)
    ensures r.FilterError? <==>
            || pod.None? || LookupFails(pod.value, claims, provisioners)
            || exists c :: IsFirstClaim(c, pod.value, claims, provisioners) && c.request.None?
    ensures r.Ignored? <==> pod.Some? && Unused(pod.value, claims, provisioners)
    ensures r.Ignored? ==> r.names == names
    ensures r.Filtered? ==>
              exists c :: IsFirstClaim(c, pod.value, claims, provisioners) && c.request.Some?
                          && r.fit == Fitting(list, c.request.value, names) && IsFailures(r.failed, list, c.request.value, names)
  {
    if pod.None? {
      return FilterError;
    }
    FindClaimFindsFirst(pod.value, claims, provisioners);
    var found := FindClaim(pod.value, claims, provisioners);
    if found.LookupFailed? {
      return FilterError;
    }
    if found.NotUsed? {
      return Ignored(names);
    }
    if found.claim.request.None? {
      return FilterError;
    }
    var fit, failed := FilterNodes(list, found.claim.request.value, names);
    r := Filtered(fit, failed);
  }

  /** Which nodes a request fits, also one for all that is left, and which reason the others get. */
  lemma WhyNotSays(list: seq<LocalStorage>, request: int, name: string)
    ensures WhyNot(list, request, name) == Some(NoLocalStorage) <==> forall o :: o in list ==> o.spec.node != name
    ensures LastBound(list, name).Some? ==>
              var st := LastBound(list, name).value.status;
              && (WhyNot(list, request, name) == Some(NotReady) <==> st.phase != Ready)
              && (st.phase == Ready && st.allocatable.Some? ==>
                    && (WhyNot(list, request, name) == Some(TooSmall) <==> st.allocatable.value < request)
                    && (WhyNot(list, request, name) == None <==> request <= st.allocatable.value))
  {
    LastBoundFinds(list, name);
  }

  /** Filter splits the names: those that fit, in order and with repetitions, and the failures. */
  lemma {:induction false} FittingSplits(list: seq<LocalStorage>, request: int, names: seq<string>, n: string)
    ensures n in Fitting(list, request, names) <==> n in names && WhyNot(list, request, n).None?
    ensures multiset(Fitting(list, request, names))[n] == if WhyNot(list, request, n).None? then multiset(names)[n] else 0
  {
    if names != [] {
      var front, last := names[..|names| - 1], names[|names| - 1];
      FittingSplits(list, request, front, n);
      assert names == front + [last];
    }
  }

  /** Order is kept: Fitting distributes over concatenation. */
  lemma {:induction false} FittingKeepsOrder(list: seq<LocalStorage>, request: int, a: seq<string>, b: seq<string>)
    ensures Fitting(list, request, a + b) == Fitting(list, request, a) + Fitting(list, request, b)
    decreases b
  {
    if b == [] {
      assert a + b == a;
    } else {
      var front := b[..|b| - 1];
      FittingKeepsOrder(list, request, a, front);
      assert (a + b)[..|a + b| - 1] == a + front;
    }
  }

  // ---------- Score ----------

  /** The conversion to int64 drops the fraction of the quotient. */
  function QuotientTowardsZero(n: int, d: int): int
    requires d != 0
    decreases if d < 0 then 1 else 0
  {
    if d < 0 then QuotientTowardsZero(-n, -d)
    else if n >= 0 then n / d
    else -(-n / d)
  }

  /** What the platform makes of a quotient that is no number or infinite when it is turned into an int64. */
  datatype Platform = Platform(nan: int, plusInfinity: int, minusInfinity: int)

  function ScoreOf(allocatable: int, capacity: int, platform: Platform): int {
    if capacity != 0 then QuotientTowardsZero(100 * allocatable, capacity)
    else if allocatable == 0 then platform.nan
    else if allocatable > 0 then platform.plusInfinity
    else platform.minusInfinity
  }

  /** score dereferences both quantities of the object it finds. */
  predicate ScorableAt(list: seq<LocalStorage>, name: string) {
    LastBound(list, name).Some? ==>
      LastBound(list, name).value.status.allocatable.Some? && LastBound(list, name).value.status.capacity.Some?
  }

  function HostScore(list: seq<LocalStorage>, name: string, platform: Platform): int
    requires ScorableAt(list, name)
  {
    match LastBound(list, name)
    case None => 0
    case Some(o) => ScoreOf(o.status.allocatable.value, o.status.capacity.value, platform)
  }

  /** nil when the pod is missing, cannot be read or does not use this driver. */
  method Score(pod: Option<seq<PodVolume>>, claims: map<string, Claim>, provisioners: map<string, string>,
               list: seq<LocalStorage>, names: seq<string>, platform: Platform) returns (scores: array?<(string, int)>)
    requires forall i :: 0 <= i < |names| ==> ScorableAt(list, names[i])
    ensures scores != null <==> pod.Some? && exists c :: IsFirstClaim(c, pod.value, claims, provisioners)
    ensures scores != null ==>
              && scores.Length == |names|
              && (forall i :: 0 <= i < |names| && (forall o :: o in list ==> o.spec.node != names[i]) ==> scores[i] == (names[i], 0))
              && forall i :: 0 <= i < |names| ==> scores[i] == (names[i], HostScore(list, names[i], platform))
  {
    if pod.None? {
      return null;
    }
    FindClaimFindsFirst(pod.value, claims, provisioners);
    if !FindClaim(pod.value, claims, provisioners).Found? {
      return null;
    }
    forall name
      ensures (forall o :: o in list ==> o.spec.node != name) ==> LastBound(list, name).None?
    {
      LastBoundFinds(list, name);
    }
    var filled := new (string, int)[|names|];
    var m := GetLocalStorageMap(list);
    for i := 0 to |names|
      invariant forall j :: 0 <= j < i ==> filled[j] == (names[j], HostScore(list, names[j], platform))
    {
      var score := 0;
      if names[i] in m {
        var st := m[names[i]].status;
        score := ScoreOf(st.allocatable.value, st.capacity.value, platform);
      }
      filled[i] := (names[i], score);
    }
    scores := filled;
  }

  // ---------- division ----------

  lemma MultiplyMonotone(a: int, b: int, c: int)
    requires a <= b && c > 0
    ensures a * c <= b * c
  {
  }

  lemma QuotientAndRest(n: nat, d: int)
    requires d > 0
    ensures n / d >= 0 && 0 <= n - d * (n / d) < d
  {
    assert n == d * (n / d) + n % d;
  }

  lemma QuotientBelowIff(n: nat, d: int, bound: nat)
    requires d > 0
    ensures n / d < bound <==> n < d * bound
  {
    QuotientAndRest(n, d);
    var p := n / d;
    if p < bound {
      MultiplyMonotone(p + 1, bound, d);
    } else {
      MultiplyMonotone(bound, p, d);
    }
  }

  lemma DivisionMonotone(a: nat, b: nat, d: int)
    requires a <= b && d > 0
    ensures 0 <= a / d <= b / d
  {
    QuotientAndRest(a, d);
    QuotientAndRest(b, d);
    QuotientBelowIff(a, d, b / d + 1);
  }

  lemma QuotientMonotone(a: int, b: int, d: int)
    requires a <= b && d > 0
    ensures QuotientTowardsZero(a, d) <= QuotientTowardsZero(b, d)
  {
    if a >= 0 {
      DivisionMonotone(a, b, d);
    } else if b < 0 {
      DivisionMonotone(-b, -a, d);
    } else {
      QuotientAndRest(-a, d);
      QuotientAndRest(b, d);
    }
  }

  lemma RestOfQuotient(n: int, d: int)
    requires d != 0
    ensures var rest, size := n - d * QuotientTowardsZero(n, d), if d > 0 then d else -d;
            if n >= 0 then 0 <= rest < size else -size < rest <= 0
  {
    if d > 0 {
      if n >= 0 {
        QuotientAndRest(n, d);
      } else {
        QuotientAndRest(-n, d);
      }
    } else {
      if n >= 0 {
        QuotientAndRest(n, -d);
      } else {
        QuotientAndRest(-n, -d);
      }
    }
  }

  // ---------- what a score says ----------

  /** The score times the capacity is 100 times Allocatable up to a rest smaller than the capacity, on the side
      of zero; without a capacity the score is what the platform makes of the quotient. */
  lemma ScoreIsQuotient(allocatable: int, capacity: int, platform: Platform)
    ensures capacity != 0 ==>
              var rest := 100 * allocatable - capacity * ScoreOf(allocatable, capacity, platform);
              var size := if capacity > 0 then capacity else -capacity;
              if allocatable >= 0 then 0 <= rest < size else -size < rest <= 0
    ensures capacity == 0 ==>
              ScoreOf(allocatable, capacity, platform)
              == if allocatable < 0 then platform.minusInfinity else if allocatable > 0 then platform.plusInfinity else platform.nan
  {
    if capacity != 0 {
      RestOfQuotient(100 * allocatable, capacity);
    }
  }

  /** More allocatable never scores lower on a positive capacity, and never higher on a negative one. */
  lemma ScoreMonotone(a: int, b: int, capacity: int, platform: Platform)
    requires a <= b && capacity != 0
    ensures if capacity > 0 then ScoreOf(a, capacity, platform) <= ScoreOf(b, capacity, platform)
            else ScoreOf(b, capacity, platform) <= ScoreOf(a, capacity, platform)
  {
    if capacity > 0 {
      QuotientMonotone(100 * a, 100 * b, capacity);
    } else {
      QuotientMonotone(-100 * b, -100 * a, -capacity);
    }
  }

  lemma ScoreRangePositive(n: int, d: int)
    requires d > 0
    ensures 0 <= QuotientTowardsZero(n, d) <= 100 <==> -d < n < 101 * d
  {
    if n >= 0 {
      QuotientBelowIff(n, d, 101);
      QuotientAndRest(n, d);
    } else {
      QuotientBelowIff(-n, d, 1);
      QuotientAndRest(-n, d);
    }
  }

  /** Allocatable is above minus 1 and below 101 percent of the capacity; without a capacity, the platform
      happens to give a percentage. */
  predicate Percentage(allocatable: int, capacity: int, platform: Platform) {
    if capacity > 0 then -capacity < 100 * allocatable < 101 * capacity
    else if capacity < 0 then 101 * capacity < 100 * allocatable < -capacity
    else if allocatable == 0 then 0 <= platform.nan <= 100
    else if allocatable > 0 then 0 <= platform.plusInfinity <= 100
    else 0 <= platform.minusInfinity <= 100
  }

  /** For every capacity: the score is in range exactly if it is a percentage. */
  lemma ScoreRangeIff(allocatable: int, capacity: int, platform: Platform)
    ensures 0 <= ScoreOf(allocatable, capacity, platform) <= 100 <==> Percentage(allocatable, capacity, platform)
  {
    if capacity > 0 {
      ScoreRangePositive(100 * allocatable, capacity);
    } else if capacity < 0 {
      ScoreRangePositive(-100 * allocatable, -capacity);
    }
  }

  // ---------- Filter and Score on the same committed snapshot ----------

  /** Filter's dereference is safe on every snapshot of every history. */
  lemma SnapshotsAreDereferenceable(h: Hist, i: nat, list: seq<LocalStorage>)
    requires Valid(h) && i < |h.snaps| && Lists(list, h.snaps[i])
    ensures Dereferenceable(list)
  {
    HistorySound(h, i);
    forall j | 0 <= j < |list| && list[j].status.phase == Ready
      ensures list[j].status.allocatable.Some? && list[j].status.capacity.Some?
    {
      assert list[j] in list;
    }
  }

  /** On what Filter let through, Score meets no nil field, and the score is in range exactly if it is a
      percentage. */
  lemma FilterThenScore(h: Hist, i: nat, list: seq<LocalStorage>, request: int, names: seq<string>, n: string, platform: Platform)
    requires Valid(h) && i < |h.snaps| && Lists(list, h.snaps[i]) && n in Fitting(list, request, names)
    ensures LastBound(list, n).Some? && ScorableAt(list, n)
    ensures var st := LastBound(list, n).value.status;
            0 <= HostScore(list, n, platform) <= 100 <==> Percentage(st.allocatable.value, st.capacity.value, platform)
  {
    FittingSplits(list, request, names, n);
    LastBoundFinds(list, n);
    var o := LastBound(list, n).value;
    assert o in list;
    ReadyHasQuantities(h, i, o.name);
    ScoreRangeIff(o.status.allocatable.value, o.status.capacity.value, platform);
  }

  /** It is, where the node's object is within its capacity on this snapshot; without a capacity there is then
      nothing allocatable either, and the platform decides. */
  lemma FilterThenScoreInRange(h: Hist, i: nat, list: seq<LocalStorage>, request: int, names: seq<string>, n: string, platform: Platform)
    requires Valid(h) && i < |h.snaps| && Lists(list, h.snaps[i]) && n in Fitting(list, request, names)
    requires LastBound(list, n).Some? ==> WithinCapacity(h.snaps[i], LastBound(list, n).value.name)
    ensures LastBound(list, n).Some? && ScorableAt(list, n)
    ensures if LastBound(list, n).value.status.capacity.value == 0 then HostScore(list, n, platform) == platform.nan
            else 0 <= HostScore(list, n, platform) <= 100
  {
    FilterThenScore(h, i, list, request, names, n, platform);
    LastBoundFinds(list, n);
    assert LastBound(list, n).value in list;
  }

  /** In particular where each commit in the life of the node's object met its guard, or where it had no drift
      and each commit was affordable. */
  lemma GuardedScoresInRange(h: Hist, i: nat, list: seq<LocalStorage>, request: int, names: seq<string>, n: string, platform: Platform)
    requires Valid(h) && i < |h.snaps| && Lists(list, h.snaps[i]) && n in Fitting(list, request, names)
    requires LastBound(list, n).Some? ==>
               var o := LastBound(list, n).value;
               AllGuarded(h, o.name, o.uid, i) || (NoDrift(h, o.name, o.uid, i) && Affordable(h, o.name, o.uid, i))
    ensures LastBound(list, n).Some? && ScorableAt(list, n)
    ensures if LastBound(list, n).value.status.capacity.value == 0 then HostScore(list, n, platform) == platform.nan
            else 0 <= HostScore(list, n, platform) <= 100
  {
    LastBoundFinds(list, n);
    if LastBound(list, n).Some? {
      var o := LastBound(list, n).value;
      assert o in list;
      NewAtUid(h, i, o.name);
      NoOvercommitIff(h, i, o.name);
      if NoDrift(h, o.name, o.uid, i) {
        NoOvercommitWithoutDriftIff(h, i, o.name);
      }
      assert WithinCapacity(h.snaps[i], o.name);
    }
    FilterThenScoreInRange(h, i, list, request, names, n, platform);
  }

  /** Score may see a later snapshot than Filter did. On a node that Filter let through it meets no nil field
      then either, unless the node's object has meanwhile been deleted and another one, not yet
      initialised, been created for it. */
  lemma ScoreAfterFilter(h: Hist, i: nat, before: seq<LocalStorage>, j: nat, list: seq<LocalStorage>, request: int, names: seq<string>, n: string)
    requires Valid(h) && i <= j < |h.snaps| && Lists(before, h.snaps[i]) && Lists(list, h.snaps[j]) && n in Fitting(before, request, names)
    ensures LastBound(before, n).Some?
    ensures LastBound(list, n).Some? && LastBound(list, n).value.uid == LastBound(before, n).value.uid ==> ScorableAt(list, n)
    ensures !ScorableAt(list, n) <==>
              LastBound(list, n).Some? && LastBound(list, n).value.uid != LastBound(before, n).value.uid
              && LastBound(list, n).value.status.capacity.None?
  {
    FittingSplits(before, request, names, n);
    LastBoundFinds(before, n);
    LastBoundFinds(list, n);
    var o := LastBound(before, n).value;
    assert o in before;
    HistorySound(h, i);
    HistorySound(h, j);
    if LastBound(list, n).Some? {
      var o' := LastBound(list, n).value;
      assert o' in list;
      if o'.uid == o.uid {
        UidNamesOne(h, i, o.name, j, o'.name);
        LifeIsMonotone(h, i, j, o.name);
      }
    }
  }

  /** A committed create never raises the score of its object on a positive capacity and a committed delete
      never lowers it; a negative capacity turns that round. */
  lemma ScoreFollowsLedger(h: Hist, i: nat, k: string, platform: Platform)
    requires Valid(h) && 0 < i < |h.snaps| && h.log[i - 1].act.name == k && k in h.snaps[i - 1]
    requires h.log[i - 1].act.VolumeAdded? || h.log[i - 1].act.VolumeRemoved?
    requires h.snaps[i - 1][k].status.capacity.Some? && h.snaps[i - 1][k].status.capacity.value != 0
    ensures k in h.snaps[i]
    ensures var st, st' := h.snaps[i - 1][k].status, h.snaps[i][k].status;
            && st.allocatable.Some? && st'.allocatable.Some? && st'.capacity == st.capacity
            && var before, after := ScoreOf(st.allocatable.value, st.capacity.value, platform), ScoreOf(st'.allocatable.value, st'.capacity.value, platform);
            if h.log[i - 1].act.VolumeAdded? <==> st.capacity.value > 0 then after <= before else before <= after
  {
    StepBack(h, i);
    HistorySound(h, i - 1);
    EffectOn(h.log[i - 1], h.snaps[i - 1], i, k);
    var st, st' := h.snaps[i - 1][k].status, h.snaps[i][k].status;
    if h.log[i - 1].act.VolumeAdded? {
      ScoreMonotone(st'.allocatable.value, st.allocatable.value, st.capacity.value, platform);
    } else {
      SizeOfNonNegative(st.volumes, h.log[i - 1].act.id);
      ScoreMonotone(st.allocatable.value, st'.allocatable.value, st.capacity.value, platform);
    }
  }
}
