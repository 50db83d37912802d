/** Volume lists: what AddVolume and RemoveVolume compute, and what they are meant to compute. */
module Volumes {
  import opened Types

  ghost function Ids(vs: seq<Volume>): set<string> {
    set v | v in vs :: v.volID
  }

  ghost predicate DistinctIds(vs: seq<Volume>) {
    forall i, j :: 0 <= i < j < |vs| ==> vs[i].volID != vs[j].volID
  }

  ghost predicate SizesNonNegative(vs: seq<Volume>) {
    forall i :: 0 <= i < |vs| ==> vs[i].volSize >= 0
  }

  function TotalSize(vs: seq<Volume>): int {
    if vs == [] then 0 else vs[0].volSize + TotalSize(vs[1..])
  }

  /** The list meant by "remove this ID": every other entry, in order. */
  function Without(vs: seq<Volume>, id: string): seq<Volume> {
    if vs == [] then []
    else if vs[0].volID == id then Without(vs[1..], id)
    else [vs[0]] + Without(vs[1..], id)
  }

  /** The bytes held under an ID. */
  function SizeOf(vs: seq<Volume>, id: string): int {
    if vs == [] then 0
    else if vs[0].volID == id then vs[0].volSize
    else SizeOf(vs[1..], id)
  }

  predicate Contains(vs: seq<Volume>, id: string) {
    exists i :: 0 <= i < |vs| && vs[i].volID == id
  }

  function AddVolume(vs: seq<Volume>, v: Volume): seq<Volume> {
    if Contains(vs, v.volID) then vs else vs + [v]
  }

  /** The loop of RemoveVolume from index i on: after a deletion the index still advances,
      so the entry that moved into the gap is never looked at. */
  function RemoveFrom(vs: seq<Volume>, id: string, i: nat, got: Volume): (seq<Volume>, Volume)
    decreases |vs| - i
  {
    if i >= |vs| then (vs, got)
    else if vs[i].volID == id then RemoveFrom(vs[..i] + vs[i + 1..], id, i + 1, vs[i])
    else RemoveFrom(vs, id, i + 1, got)
  }

  function RemoveVolume(vs: seq<Volume>, id: string): (seq<Volume>, Volume) {
    RemoveFrom(vs, id, 0, NO_VOLUME)
  }

  /** What the loop does to the part of the list it has not yet reached. */
  ghost function Skipping(s: seq<Volume>, id: string): seq<Volume> {
    if s == [] then []
    else if s[0].volID != id then [s[0]] + Skipping(s[1..], id)
    else if |s| == 1 then []
    else [s[1]] + Skipping(s[2..], id)
  }

  ghost predicate AdjacentTargets(s: seq<Volume>, id: string) {
    exists i :: 0 <= i < |s| - 1 && s[i].volID == id && s[i + 1].volID == id
  }

  lemma {:induction false} RemoveFromSkips(vs: seq<Volume>, id: string, i: nat, got: Volume)
    requires i <= |vs|
    ensures RemoveFrom(vs, id, i, got).0 == vs[..i] + Skipping(vs[i..], id)
    decreases |vs| - i
  {
    if i == |vs| {
    } else if vs[i].volID == id {
      var shorter := vs[..i] + vs[i + 1..];
      if i + 1 <= |shorter| {
        RemoveFromSkips(shorter, id, i + 1, vs[i]);
        assert shorter[..i + 1] == vs[..i] + [vs[i + 1]];
        assert shorter[i + 1..] == vs[i..][2..];
      }
    } else {
      RemoveFromSkips(vs, id, i + 1, got);
      assert vs[i + 1..] == vs[i..][1..];
    }
  }

  lemma AdjacentTail(s: seq<Volume>, id: string)
    requires s != []
    ensures AdjacentTargets(s, id) <==>
            AdjacentTargets(s[1..], id) || (|s| > 1 && s[0].volID == id && s[1].volID == id)
  {
    if AdjacentTargets(s[1..], id) {
      var i :| 0 <= i < |s[1..]| - 1 && s[1..][i].volID == id && s[1..][i + 1].volID == id;
      assert s[i + 1].volID == id && s[i + 1 + 1].volID == id;
    }
    if AdjacentTargets(s, id) {
      var i :| 0 <= i < |s| - 1 && s[i].volID == id && s[i + 1].volID == id;
      if i > 0 {
        assert s[1..][i - 1].volID == id && s[1..][i - 1 + 1].volID == id;
      }
    }
  }

  lemma {:induction false} SkippingIsWithout(s: seq<Volume>, id: string)
    ensures AdjacentTargets(s, id) ==> id in Ids(Skipping(s, id))
    ensures !AdjacentTargets(s, id) ==> Skipping(s, id) == Without(s, id)
  {
    if s == [] {
    } else if s[0].volID != id {
      AdjacentTail(s, id);
      SkippingIsWithout(s[1..], id);
      assert Skipping(s, id)[1..] == Skipping(s[1..], id);
    } else if |s| == 1 {
      assert Without(s[1..], id) == [];
    } else {
      AdjacentTail(s, id);
      AdjacentTail(s[1..], id);
      assert s[1..][1..] == s[2..];
      SkippingIsWithout(s[2..], id);
      assert Skipping(s, id)[1..] == Skipping(s[2..], id);
      assert s[1] in Skipping(s, id);
    }
  }

  lemma {:induction false} WithoutMembers(vs: seq<Volume>, id: string)
    ensures forall v :: v in Without(vs, id) <==> v in vs && v.volID != id
  {
    if vs != [] {
      WithoutMembers(vs[1..], id);
      assert forall v :: v in vs <==> v == vs[0] || v in vs[1..];
    }
  }

  lemma DistinctTail(vs: seq<Volume>)
    requires vs != [] && DistinctIds(vs)
    ensures DistinctIds(vs[1..])
    ensures forall v :: v in vs[1..] ==> v.volID != vs[0].volID
  {
    assert forall i :: 0 <= i < |vs| - 1 ==> vs[1..][i] == vs[i + 1];
  }

  lemma {:induction false} WithoutKeepsDistinct(vs: seq<Volume>, id: string)
    requires DistinctIds(vs)
    ensures DistinctIds(Without(vs, id))
  {
    if vs != [] {
      DistinctTail(vs);
      WithoutKeepsDistinct(vs[1..], id);
      if vs[0].volID != id {
        WithoutMembers(vs[1..], id);
        var w, rest := Without(vs, id), Without(vs[1..], id);
        forall i, j | 0 <= i < j < |w|
          ensures w[i].volID != w[j].volID
        {
          assert w[j] == rest[j - 1] && rest[j - 1] in rest;
        }
      }
    }
  }

  lemma WithoutDropsExactly(vs: seq<Volume>, id: string)
    ensures Ids(Without(vs, id)) == Ids(vs) - {id}
    ensures SizesNonNegative(vs) ==> SizesNonNegative(Without(vs, id))
  {
    WithoutMembers(vs, id);
    var w := Without(vs, id);
    assert forall i :: 0 <= i < |w| ==> w[i] in w;
  }

  /** RemoveVolume means "remove this ID" exactly when no two neighbours carry it. */
  lemma RemoveVolumeIsFilterIff(vs: seq<Volume>, id: string)
    ensures RemoveVolume(vs, id).0 == Without(vs, id) <==> !AdjacentTargets(vs, id)
  {
    RemoveFromSkips(vs, id, 0, NO_VOLUME);
    assert vs[0..] == vs;
    SkippingIsWithout(vs, id);
    WithoutDropsExactly(vs, id);
  }

  /** Two neighbours with the ID: one of them stays. */
  lemma RemoveVolumeCanLeaveOne() returns (vs: seq<Volume>, id: string)
    ensures id in Ids(vs) && id in Ids(RemoveVolume(vs, id).0)
  {
    id := "id";
    var v := NO_VOLUME.(volID := id);
    vs := [v, v];
    RemoveFromSkips(vs, id, 0, NO_VOLUME);
    assert vs[0..] == vs && Skipping(vs, id) == [v] + Skipping(vs[2..], id);
    assert v in vs && v in RemoveVolume(vs, id).0;
  }

  lemma {:induction false} TotalSizeAppend(vs: seq<Volume>, v: Volume)
    ensures TotalSize(vs + [v]) == TotalSize(vs) + v.volSize
  {
    if vs == [] {
      assert (vs + [v])[1..] == [];
    } else {
      TotalSizeAppend(vs[1..], v);
      assert (vs + [v])[1..] == vs[1..] + [v];
    }
  }

  lemma {:induction false} TotalSizeNonNegative(vs: seq<Volume>)
    requires SizesNonNegative(vs)
    ensures TotalSize(vs) >= 0
  {
    if vs != [] {
      assert forall i :: 0 <= i < |vs| - 1 ==> vs[1..][i] == vs[i + 1];
      TotalSizeNonNegative(vs[1..]);
    }
  }

  lemma {:induction false} WithoutAbsent(vs: seq<Volume>, id: string)
    requires id !in Ids(vs)
    ensures Without(vs, id) == vs
  {
    if vs != [] {
      assert vs[0] in vs;
      assert forall v :: v in vs[1..] ==> v in vs;
      WithoutAbsent(vs[1..], id);
    }
  }

  /** The deletion loop, its result and the returned volume together, on the part still ahead. */
  lemma {:induction false} RemoveFromFinds(vs: seq<Volume>, id: string, i: nat, got: Volume)
    requires i <= |vs| && DistinctIds(vs)
    requires forall j :: 0 <= j < i ==> vs[j].volID != id
    ensures id !in Ids(vs) ==> RemoveFrom(vs, id, i, got) == (vs, got)
    ensures id in Ids(vs) ==> RemoveFrom(vs, id, i, got).1 in vs && RemoveFrom(vs, id, i, got).1.volID == id
    decreases |vs| - i
  {
    if i == |vs| {
      assert id !in Ids(vs);
    } else if vs[i].volID == id {
      assert vs[i] in vs;
      var shorter := vs[..i] + vs[i + 1..];
      forall j | 0 <= j < |shorter|
        ensures shorter[j].volID != id
      {
        assert shorter[j] == if j < i then vs[j] else vs[j + 1];
      }
      if i + 1 <= |shorter| {
        RemoveFromAbsent(shorter, id, i + 1, vs[i]);
      }
    } else {
      RemoveFromFinds(vs, id, i + 1, got);
    }
  }

  lemma {:induction false} RemoveFromAbsent(vs: seq<Volume>, id: string, i: nat, got: Volume)
    requires i <= |vs|
    requires forall j :: 0 <= j < |vs| ==> vs[j].volID != id
    ensures RemoveFrom(vs, id, i, got) == (vs, got)
    decreases |vs| - i
  {
    if i < |vs| {
      RemoveFromAbsent(vs, id, i + 1, got);
    }
  }

  lemma {:induction false} WithoutCredits(vs: seq<Volume>, id: string)
    requires DistinctIds(vs)
    ensures TotalSize(Without(vs, id)) == TotalSize(vs) - SizeOf(vs, id)
    ensures forall v :: v in vs && v.volID == id ==> SizeOf(vs, id) == v.volSize
  {
    if vs != [] {
      DistinctTail(vs);
      assert forall v :: v in vs <==> v == vs[0] || v in vs[1..];
      if vs[0].volID == id {
        WithoutAbsent(vs[1..], id);
      } else {
        WithoutCredits(vs[1..], id);
        assert Without(vs, id)[1..] == Without(vs[1..], id);
      }
    }
  }

  /** On a list with unique IDs, RemoveVolume filters, and the volume it returns holds the bytes it freed. */
  lemma RemoveVolumeOnDistinct(vs: seq<Volume>, id: string)
    requires DistinctIds(vs)
    ensures RemoveVolume(vs, id).0 == Without(vs, id)
    ensures RemoveVolume(vs, id).1.volSize == SizeOf(vs, id)
    ensures TotalSize(Without(vs, id)) + SizeOf(vs, id) == TotalSize(vs)
    ensures id !in Ids(vs) ==> RemoveVolume(vs, id) == (vs, NO_VOLUME)
    ensures id in Ids(vs) ==> |Without(vs, id)| < |vs|
  {
    RemoveVolumeIsFilterIff(vs, id);
    RemoveFromFinds(vs, id, 0, NO_VOLUME);
    WithoutCredits(vs, id);
    WithoutShrinks(vs, id);
    if id !in Ids(vs) {
      WithoutAbsent(vs, id);
    }
  }

  lemma {:induction false} WithoutShrinks(vs: seq<Volume>, id: string)
    ensures |Without(vs, id)| <= |vs|
    ensures id in Ids(vs) ==> |Without(vs, id)| < |vs|
  {
    if vs != [] {
      assert forall v :: v in vs <==> v == vs[0] || v in vs[1..];
      WithoutShrinks(vs[1..], id);
    }
  }

  lemma ContainsIff(vs: seq<Volume>, id: string)
    ensures Contains(vs, id) <==> id in Ids(vs)
  {
    assert forall i :: 0 <= i < |vs| ==> vs[i] in vs;
  }

  lemma AddVolumeAppends(vs: seq<Volume>, v: Volume)
    requires v.volID !in Ids(vs)
    ensures AddVolume(vs, v) == vs + [v]
    ensures Ids(vs + [v]) == Ids(vs) + {v.volID}
    ensures DistinctIds(vs) ==> DistinctIds(vs + [v])
  {
    assert forall i :: 0 <= i < |vs| ==> vs[i] in vs;
    assert forall w :: w in vs + [v] <==> w in vs || w == v;
  }
}
