/** The file-backed volume store: a map written through to one file. */
module VolumeStore {
  import opened Types

  type VolMap = map<string, Volume>

  /** What the file holds: nothing yet, an encoded map (None is the nil map), bytes that cannot be read or
      are no map, or an encoded map with values of a wrong type, of which the decoder keeps what it has
      understood before it reports the error. Encoding is injective. */
  datatype Content = Missing | Encoded(vols: Option<VolMap>) | Unreadable | Mistyped(understood: Option<VolMap>)

  datatype Op = Set(vol: Volume) | Remove(id: string)

  /** mem is the Volumes field; None is the nil map. */
  datatype State = State(mem: Option<VolMap>, file: Content)

  /** Written: the file holds the new bytes. Broken: the write failed and left something behind. */
  datatype WriteResult = Written | Broken(left: Content)

  function AsMap(m: Option<VolMap>): VolMap {
    if m.None? then map[] else m.value
  }

  function Dump(st: State, w: WriteResult): (State, bool) {
    match w
    case Written => (st.(file := Encoded(st.mem)), true)
    case Broken(left) => (st.(file := left), false)
  }

  function Apply(st: State, op: Op, w: WriteResult): (State, bool) {
    match op
    case Set(v) => Dump(st.(mem := Some(AsMap(st.mem)[v.volID := v])), w)
    case Remove(id) =>
      if id !in AsMap(st.mem) then (st, true) else Dump(st.(mem := Some(AsMap(st.mem) - {id})), w)
  }

  /** The memory after New, and whether New reported no error. */
  function Reopen(file: Content): (Option<VolMap>, bool) {
    match file
    case Missing => (None, true)
    case Encoded(m) => (m, true)
    case Unreadable => (None, false)
    case Mistyped(m) => (m, false)
  }

  ghost predicate KeysMatch(m: VolMap) {
    forall k :: k in m ==> m[k].volID == k
  }

  /** Reopening the file now would give what is in memory. */
  ghost predicate InSync(st: State) {
    Reopen(st.file).1 && AsMap(Reopen(st.file).0) == AsMap(st.mem)
  }

  /** What the caller asked for, forgetting files. */
  function Wanted(m: VolMap, ops: seq<Op>): VolMap {
    if ops == [] then m
    else
      var before, op := Wanted(m, ops[..|ops| - 1]), ops[|ops| - 1];
      match op
      case Set(v) => before[v.volID := v]
      case Remove(id) => before - {id}
  }

  /** The state after a sequence of calls, and whether all of them succeeded. */
  function RunOps(st: State, ops: seq<Op>, ws: seq<WriteResult>): (State, bool)
    requires |ops| == |ws|
  {
    if ops == [] then (st, true)
    else
      var (s1, ok1) := RunOps(st, ops[..|ops| - 1], ws[..|ws| - 1]);
      var (s2, ok2) := Apply(s1, ops[|ops| - 1], ws[|ws| - 1]);
      (s2, ok1 && ok2)
  }

  /** After any sequence of successful calls on a freshly opened store, reopening the file gives exactly
      the map that the calls asked for, keyed by volume ID. */
  lemma {:induction false} Durable(st: State, ops: seq<Op>, ws: seq<WriteResult>)
    requires |ops| == |ws| && InSync(st) && KeysMatch(AsMap(st.mem)) && RunOps(st, ops, ws).1
    ensures var s' := RunOps(st, ops, ws).0;
            && InSync(s') && KeysMatch(AsMap(s'.mem))
            && AsMap(Reopen(s'.file).0) == Wanted(AsMap(st.mem), ops)
  {
    if ops != [] {
      Durable(st, ops[..|ops| - 1], ws[..|ws| - 1]);
      var s1 := RunOps(st, ops[..|ops| - 1], ws[..|ws| - 1]).0;
      var op := ops[|ops| - 1];
      if op.Remove? && op.id !in AsMap(s1.mem) {
        assert AsMap(s1.mem) - {op.id} == AsMap(s1.mem);
      }
    }
  }

  /** The last call about an ID, if there was one. */
  function LastOn(ops: seq<Op>, id: string): Option<Op> {
    if ops == [] then None
    else
      var op := ops[|ops| - 1];
      if (if op.Set? then op.vol.volID else op.id) == id then Some(op) else LastOn(ops[..|ops| - 1], id)
  }

  /** What the store answers for an ID: the volume of the last call about it if that was a Set, nothing if
      it was a Delete, and what it held at first if there was none. */
  lemma {:induction false} LastCallWins(m: VolMap, ops: seq<Op>, id: string)
    ensures var after, last := Wanted(m, ops), LastOn(ops, id);
            && (last.Some? ==> (id in after <==> last.value.Set?))
            && (last.Some? && last.value.Set? ==> after[id] == last.value.vol)
            && (last.None? ==> (id in after <==> id in m) && (id in m ==> after[id] == m[id]))
  {
    if ops != [] {
      LastCallWins(m, ops[..|ops| - 1], id);
    }
  }

  /** The memory after any sequence of calls holds what they asked for, also where a call failed to write. */
  lemma {:induction false} MemoryIsWanted(st: State, ops: seq<Op>, ws: seq<WriteResult>)
    requires |ops| == |ws| && KeysMatch(AsMap(st.mem))
    ensures AsMap(RunOps(st, ops, ws).0.mem) == Wanted(AsMap(st.mem), ops) && KeysMatch(Wanted(AsMap(st.mem), ops))
  {
    if ops != [] {
      MemoryIsWanted(st, ops[..|ops| - 1], ws[..|ws| - 1]);
      var before, op := Wanted(AsMap(st.mem), ops[..|ops| - 1]), ops[|ops| - 1];
      if op.Remove? && op.id !in before {
        assert before - {op.id} == before;
      }
    }
  }

  /** A failed call leaves memory ahead of the file until a call writes again: the store is back in step
      exactly when the call wrote, or there was nothing to write and it was in step before. */
  lemma InStepIff(st: State, op: Op, w: WriteResult)
    requires Apply(st, op, w).1
    ensures InSync(Apply(st, op, w).0) <==> op.Set? || op.id in AsMap(st.mem) || InSync(st)
  {
  }

  /** A call succeeds exactly if its write does, and a Delete of an unknown ID writes nothing: the file then holds
      the new memory, or whatever a broken write left. The first start, and one with an encoded map, succeeds;
      what an opened store has in memory is what could be decoded, also beside an error. */
  lemma CallSucceedsIff(st: State, op: Op, w: WriteResult)
    ensures var (st', ok) := Apply(st, op, w); var idle := op.Remove? && op.id !in AsMap(st.mem);
            && (ok <==> idle || w.Written?)
            && st'.file == if idle then st.file else if w.Written? then Encoded(Some(Wanted(AsMap(st.mem), [op]))) else w.left
    ensures Reopen(st.file).1 <==> st.file.Missing? || st.file.Encoded?
    ensures forall m :: Reopen(st.file).0 == Some(m) <==> st.file == Encoded(Some(m)) || st.file == Mistyped(Some(m))
  {
    assert [op][..0] == [];
  }

  class File {
    var content: Content

    constructor (c: Content)
      ensures content == c
    {
      content := c;
    }
  }

  class Cache {
    const file: File
    var volumes: Option<VolMap>

    ghost function St(): State
      reads this, file
    {
      State(volumes, file.content)
    }

    constructor (f: File)
      ensures file == f && volumes == None
    {
      file, volumes := f, None;
    }

    /** restore, called by New. */
    method Restore() returns (ok: bool)
      modifies this
      ensures (volumes, ok) == Reopen(file.content)
    {
      volumes := None;
      match file.content {
        case Missing => ok := true;
        case Encoded(m) =>
          volumes := m;
          ok := true;
        case Unreadable => ok := false;
        case Mistyped(m) =>
          volumes := m;
          ok := false;
      }
    }

    method WriteFile(w: WriteResult) returns (ok: bool)
      modifies file
      ensures (St(), ok) == Dump(old(St()), w)
    {
      match w {
        case Written =>
          file.content := Encoded(volumes);
          ok := true;
        case Broken(left) =>
          file.content := left;
          ok := false;
      }
    }

    method SetVolume(v: Volume, w: WriteResult) returns (ok: bool)
      modifies this, file
      ensures (St(), ok) == Apply(old(St()), Set(v), w)
    {
      if volumes.None? {
        volumes := Some(map[]);
      }
      volumes := Some(volumes.value[v.volID := v]);
      ok := WriteFile(w);
    }

    method DeleteVolume(id: string, w: WriteResult) returns (ok: bool)
      modifies this, file
      ensures (St(), ok) == Apply(old(St()), Remove(id), w)
    {
      if volumes.None? || id !in volumes.value {
        return true;
      }
      volumes := Some(volumes.value - {id});
      ok := WriteFile(w);
    }

    /** Succeeds exactly if a stored volume has the ID, and gives that one, as long as every entry stands
        under its own ID, which all calls keep. */
    method GetVolumeByID(id: string) returns (v: Option<Volume>)
      ensures v.Some? <==> id in AsMap(volumes)
      ensures v.Some? ==> v.value in AsMap(volumes).Values
      ensures KeysMatch(AsMap(volumes)) ==>
                && (v.Some? <==> exists w :: w in AsMap(volumes).Values && w.volID == id)
                && (v.Some? ==> v.value.volID == id && forall w :: w in AsMap(volumes).Values && w.volID == id ==> w == v.value)
    {
      var m := AsMap(volumes);
      v := if id in m then Some(m[id]) else None;
      assert forall k :: k in m ==> m[k] in m.Values;
    }

    /** Some volume of that name, if there is one; the order of the map is arbitrary. */
    method GetVolumeByName(name: string) returns (v: Option<Volume>)
      ensures v.Some? <==> exists k :: k in AsMap(volumes) && AsMap(volumes)[k].volName == name
      ensures v.Some? ==> v.value.volName == name && v.value in AsMap(volumes).Values
    {
      var m := AsMap(volumes);
      var left := m.Keys;
      while left != {}
        invariant left <= m.Keys
        invariant forall k :: k in m && k !in left ==> m[k].volName != name
        decreases |left|
      {
        var k :| k in left;
        if m[k].volName == name {
          return Some(m[k]);
        }
        left := left - {k};
      }
      v := None;
    }

    /** Every entry once, in some order of the keys. */
    method GetVolumes() returns (vs: seq<Volume>, ghost keys: seq<string>)
      ensures |vs| == |keys| == |AsMap(volumes)|
      ensures forall k :: k in keys <==> k in AsMap(volumes)
      ensures forall i, j :: 0 <= i < j < |keys| ==> keys[i] != keys[j]
      ensures forall i :: 0 <= i < |keys| ==> vs[i] == AsMap(volumes)[keys[i]]
      ensures KeysMatch(AsMap(volumes)) ==> forall i, j :: 0 <= i < j < |vs| ==> vs[i].volID != vs[j].volID
    {
      var m := AsMap(volumes);
      var left := m.Keys;
      vs, keys := [], [];
      while left != {}
        invariant left <= m.Keys && |vs| == |keys| && |keys| + |left| == |m|
        invariant forall k :: k in keys <==> k in m && k !in left
        invariant forall i, j :: 0 <= i < j < |keys| ==> keys[i] != keys[j]
        invariant forall i :: 0 <= i < |keys| ==> keys[i] in m && vs[i] == m[keys[i]]
        decreases |left|
      {
        var k :| k in left;
        vs, keys := vs + [m[k]], keys + [k];
        left := left - {k};
      }
    }
  }
}
