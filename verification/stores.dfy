/** MemoryStore (pkg/store/memory_store.go) with Go's slice semantics: a slice
    is a shared backing array and a length, and append writes in place. */
module Stores {
  import opened Models

  /** A slice that starts at the first cell of its backing array. */
  datatype Slice = Slice(base: array<TestResult>, len: nat)

  ghost predicate Fits(s: Slice) { s.len <= s.base.Length }

  /** The cells a slice shows; an empty slice depends on no cell at all. */
  ghost function Cells(s: Slice): seq<TestResult>
    requires Fits(s)
    reads if s.len == 0 then {} else {s.base}
  {
    if s.len == 0 then [] else s.base[..s.len]
  }

  /** A record by value: its scalar fields (kept in a State whose own result
      list is not used here) and its results. */
  datatype Snapshot = Snapshot(header: State, results: seq<TestResult>)

  /** A SubmissionState: the scalar fields, and the Results slice. */
  class Record {
    var header: State
    var results: Slice

    ghost predicate Valid()
      reads this
    {
      Fits(results)
    }

    ghost function Value(): Snapshot
      requires Valid()
      reads this, if results.len == 0 then {} else {results.base}
    {
      Snapshot(header, Cells(results))
    }

    constructor (h: State, r: Slice)
      ensures header == h && results == r
    {
      header, results := h, r;
    }

    /** Go's append: in place while capacity lasts, else into a new array. */
    method Append(x: TestResult)
      requires Valid()
      modifies this, results.base
      ensures Valid() && header == old(header)
      ensures Cells(results) == old(Cells(results)) + [x]
      ensures results.len == old(results.len) + 1
      ensures if old(results.len < results.base.Length) then results.base == old(results.base) else fresh(results.base)
    {
      if results.len < results.base.Length {
        results.base[results.len] := x;
      } else {
        var grown := new TestResult[2 * results.len + 1](i => x);
        forall i | 0 <= i < results.len {
          grown[i] := results.base[i];
        }
        results := results.(base := grown);
      }
      results := results.(len := results.len + 1);
      assert results.base[..results.len] == old(Cells(results)) + [x];
    }

    method Read() returns (s: Snapshot)
      requires Valid()
      ensures s == Value()
    {
      s := Snapshot(header, results.base[..results.len]);
    }

    method Set(h: State)
      requires Valid()
      modifies `header
      ensures Valid() && header == h
    {
      header := h;
    }
  }

  /** The copy both SaveState and GetState make: a new array for a non-empty
      slice, the very same slice for an empty one. */
  method CopyRecord(r: Record) returns (c: Record)
    requires r.Valid()
    ensures fresh(c) && c.Valid() && c.Value() == r.Value()
    ensures c.results.len > 0 ==> fresh(c.results.base)
    ensures c.results.len == 0 ==> c.results == r.results
  {
    var copied := r.results;
    if r.results.len > 0 {
      var cells := new TestResult[r.results.len](i requires 0 <= i < r.results.len
        && Fits(r.results) reads r, r.results.base => r.results.base[i]);
      copied := Slice(cells, r.results.len);
      assert cells[..] == r.results.base[..r.results.len];
    }
    c := new Record(r.header, copied);
  }

  class MemoryStore {
    var states: map<string, Record>
    ghost var view: map<string, Snapshot>
    ghost var repr: set<object>

    /** The stored values live in memory private to the store: an empty slice
        may share its array, but shows none of it. */
    ghost predicate Valid()
      reads this, repr
    {
      && this !in repr
      && states.Keys == view.Keys
      && forall id :: id in states ==> Stored(states[id], view[id])
    }

    ghost predicate Stored(r: Record, v: Snapshot)
      reads this, repr
    {
      && r in repr && r.Valid()
      && (r.results.len > 0 ==> r.results.base in repr)
      && r.Value() == v
    }

    constructor ()
      ensures Valid() && fresh(repr) && view == map[]
    {
      states, view, repr := map[], map[], {};
    }

    method SaveState(r: Record)
      requires Valid() && r.Valid()
      modifies this
      ensures Valid() && fresh(repr - old(repr)) && old(repr) <= repr
      ensures view == old(view)[r.header.id := r.Value()]
    {
      var copied := CopyRecord(r);
      ghost var private: set<object> := if copied.results.len > 0 then {copied, copied.results.base} else {copied};
      repr := repr + private;
      view := view[r.header.id := r.Value()];
      states := states[r.header.id := copied];
    }

    method GetState(id: string) returns (r: Record?)
      requires Valid()
      ensures r != null <==> id in view
      ensures r != null ==>
                && fresh(r) && r.Valid() && r.Value() == view[id]
                && (r.results.len > 0 ==> fresh(r.results.base))
    {
      if id !in states {
        return null;
      }
      r := CopyRecord(states[id]);
    }
  }

  // ---- Any interleaving --------------------------------------------------

  /** A new worker allocates its record; worker w appends, rewrites scalar
      fields, saves; anyone reads. */
  datatype Op =
    | Make(header: State, capacity: nat)
    | Push(w: nat, result: TestResult)
    | Update(w: nat, header: State)
    | Save(w: nat)
    | Get(id: string)

  /** The same with values instead of shared arrays. */
  datatype Ideal = Ideal(workers: seq<Snapshot>, saved: map<string, Snapshot>, seen: seq<Option<Snapshot>>)

  function Pushed(s: Snapshot, x: TestResult): Snapshot { Snapshot(s.header, s.results + [x]) }

  function Apply(m: Ideal, op: Op): Ideal {
    match op
    case Make(h, _) => m.(workers := m.workers + [Snapshot(h, [])])
    case Push(w, x) => if w < |m.workers| then m.(workers := m.workers[w := Pushed(m.workers[w], x)]) else m
    case Update(w, h) => if w < |m.workers| then m.(workers := m.workers[w := Snapshot(h, m.workers[w].results)]) else m
    case Save(w) => if w < |m.workers| then m.(saved := m.saved[m.workers[w].header.id := m.workers[w]]) else m
    case Get(id) => m.(seen := m.seen + [if id in m.saved then Some(m.saved[id]) else None])
  }

  function ApplyAll(ops: seq<Op>): Ideal {
    if ops == [] then Ideal([], map[], [])
    else Apply(ApplyAll(ops[..|ops| - 1]), ops[|ops| - 1])
  }

  ghost predicate Held(workers: seq<Record>, m: seq<Snapshot>)
    reads workers, set w | w in workers :: w.results.base
  {
    && |workers| == |m|
    && forall w :: 0 <= w < |workers| ==> workers[w].Valid() && workers[w].Value() == m[w]
  }

  /** Workers own their records and arrays, apart from the store and each other. */
  ghost predicate Apart(workers: seq<Record>, store: MemoryStore)
    reads workers, store
  {
    && (forall w :: 0 <= w < |workers| ==> workers[w] !in store.repr && workers[w].results.base !in store.repr)
    && (forall v, w :: 0 <= v < w < |workers| ==>
          workers[v] != workers[w] && workers[v].results.base != workers[w].results.base)
  }

  /** A record handed out by GetState, or the null that says there is none. */
  ghost predicate Shows(r: Record?, s: Option<Snapshot>)
    reads r, if r == null then {} else {r.results.base}
  {
    if r == null then s.None? else s.Some? && r.Valid() && r.Value() == s.value
  }

  /** Records handed out are never written through a worker. */
  ghost predicate Kept(got: seq<Record?>, seen: seq<Option<Snapshot>>, workers: seq<Record>)
    reads set r | r in got, set r | r in got && r != null :: r.results.base, workers
  {
    && |got| == |seen|
    && (forall i :: 0 <= i < |got| ==> Shows(got[i], seen[i]))
    && (forall i, w :: 0 <= i < |got| && 0 <= w < |workers| && got[i] != null ==>
          && workers[w] != got[i]
          && (got[i].results.len > 0 ==> workers[w].results.base != got[i].results.base))
  }

  /** The shared-array machine stands for the value machine. */
  ghost predicate Represents(store: MemoryStore, workers: seq<Record>, got: seq<Record?>, m: Ideal)
    reads *
  {
    && store.Valid() && store.view == m.saved
    && Held(workers, m.workers) && Apart(workers, store)
    && Kept(got, m.seen, workers)
  }

  /** A record that shares nothing may join the workers. */
  lemma WorkerJoins(store: MemoryStore, workers: seq<Record>, got: seq<Record?>, m: Ideal, r: Record)
    requires Represents(store, workers, got, m)
    requires r.Valid() && r !in store.repr && r.results.base !in store.repr
    requires forall w :: 0 <= w < |workers| ==> workers[w] != r && workers[w].results.base != r.results.base
    requires forall i :: 0 <= i < |got| && got[i] != null ==> got[i] != r && got[i].results.base != r.results.base
    ensures Represents(store, workers + [r], got, m.(workers := m.workers + [r.Value()]))
  {
  }

  method DoMake(store: MemoryStore, workers: seq<Record>, got: seq<Record?>, ghost m: Ideal, op: Op)
    returns (r: Record)
    requires op.Make? && Represents(store, workers, got, m)
    ensures Represents(store, workers + [r], got, Apply(m, op))
    ensures fresh(r) && fresh(r.results.base)
  {
    var blank := TestResult("", 0, Accepted, 0, "", "", 0.0, 0.0, 0.0, false);
    var cells := new TestResult[op.capacity](_ => blank);
    r := new Record(op.header, Slice(cells, 0));
    assert Represents(store, workers, got, m);
    WorkerJoins(store, workers, got, m, r);
  }

  method DoPush(store: MemoryStore, workers: seq<Record>, got: seq<Record?>, ghost m: Ideal, op: Op)
    requires op.Push? && op.w < |workers| && Represents(store, workers, got, m)
    modifies workers[op.w], workers[op.w].results.base
    ensures Represents(store, workers, got, Apply(m, op))
    ensures workers[op.w].results.base == old(workers[op.w].results.base) || fresh(workers[op.w].results.base)
  {
    workers[op.w].Append(op.result);
  }

  method DoUpdate(store: MemoryStore, workers: seq<Record>, got: seq<Record?>, ghost m: Ideal, op: Op)
    requires op.Update? && op.w < |workers| && Represents(store, workers, got, m)
    modifies workers[op.w]
    ensures workers[op.w].results == old(workers[op.w].results)
    ensures Represents(store, workers, got, Apply(m, op))
  {
    workers[op.w].Set(op.header);
  }

  method DoSave(store: MemoryStore, workers: seq<Record>, got: seq<Record?>, ghost m: Ideal, op: Op)
    requires op.Save? && op.w < |workers| && Represents(store, workers, got, m)
    modifies store
    ensures Represents(store, workers, got, Apply(m, op))
    ensures fresh(store.repr - old(store.repr))
  {
    store.SaveState(workers[op.w]);
  }

  method DoGet(store: MemoryStore, workers: seq<Record>, got: seq<Record?>, ghost m: Ideal, op: Op)
    returns (r: Record?)
    requires op.Get? && Represents(store, workers, got, m)
    ensures Represents(store, workers, got + [r], Apply(m, op))
  {
    r := store.GetState(op.id);
  }

  method DoOp(store: MemoryStore, workers: seq<Record>, got: seq<Record?>, ghost m: Ideal, op: Op)
    returns (workers': seq<Record>, got': seq<Record?>)
    requires Represents(store, workers, got, m)
    modifies store, workers, set w | w in workers :: w.results.base
    ensures Represents(store, workers', got', Apply(m, op))
    ensures workers <= workers'
    ensures forall w :: |workers| <= w < |workers'| ==> fresh(workers'[w]) && fresh(workers'[w].results.base)
    ensures forall w :: 0 <= w < |workers| ==>
              fresh(workers[w].results.base) || workers[w].results.base == old(workers[w].results.base)
  {
    workers', got' := workers, got;
    match op {
      case Make(_, _) => var r := DoMake(store, workers, got, m, op); workers' := workers + [r];
      case Get(_) => var r := DoGet(store, workers, got, m, op); got' := got + [r];
      case Push(w, _) => if w < |workers| { DoPush(store, workers, got, m, op); }
      case Update(w, _) => if w < |workers| { DoUpdate(store, workers, got, m, op); }
      case Save(w) => if w < |workers| { DoSave(store, workers, got, m, op); }
    }
  }

  method ReadAll(got: seq<Record?>, ghost expected: seq<Option<Snapshot>>) returns (seen: seq<Option<Snapshot>>)
    requires |got| == |expected| && forall i :: 0 <= i < |got| ==> Shows(got[i], expected[i])
    ensures seen == expected
  {
    seen := [];
    for i := 0 to |got|
      invariant seen == expected[..i]
    {
      if got[i] == null {
        seen := seen + [None];
      } else {
        var v := got[i].Read();
        seen := seen + [Some(v)];
      }
    }
  }

  /** Runs any interleaving on shared arrays.  Every read is evaluated only at
      the very end, after all later appends and saves, and still shows exactly
      what was visible at the last save before it. */
  method Interleave(ops: seq<Op>) returns (seen: seq<Option<Snapshot>>)
    ensures seen == ApplyAll(ops).seen
  {
    var store := new MemoryStore();
    var workers: seq<Record>, got: seq<Record?> := [], [];
    for i := 0 to |ops|
      invariant fresh(store)
      invariant forall w :: 0 <= w < |workers| ==> fresh(workers[w]) && fresh(workers[w].results.base)
      invariant Represents(store, workers, got, ApplyAll(ops[..i]))
    {
      assert ops[..i + 1][..i] == ops[..i];
      workers, got := DoOp(store, workers, got, ApplyAll(ops[..i]), ops[i]);
    }
    assert ops[..|ops|] == ops;
    seen := ReadAll(got, ApplyAll(ops).seen);
  }

  /** The sharing is real: appending to the copy SaveState and GetState
      make of an empty slice would overwrite the result the worker has appended meanwhile. */
  method AppendToEmptyReadLeaks(h: State, x: TestResult, y: TestResult) returns (worker: Snapshot)
    ensures worker == Snapshot(h, [y])
  {
    var cells := new TestResult[1](_ => x);
    var r := new Record(h, Slice(cells, 0));
    var saved := CopyRecord(r);
    var copy := CopyRecord(saved);
    r.Append(x);
    assert r.Value() == Snapshot(h, [x]);
    copy.Append(y);
    assert cells[0] == Cells(copy.results)[0];
    worker := r.Read();
  }
}
