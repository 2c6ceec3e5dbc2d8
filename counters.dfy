/**
 * The per-key counter of `createCounter` (src/app.jsx): a closure owning a
 * string-to-number dictionary, updated in place on every call. The module
 * gives the value-level step (`Step`), a run of several calls (`Run`) with its
 * properties, and the class `Counter` whose method `Next` is the closure.
 */
module Counters {
  import opened Wrappers

  /** The closure's `_counter` dictionary: key -> last value handed out for it. */
  type Table = map<string, nat>

  /** Every stored value was handed out by the counter, so it is at least 1
      (and therefore truthy, which is what the closure tests). */
  predicate WellFormed(t: Table) {
    forall k :: k in t ==> t[k] >= 1
  }

  /** How many values have been handed out for `id` so far: 0 when absent. */
  function Count(t: Table, id: string): nat {
    if id in t then t[id] else 0
  }

  /** One call of the closure on `id`: the value it returns (`None` for
      `null`) and the table afterwards. The empty string is the only falsy
      string; a stored value is used only when it is truthy (non-zero). */
  function Step(t: Table, id: string): (r: (Option<nat>, Table))
    ensures id == "" ==> r == (None, t)
    ensures id != "" ==> r.0 == Some(Count(t, id) + 1) && r.1 == t[id := Count(t, id) + 1]
    ensures t.Keys <= r.1.Keys
    ensures forall k :: k != id ==> Count(r.1, k) == Count(t, k)
    ensures WellFormed(t) ==> WellFormed(r.1)
  {
    if id == "" then (None, t)
    else if id in t && t[id] != 0 then (Some(t[id] + 1), t[id := t[id] + 1])
    else (Some(1), t[id := 1])
  }

  /** Number of calls on `id` in the call sequence `ids`. */
  function Occurrences(ids: seq<string>, id: string): (n: nat)
    ensures n <= |ids|
  {
    if ids == [] then 0
    else Occurrences(ids[..|ids| - 1], id) + (if ids[|ids| - 1] == id then 1 else 0)
  }

  /** `n` calls on the same key. */
  function Repeat(id: string, n: nat): (s: seq<string>)
    ensures |s| == n && forall j :: 0 <= j < n ==> s[j] == id
  {
    seq(n, _ => id)
  }

  /** The calls `ids`, made one after the other on table `t`: the values
      returned, in order, and the final table. */
  function Run(t: Table, ids: seq<string>): (r: (seq<Option<nat>>, Table))
    ensures |r.0| == |ids|
  {
    if ids == [] then ([], t)
    else
      var (rs, t1) := Run(t, ids[..|ids| - 1]);
      var (x, t2) := Step(t1, ids[|ids| - 1]);
      (rs + [x], t2)
  }

  /** After a run, the count for every non-empty key has grown by exactly the
      number of calls made on it (so keys not called are unchanged). */
  lemma {:induction false} RunCounts(t: Table, ids: seq<string>, id: string)
    requires id != ""
    ensures Count(Run(t, ids).1, id) == Count(t, id) + Occurrences(ids, id)
  {
    if ids != [] {
      RunCounts(t, ids[..|ids| - 1], id);
    }
  }

  /** No entry is ever removed, the empty key is never stored, and the
      table stays well formed. */
  lemma {:induction false} RunKeepsEntries(t: Table, ids: seq<string>)
    ensures t.Keys <= Run(t, ids).1.Keys
    ensures "" in Run(t, ids).1 <==> "" in t
    ensures WellFormed(t) ==> WellFormed(Run(t, ids).1)
  {
    if ids != [] {
      RunKeepsEntries(t, ids[..|ids| - 1]);
    }
  }

  /** The values returned by the first `j` calls do not depend on later calls. */
  lemma {:induction false} RunPrefix(t: Table, ids: seq<string>, j: nat)
    requires j <= |ids|
    ensures Run(t, ids[..j]).0 == Run(t, ids).0[..j]
  {
    if j < |ids| {
      var init := ids[..|ids| - 1];
      RunPrefix(t, init, j);
      assert init[..j] == ids[..j];
    } else {
      assert ids[..j] == ids;
    }
  }

  /** The value returned by call number `j`: `null` for the empty key,
      otherwise one more than the key's count before the run plus the calls
      on the same key made earlier in the run. */
  lemma {:induction false} RunAt(t: Table, ids: seq<string>, j: nat)
    requires j < |ids|
    ensures Run(t, ids).0[j] ==
      if ids[j] == "" then None else Some(Count(t, ids[j]) + Occurrences(ids[..j], ids[j]) + 1)
  {
    RunPrefix(t, ids, j + 1);
    var pre := ids[..j + 1];
    assert pre[..|pre| - 1] == ids[..j];
    var before := Run(t, ids[..j]).1;
    var x := Step(before, ids[j]).0;
    assert Run(t, pre).0 == Run(t, ids[..j]).0 + [x];
    assert Run(t, ids).0[j] == x by {
      assert Run(t, ids).0[..j + 1][j] == Run(t, pre).0[j];
    }
    if ids[j] != "" {
      RunCounts(t, ids[..j], ids[j]);
    }
  }

  lemma {:induction false} OccurrencesOfRepeat(id: string, n: nat)
    ensures Occurrences(Repeat(id, n), id) == n
  {
    if n > 0 {
      assert Repeat(id, n)[..n - 1] == Repeat(id, n - 1);
      OccurrencesOfRepeat(id, n - 1);
    }
  }

  /** `n` calls on a non-empty key return the next `n` numbers in order; on a
      fresh table that is 1, 2, ..., n. */
  lemma RepeatedCalls(t: Table, id: string, n: nat)
    requires id != ""
    ensures forall j :: 0 <= j < n ==> Run(t, Repeat(id, n)).0[j] == Some(Count(t, id) + j + 1)
  {
    forall j | 0 <= j < n
      ensures Run(t, Repeat(id, n)).0[j] == Some(Count(t, id) + j + 1)
    {
      RunAt(t, Repeat(id, n), j);
      assert Repeat(id, n)[..j] == Repeat(id, j);
      OccurrencesOfRepeat(id, j);
    }
  }

  /** The closure returned by `createCounter`, with its dictionary as a field. */
  class Counter {
    var table: Table

    /** `createCounter()`: a fresh, empty dictionary. */
    constructor ()
      ensures table == map[]
    {
      table := map[];
    }

    /** Calling the closure with `id`. */
    method Next(id: string) returns (r: Option<nat>)
      modifies this
      ensures (r, table) == Step(old(table), id)
    {
      if id == "" {
        return None;
      }
      if id in table && table[id] != 0 {
        table := table[id := table[id] + 1];
      } else {
        table := table[id := 1];
      }
      r := Some(table[id]);
    }
  }
}
