/** The main loop of `create_dataset.py`: each iteration simulates `RECORDS` transactions with
    consecutive unique ids, flattens their paths into one list of lines, reads each line's time
    back from its third comma-separated field and sorts the lines by that time. */
module Batch {
  import opened Wrappers
  import opened Text
  import Probabilities
  import opened Draws
  import opened Topology
  import opened Log
  import opened Hops
  import opened Traversal
  import Transaction

  const Records: nat := 1000
  const Iterations: nat := 10

  /** The unique ids of iteration `i`: `i * RECORDS + j + 1` for `j` in `range(RECORDS)`. */
  function TaskIds(i: nat): seq<nat> {
    seq(Records, j requires 0 <= j < Records => i * Records + j + 1)
  }

  /** The ids of iteration `i` are exactly `i * RECORDS + 1 .. (i + 1) * RECORDS`, in
      increasing order. */
  lemma TaskIdsRange(i: nat)
    ensures |TaskIds(i)| == Records
    ensures forall j :: 0 <= j < Records ==> i * Records < TaskIds(i)[j] <= (i + 1) * Records
    ensures forall j, k :: 0 <= j < k < Records ==> TaskIds(i)[j] < TaskIds(i)[k]
    ensures forall u :: i * Records < u <= (i + 1) * Records ==> u in TaskIds(i)
  {
    forall u | i * Records < u <= (i + 1) * Records
      ensures u in TaskIds(i)
    {
      assert TaskIds(i)[u - i * Records - 1] == u;
    }
  }

  /** Two iterations never share an id. */
  lemma TaskIdsDisjoint(i: nat, k: nat)
    requires i != k
    ensures forall u :: u in TaskIds(i) ==> u !in TaskIds(k)
  {
  }

  /** Every id of the ten iterations is written with exactly ten digits and reads back as
      itself. */
  lemma TaskIdFormat(i: nat, j: nat)
    requires i < Iterations && j < Records
    ensures |FormatId(TaskIds(i)[j])| == 10 && AllDigits(FormatId(TaskIds(i)[j]))
    ensures ParseInt(FormatId(TaskIds(i)[j])) == Some(TaskIds(i)[j])
  {
    TaskIdsRange(i);
    assert Pow10(10) == 10000000000;
    FormatIdRoundTrip(TaskIds(i)[j]);
  }

  /** The paths of iteration `i`, one per task, in task order: `pool.starmap` over the tasks,
      each transaction with its own tape. */
  function Paths(tapes: nat -> Tape, probs: Probabilities.Table, i: nat): seq<seq<string>> {
    seq(Records, j requires 0 <= j < Records =>
      var uid := TaskIds(i)[j]; Render(Simulate(tapes(uid), probs, uid).log))
  }

  /** `[item for sublist in results for item in sublist]`. */
  function Flatten<T>(results: seq<seq<T>>): seq<T> {
    if results == [] then []
    else Flatten(results[..|results| - 1]) + results[|results| - 1]
  }

  /** A line is in the flattened list exactly when it is in one of the sublists. */
  lemma {:induction false} FlattenMembers<T>(results: seq<seq<T>>, line: T)
    ensures line in Flatten(results) <==> exists k :: 0 <= k < |results| && line in results[k]
  {
    if results != [] {
      var init := results[..|results| - 1];
      FlattenMembers(init, line);
      if line in Flatten(init) {
        var k :| 0 <= k < |init| && line in init[k];
        assert results[k] == init[k];
      }
      if exists k :: 0 <= k < |results| && line in results[k] {
        var k :| 0 <= k < |results| && line in results[k];
        if k < |init| {
          assert init[k] == results[k];
        }
      }
    }
  }

  /** `int(x.split(',')[2].strip())`: the integer in the third comma-separated field; None
      where Python raises (no third field, or not an integer). */
  function TimeKey(line: string): Option<int> {
    var parts := SplitOn(line, ',');
    if |parts| < 3 then None else ParseInt(Strip(parts[2]))
  }

  /** Four fields joined by ", " split at each comma into the first field and the others,
      each with its leading space. */
  lemma CommaFields(a: string, b: string, c: string, d: string)
    ensures a + ", " + b + ", " + c + ", " + d == a + [','] + ((" " + b) + [','] + ((" " + c) + [','] + (" " + d)))
  {
  }

  /** The time read back from a formatted entry is the time that was written, as long as its
      two ends hold no comma. */
  lemma TimeKeyOfFormat(e: Entry)
    requires CommaFree(e.src) && CommaFree(e.dst)
    ensures TimeKey(Format(e)) == Some(e.time)
  {
    var t := IntToString(e.time);
    IntToStringPlain(e.time);
    var d := KindName(e.kind) + ", " + e.id + ">";
    var a1 := "<" + e.src;
    var a2 := " " + e.dst;
    var a3 := " " + t;
    var rest := " " + d;
    var rest2 := a3 + [','] + rest;
    var rest1 := a2 + [','] + rest2;
    assert Format(e) == a1 + ", " + e.dst + ", " + t + ", " + d;
    CommaFields(a1, e.dst, t, d);
    assert ',' !in a1 && ',' !in a2 && ',' !in a3;
    SplitOnHead(a1, ',', rest1);
    SplitOnHead(a2, ',', rest2);
    SplitOnHead(a3, ',', rest);
    StripPadded(t);
    IntToStringRoundTrip(e.time);
  }

  /** Every line of a well-formed path carries its entry's time in its third field. */
  lemma RenderedTimes(st: State)
    requires WellFormed(st)
    ensures forall m :: 0 <= m < |st.log| ==> TimeKey(Render(st.log)[m]) == Some(st.log[m].time)
  {
    forall m | 0 <= m < |st.log|
      ensures TimeKey(Render(st.log)[m]) == Some(st.log[m].time)
    {
      EntryOfTransaction(st, m);
      TimeKeyOfFormat(st.log[m]);
    }
  }

  /** Every line of a simulated transaction carries its entry's time in its third field. */
  lemma SimulatedTimes(tape: Tape, probs: Probabilities.Table, uid: nat)
    ensures var log := Simulate(tape, probs, uid).log;
      forall m :: 0 <= m < |log| ==> TimeKey(Render(log)[m]) == Some(log[m].time)
    ensures forall line :: line in Render(Simulate(tape, probs, uid).log) ==> TimeKey(line).Some?
  {
    var env := Env(tape, probs, LogName);
    Transaction.RunPath(env, uid);
    RenderedTimes(Run(env, uid));
  }

  /** Every line of every path of an iteration has a time to sort by. */
  lemma PathsParse(tapes: nat -> Tape, probs: Probabilities.Table, i: nat)
    ensures forall line :: line in Flatten(Paths(tapes, probs, i)) ==> TimeKey(line).Some?
  {
    var paths := Paths(tapes, probs, i);
    forall k | 0 <= k < |paths|
      ensures forall line :: line in paths[k] ==> TimeKey(line).Some?
    {
      var uid := TaskIds(i)[k];
      assert paths[k] == Render(Simulate(tapes(uid), probs, uid).log);
      SimulatedTimes(tapes(uid), probs, uid);
    }
    forall line | line in Flatten(paths)
      ensures TimeKey(line).Some?
    {
      FlattenMembers(paths, line);
    }
  }

  /** The sort key of a line: its time, or 0 for a line without one. */
  function KeyOf(line: string): int {
    match TimeKey(line)
    case Some(t) => t
    case None => 0
  }

  predicate SortedBy<T>(s: seq<T>, key: T -> int) {
    forall i, j :: 0 <= i < j < |s| ==> key(s[i]) <= key(s[j])
  }

  predicate SortedByTime(s: seq<string>) {
    SortedBy(s, KeyOf)
  }

  /** Inserts `x` after every element of `sorted` whose key is not greater than its own. */
  method Insert<T>(sorted: seq<T>, x: T, key: T -> int) returns (r: seq<T>)
    requires SortedBy(sorted, key)
    ensures SortedBy(r, key) && multiset(r) == multiset(sorted) + multiset{x}
  {
    var k := |sorted|;
    while k > 0 && key(sorted[k - 1]) > key(x)
      invariant 0 <= k <= |sorted|
      invariant forall j :: k <= j < |sorted| ==> key(sorted[j]) > key(x)
    {
      k := k - 1;
    }
    InsertAt(sorted, k, x, key);
    InsertAtCount(sorted, k, x);
    r := sorted[..k] + [x] + sorted[k..];
  }

  /** Putting `x` at position `k`, after an element whose key is not greater than its own and
      before elements whose keys are all greater, keeps a sorted list sorted and adds exactly
      `x`. */
  lemma InsertAt<T>(s: seq<T>, k: nat, x: T, key: T -> int)
    requires SortedBy(s, key) && k <= |s|
    requires k > 0 ==> key(s[k - 1]) <= key(x)
    requires forall j :: k <= j < |s| ==> key(x) < key(s[j])
    ensures SortedBy(s[..k] + [x] + s[k..], key)
  {
  }

  /** Putting `x` anywhere adds exactly `x`. */
  lemma InsertAtCount<T>(s: seq<T>, k: nat, x: T)
    requires k <= |s|
    ensures multiset(s[..k] + [x] + s[k..]) == multiset(s) + multiset{x}
  {
    assert s == s[..k] + s[k..];
  }

  /** A stable insertion sort by `key`: the elements in ascending order of key. */
  method SortBy<T>(lines: seq<T>, key: T -> int) returns (out: seq<T>)
    ensures SortedBy(out, key) && multiset(out) == multiset(lines)
  {
    out := [];
    for n := 0 to |lines|
      invariant SortedBy(out, key) && multiset(out) == multiset(lines[..n])
    {
      out := Insert(out, lines[n], key);
      assert lines[..n + 1] == lines[..n] + [lines[n]];
    }
    assert lines[..|lines|] == lines;
  }

  /** Flattens the paths, reads every line's time (None where `int()` would raise) and sorts
      the lines by it. */
  method Merge(paths: seq<seq<string>>) returns (out: Option<seq<string>>)
    ensures out.None? <==> exists line :: line in Flatten(paths) && TimeKey(line).None?
    ensures out.Some? ==> SortedByTime(out.value) && multiset(out.value) == multiset(Flatten(paths))
  {
    var flat := Flatten(paths);
    for n := 0 to |flat|
      invariant forall m :: 0 <= m < n ==> TimeKey(flat[m]).Some?
    {
      if TimeKey(flat[n]).None? {
        return None;
      }
    }
    var sorted := SortBy(flat, KeyOf);
    return Some(sorted);
  }

  /** `d` is the dataset of iteration `i`: every line of its transactions, as often as it was
      written, in ascending order of time. */
  predicate IsDataset(tapes: nat -> Tape, probs: Probabilities.Table, i: nat, d: seq<string>) {
    SortedByTime(d) && multiset(d) == multiset(Flatten(Paths(tapes, probs, i)))
  }

  /** Iteration `i` of the main loop: flatten, read the times back and sort. */
  method Dataset(tapes: nat -> Tape, probs: Probabilities.Table, i: nat) returns (out: seq<string>)
    ensures SortedByTime(out) && multiset(out) == multiset(Flatten(Paths(tapes, probs, i)))
  {
    var merged := Merge(Paths(tapes, probs, i));
    PathsParse(tapes, probs, i);
    out := merged.value;
  }

  /** The ten iterations of the main loop, one dataset each. */
  method Datasets(tapes: nat -> Tape, probs: Probabilities.Table) returns (datasets: seq<seq<string>>)
    ensures |datasets| == Iterations
    ensures forall i :: 0 <= i < Iterations ==> IsDataset(tapes, probs, i, datasets[i])
  {
    datasets := [];
    for i := 0 to Iterations
      invariant |datasets| == i
      invariant forall k :: 0 <= k < i ==> IsDataset(tapes, probs, k, datasets[k])
    {
      var d := Dataset(tapes, probs, i);
      datasets := datasets + [d];
    }
  }
}
