/** `server_process`: one hop of a transaction, and the invariant every hop leaves behind. */
module Hops {
  import opened Text
  import opened Log
  import Delays
  import opened Topology
  import opened Draws

  /** The `state` dict of `simulate_process`. The path is kept as structured entries (its text
      is `Render(log)`); `drawn` counts the random draws made so far and `visited` lists the
      handlers entered so far, both for the proofs. */
  datatype State = State(
    id: string,
    log: seq<Entry>,
    pathTimes: seq<int>,
    totalDelay: int,
    loop: bool,
    drawn: nat,
    visited: seq<Server>)

  /** A replica label, `f'{server_name}_{server_number}'`. */
  function Label(name: string, m: int): string {
    name + "_" + IntToString(m)
  }

  /** How many draws one hop makes: delay, jitter and replica, or only the delay when there is
      a single replica. */
  function HopDraws(n: nat): nat {
    if n != 1 then 3 else 1
  }

  /** The bounds on the delay of a hop. With one replica `n / 4` is 0, so one formula covers
      both branches of `server_process`. */
  predicate DelayOk(delay: Delays.DelayClass, n: nat, d: int) {
    Delays.Range(delay).0 + n / 4 <= d <= Delays.Range(delay).1 + 2 * (n / 4)
  }

  /** The two entries of one hop: a Request from `src` sent at `time`, and the Response from
      its destination back to `src` after a delay within the bounds, both for transaction `id`;
      the destination holds no comma. */
  predicate HopPair(req: Entry, resp: Entry, id: string, src: string, time: int,
                    delay: Delays.DelayClass, n: nat) {
    && req.kind == Request && resp.kind == Response
    && req.id == id && resp.id == id
    && req.src == src && req.time == time
    && resp.src == req.dst && resp.dst == req.src
    && DelayOk(delay, n, resp.time - req.time)
    && CommaFree(req.dst)
  }

  /** `server_process(state, name, delay, n)`: draw a delay (plus a jitter and a replica when
      there is more than one), then append a Request from the previous hop to the chosen
      replica, the Response back, and the next clock value. */
  function Hop(tape: Tape, st: State, name: Name, delay: Delays.DelayClass, n: nat): State
    requires |st.pathTimes| > 0 && n >= 1
  {
    Append(st, Label(name, HopReplica(tape, st.drawn + 2, n)),
           st.pathTimes[|st.pathTimes| - 1] + HopDelay(tape, st.drawn, delay, n))
      .(drawn := st.drawn + HopDraws(n))
  }

  /** A hop is the two entries and the clock value its draws produce. */
  lemma HopOfDraws(tape: Tape, st: State, name: Name, delay: Delays.DelayClass, n: nat,
                   time: int, dst: string)
    requires |st.pathTimes| > 0 && n >= 1
    requires time == st.pathTimes[|st.pathTimes| - 1] + HopDelay(tape, st.drawn, delay, n)
    requires dst == Label(name, HopReplica(tape, st.drawn + 2, n))
    ensures Hop(tape, st, name, delay, n) == Append(st, dst, time).(drawn := st.drawn + HopDraws(n))
  {
  }

  /** A hop appends exactly two entries and one clock value and changes nothing else but the
      draw count: a Request from the previous hop at the last clock value to a replica
      `name_m` with `m` in [1, n] (`name_1` when there is one replica), and the Response back
      after a delay within the bounds, both carrying the transaction's id; the next clock value
      is one past the Response. */
  lemma HopFacts(tape: Tape, st: State, name: Name, delay: Delays.DelayClass, n: nat)
    requires |st.pathTimes| > 0 && n >= 1
    ensures var r := Hop(tape, st, name, delay, n);
      && r == st.(log := r.log, pathTimes := r.pathTimes, drawn := st.drawn + HopDraws(n))
      && |r.log| == |st.log| + 2 && r.log[..|st.log|] == st.log
      && r.pathTimes == st.pathTimes + [r.log[|st.log| + 1].time + 1]
      && HopPair(r.log[|st.log|], r.log[|st.log| + 1], st.id, PrevServer(st.log),
                 st.pathTimes[|st.pathTimes| - 1], delay, n)
      && name + "_" <= r.log[|st.log|].dst
      && (n == 1 ==> r.log[|st.log|].dst == Label(name, 1))
      && exists m :: 1 <= m <= n && r.log[|st.log|].dst == Label(name, m)
  {
  }

  /** The lines `server_process` appends once the delay and replica are drawn: a Request from
      the previous hop to `dst` at the last clock value, the Response back at `time`, and the
      clock value one past the Response. */
  function Append(st: State, dst: string, time: int): State
    requires |st.pathTimes| > 0
  {
    var prevTime := st.pathTimes[|st.pathTimes| - 1];
    var prev := PrevServer(st.log);
    st.(log := st.log + [Entry(prev, dst, prevTime, Request, st.id), Entry(dst, prev, time, Response, st.id)],
        pathTimes := st.pathTimes + [time + 1])
  }

  /** The delay of a hop drawn from position `k`: `processing_time` of the delay class, plus
      `randint(1, 2) * (n // 4)` when there is more than one replica. */
  function HopDelay(tape: Tape, k: nat, delay: Delays.DelayClass, n: nat): (d: int)
    ensures DelayOk(delay, n, d)
  {
    var base := RandInt(tape, k, Delays.Range(delay).0, Delays.Range(delay).1);
    if n != 1 then
      var jitter := RandInt(tape, k + 1, 1, 2);
      assert jitter * (n / 4) == if jitter == 1 then n / 4 else 2 * (n / 4);
      base + jitter * (n / 4)
    else
      base
  }

  /** The replica of a hop: `randint(1, n)` drawn from position `k`, or replica 1 without a
      draw when there is a single one. */
  function HopReplica(tape: Tape, k: nat, n: nat): (m: int)
    requires n >= 1
    ensures 1 <= m <= n
  {
    if n != 1 then RandInt(tape, k, 1, n) else 1
  }

  /** Entering a handler: the hop its first line makes, with the handler's own arguments;
      `names` gives the name each handler logs itself under. */
  function Enter(tape: Tape, names: Server -> Name, s: Server, st: State): (r: State)
    requires |st.pathTimes| > 0
    ensures r.id == st.id && r.totalDelay == st.totalDelay && r.loop == st.loop
    ensures r.drawn == st.drawn + HopDraws(Replicas(s)) && r.visited == st.visited + [s]
    ensures |r.pathTimes| > 0 && Prefixed(st, r)
    ensures WellFormed(st) ==> WellFormed(r)
  {
    var r := Hop(tape, st.(visited := st.visited + [s]), names(s), DelayOf(s), Replicas(s));
    HopFacts(tape, st.(visited := st.visited + [s]), names(s), DelayOf(s), Replicas(s));
    if WellFormed(st) then NextSourcePlain(st); Extend(st, r); r else r
  }

  predicate Shaped(st: State) {
    Shape(st.log, st.pathTimes, st.visited)
  }

  predicate Shape(log: seq<Entry>, times: seq<int>, visited: seq<Server>) {
    |log| == 2 * |visited| && |times| == |visited| + 1
  }

  /** The k-th hop of a path: entries 2k and 2k+1 are the pair of the k-th handler entered,
      its Request leaves from where the previous Response came from (or from "user") at the
      k-th clock value, and the next clock value is one past the Response. */
  predicate HopAt(id: string, log: seq<Entry>, times: seq<int>, visited: seq<Server>, k: nat)
    requires Shape(log, times, visited) && k < |visited|
  {
    && HopPair(log[2 * k], log[2 * k + 1], id,
               if k == 0 then "user" else log[2 * k - 1].src, times[k],
               DelayOf(visited[k]), Replicas(visited[k]))
    && times[k + 1] == log[2 * k + 1].time + 1
  }

  predicate HopOk(st: State, k: nat)
    requires Shaped(st) && k < |st.visited|
  {
    HopAt(st.id, st.log, st.pathTimes, st.visited, k)
  }

  /** A path made of well-formed hops, one per handler entered. It depends on the id, the
      entries, the clock values and the visits only. */
  predicate PathOk(id: string, log: seq<Entry>, times: seq<int>, visited: seq<Server>) {
    Shape(log, times, visited) && forall k :: 0 <= k < |visited| ==> HopAt(id, log, times, visited, k)
  }

  predicate WellFormed(st: State) {
    PathOk(st.id, st.log, st.pathTimes, st.visited)
  }

  /** `dst` is one of the replicas of handler `s`: `name_m` for its name and some m in
      [1, n], n being its replica count. */
  predicate IsReplica(names: Server -> Name, s: Server, dst: string) {
    exists m :: 1 <= m <= Replicas(s) && dst == Label(names(s), m)
  }

  /** Every Request goes to a replica of the handler entered. */
  predicate NamesOk(names: Server -> Name, st: State) {
    forall k :: 0 <= k < |st.visited| && 2 * k < |st.log| ==> IsReplica(names, st.visited[k], st.log[2 * k].dst)
  }

  /** Entering a handler sends its Request to one of the handler's replicas. */
  lemma EnterNames(tape: Tape, names: Server -> Name, s: Server, st: State)
    requires |st.pathTimes| > 0 && Shaped(st) && NamesOk(names, st)
    ensures NamesOk(names, Enter(tape, names, s, st))
  {
    var entered := st.(visited := st.visited + [s]);
    HopFacts(tape, entered, names(s), DelayOf(s), Replicas(s));
    var r := Enter(tape, names, s, st);
    assert r == Hop(tape, entered, names(s), DelayOf(s), Replicas(s));
    var n := |st.visited|;
    forall k | 0 <= k < |r.visited| && 2 * k < |r.log|
      ensures IsReplica(names, r.visited[k], r.log[2 * k].dst)
    {
      if k < n {
        assert r.visited[k] == st.visited[k] && r.log[2 * k] == st.log[2 * k];
      } else {
        assert r.visited[k] == s && 2 * k == |st.log|;
      }
    }
  }

  /** `r` extends `st`: same transaction, and the visits, entries and clock values of `st`
      are a prefix of those of `r`. */
  predicate Prefixed(st: State, r: State) {
    && r.id == st.id
    && |st.visited| <= |r.visited| && r.visited[..|st.visited|] == st.visited
    && |st.log| <= |r.log| && r.log[..|st.log|] == st.log
    && |st.pathTimes| <= |r.pathTimes| && r.pathTimes[..|st.pathTimes|] == st.pathTimes
  }

  /** Where the next Request of a well-formed path leaves from. */
  function NextSource(st: State): string {
    if st.log == [] then "user" else st.log[|st.log| - 1].src
  }

  /** The next Request leaves from a comma-free source, so `PrevServer` reads it back. */
  lemma NextSourcePlain(st: State)
    requires WellFormed(st)
    ensures CommaFree(NextSource(st)) && PrevServer(st.log) == NextSource(st)
  {
    if st.log != [] {
      var n := |st.visited|;
      assert HopOk(st, n - 1);
      assert st.log[|st.log| - 1] == st.log[2 * (n - 1) + 1];
    }
  }

  /** A hop extends a well-formed path to a well-formed path: the earlier hops are untouched
      and the new Request leaves from the last Response's source at the last clock value. */
  lemma Extend(st: State, r: State)
    requires WellFormed(st) && Shaped(r) && |r.visited| == |st.visited| + 1 && Prefixed(st, r)
    requires var s := r.visited[|st.visited|];
      HopPair(r.log[|st.log|], r.log[|st.log| + 1], r.id, NextSource(st),
              r.pathTimes[|st.visited|], DelayOf(s), Replicas(s))
    requires r.pathTimes[|st.visited| + 1] == r.log[|st.log| + 1].time + 1
    ensures WellFormed(r)
  {
    OldHopsKept(st, r);
    NewHopOk(st, r);
    forall k | 0 <= k < |r.visited|
      ensures HopAt(r.id, r.log, r.pathTimes, r.visited, k)
    {
      assert HopOk(r, k);
    }
  }

  lemma OldHopsKept(st: State, r: State)
    requires WellFormed(st) && Shaped(r) && Prefixed(st, r)
    ensures forall k :: 0 <= k < |st.visited| ==> HopOk(r, k)
  {
    forall k | 0 <= k < |st.visited|
      ensures HopOk(r, k)
    {
      assert HopOk(st, k);
      assert r.log[2 * k] == st.log[2 * k] && r.log[2 * k + 1] == st.log[2 * k + 1];
      if k > 0 {
        assert r.log[2 * k - 1] == st.log[2 * k - 1];
      }
      assert r.pathTimes[k] == st.pathTimes[k] && r.pathTimes[k + 1] == st.pathTimes[k + 1];
      assert r.visited[k] == st.visited[k];
    }
  }

  lemma NewHopOk(st: State, r: State)
    requires Shaped(st) && Shaped(r) && |r.visited| == |st.visited| + 1 && Prefixed(st, r)
    requires var s := r.visited[|st.visited|];
      HopPair(r.log[|st.log|], r.log[|st.log| + 1], r.id, NextSource(st),
              r.pathTimes[|st.visited|], DelayOf(s), Replicas(s))
    requires r.pathTimes[|st.visited| + 1] == r.log[|st.log| + 1].time + 1
    ensures HopOk(r, |st.visited|)
  {
  }

  /** Each entry of a well-formed path is later than the one before: a Response comes at
      least one tick after its Request, and the next Request one tick after that Response. */
  lemma NextEntryLater(st: State, i: nat)
    requires WellFormed(st) && i + 1 < |st.log|
    ensures st.log[i].time < st.log[i + 1].time
  {
    var k := i / 2;
    assert HopOk(st, k);
    if i % 2 == 1 {
      assert HopOk(st, k + 1);
    }
  }

  /** The times of a well-formed path strictly increase from its first entry to its last. */
  lemma {:induction false} TimesIncrease(st: State, i: nat, j: nat)
    requires WellFormed(st) && i < j < |st.log|
    decreases j - i
    ensures st.log[i].time < st.log[j].time
  {
    NextEntryLater(st, i);
    if i + 1 < j {
      TimesIncrease(st, i + 1, j);
    }
  }

  /** Every entry of a well-formed path carries the transaction id and names its two ends
      without commas; Requests and Responses alternate, starting with a Request. */
  lemma EntryOfTransaction(st: State, i: nat)
    requires WellFormed(st) && i < |st.log|
    ensures st.log[i].id == st.id
    ensures st.log[i].kind == Request <==> i % 2 == 0
    ensures CommaFree(st.log[i].src) && CommaFree(st.log[i].dst)
  {
    var k := i / 2;
    assert HopOk(st, k);
    if k > 0 {
      assert HopOk(st, k - 1);
    }
  }
}
