/**
 * Round-Robin scheduling with a fixed time quantum. The processes are
 * scanned over and over in array order; an unfinished process that has
 * arrived runs for at most one quantum, and a scan that finds nobody to run
 * advances the clock by one idle tick.
 */
module RoundRobin {
  import opened Records

  /** One stretch of CPU time: the process's index, the clock when it
      started and its length. It is ghost bookkeeping of the model: the
      original program only prints the process id of each slice. */
  datatype Slice = Slice(proc: nat, start: int, len: int)

  function End(s: Slice): int {
    s.start + s.len
  }

  /** The CPU time the slices of trace gave to process i. */
  function Served(trace: seq<Slice>, i: nat): int {
    if trace == [] then 0
    else
      var last := trace[|trace| - 1];
      Served(trace[..|trace| - 1], i) + (if last.proc == i then last.len else 0)
  }

  /** The total CPU time of the trace. */
  function Busy(trace: seq<Slice>): int {
    if trace == [] then 0 else Busy(trace[..|trace| - 1]) + trace[|trace| - 1].len
  }

  /** The clock at the end of process i's last slice (0 if it never ran). */
  function Finish(trace: seq<Slice>, i: nat): int {
    if trace == [] then 0
    else if trace[|trace| - 1].proc == i then End(trace[|trace| - 1])
    else Finish(trace[..|trace| - 1], i)
  }

  function RemainingSum(ps: seq<Process>): int {
    if ps == [] then 0 else RemainingSum(ps[..|ps| - 1]) + ps[|ps| - 1].remainingTime
  }

  function BurstSum(ps: seq<Process>): int {
    if ps == [] then 0 else BurstSum(ps[..|ps| - 1]) + ps[|ps| - 1].burstTime
  }

  /** The number of finished processes, those whose remainingTime is 0. */
  function FinishedCount(ps: seq<Process>): (r: nat)
    ensures r <= |ps|
  {
    if ps == [] then 0
    else FinishedCount(ps[..|ps| - 1]) + (if ps[|ps| - 1].remainingTime == 0 then 1 else 0)
  }

  /** The latest arrival time (0 for no processes). */
  function MaxArrival(ps: seq<Process>): (r: int)
    ensures forall i :: 0 <= i < |ps| ==> ps[i].arrivalTime <= r
  {
    if ps == [] then 0 else Max(MaxArrival(ps[..|ps| - 1]), ps[|ps| - 1].arrivalTime)
  }

  /** The slicing rules, for a slice sl that follows the slices of before,
      for processes that started as s0 and quantum tq: sl belongs to a
      process that had arrived when it started, lasts min(remaining, tq)
      where remaining is what the process still needed at that moment, and
      starts no earlier than the previous slice ended. */
  ghost predicate SliceOk(s0: seq<Process>, tq: int, before: seq<Slice>, sl: Slice) {
    sl.proc < |s0|
    && s0[sl.proc].arrivalTime <= sl.start
    && 0 < sl.len
    && sl.len == Min(s0[sl.proc].remainingTime - Served(before, sl.proc), tq)
    && (before != [] ==> End(before[|before| - 1]) <= sl.start)
  }

  /** Every slice of trace follows the slicing rules. */
  ghost predicate WellFormed(s0: seq<Process>, tq: int, trace: seq<Slice>) {
    trace == []
    || (WellFormed(s0, tq, trace[..|trace| - 1]) && SliceOk(s0, tq, trace[..|trace| - 1], trace[|trace| - 1]))
  }

  /** Only the three fields Round-Robin writes may differ. */
  predicate SameInputs(a: Process, b: Process) {
    a.pid == b.pid && a.arrivalTime == b.arrivalTime && a.burstTime == b.burstTime
    && a.priority == b.priority && a.completionTime == b.completionTime
  }

  /** Process p after it ran for exec time units, the slice ending at clock. */
  function AfterSlice(p: Process, exec: int, clock: int): (r: Process)
    ensures SameInputs(r, p) && r.remainingTime == p.remainingTime - exec
  {
    var q := p.(remainingTime := p.remainingTime - exec);
    if q.remainingTime == 0 then
      q.(turnaroundTime := clock - q.arrivalTime,
         waitingTime := clock - q.arrivalTime - q.burstTime)
    else q
  }

  /** The outcome of a stretch of the simulation: the process records, the
      clock and the slices run, in order. */
  datatype Outcome = Outcome(procs: seq<Process>, clock: int, slices: seq<Slice>)

  /** The reference for the rest of one scan, from index i on at clock time:
      the processes are visited in array order, and each one that is
      unfinished and has arrived when its turn comes runs for
      min(remainingTime, tq). The slices run back to back, in increasing
      index order, and every process that was eligible when the scan reached
      index i is served in it. */
  function ScanFrom(s: seq<Process>, tq: int, i: nat, time: int): (r: Outcome)
    requires tq > 0 && i <= |s|
    ensures |r.procs| == |s| && r.clock >= time
    decreases |s| - i
  {
    if i == |s| then Outcome(s, time, [])
    else if s[i].remainingTime > 0 && s[i].arrivalTime <= time then
      var exec := Min(s[i].remainingTime, tq);
      var rest := ScanFrom(s[i := AfterSlice(s[i], exec, time + exec)], tq, i + 1, time + exec);
      Outcome(rest.procs, rest.clock, [Slice(i, time, exec)] + rest.slices)
    else ScanFrom(s, tq, i + 1, time)
  }

  /** A scan changes only the fields Round-Robin writes, never raises a
      remainingTime or makes one negative, leaves the processes before index
      i alone, and when it runs nothing it changes nothing and nobody from
      index i on could have run. */
  lemma {:induction false} ScanFromKeeps(s: seq<Process>, tq: int, i: nat, time: int)
    requires tq > 0 && i <= |s|
    ensures var r := ScanFrom(s, tq, i, time);
      (forall k :: 0 <= k < |s| ==>
        SameInputs(r.procs[k], s[k]) && r.procs[k].remainingTime <= s[k].remainingTime
        && (s[k].remainingTime >= 0 ==> r.procs[k].remainingTime >= 0))
      && (forall k :: 0 <= k < i ==> r.procs[k] == s[k])
      && (r.slices == [] ==>
            r.procs == s && r.clock == time
            && forall k :: i <= k < |s| ==> !(s[k].remainingTime > 0 && s[k].arrivalTime <= time))
    decreases |s| - i
  {
    if i < |s| {
      if s[i].remainingTime > 0 && s[i].arrivalTime <= time {
        var exec := Min(s[i].remainingTime, tq);
        ScanFromKeeps(s[i := AfterSlice(s[i], exec, time + exec)], tq, i + 1, time + exec);
      } else {
        ScanFromKeeps(s, tq, i + 1, time);
      }
    }
  }

  /** The slices of a scan run back to back from the clock the scan starts
      at, in strictly increasing index order, each for a positive time. */
  lemma {:induction false} ScanFromOrder(s: seq<Process>, tq: int, i: nat, time: int)
    requires tq > 0 && i <= |s|
    ensures var r := ScanFrom(s, tq, i, time);
      (r.slices == [] ==> r.clock == time)
      && (r.slices != [] ==> r.slices[0].start == time && End(r.slices[|r.slices| - 1]) == r.clock)
      && (forall m :: 0 <= m < |r.slices| ==> i <= r.slices[m].proc < |s| && r.slices[m].len > 0)
      && (forall m :: 0 < m < |r.slices| ==>
            r.slices[m].start == End(r.slices[m - 1]) && r.slices[m - 1].proc < r.slices[m].proc)
    decreases |s| - i
  {
    if i < |s| {
      if s[i].remainingTime > 0 && s[i].arrivalTime <= time {
        var exec := Min(s[i].remainingTime, tq);
        var sl := Slice(i, time, exec);
        var rest := ScanFrom(s[i := AfterSlice(s[i], exec, time + exec)], tq, i + 1, time + exec);
        ScanFromOrder(s[i := AfterSlice(s[i], exec, time + exec)], tq, i + 1, time + exec);
        var slices := [sl] + rest.slices;
        assert ScanFrom(s, tq, i, time) == Outcome(rest.procs, rest.clock, slices);
        assert rest.slices == [] ==> rest.clock == time + exec;
        forall m | 0 < m < |slices|
          ensures slices[m].start == End(slices[m - 1]) && slices[m - 1].proc < slices[m].proc
        {
          assert slices[m] == rest.slices[m - 1];
          if m > 1 {
            assert slices[m - 1] == rest.slices[m - 2];
          }
        }
      } else {
        ScanFromOrder(s, tq, i + 1, time);
      }
    }
  }

  /** Nobody eligible is skipped: every process that is unfinished and has
      arrived when the scan reaches index i gets a slice in it. */
  lemma {:induction false} ScanFromServesEligible(s: seq<Process>, tq: int, i: nat, time: int, k: nat)
    requires tq > 0 && i <= k < |s|
    requires s[k].remainingTime > 0 && s[k].arrivalTime <= time
    ensures exists m :: 0 <= m < |ScanFrom(s, tq, i, time).slices| && ScanFrom(s, tq, i, time).slices[m].proc == k
    decreases |s| - i
  {
    var r := ScanFrom(s, tq, i, time);
    if s[i].remainingTime > 0 && s[i].arrivalTime <= time {
      var exec := Min(s[i].remainingTime, tq);
      var s' := s[i := AfterSlice(s[i], exec, time + exec)];
      if k == i {
        assert r.slices[0].proc == k;
      } else {
        ScanFromServesEligible(s', tq, i + 1, time + exec, k);
        var m :| 0 <= m < |ScanFrom(s', tq, i + 1, time + exec).slices|
                 && ScanFrom(s', tq, i + 1, time + exec).slices[m].proc == k;
        assert r.slices[m + 1].proc == k;
      }
    } else {
      ScanFromServesEligible(s, tq, i + 1, time, k);
    }
  }

  /** One step of a scan: the process at index i runs one slice if it is
      eligible, and the scan goes on from index i + 1. */
  lemma ScanFromStep(s: seq<Process>, tq: int, i: nat, time: int)
    requires tq > 0 && i < |s|
    ensures s[i].remainingTime > 0 && s[i].arrivalTime <= time ==>
      var exec := Min(s[i].remainingTime, tq);
      var rest := ScanFrom(s[i := AfterSlice(s[i], exec, time + exec)], tq, i + 1, time + exec);
      ScanFrom(s, tq, i, time) == Outcome(rest.procs, rest.clock, [Slice(i, time, exec)] + rest.slices)
    ensures !(s[i].remainingTime > 0 && s[i].arrivalTime <= time) ==>
      ScanFrom(s, tq, i, time) == ScanFrom(s, tq, i + 1, time)
  {
  }

  /** A scan that runs some slice lowers the sum of remaining times. */
  lemma {:induction false} ScanFromProgress(s: seq<Process>, tq: int, i: nat, time: int)
    requires tq > 0 && i <= |s|
    ensures ScanFrom(s, tq, i, time).slices != [] ==>
      RemainingSum(ScanFrom(s, tq, i, time).procs) < RemainingSum(s)
    decreases |s| - i
  {
    if i < |s| {
      if s[i].remainingTime > 0 && s[i].arrivalTime <= time {
        var exec := Min(s[i].remainingTime, tq);
        var s' := s[i := AfterSlice(s[i], exec, time + exec)];
        RemainingSumUpdate(s, i, s'[i]);
        ScanFromProgress(s', tq, i + 1, time + exec);
        ScanFromKeeps(s', tq, i + 1, time + exec);
      } else {
        ScanFromProgress(s, tq, i + 1, time);
      }
    }
  }

  /** While some process is unfinished but none can run, the clock is
      before the latest arrival. */
  lemma Waiting(s: seq<Process>, time: int)
    requires FinishedCount(s) < |s|
    requires forall k :: 0 <= k < |s| ==> s[k].remainingTime >= 0
    requires forall k :: 0 <= k < |s| ==> !(s[k].remainingTime > 0 && s[k].arrivalTime <= time)
    ensures time < MaxArrival(s)
  {
    var k := Unfinished(s);
  }

  /** One pass of the original outer loop from records s at clock time,
      while some process is unfinished: a scan, then an idle tick if the
      scan ran nothing. Each round either lowers the sum of remaining times
      or only moves the clock forward towards the latest arrival, which is
      why the loop ends. */
  function NextRound(s: seq<Process>, tq: int, time: int): (r: Outcome)
    requires tq > 0 && forall k :: 0 <= k < |s| ==> s[k].remainingTime >= 0
    requires FinishedCount(s) < |s|
    ensures |r.procs| == |s|
    ensures forall k :: 0 <= k < |s| ==> r.procs[k].remainingTime >= 0 && SameInputs(r.procs[k], s[k])
    ensures (r.slices != [] && 0 <= RemainingSum(r.procs) < RemainingSum(s))
         || (r.slices == [] && r.procs == s && time < r.clock <= MaxArrival(s))
    ensures r.slices == [] ==> r.clock == time + 1
  {
    var sc := ScanFrom(s, tq, 0, time);
    ScanFromKeeps(s, tq, 0, time);
    ScanFromProgress(s, tq, 0, time);
    RemainingSumNonNegative(sc.procs);
    if sc.slices == [] then
      Waiting(s, time);
      Outcome(sc.procs, sc.clock + 1, sc.slices)
    else
      Outcome(sc.procs, sc.clock, sc.slices)
  }

  /** The reference for the whole simulation from records s at clock time:
      rounds run while some process is unfinished, and the slices of all
      rounds follow each other. Every process ends with remainingTime 0. */
  function Run(s: seq<Process>, tq: int, time: int): (r: Outcome)
    requires tq > 0 && forall k :: 0 <= k < |s| ==> s[k].remainingTime >= 0
    ensures |r.procs| == |s|
    ensures forall k :: 0 <= k < |s| ==> r.procs[k].remainingTime == 0 && SameInputs(r.procs[k], s[k])
    decreases RemainingSum(s), MaxArrival(s) - time
  {
    if FinishedCount(s) == |s| then
      FinishedCountFull(s);
      Outcome(s, time, [])
    else
      var n := NextRound(s, tq, time);
      var rest := Run(n.procs, tq, n.clock);
      Outcome(rest.procs, rest.clock, n.slices + rest.slices)
  }

  /** Run from unfinished records is one round followed by Run from the
      round's outcome, with the slices of the round ahead of the rest after
      any earlier trace. */
  lemma RunUnfold(s: seq<Process>, tq: int, time: int, trace: seq<Slice>, n: Outcome)
    requires tq > 0 && forall k :: 0 <= k < |s| ==> s[k].remainingTime >= 0
    requires FinishedCount(s) < |s| && n == NextRound(s, tq, time)
    ensures Run(s, tq, time).procs == Run(n.procs, tq, n.clock).procs
    ensures trace + Run(s, tq, time).slices == (trace + n.slices) + Run(n.procs, tq, n.clock).slices
  {
    AppendAssoc(trace, n.slices, Run(n.procs, tq, n.clock).slices);
  }

  /** Process record r is what the slices of trace make of the record p0
      it started as. */
  ghost predicate Matches(p0: Process, r: Process, trace: seq<Slice>, i: nat) {
    SameInputs(r, p0)
    && 0 <= r.remainingTime == p0.remainingTime - Served(trace, i)
    && (if r.remainingTime == 0 then
          r.turnaroundTime == Finish(trace, i) - r.arrivalTime
          && r.waitingTime == r.turnaroundTime - r.burstTime
        else r.turnaroundTime == p0.turnaroundTime && r.waitingTime == p0.waitingTime)
  }

  /** The invariant of the simulation: s is the state reached from s0 by the
      slices of trace, and the clock is past all of them. */
  ghost predicate Consistent(s0: seq<Process>, s: seq<Process>, tq: int, trace: seq<Slice>, time: int) {
    |s| == |s0|
    && WellFormed(s0, tq, trace)
    && (trace != [] ==> End(trace[|trace| - 1]) <= time)
    && (forall i :: 0 <= i < |s| ==> s0[i].remainingTime > 0)
    && (forall i {:trigger Matches(s0[i], s[i], trace, i)} :: 0 <= i < |s| ==> Matches(s0[i], s[i], trace, i))
    && Busy(trace) == RemainingSum(s0) - RemainingSum(s)
  }

  lemma PrefixUpdate(s: seq<Process>, i: nat, p: Process)
    requires i < |s| - 1
    ensures s[i := p][..|s| - 1] == s[..|s| - 1][i := p]
  {
  }

  lemma {:induction false} RemainingSumUpdate(s: seq<Process>, i: nat, p: Process)
    requires i < |s|
    ensures RemainingSum(s[i := p]) == RemainingSum(s) - s[i].remainingTime + p.remainingTime
  {
    if i < |s| - 1 {
      PrefixUpdate(s, i, p);
      RemainingSumUpdate(s[..|s| - 1], i, p);
    } else {
      assert s[i := p][..|s| - 1] == s[..|s| - 1];
    }
  }

  lemma {:induction false} FinishedCountUpdate(s: seq<Process>, i: nat, p: Process)
    requires i < |s|
    ensures FinishedCount(s[i := p])
         == FinishedCount(s) - (if s[i].remainingTime == 0 then 1 else 0)
            + (if p.remainingTime == 0 then 1 else 0)
  {
    if i < |s| - 1 {
      PrefixUpdate(s, i, p);
      FinishedCountUpdate(s[..|s| - 1], i, p);
    } else {
      assert s[i := p][..|s| - 1] == s[..|s| - 1];
    }
  }

  /** All remaining times are non-negative, so their sum is too. */
  lemma {:induction false} RemainingSumNonNegative(s: seq<Process>)
    requires forall i :: 0 <= i < |s| ==> s[i].remainingTime >= 0
    ensures RemainingSum(s) >= 0
    ensures RemainingSum(s) == 0 <==> forall i :: 0 <= i < |s| ==> s[i].remainingTime == 0
  {
    if s != [] {
      RemainingSumNonNegative(s[..|s| - 1]);
    }
  }

  /** FinishedCount really counts the finished processes: it reaches |s|
      exactly when every process has finished. */
  lemma {:induction false} FinishedCountFull(s: seq<Process>)
    ensures FinishedCount(s) == |s| <==> forall i :: 0 <= i < |s| ==> s[i].remainingTime == 0
    ensures FinishedCount(s) == 0 <==> forall i :: 0 <= i < |s| ==> s[i].remainingTime != 0
  {
    if s != [] {
      FinishedCountFull(s[..|s| - 1]);
    }
  }

  /** Some process is unfinished while fewer than all are counted. */
  lemma Unfinished(s: seq<Process>) returns (k: nat)
    requires FinishedCount(s) < |s|
    ensures k < |s| && s[k].remainingTime != 0
  {
    FinishedCountFull(s);
    k :| 0 <= k < |s| && s[k].remainingTime != 0;
  }

  lemma {:induction false} SumsAgree(s: seq<Process>)
    requires forall i :: 0 <= i < |s| ==> s[i].remainingTime == s[i].burstTime
    ensures RemainingSum(s) == BurstSum(s)
  {
    if s != [] {
      SumsAgree(s[..|s| - 1]);
    }
  }

  /** How appending a slice changes the per-process totals and last ends. */
  lemma AppendSlice(trace: seq<Slice>, sl: Slice, j: nat)
    ensures Served(trace + [sl], j) == Served(trace, j) + (if sl.proc == j then sl.len else 0)
    ensures Finish(trace + [sl], j) == if sl.proc == j then End(sl) else Finish(trace, j)
    ensures Busy(trace + [sl]) == Busy(trace) + sl.len
  {
    assert (trace + [sl])[..|trace|] == trace;
  }

  /** Running one slice of process i keeps its record matched to the trace. */
  lemma MatchesAfterSlice(p0: Process, r: Process, trace: seq<Slice>, i: nat, time: int, exec: int)
    requires Matches(p0, r, trace, i) && 0 < exec <= r.remainingTime
    ensures Matches(p0, AfterSlice(r, exec, time + exec), trace + [Slice(i, time, exec)], i)
  {
    AppendSlice(trace, Slice(i, time, exec), i);
  }

  /** A slice of process i leaves the other records matched to the trace. */
  lemma MatchesOtherSlice(p0: Process, r: Process, trace: seq<Slice>, j: nat, sl: Slice)
    requires Matches(p0, r, trace, j) && sl.proc != j
    ensures Matches(p0, r, trace + [sl], j)
  {
    AppendSlice(trace, sl, j);
  }

  /** Running one slice of process i at clock time keeps the invariant. */
  lemma SliceStep(s0: seq<Process>, s: seq<Process>, tq: int, trace: seq<Slice>, time: int, i: nat, exec: int)
    requires Consistent(s0, s, tq, trace, time)
    requires tq > 0 && i < |s| && s[i].remainingTime > 0 && s[i].arrivalTime <= time
    requires exec == Min(s[i].remainingTime, tq)
    ensures Consistent(s0, s[i := AfterSlice(s[i], exec, time + exec)], tq, trace + [Slice(i, time, exec)], time + exec)
    ensures RemainingSum(s[i := AfterSlice(s[i], exec, time + exec)]) == RemainingSum(s) - exec
    ensures FinishedCount(s[i := AfterSlice(s[i], exec, time + exec)])
         == FinishedCount(s) + (if s[i].remainingTime == exec then 1 else 0)
  {
    var sl := Slice(i, time, exec);
    var s' := s[i := AfterSlice(s[i], exec, time + exec)];
    var trace' := trace + [sl];
    RemainingSumUpdate(s, i, s'[i]);
    FinishedCountUpdate(s, i, s'[i]);
    assert Matches(s0[i], s[i], trace, i);
    assert SliceOk(s0, tq, trace, sl);
    assert trace'[..|trace|] == trace;
    assert WellFormed(s0, tq, trace');
    AppendSlice(trace, sl, i);
    forall j | 0 <= j < |s|
      ensures Matches(s0[j], s'[j], trace', j)
    {
      if j == i {
        MatchesAfterSlice(s0[i], s[i], trace, i, time, exec);
      } else {
        MatchesOtherSlice(s0[j], s[j], trace, j, sl);
      }
    }
  }

  /** A process's last slice ends at least as many time units after its
      arrival as it was served in all: all its slices start no earlier than
      its arrival and none of them overlap. Its last slice also ends no
      later than the last slice of the whole trace. */
  lemma {:induction false} FinishBound(s0: seq<Process>, tq: int, trace: seq<Slice>, i: nat)
    requires WellFormed(s0, tq, trace) && i < |s0| && Served(trace, i) > 0
    ensures Finish(trace, i) - s0[i].arrivalTime >= Served(trace, i)
    ensures Finish(trace, i) <= End(trace[|trace| - 1])
  {
    var prefix := trace[..|trace| - 1];
    var last := trace[|trace| - 1];
    if Served(prefix, i) > 0 {
      FinishBound(s0, tq, prefix, i);
    }
  }

  /** An idle tick keeps the invariant. */
  lemma IdleTick(s0: seq<Process>, s: seq<Process>, tq: int, trace: seq<Slice>, time: int)
    requires Consistent(s0, s, tq, trace, time)
    ensures Consistent(s0, s, tq, trace, time + 1)
  {
  }

  /** What the invariant gives once every process has finished. */
  lemma AllFinished(s0: seq<Process>, s: seq<Process>, tq: int, trace: seq<Slice>, time: int)
    requires Consistent(s0, s, tq, trace, time)
    requires FinishedCount(s) == |s|
    ensures forall i :: 0 <= i < |s| ==> s[i].remainingTime == 0 && SameInputs(s[i], s0[i])
    ensures forall i :: 0 <= i < |s| ==> Served(trace, i) == s0[i].remainingTime
    ensures forall i :: 0 <= i < |s| ==>
      s[i].turnaroundTime == Finish(trace, i) - s[i].arrivalTime
      && s[i].waitingTime == s[i].turnaroundTime - s[i].burstTime
    ensures Busy(trace) == RemainingSum(s0)
    ensures (forall i :: 0 <= i < |s| ==> s0[i].remainingTime == s0[i].burstTime) ==>
      Busy(trace) == BurstSum(s0) && forall i :: 0 <= i < |s| ==> s[i].waitingTime >= 0
  {
    FinishedCountFull(s);
    assert forall i :: 0 <= i < |s| ==> Matches(s0[i], s[i], trace, i);
    RemainingSumNonNegative(s);
    if forall i :: 0 <= i < |s| ==> s0[i].remainingTime == s0[i].burstTime {
      SumsAgree(s0);
      forall i | 0 <= i < |s| ensures s[i].waitingTime >= 0 {
        assert Matches(s0[i], s[i], trace, i);
        FinishBound(s0, tq, trace, i);
      }
    }
  }

  lemma AppendAssoc(a: seq<Slice>, b: seq<Slice>, c: seq<Slice>)
    ensures (a + b) + c == a + (b + c)
  {
  }

  /** The invariant depends on the state only, not on how it is written. */
  lemma ConsistentTransfer(s0: seq<Process>, s: seq<Process>, tq: int, trace: seq<Slice>, time: int,
                           s': seq<Process>, trace': seq<Slice>, time': int)
    requires Consistent(s0, s, tq, trace, time) && s == s' && trace == trace' && time == time'
    ensures Consistent(s0, s', tq, trace', time')
  {
  }

  /** Consistency after the rest of a scan that began with a slice of i is
      consistency after the whole scan. */
  lemma ScanFromConsistentRun(s0: seq<Process>, s: seq<Process>, tq: int, trace: seq<Slice>, time: int, i: nat)
    requires tq > 0 && i < |s| && s[i].remainingTime > 0 && s[i].arrivalTime <= time
    requires var exec := Min(s[i].remainingTime, tq);
      var rest := ScanFrom(s[i := AfterSlice(s[i], exec, time + exec)], tq, i + 1, time + exec);
      Consistent(s0, rest.procs, tq, (trace + [Slice(i, time, exec)]) + rest.slices, rest.clock)
    ensures var r := ScanFrom(s, tq, i, time);
      Consistent(s0, r.procs, tq, trace + r.slices, r.clock)
  {
    var exec := Min(s[i].remainingTime, tq);
    var sl := Slice(i, time, exec);
    var rest := ScanFrom(s[i := AfterSlice(s[i], exec, time + exec)], tq, i + 1, time + exec);
    var r := ScanFrom(s, tq, i, time);
    ScanFromStep(s, tq, i, time);
    AppendAssoc(trace, [sl], rest.slices);
    ConsistentTransfer(s0, rest.procs, tq, (trace + [sl]) + rest.slices, rest.clock,
                       r.procs, trace + r.slices, r.clock);
  }

  /** Consistency after a scan from i + 1 is consistency after the scan from i
      when i is not eligible. */
  lemma ScanFromConsistentSkip(s0: seq<Process>, s: seq<Process>, tq: int, trace: seq<Slice>, time: int, i: nat)
    requires tq > 0 && i < |s| && !(s[i].remainingTime > 0 && s[i].arrivalTime <= time)
    requires var rest := ScanFrom(s, tq, i + 1, time);
      Consistent(s0, rest.procs, tq, trace + rest.slices, rest.clock)
    ensures var r := ScanFrom(s, tq, i, time);
      Consistent(s0, r.procs, tq, trace + r.slices, r.clock)
  {
    var rest := ScanFrom(s, tq, i + 1, time);
    var r := ScanFrom(s, tq, i, time);
    ScanFromStep(s, tq, i, time);
    ConsistentTransfer(s0, rest.procs, tq, trace + rest.slices, rest.clock,
                       r.procs, trace + r.slices, r.clock);
  }

  /** A scan keeps the invariant: the records it leaves are what its slices,
      appended to the trace, make of the initial records. */
  lemma {:induction false} ScanFromConsistent(s0: seq<Process>, s: seq<Process>, tq: int, trace: seq<Slice>, time: int, i: nat)
    requires tq > 0 && i <= |s| && Consistent(s0, s, tq, trace, time)
    ensures var r := ScanFrom(s, tq, i, time);
      Consistent(s0, r.procs, tq, trace + r.slices, r.clock)
    decreases |s| - i
  {
    if i == |s| {
      var r := ScanFrom(s, tq, i, time);
      ConsistentTransfer(s0, s, tq, trace, time, r.procs, trace + r.slices, r.clock);
    } else if s[i].remainingTime > 0 && s[i].arrivalTime <= time {
      var exec := Min(s[i].remainingTime, tq);
      SliceStep(s0, s, tq, trace, time, i, exec);
      ScanFromConsistent(s0, s[i := AfterSlice(s[i], exec, time + exec)], tq, trace + [Slice(i, time, exec)], time + exec, i + 1);
      ScanFromConsistentRun(s0, s, tq, trace, time, i);
    } else {
      ScanFromConsistent(s0, s, tq, trace, time, i + 1);
      ScanFromConsistentSkip(s0, s, tq, trace, time, i);
    }
  }

  /** One round keeps the invariant. */
  lemma RoundConsistent(s0: seq<Process>, s: seq<Process>, tq: int, trace: seq<Slice>, time: int)
    requires tq > 0 && forall k :: 0 <= k < |s| ==> s[k].remainingTime >= 0
    requires FinishedCount(s) < |s| && Consistent(s0, s, tq, trace, time)
    ensures var n := NextRound(s, tq, time);
      Consistent(s0, n.procs, tq, trace + n.slices, n.clock)
  {
    var sc := ScanFrom(s, tq, 0, time);
    ScanFromConsistent(s0, s, tq, trace, time, 0);
    if sc.slices == [] {
      IdleTick(s0, sc.procs, tq, trace + sc.slices, sc.clock);
    }
  }

  /** The whole simulation keeps the invariant. */
  lemma {:induction false} RunConsistent(s0: seq<Process>, s: seq<Process>, tq: int, trace: seq<Slice>, time: int)
    requires tq > 0 && forall k :: 0 <= k < |s| ==> s[k].remainingTime >= 0
    requires Consistent(s0, s, tq, trace, time)
    ensures var r := Run(s, tq, time);
      Consistent(s0, r.procs, tq, trace + r.slices, r.clock)
    decreases RemainingSum(s), MaxArrival(s) - time
  {
    if FinishedCount(s) == |s| {
      assert trace + [] == trace;
    } else {
      var n := NextRound(s, tq, time);
      RoundConsistent(s0, s, tq, trace, time);
      RunConsistent(s0, n.procs, tq, trace + n.slices, n.clock);
      AppendAssoc(trace, n.slices, Run(n.procs, tq, n.clock).slices);
    }
  }

  /** The invariant holds at the start, with no slices run and clock 0. */
  lemma ConsistentStart(s0: seq<Process>, tq: int)
    requires tq > 0 && forall i :: 0 <= i < |s0| ==> s0[i].remainingTime > 0
    ensures Consistent(s0, s0, tq, [], 0)
  {
    forall i | 0 <= i < |s0| ensures Matches(s0[i], s0[i], [], i) { }
  }

  /** What the simulation from the initial records computes: every process
      finishes having been served exactly its initial remainingTime in
      slices that follow the quantum rule; its turnaroundTime and
      waitingTime come from the end of its last slice; and when
      remainingTime started equal to burstTime, the slices add up to the
      sum of bursts and no waitingTime is negative. */
  lemma RunOutcome(s0: seq<Process>, tq: int)
    requires tq > 0 && forall i :: 0 <= i < |s0| ==> s0[i].remainingTime > 0
    ensures var r := Run(s0, tq, 0);
      WellFormed(s0, tq, r.slices)
      && (forall i :: 0 <= i < |s0| ==> r.procs[i].remainingTime == 0 && SameInputs(r.procs[i], s0[i]))
      && (forall i :: 0 <= i < |s0| ==> Served(r.slices, i) == s0[i].remainingTime)
      && (forall i :: 0 <= i < |s0| ==>
            r.procs[i].turnaroundTime == Finish(r.slices, i) - r.procs[i].arrivalTime
            && r.procs[i].waitingTime == r.procs[i].turnaroundTime - r.procs[i].burstTime)
      && Busy(r.slices) == RemainingSum(s0)
      && ((forall i :: 0 <= i < |s0| ==> s0[i].remainingTime == s0[i].burstTime) ==>
            Busy(r.slices) == BurstSum(s0) && forall i :: 0 <= i < |s0| ==> r.procs[i].waitingTime >= 0)
  {
    var r := Run(s0, tq, 0);
    ConsistentStart(s0, tq);
    RunConsistent(s0, s0, tq, [], 0);
    assert [] + r.slices == r.slices;
    FinishedCountFull(r.procs);
    AllFinished(s0, r.procs, tq, r.slices, r.clock);
  }

  /** Runs process i for one slice: min(remainingTime, tq) time units from
      the current clock, recording its metrics if it finishes. */
  method RunSlice(p: array<Process>, i: nat, tq: int, time0: int, done0: nat) returns (time: int, done: nat)
    requires tq > 0 && i < p.Length && p[i].remainingTime > 0
    requires done0 == FinishedCount(p[..])
    modifies p
    ensures time - time0 == Min(old(p[i].remainingTime), tq) > 0
    ensures p[..] == old(p[..])[i := AfterSlice(old(p[i]), time - time0, time)]
    ensures done == FinishedCount(p[..])
  {
    ghost var s := p[..];
    var execTime := if p[i].remainingTime > tq then tq else p[i].remainingTime;
    time := time0 + execTime;
    done := done0;
    var q := p[i].(remainingTime := p[i].remainingTime - execTime);
    if q.remainingTime == 0 {
      q := q.(turnaroundTime := time - q.arrivalTime);
      q := q.(waitingTime := q.turnaroundTime - q.burstTime);
      done := done + 1;
    }
    p[i] := q;
    assert p[..] == s[i := AfterSlice(s[i], execTime, time)];
    FinishedCountUpdate(s, i, p[i]);
  }

  /** One scan of the process array in fixed order, the body of the
      original outer loop: exactly the scan ScanFrom describes. Returns the
      slices it ran as ghost bookkeeping. */
  method Scan(p: array<Process>, tq: int, time0: int, done0: nat)
    returns (time: int, done: nat, allIdle: bool, ghost slices: seq<Slice>)
    requires tq > 0 && done0 == FinishedCount(p[..])
    modifies p
    ensures var r := ScanFrom(old(p[..]), tq, 0, time0);
      p[..] == r.procs && time == r.clock && slices == r.slices && allIdle == (r.slices == [])
    ensures done == FinishedCount(p[..])
    ensures allIdle ==> forall k :: 0 <= k < p.Length ==> !(p[k].remainingTime > 0 && p[k].arrivalTime <= time)
    ensures forall k :: 0 <= k < p.Length ==> p[k].remainingTime <= old(p[k].remainingTime)
  {
    ghost var r0 := ScanFrom(p[..], tq, 0, time0);
    time, done, allIdle, slices := time0, done0, true, [];
    for i := 0 to p.Length
      invariant ScanFrom(p[..], tq, i, time).procs == r0.procs
      invariant ScanFrom(p[..], tq, i, time).clock == r0.clock
      invariant slices + ScanFrom(p[..], tq, i, time).slices == r0.slices
      invariant allIdle <==> slices == []
      invariant done == FinishedCount(p[..])
    {
      ghost var before, timeBefore, slicesBefore := p[..], time, slices;
      ScanFromStep(before, tq, i, timeBefore);
      if p[i].remainingTime > 0 && p[i].arrivalTime <= time {
        allIdle := false;
        time, done := RunSlice(p, i, tq, time, done);
        slices := slices + [Slice(i, timeBefore, time - timeBefore)];
        ghost var rest := ScanFrom(p[..], tq, i + 1, time);
        assert slices + rest.slices
            == slicesBefore + ScanFrom(before, tq, i, timeBefore).slices;
      }
    }
    ScanFromKeeps(old(p[..]), tq, 0, time0);
  }

  /** One pass of the outer loop: a scan, then one idle tick when nobody
      could run. Exactly the round NextRound describes. */
  method Round(p: array<Process>, tq: int, time0: int, done0: nat) returns (time: int, done: nat, ghost slices: seq<Slice>)
    requires tq > 0 && forall k :: 0 <= k < p.Length ==> p[k].remainingTime >= 0
    requires done0 == FinishedCount(p[..]) && done0 < p.Length
    modifies p
    ensures NextRound(old(p[..]), tq, time0) == Outcome(p[..], time, slices)
    ensures done == FinishedCount(p[..])
  {
    ghost var round := NextRound(p[..], tq, time0);
    var allIdle;
    time, done, allIdle, slices := Scan(p, tq, time0, done0);
    if allIdle {
      time := time + 1;
    }
  }

  /** The outer `while (done < n)` loop: exactly the simulation Run
      describes, from clock 0. Returns the slices it ran as a ghost trace. */
  method Simulate(p: array<Process>, tq: int) returns (ghost trace: seq<Slice>)
    requires tq > 0
    requires forall i :: 0 <= i < p.Length ==> p[i].remainingTime > 0
    modifies p
    ensures p[..] == Run(old(p[..]), tq, 0).procs && trace == Run(old(p[..]), tq, 0).slices
  {
    ghost var r0 := Run(p[..], tq, 0);
    var n := p.Length;
    var time, done := 0, 0;
    trace := [];
    FinishedCountFull(p[..]);
    while done < n
      invariant done == FinishedCount(p[..])
      invariant forall k :: 0 <= k < p.Length ==> p[k].remainingTime >= 0
      invariant Run(p[..], tq, time).procs == r0.procs
      invariant trace + Run(p[..], tq, time).slices == r0.slices
      decreases RemainingSum(p[..]), MaxArrival(p[..]) - time
    {
      ghost var before, timeBefore, traceBefore := p[..], time, trace;
      ghost var slices;
      time, done, slices := Round(p, tq, time, done);
      trace := trace + slices;
      RunUnfold(before, tq, timeBefore, traceBefore, NextRound(before, tq, timeBefore));
    }
    FinishedCountFull(p[..]);
    assert trace == r0.slices;
  }

  /** The scheduler, run on processes whose remainingTime is positive with a
      positive quantum (otherwise the original loop never ends). Every
      process finishes, and its metrics come from its slices. */
  method Schedule(p: array<Process>, tq: int) returns (ghost trace: seq<Slice>)
    requires tq > 0
    requires forall i :: 0 <= i < p.Length ==> p[i].remainingTime > 0
    modifies p
    ensures p[..] == Run(old(p[..]), tq, 0).procs && trace == Run(old(p[..]), tq, 0).slices
    ensures WellFormed(old(p[..]), tq, trace)
    ensures forall i :: 0 <= i < p.Length ==> p[i].remainingTime == 0
    ensures forall i :: 0 <= i < p.Length ==> SameInputs(p[i], old(p[i]))
    ensures forall i :: 0 <= i < p.Length ==> Served(trace, i) == old(p[i].remainingTime)
    ensures forall i :: 0 <= i < p.Length ==>
      p[i].turnaroundTime == Finish(trace, i) - p[i].arrivalTime
      && p[i].waitingTime == p[i].turnaroundTime - p[i].burstTime
    ensures Busy(trace) == RemainingSum(old(p[..]))
    ensures (forall i :: 0 <= i < p.Length ==> old(p[i].remainingTime) == old(p[i].burstTime)) ==>
      Busy(trace) == BurstSum(old(p[..]))
      && forall i :: 0 <= i < p.Length ==> p[i].waitingTime >= 0
  {
    ghost var s0 := p[..];
    trace := Simulate(p, tq);
    RunOutcome(s0, tq);
  }

  /** First round of the four-process example with quantum 4: P1, P2, P3
      and P4 run in that order from clock 0 to 15, and P2 finishes at 7. */
  lemma {:induction false} FirstRoundExample()
    ensures NextRound([Process(1, 0, 5, 0, 5, 0, 0, 0), Process(2, 1, 3, 0, 3, 0, 0, 0),
                       Process(3, 2, 8, 0, 8, 0, 0, 0), Process(4, 3, 6, 0, 6, 0, 0, 0)], 4, 0)
         == Outcome([Process(1, 0, 5, 0, 1, 0, 0, 0), Process(2, 1, 3, 0, 0, 0, 3, 6),
                     Process(3, 2, 8, 0, 4, 0, 0, 0), Process(4, 3, 6, 0, 2, 0, 0, 0)], 15,
                    [Slice(0, 0, 4), Slice(1, 4, 3), Slice(2, 7, 4), Slice(3, 11, 4)])
  {
    var s0 := [Process(1, 0, 5, 0, 5, 0, 0, 0), Process(2, 1, 3, 0, 3, 0, 0, 0),
               Process(3, 2, 8, 0, 8, 0, 0, 0), Process(4, 3, 6, 0, 6, 0, 0, 0)];
    var a1 := [Process(1, 0, 5, 0, 1, 0, 0, 0), Process(2, 1, 3, 0, 3, 0, 0, 0),
               Process(3, 2, 8, 0, 8, 0, 0, 0), Process(4, 3, 6, 0, 6, 0, 0, 0)];
    var a2 := [Process(1, 0, 5, 0, 1, 0, 0, 0), Process(2, 1, 3, 0, 0, 0, 3, 6),
               Process(3, 2, 8, 0, 8, 0, 0, 0), Process(4, 3, 6, 0, 6, 0, 0, 0)];
    var a3 := [Process(1, 0, 5, 0, 1, 0, 0, 0), Process(2, 1, 3, 0, 0, 0, 3, 6),
               Process(3, 2, 8, 0, 4, 0, 0, 0), Process(4, 3, 6, 0, 6, 0, 0, 0)];
    var s1 := [Process(1, 0, 5, 0, 1, 0, 0, 0), Process(2, 1, 3, 0, 0, 0, 3, 6),
               Process(3, 2, 8, 0, 4, 0, 0, 0), Process(4, 3, 6, 0, 2, 0, 0, 0)];
    assert s0[0 := AfterSlice(s0[0], 4, 4)] == a1;
    assert a1[1 := AfterSlice(a1[1], 3, 7)] == a2;
    assert a2[2 := AfterSlice(a2[2], 4, 11)] == a3;
    assert a3[3 := AfterSlice(a3[3], 4, 15)] == s1;
    assert ScanFrom(s1, 4, 4, 15) == Outcome(s1, 15, []);
    assert ScanFrom(a3, 4, 3, 11) == Outcome(s1, 15, [Slice(3, 11, 4)]);
    assert ScanFrom(a2, 4, 2, 7) == Outcome(s1, 15, [Slice(2, 7, 4), Slice(3, 11, 4)]);
    assert ScanFrom(a1, 4, 1, 4) == Outcome(s1, 15, [Slice(1, 4, 3), Slice(2, 7, 4), Slice(3, 11, 4)]);
    assert ScanFrom(s0, 4, 0, 0)
        == Outcome(s1, 15, [Slice(0, 0, 4), Slice(1, 4, 3), Slice(2, 7, 4), Slice(3, 11, 4)]);
    FinishedCountFull(s0);
  }

  /** Second round of the four-process example: P1, P3 and P4 run from
      clock 15 and finish at 16, 20 and 22; P2 is skipped. */
  lemma {:induction false} SecondRoundExample()
    ensures NextRound([Process(1, 0, 5, 0, 1, 0, 0, 0), Process(2, 1, 3, 0, 0, 0, 3, 6),
                       Process(3, 2, 8, 0, 4, 0, 0, 0), Process(4, 3, 6, 0, 2, 0, 0, 0)], 4, 15)
         == Outcome([Process(1, 0, 5, 0, 0, 0, 11, 16), Process(2, 1, 3, 0, 0, 0, 3, 6),
                     Process(3, 2, 8, 0, 0, 0, 10, 18), Process(4, 3, 6, 0, 0, 0, 13, 19)], 22,
                    [Slice(0, 15, 1), Slice(2, 16, 4), Slice(3, 20, 2)])
  {
    var s1 := [Process(1, 0, 5, 0, 1, 0, 0, 0), Process(2, 1, 3, 0, 0, 0, 3, 6),
               Process(3, 2, 8, 0, 4, 0, 0, 0), Process(4, 3, 6, 0, 2, 0, 0, 0)];
    var b1 := [Process(1, 0, 5, 0, 0, 0, 11, 16), Process(2, 1, 3, 0, 0, 0, 3, 6),
               Process(3, 2, 8, 0, 4, 0, 0, 0), Process(4, 3, 6, 0, 2, 0, 0, 0)];
    var b2 := [Process(1, 0, 5, 0, 0, 0, 11, 16), Process(2, 1, 3, 0, 0, 0, 3, 6),
               Process(3, 2, 8, 0, 0, 0, 10, 18), Process(4, 3, 6, 0, 2, 0, 0, 0)];
    var s2 := [Process(1, 0, 5, 0, 0, 0, 11, 16), Process(2, 1, 3, 0, 0, 0, 3, 6),
               Process(3, 2, 8, 0, 0, 0, 10, 18), Process(4, 3, 6, 0, 0, 0, 13, 19)];
    assert s1[0 := AfterSlice(s1[0], 1, 16)] == b1;
    assert b1[2 := AfterSlice(b1[2], 4, 20)] == b2;
    assert b2[3 := AfterSlice(b2[3], 2, 22)] == s2;
    assert ScanFrom(s2, 4, 4, 22) == Outcome(s2, 22, []);
    assert ScanFrom(b2, 4, 3, 20) == Outcome(s2, 22, [Slice(3, 20, 2)]);
    assert ScanFrom(b1, 4, 2, 16) == Outcome(s2, 22, [Slice(2, 16, 4), Slice(3, 20, 2)]);
    assert ScanFrom(b1, 4, 1, 16) == Outcome(s2, 22, [Slice(2, 16, 4), Slice(3, 20, 2)]);
    assert ScanFrom(s1, 4, 0, 15) == Outcome(s2, 22, [Slice(0, 15, 1), Slice(2, 16, 4), Slice(3, 20, 2)]);
    FinishedCountFull(s1);
  }

  /** FinishedCount of four records, one at a time. */
  lemma FinishedCountFour(a: Process, b: Process, c: Process, d: Process)
    ensures FinishedCount([a, b, c, d])
         == (if a.remainingTime == 0 then 1 else 0) + (if b.remainingTime == 0 then 1 else 0)
          + (if c.remainingTime == 0 then 1 else 0) + (if d.remainingTime == 0 then 1 else 0)
  {
    assert [a][..0] == [];
    assert FinishedCount([a]) == (if a.remainingTime == 0 then 1 else 0);
    assert [a, b][..1] == [a];
    assert FinishedCount([a, b]) == FinishedCount([a]) + (if b.remainingTime == 0 then 1 else 0);
    assert [a, b, c][..2] == [a, b];
    assert FinishedCount([a, b, c]) == FinishedCount([a, b]) + (if c.remainingTime == 0 then 1 else 0);
    assert [a, b, c, d][..3] == [a, b, c];
  }

  /** How many processes of the example have finished before each round and
      at the end. */
  lemma {:induction false} FinishedExample()
    ensures FinishedCount([Process(1, 0, 5, 0, 5, 0, 0, 0), Process(2, 1, 3, 0, 3, 0, 0, 0),
                           Process(3, 2, 8, 0, 8, 0, 0, 0), Process(4, 3, 6, 0, 6, 0, 0, 0)]) == 0
    ensures FinishedCount([Process(1, 0, 5, 0, 1, 0, 0, 0), Process(2, 1, 3, 0, 0, 0, 3, 6),
                           Process(3, 2, 8, 0, 4, 0, 0, 0), Process(4, 3, 6, 0, 2, 0, 0, 0)]) == 1
    ensures FinishedCount([Process(1, 0, 5, 0, 0, 0, 11, 16), Process(2, 1, 3, 0, 0, 0, 3, 6),
                           Process(3, 2, 8, 0, 0, 0, 10, 18), Process(4, 3, 6, 0, 0, 0, 13, 19)]) == 4
  {
    FinishedCountFour(Process(1, 0, 5, 0, 5, 0, 0, 0), Process(2, 1, 3, 0, 3, 0, 0, 0),
                      Process(3, 2, 8, 0, 8, 0, 0, 0), Process(4, 3, 6, 0, 6, 0, 0, 0));
    FinishedCountFour(Process(1, 0, 5, 0, 1, 0, 0, 0), Process(2, 1, 3, 0, 0, 0, 3, 6),
                      Process(3, 2, 8, 0, 4, 0, 0, 0), Process(4, 3, 6, 0, 2, 0, 0, 0));
    FinishedCountFour(Process(1, 0, 5, 0, 0, 0, 11, 16), Process(2, 1, 3, 0, 0, 0, 3, 6),
                      Process(3, 2, 8, 0, 0, 0, 10, 18), Process(4, 3, 6, 0, 0, 0, 13, 19));
  }

  /** The whole four-process example with quantum 4: two rounds, ending at
      clock 22, with waiting times 11, 3, 10, 13 and turnaround times 16, 6,
      18, 19. */
  lemma {:induction false} RunExample()
    ensures var r := Run([Process(1, 0, 5, 0, 5, 0, 0, 0), Process(2, 1, 3, 0, 3, 0, 0, 0),
                          Process(3, 2, 8, 0, 8, 0, 0, 0), Process(4, 3, 6, 0, 6, 0, 0, 0)], 4, 0);
      r.slices == [Slice(0, 0, 4), Slice(1, 4, 3), Slice(2, 7, 4), Slice(3, 11, 4),
                   Slice(0, 15, 1), Slice(2, 16, 4), Slice(3, 20, 2)]
      && r.clock == 22
      && r.procs == [Process(1, 0, 5, 0, 0, 0, 11, 16), Process(2, 1, 3, 0, 0, 0, 3, 6),
                     Process(3, 2, 8, 0, 0, 0, 10, 18), Process(4, 3, 6, 0, 0, 0, 13, 19)]
  {
    var s0 := [Process(1, 0, 5, 0, 5, 0, 0, 0), Process(2, 1, 3, 0, 3, 0, 0, 0),
               Process(3, 2, 8, 0, 8, 0, 0, 0), Process(4, 3, 6, 0, 6, 0, 0, 0)];
    var s1 := [Process(1, 0, 5, 0, 1, 0, 0, 0), Process(2, 1, 3, 0, 0, 0, 3, 6),
               Process(3, 2, 8, 0, 4, 0, 0, 0), Process(4, 3, 6, 0, 2, 0, 0, 0)];
    var s2 := [Process(1, 0, 5, 0, 0, 0, 11, 16), Process(2, 1, 3, 0, 0, 0, 3, 6),
               Process(3, 2, 8, 0, 0, 0, 10, 18), Process(4, 3, 6, 0, 0, 0, 13, 19)];
    var sl1 := [Slice(0, 0, 4), Slice(1, 4, 3), Slice(2, 7, 4), Slice(3, 11, 4)];
    var sl2 := [Slice(0, 15, 1), Slice(2, 16, 4), Slice(3, 20, 2)];
    FirstRoundExample();
    SecondRoundExample();
    FinishedExample();
    assert Run(s2, 4, 22) == Outcome(s2, 22, []);
    assert Run(s1, 4, 15) == Outcome(s2, 22, sl2);
    assert Run(s0, 4, 0) == Outcome(s2, 22, sl1 + sl2);
  }

  /** A four-process example (arrivals 0, 1, 2, 3; bursts 5, 3, 8, 6) with a
      quantum of 4: the slices add up to 22, the waiting times are 11, 3,
      10, 13 and the turnaround times 16, 6, 18, 19. */
  method Example() {
    var p := new Process[4];
    p[0] := Process(1, 0, 5, 0, 5, 0, 0, 0);
    p[1] := Process(2, 1, 3, 0, 3, 0, 0, 0);
    p[2] := Process(3, 2, 8, 0, 8, 0, 0, 0);
    p[3] := Process(4, 3, 6, 0, 6, 0, 0, 0);
    assert p[..] == [Process(1, 0, 5, 0, 5, 0, 0, 0), Process(2, 1, 3, 0, 3, 0, 0, 0),
                     Process(3, 2, 8, 0, 8, 0, 0, 0), Process(4, 3, 6, 0, 6, 0, 0, 0)];
    ghost var trace := Schedule(p, 4);
    RunExample();
    assert p[..] == [Process(1, 0, 5, 0, 0, 0, 11, 16), Process(2, 1, 3, 0, 0, 0, 3, 6),
                     Process(3, 2, 8, 0, 0, 0, 10, 18), Process(4, 3, 6, 0, 0, 0, 13, 19)];
    assert p[0].waitingTime == 11 && p[1].waitingTime == 3 && p[2].waitingTime == 10 && p[3].waitingTime == 13;
    assert p[0].turnaroundTime == 16 && p[1].turnaroundTime == 6 && p[2].turnaroundTime == 18 && p[3].turnaroundTime == 19;
    assert trace == [Slice(0, 0, 4), Slice(1, 4, 3), Slice(2, 7, 4), Slice(3, 11, 4),
                     Slice(0, 15, 1), Slice(2, 16, 4), Slice(3, 20, 2)];
  }

}
