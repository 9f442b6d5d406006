/**
 * First-Come-First-Served scheduling. The processes run to completion one
 * after the other in input order; the clock starts at 0 and jumps forward to
 * a process's arrival time when the CPU would otherwise be idle.
 */
module Fcfs {
  import opened Records

  /** The clock after the first n processes of ps have run, starting from 0:
      never before the last of them has arrived and run its whole burst, and
      never negative when no burst is. */
  function ClockAfter(ps: seq<Process>, n: nat): (r: int)
    requires n <= |ps|
    ensures n > 0 ==> r >= ps[n - 1].arrivalTime + ps[n - 1].burstTime
    ensures (forall k :: 0 <= k < n ==> ps[k].burstTime >= 0) ==> r >= 0
  {
    if n == 0 then 0
    else Max(ClockAfter(ps, n - 1), ps[n - 1].arrivalTime) + ps[n - 1].burstTime
  }

  /** The clock at which process i gets the CPU. */
  function StartTime(ps: seq<Process>, i: nat): (t: int)
    requires i < |ps|
    ensures t >= ps[i].arrivalTime && t >= ClockAfter(ps, i)
  {
    Max(ClockAfter(ps, i), ps[i].arrivalTime)
  }

  /** Process i as FCFS leaves it: its three metrics are filled in and
      nothing else changes. */
  function Scheduled(ps: seq<Process>, i: nat): (r: Process)
    requires i < |ps|
    ensures r == ps[i].(waitingTime := r.waitingTime,
                        turnaroundTime := r.turnaroundTime,
                        completionTime := r.completionTime)
    ensures r.waitingTime >= 0
    ensures r.turnaroundTime == r.waitingTime + r.burstTime
    ensures r.completionTime == r.arrivalTime + r.turnaroundTime
    ensures r.completionTime >= r.arrivalTime + r.burstTime
    ensures r.completionTime == ClockAfter(ps, i + 1)
  {
    var wait := StartTime(ps, i) - ps[i].arrivalTime;
    ps[i].(waitingTime := wait,
           turnaroundTime := wait + ps[i].burstTime,
           completionTime := StartTime(ps, i) + ps[i].burstTime)
  }

  /** No preemption: each process finishes at the later of its predecessor's
      completion and its own arrival, plus its burst. */
  lemma CompletionRecurrence(ps: seq<Process>, i: nat)
    requires i < |ps|
    ensures Scheduled(ps, i).completionTime
         == Max(if i == 0 then 0 else Scheduled(ps, i - 1).completionTime, ps[i].arrivalTime)
            + ps[i].burstTime
  {
  }

  /** With non-negative bursts the clock never runs backwards. */
  lemma {:induction false} ClockMonotone(ps: seq<Process>, m: nat, n: nat)
    requires m <= n <= |ps|
    requires forall k :: 0 <= k < |ps| ==> ps[k].burstTime >= 0
    ensures ClockAfter(ps, m) <= ClockAfter(ps, n)
  {
    if m < n {
      ClockMonotone(ps, m, n - 1);
    }
  }

  /** Processes are served strictly in input order: with non-negative bursts,
      every process has finished before any later one starts. */
  lemma RunsInInputOrder(ps: seq<Process>, i: nat, j: nat)
    requires i < j < |ps|
    requires forall k :: 0 <= k < |ps| ==> ps[k].burstTime >= 0
    ensures Scheduled(ps, i).completionTime <= StartTime(ps, j)
  {
    ClockMonotone(ps, i + 1, j);
  }

  /** The scheduler: fills in waitingTime, turnaroundTime and completionTime
      of every process, in input order. */
  method Schedule(p: array<Process>)
    modifies p
    ensures forall i :: 0 <= i < p.Length ==> p[i] == Scheduled(old(p[..]), i)
  {
    ghost var ps := p[..];
    var time := 0;
    for i := 0 to p.Length
      invariant time == ClockAfter(ps, i)
      invariant forall k :: 0 <= k < i ==> p[k] == Scheduled(ps, k)
      invariant forall k :: i <= k < p.Length ==> p[k] == ps[k]
    {
      if time < p[i].arrivalTime {
        time := p[i].arrivalTime;
      }
      var wait := time - p[i].arrivalTime;
      time := time + p[i].burstTime;
      p[i] := p[i].(waitingTime := wait,
                    turnaroundTime := wait + p[i].burstTime,
                    completionTime := time);
    }
  }

  /** A four-process example (arrivals 0, 1, 2, 3; bursts 5, 3, 8, 6). */
  method Example() {
    var p := new Process[4];
    p[0] := Process(1, 0, 5, 0, 5, 0, 0, 0);
    p[1] := Process(2, 1, 3, 0, 3, 0, 0, 0);
    p[2] := Process(3, 2, 8, 0, 8, 0, 0, 0);
    p[3] := Process(4, 3, 6, 0, 6, 0, 0, 0);
    Schedule(p);
    assert p[0].completionTime == 5 && p[0].waitingTime == 0;
    assert p[1].completionTime == 8 && p[1].waitingTime == 4;
    assert p[2].completionTime == 16 && p[2].waitingTime == 6;
    assert p[3].completionTime == 22 && p[3].waitingTime == 13;
  }
}
