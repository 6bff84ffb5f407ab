/** The lease maintenance loop of a worker, against the lease end kept by the database. */
module Heartbeat {
  import opened Wrappers

  /** What the renewal call reported. */
  datatype Answer = Kept | Denied | Failed

  /** One heartbeat: when it fired, when its renewal call returned, what it reported, and when the database
      performed the renewal. A renewal may take effect although its answer is lost. */
  datatype Beat = Beat(tick: int, returned: int, answer: Answer, served: Option<int>)

  /** Why maintenance ended; `Completed` when the task finished before the next heartbeat. */
  datatype Stop = LeaseExpired | RenewalOverdue | OwnershipLost | Completed

  predicate Plausible(b: Beat) {
    && b.tick <= b.returned
    && (b.served.Some? ==> b.tick <= b.served.value)
    && (b.answer.Kept? ==> b.served.Some? && b.served.value <= b.returned)
    && (b.answer.Denied? ==> b.served.None?)
  }

  ghost predicate InOrder(beats: seq<Beat>, from: int) {
    && (forall i :: 0 <= i < |beats| ==> Plausible(beats[i]) && from <= beats[i].tick)
    && (forall i, j :: 0 <= i < j < |beats| ==> beats[i].returned <= beats[j].tick)
  }

  /** The lease end in the database once the first `n` renewals have reached it. */
  ghost function LeaseEnd(beats: seq<Beat>, n: nat, leaseMs: nat, initial: int): int
    requires n <= |beats|
  {
    if n == 0 then initial
    else if beats[n - 1].served.Some? then Max(LeaseEnd(beats, n - 1, leaseMs, initial), beats[n - 1].served.value + leaseMs)
    else LeaseEnd(beats, n - 1, leaseMs, initial)
  }

  function Max(a: int, b: int): int {
    if a < b then b else a
  }

  /** The lease end never moves back. */
  lemma {:induction false} LeaseEndGrows(beats: seq<Beat>, m: nat, n: nat, leaseMs: nat, initial: int)
    requires m <= n <= |beats|
    ensures LeaseEnd(beats, m, leaseMs, initial) <= LeaseEnd(beats, n, leaseMs, initial)
  {
    if m < n {
      LeaseEndGrows(beats, m, n - 1, leaseMs, initial);
    }
  }

  /** `deadline` was set by the last confirmed renewal among the first `used`, or is still the initial one. */
  ghost predicate Confirmed(beats: seq<Beat>, used: nat, leaseMs: nat, initial: int, deadline: int)
    requires used <= |beats|
  {
    || (deadline == initial && forall i :: 0 <= i < used ==> !beats[i].answer.Kept?)
    || exists i :: 0 <= i < used && beats[i].answer.Kept? && deadline == beats[i].tick + leaseMs
                   && forall j :: i < j < used ==> !beats[j].answer.Kept?
  }

  /** `used` heartbeats were answered in time. Whatever ended the loop, it ended no later than the worker's own
      deadline, or at once when the dequeue outlasted the lease; and that deadline never lies beyond the lease end
      the database holds by then. The deadline is the one set by the last renewal that was confirmed. */
  method MaintainLease(beats: seq<Beat>, leaseMs: nat, initialDeadline: int, from: int, ghost initialEnd: int)
    returns (stop: Stop, used: nat, deadline: int, at: int)
    requires InOrder(beats, from) && initialDeadline <= initialEnd && initialDeadline <= from + leaseMs
    ensures used <= |beats| && deadline <= LeaseEnd(beats, used, leaseMs, initialEnd)
    ensures from <= at <= Max(from, deadline)
    ensures stop.Completed? ==> used == |beats|
    ensures stop.LeaseExpired? ==> used < |beats| && at == Max(from, deadline) && deadline <= beats[used].tick
    ensures stop.RenewalOverdue? ==> used < |beats| && at == deadline <= beats[used].returned
    ensures stop.OwnershipLost? ==> used < |beats| && beats[used].answer.Denied? && at == beats[used].returned < deadline
    ensures Confirmed(beats, used, leaseMs, initialDeadline, deadline)
    ensures forall i :: 0 <= i < used ==> !beats[i].answer.Denied?
  {
    deadline, at := initialDeadline, from;
    ghost var last := -1;
    for n := 0 to |beats|
      invariant deadline <= LeaseEnd(beats, n, leaseMs, initialEnd)
      invariant from <= at <= Max(from, deadline) && (n < |beats| ==> at <= beats[n].tick)
      invariant -1 <= last < n && deadline == if last < 0 then initialDeadline else beats[last].tick + leaseMs
      invariant last >= 0 ==> beats[last].answer.Kept?
      invariant forall j :: last < j < n ==> !beats[j].answer.Kept?
      invariant forall j :: 0 <= j < n ==> !beats[j].answer.Denied?
    {
      used := n;
      var beat := beats[n];
      LeaseEndGrows(beats, n, n + 1, leaseMs, initialEnd);
      if beat.tick >= deadline {
        return LeaseExpired, n, deadline, Max(from, deadline);
      }
      if beat.returned >= deadline {
        return RenewalOverdue, n, deadline, deadline;
      }
      at := beat.returned;
      match beat.answer {
        case Kept =>
          deadline := beat.tick + leaseMs;
          last := n;
        case Denied =>
          return OwnershipLost, n, deadline, at;
        case Failed =>
      }
    }
    stop, used := Completed, |beats|;
  }
}
