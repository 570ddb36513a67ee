/**
 The clocks (src/emuclock.cpp): one that only counts cycles, and one that also paces the
 host, shown to be a rate limiter. Time is an integer number of nanoseconds; the readings
 of the host clock are arbitrary.
 */
module PacingClock {
  class CycleClock {
    var total: int

    constructor ()
      ensures total == 0
    {
      total := 0;
    }

    /** Counting needs no starting point. */
    method BeginCycle() {
    }

    method WaitCycles(cycles: int)
      modifies this
      ensures total == old(total) + cycles
    {
      total := total + cycles;
    }

    method ResetCount()
      modifies this
      ensures total == 0
    {
      total := 0;
    }
  }

  /** Falling further behind than this gives up on catching up. */
  const RESYNC := 50_000_000

  /** The deadline after a call with the given budget that read the clock at `now`. */
  function NextDeadline(deadline: int, budget: nat, now: int): int {
    if now - (deadline + budget) > RESYNC then now else deadline + budget
  }

  /** How long that call sleeps. */
  function Sleep(deadline: int, budget: nat, now: int): nat {
    if deadline + budget > now then deadline + budget - now else 0
  }

  class PrecisionClock {
    const counter: CycleClock
    var deadline: int

    constructor ()
      ensures fresh(counter) && counter.total == 0 && deadline == 0
    {
      counter := new CycleClock();
      deadline := 0;
    }

    method BeginCycle(now: int)
      modifies this
      ensures deadline == now
    {
      deadline := now;
    }

    /** Charge `count` cycles worth `budget` nanoseconds; the caller is put to sleep for the returned time. */
    method WaitCycles(count: int, budget: nat, now: int) returns (sleep: nat)
      modifies this, counter
      ensures counter.total == old(counter.total) + count
      ensures deadline == NextDeadline(old(deadline), budget, now)
      ensures sleep == Sleep(old(deadline), budget, now)
    {
      counter.WaitCycles(count);
      deadline := deadline + budget;
      sleep := 0;
      if deadline > now {
        sleep := deadline - now;
      } else if now - deadline > RESYNC {
        deadline := now;
      }
    }
  }

  /** One call: its budget, the clock reading inside it, the time it returns to its caller. */
  datatype Call = Call(budget: nat, now: int, end: int)

  /** The deadline after the first calls. */
  function Deadline(start: int, calls: seq<Call>): int {
    if calls == [] then start
    else
      var c := calls[|calls| - 1];
      NextDeadline(Deadline(start, calls[..|calls| - 1]), c.budget, c.now)
  }

  function Budgets(calls: seq<Call>): nat {
    if calls == [] then 0 else Budgets(calls[..|calls| - 1]) + calls[|calls| - 1].budget
  }

  /**
   What the host guarantees: time does not run backwards and sleeping never ends early.
   Readings may be late by any amount, sleeps may be too long by any amount.
   */
  predicate Possible(start: int, calls: seq<Call>) {
    calls != [] ==>
      var before := calls[..|calls| - 1];
      var c := calls[|calls| - 1];
      && Possible(start, before)
      && c.now >= (if before == [] then start else before[|before| - 1].end)
      && c.end >= c.now + Sleep(Deadline(start, before), c.budget, c.now)
  }

  /** A call returns no earlier than its deadline, which is at most 50 ms behind its reading. */
  lemma DeadlineMet(start: int, calls: seq<Call>)
    requires calls != [] && Possible(start, calls)
    ensures var c := calls[|calls| - 1];
            Deadline(start, calls) <= c.end && Deadline(start, calls) >= c.now - RESYNC && c.now <= c.end
  {
  }

  /** The deadline only ever moves forward, by at least the budgets. */
  lemma {:induction false} DeadlineAdvances(start: int, calls: seq<Call>, i: nat)
    requires i <= |calls|
    ensures Deadline(start, calls) >= Deadline(start, calls[..i]) + Budgets(calls[i..])
    decreases |calls|
  {
    if i == |calls| {
      assert calls[..i] == calls;
    } else {
      var before := calls[..|calls| - 1];
      DeadlineAdvances(start, before, i);
      assert before[..i] == calls[..i];
      assert calls[i..][..|calls| - i - 1] == before[i..];
    }
  }

  /** Never faster than requested: from the start of the run to the return of any call. */
  lemma RateLimit(start: int, calls: seq<Call>)
    requires calls != [] && Possible(start, calls)
    ensures calls[|calls| - 1].end - start >= Budgets(calls)
  {
    DeadlineMet(start, calls);
    DeadlineAdvances(start, calls, 0);
    assert calls[0..] == calls;
  }

  lemma {:induction false} PossiblePrefix(start: int, calls: seq<Call>, n: nat)
    requires Possible(start, calls) && n <= |calls|
    ensures Possible(start, calls[..n])
    decreases |calls|
  {
    if n == |calls| {
      assert calls[..n] == calls;
    } else {
      PossiblePrefix(start, calls[..|calls| - 1], n);
      assert calls[..|calls| - 1][..n] == calls[..n];
    }
  }

  /**
   In the middle of a run: from the clock reading inside call i to the return of the last
   call, at least the budgets of the calls after i less 50 ms, however late the earlier
   calls were. Bursts made to catch up are bounded by the resync window.
   */
  lemma BoundedBurst(start: int, calls: seq<Call>, i: nat)
    requires i < |calls| && Possible(start, calls)
    ensures calls[|calls| - 1].end - calls[i].now >= Budgets(calls[i + 1..]) - 50_000_000
  {
    DeadlineMet(start, calls);
    PossiblePrefix(start, calls, i + 1);
    DeadlineMet(start, calls[..i + 1]);
    DeadlineAdvances(start, calls, i + 1);
  }

  /** The window is needed: a host 50 ms late may be allowed a whole 50 ms budget at once. */
  lemma BurstIsReached(start: int)
    ensures var calls := [Call(0, start + 50_000_000, start + 50_000_000), Call(50_000_000, start + 50_000_000, start + 50_000_000)];
            && Possible(start, calls)
            && calls[1].end - calls[0].now == Budgets(calls[1..]) - 50_000_000
  {
    var first, second := Call(0, start + RESYNC, start + RESYNC), Call(RESYNC, start + RESYNC, start + RESYNC);
    var calls := [first, second];
    assert calls[..1] == [first];
    assert [first][..0] == [];
    assert calls[1..] == [second];
    assert [second][..0] == [];
    assert Deadline(start, [first]) == start;
  }

  /** A host that is never more than the window behind loses nothing: the deadline stays on the ideal schedule. */
  lemma {:induction false} ScheduleKept(start: int, calls: seq<Call>)
    requires forall i :: 0 <= i < |calls| ==> calls[i].now <= start + Budgets(calls[..i + 1]) + RESYNC
    ensures Deadline(start, calls) == start + Budgets(calls)
    decreases |calls|
  {
    if calls != [] {
      var before := calls[..|calls| - 1];
      forall i | 0 <= i < |before|
        ensures before[i].now <= start + Budgets(before[..i + 1]) + RESYNC
      {
        assert before[..i + 1] == calls[..i + 1];
      }
      ScheduleKept(start, before);
      assert calls[..|calls|] == calls;
    }
  }

  /** A call that sleeps asks to be woken exactly at its deadline; one that is late does not sleep. */
  lemma SleepsToDeadline(start: int, calls: seq<Call>)
    requires calls != []
    ensures var before, c := calls[..|calls| - 1], calls[|calls| - 1];
            var due := Deadline(start, before) + c.budget;
            var sleep := Sleep(Deadline(start, before), c.budget, c.now);
            && (c.now < due ==> c.now + sleep == due == Deadline(start, calls))
            && (c.now >= due ==> sleep == 0)
  {
  }

  /** Every call was in time, and the host woke it exactly when asked. */
  predicate Punctual(start: int, calls: seq<Call>) {
    calls != [] ==>
      var before := calls[..|calls| - 1];
      var c := calls[|calls| - 1];
      && Punctual(start, before)
      && c.now <= Deadline(start, before) + c.budget
      && c.end == c.now + Sleep(Deadline(start, before), c.budget, c.now)
  }

  /** On a punctual host the pace is exact: no faster and no slower than the budgets. */
  lemma {:induction false} ExactPace(start: int, calls: seq<Call>)
    requires calls != [] && Punctual(start, calls)
    ensures calls[|calls| - 1].end - start == Budgets(calls)
    decreases |calls|
  {
    var before := calls[..|calls| - 1];
    if before != [] {
      ExactPace(start, before);
    }
    PunctualDeadline(start, calls);
  }

  lemma {:induction false} PunctualDeadline(start: int, calls: seq<Call>)
    requires Punctual(start, calls)
    ensures Deadline(start, calls) == start + Budgets(calls)
    decreases |calls|
  {
    if calls != [] {
      PunctualDeadline(start, calls[..|calls| - 1]);
    }
  }

  /** After a call that was too late to catch up, the next one is paced from that call's reading, as if newly begun. */
  lemma FreshStart(start: int, calls: seq<Call>, budget: nat, now: int)
    requires calls != []
    requires var c := calls[|calls| - 1]; c.now > Deadline(start, calls[..|calls| - 1]) + c.budget + RESYNC
    ensures var c := calls[|calls| - 1];
            Sleep(Deadline(start, calls), budget, now) == if c.now + budget > now then c.now + budget - now else 0
  {
  }
}
