/**
 The statistical runners: worker threads draw run numbers from a shared atomic counter until they are
 used up, and count the outcome of each run. Any interleaving of their atomic steps is covered.
 */
module StatisticalRunner {
  import opened Wire

  /** A worker: before its first draw, connecting as run `id`, ready to draw again, or finished. */
  datatype Worker = Fresh | Connecting(id: Id) | Drawing | Done

  /** One atomic step of a worker: draw a number, or count the result of its run. */
  datatype Step = Draw(t: nat) | Count(t: nat, result: ConnectResult)

  datatype State = State(
    workers: seq<Worker>, ticket: Id,
    successful: nat, failed: nat, mistakes: nat, uncounted: nat,
    /** Which worker started which run, in the order of the draws. */
    started: seq<(nat, Id)>,
    /** The result each run was counted with, in the order of the counting. */
    reported: seq<(Id, ConnectResult)>)

  function Start(threads: nat): State {
    State(seq(threads, _ => Fresh), 0, 0, 0, 0, 0, [], [])
  }

  function Wrap32(x: int): Id {
    x % 0x1_0000_0000
  }

  /** A step that its worker cannot take leaves the state unchanged. */
  function Apply(runs: Id, s: State, step: Step): State {
    match step
    case Draw(t) =>
      if t >= |s.workers| || !(s.workers[t] == Fresh || s.workers[t] == Drawing) then s
      else if s.ticket < runs then
        s.(workers := s.workers[t := Connecting(s.ticket)],
           ticket := Wrap32(s.ticket + 1),
           started := s.started + [(t, s.ticket)])
      else
        s.(workers := s.workers[t := Done], ticket := Wrap32(s.ticket + 1))
    case Count(t, result) =>
      if t >= |s.workers| || !s.workers[t].Connecting? then s
      else
        var r := s.(workers := s.workers[t := Drawing],
                    reported := s.reported + [(s.workers[t].id, result)]);
        match result
        case Successful => r.(successful := r.successful + 1)
        case FailedNoServerMatchInTime => r.(mistakes := r.mistakes + 1)
        case Error => r.(mistakes := r.mistakes + 1)
        case Failed => r.(failed := r.failed + 1)
        case Invalid => r.(uncounted := r.uncounted + 1)
  }

  function Run(runs: Id, threads: nat, steps: seq<Step>): State {
    if steps == [] then Start(threads)
    else Apply(runs, Run(runs, threads, steps[..|steps| - 1]), steps[|steps| - 1])
  }

  function Finished(workers: seq<Worker>): nat {
    if workers == [] then 0
    else Finished(workers[..|workers| - 1]) + if workers[|workers| - 1] == Done then 1 else 0
  }

  function Busy(workers: seq<Worker>): nat {
    if workers == [] then 0
    else Busy(workers[..|workers| - 1]) + if workers[|workers| - 1].Connecting? then 1 else 0
  }

  lemma {:induction false} CountsUpdate(workers: seq<Worker>, t: nat, w: Worker)
    requires t < |workers|
    ensures Finished(workers[t := w]) ==
            Finished(workers) - (if workers[t] == Done then 1 else 0) + (if w == Done then 1 else 0)
    ensures Busy(workers[t := w]) ==
            Busy(workers) - (if workers[t].Connecting? then 1 else 0) + (if w.Connecting? then 1 else 0)
  {
    var k := |workers| - 1;
    var after := workers[t := w];
    if t == k {
      assert after[..k] == workers[..k];
    } else {
      CountsUpdate(workers[..k], t, w);
      assert after[..k] == workers[..k][t := w];
    }
  }

  predicate AllDone(workers: seq<Worker>) {
    forall i :: 0 <= i < |workers| ==> workers[i] == Done
  }

  lemma {:induction false} CountsBounded(workers: seq<Worker>)
    ensures Finished(workers) + Busy(workers) <= |workers|
    ensures Finished(workers) == |workers| <==> AllDone(workers)
  {
    if workers != [] {
      var k := |workers| - 1;
      CountsBounded(workers[..k]);
      assert forall i :: 0 <= i < k ==> workers[..k][i] == workers[i];
      assert AllDone(workers) <==> AllDone(workers[..k]) && workers[k] == Done;
    }
  }

  lemma {:induction false} CountsAtStart(threads: nat)
    ensures Finished(Start(threads).workers) == 0 && Busy(Start(threads).workers) == 0
  {
    if threads > 0 {
      CountsAtStart(threads - 1);
      assert Start(threads).workers[..threads - 1] == Start(threads - 1).workers;
    }
  }

  /** The runs started are 0, 1, 2, ... in order; the counter has moved once for each, and for each finish. */
  predicate Ticketed(runs: Id, threads: nat, s: State) {
    && |s.workers| == threads
    && s.ticket == Wrap32(|s.started| + Finished(s.workers))
    && |s.started| <= runs
    && (Finished(s.workers) > 0 ==> |s.started| == runs)
    && (forall k :: 0 <= k < |s.started| ==> s.started[k].1 == k)
    && (forall k :: 0 <= k < |s.started| ==> s.started[k].0 < threads)
    && s.successful + s.failed + s.mistakes + s.uncounted + Busy(s.workers) == |s.started|
  }

  /** While a worker is still drawing, the counter has not wrapped. */
  lemma TicketExact(runs: Id, threads: nat, s: State, t: nat)
    requires runs + threads <= 0x1_0000_0000
    requires Ticketed(runs, threads, s)
    requires t < threads && s.workers[t] in {Fresh, Drawing}
    ensures s.ticket == |s.started| + Finished(s.workers)
  {
    CountsBounded(s.workers);
  }

  lemma DrawStarts(runs: Id, threads: nat, s: State, t: nat)
    requires runs + threads <= 0x1_0000_0000
    requires Ticketed(runs, threads, s) && s.ticket < runs
    requires t < threads && s.workers[t] in {Fresh, Drawing}
    ensures Ticketed(runs, threads, Apply(runs, s, Draw(t)))
  {
    TicketExact(runs, threads, s, t);
    CountsUpdate(s.workers, t, Connecting(s.ticket));
  }

  lemma DrawFinishes(runs: Id, threads: nat, s: State, t: nat)
    requires runs + threads <= 0x1_0000_0000
    requires Ticketed(runs, threads, s) && s.ticket >= runs
    requires t < threads && s.workers[t] in {Fresh, Drawing}
    ensures Ticketed(runs, threads, Apply(runs, s, Draw(t)))
  {
    TicketExact(runs, threads, s, t);
    CountsUpdate(s.workers, t, Done);
    var s' := Apply(runs, s, Draw(t));
    assert s'.workers == s.workers[t := Done] && s'.started == s.started;
    assert s'.ticket == Wrap32(|s'.started| + Finished(s'.workers));
  }

  lemma DrawKeepsTicketed(runs: Id, threads: nat, s: State, t: nat)
    requires runs + threads <= 0x1_0000_0000
    requires Ticketed(runs, threads, s)
    requires t < threads && s.workers[t] in {Fresh, Drawing}
    ensures Ticketed(runs, threads, Apply(runs, s, Draw(t)))
  {
    if s.ticket < runs {
      DrawStarts(runs, threads, s, t);
    } else {
      DrawFinishes(runs, threads, s, t);
    }
  }

  lemma CountKeepsTicketed(runs: Id, threads: nat, s: State, t: nat, result: ConnectResult)
    requires Ticketed(runs, threads, s)
    requires t < threads && s.workers[t].Connecting?
    ensures Ticketed(runs, threads, Apply(runs, s, Count(t, result)))
  {
    CountsUpdate(s.workers, t, Drawing);
  }

  lemma ApplyKeepsTicketed(runs: Id, threads: nat, s: State, step: Step)
    requires runs + threads <= 0x1_0000_0000
    requires Ticketed(runs, threads, s)
    ensures Ticketed(runs, threads, Apply(runs, s, step))
  {
    match step
    case Draw(t) =>
      if t < threads && s.workers[t] in {Fresh, Drawing} {
        DrawKeepsTicketed(runs, threads, s, t);
      }
    case Count(t, result) =>
      if t < threads && s.workers[t].Connecting? {
        CountKeepsTicketed(runs, threads, s, t, result);
      }
  }

  lemma {:induction false} RunKeepsTicketed(runs: Id, threads: nat, steps: seq<Step>)
    requires runs + threads <= 0x1_0000_0000
    ensures Ticketed(runs, threads, Run(runs, threads, steps))
  {
    if steps == [] {
      CountsAtStart(threads);
    } else {
      RunKeepsTicketed(runs, threads, steps[..|steps| - 1]);
      ApplyKeepsTicketed(runs, threads, Run(runs, threads, steps[..|steps| - 1]), steps[|steps| - 1]);
    }
  }

  /** In every interleaving, no run number is started twice, and none outside the range. */
  lemma NoRunTwice(runs: Id, threads: nat, steps: seq<Step>, j: nat, k: nat)
    requires runs + threads <= 0x1_0000_0000
    requires var s := Run(runs, threads, steps); j < |s.started| && k < |s.started|
    ensures var s := Run(runs, threads, steps);
            && s.started[j].1 < runs
            && (s.started[j].1 == s.started[k].1 ==> j == k)
  {
    RunKeepsTicketed(runs, threads, steps);
  }

  /**
   Once all workers have finished, every run number below the count was run by exactly one worker,
   the counter stands at the count plus the number of workers, and the outcomes add up to the count.
   */
  lemma ExactlyOnce(runs: Id, threads: nat, steps: seq<Step>)
    requires 0 < threads && runs + threads <= 0x1_0000_0000
    requires AllDone(Run(runs, threads, steps).workers)
    ensures var s := Run(runs, threads, steps);
            && s.ticket == Wrap32(runs + threads)
            && |s.started| == runs
            && (forall id :: 0 <= id < runs ==>
                  s.started[id].1 == id && forall k :: 0 <= k < |s.started| && s.started[k].1 == id ==> k == id)
            && s.successful + s.failed + s.mistakes + s.uncounted == runs
  {
    RunKeepsTicketed(runs, threads, steps);
    CountsBounded(Run(runs, threads, steps).workers);
  }

  // ----- what was counted

  function Tally(reported: seq<(Id, ConnectResult)>, kinds: set<ConnectResult>): nat {
    if reported == [] then 0
    else
      Tally(reported[..|reported| - 1], kinds) + if reported[|reported| - 1].1 in kinds then 1 else 0
  }

  /** Each counter holds the number of results of its kinds. */
  predicate Tallied(s: State) {
    && s.successful == Tally(s.reported, {Successful})
    && s.failed == Tally(s.reported, {Failed})
    && s.mistakes == Tally(s.reported, {FailedNoServerMatchInTime, Error})
    && s.uncounted == Tally(s.reported, {Invalid})
  }

  /** Runs in progress are with the worker that started them; finished ones are reported once. */
  predicate Accounted(s: State) {
    && (forall t :: 0 <= t < |s.workers| && s.workers[t].Connecting? ==>
          var id := s.workers[t].id; id < |s.started| && s.started[id] == (t, id))
    && (forall k :: 0 <= k < |s.reported| ==>
          var id := s.reported[k].0;
          && id < |s.started| && s.started[id].0 < |s.workers|
          && s.workers[s.started[id].0] != Connecting(id))
    && (forall j, k :: 0 <= j < k < |s.reported| ==> s.reported[j].0 != s.reported[k].0)
  }

  lemma DrawKeepsAccounted(runs: Id, threads: nat, s: State, t: nat)
    requires runs + threads <= 0x1_0000_0000
    requires Ticketed(runs, threads, s) && Accounted(s)
    requires t < threads && s.workers[t] in {Fresh, Drawing}
    ensures Accounted(Apply(runs, s, Draw(t)))
  {
    TicketExact(runs, threads, s, t);
  }

  lemma CountKeepsAccounted(runs: Id, s: State, t: nat, result: ConnectResult)
    requires Accounted(s)
    requires t < |s.workers| && s.workers[t].Connecting?
    ensures Accounted(Apply(runs, s, Count(t, result)))
  {
    var s' := Apply(runs, s, Count(t, result));
    var e := (s.workers[t].id, result);
    assert s'.reported == s.reported + [e] && s'.workers == s.workers[t := Drawing];
  }

  lemma TallyExtends(reported: seq<(Id, ConnectResult)>, e: (Id, ConnectResult), kinds: set<ConnectResult>)
    ensures Tally(reported + [e], kinds) == Tally(reported, kinds) + if e.1 in kinds then 1 else 0
  {
    assert (reported + [e])[..|reported|] == reported;
  }

  /** What one more result adds to each of the four tallies. */
  lemma TalliesExtend(reported: seq<(Id, ConnectResult)>, e: (Id, ConnectResult))
    ensures Tally(reported + [e], {Successful}) == Tally(reported, {Successful}) + if e.1.Successful? then 1 else 0
    ensures Tally(reported + [e], {Failed}) == Tally(reported, {Failed}) + if e.1.Failed? then 1 else 0
    ensures Tally(reported + [e], {FailedNoServerMatchInTime, Error}) ==
            Tally(reported, {FailedNoServerMatchInTime, Error}) +
            if e.1.FailedNoServerMatchInTime? || e.1.Error? then 1 else 0
    ensures Tally(reported + [e], {Invalid}) == Tally(reported, {Invalid}) + if e.1.Invalid? then 1 else 0
  {
    TallyExtends(reported, e, {Successful});
    TallyExtends(reported, e, {Failed});
    TallyExtends(reported, e, {FailedNoServerMatchInTime, Error});
    TallyExtends(reported, e, {Invalid});
  }

  lemma CountKeepsTallied(runs: Id, s: State, t: nat, result: ConnectResult)
    requires Tallied(s)
    requires t < |s.workers| && s.workers[t].Connecting?
    ensures Tallied(Apply(runs, s, Count(t, result)))
  {
    var e := (s.workers[t].id, result);
    TalliesExtend(s.reported, e);
    assert Apply(runs, s, Count(t, result)).reported == s.reported + [e];
  }

  lemma {:induction false} RunKeepsAccounts(runs: Id, threads: nat, steps: seq<Step>)
    requires runs + threads <= 0x1_0000_0000
    ensures var s := Run(runs, threads, steps); Accounted(s) && Tallied(s)
  {
    if steps != [] {
      var p, step := steps[..|steps| - 1], steps[|steps| - 1];
      RunKeepsAccounts(runs, threads, p);
      RunKeepsTicketed(runs, threads, p);
      var s := Run(runs, threads, p);
      match step
      case Draw(t) =>
        if t < threads && s.workers[t] in {Fresh, Drawing} {
          DrawKeepsAccounted(runs, threads, s, t);
        }
      case Count(t, result) =>
        if t < threads && s.workers[t].Connecting? {
          CountKeepsAccounted(runs, s, t, result);
          CountKeepsTallied(runs, s, t, result);
        }
    }
  }

  lemma {:induction false} TallyAll(reported: seq<(Id, ConnectResult)>)
    ensures |reported| == Tally(reported, {Successful}) + Tally(reported, {Failed})
                          + Tally(reported, {FailedNoServerMatchInTime, Error}) + Tally(reported, {Invalid})
  {
    if reported != [] {
      var q, e := reported[..|reported| - 1], reported[|reported| - 1];
      assert reported == q + [e];
      TallyAll(q);
      TallyExtends(q, e, {Successful});
      TallyExtends(q, e, {Failed});
      TallyExtends(q, e, {FailedNoServerMatchInTime, Error});
      TallyExtends(q, e, {Invalid});
      assert e.1.Successful? || e.1.Failed? || e.1.FailedNoServerMatchInTime? || e.1.Error? || e.1.Invalid?;
    }
  }

  /** How many results of the given kinds the schedule brought to a worker that was in a run. */
  function Results(runs: Id, threads: nat, steps: seq<Step>, kinds: set<ConnectResult>): nat {
    if steps == [] then 0
    else
      var p, s := steps[..|steps| - 1], steps[|steps| - 1];
      Results(runs, threads, p, kinds) + if Brings(Run(runs, threads, p).workers, s, kinds) then 1 else 0
  }

  predicate Brings(workers: seq<Worker>, s: Step, kinds: set<ConnectResult>) {
    s.Count? && s.t < |workers| && workers[s.t].Connecting? && s.result in kinds
  }

  lemma BringsStep(runs: Id, s: State, step: Step)
    ensures var s' := Apply(runs, s, step);
            && s'.successful == s.successful + (if Brings(s.workers, step, {Successful}) then 1 else 0)
            && s'.failed == s.failed + (if Brings(s.workers, step, {Failed}) then 1 else 0)
            && s'.mistakes == s.mistakes +
               (if Brings(s.workers, step, {FailedNoServerMatchInTime, Error}) then 1 else 0)
            && s'.uncounted == s.uncounted + (if Brings(s.workers, step, {Invalid}) then 1 else 0)
  {
  }

  /** The counters, from the schedule: each is the number of results of its kinds that came in. */
  lemma {:induction false} CountersOfSchedule(runs: Id, threads: nat, steps: seq<Step>)
    ensures var s := Run(runs, threads, steps);
            && s.successful == Results(runs, threads, steps, {Successful})
            && s.failed == Results(runs, threads, steps, {Failed})
            && s.mistakes == Results(runs, threads, steps, {FailedNoServerMatchInTime, Error})
            && s.uncounted == Results(runs, threads, steps, {Invalid})
  {
    if steps != [] {
      var p, step := steps[..|steps| - 1], steps[|steps| - 1];
      CountersOfSchedule(runs, threads, p);
      BringsStep(runs, Run(runs, threads, p), step);
    }
  }

  /**
   Once all workers have finished, every run has been counted exactly once, each counter holds the
   number of results of its own kind, and if no result was the invalid one the three counters add up
   to the run count.
   */
  lemma OutcomesAddUp(runs: Id, threads: nat, steps: seq<Step>)
    requires 0 < threads && runs + threads <= 0x1_0000_0000
    requires AllDone(Run(runs, threads, steps).workers)
    ensures var s := Run(runs, threads, steps);
            && |s.reported| == runs
            && (forall k :: 0 <= k < runs ==> s.reported[k].0 < runs)
            && (forall j, k :: 0 <= j < k < runs ==> s.reported[j].0 != s.reported[k].0)
            && Tallied(s)
            && (Tally(s.reported, {Invalid}) == 0 ==> s.successful + s.failed + s.mistakes == runs)
  {
    ExactlyOnce(runs, threads, steps);
    RunKeepsAccounts(runs, threads, steps);
    TallyAll(Run(runs, threads, steps).reported);
  }

  // ----- when the counter wraps

  /** No run number was started twice. */
  predicate NoRepeat(s: State) {
    forall j, k :: 0 <= j < k < |s.started| ==> s.started[j].1 != s.started[k].1
  }

  lemma RunExtends(runs: Id, threads: nat, steps: seq<Step>, step: Step)
    ensures Run(runs, threads, steps + [step]) == Apply(runs, Run(runs, threads, steps), step)
  {
    assert (steps + [step])[..|steps|] == steps;
  }

  /** Worker 0 has done the first `n` runs; the others have not begun. */
  predicate FirstWorkerDid(threads: nat, s: State, n: nat) {
    && |s.workers| == threads > 0
    && s.workers[0] == (if n == 0 then Fresh else Drawing)
    && (forall i :: 1 <= i < threads ==> s.workers[i] == Fresh)
    && s.ticket == |s.started| == n
    && (n > 0 ==> s.started[0] == (0, 0))
  }

  lemma {:induction false} FirstWorkerRuns(runs: Id, threads: nat, n: nat) returns (steps: seq<Step>)
    requires threads > 0 && n <= runs
    ensures FirstWorkerDid(threads, Run(runs, threads, steps), n)
  {
    steps := [];
    if n > 0 {
      steps := FirstWorkerRuns(runs, threads, n - 1);
      RunExtends(runs, threads, steps, Draw(0));
      RunExtends(runs, threads, steps + [Draw(0)], Count(0, Successful));
      steps := steps + [Draw(0)] + [Count(0, Successful)];
    }
  }

  /** All runs are used up, the first `m` workers have found that out, and the others are yet to draw. */
  predicate UsedUp(runs: Id, threads: nat, s: State, m: nat) {
    && |s.workers| == threads && m <= threads
    && (forall i :: m <= i < threads ==> s.workers[i] in {Fresh, Drawing})
    && s.ticket == Wrap32(runs + m)
    && |s.started| == runs && (runs > 0 ==> s.started[0].1 == 0)
  }

  lemma SmallWrap32(n: nat)
    requires n < 0x1_0000_0000
    ensures Wrap32(n) == n
  {
  }

  lemma NextWorkerFinishes(runs: Id, threads: nat, s: State, m: nat)
    requires UsedUp(runs, threads, s, m) && m < threads && runs + m < 0x1_0000_0000
    ensures UsedUp(runs, threads, Apply(runs, s, Draw(m)), m + 1)
  {
    SmallWrap32(runs + m);
    assert Apply(runs, s, Draw(m)).ticket == Wrap32(runs + (m + 1));
  }

  lemma {:induction false} FirstWorkersFinish(runs: Id, threads: nat, m: nat) returns (steps: seq<Step>)
    requires 0 < threads && m <= threads && runs + m <= 0x1_0000_0000
    ensures UsedUp(runs, threads, Run(runs, threads, steps), m)
  {
    if m == 0 {
      steps := FirstWorkerRuns(runs, threads, runs);
    } else {
      steps := FirstWorkersFinish(runs, threads, m - 1);
      NextWorkerFinishes(runs, threads, Run(runs, threads, steps), m - 1);
      RunExtends(runs, threads, steps, Draw(m - 1));
      steps := steps + [Draw(m - 1)];
    }
  }

  /** With more workers than the counter has room for, the next one to draw starts run 0 again. */
  lemma WrapRepeats(runs: Id, threads: nat) returns (steps: seq<Step>)
    requires runs > 0 && runs + threads > 0x1_0000_0000
    ensures !NoRepeat(Run(runs, threads, steps))
  {
    var m := 0x1_0000_0000 - runs;
    steps := FirstWorkersFinish(runs, threads, m);
    RunExtends(runs, threads, steps, Draw(m));
    steps := steps + [Draw(m)];
    var s := Run(runs, threads, steps);
    assert s.started[0].1 == s.started[runs].1;
  }

  /**
   No schedule starts a run number twice if and only if the counter has room for the runs and for one
   more draw of every worker.
   */
  lemma NoRepeatCondition(runs: Id, threads: nat)
    requires runs > 0
    ensures (forall steps :: NoRepeat(Run(runs, threads, steps))) <==> runs + threads <= 0x1_0000_0000
  {
    if runs + threads <= 0x1_0000_0000 {
      forall steps ensures NoRepeat(Run(runs, threads, steps)) {
        RunKeepsTicketed(runs, threads, steps);
      }
    } else {
      var steps := WrapRepeats(runs, threads);
    }
  }

  class Runner {
    const runCount: Id
    var successfulRuns: nat
    var failedRuns: nat
    var programmMistakes: nat
    var currentTransactionId: Id
    /** Where each thread stands in its loop. */
    var workers: seq<Worker>
    ghost var uncounted: nat
    ghost var started: seq<(nat, Id)>
    ghost var reported: seq<(Id, ConnectResult)>

    ghost function Contents(): State
      reads this
    {
      State(workers, currentTransactionId, successfulRuns, failedRuns, programmMistakes, uncounted,
            started, reported)
    }

    constructor (runs: Id, threads: nat)
      ensures Contents() == Start(threads) && runCount == runs
    {
      runCount := runs;
      successfulRuns, failedRuns, programmMistakes, uncounted := 0, 0, 0, 0;
      currentTransactionId, started, reported := 0, [], [];
      workers := seq(threads, _ => Fresh);
    }

    /** `i = current_transaction_id++` and the loop test, by thread `t`. */
    method Take(t: nat)
      requires t < |workers| && workers[t] in {Fresh, Drawing}
      modifies this
      ensures Contents() == Apply(runCount, old(Contents()), Draw(t))
    {
      var i := currentTransactionId;
      currentTransactionId := Wrap32(currentTransactionId + 1);
      if i < runCount {
        workers := workers[t := Connecting(i)];
        started := started + [(t, i)];
      } else {
        workers := workers[t := Done];
      }
    }

    /** The switch on the result of the run of thread `t`. */
    method Report(t: nat, result: ConnectResult)
      requires t < |workers| && workers[t].Connecting?
      modifies this
      ensures Contents() == Apply(runCount, old(Contents()), Count(t, result))
    {
      match result {
        case Successful => successfulRuns := successfulRuns + 1;
        case FailedNoServerMatchInTime => programmMistakes := programmMistakes + 1;
        case Error => programmMistakes := programmMistakes + 1;
        case Failed => failedRuns := failedRuns + 1;
        case Invalid => uncounted := uncounted + 1;
      }
      reported := reported + [(workers[t].id, result)];
      workers := workers[t := Drawing];
    }

    /** All threads together, under an arbitrary schedule. */
    method RunAll(schedule: seq<Step>)
      requires Contents() == Start(|workers|)
      modifies this
      ensures Contents() == Run(runCount, old(|workers|), schedule)
    {
      ghost var threads := |workers|;
      assert schedule[..0] == [];
      for k := 0 to |schedule|
        invariant Contents() == Run(runCount, threads, schedule[..k])
      {
        assert schedule[..k + 1][..k] == schedule[..k];
        match schedule[k] {
          case Draw(t) =>
            if t < |workers| && workers[t] in {Fresh, Drawing} {
              Take(t);
            }
          case Count(t, result) =>
            if t < |workers| && workers[t].Connecting? {
              Report(t, result);
            }
        }
      }
      assert schedule[..|schedule|] == schedule;
    }
  }
}
