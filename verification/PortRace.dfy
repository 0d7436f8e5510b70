/**
 `assign_next` split into its atomic steps, taken by several threads in any order. The counter's
 fetch-and-add comes before the lock that guards the reset, so other threads keep moving it while one
 thread resets it.
 */
module PortRace {
  import opened Wire
  import opened PortManager
  import opened PortLaws

  /**
   Where a thread stands: about to fetch; got a port that is too low and waits for the reset lock;
   holds the lock and is about to test the counter; has found it too low and is about to reset it;
   holds the lock and is about to fetch again.
   */
  datatype Thread = Ready | Waiting | Testing | Storing | Fetching

  datatype Race = Race(
    current: Port, lock: Option<nat>, threads: seq<Thread>,
    /** The base ports handed out, in order. */
    handed: seq<Port>)

  function Begin(first: Port, threads: nat): Race {
    Race(first, None, seq(threads, _ => Ready), [])
  }

  /** The fetch-and-add on the counter. */
  function Advance(q: Params, s: Race): Race {
    s.(current := Wrap16(s.current + q.reserved))
  }

  /** The next atomic step of thread `t`; none if it is not a thread or has to wait for the lock. */
  function Move(q: Params, s: Race, t: nat): Race {
    if t >= |s.threads| then s
    else
      match s.threads[t]
      case Ready =>
        if s.current >= q.minPort then Advance(q, s).(handed := s.handed + [s.current])
        else Advance(q, s).(threads := s.threads[t := Waiting])
      case Waiting =>
        if s.lock == None then s.(lock := Some(t), threads := s.threads[t := Testing]) else s
      case Testing =>
        s.(threads := s.threads[t := if s.current < q.minPort then Storing else Fetching])
      case Storing =>
        s.(current := q.minPort, threads := s.threads[t := Fetching])
      case Fetching =>
        Advance(q, s).(handed := s.handed + [s.current], lock := None, threads := s.threads[t := Ready])
  }

  function Moves(q: Params, first: Port, threads: nat, schedule: seq<nat>): Race {
    if schedule == [] then Begin(first, threads)
    else Move(q, Moves(q, first, threads, schedule[..|schedule| - 1]), schedule[|schedule| - 1])
  }

  /** The number of threads that are inside the reset branch. */
  function Away(threads: seq<Thread>): nat {
    if threads == [] then 0
    else Away(threads[..|threads| - 1]) + if threads[|threads| - 1] == Ready then 0 else 1
  }

  lemma {:induction false} AwayBounded(threads: seq<Thread>)
    ensures Away(threads) <= |threads|
  {
    if threads != [] {
      AwayBounded(threads[..|threads| - 1]);
    }
  }

  lemma {:induction false} AwayUpdate(threads: seq<Thread>, t: nat, to: Thread)
    requires t < |threads|
    ensures Away(threads[t := to]) ==
            Away(threads) - (if threads[t] == Ready then 0 else 1) + (if to == Ready then 0 else 1)
  {
    var k := |threads| - 1;
    var after := threads[t := to];
    if t == k {
      assert after[..k] == threads[..k];
    } else {
      AwayUpdate(threads[..k], t, to);
      assert after[..k] == threads[..k][t := to];
    }
  }

  /** Who is between taking and giving back the lock has it. */
  predicate LockHeld(s: Race) {
    forall t :: 0 <= t < |s.threads| && s.threads[t] in {Testing, Storing, Fetching} ==> s.lock == Some(t)
  }

  /** The ports handed out so far are those of the atomic calls. */
  predicate InOrder(q: Params, first: Port, handed: seq<Port>)
    requires q.reserved > 0
  {
    forall i :: 0 <= i < |handed| ==> handed[i] == Expected(q, first, i)
  }

  /** The counter stands at the next port, and nobody is about to reset it. */
  predicate AtNextPort(q: Params, first: Port, s: Race)
    requires q.reserved > 0
  {
    && s.current == Expected(q, first, |s.handed|)
    && forall t :: 0 <= t < |s.threads| ==> s.threads[t] != Storing
  }

  /** Where a pass that starts at `start` leaves the counter when it wraps. */
  function Landing(q: Params, start: Port): Port
    requires q.reserved > 0
  {
    Wrap16(start + PassLength(q, start) * q.reserved)
  }

  /** Where `i` further fetches leave it. */
  function Pos(q: Params, landing: Port, i: nat): Port {
    Wrap16(landing + i * q.reserved)
  }

  /** The counter has wrapped, and moved at most once for every thread but `spare` in the reset branch. */
  ghost predicate TooLow(q: Params, first: Port, s: Race, spare: nat)
    requires q.reserved > 0
  {
    exists i: nat ::
      && i + spare <= Away(s.threads)
      && (s.current == Pos(q, Landing(q, first), i) || s.current == Pos(q, Landing(q, q.minPort), i))
  }

  /** The counter is too low, the next port is the lowest one, and nobody fetches without testing. */
  ghost predicate BeforeReset(q: Params, first: Port, s: Race)
    requires q.reserved > 0
  {
    && Expected(q, first, |s.handed|) == q.minPort
    && TooLow(q, first, s, 0)
    && forall t :: 0 <= t < |s.threads| ==> s.threads[t] != Fetching
  }

  ghost predicate OnTrack(q: Params, first: Port, s: Race)
    requires q.reserved > 0
  {
    LockHeld(s) && InOrder(q, first, s.handed) && (AtNextPort(q, first, s) || BeforeReset(q, first, s))
  }

  /** The counter is too low, and thread `u` has tested it before that. */
  ghost predicate Stalled(q: Params, first: Port, s: Race, u: nat)
    requires q.reserved > 0
  {
    && LockHeld(s) && InOrder(q, first, s.handed) && TooLow(q, first, s, 1)
    && u < |s.threads| && s.threads[u] == Fetching
  }

  /** From a landing, one fetch of every thread does not carry the counter past the lowest port. */
  predicate Clears(q: Params, landing: Port, threads: nat) {
    && (forall i :: 0 <= i < threads ==> Pos(q, landing, i) < q.minPort)
    && Pos(q, landing, threads) <= q.minPort
  }

  predicate Started(q: Params, first: Port, threads: nat) {
    0 < q.reserved && 0 < threads && q.minPort <= first
  }

  /** The margin that keeps the counter from passing the lowest port before it is reset. */
  predicate Margin(q: Params, first: Port, threads: nat) {
    && Started(q, first, threads)
    && Clears(q, Landing(q, first), threads)
    && Clears(q, Landing(q, q.minPort), threads)
  }

  /** A counter that is too low is at most at the lowest port, and there only if every thread is waiting. */
  lemma TooLowBound(q: Params, first: Port, s: Race, spare: nat)
    requires Margin(q, first, |s.threads|) && TooLow(q, first, s, spare)
    ensures s.current <= q.minPort
    ensures spare > 0 || Away(s.threads) < |s.threads| ==> s.current < q.minPort
  {
    AwayBounded(s.threads);
  }

  lemma PosNext(q: Params, landing: Port, i: nat)
    ensures Pos(q, landing, i + 1) == Wrap16(Pos(q, landing, i) + q.reserved)
  {
    OneMore(i, q.reserved);
    WrapAdds(landing + i * q.reserved, q.reserved);
  }

  lemma WrapAdds(a: nat, b: nat)
    ensures Wrap16(a + b) == Wrap16(Wrap16(a) + b)
  {
  }

  lemma PosStart(q: Params, landing: Port)
    ensures Pos(q, landing, 0) == landing
  {
  }

  /** One more fetch while the counter is too low. */
  lemma TooLowFetch(q: Params, first: Port, s: Race, s': Race, spare: nat)
    requires q.reserved > 0 && TooLow(q, first, s, spare)
    requires s'.current == Wrap16(s.current + q.reserved) && Away(s'.threads) == Away(s.threads) + 1
    ensures TooLow(q, first, s', spare)
  {
    var i: nat :|
      && i + spare <= Away(s.threads)
      && (s.current == Pos(q, Landing(q, first), i) || s.current == Pos(q, Landing(q, q.minPort), i));
    PosNext(q, Landing(q, first), i);
    PosNext(q, Landing(q, q.minPort), i);
    assert s'.current == Pos(q, Landing(q, first), i + 1) || s'.current == Pos(q, Landing(q, q.minPort), i + 1);
  }

  /** The counter has just landed. */
  lemma TooLowLanding(q: Params, first: Port, s: Race, spare: nat)
    requires q.reserved > 0 && spare <= Away(s.threads)
    requires s.current == Landing(q, first) || s.current == Landing(q, q.minPort)
    ensures TooLow(q, first, s, spare)
  {
    PosStart(q, Landing(q, first));
    PosStart(q, Landing(q, q.minPort));
    assert s.current == Pos(q, Landing(q, first), 0) || s.current == Pos(q, Landing(q, q.minPort), 0);
  }

  /** A fetch that hands out the expected port leaves the counter at the next expected port, or lands it. */
  lemma FetchExpected(q: Params, first: Port, n: nat)
    requires q.reserved > 0 && q.minPort <= first
    ensures var c := Expected(q, first, n);
            && q.minPort <= c < 0x1_0000
            && if c + q.reserved < 0x1_0000 then Expected(q, first, n + 1) == c + q.reserved
               else
                 && Expected(q, first, n + 1) == q.minPort
                 && Wrap16(c + q.reserved) ==
                    Landing(q, if n < PassLength(q, first) then first else q.minPort)
  {
    if n < PassLength(q, first) {
      FirstPassStep(q, first, n);
      if Expected(q, first, n) + q.reserved >= 0x1_0000 {
        FirstLanding(q, first, n);
      }
    } else {
      LaterPassStep(q, first, n);
      if Expected(q, first, n) + q.reserved >= 0x1_0000 {
        LaterLanding(q, first, n);
      }
    }
  }

  lemma FirstLanding(q: Params, first: Port, n: nat)
    requires q.reserved > 0 && q.minPort <= first && n < PassLength(q, first)
    requires Expected(q, first, n) + q.reserved >= 0x1_0000
    ensures Expected(q, first, n) + q.reserved == first + PassLength(q, first) * q.reserved
  {
    NotLastOfPass(q, first, n);
    OneMore(n, q.reserved);
  }

  lemma LaterLanding(q: Params, first: Port, n: nat)
    requires q.reserved > 0 && q.minPort <= first && n >= PassLength(q, first)
    requires Expected(q, first, n) + q.reserved >= 0x1_0000
    ensures Expected(q, first, n) + q.reserved == q.minPort + PassLength(q, q.minPort) * q.reserved
  {
    CeilDivBounds(0x1_0000 - q.minPort, q.reserved);
    var j := (n - PassLength(q, first)) % PassLength(q, q.minPort);
    NotLastOfPass(q, q.minPort, j);
    OneMore(j, q.reserved);
  }

  /** The next step of thread `t` hands out a port and wraps the counter. */
  predicate Wraps(q: Params, s: Race, t: nat) {
    && t < |s.threads|
    && (s.threads[t] == Fetching || (s.threads[t] == Ready && s.current >= q.minPort))
    && s.current + q.reserved >= 0x1_0000
  }

  /** The counter wraps while another thread, `u`, has tested it and is about to fetch. */
  predicate WrapsUnder(q: Params, s: Race, t: nat, u: nat) {
    Wraps(q, s, t) && u != t && u < |s.threads| && s.threads[u] == Fetching
  }

  /** A step that leaves the counter at the next port, or wraps it with no other thread about to fetch. */
  lemma MoveAtNextPort(q: Params, first: Port, s: Race, t: nat)
    requires Started(q, first, |s.threads|) && LockHeld(s) && InOrder(q, first, s.handed)
    requires AtNextPort(q, first, s)
    ensures var s' := Move(q, s, t);
            LockHeld(s') && InOrder(q, first, s'.handed)
    ensures var s' := Move(q, s, t);
            if Wraps(q, s, t) then
              && Expected(q, first, |s'.handed|) == q.minPort
              && (s'.current == Landing(q, first) || s'.current == Landing(q, q.minPort))
              && s'.threads == s.threads[t := Ready]
            else AtNextPort(q, first, s')
  {
    FetchExpected(q, first, |s.handed|);
  }

  lemma AwayFetching(threads: seq<Thread>, u: nat)
    requires u < |threads| && threads[u] == Fetching
    ensures Away(threads) > 0
  {
    AwayUpdate(threads, u, Ready);
  }

  lemma AtNextPortMoves(q: Params, first: Port, s: Race, t: nat)
    requires Started(q, first, |s.threads|) && OnTrack(q, first, s) && AtNextPort(q, first, s)
    ensures (forall u :: !WrapsUnder(q, s, t, u)) ==> OnTrack(q, first, Move(q, s, t))
    ensures forall u :: WrapsUnder(q, s, t, u) ==> Stalled(q, first, Move(q, s, t), u)
  {
    MoveAtNextPort(q, first, s, t);
    var s' := Move(q, s, t);
    if Wraps(q, s, t) {
      TooLowLanding(q, first, s', 0);
      forall u | 0 <= u < |s.threads| && s'.threads[u] == Fetching
        ensures WrapsUnder(q, s, t, u) && TooLow(q, first, s', 1)
      {
        assert s'.threads[t] == Ready;
        AwayFetching(s'.threads, u);
        TooLowLanding(q, first, s', 1);
      }
    }
  }

  /** A thread that fetches while the counter is too low joins the reset branch. */
  lemma FetchTooLow(q: Params, first: Port, s: Race, t: nat, spare: nat)
    requires Margin(q, first, |s.threads|) && TooLow(q, first, s, spare)
    requires t < |s.threads| && s.threads[t] == Ready
    ensures var s' := Move(q, s, t);
            && TooLow(q, first, s', spare)
            && s'.threads == s.threads[t := Waiting] && s'.handed == s.handed && s'.lock == s.lock
    ensures !Wraps(q, s, t)
  {
    AwayUpdate(s.threads, t, Waiting);
    AwayBounded(s.threads[t := Waiting]);
    TooLowBound(q, first, s, spare);
    TooLowFetch(q, first, s, Move(q, s, t), spare);
  }

  /** Moving on inside the reset branch leaves a counter that is too low as it is. */
  lemma TooLowKept(q: Params, first: Port, s: Race, t: nat, spare: nat)
    requires q.reserved > 0 && TooLow(q, first, s, spare)
    requires t < |s.threads| && s.threads[t] in {Waiting, Testing}
    ensures TooLow(q, first, Move(q, s, t), spare)
  {
    AwayUpdate(s.threads, t, Move(q, s, t).threads[t]);
    var i: nat :|
      && i + spare <= Away(s.threads)
      && (s.current == Pos(q, Landing(q, first), i) || s.current == Pos(q, Landing(q, q.minPort), i));
    assert i + spare <= Away(Move(q, s, t).threads);
  }

  /** A thread inside the reset branch moves on; the one that resets puts the counter at the next port. */
  lemma MoveInBranch(q: Params, first: Port, s: Race, t: nat)
    requires Margin(q, first, |s.threads|) && LockHeld(s) && BeforeReset(q, first, s)
    requires t < |s.threads| && s.threads[t] != Ready
    ensures var s' := Move(q, s, t);
            && LockHeld(s') && s'.handed == s.handed
            && (BeforeReset(q, first, s') || AtNextPort(q, first, s'))
  {
    TooLowBound(q, first, s, 0);
    if s.threads[t] in {Waiting, Testing} {
      TooLowKept(q, first, s, t, 0);
    }
  }

  lemma BeforeResetMoves(q: Params, first: Port, s: Race, t: nat)
    requires Margin(q, first, |s.threads|) && OnTrack(q, first, s) && BeforeReset(q, first, s)
    ensures OnTrack(q, first, Move(q, s, t)) && forall u :: !WrapsUnder(q, s, t, u)
  {
    if t < |s.threads| {
      if s.threads[t] == Ready {
        FetchTooLow(q, first, s, t, 0);
      } else {
        MoveInBranch(q, first, s, t);
      }
    }
  }

  /** While a thread stalls, the others go into the reset branch and wait. */
  lemma StalledMoves(q: Params, first: Port, s: Race, t: nat, u: nat)
    requires Margin(q, first, |s.threads|) && Stalled(q, first, s, u) && t != u
    ensures Stalled(q, first, Move(q, s, t), u) && Move(q, s, t).handed == s.handed
    ensures !Wraps(q, s, t)
  {
    if t < |s.threads| && s.threads[t] == Ready {
      FetchTooLow(q, first, s, t, 1);
    } else if t < |s.threads| && s.threads[t] == Waiting {
      assert Move(q, s, t) == s;
    }
  }

  /** When it moves, it hands out a port below the lowest one. */
  lemma StalledFetches(q: Params, first: Port, s: Race, u: nat)
    requires Margin(q, first, |s.threads|) && Stalled(q, first, s, u)
    ensures Move(q, s, u).handed == s.handed + [s.current] && s.current < q.minPort
    ensures !InOrder(q, first, Move(q, s, u).handed)
  {
    TooLowBound(q, first, s, 1);
    FetchExpected(q, first, |s.handed|);
    assert Move(q, s, u).handed[|s.handed|] == s.current;
  }

  lemma StaysOutOfOrder(q: Params, first: Port, s: Race, t: nat)
    requires q.reserved > 0 && !InOrder(q, first, s.handed)
    ensures !InOrder(q, first, Move(q, s, t).handed)
  {
    var i :| 0 <= i < |s.handed| && s.handed[i] != Expected(q, first, i);
    assert Move(q, s, t).handed[i] == s.handed[i];
  }

  lemma {:induction false} ThreadsStay(q: Params, first: Port, threads: nat, schedule: seq<nat>)
    ensures |Moves(q, first, threads, schedule).threads| == threads
  {
    if schedule != [] {
      ThreadsStay(q, first, threads, schedule[..|schedule| - 1]);
    }
  }

  /** At step `k` of the schedule the counter wraps while thread `u` is about to fetch. */
  predicate Overtaken(q: Params, first: Port, threads: nat, schedule: seq<nat>, k: nat, u: nat) {
    k < |schedule| && WrapsUnder(q, Moves(q, first, threads, schedule[..k]), schedule[k], u)
  }

  lemma OvertakenBefore(q: Params, first: Port, threads: nat, p: seq<nat>, t: nat, k: nat, u: nat)
    ensures Overtaken(q, first, threads, p + [t], k, u) <==>
            if k == |p| then WrapsUnder(q, Moves(q, first, threads, p), t, u)
            else Overtaken(q, first, threads, p, k, u)
  {
    if k <= |p| {
      assert (p + [t])[..k] == p[..k];
      assert p[..|p|] == p;
    }
  }

  /** No overtaken thread has moved since. */
  ghost predicate OvertakenIdle(q: Params, first: Port, threads: nat, schedule: seq<nat>) {
    forall k, u :: Overtaken(q, first, threads, schedule, k, u) ==> u !in schedule[k + 1..]
  }

  ghost predicate NobodyOvertaken(q: Params, first: Port, threads: nat, schedule: seq<nat>) {
    forall k, u :: !Overtaken(q, first, threads, schedule, k, u)
  }

  /** Thread `u` was overtaken at step `k`, the only such step, and nothing was handed out since. */
  ghost predicate StalledSince(q: Params, first: Port, threads: nat, schedule: seq<nat>, k: nat, u: nat)
    requires q.reserved > 0
  {
    && Overtaken(q, first, threads, schedule, k, u)
    && u !in schedule[k + 1..]
    && (forall k', u' :: Overtaken(q, first, threads, schedule, k', u') ==> k' == k && u' == u)
    && Stalled(q, first, Moves(q, first, threads, schedule), u)
    && Moves(q, first, threads, schedule).handed == Moves(q, first, threads, schedule[..k + 1]).handed
  }

  /** Every schedule ends on track, with a stalled thread, or past the fetch of an overtaken thread. */
  ghost predicate Classified(q: Params, first: Port, threads: nat, schedule: seq<nat>)
    requires q.reserved > 0
  {
    var s := Moves(q, first, threads, schedule);
    || (NobodyOvertaken(q, first, threads, schedule) && OnTrack(q, first, s))
    || (exists k, u :: StalledSince(q, first, threads, schedule, k, u))
    || (!OvertakenIdle(q, first, threads, schedule) && !InOrder(q, first, s.handed))
  }

  lemma OnTrackStep(q: Params, first: Port, threads: nat, p: seq<nat>, t: nat)
    requires Margin(q, first, threads)
    requires NobodyOvertaken(q, first, threads, p) && OnTrack(q, first, Moves(q, first, threads, p))
    ensures Classified(q, first, threads, p + [t])
  {
    var s := Moves(q, first, threads, p);
    MovesStep(q, first, threads, p, t);
    ThreadsStay(q, first, threads, p);
    if AtNextPort(q, first, s) {
      AtNextPortMoves(q, first, s, t);
    } else {
      BeforeResetMoves(q, first, s, t);
    }
    if u :| WrapsUnder(q, s, t, u) {
      forall k, v ensures Overtaken(q, first, threads, p + [t], k, v) ==> k == |p| && v == u {
        OvertakenBefore(q, first, threads, p, t, k, v);
      }
      OvertakenBefore(q, first, threads, p, t, |p|, u);
      assert (p + [t])[..|p| + 1] == p + [t];
      assert StalledSince(q, first, threads, p + [t], |p|, u);
    } else {
      forall k, v ensures !Overtaken(q, first, threads, p + [t], k, v) {
        OvertakenBefore(q, first, threads, p, t, k, v);
      }
    }
  }

  lemma StalledStep(q: Params, first: Port, threads: nat, p: seq<nat>, t: nat, k: nat, u: nat)
    requires Margin(q, first, threads) && StalledSince(q, first, threads, p, k, u)
    ensures Classified(q, first, threads, p + [t])
  {
    var s := Moves(q, first, threads, p);
    MovesStep(q, first, threads, p, t);
    ThreadsStay(q, first, threads, p);
    OvertakenBefore(q, first, threads, p, t, k, u);
    assert (p + [t])[k + 1..] == p[k + 1..] + [t];
    if t == u {
      StalledFetches(q, first, s, u);
      assert !OvertakenIdle(q, first, threads, p + [t]);
    } else {
      StalledMoves(q, first, s, t, u);
      forall k', u' ensures Overtaken(q, first, threads, p + [t], k', u') ==> k' == k && u' == u {
        OvertakenBefore(q, first, threads, p, t, k', u');
      }
      assert (p + [t])[..k + 1] == p[..k + 1];
      assert StalledSince(q, first, threads, p + [t], k, u);
    }
  }

  lemma OutOfOrderStep(q: Params, first: Port, threads: nat, p: seq<nat>, t: nat)
    requires q.reserved > 0 && !OvertakenIdle(q, first, threads, p)
    requires !InOrder(q, first, Moves(q, first, threads, p).handed)
    ensures Classified(q, first, threads, p + [t])
  {
    MovesStep(q, first, threads, p, t);
    StaysOutOfOrder(q, first, Moves(q, first, threads, p), t);
    var k, u :| Overtaken(q, first, threads, p, k, u) && u in p[k + 1..];
    OvertakenMoved(q, first, threads, p, t, k, u);
  }

  lemma OvertakenMoved(q: Params, first: Port, threads: nat, p: seq<nat>, t: nat, k: nat, u: nat)
    requires Overtaken(q, first, threads, p, k, u) && u in p[k + 1..]
    ensures !OvertakenIdle(q, first, threads, p + [t])
  {
    OvertakenBefore(q, first, threads, p, t, k, u);
    assert (p + [t])[k + 1..] == p[k + 1..] + [t];
  }

  lemma {:induction false} EverySchedule(q: Params, first: Port, threads: nat, schedule: seq<nat>)
    requires Margin(q, first, threads)
    ensures Classified(q, first, threads, schedule)
  {
    if schedule == [] {
      ExpectedStart(q, first);
    } else {
      var p, t := schedule[..|schedule| - 1], schedule[|schedule| - 1];
      assert schedule == p + [t];
      EverySchedule(q, first, threads, p);
      if NobodyOvertaken(q, first, threads, p) && OnTrack(q, first, Moves(q, first, threads, p)) {
        OnTrackStep(q, first, threads, p, t);
      } else if k, u :| StalledSince(q, first, threads, p, k, u) {
        StalledStep(q, first, threads, p, t, k, u);
      } else {
        OutOfOrderStep(q, first, threads, p, t);
      }
    }
  }

  /**
   If the counter cannot pass the lowest port before it is reset, an interleaving of the atomic steps, of
   any length, hands out exactly the ports of the atomic calls, in order, if and only if no thread fetches
   on the strength of a test that the counter has wrapped since.
   */
  lemma {:induction false} RaceMatchesAtomicCalls(q: Params, first: Port, threads: nat, schedule: seq<nat>)
    requires Margin(q, first, threads)
    ensures InOrder(q, first, Moves(q, first, threads, schedule).handed) <==>
            OvertakenIdle(q, first, threads, schedule)
  {
    EverySchedule(q, first, threads, schedule);
  }

  /**
   From the wrap that overtakes a thread until that thread moves, nothing is handed out, and then the
   thread hands out a port below the lowest one.
   */
  lemma {:induction false} OvertakenThreadGoesBelow(
    q: Params, first: Port, threads: nat, schedule: seq<nat>, k: nat, u: nat)
    requires Margin(q, first, threads) && OvertakenIdle(q, first, threads, schedule)
    requires Overtaken(q, first, threads, schedule, k, u)
    ensures var s, s' := Moves(q, first, threads, schedule), Moves(q, first, threads, schedule + [u]);
            && s.handed == Moves(q, first, threads, schedule[..k + 1]).handed
            && s'.handed == s.handed + [s.current] && s.current < q.minPort
  {
    EverySchedule(q, first, threads, schedule);
    ThreadsStay(q, first, threads, schedule);
    MovesStep(q, first, threads, schedule, u);
    var k', u' :| StalledSince(q, first, threads, schedule, k', u');
    StalledFetches(q, first, Moves(q, first, threads, schedule), u);
  }

  lemma MovesStep(q: Params, first: Port, threads: nat, schedule: seq<nat>, t: nat)
    ensures Moves(q, first, threads, schedule + [t]) == Move(q, Moves(q, first, threads, schedule), t)
  {
    assert (schedule + [t])[..|schedule|] == schedule;
  }

  /** Two threads, blocks of 10000 ports from port 30000 up; the first port handed out is 60000. */
  function Example(schedule: seq<nat>): Race {
    Moves(Params(10000, 30000), 60000, 2, schedule)
  }

  lemma ExampleStep(schedule: seq<nat>, t: nat)
    ensures Example(schedule + [t]) == Move(Params(10000, 30000), Example(schedule), t)
  {
    MovesStep(Params(10000, 30000), 60000, 2, schedule, t);
  }

  /** Both threads find the wrapped counter too low. */
  lemma BothTooLow()
    ensures Example([] + [0] + [0] + [1]) == Race(24464, None, [Waiting, Waiting], [60000])
  {
    assert Begin(60000, 2).threads == [Ready, Ready];
    ExampleStep([], 0);
    ExampleStep([] + [0], 0);
    ExampleStep([] + [0] + [0], 1);
  }

  /** Thread 0 resets the counter and hands out the lowest port. */
  lemma OneResets(p: seq<nat>)
    requires Example(p) == Race(24464, None, [Waiting, Waiting], [60000])
    ensures Example(p + [0] + [0] + [0] + [0]) == Race(40000, None, [Ready, Waiting], [60000, 30000])
  {
    ExampleStep(p, 0);
    assert Example(p + [0]).threads == [Testing, Waiting];
    ExampleStep(p + [0], 0);
    assert Example(p + [0] + [0]).threads == [Storing, Waiting];
    ExampleStep(p + [0] + [0], 0);
    assert Example(p + [0] + [0] + [0]).threads == [Fetching, Waiting];
    ExampleStep(p + [0] + [0] + [0], 0);
  }

  /** Thread 1 finds the counter in order and stalls; thread 0 uses up the pass. */
  lemma OtherStalls(p: seq<nat>)
    requires Example(p) == Race(40000, None, [Ready, Waiting], [60000, 30000])
    ensures Example(p + [1] + [1] + [0] + [0] + [0]) ==
            Race(4464, Some(1), [Ready, Fetching], [60000, 30000, 40000, 50000, 60000])
  {
    ExampleStep(p, 1);
    assert Example(p + [1]).threads == [Ready, Testing];
    ExampleStep(p + [1], 1);
    var r := p + [1] + [1];
    assert Example(r) == Race(40000, Some(1), [Ready, Fetching], [60000, 30000]);
    ExampleStep(r, 0);
    ExampleStep(r + [0], 0);
    ExampleStep(r + [0] + [0], 0);
  }

  /**
   The condition can fail from the second wrap on: a thread that has tested the counter and then stalls
   while another uses up the pass hands out port 4464, below the lowest port 30000.
   */
  lemma StalledThreadGoesBelow()
    ensures exists schedule :: Example(schedule).handed == [60000, 30000, 40000, 50000, 60000, 4464]
  {
    BothTooLow();
    var p := [] + [0] + [0] + [1];
    OneResets(p);
    p := p + [0] + [0] + [0] + [0];
    OtherStalls(p);
    p := p + [1] + [1] + [0] + [0] + [0];
    ExampleStep(p, 1);
    assert Example(p + [1]).handed == [60000, 30000, 40000, 50000, 60000, 4464];
  }
}
