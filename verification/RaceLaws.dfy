/**
 Racing threads: what the margin of the race means, that it is needed, and that the ports stay apart
 when the entering of bases and the draws are interleaved with the counter's steps.
 */
module RaceLaws {
  import opened Wire
  import opened PortManager
  import opened PortLaws
  import opened PortBlocks
  import opened PortRace

  // ----- the margin in numbers

  lemma LandingBelowBlock(q: Params, start: Port)
    requires q.reserved > 0
    ensures Landing(q, start) == start + PassLength(q, start) * q.reserved - 0x1_0000 < q.reserved
  {
    CeilDivBounds(0x1_0000 - start, q.reserved);
    OneMore(PassLength(q, start) - 1, q.reserved);
  }

  lemma LowPos(q: Params, landing: Port, threads: nat, i: nat)
    requires i < threads && landing + threads * q.reserved <= q.minPort
    ensures Pos(q, landing, i) == landing + i * q.reserved <= q.minPort - q.reserved
  {
    MulMonotone(i + 1, threads, q.reserved);
    OneMore(i, q.reserved);
  }

  lemma LinearClears(q: Params, landing: Port, threads: nat)
    requires q.reserved > 0 && landing + threads * q.reserved <= q.minPort
    ensures Clears(q, landing, threads)
  {
    forall i | 0 <= i < threads ensures Pos(q, landing, i) < q.minPort {
      LowPos(q, landing, threads, i);
    }
    assert Pos(q, landing, threads) == landing + threads * q.reserved;
  }

  /** One block for every thread above both landings is enough; so is one block more in all. */
  lemma BlockPerThread(q: Params, first: Port, threads: nat)
    requires Started(q, first, threads)
    ensures && Landing(q, first) + threads * q.reserved <= q.minPort
            && Landing(q, q.minPort) + threads * q.reserved <= q.minPort
            ==> Margin(q, first, threads)
    ensures (threads + 1) * q.reserved <= q.minPort ==> Margin(q, first, threads)
  {
    LandingBelowBlock(q, first);
    LandingBelowBlock(q, q.minPort);
    OneMore(threads, q.reserved);
    if Landing(q, first) + threads * q.reserved <= q.minPort &&
       Landing(q, q.minPort) + threads * q.reserved <= q.minPort
    {
      LinearClears(q, Landing(q, first), threads);
      LinearClears(q, Landing(q, q.minPort), threads);
    }
  }

  /**
   The runners' 16 threads: always within the margin with the default blocks, and with 50 simulated
   allocations a second, exactly if the first pass lands at most at port 200.
   */
  lemma RunnersMargin(first: Port)
    requires 5000 <= first
    ensures Margin(Params(75, 5000), first, 16)
    ensures Margin(Params(300, 5000), first, 16) <==> Landing(Params(300, 5000), first) <= 200
  {
    BlockPerThread(Params(75, 5000), first, 16);
    var q := Params(300, 5000);
    BlockPerThread(q, first, 16);
    LandingBelowBlock(q, first);
    assert PassLength(q, 5000) == 202;
    LandingBelowBlock(q, 5000);
    assert Pos(q, Landing(q, first), 16) == Landing(q, first) + 4800;
  }

  // ----- the margin is needed

  /** Some fetch from the landing on finds the counter above the lowest port, all earlier ones below it. */
  ghost predicate PassesOver(q: Params, landing: Port, threads: nat) {
    exists i :: 0 <= i <= threads && JumpsAt(q, landing, i)
  }

  predicate JumpsAt(q: Params, landing: Port, i: nat) {
    Pos(q, landing, i) > q.minPort && forall j :: 0 <= j < i ==> Pos(q, landing, j) < q.minPort
  }

  /** A step taken while no other thread is about to fetch overtakes nobody. */
  lemma QuietStep(q: Params, first: Port, threads: nat, p: seq<nat>, t: nat)
    requires NobodyOvertaken(q, first, threads, p)
    requires var s := Moves(q, first, threads, p);
             forall u :: 0 <= u < |s.threads| && u != t ==> s.threads[u] != Fetching
    ensures NobodyOvertaken(q, first, threads, p + [t])
    ensures Moves(q, first, threads, p + [t]) == Move(q, Moves(q, first, threads, p), t)
  {
    MovesStep(q, first, threads, p, t);
    forall k, v ensures !Overtaken(q, first, threads, p + [t], k, v) {
      OvertakenBefore(q, first, threads, p, t, k, v);
    }
  }

  /** Where the counter stands after handing out `n` ports in order, not yet reset. */
  function NextFetch(q: Params, first: Port, n: nat): Port
    requires q.reserved > 0
  {
    if n == 0 then first else Wrap16(Expected(q, first, n - 1) + q.reserved)
  }

  /** `n` ports have been handed out, in order, and every thread is ready. */
  ghost predicate SoloAt(q: Params, first: Port, threads: nat, p: seq<nat>, n: nat)
    requires q.reserved > 0
  {
    var s := Moves(q, first, threads, p);
    && NobodyOvertaken(q, first, threads, p)
    && |s.threads| == threads > 0 && s.lock == None
    && (forall t :: 0 <= t < threads ==> s.threads[t] == Ready)
    && |s.handed| == n && InOrder(q, first, s.handed) && s.current == NextFetch(q, first, n)
  }

  lemma SoloFetch(q: Params, first: Port, threads: nat, p: seq<nat>, n: nat)
    requires Started(q, first, threads) && SoloAt(q, first, threads, p, n)
    requires NextFetch(q, first, n) == Expected(q, first, n) >= q.minPort
    ensures SoloAt(q, first, threads, p + [0], n + 1)
  {
    QuietStep(q, first, threads, p, 0);
  }

  /** Thread 0 alone finds the counter too low, resets it if it still is, and hands out the lowest port. */
  lemma SoloReset(q: Params, first: Port, threads: nat, p: seq<nat>, n: nat) returns (r: seq<nat>)
    requires Started(q, first, threads) && SoloAt(q, first, threads, p, n)
    requires Expected(q, first, n) == q.minPort
    requires NextFetch(q, first, n) < q.minPort && Wrap16(NextFetch(q, first, n) + q.reserved) <= q.minPort
    ensures SoloAt(q, first, threads, r, n + 1)
  {
    QuietStep(q, first, threads, p, 0);
    r := SoloTests(q, first, threads, p + [0], n);
    SoloHandsLowest(q, first, threads, r, n);
    r := r + [0];
  }

  /** Thread 0, at `stage`, and no other thread are inside the reset branch. */
  ghost predicate SoloInside(q: Params, first: Port, threads: nat, p: seq<nat>, n: nat, stage: Thread)
    requires q.reserved > 0
  {
    var s := Moves(q, first, threads, p);
    && NobodyOvertaken(q, first, threads, p)
    && |s.threads| == threads > 0 && s.threads[0] == stage
    && (forall t :: 0 < t < threads ==> s.threads[t] == Ready)
    && |s.handed| == n && InOrder(q, first, s.handed)
  }

  lemma SoloTests(q: Params, first: Port, threads: nat, p: seq<nat>, n: nat) returns (r: seq<nat>)
    requires Started(q, first, threads) && SoloInside(q, first, threads, p, n, Waiting)
    requires Moves(q, first, threads, p).lock == None && Moves(q, first, threads, p).current <= q.minPort
    ensures SoloInside(q, first, threads, r, n, Fetching)
    ensures Moves(q, first, threads, r).current == q.minPort
  {
    QuietStep(q, first, threads, p, 0);
    assert SoloInside(q, first, threads, p + [0], n, Testing);
    QuietStep(q, first, threads, p + [0], 0);
    r := p + [0] + [0];
    if Moves(q, first, threads, p).current < q.minPort {
      assert SoloInside(q, first, threads, r, n, Storing);
      QuietStep(q, first, threads, r, 0);
      r := r + [0];
    }
  }

  lemma SoloHandsLowest(q: Params, first: Port, threads: nat, p: seq<nat>, n: nat)
    requires Started(q, first, threads) && Expected(q, first, n) == q.minPort
    requires SoloInside(q, first, threads, p, n, Fetching)
    requires Moves(q, first, threads, p).current == q.minPort
    ensures SoloAt(q, first, threads, p + [0], n + 1)
  {
    var s := Moves(q, first, threads, p);
    QuietStep(q, first, threads, p, 0);
    InOrderExtends(q, first, s.handed, q.minPort);
    NextAfter(q, first, n);
    assert Moves(q, first, threads, p + [0]).handed == s.handed + [q.minPort];
  }

  lemma InOrderExtends(q: Params, first: Port, handed: seq<Port>, port: Port)
    requires q.reserved > 0 && InOrder(q, first, handed) && port == Expected(q, first, |handed|)
    ensures InOrder(q, first, handed + [port])
  {
  }

  lemma NextAfter(q: Params, first: Port, n: nat)
    requires q.reserved > 0
    ensures NextFetch(q, first, n + 1) == Wrap16(Expected(q, first, n) + q.reserved)
  {
  }

  /** Within the second pass only its last port wraps the counter. */
  lemma NoWrapInSecondPass(q: Params, first: Port, n: nat)
    requires q.reserved > 0 && q.minPort <= first
    requires PassLength(q, first) <= n
    ensures n + 1 < PassLength(q, first) + PassLength(q, q.minPort) ==>
              Expected(q, first, n) + q.reserved < 0x1_0000
    ensures n + 1 == PassLength(q, first) + PassLength(q, q.minPort) ==>
              Expected(q, first, n) + q.reserved >= 0x1_0000
  {
    CeilDivBounds(0x1_0000 - q.minPort, q.reserved);
    var j := n - PassLength(q, first);
    if j < PassLength(q, q.minPort) {
      SmallMod(j, PassLength(q, q.minPort));
      NotLastOfPass(q, q.minPort, j);
    }
  }

  lemma NoWrapInFirstPass(q: Params, first: Port, n: nat)
    requires q.reserved > 0 && q.minPort <= first && n < PassLength(q, first)
    ensures n + 1 < PassLength(q, first) <==> Expected(q, first, n) + q.reserved < 0x1_0000
  {
    NotLastOfPass(q, first, n);
  }

  /** The counter on the way to the second landing: at the next port, or at the first landing. */
  lemma NextInOrder(q: Params, first: Port, n: nat)
    requires q.reserved > 0 && q.minPort <= first && n < PassLength(q, first) + PassLength(q, q.minPort)
    ensures if n == PassLength(q, first)
            then NextFetch(q, first, n) == Landing(q, first) && Expected(q, first, n) == q.minPort
            else NextFetch(q, first, n) == Expected(q, first, n) >= q.minPort
  {
    LapPositive(q, first);
    if n == 0 {
      ExpectedStart(q, first);
    } else {
      FetchExpected(q, first, n - 1);
      FetchExpected(q, first, n);
      if n <= PassLength(q, first) {
        NoWrapInFirstPass(q, first, n - 1);
      } else {
        NoWrapInSecondPass(q, first, n - 1);
      }
    }
  }

  lemma {:induction false} Solo(q: Params, first: Port, threads: nat, n: nat) returns (p: seq<nat>)
    requires Started(q, first, threads)
    requires n <= PassLength(q, first) + PassLength(q, q.minPort)
    requires n <= PassLength(q, first) || !PassesOver(q, Landing(q, first), threads)
    ensures SoloAt(q, first, threads, p, n)
  {
    p := [];
    if n > 0 {
      p := Solo(q, first, threads, n - 1);
      NextInOrder(q, first, n - 1);
      if n - 1 == PassLength(q, first) {
        p := SoloLanding(q, first, threads, p, n - 1);
      } else {
        SoloFetch(q, first, threads, p, n - 1);
        p := p + [0];
      }
    }
  }

  lemma SoloLanding(q: Params, first: Port, threads: nat, p: seq<nat>, n: nat) returns (r: seq<nat>)
    requires Started(q, first, threads) && SoloAt(q, first, threads, p, n)
    requires Expected(q, first, n) == q.minPort
    requires !PassesOver(q, NextFetch(q, first, n), threads)
    ensures SoloAt(q, first, threads, r, n + 1)
  {
    var w := NextFetch(q, first, n);
    PosStart(q, w);
    PosNext(q, w, 0);
    assert !JumpsAt(q, w, 0) && !JumpsAt(q, w, 1);
    if w == q.minPort {
      SoloFetch(q, first, threads, p, n);
      r := p + [0];
    } else {
      r := SoloReset(q, first, threads, p, n);
    }
  }

  /** From the landing on, the first `i` threads have fetched too low a port each. */
  ghost predicate FetchedLow(q: Params, first: Port, threads: nat, p: seq<nat>, n: nat, w: Port, i: nat)
    requires q.reserved > 0
  {
    var s := Moves(q, first, threads, p);
    && NobodyOvertaken(q, first, threads, p)
    && |s.threads| == threads && i <= threads && s.lock == None
    && (forall t :: 0 <= t < i ==> s.threads[t] == Waiting)
    && (forall t :: i <= t < threads ==> s.threads[t] == Ready)
    && |s.handed| == n && s.current == Pos(q, w, i)
  }

  lemma {:induction false} LowFetches(q: Params, first: Port, threads: nat, p: seq<nat>, n: nat, w: Port, i: nat)
    returns (r: seq<nat>)
    requires Started(q, first, threads) && SoloAt(q, first, threads, p, n) && w == NextFetch(q, first, n)
    requires i <= threads && forall j :: 0 <= j < i ==> Pos(q, w, j) < q.minPort
    ensures FetchedLow(q, first, threads, r, n, w, i)
  {
    if i == 0 {
      r := p;
      PosStart(q, w);
    } else {
      r := LowFetches(q, first, threads, p, n, w, i - 1);
      OneLowFetch(q, first, threads, r, n, w, i - 1);
      r := r + [i - 1];
    }
  }

  lemma OneLowFetch(q: Params, first: Port, threads: nat, p: seq<nat>, n: nat, w: Port, i: nat)
    requires Started(q, first, threads) && FetchedLow(q, first, threads, p, n, w, i)
    requires i < threads && Pos(q, w, i) < q.minPort
    ensures FetchedLow(q, first, threads, p + [i], n, w, i + 1)
  {
    QuietStep(q, first, threads, p, i);
    PosNext(q, w, i);
  }

  /** Thread 0 finds the counter no longer too low. */
  lemma TestsAbove(q: Params, first: Port, threads: nat, p: seq<nat>, n: nat, w: Port, i: nat)
    requires Started(q, first, threads) && FetchedLow(q, first, threads, p, n, w, i)
    requires i > 0 && Pos(q, w, i) > q.minPort
    ensures NobodyOvertaken(q, first, threads, p + [0] + [0])
    ensures var s := Moves(q, first, threads, p + [0] + [0]);
            && |s.threads| == threads && s.threads[0] == Fetching
            && (forall t :: 0 < t < threads ==> s.threads[t] != Fetching)
            && |s.handed| == n && s.current == Pos(q, w, i)
  {
    QuietStep(q, first, threads, p, 0);
    QuietStep(q, first, threads, p + [0], 0);
  }

  /** The counter jumps over the lowest port, and the port it has jumped to is handed out next. */
  lemma JumpIsHandedOut(q: Params, first: Port, threads: nat, p: seq<nat>, n: nat, i: nat) returns (r: seq<nat>)
    requires Started(q, first, threads) && SoloAt(q, first, threads, p, n)
    requires Expected(q, first, n) == q.minPort && i <= threads && JumpsAt(q, NextFetch(q, first, n), i)
    ensures NobodyOvertaken(q, first, threads, r) && !InOrder(q, first, Moves(q, first, threads, r).handed)
  {
    var w := NextFetch(q, first, n);
    if i == 0 {
      PosStart(q, w);
      r := p;
    } else {
      r := LowFetches(q, first, threads, p, n, w, i);
      TestsAbove(q, first, threads, r, n, w, i);
      r := r + [0] + [0];
    }
    QuietStep(q, first, threads, r, 0);
    r := r + [0];
    assert Moves(q, first, threads, r).handed[n] == Pos(q, w, i);
  }

  /** If the counter jumps over the lowest port after some pass, some schedule goes wrong without any overtaking. */
  lemma JumpFails(q: Params, first: Port, threads: nat) returns (r: seq<nat>)
    requires Started(q, first, threads)
    requires PassesOver(q, Landing(q, first), threads) || PassesOver(q, Landing(q, q.minPort), threads)
    ensures NobodyOvertaken(q, first, threads, r) && !InOrder(q, first, Moves(q, first, threads, r).handed)
  {
    var k, l := PassLength(q, first), PassLength(q, q.minPort);
    LapPositive(q, first);
    LapPositive(q, q.minPort);
    if PassesOver(q, Landing(q, first), threads) {
      NextInOrder(q, first, k);
      var p := Solo(q, first, threads, k);
      var i :| 0 <= i <= threads && JumpsAt(q, Landing(q, first), i);
      r := JumpIsHandedOut(q, first, threads, p, k, i);
    } else {
      NoWrapInSecondPass(q, first, k + l - 1);
      FetchExpected(q, first, k + l - 1);
      var p := Solo(q, first, threads, k + l);
      var i :| 0 <= i <= threads && JumpsAt(q, Landing(q, q.minPort), i);
      r := JumpIsHandedOut(q, first, threads, p, k + l, i);
    }
  }

  /** No fetch from the landing on finds the counter exactly at the lowest port. */
  predicate Misses(q: Params, landing: Port, threads: nat) {
    forall i :: 0 <= i <= threads ==> Pos(q, landing, i) != q.minPort
  }

  lemma {:induction false} FirstJump(q: Params, landing: Port, threads: nat, k: nat)
    requires Misses(q, landing, threads) && k <= threads && Pos(q, landing, k) > q.minPort
    ensures PassesOver(q, landing, threads)
  {
    if j :| 0 <= j < k && Pos(q, landing, j) >= q.minPort {
      FirstJump(q, landing, threads, j);
    } else {
      assert JumpsAt(q, landing, k);
    }
  }

  lemma JumpsUnlessClear(q: Params, landing: Port, threads: nat)
    requires Misses(q, landing, threads) && !Clears(q, landing, threads)
    ensures PassesOver(q, landing, threads)
  {
    var k :| 0 <= k <= threads && Pos(q, landing, k) >= q.minPort;
    FirstJump(q, landing, threads, k);
  }

  /** The schedule hands out the ports of the atomic calls exactly if no overtaken thread has moved. */
  ghost predicate Faithful(q: Params, first: Port, threads: nat, schedule: seq<nat>)
    requires q.reserved > 0
  {
    InOrder(q, first, Moves(q, first, threads, schedule).handed) <==> OvertakenIdle(q, first, threads, schedule)
  }

  /**
   The margin is exact, unless the counter happens to hit the lowest port itself: every schedule is
   faithful if and only if the counter cannot jump over the lowest port before it is reset.
   */
  lemma MarginCondition(q: Params, first: Port, threads: nat)
    requires Started(q, first, threads)
    requires Misses(q, Landing(q, first), threads) && Misses(q, Landing(q, q.minPort), threads)
    ensures (forall schedule :: Faithful(q, first, threads, schedule)) <==> Margin(q, first, threads)
  {
    if Margin(q, first, threads) {
      forall schedule ensures Faithful(q, first, threads, schedule) {
        RaceMatchesAtomicCalls(q, first, threads, schedule);
      }
    } else {
      if !Clears(q, Landing(q, first), threads) {
        JumpsUnlessClear(q, Landing(q, first), threads);
      } else {
        JumpsUnlessClear(q, Landing(q, q.minPort), threads);
      }
      var r := JumpFails(q, first, threads);
      assert !Faithful(q, first, threads, r);
    }
  }

  // ----- bases entered and ports drawn while others fetch

  /** The bases that were entered had been handed out, and each was entered once. */
  predicate EnteredOnce(handed: seq<Port>, bases: seq<Port>) {
    && (forall i :: 0 <= i < |bases| ==> bases[i] in handed)
    && (forall i, j :: 0 <= i < j < |bases| ==> bases[i] != bases[j])
  }

  lemma EnteredApart(q: Params, first: Port, handed: seq<Port>, bases: seq<Port>)
    requires q.reserved > 0 && q.minPort <= first
    requires InOrder(q, first, handed) && |handed| <= Lap(q, first) && EnteredOnce(handed, bases)
    ensures AllApart(q, bases) && AllAtLeast(bases, q.minPort)
  {
    forall i | 0 <= i < |bases| ensures q.minPort <= bases[i] {
      var k :| 0 <= k < |handed| && handed[k] == bases[i];
      FetchExpected(q, first, k);
    }
    forall i, j | 0 <= i < j < |bases| ensures Apart(q, bases[i], bases[j]) {
      var k :| 0 <= k < |handed| && handed[k] == bases[i];
      var l :| 0 <= l < |handed| && handed[l] == bases[j];
      if k < l {
        ExpectedApart(q, first, k, l);
      } else {
        ExpectedApart(q, first, l, k);
      }
    }
  }

  /**
   Neither the order of the counter's steps nor that of the map's matters: if threads race for at most
   a lap of base ports, enter them into the map in any order and draw from them at any time, with room
   in every block, all ports handed out are different and every derived port is inside its block.
   */
  lemma RacingDistinctness(q: Params, first: Port, threads: nat, schedule: seq<nat>, ops: seq<MapOp>)
    requires Margin(q, first, threads) && OvertakenIdle(q, first, threads, schedule)
    requires |Moves(q, first, threads, schedule).handed| <= Lap(q, first)
    requires var log := RunMap(q, map[], ops).1;
             EnteredOnce(Moves(q, first, threads, schedule).handed, Bases(log)) && Roomy(q, AdvancesOf(log))
    ensures Distinct(RunMap(q, map[], ops).1) && DerivedInside(q, RunMap(q, map[], ops).1)
  {
    RaceMatchesAtomicCalls(q, first, threads, schedule);
    EnteredApart(q, first, Moves(q, first, threads, schedule).handed, Bases(RunMap(q, map[], ops).1));
    MapDistinctness(q, ops);
  }
}
