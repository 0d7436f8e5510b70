/**
 Two clients behind network address translators that scan for each other. The translators are an
 assumption: address-and-port-dependent mapping (section 4.1 of RFC 4787) with sequential
 allocation, and address-and-port-dependent filtering (section 5 of RFC 4787).
 */
module ScanNat {
  import opened Wire
  import opened PortPrediction

  /** The external host, the next external port, and the mapping of each (socket, destination) pair. */
  datatype Translator = Translator(host: nat, next: Port, table: map<(nat, Addr), Port>)

  /** A datagram from `socket` to `dst`: reuse its mapping or make the next one. */
  function Outbound(n: Translator, socket: nat, dst: Addr): Translator {
    if (socket, dst) in n.table then n
    else n.(next := Wrap16(n.next + 1), table := n.table[(socket, dst) := n.next])
  }

  /** A datagram from `src` to external port `port` is let through to `socket`. */
  predicate Admits(n: Translator, port: Port, src: Addr, socket: nat) {
    (socket, src) in n.table && n.table[(socket, src)] == port
  }

  /** The scan loop: each of `k` sockets, numbered from `base`, sends one request to the same target. */
  function Scan(n: Translator, base: nat, target: Addr, k: nat): Translator {
    if k == 0 then n else Outbound(Scan(n, base, target, k - 1), base + k - 1, target)
  }

  /** A mapping, once made, serves every further datagram of the same socket to the same destination. */
  lemma MappingStays(n: Translator, socket: nat, dst: Addr, other: nat, to: Addr)
    ensures var m := Outbound(n, socket, dst);
            && (socket, dst) in m.table && Outbound(m, socket, dst) == m
            && ((socket, dst) in Outbound(m, other, to).table)
            && Outbound(m, other, to).table[(socket, dst)] == m.table[(socket, dst)]
  {
  }

  /** None of the sockets from `base` on has been used. */
  predicate Unused(n: Translator, base: nat) {
    forall p :: p in n.table ==> p.0 < base
  }

  /** The mappings of the sockets from `base` on are `k` consecutive ones to the same target. */
  ghost predicate Mapped(n: Translator, start: Port, base: nat, target: Addr, k: nat) {
    && n.next == Wrap16(start + k)
    && (forall i, dst :: i >= base ==> ((i, dst) in n.table <==> dst == target && i < base + k))
    && (forall i :: base <= i < base + k ==> n.table[(i, target)] == Wrap16(start + (i - base)))
  }

  lemma OutboundMaps(n: Translator, start: Port, base: nat, target: Addr, k: nat)
    requires Mapped(n, start, base, target, k)
    ensures Mapped(Outbound(n, base + k, target), start, base, target, k + 1)
  {
    assert (base + k, target) !in n.table;
  }

  lemma {:induction false} ScanMappings(n: Translator, base: nat, target: Addr, k: nat)
    requires Unused(n, base)
    ensures var m := Scan(n, base, target, k);
            m.host == n.host && Mapped(m, n.next, base, target, k)
  {
    if k > 0 {
      ScanMappings(n, base, target, k - 1);
      OutboundMaps(Scan(n, base, target, k - 1), n.next, base, target, k - 1);
    }
  }

  /** What socket `i` behind `a` sends to `target` reaches socket `j` behind `b`. */
  predicate Reaches(a: Translator, i: nat, target: Addr, b: Translator, j: nat) {
    && (i, target) in a.table
    && target.host == b.host
    && Admits(b, target.port, Addr(a.host, a.table[(i, target)]), j)
  }

  /** The two sockets reach each other. */
  predicate Linked(a: Translator, i: nat, aTarget: Addr, b: Translator, j: nat, bTarget: Addr) {
    Reaches(a, i, aTarget, b, j) && Reaches(b, j, bTarget, a, i)
  }

  /** How far `port` lies past `start`, counting through the wrap. */
  function Offset(port: Port, start: Port): nat {
    Wrap16(port - start)
  }

  /**
   After both scans, scan sockets `i` and `j` reach each other exactly if `i` is the one whose
   mapping the peer predicted and `j` the one whose mapping was predicted of the peer. So there is
   one such pair if both predictions fall in the other's window, and none otherwise.
   */
  lemma MutualHit(a: Translator, b: Translator, ka: nat, kb: nat, aGuess: Port, bGuess: Port, i: nat, j: nat)
    requires Unused(a, ka) && Unused(b, kb)
    requires ka <= i < ka + SCAN_RANGE && kb <= j < kb + SCAN_RANGE
    ensures var aTarget, bTarget := Addr(b.host, aGuess), Addr(a.host, bGuess);
            var a', b' := Scan(a, ka, aTarget, SCAN_RANGE), Scan(b, kb, bTarget, SCAN_RANGE);
            Linked(a', i, aTarget, b', j, bTarget) <==>
            i == ka + Offset(bGuess, a.next) && j == kb + Offset(aGuess, b.next)
  {
    var aTarget, bTarget := Addr(b.host, aGuess), Addr(a.host, bGuess);
    var a', b' := Scan(a, ka, aTarget, SCAN_RANGE), Scan(b, kb, bTarget, SCAN_RANGE);
    Arrival(a, b, ka, kb, aTarget, bTarget, SCAN_RANGE, SCAN_RANGE, i - ka, j);
    Arrival(b, a, kb, ka, bTarget, aTarget, SCAN_RANGE, SCAN_RANGE, j - kb, i);
    OffsetUnique(bGuess, a.next, i - ka);
    OffsetUnique(aGuess, b.next, j - kb);
  }

  /**
   Arrival while both scans are under way: when `a` has sent from `m` sockets and `b` from `n`, what
   scan socket `i` of `a` sent is let through to a scan socket of `b` exactly if `b` predicted its
   port, and the socket is among the `n` and is the one whose port `a` predicted.
   */
  lemma Arrival(a: Translator, b: Translator, ka: nat, kb: nat, aTarget: Addr, bTarget: Addr,
                m: nat, n: nat, i: nat, j: nat)
    requires Unused(a, ka) && Unused(b, kb)
    requires i < m && kb <= j
    requires aTarget.host == b.host && bTarget.host == a.host
    ensures Reaches(Scan(a, ka, aTarget, m), ka + i, aTarget, Scan(b, kb, bTarget, n), j) <==>
            && bTarget.port == Wrap16(a.next + i)
            && j < kb + n && aTarget.port == Wrap16(b.next + (j - kb))
  {
    ScanMappings(a, ka, aTarget, m);
    ScanMappings(b, kb, bTarget, n);
  }

  lemma OffsetUnique(port: Port, start: Port, k: nat)
    requires k < SCAN_RANGE
    ensures port == Wrap16(start + k) <==> k == Offset(port, start)
  {
  }

  /** After both scans at the guessed ports, some pair of scan sockets reaches each other. */
  ghost predicate ScansMeet(a: Translator, b: Translator, ka: nat, kb: nat, aGuess: Port, bGuess: Port) {
    var aTarget, bTarget := Addr(b.host, aGuess), Addr(a.host, bGuess);
    var a', b' := Scan(a, ka, aTarget, SCAN_RANGE), Scan(b, kb, bTarget, SCAN_RANGE);
    exists i, j :: ka <= i < ka + SCAN_RANGE && kb <= j < kb + SCAN_RANGE
                   && Linked(a', i, aTarget, b', j, bTarget)
  }

  /** The scan connects some pair of sockets exactly if each guess is in the other's window. */
  lemma ScanSucceedsIfBothHit(a: Translator, b: Translator, ka: nat, kb: nat, aGuess: Port, bGuess: Port)
    requires Unused(a, ka) && Unused(b, kb)
    ensures ScansMeet(a, b, ka, kb, aGuess, bGuess) <==>
            Offset(bGuess, a.next) < SCAN_RANGE && Offset(aGuess, b.next) < SCAN_RANGE
  {
    var aTarget, bTarget := Addr(b.host, aGuess), Addr(a.host, bGuess);
    var a', b' := Scan(a, ka, aTarget, SCAN_RANGE), Scan(b, kb, bTarget, SCAN_RANGE);
    var i, j := ka + Offset(bGuess, a.next), kb + Offset(aGuess, b.next);
    if Offset(bGuess, a.next) < SCAN_RANGE && Offset(aGuess, b.next) < SCAN_RANGE {
      MutualHit(a, b, ka, kb, aGuess, bGuess, i, j);
      assert Linked(a', i, aTarget, b', j, bTarget);
    }
    forall x, y | ka <= x < ka + SCAN_RANGE && kb <= y < kb + SCAN_RANGE
                  && Linked(a', x, aTarget, b', y, bTarget)
      ensures x == i && y == j
    {
      MutualHit(a, b, ka, kb, aGuess, bGuess, x, y);
    }
  }

  // ----- both scans at once

  datatype Side = Left | Right

  /** How many of the datagrams sent so far are of one side. */
  function Sent(order: seq<Side>, side: Side): nat {
    if order == [] then 0
    else Sent(order[..|order| - 1], side) + if order[|order| - 1] == side then 1 else 0
  }

  lemma {:induction false} SentGrows(order: seq<Side>, side: Side, e: nat, t: nat)
    requires e < t <= |order| && order[e] == side
    ensures Sent(order[..e], side) < Sent(order[..t], side)
    decreases t
  {
    assert order[..t][..t - 1] == order[..t - 1];
    if e < t - 1 {
      SentGrows(order, side, e, t - 1);
    }
  }

  lemma {:induction false} SentAtMost(order: seq<Side>, side: Side, t: nat)
    requires t <= |order|
    ensures Sent(order[..t], side) <= Sent(order, side)
    decreases |order| - t
  {
    if t == |order| {
      assert order[..t] == order;
    } else {
      assert order[..t + 1][..t] == order[..t];
      SentAtMost(order, side, t + 1);
    }
  }

  /** The send that follows `n` sends of the same side. */
  lemma {:induction false} NthSend(order: seq<Side>, side: Side, n: nat) returns (e: nat)
    requires n < Sent(order, side)
    ensures e < |order| && order[e] == side && Sent(order[..e], side) == n
  {
    var k := |order| - 1;
    if n < Sent(order[..k], side) {
      e := NthSend(order[..k], side, n);
      assert order[..k][..e] == order[..e];
    } else {
      e := k;
    }
  }

  /**
   Two scans whose sends are interleaved by `order`: the datagram sent as number `e` of both arrives
   after `t` sends, and is let through to the peer's scan socket `j`.
   */
  predicate LetThrough(a: Translator, b: Translator, ka: nat, kb: nat, aGuess: Port, bGuess: Port,
                       order: seq<Side>, e: nat, t: nat, j: nat)
    requires e < |order| && t <= |order|
  {
    var aTarget, bTarget := Addr(b.host, aGuess), Addr(a.host, bGuess);
    var a', b' := Scan(a, ka, aTarget, Sent(order[..t], Left)), Scan(b, kb, bTarget, Sent(order[..t], Right));
    if order[e] == Left then Reaches(a', ka + Sent(order[..e], Left), aTarget, b', kb + j)
    else Reaches(b', kb + Sent(order[..e], Right), bTarget, a', ka + j)
  }

  /** Both scans in full; every datagram arrives, after it was sent. */
  predicate FullScans(order: seq<Side>, arrivals: seq<nat>) {
    && Sent(order, Left) == SCAN_RANGE && Sent(order, Right) == SCAN_RANGE
    && |arrivals| == |order|
    && forall e :: 0 <= e < |order| ==> e < arrivals[e] <= |order|
  }

  ghost predicate SomeLetThrough(a: Translator, b: Translator, ka: nat, kb: nat, aGuess: Port, bGuess: Port,
                                 order: seq<Side>, arrivals: seq<nat>)
    requires FullScans(order, arrivals)
  {
    exists e, j: nat :: 0 <= e < |order| && LetThrough(a, b, ka, kb, aGuess, bGuess, order, e, arrivals[e], j)
  }

  /** Exactly the datagram between the two predicted sockets, once the receiving one has sent. */
  lemma LetThroughMeans(a: Translator, b: Translator, ka: nat, kb: nat, aGuess: Port, bGuess: Port,
                        order: seq<Side>, e: nat, t: nat, j: nat)
    requires Unused(a, ka) && Unused(b, kb)
    requires e < t <= |order|
    ensures LetThrough(a, b, ka, kb, aGuess, bGuess, order, e, t, j) <==>
            var i := Sent(order[..e], order[e]);
            if order[e] == Left then
              bGuess == Wrap16(a.next + i) && aGuess == Wrap16(b.next + j) && j < Sent(order[..t], Right)
            else
              aGuess == Wrap16(b.next + i) && bGuess == Wrap16(a.next + j) && j < Sent(order[..t], Left)
  {
    var aTarget, bTarget := Addr(b.host, aGuess), Addr(a.host, bGuess);
    var m, n := Sent(order[..t], Left), Sent(order[..t], Right);
    SentGrows(order, order[e], e, t);
    if order[e] == Left {
      Arrival(a, b, ka, kb, aTarget, bTarget, m, n, Sent(order[..e], Left), kb + j);
    } else {
      Arrival(b, a, kb, ka, bTarget, aTarget, n, m, Sent(order[..e], Right), ka + j);
    }
  }

  lemma LeftIsLetThrough(a: Translator, b: Translator, ka: nat, kb: nat, aGuess: Port, bGuess: Port,
                         order: seq<Side>, p: nat, t: nat, r: nat)
    requires Unused(a, ka) && Unused(b, kb)
    requires r < p < t <= |order| && order[p] == Left && order[r] == Right
    requires bGuess == Wrap16(a.next + Sent(order[..p], Left))
    requires aGuess == Wrap16(b.next + Sent(order[..r], Right))
    ensures LetThrough(a, b, ka, kb, aGuess, bGuess, order, p, t, Sent(order[..r], Right))
  {
    SentGrows(order, Right, r, t);
    LetThroughMeans(a, b, ka, kb, aGuess, bGuess, order, p, t, Sent(order[..r], Right));
  }

  lemma RightIsLetThrough(a: Translator, b: Translator, ka: nat, kb: nat, aGuess: Port, bGuess: Port,
                          order: seq<Side>, r: nat, t: nat, p: nat)
    requires Unused(a, ka) && Unused(b, kb)
    requires p < r < t <= |order| && order[p] == Left && order[r] == Right
    requires bGuess == Wrap16(a.next + Sent(order[..p], Left))
    requires aGuess == Wrap16(b.next + Sent(order[..r], Right))
    ensures LetThrough(a, b, ka, kb, aGuess, bGuess, order, r, t, Sent(order[..p], Left))
  {
    SentGrows(order, Left, p, t);
    LetThroughMeans(a, b, ka, kb, aGuess, bGuess, order, r, t, Sent(order[..p], Left));
  }

  /** Of the two datagrams between the predicted sockets, the one sent later is let through. */
  lemma LaterIsLetThrough(a: Translator, b: Translator, ka: nat, kb: nat, aGuess: Port, bGuess: Port,
                          order: seq<Side>, arrivals: seq<nat>)
    requires Unused(a, ka) && Unused(b, kb) && FullScans(order, arrivals)
    requires Offset(bGuess, a.next) < SCAN_RANGE && Offset(aGuess, b.next) < SCAN_RANGE
    ensures SomeLetThrough(a, b, ka, kb, aGuess, bGuess, order, arrivals)
  {
    var x, y := Offset(bGuess, a.next), Offset(aGuess, b.next);
    var p := NthSend(order, Left, x);
    var r := NthSend(order, Right, y);
    OffsetUnique(bGuess, a.next, x);
    OffsetUnique(aGuess, b.next, y);
    if r < p {
      LeftIsLetThrough(a, b, ka, kb, aGuess, bGuess, order, p, arrivals[p], r);
    } else {
      RightIsLetThrough(a, b, ka, kb, aGuess, bGuess, order, r, arrivals[r], p);
    }
  }

  lemma LetThroughHits(a: Translator, b: Translator, ka: nat, kb: nat, aGuess: Port, bGuess: Port,
                       order: seq<Side>, e: nat, t: nat, j: nat)
    requires Unused(a, ka) && Unused(b, kb)
    requires Sent(order, Left) == SCAN_RANGE && Sent(order, Right) == SCAN_RANGE && e < t <= |order|
    requires LetThrough(a, b, ka, kb, aGuess, bGuess, order, e, t, j)
    ensures Offset(bGuess, a.next) < SCAN_RANGE && Offset(aGuess, b.next) < SCAN_RANGE
  {
    var i := Sent(order[..e], order[e]);
    LetThroughMeans(a, b, ka, kb, aGuess, bGuess, order, e, t, j);
    SentGrows(order, order[e], e, t);
    SentAtMost(order, Left, t);
    SentAtMost(order, Right, t);
    if order[e] == Left {
      OffsetUnique(bGuess, a.next, i);
      OffsetUnique(aGuess, b.next, j);
    } else {
      OffsetUnique(aGuess, b.next, i);
      OffsetUnique(bGuess, a.next, j);
    }
  }

  /**
   However the sends of the two scans are interleaved and however long each datagram is under way, if
   none is lost: some datagram is let through to a scan socket if and only if each prediction lies in
   the other's window.
   */
  lemma ScansMeetInEveryOrder(a: Translator, b: Translator, ka: nat, kb: nat, aGuess: Port, bGuess: Port,
                              order: seq<Side>, arrivals: seq<nat>)
    requires Unused(a, ka) && Unused(b, kb) && FullScans(order, arrivals)
    ensures SomeLetThrough(a, b, ka, kb, aGuess, bGuess, order, arrivals) <==>
            Offset(bGuess, a.next) < SCAN_RANGE && Offset(aGuess, b.next) < SCAN_RANGE
  {
    if Offset(bGuess, a.next) < SCAN_RANGE && Offset(aGuess, b.next) < SCAN_RANGE {
      LaterIsLetThrough(a, b, ka, kb, aGuess, bGuess, order, arrivals);
    }
    if SomeLetThrough(a, b, ka, kb, aGuess, bGuess, order, arrivals) {
      var e, j: nat :| 0 <= e < |order| && LetThrough(a, b, ka, kb, aGuess, bGuess, order, e, arrivals[e], j);
      LetThroughHits(a, b, ka, kb, aGuess, bGuess, order, e, arrivals[e], j);
    }
  }

  // ----- from observations to windows

  /** What the server told a client about its peer, and when the client evaluates it. */
  datatype Observation = Observation(first: Port, second: Port, t1: Time, t2: Time, now: Time)

  predicate Usable(o: Observation) {
    Ascending(o.first, o.second, o.t1, o.t2, o.now)
    && DetermineTargetPort(o.first, o.second, o.t1, o.t2, o.now).Target?
  }

  /** The port guessed from the observation. */
  function Guess(o: Observation): Port
    requires Usable(o)
  {
    DetermineTargetPort(o.first, o.second, o.t1, o.t2, o.now).port
  }

  predicate Within25(l: real, port: int) {
    port as real - 25.0 <= l < port as real + 25.0
  }

  /** The extrapolation is within 25 ports of the peer's next port, or of it less the port space. */
  predicate OnCourse(o: Observation, next: Port)
    requires Usable(o)
  {
    var l := Extrapolation(o.first, o.second, o.t1, o.t2, o.now);
    Within25(l, next) || Within25(l, next - 0x1_0000)
  }

  /**
   From observations to connection: two symmetric clients find each other exactly if each one's true
   scan start is, up to a wrap of the port space, within 25 ports of what the other extrapolates.
   */
  lemma {:induction false} ScanSucceedsIfOnCourse(a: Translator, b: Translator, ka: nat, kb: nat,
    ofB: Observation, ofA: Observation)
    requires Unused(a, ka) && Unused(b, kb)
    ensures Usable(ofA) && Usable(ofB) ==>
              (ScansMeet(a, b, ka, kb, Guess(ofB), Guess(ofA)) <==>
               OnCourse(ofA, a.next) && OnCourse(ofB, b.next))
  {
    if Usable(ofA) && Usable(ofB) {
      ScanSucceedsIfBothHit(a, b, ka, kb, Guess(ofB), Guess(ofA));
      GuessInWindow(ofA, a.next);
      GuessInWindow(ofB, b.next);
    }
  }

  lemma GuessInWindow(o: Observation, next: Port)
    requires Usable(o)
    ensures Offset(Guess(o), next) < SCAN_RANGE <==> OnCourse(o, next)
  {
    ErrorBound(o.first, o.second, o.t1, o.t2, o.now, next);
    ErrorBound(o.first, o.second, o.t1, o.t2, o.now, next - 0x1_0000);
    WindowOffset(Guess(o), next);
  }

  lemma WindowOffset(port: Port, start: Port)
    ensures Offset(port, start) < SCAN_RANGE <==>
            start <= port < start + SCAN_RANGE || start - 0x1_0000 <= port < start - 0x1_0000 + SCAN_RANGE
  {
  }
}
