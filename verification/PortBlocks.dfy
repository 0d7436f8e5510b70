/**
 Blocks of ports. The map of sub-counters is looked at on its own, under insertions of bases and draws
 in any order: the ports handed out differ as long as the blocks do not overlap. With that follows
 when the ports handed out by whole runs of the allocator differ.
 */
module PortBlocks {
  import opened Wire
  import opened PortManager
  import opened PortLaws

  type Subs = map<Port, Port>

  /** What the allocator's calls do to the map: a base is entered, or a port is drawn from one. */
  datatype MapOp = Insert(base: Port) | Draw(base: Port, offset: Port)

  function ApplyMap(q: Params, subs: Subs, op: MapOp): (Subs, Entry) {
    match op
    case Insert(base) => (subs[base := Wrap16(base + 1)], Base(base))
    case Draw(base, offset) =>
      var (s', port) := AssignedFromBase(q, State(0, subs), base, offset);
      (s'.subs, if base in subs then Derived(base, offset, port) else Refused(base))
  }

  function RunMap(q: Params, subs: Subs, ops: seq<MapOp>): (Subs, seq<Entry>) {
    if ops == [] then (subs, [])
    else
      var (subs1, log) := RunMap(q, subs, ops[..|ops| - 1]);
      var (subs2, e) := ApplyMap(q, subs1, ops[|ops| - 1]);
      (subs2, log + [e])
  }

  lemma RunMapExtends(q: Params, subs: Subs, ops: seq<MapOp>, op: MapOp)
    ensures var (subs1, log) := RunMap(q, subs, ops);
            RunMap(q, subs, ops + [op]) == (ApplyMap(q, subs1, op).0, log + [ApplyMap(q, subs1, op).1])
  {
    assert (ops + [op])[..|ops|] == ops;
  }

  // ----- blocks that stay apart

  /** The blocks of these base ports do not overlap. */
  predicate AllApart(q: Params, bases: seq<Port>) {
    forall i, j :: 0 <= i < j < |bases| ==> Apart(q, bases[i], bases[j])
  }

  predicate AllAtLeast(bases: seq<Port>, lowest: Port) {
    forall i :: 0 <= i < |bases| ==> lowest <= bases[i]
  }

  /** The base of the block a handed-out port was taken from. */
  function BlockOf(e: Entry): Port {
    if e.Base? then e.port else e.base
  }

  /** By base, the advance of its sub-counter so far. */
  type Advances = Port -> nat

  ghost function AdvancesOf(log: seq<Entry>): Advances {
    b => TotalAdvance(log, b)
  }

  lemma AdvancesOfExtends(log: seq<Entry>, e: Entry)
    ensures forall b :: AdvancesOf(log + [e])(b) ==
              AdvancesOf(log)(b) + if e.Derived? && e.base == b then e.offset + 1 else 0
  {
    LogExtends(log, e);
  }

  /** No sub-counter is advanced by a whole block or past the top of the port space. */
  ghost predicate Roomy(q: Params, adv: Advances) {
    forall b: Port :: adv(b) < q.reserved && b + adv(b) < 0x1_0000
  }

  lemma RoomyBefore(q: Params, adv: Advances, adv': Advances)
    requires Roomy(q, adv') && forall b :: adv(b) <= adv'(b)
    ensures Roomy(q, adv)
  {
    forall b: Port ensures adv(b) < q.reserved && b + adv(b) < 0x1_0000 {
      assert adv(b) <= adv'(b);
    }
  }

  /** Blocks do not overlap, and their sub-counters agree with the advances. */
  ghost predicate BlocksApart(q: Params, subs: Subs, adv: Advances) {
    && (forall b :: b in subs ==> q.minPort <= b && subs[b] == Wrap16(b + 1 + adv(b)))
    && (forall b, c :: b in subs && c in subs && b != c ==> Apart(q, b, c))
  }

  predicate ApartFromAll(q: Params, subs: Subs, base: Port) {
    forall b :: b in subs ==> Apart(q, b, base)
  }

  /** The port is in its block, and below everything the block's sub-counter can still give. */
  predicate InBlock(subs: Subs, adv: Advances, e: Entry) {
    !e.Refused? ==>
      && BlockOf(e) in subs
      && BlockOf(e) <= e.port <= BlockOf(e) + adv(BlockOf(e))
      && (e.Derived? ==> e.base < e.port)
  }

  ghost predicate AllInBlock(subs: Subs, adv: Advances, log: seq<Entry>) {
    forall i :: 0 <= i < |log| ==> InBlock(subs, adv, log[i])
  }

  ghost predicate Separated(q: Params, subs: Subs, adv: Advances, log: seq<Entry>) {
    BlocksApart(q, subs, adv) && AllInBlock(subs, adv, log) && Distinct(log)
  }

  /** No port was handed out twice. */
  ghost predicate Distinct(log: seq<Entry>) {
    forall i, j :: 0 <= i < j < |log| && !log[i].Refused? && !log[j].Refused? ==>
      log[i].port != log[j].port
  }

  ghost predicate Unused(log: seq<Entry>, port: int) {
    forall i :: 0 <= i < |log| && !log[i].Refused? ==> log[i].port != port
  }

  lemma DistinctExtends(log: seq<Entry>, e: Entry)
    requires Distinct(log) && (!e.Refused? ==> Unused(log, e.port))
    ensures Distinct(log + [e])
  {
  }

  /** All of a log stays in its blocks when bases are added and sub-counters advance. */
  lemma AllInBlockKept(subs: Subs, adv: Advances, subs': Subs, adv': Advances, log: seq<Entry>)
    requires AllInBlock(subs, adv, log)
    requires subs.Keys <= subs'.Keys && forall b :: adv(b) <= adv'(b)
    ensures AllInBlock(subs', adv', log)
  {
    forall i | 0 <= i < |log| ensures InBlock(subs', adv', log[i]) {
      InBlockKept(subs, adv, subs', adv', log[i]);
    }
  }

  lemma InBlockKept(subs: Subs, adv: Advances, subs': Subs, adv': Advances, e: Entry)
    requires InBlock(subs, adv, e)
    requires subs.Keys <= subs'.Keys && forall b :: adv(b) <= adv'(b)
    ensures InBlock(subs', adv', e)
  {
    if !e.Refused? {
      assert BlockOf(e) in subs.Keys;
    }
  }

  lemma SeparatedExtends(q: Params, subs: Subs, adv: Advances, subs': Subs, adv': Advances, log: seq<Entry>, e: Entry)
    requires Separated(q, subs, adv, log) && BlocksApart(q, subs', adv')
    requires subs.Keys <= subs'.Keys && forall b :: adv(b) <= adv'(b)
    requires InBlock(subs', adv', e) && (!e.Refused? ==> Unused(log, e.port))
    ensures Separated(q, subs', adv', log + [e])
  {
    AllInBlockKept(subs, adv, subs', adv', log);
    DistinctExtends(log, e);
  }

  /** A port outside all blocks was not handed out before. */
  lemma OutsideIsUnused(q: Params, subs: Subs, adv: Advances, log: seq<Entry>, port: Port)
    requires AllInBlock(subs, adv, log) && Roomy(q, adv) && ApartFromAll(q, subs, port)
    ensures Unused(log, port)
  {
    forall i | 0 <= i < |log| && !log[i].Refused? ensures log[i].port != port {
      assert InBlock(subs, adv, log[i]);
      assert adv(BlockOf(log[i])) < q.reserved;
    }
  }

  /** So was a port past the advance of its own block, and inside it. */
  lemma PastIsUnused(q: Params, subs: Subs, adv: Advances, log: seq<Entry>, base: Port, port: int)
    requires AllInBlock(subs, adv, log) && Roomy(q, adv) && BlocksApart(q, subs, adv)
    requires base in subs && base + adv(base) < port < base + q.reserved
    ensures Unused(log, port)
  {
    forall i | 0 <= i < |log| && !log[i].Refused? ensures log[i].port != port {
      assert InBlock(subs, adv, log[i]);
      assert adv(BlockOf(log[i])) < q.reserved;
    }
  }

  lemma {:induction false} NeverAdvanced(log: seq<Entry>, base: Port)
    requires forall i :: 0 <= i < |log| && log[i].Derived? ==> log[i].base != base
    ensures TotalAdvance(log, base) == 0
  {
    if log != [] {
      NeverAdvanced(log[..|log| - 1], base);
    }
  }

  lemma UnusedBase(subs: Subs, adv: Advances, log: seq<Entry>, base: Port)
    requires AllInBlock(subs, adv, log) && base !in subs
    ensures TotalAdvance(log, base) == 0
  {
    forall i | 0 <= i < |log| && log[i].Derived? ensures log[i].base != base {
      assert InBlock(subs, adv, log[i]);
    }
    NeverAdvanced(log, base);
  }

  lemma ApartIsNew(q: Params, subs: Subs, base: Port)
    requires q.reserved > 0 && ApartFromAll(q, subs, base)
    ensures base !in subs
  {
    assert base in subs ==> Apart(q, base, base);
  }

  /** Handing out a base port away from all blocks. */
  lemma NextKeepsSeparated(q: Params, subs: Subs, log: seq<Entry>, base: Port)
    requires q.reserved > 0
    requires Separated(q, subs, AdvancesOf(log), log) && Roomy(q, AdvancesOf(log))
    requires q.minPort <= base && ApartFromAll(q, subs, base)
    ensures Separated(q, subs[base := Wrap16(base + 1)], AdvancesOf(log + [Base(base)]), log + [Base(base)])
  {
    var adv, adv' := AdvancesOf(log), AdvancesOf(log + [Base(base)]);
    AdvancesOfExtends(log, Base(base));
    ApartIsNew(q, subs, base);
    UnusedBase(subs, adv, log, base);
    NewBlockKeepsSeparated(q, subs, adv, adv', log, base);
  }

  lemma NewBlockKeepsSeparated(q: Params, subs: Subs, adv: Advances, adv': Advances, log: seq<Entry>, base: Port)
    requires Separated(q, subs, adv, log) && Roomy(q, adv)
    requires q.minPort <= base && ApartFromAll(q, subs, base) && base !in subs
    requires adv(base) == 0 && forall b :: adv'(b) == adv(b)
    ensures Separated(q, subs[base := Wrap16(base + 1)], adv', log + [Base(base)])
  {
    var subs', e := subs[base := Wrap16(base + 1)], Base(base);
    OutsideIsUnused(q, subs, adv, log, base);
    NewBlockApart(q, subs, adv, adv', base);
    assert InBlock(subs', adv', e);
    SeparatedExtends(q, subs, adv, subs', adv', log, e);
  }

  lemma NewBlockApart(q: Params, subs: Subs, adv: Advances, adv': Advances, base: Port)
    requires BlocksApart(q, subs, adv) && q.minPort <= base && ApartFromAll(q, subs, base)
    requires adv(base) == 0 && forall b :: adv'(b) == adv(b)
    ensures BlocksApart(q, subs[base := Wrap16(base + 1)], adv')
  {
  }

  /** What a derived draw changes: its own sub-counter, which it moves past the port it hands out. */
  lemma DerivedPort(q: Params, subs: Subs, base: Port, offset: Port, advance: nat, subs': Subs, e: Entry)
    requires base in subs && q.minPort <= base && (subs', e) == ApplyMap(q, subs, Draw(base, offset))
    requires subs[base] == Wrap16(base + 1 + advance)
    requires base + advance + offset + 1 < 0x1_0000
    ensures e == Derived(base, offset, base + advance + offset + 1)
    ensures subs' == subs[base := Wrap16(base + 1 + (advance + offset + 1))]
  {
  }

  lemma AdvanceKeepsApart(q: Params, subs: Subs, adv: Advances, adv': Advances, base: Port)
    requires BlocksApart(q, subs, adv) && base in subs
    requires forall b :: b != base ==> adv'(b) == adv(b)
    ensures BlocksApart(q, subs[base := Wrap16(base + 1 + adv'(base))], adv')
  {
  }

  lemma DeriveKeepsSeparated(
    q: Params, subs: Subs, log: seq<Entry>, base: Port, offset: Port, subs': Subs, e: Entry)
    requires (subs', e) == ApplyMap(q, subs, Draw(base, offset)) && base in subs
    requires Separated(q, subs, AdvancesOf(log), log) && Roomy(q, AdvancesOf(log + [e]))
    ensures Separated(q, subs', AdvancesOf(log + [e]), log + [e])
  {
    var adv, adv' := AdvancesOf(log), AdvancesOf(log + [e]);
    AdvancesOfExtends(log, e);
    RoomyBefore(q, adv, adv');
    assert adv'(base) == adv(base) + offset + 1;
    DerivedPort(q, subs, base, offset, adv(base), subs', e);
    DrawKeepsSeparated(q, subs, adv, adv', log, e);
  }

  /** A draw just past the new advance of its base. */
  lemma DrawKeepsSeparated(q: Params, subs: Subs, adv: Advances, adv': Advances, log: seq<Entry>, e: Entry)
    requires Separated(q, subs, adv, log) && Roomy(q, adv)
    requires e.Derived? && e.base in subs && e.port == e.base + adv'(e.base)
    requires adv(e.base) < adv'(e.base) < q.reserved
    requires forall b :: b != e.base ==> adv'(b) == adv(b)
    ensures Separated(q, subs[e.base := Wrap16(e.base + 1 + adv'(e.base))], adv', log + [e])
  {
    var subs' := subs[e.base := Wrap16(e.base + 1 + adv'(e.base))];
    AdvanceKeepsApart(q, subs, adv, adv', e.base);
    PastIsUnused(q, subs, adv, log, e.base, e.port);
    assert InBlock(subs', adv', e);
    SeparatedExtends(q, subs, adv, subs', adv', log, e);
  }

  lemma RefusalKeepsSeparated(q: Params, subs: Subs, log: seq<Entry>, e: Entry)
    requires e.Refused? && Separated(q, subs, AdvancesOf(log), log)
    ensures Separated(q, subs, AdvancesOf(log + [e]), log + [e])
  {
    var adv, adv' := AdvancesOf(log), AdvancesOf(log + [e]);
    AdvancesOfExtends(log, e);
    assert BlocksApart(q, subs, adv');
    SeparatedExtends(q, subs, adv, subs, adv', log, e);
  }

  /** The premises of distinctness: the blocks do not overlap, and there is room in each of them. */
  ghost predicate WithinBlocks(q: Params, log: seq<Entry>) {
    AllApart(q, Bases(log)) && AllAtLeast(Bases(log), q.minPort) && Roomy(q, AdvancesOf(log))
  }

  lemma WithinBlocksBefore(q: Params, log: seq<Entry>, e: Entry)
    requires WithinBlocks(q, log + [e])
    ensures WithinBlocks(q, log)
    ensures e.Base? ==> q.minPort <= e.port && forall i :: 0 <= i < |Bases(log)| ==> Apart(q, Bases(log)[i], e.port)
  {
    var all := Bases(log + [e]);
    LogExtends(log, e);
    AdvancesOfExtends(log, e);
    RoomyBefore(q, AdvancesOf(log), AdvancesOf(log + [e]));
    assert forall i :: 0 <= i < |Bases(log)| ==> all[i] == Bases(log)[i];
    assert e.Base? ==> all[|Bases(log)|] == e.port;
  }

  /** The map's keys are the bases that were entered. */
  lemma {:induction false} KeysAreBases(q: Params, ops: seq<MapOp>)
    ensures forall b :: b in RunMap(q, map[], ops).0 ==> b in Bases(RunMap(q, map[], ops).1)
  {
    if ops != [] {
      var p, op := ops[..|ops| - 1], ops[|ops| - 1];
      KeysAreBases(q, p);
      var (subs, log) := RunMap(q, map[], p);
      LogExtends(log, ApplyMap(q, subs, op).1);
    }
  }

  lemma InsertedApart(q: Params, subs: Subs, log: seq<Entry>, base: Port)
    requires WithinBlocks(q, log + [Base(base)]) && forall b :: b in subs ==> b in Bases(log)
    ensures q.minPort <= base && ApartFromAll(q, subs, base)
  {
    WithinBlocksBefore(q, log, Base(base));
  }

  lemma StepSeparates(q: Params, subs: Subs, log: seq<Entry>, op: MapOp, subs': Subs, e: Entry)
    requires q.reserved > 0 && (subs', e) == ApplyMap(q, subs, op)
    requires Separated(q, subs, AdvancesOf(log), log)
    requires Roomy(q, AdvancesOf(log)) && Roomy(q, AdvancesOf(log + [e]))
    requires op.Insert? ==> q.minPort <= op.base && ApartFromAll(q, subs, op.base)
    ensures Separated(q, subs', AdvancesOf(log + [e]), log + [e])
  {
    match op
    case Insert(base) =>
      NextKeepsSeparated(q, subs, log, base);
    case Draw(base, offset) =>
      if base in subs {
        DeriveKeepsSeparated(q, subs, log, base, offset, subs', e);
      } else {
        RefusalKeepsSeparated(q, subs, log, e);
      }
  }

  lemma {:induction false} RunSeparates(q: Params, ops: seq<MapOp>)
    requires q.reserved > 0 && WithinBlocks(q, RunMap(q, map[], ops).1)
    ensures var (subs, log) := RunMap(q, map[], ops); Separated(q, subs, AdvancesOf(log), log)
  {
    if ops != [] {
      var p, op := ops[..|ops| - 1], ops[|ops| - 1];
      var (subs, log) := RunMap(q, map[], p);
      var (subs', e) := ApplyMap(q, subs, op);
      WithinBlocksBefore(q, log, e);
      RunSeparates(q, p);
      KeysAreBases(q, p);
      if op.Insert? {
        InsertedApart(q, subs, log, op.base);
      }
      StepSeparates(q, subs, log, op, subs', e);
    }
  }

  ghost predicate DerivedInside(q: Params, log: seq<Entry>) {
    forall i :: 0 <= i < |log| && log[i].Derived? ==> log[i].base < log[i].port < log[i].base + q.reserved
  }

  /**
   In whatever order bases are entered and ports drawn: if no two blocks overlap and no base is
   advanced by its whole block or past port 65535, all ports handed out are different and every
   derived port is strictly inside its block.
   */
  lemma MapDistinctness(q: Params, ops: seq<MapOp>)
    requires q.reserved > 0 && WithinBlocks(q, RunMap(q, map[], ops).1)
    ensures Distinct(RunMap(q, map[], ops).1) && DerivedInside(q, RunMap(q, map[], ops).1)
  {
    RunSeparates(q, ops);
    var (subs, log) := RunMap(q, map[], ops);
    forall i | 0 <= i < |log| && log[i].Derived?
      ensures log[i].base < log[i].port < log[i].base + q.reserved
    {
      assert InBlock(subs, AdvancesOf(log), log[i]);
      assert AdvancesOf(log)(log[i].base) < q.reserved;
    }
  }

  // ----- runs of the allocator

  /** What one call does to the map. */
  function OnMap(q: Params, s: State, op: Op): MapOp {
    match op
    case Next => Insert(Hand(q, s.current))
    case FromBase(base, offset) => Draw(base, offset)
  }

  function OnMaps(q: Params, s: State, ops: seq<Op>): seq<MapOp> {
    if ops == [] then []
    else
      var p := ops[..|ops| - 1];
      OnMaps(q, s, p) + [OnMap(q, Run(q, s, p).0, ops[|ops| - 1])]
  }

  lemma {:induction false} RunOnMap(q: Params, s: State, ops: seq<Op>)
    ensures Run(q, s, ops).0.subs == RunMap(q, s.subs, OnMaps(q, s, ops)).0
    ensures Run(q, s, ops).1 == RunMap(q, s.subs, OnMaps(q, s, ops)).1
  {
    if ops != [] {
      var p, op := ops[..|ops| - 1], ops[|ops| - 1];
      RunOnMap(q, s, p);
      RunSplits(q, s, ops);
      RunMapExtends(q, s.subs, OnMaps(q, s, p), OnMap(q, Run(q, s, p).0, op));
      OnMapAgrees(q, Run(q, s, p).0, op);
    }
  }

  lemma OnMapAgrees(q: Params, s: State, op: Op)
    ensures Apply(q, s, op).0.subs == ApplyMap(q, s.subs, OnMap(q, s, op)).0
    ensures Apply(q, s, op).1 == ApplyMap(q, s.subs, OnMap(q, s, op)).1
  {
  }

  /**
   In any interleaving of calls in which the blocks of the base ports do not overlap and no base is
   advanced by its whole block or past port 65535, all ports handed out are different and every
   derived port is strictly inside its block.
   */
  lemma GlobalDistinctness(q: Params, s: State, ops: seq<Op>)
    requires q.reserved > 0 && s.subs == map[]
    requires AllApart(q, Bases(Run(q, s, ops).1)) && Roomy(q, AdvancesOf(Run(q, s, ops).1))
    ensures Distinct(Run(q, s, ops).1) && DerivedInside(q, Run(q, s, ops).1)
  {
    RunOnMap(q, s, ops);
    BasesAtLeastLowest(q, s, ops);
    MapDistinctness(q, OnMaps(q, s, ops));
  }

  // ----- exactly how many base ports

  /** The first `n` base ports from counter position `c`. */
  function FirstBases(q: Params, c: Port, n: nat): seq<Port> {
    Bases(Run(q, State(c, map[]), Nexts(n)).1)
  }

  /** With `n` base ports and room in every block, this run hands out no port twice. */
  ghost predicate SafeRun(q: Params, c: Port, n: nat, ops: seq<Op>) {
    var log := Run(q, State(c, map[]), ops).1;
    NextCalls(ops) == n && Roomy(q, AdvancesOf(log)) ==> Distinct(log)
  }

  lemma SafeIfApart(q: Params, c: Port, n: nat, ops: seq<Op>)
    requires q.reserved > 0 && AllApart(q, FirstBases(q, c, n))
    ensures SafeRun(q, c, n, ops)
  {
    var log := Run(q, State(c, map[]), ops).1;
    if NextCalls(ops) == n && Roomy(q, AdvancesOf(log)) {
      SameBases(q, State(c, map[]), ops, n);
      GlobalDistinctness(q, State(c, map[]), ops);
    }
  }

  /** While nothing is drawn, every base that was entered stands at the port above it. */
  lemma {:induction false} FreshSubs(q: Params, s: State, n: nat)
    ensures var (s', log) := Run(q, s, Nexts(n));
            forall b :: b in Bases(log) ==> b in s'.subs && s'.subs[b] == Wrap16(b + 1)
  {
    if n > 0 {
      FreshSubs(q, s, n - 1);
      NextBase(q, s, n - 1);
      RunExtends(q, s, Nexts(n - 1), Next);
    }
  }

  lemma {:induction false} NextsCounted(n: nat)
    ensures NextCalls(Nexts(n)) == n
  {
    if n > 0 {
      NextsCounted(n - 1);
      assert Nexts(n)[..|Nexts(n)| - 1] == Nexts(n - 1);
    }
  }

  /** If two of the blocks overlap, a run hands out some port twice: the second base, or a draw that hits it. */
  lemma OverlapCollides(q: Params, c: Port, n: nat, i: nat, j: nat) returns (ops: seq<Op>)
    requires q.reserved > 0
    requires i < |FirstBases(q, c, n)| && j < |FirstBases(q, c, n)| && i != j
    requires FirstBases(q, c, n)[i] <= FirstBases(q, c, n)[j] < FirstBases(q, c, n)[i] + q.reserved
    ensures !SafeRun(q, c, n, ops)
  {
    var s := State(c, map[]);
    var (s1, log) := Run(q, s, Nexts(n));
    var b, d := Bases(log)[i], Bases(log)[j];
    NextsRun(q, s, n);
    BasesOfOnlyBases(log);
    if b == d {
      ops := Nexts(n);
      NextsCounted(n);
      RepeatedBase(q, log, i, j);
    } else {
      ops := Nexts(n) + [FromBase(b, d - b - 1)];
      assert d == log[j].port && b in Bases(log);
      DrawCollides(q, c, n, b, j);
    }
  }

  lemma DrawCollides(q: Params, c: Port, n: nat, b: Port, j: nat)
    requires q.reserved > 0
    requires j < |Run(q, State(c, map[]), Nexts(n)).1| && b in FirstBases(q, c, n)
    requires var e := Run(q, State(c, map[]), Nexts(n)).1[j]; e.Base? && b < e.port < b + q.reserved
    ensures var d := Run(q, State(c, map[]), Nexts(n)).1[j].port; !SafeRun(q, c, n, Nexts(n) + [FromBase(b, d - b - 1)])
  {
    var s := State(c, map[]);
    var (s1, log) := Run(q, s, Nexts(n));
    var d := log[j].port;
    NextsRun(q, s, n);
    FreshSubs(q, s, n);
    BasesAtLeastLowest(q, s, Nexts(n));
    RunExtends(q, s, Nexts(n), FromBase(b, d - b - 1));
    NextsPlusDraw(n, b, d - b - 1);
    FirstDraw(q, s1, b, d - b - 1);
    DrawnBase(q, log, Derived(b, d - b - 1, d), j);
  }

  lemma NextsPlusDraw(n: nat, base: Port, offset: Port)
    ensures NextCalls(Nexts(n) + [FromBase(base, offset)]) == n
  {
    NextsCounted(n);
    var ops := Nexts(n) + [FromBase(base, offset)];
    assert ops[..|ops| - 1] == Nexts(n);
  }

  lemma FirstDraw(q: Params, s: State, base: Port, offset: Port)
    requires base in s.subs && s.subs[base] == Wrap16(base + 1)
    requires q.minPort <= base && base + offset + 1 < 0x1_0000
    ensures Apply(q, s, FromBase(base, offset)).1 == Derived(base, offset, base + offset + 1)
  {
  }

  lemma RepeatedBase(q: Params, log: seq<Entry>, i: nat, j: nat)
    requires q.reserved > 0 && OnlyBases(log) && i < |log| && j < |log| && i != j && log[i].port == log[j].port
    ensures Roomy(q, AdvancesOf(log)) && !Distinct(log)
  {
    BasesOfOnlyBases(log);
    var k, l := if i < j then i else j, if i < j then j else i;
    assert log[k].port == log[l].port;
  }

  lemma DrawnBase(q: Params, log: seq<Entry>, e: Entry, j: nat)
    requires OnlyBases(log) && j < |log| && e.Derived? && e.port == log[j].port
    requires e.offset + 1 < q.reserved && e.base + e.offset + 1 < 0x1_0000
    ensures Roomy(q, AdvancesOf(log + [e])) && !Distinct(log + [e])
  {
    BasesOfOnlyBases(log);
    AdvancesOfExtends(log, e);
    assert (log + [e])[j].port == (log + [e])[|log|].port;
  }

  /**
   Exactly how many base ports: every run with `n` of them and room in every block hands out no port
   twice if and only if the blocks of the first `n` base ports do not overlap.
   */
  lemma DistinctnessCondition(q: Params, c: Port, n: nat)
    requires q.reserved > 0
    ensures (forall ops :: SafeRun(q, c, n, ops)) <==> AllApart(q, FirstBases(q, c, n))
  {
    if AllApart(q, FirstBases(q, c, n)) {
      forall ops ensures SafeRun(q, c, n, ops) {
        SafeIfApart(q, c, n, ops);
      }
    } else {
      var bases := FirstBases(q, c, n);
      var i, j :| 0 <= i < j < |bases| && !Apart(q, bases[i], bases[j]);
      var k, l := if bases[i] <= bases[j] then i else j, if bases[i] <= bases[j] then j else i;
      var ops := OverlapCollides(q, c, n, k, l);
    }
  }

  /** Where passes restart at the lowest port, that is, if and only if `n` is at most a lap. */
  lemma DistinctForALap(q: Params, c: Port, n: nat)
    requires q.reserved > 0 && Restarts(q) && q.minPort <= c
    ensures (forall ops :: SafeRun(q, c, n, ops)) <==> n <= Lap(q, c)
  {
    DistinctnessCondition(q, c, n);
    BlocksApartForALap(q, State(c, map[]), Nexts(n));
    NextsRun(q, State(c, map[]), n);
    BasesOfOnlyBases(Run(q, State(c, map[]), Nexts(n)).1);
  }

  // ----- the room in a block is needed as well

  lemma DrawAfterBase(q: Params, c: Port, offset: Port, s: State)
    requires c in s.subs && s.subs[c] == Wrap16(c + 1)
    ensures Apply(q, s, FromBase(c, offset)).0.current == s.current
    ensures Apply(q, s, FromBase(c, offset)).1 == Derived(c, offset, Adjust(q, Wrap16(c + 1 + offset)))
  {
    assert Wrap16(Wrap16(c + 1) + offset) == Wrap16(c + 1 + offset);
  }

  /** A base port, one port derived from it, and the next base port. */
  lemma BetweenTwoBases(q: Params, c: Port, offset: Port)
    requires q.minPort <= c
    ensures var ops := [] + [Next] + [FromBase(c, offset)] + [Next];
            Run(q, State(c, map[]), ops).1 ==
            [Base(c), Derived(c, offset, Adjust(q, Wrap16(c + 1 + offset))), Base(Hand(q, Wrap16(c + q.reserved)))]
  {
    var s := State(c, map[]);
    RunExtends(q, s, [], Next);
    var s1 := State(Wrap16(c + q.reserved), s.subs[c := Wrap16(c + 1)]);
    assert Run(q, s, [] + [Next]).0 == s1 && Run(q, s, [] + [Next]).1 == [Base(c)];
    RunExtends(q, s, [] + [Next], FromBase(c, offset));
    DrawAfterBase(q, c, offset, s1);
    RunExtends(q, s, [] + [Next] + [FromBase(c, offset)], Next);
  }

  lemma SamePortTwice(log: seq<Entry>, c: Port, offset: Port)
    requires |log| == 3 && log[0] == Base(c) && log[1].Derived? && log[2] == Base(log[1].port)
    requires log[1].base == c && log[1].offset == offset
    ensures |Bases(log)| == 2 && TotalAdvance(log, c) == offset + 1 && !Distinct(log)
  {
    assert log == [] + [log[0]] + [log[1]] + [log[2]];
    LogExtends([], log[0]);
    LogExtends([] + [log[0]], log[1]);
    LogExtends([] + [log[0]] + [log[1]], log[2]);
    assert log[1].port == log[2].port;
  }

  /** Two base ports are handed out, `c` is advanced by `advance`, and some port is handed out twice. */
  ghost predicate CollidesAfter(q: Params, c: Port, advance: nat, ops: seq<Op>) {
    var log := Run(q, State(c, map[]), ops).1;
    |Bases(log)| == 2 && TotalAdvance(log, c) == advance && !Distinct(log)
  }

  ghost predicate CollidesPastTop(q: Params, c: Port, ops: seq<Op>) {
    CollidesAfter(q, c, 0x1_0000 - c, ops)
  }

  lemma DrawRepeatsNext(q: Params, c: Port, offset: Port)
    requires q.minPort <= c && Adjust(q, Wrap16(c + 1 + offset)) == Hand(q, Wrap16(c + q.reserved))
    ensures CollidesAfter(q, c, offset + 1, [] + [Next] + [FromBase(c, offset)] + [Next])
  {
    BetweenTwoBases(q, c, offset);
    SamePortTwice(Run(q, State(c, map[]), [] + [Next] + [FromBase(c, offset)] + [Next]).1, c, offset);
  }

  /** Where the lap has room for two base ports. */
  lemma LapOfTwo(q: Params, c: Port)
    requires 0 < q.reserved && q.minPort <= c
    ensures c + q.reserved < 0x1_0000 ==> Lap(q, c) >= 2
    ensures q.minPort + q.reserved <= c ==> Lap(q, c) >= 2
  {
    LapPositive(q, c);
    CeilDivBounds(0x1_0000 - c, q.reserved);
    LapEnd(q, c);
  }

  /** Advancing a base by exactly its block hands out the next base port. */
  lemma {:induction false} FullBlockCollides(q: Params, c: Port)
    requires 0 < q.reserved && q.minPort <= c && c + q.reserved < 0x1_0000
    ensures exists ops :: CollidesAfter(q, c, q.reserved, ops)
    ensures Lap(q, c) >= 2
  {
    LapOfTwo(q, c);
    FullBlockPorts(q, c);
    DrawRepeatsNext(q, c, q.reserved - 1);
  }

  lemma FullBlockPorts(q: Params, c: Port)
    requires 0 < q.reserved && q.minPort <= c && c + q.reserved < 0x1_0000
    ensures Adjust(q, Wrap16(c + 1 + (q.reserved - 1))) == Hand(q, Wrap16(c + q.reserved))
  {
  }

  /**
   A block that crosses the top of the port space does not stay apart: advancing it just past port
   65535, though by less than a block, hands out the lowest port, with which the next pass restarts.
   */
  lemma CrossingBlockCollides(q: Params, c: Port)
    requires q.minPort <= c && 0x1_0000 - c < q.reserved && RestartsAfter(q, c)
    ensures exists ops :: CollidesPastTop(q, c, ops)
    ensures q.minPort + q.reserved <= c ==> Lap(q, c) >= 2
  {
    LapOfTwo(q, c);
    CrossingPorts(q, c);
    DrawRepeatsNext(q, c, 65535 - c);
    assert CollidesPastTop(q, c, [] + [Next] + [FromBase(c, 65535 - c)] + [Next]);
  }

  lemma CrossingPorts(q: Params, c: Port)
    requires q.minPort <= c && 0x1_0000 - c < q.reserved && RestartsAfter(q, c)
    ensures Adjust(q, Wrap16(c + 1 + (65535 - c))) == Hand(q, Wrap16(c + q.reserved))
  {
    assert Wrap16(c + 1 + (65535 - c)) == 0;
  }
}
