/** What the port allocator guarantees over any number of calls in any order. */
module PortLaws {
  import opened Wire
  import opened PortManager

  datatype Op = Next | FromBase(base: Port, offset: Port)

  /** What one call handed out. */
  datatype Entry =
    | Base(port: Port)
    | Derived(base: Port, offset: Port, port: Port)
    | Refused(base: Port)

  function Apply(q: Params, s: State, op: Op): (State, Entry) {
    match op
    case Next =>
      var (s', port) := Assigned(q, s);
      (s', Base(port))
    case FromBase(base, offset) =>
      var (s', port) := AssignedFromBase(q, s, base, offset);
      (s', if base in s.subs then Derived(base, offset, port) else Refused(base))
  }

  /** The state after a sequence of atomic calls, by any threads, and what each call handed out. */
  function Run(q: Params, s: State, ops: seq<Op>): (r: (State, seq<Entry>))
    ensures |r.1| == |ops|
  {
    if ops == [] then (s, [])
    else
      var (s1, log) := Run(q, s, ops[..|ops| - 1]);
      var (s2, e) := Apply(q, s1, ops[|ops| - 1]);
      (s2, log + [e])
  }

  lemma RunSplits(q: Params, s: State, ops: seq<Op>)
    requires ops != []
    ensures var (s1, log) := Run(q, s, ops[..|ops| - 1]);
            Run(q, s, ops) == (Apply(q, s1, ops[|ops| - 1]).0, log + [Apply(q, s1, ops[|ops| - 1]).1])
  {
  }

  /** The base ports of a log, in order. */
  function Bases(log: seq<Entry>): seq<Port> {
    if log == [] then []
    else
      var e := log[|log| - 1];
      Bases(log[..|log| - 1]) + if e.Base? then [e.port] else []
  }

  // ----- the closed form

  function CeilDiv(a: nat, b: nat): (c: nat)
    requires b > 0
  {
    (a + b - 1) / b
  }

  lemma CeilDivBounds(a: nat, b: nat)
    requires a > 0 && b > 0
    ensures var c := CeilDiv(a, b); c > 0 && (c - 1) * b < a <= c * b
  {
    var c := CeilDiv(a, b);
    assert (a + b - 1) == c * b + (a + b - 1) % b;
    assert c * b >= a;
    assert c > 0;
    assert (c - 1) * b == c * b - b;
  }

  /** How many base ports fit from `start` to the top of the port space. */
  function PassLength(q: Params, start: Port): nat
    requires q.reserved > 0
  {
    CeilDiv(0x1_0000 - start, q.reserved)
  }

  /** The n-th base port: one pass from the first port, then passes that start at the lowest port. */
  function Expected(q: Params, first: Port, n: nat): int
    requires q.reserved > 0
  {
    var k, p := PassLength(q, first), PassLength(q, q.minPort);
    CeilDivBounds(0x1_0000 - q.minPort, q.reserved);
    if n < k then first + n * q.reserved
    else q.minPort + ((n - k) % p) * q.reserved
  }

  /** If handing out `c` wraps the counter, the next port handed out is the lowest one. */
  predicate RestartsAfter(q: Params, c: Port) {
    q.minPort <= c && c + q.reserved >= 0x1_0000 ==> Hand(q, Wrap16(c + q.reserved)) == q.minPort
  }

  /** Every wrap leads back to the lowest port: the exact condition on block size and lowest port. */
  predicate Restarts(q: Params) {
    || q.reserved <= 1
    || 2 * q.reserved <= q.minPort + 1
    || (q.reserved <= q.minPort + 1 && q.minPort + 2 * q.reserved >= 0x2_0000)
  }

  /** Where the counter goes after handing out `c`. */
  lemma HandAfter(q: Params, c: Port)
    requires 0 < q.reserved && Restarts(q) && q.minPort <= c
    ensures Hand(q, Wrap16(c + q.reserved)) ==
            if c + q.reserved < 0x1_0000 then c + q.reserved else q.minPort
  {
    if c + q.reserved >= 0x1_0000 {
      assert Wrap16(c + q.reserved) == c + q.reserved - 0x1_0000;
    }
  }

  /** Otherwise some position of the counter leads past the lowest port. */
  lemma MissingWrap(q: Params) returns (c: Port)
    requires q.minPort <= 65000 && !Restarts(q)
    ensures !RestartsAfter(q, c)
  {
    var r: int, min: int := q.reserved, q.minPort;
    if r > min + 1 {
      c := 65535;
      assert Wrap16(c + r) == r - 1;
    } else {
      var lowest := min + r - 0x1_0000;
      var w := if lowest > min + 1 - r then lowest else min + 1 - r;
      c := w + 0x1_0000 - r;
      assert Wrap16(c + r) == w && Wrap16(w + r) == w + r;
    }
  }

  /** Passes restart at the lowest port, from every position of the counter, exactly under `Restarts`. */
  lemma RestartCondition(q: Params)
    requires q.minPort <= 65000
    ensures (forall c: Port :: RestartsAfter(q, c)) <==> Restarts(q)
  {
    if Restarts(q) {
      forall c: Port ensures RestartsAfter(q, c) {
        if q.minPort <= c && c + q.reserved >= 0x1_0000 {
          HandAfter(q, c);
        }
      }
    } else {
      var c := MissingWrap(q);
    }
  }

  /** With simulated traffic of 990 allocations a second, a wrap goes to 9464 and not to port 5000. */
  lemma WideReservationMisses()
    ensures Hand(Params(5000, 5000), Wrap16(65000 + 5000)) == 9464
    ensures !RestartsAfter(Params(5000, 5000), 65000)
  {
    assert Wrap16(65000 + 5000) == 4464;
  }

  lemma NotLastOfPass(q: Params, start: Port, j: nat)
    requires q.reserved > 0 && j < PassLength(q, start)
    ensures start <= start + j * q.reserved < 0x1_0000
    ensures j + 1 < PassLength(q, start) <==> start + j * q.reserved + q.reserved < 0x1_0000
  {
    var k, r := PassLength(q, start), q.reserved;
    CeilDivBounds(0x1_0000 - start, r);
    assert (j + 1) * r == j * r + r;
    if j + 1 < k {
      MulMonotone(j + 1, k - 1, r);
    } else {
      assert j + 1 == k;
    }
    MulMonotone(j, k - 1, r);
  }

  lemma MulMonotone(a: nat, b: nat, r: nat)
    requires a <= b
    ensures a * r <= b * r
  {
  }

  lemma UniqueQuotient(d: nat, r: nat, d': nat, r': nat, p: nat)
    requires r < p && r' < p && d * p + r == d' * p + r'
    ensures d == d' && r == r'
  {
    assert (d + 1) * p == d * p + p && (d' + 1) * p == d' * p + p;
    if d > d' {
      MulMonotone(d' + 1, d, p);
    } else if d < d' {
      MulMonotone(d + 1, d', p);
    }
  }

  lemma ModSuccessor(m: nat, p: nat)
    requires p > 0
    ensures (m + 1) % p == if m % p + 1 == p then 0 else m % p + 1
  {
    var d, r := m / p, m % p;
    assert m == d * p + r;
    assert m + 1 == (m + 1) / p * p + (m + 1) % p;
    if r + 1 == p {
      assert (d + 1) * p == d * p + p;
      UniqueQuotient(d + 1, 0, (m + 1) / p, (m + 1) % p, p);
    } else {
      UniqueQuotient(d, r + 1, (m + 1) / p, (m + 1) % p, p);
    }
  }

  /** The counter's next stop follows the closed form, within the first pass whatever the block size. */
  lemma ExpectedStep(q: Params, first: Port, n: nat)
    requires q.reserved > 0 && q.minPort <= first
    requires Restarts(q) || n + 1 < PassLength(q, first)
    ensures q.minPort <= Expected(q, first, n) < 0x1_0000
    ensures Expected(q, first, n + 1) == Hand(q, Wrap16(Expected(q, first, n) + q.reserved))
  {
    if n < PassLength(q, first) {
      FirstPassStep(q, first, n);
      NotLastOfPass(q, first, n);
    } else {
      LaterPassStep(q, first, n);
    }
    StepAfter(q, Expected(q, first, n));
  }

  /** Where the counter goes after handing out `c`, if that does not wrap or passes restart. */
  lemma StepAfter(q: Params, c: Port)
    requires 0 < q.reserved && q.minPort <= c
    ensures c + q.reserved < 0x1_0000 ==> Hand(q, Wrap16(c + q.reserved)) == c + q.reserved
    ensures Restarts(q) && c + q.reserved >= 0x1_0000 ==> Hand(q, Wrap16(c + q.reserved)) == q.minPort
  {
    if Restarts(q) {
      HandAfter(q, c);
    } else if c + q.reserved < 0x1_0000 {
      assert Wrap16(c + q.reserved) == c + q.reserved;
    }
  }

  lemma FirstPassStep(q: Params, first: Port, n: nat)
    requires q.reserved > 0 && q.minPort <= first && n < PassLength(q, first)
    ensures var c := Expected(q, first, n);
            && first <= c < 0x1_0000
            && Expected(q, first, n + 1) == if c + q.reserved < 0x1_0000 then c + q.reserved else q.minPort
  {
    CeilDivBounds(0x1_0000 - q.minPort, q.reserved);
    NotLastOfPass(q, first, n);
    assert (n + 1) * q.reserved == n * q.reserved + q.reserved;
    if n + 1 == PassLength(q, first) {
      assert 0 % PassLength(q, q.minPort) == 0;
    }
  }

  lemma LaterPassStep(q: Params, first: Port, n: nat)
    requires q.reserved > 0 && q.minPort <= first && n >= PassLength(q, first)
    ensures var c := Expected(q, first, n);
            && q.minPort <= c < 0x1_0000
            && Expected(q, first, n + 1) == if c + q.reserved < 0x1_0000 then c + q.reserved else q.minPort
  {
    var p, m := PassLength(q, q.minPort), n - PassLength(q, first);
    CeilDivBounds(0x1_0000 - q.minPort, q.reserved);
    var j := m % p;
    NotLastOfPass(q, q.minPort, j);
    ModSuccessor(m, p);
    assert (j + 1) * q.reserved == j * q.reserved + q.reserved;
  }

  lemma ExpectedStart(q: Params, first: Port)
    requires q.reserved > 0 && q.minPort <= first
    ensures Expected(q, first, 0) == first
  {
    CeilDivBounds(0x1_0000 - first, q.reserved);
  }

  /** The bases of a log, and the next one the counter will give, follow the closed form. */
  predicate Follows(q: Params, first: Port, s: State, log: seq<Entry>)
    requires q.reserved > 0
  {
    var n := |Bases(log)|;
    && Hand(q, s.current) == Expected(q, first, n)
    && forall i :: 0 <= i < n ==> Bases(log)[i] == Expected(q, first, i)
  }

  lemma FollowsStep(q: Params, first: Port, s: State, log: seq<Entry>, op: Op, s2: State, e: Entry)
    requires q.reserved > 0 && q.minPort <= first && (s2, e) == Apply(q, s, op)
    requires Restarts(q) || |Bases(log + [e])| < PassLength(q, first)
    requires Follows(q, first, s, log)
    ensures Follows(q, first, s2, log + [e])
  {
    assert (log + [e])[..|log|] == log;
    if op.Next? {
      ExpectedStep(q, first, |Bases(log)|);
    }
  }

  /**
   Whatever else is called in between, the n-th `assign_next` hands out the port of the closed form:
   every pass after the first is the same, and starts at the lowest port. Where passes do not restart
   there, this still holds of the first pass.
   */
  lemma {:induction false} ClosedForm(q: Params, s: State, ops: seq<Op>)
    requires q.reserved > 0 && q.minPort <= s.current
    requires Restarts(q) || |Bases(Run(q, s, ops).1)| < PassLength(q, s.current)
    ensures var (s', log) := Run(q, s, ops); Follows(q, s.current, s', log)
  {
    if ops == [] {
      ExpectedStart(q, s.current);
    } else {
      var p, op := ops[..|ops| - 1], ops[|ops| - 1];
      RunSplits(q, s, ops);
      var (s1, log) := Run(q, s, p);
      var (s2, e) := Apply(q, s1, op);
      LogExtends(log, e);
      ClosedForm(q, s, p);
      FollowsStep(q, s.current, s1, log, op, s2, e);
    }
  }

  lemma RunExtends(q: Params, s: State, ops: seq<Op>, op: Op)
    ensures Run(q, s, ops + [op]) ==
            (Apply(q, Run(q, s, ops).0, op).0, Run(q, s, ops).1 + [Apply(q, Run(q, s, ops).0, op).1])
  {
    assert (ops + [op])[..|ops|] == ops;
  }

  /** `n` calls of `assign_next` and nothing else. */
  function Nexts(n: nat): seq<Op> {
    if n == 0 then [] else Nexts(n - 1) + [Next]
  }

  predicate OnlyBases(log: seq<Entry>) {
    forall i :: 0 <= i < |log| ==> log[i].Base?
  }

  lemma {:induction false} NextsRun(q: Params, s: State, n: nat)
    ensures |Nexts(n)| == n && OnlyBases(Run(q, s, Nexts(n)).1)
  {
    if n > 0 {
      NextsRun(q, s, n - 1);
      RunExtends(q, s, Nexts(n - 1), Next);
    }
  }

  lemma {:induction false} BasesOfOnlyBases(log: seq<Entry>)
    requires OnlyBases(log)
    ensures |Bases(log)| == |log|
    ensures forall i :: 0 <= i < |log| ==> Bases(log)[i] == log[i].port
    ensures forall b :: TotalAdvance(log, b) == 0
  {
    if log != [] {
      var k := |log| - 1;
      BasesOfOnlyBases(log[..k]);
      assert log == log[..k] + [log[k]];
      LogExtends(log[..k], log[k]);
    }
  }

  /** How many calls of `assign_next` there are. */
  function NextCalls(ops: seq<Op>): nat {
    if ops == [] then 0 else NextCalls(ops[..|ops| - 1]) + if ops[|ops| - 1].Next? then 1 else 0
  }

  lemma {:induction false} BasesCounted(q: Params, s: State, ops: seq<Op>)
    ensures |Bases(Run(q, s, ops).1)| == NextCalls(ops)
  {
    if ops != [] {
      var p, op := ops[..|ops| - 1], ops[|ops| - 1];
      BasesCounted(q, s, p);
      RunSplits(q, s, ops);
      LogExtends(Run(q, s, p).1, Apply(q, Run(q, s, p).0, op).1);
    }
  }

  lemma NextBase(q: Params, s: State, n: nat)
    ensures var (s1, log) := Run(q, s, Nexts(n));
            var (s2, more) := Run(q, s, Nexts(n + 1));
            && Bases(more) == Bases(log) + [Hand(q, s1.current)]
            && s2.current == Wrap16(Hand(q, s1.current) + q.reserved)
  {
    var (s1, log) := Run(q, s, Nexts(n));
    RunExtends(q, s, Nexts(n), Next);
    LogExtends(log, Apply(q, s1, Next).1);
  }

  /** What one call adds to the base ports, and where it leaves the counter. */
  lemma CallBases(q: Params, s: State, p: seq<Op>, op: Op)
    ensures var (s1, log) := Run(q, s, p);
            var (s2, more) := Run(q, s, p + [op]);
            && Bases(more) == Bases(log) + (if op.Next? then [Hand(q, s1.current)] else [])
            && s2.current == if op.Next? then Wrap16(Hand(q, s1.current) + q.reserved) else s1.current
  {
    var (s1, log) := Run(q, s, p);
    RunExtends(q, s, p, op);
    LogExtends(log, Apply(q, s1, op).1);
  }

  lemma SameBasesStep(q: Params, s: State, p: seq<Op>, op: Op, m: nat, m': nat)
    requires Run(q, s, p).0.current == Run(q, s, Nexts(m)).0.current
    requires Bases(Run(q, s, p).1) == Bases(Run(q, s, Nexts(m)).1)
    requires m' == if op.Next? then m + 1 else m
    ensures Run(q, s, p + [op]).0.current == Run(q, s, Nexts(m')).0.current
    ensures Bases(Run(q, s, p + [op]).1) == Bases(Run(q, s, Nexts(m')).1)
  {
    CallBases(q, s, p, op);
    if op.Next? {
      NextBase(q, s, m);
      assert m' == m + 1;
    } else {
      assert m' == m;
    }
  }

  /** Other calls do not change which base ports are handed out. */
  lemma {:induction false} SameBases(q: Params, s: State, ops: seq<Op>, n: nat)
    requires n == NextCalls(ops)
    ensures Run(q, s, ops).0.current == Run(q, s, Nexts(n)).0.current
    ensures Bases(Run(q, s, ops).1) == Bases(Run(q, s, Nexts(n)).1)
  {
    if ops == [] {
      assert Nexts(n) == ops;
    } else {
      var p, op := ops[..|ops| - 1], ops[|ops| - 1];
      var m := NextCalls(p);
      SameBases(q, s, p, m);
      SameBasesStep(q, s, p, op, m, n);
      assert ops == p + [op];
    }
  }

  /** The allocator never hands out a base port below the lowest one. */
  lemma {:induction false} BasesAtLeastLowest(q: Params, s: State, ops: seq<Op>)
    ensures forall i :: 0 <= i < |Bases(Run(q, s, ops).1)| ==> q.minPort <= Bases(Run(q, s, ops).1)[i]
  {
    if ops != [] {
      var p, op := ops[..|ops| - 1], ops[|ops| - 1];
      BasesAtLeastLowest(q, s, p);
      RunSplits(q, s, ops);
      LogExtends(Run(q, s, p).1, Apply(q, Run(q, s, p).0, op).1);
    }
  }

  // ----- where passes restart, on runs

  /** Whenever handing out a base port wrapped the counter, the next base port is the lowest one. */
  predicate RestartsAlong(q: Params, bases: seq<Port>) {
    forall i :: 0 <= i < |bases| - 1 && bases[i] + q.reserved >= 0x1_0000 ==> bases[i + 1] == q.minPort
  }

  /** The same of a run, if it starts where the constructor may leave the counter. */
  predicate RestartsOn(q: Params, first: Port, ops: seq<Op>) {
    q.minPort <= first <= 65000 ==> RestartsAlong(q, Bases(Run(q, State(first, map[]), ops).1))
  }

  lemma RestartsOnEveryRun(q: Params, first: Port, ops: seq<Op>)
    requires Restarts(q)
    ensures RestartsOn(q, first, ops)
  {
    var bases := Bases(Run(q, State(first, map[]), ops).1);
    if q.minPort <= first && q.reserved > 0 {
      ClosedForm(q, State(first, map[]), ops);
      forall i | 0 <= i < |bases| - 1 && bases[i] + q.reserved >= 0x1_0000 ensures bases[i + 1] == q.minPort {
        ExpectedStep(q, first, i);
        HandAfter(q, bases[i]);
      }
    }
  }

  lemma BaseAfter(q: Params, s: State, n: nat, bases: seq<Port>, c: Port)
    requires Bases(Run(q, s, Nexts(n)).1) == bases && Run(q, s, Nexts(n)).0.current == c
    ensures Bases(Run(q, s, Nexts(n + 1)).1) == bases + [Hand(q, c)]
    ensures Run(q, s, Nexts(n + 1)).0.current == Wrap16(Hand(q, c) + q.reserved)
  {
    NextBase(q, s, n);
  }

  lemma ThreeBases(q: Params, c: Port)
    requires q.minPort <= c
    ensures var next := Hand(q, Wrap16(c + q.reserved));
            Bases(Run(q, State(c, map[]), Nexts(3)).1) == [c, next, Hand(q, Wrap16(next + q.reserved))]
  {
    var s, next := State(c, map[]), Hand(q, Wrap16(c + q.reserved));
    BaseAfter(q, s, 0, [], c);
    BaseAfter(q, s, 1, [c], Wrap16(c + q.reserved));
    BaseAfter(q, s, 2, [c, next], Wrap16(next + q.reserved));
  }

  lemma WrongBase(q: Params, first: Port, i: nat)
    requires q.minPort <= first <= 65000
    requires var bases := Bases(Run(q, State(first, map[]), Nexts(3)).1);
             i + 1 < |bases| && bases[i] + q.reserved >= 0x1_0000 && bases[i + 1] != q.minPort
    ensures !RestartsOn(q, first, Nexts(3))
  {
  }

  /** With the lowest port 5000, a run of three calls meets a wrap that misses it. */
  lemma MissingRun(q: Params) returns (first: Port)
    requires q.minPort == 5000 && !Restarts(q)
    ensures !RestartsOn(q, first, Nexts(3))
  {
    if q.reserved > 60000 {
      first := 65000;
      WideBlockMisses(q);
      ThreeBases(q, first);
      WrongBase(q, first, 0);
    } else {
      var c: Port := if q.reserved == 5001 then 65534 else 65535;
      first := c - q.reserved;
      assert Wrap16(first + q.reserved) == c && Hand(q, c) == c;
      LateWrapMisses(q, c);
      ThreeBases(q, first);
      WrongBase(q, first, 1);
    }
  }

  lemma WideBlockMisses(q: Params)
    requires q.minPort == 5000 && q.reserved > 60000
    ensures Hand(q, Wrap16(65000 + q.reserved)) != q.minPort
  {
    assert Wrap16(65000 + q.reserved) == q.reserved - 536;
  }

  lemma LateWrapMisses(q: Params, c: Port)
    requires q.minPort == 5000 && !Restarts(q) && c == if q.reserved == 5001 then 65534 else 65535
    ensures c + q.reserved >= 0x1_0000 && Hand(q, Wrap16(c + q.reserved)) != q.minPort
  {
    var w := c + q.reserved - 0x1_0000;
    assert Wrap16(c + q.reserved) == w;
    assert w + q.reserved < 0x1_0000 ==> Wrap16(w + q.reserved) == w + q.reserved;
  }

  /**
   With the lowest port 5000, the only one the program uses, `Restarts` is exact on runs: from every
   first port the constructor may pick, and whatever is called.
   */
  lemma RestartsOnRuns(q: Params)
    requires q.minPort == 5000
    ensures (forall first: Port, ops: seq<Op> :: RestartsOn(q, first, ops)) <==> Restarts(q)
  {
    if Restarts(q) {
      forall first: Port, ops: seq<Op> ensures RestartsOn(q, first, ops) {
        RestartsOnEveryRun(q, first, ops);
      }
    } else {
      var first := MissingRun(q);
    }
  }

  /**
   The block size the statistical runner sets for a rate of simulated allocations: passes restart at
   port 5000 on every run up to a rate of 490, until the block size itself wraps.
   */
  lemma SimulatedTrafficRestarts(rate: Port)
    ensures var q := Params(Wrap16(rate * 5 + 50), 5000);
            && ((forall first: Port, ops: seq<Op> :: RestartsOn(q, first, ops)) <==> q.reserved <= 2500)
            && (rate <= 13097 ==>
                  ((forall first: Port, ops: seq<Op> :: RestartsOn(q, first, ops)) <==> rate <= 490))
  {
    RestartsOnRuns(Params(Wrap16(rate * 5 + 50), 5000));
  }

  // ----- the map stays bounded

  lemma {:induction false} ProgressionSize(start: int, step: int, n: nat)
    ensures |set i | 0 <= i < n :: start + i * step| <= n
  {
    var all := set i | 0 <= i < n :: start + i * step;
    if n == 0 {
      assert all == {};
    } else {
      var less := set i | 0 <= i < n - 1 :: start + i * step;
      ProgressionSize(start, step, n - 1);
      assert all == less + {start + (n - 1) * step};
    }
  }

  /** The ports that can ever be bases. */
  ghost function PossibleBases(q: Params, first: Port): set<int>
    requires q.reserved > 0
  {
    (set i | 0 <= i < PassLength(q, first) :: first + i * q.reserved) +
    (set i | 0 <= i < PassLength(q, q.minPort) :: q.minPort + i * q.reserved)
  }

  lemma ExpectedIsPossible(q: Params, first: Port, n: nat)
    requires q.reserved > 0
    ensures Expected(q, first, n) in PossibleBases(q, first)
  {
    var k, p := PassLength(q, first), PassLength(q, q.minPort);
    CeilDivBounds(0x1_0000 - q.minPort, q.reserved);
    if n >= k {
      var j := (n - k) % p;
      assert 0 <= j < p;
    }
  }

  /** The map's keys are the base ports that were handed out. */
  lemma {:induction false} SubsAreBases(q: Params, s: State, ops: seq<Op>)
    requires s.subs == map[]
    ensures forall b :: b in Run(q, s, ops).0.subs ==> b in Bases(Run(q, s, ops).1)
  {
    if ops != [] {
      var p, op := ops[..|ops| - 1], ops[|ops| - 1];
      RunSplits(q, s, ops);
      SubsAreBases(q, s, p);
      var (s1, log) := Run(q, s, p);
      LogExtends(log, Apply(q, s1, op).1);
    }
  }

  lemma SubsArePossible(q: Params, s: State, ops: seq<Op>)
    requires q.reserved > 0 && Restarts(q) && q.minPort <= s.current
    requires s.subs == map[]
    ensures forall b :: b in Run(q, s, ops).0.subs ==> b in PossibleBases(q, s.current)
  {
    ClosedForm(q, s, ops);
    SubsAreBases(q, s, ops);
    var bases := Bases(Run(q, s, ops).1);
    forall i | 0 <= i < |bases| ensures bases[i] in PossibleBases(q, s.current) {
      ExpectedIsPossible(q, s.current, i);
    }
  }

  /** Over unboundedly many calls, the map holds at most one entry per port of two passes. */
  lemma {:induction false} MapStaysBounded(q: Params, s: State, ops: seq<Op>)
    requires q.reserved > 0 && Restarts(q) && q.minPort <= s.current
    requires s.subs == map[]
    ensures |Run(q, s, ops).0.subs| <= PassLength(q, s.current) + PassLength(q, q.minPort)
  {
    SubsArePossible(q, s, ops);
    var keys: set<int> := Run(q, s, ops).0.subs.Keys;
    var all := PossibleBases(q, s.current);
    ProgressionSize(s.current, q.reserved, PassLength(q, s.current));
    ProgressionSize(q.minPort, q.reserved, PassLength(q, q.minPort));
    assert keys <= all;
    SubsetSize(keys, all);
  }

  lemma SubsetSize(a: set<int>, b: set<int>)
    requires a <= b
    ensures |a| <= |b|
  {
    assert b == a + (b - a);
  }

  // ----- distinctness for a whole lap of the counter

  /** By how much the calls of a log advanced the sub-counter of `base`. */
  function TotalAdvance(log: seq<Entry>, base: Port): nat {
    if log == [] then 0
    else
      var e := log[|log| - 1];
      TotalAdvance(log[..|log| - 1], base) + if e.Derived? && e.base == base then e.offset + 1 else 0
  }

  lemma LogExtends(log: seq<Entry>, e: Entry)
    ensures Bases(log + [e]) == Bases(log) + if e.Base? then [e.port] else []
    ensures forall b :: TotalAdvance(log + [e], b) ==
              TotalAdvance(log, b) + if e.Derived? && e.base == b then e.offset + 1 else 0
  {
    assert (log + [e])[..|log|] == log;
  }

  /**
   How many base ports are handed out before a block overlaps the first one: the rest of the first
   pass, and what fits between the lowest port and the first port.
   */
  function Lap(q: Params, first: Port): nat
    requires q.reserved > 0 && q.minPort <= first
  {
    var above: nat := first - q.minPort;
    PassLength(q, first) + above / q.reserved
  }

  /** Two blocks of `q.reserved` ports that do not overlap. */
  predicate Apart(q: Params, b: int, c: int) {
    b + q.reserved <= c || c + q.reserved <= b
  }

  lemma LapEnd(q: Params, first: Port)
    requires q.reserved > 0 && q.minPort <= first
    ensures var j := (first - q.minPort) / q.reserved;
            && j < PassLength(q, q.minPort)
            && q.minPort + j * q.reserved <= first < q.minPort + j * q.reserved + q.reserved
  {
    var r, j, p := q.reserved, (first - q.minPort) / q.reserved, PassLength(q, q.minPort);
    CeilDivBounds(0x1_0000 - q.minPort, r);
    assert first - q.minPort == j * r + (first - q.minPort) % r;
    if j >= p {
      MulMonotone(p, j, r);
    }
  }

  lemma SmallMod(j: nat, p: nat)
    requires j < p
    ensures j % p == j
  {
  }

  /** In a second pass the n-th base port is where it would be in a pass that started there. */
  lemma SecondPassPort(q: Params, first: Port, n: nat)
    requires q.reserved > 0 && q.minPort <= first
    requires PassLength(q, first) <= n <= Lap(q, first)
    ensures Expected(q, first, n) == q.minPort + (n - PassLength(q, first)) * q.reserved <= first
  {
    var j, last := n - PassLength(q, first), (first - q.minPort) / q.reserved;
    LapEnd(q, first);
    SmallMod(j, PassLength(q, q.minPort));
    MulMonotone(j, last, q.reserved);
  }

  lemma ProgressionApart(q: Params, start: int, i: nat, j: nat)
    requires i < j
    ensures Apart(q, start + i * q.reserved, start + j * q.reserved)
  {
    MulMonotone(i + 1, j, q.reserved);
    OneMore(i, q.reserved);
  }

  lemma ExpectedApart(q: Params, first: Port, i: nat, j: nat)
    requires q.reserved > 0 && q.minPort <= first && i < j < Lap(q, first)
    ensures Apart(q, Expected(q, first, i), Expected(q, first, j))
  {
    var k := PassLength(q, first);
    if j < k {
      ProgressionApart(q, first, i, j);
    } else {
      SecondPassPort(q, first, j);
      SecondPassPort(q, first, j + 1);
      OneMore(j - k, q.reserved);
      if i < k {
        assert i * q.reserved >= 0;
      } else {
        SecondPassPort(q, first, i);
        ProgressionApart(q, q.minPort, i - k, j - k);
      }
    }
  }

  lemma LapPositive(q: Params, first: Port)
    requires q.reserved > 0 && q.minPort <= first
    ensures 0 < PassLength(q, first) <= Lap(q, first)
  {
    CeilDivBounds(0x1_0000 - first, q.reserved);
  }

  lemma LapOverlaps(q: Params, first: Port)
    requires q.reserved > 0 && q.minPort <= first
    ensures 0 < Lap(q, first) && Expected(q, first, 0) == first
    ensures var b := Expected(q, first, Lap(q, first)); q.minPort <= b <= first < b + q.reserved
  {
    LapPositive(q, first);
    ExpectedStart(q, first);
    LapEnd(q, first);
    SecondPassPort(q, first, Lap(q, first));
    assert ((first - q.minPort) / q.reserved) * q.reserved >= 0;
  }

  /**
   Where passes restart at the lowest port, the blocks of the base ports handed out on a run do not
   overlap, whatever else is called in between, exactly if there are at most a lap of them.
   */
  lemma {:induction false} BlocksApartForALap(q: Params, s: State, ops: seq<Op>)
    requires q.reserved > 0 && Restarts(q) && q.minPort <= s.current
    ensures var bases := Bases(Run(q, s, ops).1);
            (forall i, j :: 0 <= i < j < |bases| ==> Apart(q, bases[i], bases[j])) <==>
            |bases| <= Lap(q, s.current)
  {
    ClosedForm(q, s, ops);
    var bases, lap := Bases(Run(q, s, ops).1), Lap(q, s.current);
    if |bases| <= lap {
      forall i, j | 0 <= i < j < |bases| ensures Apart(q, bases[i], bases[j]) {
        ExpectedApart(q, s.current, i, j);
      }
    } else {
      LapOverlaps(q, s.current);
    }
  }

  /** A base port is handed out again only after a whole pass of calls. */
  lemma RepeatTakesAPass(q: Params, first: Port, m: nat, n: nat)
    requires q.reserved > 0 && q.minPort <= first && m < n
    requires Expected(q, first, m) == Expected(q, first, n)
    ensures n - m >= PassLength(q, q.minPort)
  {
    var k, p := PassLength(q, first), PassLength(q, q.minPort);
    CeilDivBounds(0x1_0000 - q.minPort, q.reserved);
    if n < k {
      ProgressionApart(q, first, m, n);
    } else if m < k {
      var j := (n - k) % p;
      AlignedPass(q, first, m, j);
      ModAtMost(n - k, p);
    } else {
      SameProduct((m - k) % p, (n - k) % p, q.reserved);
      SameRemainder(m - k, n - k, p);
    }
  }

  lemma ModAtMost(n: nat, p: nat)
    requires p > 0
    ensures n % p <= n
  {
  }

  lemma SameProduct(a: nat, b: nat, r: nat)
    requires r > 0 && a * r == b * r
    ensures a == b
  {
    UniqueQuotient(a, 0, b, 0, r);
  }

  lemma SameRemainder(m: nat, n: nat, p: nat)
    requires p > 0 && m < n && m % p == n % p
    ensures n - m >= p
  {
    assert m == m / p * p + m % p && n == n / p * p + n % p;
    MultipleGap(m / p, n / p, p);
  }

  lemma MultipleGap(d: nat, d': nat, p: nat)
    requires d * p < d' * p
    ensures d' * p - d * p >= p
  {
    if d' <= d {
      MulMonotone(d', d, p);
    } else {
      MulMonotone(d + 1, d', p);
      OneMore(d, p);
    }
  }

  lemma CeilDivUnique(a: nat, b: nat, c: nat)
    requires a > 0 && b > 0 && c > 0 && (c - 1) * b < a <= c * b
    ensures CeilDiv(a, b) == c
  {
    var d := CeilDiv(a, b);
    CeilDivBounds(a, b);
    OneMore(c - 1, b);
    OneMore(d - 1, b);
    UniqueQuotient(c - 1, a - 1 - (c - 1) * b, d - 1, a - 1 - (d - 1) * b, b);
  }

  /** If the first pass runs through a port of a later one, it is that pass without its first ports. */
  lemma AlignedPass(q: Params, first: Port, m: nat, j: nat)
    requires q.reserved > 0 && q.minPort <= first
    requires first + m * q.reserved == q.minPort + j * q.reserved
    ensures m <= j && PassLength(q, first) + (j - m) == PassLength(q, q.minPort)
  {
    var r, k := q.reserved, PassLength(q, first);
    if j < m {
      MulMonotone(j + 1, m, r);
      OneMore(j, r);
    }
    CeilDivBounds(0x1_0000 - first, r);
    assert (k + (j - m)) * r == k * r + j * r - m * r;
    assert (k + (j - m) - 1) * r == (k - 1) * r + j * r - m * r;
    CeilDivUnique(0x1_0000 - q.minPort, r, k + (j - m));
  }

  lemma OneMore(n: nat, r: nat)
    ensures (n + 1) * r == n * r + r
  {
  }

  // ----- one base among many threads

  /** The ports that were derived from `base`, in order. */
  function DerivedFrom(log: seq<Entry>, base: Port): seq<Port> {
    if log == [] then []
    else
      var e := log[|log| - 1];
      DerivedFrom(log[..|log| - 1], base) + if e.Derived? && e.base == base then [e.port] else []
  }

  /** The `k`-th port above `base`, wrapping at the top, with ports below the lowest one moved up by that. */
  function NthDraw(q: Params, base: Port, k: nat): Port {
    var low := (base + k) % 0x1_0000;
    if low < q.minPort then (low + q.minPort) % 0x1_0000 else low
  }

  /** What a sub-counter that has given `k` ports gives next, and where that leaves it. */
  lemma NextDraw(q: Params, base: Port, k: nat)
    ensures Adjust(q, Wrap16(Wrap16(base + 1 + k) + 0)) == NthDraw(q, base, 1 + k)
    ensures Wrap16(Wrap16(base + 1 + k) + 0 + 1) == Wrap16(base + 1 + (k + 1))
  {
  }

  /** No call of the log hands `base` out again, and no simulated traffic is added to its draws. */
  predicate Undisturbed(log: seq<Entry>, base: Port) {
    forall i :: 0 <= i < |log| ==>
      log[i] != Base(base) && (log[i].Derived? && log[i].base == base ==> log[i].offset == 0)
  }

  /**
   After `base` has been handed out, and whatever other threads do with other bases, the draws from
   it are the consecutive ports above it, up to the adjustment after a wrap.
   */
  lemma {:induction false} DrawsAreConsecutive(q: Params, s: State, ops: seq<Op>, base: Port)
    requires base in s.subs && s.subs[base] == Wrap16(base + 1)
    requires Undisturbed(Run(q, s, ops).1, base)
    ensures var (s', log) := Run(q, s, ops);
            var d := DerivedFrom(log, base);
            && base in s'.subs && s'.subs[base] == Wrap16(base + 1 + |d|)
            && forall i :: 0 <= i < |d| ==> d[i] == NthDraw(q, base, 1 + i)
  {
    if ops != [] {
      var p, op := ops[..|ops| - 1], ops[|ops| - 1];
      RunSplits(q, s, ops);
      var (s1, log) := Run(q, s, p);
      var (s2, e) := Apply(q, s1, op);
      assert (log + [e])[..|log|] == log;
      assert (log + [e])[|log|] == e;
      assert Undisturbed(log, base) by {
        assert forall i :: 0 <= i < |log| ==> log[i] == (log + [e])[i];
      }
      DrawsAreConsecutive(q, s, p, base);
      DrawStep(q, s1, op, base, |DerivedFrom(log, base)|);
    }
  }

  lemma DrawStep(q: Params, s: State, op: Op, base: Port, k: nat)
    requires base in s.subs && s.subs[base] == Wrap16(base + 1 + k)
    requires var e := Apply(q, s, op).1; e != Base(base) && (e.Derived? && e.base == base ==> e.offset == 0)
    ensures var (s', e) := Apply(q, s, op);
            && base in s'.subs
            && if e.Derived? && e.base == base
               then s'.subs[base] == Wrap16(base + 1 + (k + 1)) && e.port == NthDraw(q, base, 1 + k)
               else s'.subs[base] == s.subs[base]
  {
    NextDraw(q, base, k);
  }

  /** The draws in numbers: up to port 65535, then from the lowest port up, then once more from there. */
  lemma DrawsInNumbers(q: Params, base: Port, k: nat)
    requires q.minPort <= base && q.minPort <= 0x8000 && 0 < k <= 0x1_0000
    ensures NthDraw(q, base, k) ==
            if base + k < 0x1_0000 then base + k
            else if base + k - 0x1_0000 < q.minPort then base + k - 0x1_0000 + q.minPort
            else base + k - 0x1_0000
  {
  }

  /** How many ports can be drawn from `base` before one comes a second time. */
  function DistinctDraws(q: Params, base: Port): int {
    if 2 * q.minPort <= base + 1 then 0x1_0000 - base + q.minPort - 1 else 0x1_0000 - q.minPort
  }

  ghost predicate DrawsDiffer(q: Params, base: Port, n: nat) {
    forall j, k :: 1 <= j < k <= n ==> NthDraw(q, base, j) != NthDraw(q, base, k)
  }

  /** The first `n` draws from `base` are different ports exactly up to that number. */
  lemma DrawsDifferCondition(q: Params, base: Port, n: nat)
    requires 1 <= q.minPort <= base && q.minPort <= 0x8000
    ensures DrawsDiffer(q, base, n) <==> n <= DistinctDraws(q, base)
  {
    if n <= DistinctDraws(q, base) {
      forall j, k | 1 <= j < k <= n ensures NthDraw(q, base, j) != NthDraw(q, base, k) {
        DrawsInNumbers(q, base, j);
        DrawsInNumbers(q, base, k);
      }
    } else if 2 * q.minPort <= base + 1 {
      DrawsInNumbers(q, base, 0x1_0000 - base);
      DrawsInNumbers(q, base, 0x1_0000 - base + q.minPort);
      assert NthDraw(q, base, 0x1_0000 - base) == NthDraw(q, base, 0x1_0000 - base + q.minPort);
    } else {
      DrawsInNumbers(q, base, 1);
      DrawsInNumbers(q, base, 0x1_0001 - q.minPort);
      assert NthDraw(q, base, 1) == NthDraw(q, base, 0x1_0001 - q.minPort);
    }
  }

  // ----- one connection's calls

  /** How many calls draw from `base`. */
  function DrawsFrom(ops: seq<Op>, base: Port): nat {
    if ops == [] then 0
    else
      var op := ops[|ops| - 1];
      DrawsFrom(ops[..|ops| - 1], base) + if op.FromBase? && op.base == base then 1 else 0
  }

  lemma {:induction false} RunAppends(q: Params, s: State, a: seq<Op>, b: seq<Op>)
    ensures Run(q, s, a + b).0 == Run(q, Run(q, s, a).0, b).0
    ensures Run(q, s, a + b).1 == Run(q, s, a).1 + Run(q, Run(q, s, a).0, b).1
  {
    if b == [] {
      assert a + b == a;
    } else {
      var k := |b| - 1;
      var (s1, log) := Run(q, s, a);
      var (s2, more) := Run(q, s1, b[..k]);
      RunAppends(q, s, a, b[..k]);
      RunSplits(q, s1, b);
      assert a + b == a + b[..k] + [b[k]];
      RunExtends(q, s, a + b[..k], b[k]);
      assert log + more + [Apply(q, s2, b[k]).1] == log + (more + [Apply(q, s2, b[k]).1]);
    }
  }

  lemma {:induction false} BasesAppend(a: seq<Entry>, b: seq<Entry>)
    ensures Bases(a + b) == Bases(a) + Bases(b)
  {
    if b == [] {
      assert a + b == a;
    } else {
      var k := |b| - 1;
      BasesAppend(a, b[..k]);
      assert (a + b)[..|a| + k] == a + b[..k];
    }
  }

  lemma {:induction false} BaseIsListed(log: seq<Entry>, i: nat)
    requires i < |log| && log[i].Base?
    ensures log[i].port in Bases(log)
  {
    var k := |log| - 1;
    if i < k {
      BaseIsListed(log[..k], i);
    }
  }

  lemma BasesAround(q: Params, s: State, before: seq<Op>, s1: State, base: Port, after: seq<Op>)
    requires Apply(q, Run(q, s, before).0, Next) == (s1, Base(base))
    ensures Bases(Run(q, s, before + [Next] + after).1) ==
            Bases(Run(q, s, before).1) + [base] + Bases(Run(q, s1, after).1)
  {
    var log := Run(q, s, before).1;
    RunExtends(q, s, before, Next);
    RunAppends(q, s, before + [Next], after);
    LogExtends(log, Base(base));
    BasesAppend(log + [Base(base)], Run(q, s1, after).1);
  }

  /** Fewer calls of `assign_next` than a pass has base ports do not hand out `base` again. */
  lemma {:induction false} NotHandedOutAgain(
    q: Params, s: State, before: seq<Op>, s1: State, base: Port, after: seq<Op>)
    requires q.reserved > 0 && Restarts(q) && q.minPort <= s.current
    requires Apply(q, Run(q, s, before).0, Next) == (s1, Base(base))
    requires NextCalls(after) < PassLength(q, q.minPort)
    ensures base !in Bases(Run(q, s1, after).1)
  {
    var n, later := |Bases(Run(q, s, before).1)|, Bases(Run(q, s1, after).1);
    var all := Bases(Run(q, s, before + [Next] + after).1);
    BasesAround(q, s, before, s1, base, after);
    ClosedForm(q, s, before + [Next] + after);
    BasesCounted(q, s1, after);
    assert all[n] == base;
    forall m | 0 <= m < |later| ensures later[m] != base {
      assert all[n + 1 + m] == later[m];
      NoRepeatWithinAPass(q, s.current, n, n + 1 + m);
    }
  }

  lemma NoRepeatWithinAPass(q: Params, first: Port, m: nat, n: nat)
    requires q.reserved > 0 && q.minPort <= first && m < n < m + PassLength(q, q.minPort)
    ensures Expected(q, first, m) != Expected(q, first, n)
  {
    if Expected(q, first, m) == Expected(q, first, n) {
      RepeatTakesAPass(q, first, m, n);
    }
  }

  /** Each entry of the log tells its call. */
  lemma {:induction false} EntryOfCall(q: Params, s: State, ops: seq<Op>, i: nat)
    requires i < |ops| && Run(q, s, ops).1[i].Derived?
    ensures var e := Run(q, s, ops).1[i]; ops[i] == FromBase(e.base, e.offset)
  {
    var k := |ops| - 1;
    RunSplits(q, s, ops);
    if i < k {
      EntryOfCall(q, s, ops[..k], i);
    }
  }

  lemma {:induction false} DrawsCounted(q: Params, s: State, ops: seq<Op>, base: Port)
    requires base in s.subs
    ensures base in Run(q, s, ops).0.subs
    ensures |DerivedFrom(Run(q, s, ops).1, base)| == DrawsFrom(ops, base)
  {
    if ops != [] {
      var p, op := ops[..|ops| - 1], ops[|ops| - 1];
      DrawsCounted(q, s, p, base);
      RunSplits(q, s, ops);
      var (s1, log) := Run(q, s, p);
      var e := Apply(q, s1, op).1;
      assert (log + [e])[..|log|] == log && (log + [e])[|log|] == e;
    }
  }

  /** No simulated traffic is mixed into the draws from `base`. */
  predicate ExactDraws(ops: seq<Op>, base: Port) {
    forall i :: 0 <= i < |ops| && ops[i].FromBase? && ops[i].base == base ==> ops[i].offset == 0
  }

  /**
   Whatever was called before `base` was handed out, and whatever other threads call after that with
   fewer base ports than a pass has: the draws from `base` are the consecutive ports above it.
   */
  lemma {:induction false} OwnDraws(q: Params, s: State, before: seq<Op>, s1: State, base: Port, after: seq<Op>)
    requires q.reserved > 0 && Restarts(q) && q.minPort <= s.current
    requires Apply(q, Run(q, s, before).0, Next) == (s1, Base(base))
    requires NextCalls(after) < PassLength(q, q.minPort) && ExactDraws(after, base)
    ensures var d := DerivedFrom(Run(q, s1, after).1, base);
            |d| == DrawsFrom(after, base) && forall i :: 0 <= i < |d| ==> d[i] == NthDraw(q, base, 1 + i)
  {
    var log := Run(q, s1, after).1;
    NotHandedOutAgain(q, s, before, s1, base, after);
    forall i | 0 <= i < |log|
      ensures log[i] != Base(base) && (log[i].Derived? && log[i].base == base ==> log[i].offset == 0)
    {
      if log[i].Derived? {
        EntryOfCall(q, s1, after, i);
      } else if log[i].Base? {
        BaseIsListed(log, i);
      }
    }
    assert base in s1.subs && s1.subs[base] == Wrap16(base + 1);
    DrawsAreConsecutive(q, s1, after, base);
    DrawsCounted(q, s1, after, base);
  }
}
