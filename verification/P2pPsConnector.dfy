/**
 The port-scan client: its connect loop as a state machine over receipts, its budget of attempts, what
 it sends, and the ports it draws from the allocator.
 */
module P2pPsConnector {
  import opened Wire
  import opened PortPrediction
  import opened PortManager
  import PortLaws
  import opened Receipts

  /** What waiting on the scan sockets yields. */
  datatype Selected = Silence | Broken | Ready(socket: nat)

  /**
   What a scan finds outside the program: the time, how many scan sockets can be set up, what waiting
   on them yields, and the port a conversion without a defined result happens to give.
   */
  datatype Env = Env(now: Time, sockets: nat, selected: Selected, undefined: Port)

  type Input = Receipt<Env>

  datatype Phase = WaitingForStunReply | Connected | GaveUp

  datatype Loop = Loop(phase: Phase, target: Addr, left: int)

  datatype Config = Config(server1: Addr, server2: Addr, id: Id, symmetric: bool)

  datatype ScanResult = NotPossible | NoAnswer | Answered(target: Addr)

  const ATTEMPTS := 5
  const ATTEMPTS_AFTER_SCAN := 2

  function Stamp(t: nat): Time {
    Wrap64(t)
  }

  /** The port to aim at, 0 if there is none. */
  function TargetPort(reply: Message, env: Env): Port
    requires reply.PsBindReply?
  {
    match DetermineTargetPort(reply.one.port, reply.two.port, Stamp(reply.t1), Stamp(reply.t2), env.now)
    case Target(p) => p
    case OutOfRange => env.undefined
  }

  /** `try_start_ps_connection`. */
  function TryStart(cfg: Config, reply: Message, env: Env): ScanResult
    requires reply.PsBindReply?
  {
    var port := TargetPort(reply, env);
    if port == 0 || (cfg.symmetric && env.sockets < SCAN_RANGE) then NotPossible
    else
      match env.selected
      case Silence => NoAnswer
      case Broken => NoAnswer
      case Ready(i) => if cfg.symmetric && i >= SCAN_RANGE then NoAnswer else Answered(Predicted(reply, env))
  }

  /** The predicted address of the peer. */
  function Predicted(reply: Message, env: Env): Addr
    requires reply.PsBindReply?
  {
    Addr(reply.one.host, TargetPort(reply, env))
  }

  predicate FromServer(cfg: Config, from: Addr) {
    from.host == cfg.server1.host || from.host == cfg.server2.host
  }

  /** A client that is not symmetric has asked both servers through its one socket, the second one last. */
  function Begin(cfg: Config): Loop {
    Loop(WaitingForStunReply, if cfg.symmetric then cfg.server1 else cfg.server2, ATTEMPTS)
  }

  predicate Active(l: Loop) {
    l.phase == WaitingForStunReply && l.left > 0
  }

  /**
   One iteration. A successful scan does not change the phase; the decrement follows it as well. A
   client that is not symmetric aims at the predicted address before it waits for an answer.
   */
  function Iterate(cfg: Config, l: Loop, e: Input): Loop {
    match e
    case Timeout => l.(left := l.left - 1)
    case Fault => l.(left := l.left - 1)
    case Msg(from, PsBindReply(one, two, t1, t2), env) =>
      if !FromServer(cfg, from) then l
      else (
        match TryStart(cfg, e.msg, env)
        case Answered(target) => l.(target := target, left := ATTEMPTS_AFTER_SCAN - 1)
        case NoAnswer => l.(phase := GaveUp, target := if cfg.symmetric then l.target else Predicted(e.msg, env))
        case NotPossible => l.(phase := GaveUp))
    case Msg(from, ClientBindRequest(id), _) =>
      if id == cfg.id then l.(phase := Connected, target := from) else l.(left := l.left - 1)
    case Msg(from, ClientBindResponse(_), _) =>
      if from != l.target then l else l.(phase := Connected)
    case Msg(_, Ack, _) => l
    case Msg(_, _, _) => l.(left := l.left - 1)
  }

  /** One request to the target from each of the first `n` scan sockets, which are numbered from 2. */
  function Requests(cfg: Config, to: Addr, n: nat): seq<Send> {
    seq(n, i requires 0 <= i < n => Send(2 + i, to, ClientBindRequest(cfg.id)))
  }

  /** How many scan sockets a client that finds `sockets` of them usable gets to send from. */
  function ScanSize(sockets: nat): nat {
    if sockets < SCAN_RANGE then sockets else SCAN_RANGE
  }

  /** What `try_start_ps_connection` sends; socket 0 is the connection's own. */
  function StartSends(cfg: Config, reply: Message, env: Env): seq<Send>
    requires reply.PsBindReply?
  {
    if TargetPort(reply, env) == 0 then []
    else if cfg.symmetric then Requests(cfg, Predicted(reply, env), ScanSize(env.sockets))
    else [Send(0, Predicted(reply, env), ClientBindRequest(cfg.id))]
  }

  /** What the iteration sends. */
  function Sends(cfg: Config, l: Loop, e: Input): seq<Send> {
    match e
    case Msg(from, PsBindReply(_, _, _, _), env) =>
      if FromServer(cfg, from) then StartSends(cfg, e.msg, env) else []
    case Msg(from, ClientBindRequest(id), _) =>
      if id == cfg.id then [Send(0, from, ClientBindResponse(cfg.id))] else []
    case _ => []
  }

  function Fold(cfg: Config, p: seq<Input>): Loop {
    if p == [] then Begin(cfg) else Iterate(cfg, Fold(cfg, p[..|p| - 1]), p[|p| - 1])
  }

  function SentOver(cfg: Config, p: seq<Input>): seq<Send> {
    if p == [] then []
    else
      var q := p[..|p| - 1];
      SentOver(cfg, q) + Sends(cfg, Fold(cfg, q), p[|p| - 1])
  }

  // ----- the budget

  /** A reply of the server after which a scan socket had something to read. */
  predicate ScanAnswered(cfg: Config, e: Input) {
    e.Msg? && e.msg.PsBindReply? && FromServer(cfg, e.from) && TryStart(cfg, e.msg, e.env).Answered?
  }

  predicate ScanFailed(cfg: Config, e: Input) {
    e.Msg? && e.msg.PsBindReply? && FromServer(cfg, e.from) && !TryStart(cfg, e.msg, e.env).Answered?
  }

  predicate HasScan(cfg: Config, p: seq<Input>) {
    exists k :: 0 <= k < |p| && ScanAnswered(cfg, p[k])
  }

  ghost predicate Running(cfg: Config, p: seq<Input>) {
    forall k :: 0 <= k < |p| ==> Active(Fold(cfg, p[..k]))
  }

  /** The iterations across which `attempts_left` fell. */
  function Lowered(cfg: Config, p: seq<Input>): nat {
    if p == [] then 0
    else
      var q := p[..|p| - 1];
      Lowered(cfg, q) + if Fold(cfg, p).left < Fold(cfg, q).left then 1 else 0
  }

  lemma RunningPrefix(cfg: Config, p: seq<Input>)
    requires p != [] && Running(cfg, p)
    ensures Running(cfg, p[..|p| - 1]) && Active(Fold(cfg, p[..|p| - 1]))
  {
    var q := p[..|p| - 1];
    forall k | 0 <= k < |q| ensures Active(Fold(cfg, q[..k])) {
      assert q[..k] == p[..k];
    }
  }

  /** No iteration leaves more attempts than it found, although a scan sets them to 2. */
  lemma NeverGrows(cfg: Config, l: Loop, e: Input)
    requires Active(l)
    ensures 0 <= Iterate(cfg, l, e).left <= l.left
    ensures ScanAnswered(cfg, e) ==> Iterate(cfg, l, e).left == 1
    ensures !e.Msg? ==> Iterate(cfg, l, e).left < l.left
  {
  }

  /** On any stream at most five iterations lower the attempts, so every stream of `n` messages ends. */
  lemma {:induction false} AttemptBudget(cfg: Config, p: seq<Input>)
    requires Running(cfg, p)
    ensures 0 <= Fold(cfg, p).left
    ensures Lowered(cfg, p) + Fold(cfg, p).left <= 5
    ensures |p| <= Lowered(cfg, p) + Messages(p)
  {
    if p != [] {
      RunningPrefix(cfg, p);
      AttemptBudget(cfg, p[..|p| - 1]);
      NeverGrows(cfg, Fold(cfg, p[..|p| - 1]), p[|p| - 1]);
    }
  }

  /** While the loop goes on after a successful scan, exactly one attempt is left. */
  lemma {:induction false} OneAttemptAfterScan(cfg: Config, p: seq<Input>)
    requires Running(cfg, p)
    ensures HasScan(cfg, p) ==> 0 <= Fold(cfg, p).left <= 1
    ensures HasScan(cfg, p) && Active(Fold(cfg, p)) ==> Fold(cfg, p).left == 1
  {
    if p != [] {
      var q, e := p[..|p| - 1], p[|p| - 1];
      RunningPrefix(cfg, p);
      NeverGrows(cfg, Fold(cfg, q), e);
      OneAttemptAfterScan(cfg, q);
      assert p == q + [e];
      HasScanStep(cfg, q, e);
    }
  }

  lemma HasScanStep(cfg: Config, q: seq<Input>, e: Input)
    ensures HasScan(cfg, q + [e]) <==> HasScan(cfg, q) || ScanAnswered(cfg, e)
  {
    var p := q + [e];
    assert p[|q|] == e;
    assert forall i :: 0 <= i < |q| ==> p[i] == q[i];
  }

  /** A receipt whose iteration reaches the decrement, whatever it did before. */
  predicate Counted(cfg: Config, e: Input) {
    match e
    case Msg(from, PsBindReply(_, _, _, _), _) => ScanAnswered(cfg, e)
    case Msg(_, ClientBindRequest(id), _) => id != cfg.id
    case Msg(_, ClientBindResponse(_), _) => false
    case Msg(_, Ack, _) => false
    case _ => true
  }

  /** Answered scans keep the loop running. */
  lemma {:induction false} ScansKeepRunning(cfg: Config, e: Input, n: nat)
    ensures ScanAnswered(cfg, e) ==> Running(cfg, seq(n, _ => e)) && Active(Fold(cfg, seq(n, _ => e)))
  {
    if n > 0 && ScanAnswered(cfg, e) {
      var p, q := seq(n, _ => e), seq(n - 1, _ => e);
      ScansKeepRunning(cfg, e, n - 1);
      assert p[..n - 1] == q;
      forall k | 0 <= k < n ensures Active(Fold(cfg, p[..k])) {
        if k < n - 1 {
          assert p[..k] == q[..k];
        }
      }
    }
  }

  /** A reply about a peer that showed the same port twice, and a peer that answers the scan. */
  function SampleScan(cfg: Config): Input {
    Msg(cfg.server1, PsBindReply(Addr(1, 4000), Addr(1, 4000), 0, 0), Env(0, SCAN_RANGE, Ready(0), 0))
  }

  /** The number of decrements is not bounded: with answered scans the loop runs on for ever. */
  lemma DecrementsUnbounded(cfg: Config, n: nat)
    ensures var p := seq(n, _ => SampleScan(cfg));
            Running(cfg, p) && Active(Fold(cfg, p)) && Decrements(cfg, p) == n
  {
    ScansKeepRunning(cfg, SampleScan(cfg), n);
    AllCounted(cfg, SampleScan(cfg), n);
  }

  lemma {:induction false} AllCounted(cfg: Config, e: Input, n: nat)
    requires Counted(cfg, e)
    ensures Decrements(cfg, seq(n, _ => e)) == n
  {
    if n > 0 {
      AllCounted(cfg, e, n - 1);
      assert seq(n, _ => e)[..n - 1] == seq(n - 1, _ => e);
    }
  }

  /** The iterations that reached the decrement. */
  function Decrements(cfg: Config, p: seq<Input>): nat {
    if p == [] then 0
    else Decrements(cfg, p[..|p| - 1]) + if Counted(cfg, p[|p| - 1]) then 1 else 0
  }

  /** Receipts that cost an attempt and do nothing else. */
  predicate Charged(cfg: Config, e: Input) {
    Counted(cfg, e) && !ScanAnswered(cfg, e)
  }

  /** The number of answered scans. */
  function Scans(cfg: Config, p: seq<Input>): nat {
    if p == [] then 0 else Scans(cfg, p[..|p| - 1]) + if ScanAnswered(cfg, p[|p| - 1]) then 1 else 0
  }

  /** The charges before the first answered scan. */
  function Early(cfg: Config, p: seq<Input>): nat {
    if p == [] then 0
    else
      var q := p[..|p| - 1];
      Early(cfg, q) + if Charged(cfg, p[|p| - 1]) && !HasScan(cfg, q) then 1 else 0
  }

  predicate EndsCharged(cfg: Config, p: seq<Input>) {
    p != [] && Charged(cfg, p[|p| - 1])
  }

  lemma {:induction false} ScansCounted(cfg: Config, p: seq<Input>)
    ensures HasScan(cfg, p) <==> Scans(cfg, p) > 0
  {
    if p != [] {
      var q, e := p[..|p| - 1], p[|p| - 1];
      ScansCounted(cfg, q);
      assert p == q + [e];
      HasScanStep(cfg, q, e);
    }
  }

  /**
   The exact account of decrements. Without an answered scan they are at most five. With one they are
   the charges before the first, one for every answered scan, and one more if the last receipt is a
   charge: so they exceed five, even with a single server reply, exactly if that sum does.
   */
  lemma {:induction false} DecrementAccount(cfg: Config, p: seq<Input>)
    requires Running(cfg, p)
    ensures Scans(cfg, p) == 0 ==> Decrements(cfg, p) == Early(cfg, p) == 5 - Fold(cfg, p).left <= 5
    ensures Scans(cfg, p) > 0 ==>
              && Decrements(cfg, p) == Early(cfg, p) + Scans(cfg, p) + (if EndsCharged(cfg, p) then 1 else 0)
              && Early(cfg, p) < 5
              && Fold(cfg, p).left == if EndsCharged(cfg, p) then 0 else 1
  {
    if p != [] {
      var q, e := p[..|p| - 1], p[|p| - 1];
      RunningPrefix(cfg, p);
      DecrementAccount(cfg, q);
      ScansCounted(cfg, q);
      ChargeOrScan(cfg, Fold(cfg, q), e);
    }
  }

  /** What one receipt does to the attempts. */
  lemma ChargeOrScan(cfg: Config, l: Loop, e: Input)
    ensures Counted(cfg, e) <==> Charged(cfg, e) || ScanAnswered(cfg, e)
    ensures !(Charged(cfg, e) && ScanAnswered(cfg, e))
    ensures Iterate(cfg, l, e).left ==
            if ScanAnswered(cfg, e) then 1 else if Charged(cfg, e) then l.left - 1 else l.left
  {
  }

  /** Everything that is counted along a run, one receipt further. */
  lemma RunStep(cfg: Config, q: seq<Input>, e: Input)
    requires Running(cfg, q) && Active(Fold(cfg, q))
    ensures Running(cfg, q + [e]) && Fold(cfg, q + [e]) == Iterate(cfg, Fold(cfg, q), e)
    ensures Decrements(cfg, q + [e]) == Decrements(cfg, q) + if Counted(cfg, e) then 1 else 0
    ensures Draws(cfg, q + [e]) == Draws(cfg, q) + ScanDraws(cfg, e)
    ensures ServerReplies(cfg, q + [e]) == ServerReplies(cfg, q) + if ServerReply(cfg, e) then 1 else 0
  {
    var p := q + [e];
    assert p[..|q|] == q;
    forall k | 0 <= k < |p| ensures Active(Fold(cfg, p[..k])) {
      assert p[..k] == q[..k];
      assert k == |q| ==> q[..k] == q;
    }
  }

  /** Four silences, an answered scan and a silence: six decrements, with one server reply. */
  lemma SixDecrements(cfg: Config)
    ensures var p := [] + [Timeout] + [Timeout] + [Timeout] + [Timeout] + [SampleScan(cfg)] + [Timeout];
            Running(cfg, p) && Decrements(cfg, p) == 6 && ServerReplies(cfg, p) == 1
  {
    var p: seq<Input> := [];
    RunStep(cfg, p, Timeout);
    RunStep(cfg, p + [Timeout], Timeout);
    RunStep(cfg, p + [Timeout] + [Timeout], Timeout);
    RunStep(cfg, p + [Timeout] + [Timeout] + [Timeout], Timeout);
    p := p + [Timeout] + [Timeout] + [Timeout] + [Timeout];
    RunStep(cfg, p, SampleScan(cfg));
    RunStep(cfg, p + [SampleScan(cfg)], Timeout);
  }

  // ----- the outcome

  /** The predicted address of the latest answered scan, or that of the server asked last through the socket. */
  function TargetAfter(cfg: Config, p: seq<Input>): Addr {
    if p == [] then (if cfg.symmetric then cfg.server1 else cfg.server2)
    else
      var e := p[|p| - 1];
      if ScanAnswered(cfg, e) then Predicted(e.msg, e.env)
      else TargetAfter(cfg, p[..|p| - 1])
  }

  predicate Settles(cfg: Config, p: seq<Input>, e: Input) {
    && e.Msg?
    && (|| (e.msg.ClientBindRequest? && e.msg.id == cfg.id)
        || (e.msg.ClientBindResponse? && e.from == TargetAfter(cfg, p)))
  }

  lemma {:induction false} TargetWhileRunning(cfg: Config, p: seq<Input>)
    requires Running(cfg, p) && Fold(cfg, p).phase == WaitingForStunReply
    ensures Fold(cfg, p).target == TargetAfter(cfg, p)
  {
    if p != [] {
      RunningPrefix(cfg, p);
      TargetWhileRunning(cfg, p[..|p| - 1]);
    }
  }

  /**
   How a run of the loop ends. A server match alone is reported like no server match at all, because
   a successful scan is not recorded in the phase.
   */
  lemma OutcomeOfRun(cfg: Config, p: seq<Input>)
    requires Running(cfg, p) && !Active(Fold(cfg, p))
    ensures Fold(cfg, p).phase == Connected <==> p != [] && Settles(cfg, p[..|p| - 1], p[|p| - 1])
    ensures Fold(cfg, p).phase == GaveUp <==> p != [] && ScanFailed(cfg, p[|p| - 1])
  {
    if p != [] {
      RunningPrefix(cfg, p);
      TargetWhileRunning(cfg, p[..|p| - 1]);
    }
  }

  function Charges(cfg: Config, p: seq<Input>): nat {
    if p == [] then 0
    else Charges(cfg, p[..|p| - 1]) + if Charged(cfg, p[|p| - 1]) then 1 else 0
  }

  /** One past the position of the latest answered scan; 0 if there is none. */
  function PastLastScan(cfg: Config, p: seq<Input>): (k: nat)
    ensures k <= |p|
    ensures k > 0 ==> ScanAnswered(cfg, p[k - 1])
    ensures forall i :: k <= i < |p| ==> !ScanAnswered(cfg, p[i])
  {
    if p == [] then 0
    else if ScanAnswered(cfg, p[|p| - 1]) then |p|
    else PastLastScan(cfg, p[..|p| - 1])
  }

  /** Five attempts, or one from the latest answered scan on, less what was charged since. */
  function Budget(cfg: Config, p: seq<Input>): int {
    var k := PastLastScan(cfg, p);
    (if HasScan(cfg, p) then 1 else 5) - Charges(cfg, p[k..])
  }

  lemma BudgetStep(cfg: Config, q: seq<Input>, e: Input)
    ensures Budget(cfg, q + [e]) ==
            if ScanAnswered(cfg, e) then 1
            else Budget(cfg, q) - if Charged(cfg, e) then 1 else 0
  {
    var p := q + [e];
    assert p[..|q|] == q && p[|q|] == e;
    HasScanStep(cfg, q, e);
    if ScanAnswered(cfg, e) {
      assert p[|p|..] == [];
    } else {
      var k := PastLastScan(cfg, q);
      assert p[k..] == q[k..] + [e];
      assert p[k..][..|p[k..]| - 1] == q[k..];
    }
  }

  /** While the loop runs, the attempts left are given by the receipts in closed form. */
  lemma {:induction false} BudgetClosedForm(cfg: Config, p: seq<Input>)
    requires Running(cfg, p)
    ensures Fold(cfg, p).phase == WaitingForStunReply ==> Fold(cfg, p).left == Budget(cfg, p)
  {
    if p == [] {
      assert p[0..] == [];
    } else {
      var q, e := p[..|p| - 1], p[|p| - 1];
      RunningPrefix(cfg, p);
      BudgetClosedForm(cfg, q);
      assert q + [e] == p;
      BudgetStep(cfg, q, e);
    }
  }

  /** The latest receipt settles the connection or ends it. */
  predicate Decided(cfg: Config, p: seq<Input>) {
    p != [] && (Settles(cfg, p[..|p| - 1], p[|p| - 1]) || ScanFailed(cfg, p[|p| - 1]))
  }

  predicate Over(cfg: Config, p: seq<Input>) {
    Decided(cfg, p) || Budget(cfg, p) <= 0
  }

  /** `n` is the first point at which the receipts decide the connection or use up its attempts. */
  ghost predicate EndsAt(cfg: Config, script: seq<Input>, n: nat) {
    && Over(cfg, Stream(script, n))
    && forall k: nat :: k < n ==> !Over(cfg, Stream(script, k))
  }

  lemma DecidedMeansNotWaiting(cfg: Config, p: seq<Input>)
    requires Running(cfg, p)
    ensures Decided(cfg, p) <==> Fold(cfg, p).phase != WaitingForStunReply
  {
    if p != [] {
      RunningPrefix(cfg, p);
      TargetWhileRunning(cfg, p[..|p| - 1]);
    }
  }

  lemma OverMeansInactive(cfg: Config, p: seq<Input>)
    requires Running(cfg, p)
    ensures Over(cfg, p) <==> !Active(Fold(cfg, p))
  {
    DecidedMeansNotWaiting(cfg, p);
    BudgetClosedForm(cfg, p);
  }

  lemma StopsWhere(cfg: Config, script: seq<Input>, n: nat)
    requires Running(cfg, Stream(script, n)) && !Active(Fold(cfg, Stream(script, n)))
    ensures EndsAt(cfg, script, n)
  {
    var p := Stream(script, n);
    OverMeansInactive(cfg, p);
    forall k: nat | k < n ensures !Over(cfg, Stream(script, k)) {
      var r := Stream(script, k);
      assert r == p[..k];
      forall i | 0 <= i < k ensures Active(Fold(cfg, r[..i])) {
        assert r[..i] == p[..i];
      }
      OverMeansInactive(cfg, r);
    }
  }

  // ----- the ports drawn

  /** How many scan ports one receipt makes the connector draw. */
  function ScanDraws(cfg: Config, e: Input): nat {
    if e.Msg? && e.msg.PsBindReply? && FromServer(cfg, e.from) && cfg.symmetric && TargetPort(e.msg, e.env) != 0
    then ScanSize(e.env.sockets)
    else 0
  }

  function Draws(cfg: Config, p: seq<Input>): nat {
    if p == [] then 0 else Draws(cfg, p[..|p| - 1]) + ScanDraws(cfg, p[|p| - 1])
  }

  predicate ServerReply(cfg: Config, e: Input) {
    e.Msg? && e.msg.PsBindReply? && FromServer(cfg, e.from)
  }

  function ServerReplies(cfg: Config, p: seq<Input>): nat {
    if p == [] then 0
    else ServerReplies(cfg, p[..|p| - 1]) + if ServerReply(cfg, p[|p| - 1]) then 1 else 0
  }

  /** Everything a connection draws, helper port first, lies strictly inside its own block. */
  ghost predicate InsideBlock(cfg: Config, p: seq<Input>, q: Params, base: Port) {
    forall k :: 1 <= k <= 1 + Draws(cfg, p) ==> base < PortLaws.NthDraw(q, base, k) < base + q.reserved
  }

  /**
   The helper port and the scan ports stay inside the block exactly if they are fewer than its ports
   and end by port 65535.
   */
  lemma {:induction false} ReservationSuffices(cfg: Config, p: seq<Input>, q: Params, base: Port)
    requires q.reserved > 0 && q.minPort <= base
    ensures InsideBlock(cfg, p, q, base) <==>
            1 + Draws(cfg, p) < q.reserved && base + 1 + Draws(cfg, p) < 0x1_0000
    ensures InsideBlock(cfg, p, q, base) ==>
              forall k :: 1 <= k <= 1 + Draws(cfg, p) ==> PortLaws.NthDraw(q, base, k) == base + k
  {
    var n := 1 + Draws(cfg, p);
    if n < q.reserved && base + n < 0x1_0000 {
      forall k | 1 <= k <= n ensures PortLaws.NthDraw(q, base, k) == base + k {
        WithinBlock(q, base, k);
      }
    } else {
      BlockUsedUp(q, base);
    }
  }

  lemma WithinBlock(q: Params, base: Port, k: nat)
    requires q.minPort <= base && base + k < 0x1_0000
    ensures PortLaws.NthDraw(q, base, k) == base + k
  {
  }

  /** The draw that would be past the block, or past port 65535, is outside the block. */
  lemma BlockUsedUp(q: Params, base: Port)
    requires q.reserved > 0 && q.minPort <= base
    ensures base + q.reserved < 0x1_0000 ==> PortLaws.NthDraw(q, base, q.reserved) == base + q.reserved
    ensures PortLaws.NthDraw(q, base, 0x1_0000 - base) == q.minPort
  {
    assert Wrap16(base + (0x1_0000 - base)) == 0;
  }

  lemma {:induction false} DrawsOfFullScans(cfg: Config, p: seq<Input>)
    requires forall i :: 0 <= i < |p| && ServerReply(cfg, p[i]) ==> ScanDraws(cfg, p[i]) == SCAN_RANGE
    ensures Draws(cfg, p) == SCAN_RANGE * ServerReplies(cfg, p)
  {
    if p != [] {
      DrawsOfFullScans(cfg, p[..|p| - 1]);
    }
  }

  /**
   With the default block of 75 ports and full scans: exactly if at most one server reply is acted on
   and the ports drawn end by port 65535.
   */
  lemma {:induction false} OneFullScanFits(cfg: Config, p: seq<Input>, q: Params, base: Port)
    requires q.reserved == 75 && q.minPort <= base
    requires forall i :: 0 <= i < |p| && ServerReply(cfg, p[i]) ==> ScanDraws(cfg, p[i]) == SCAN_RANGE
    ensures InsideBlock(cfg, p, q, base) <==>
            ServerReplies(cfg, p) <= 1 && base + 1 + SCAN_RANGE * ServerReplies(cfg, p) < 0x1_0000
  {
    DrawsOfFullScans(cfg, p);
    ReservationSuffices(cfg, p, q, base);
  }

  /**
   A second server reply does leave the block: two replies, both with an answered full scan, keep the
   loop of a symmetric client going, and the 75th of the 101 draws is the next base port.
   */
  lemma SecondScanLeavesBlock(cfg: Config, q: Params, base: Port)
    requires cfg.symmetric
    requires q.reserved == 75 && q.minPort <= base && base + q.reserved < 0x1_0000
    ensures var p := [] + [SampleScan(cfg)] + [SampleScan(cfg)];
            && Running(cfg, p) && Active(Fold(cfg, p)) && Draws(cfg, p) == 100
            && !InsideBlock(cfg, p, q, base)
            && PortLaws.NthDraw(q, base, 75) == Hand(q, Wrap16(base + q.reserved))
  {
    RunStep(cfg, [], SampleScan(cfg));
    RunStep(cfg, [] + [SampleScan(cfg)], SampleScan(cfg));
    ReservationSuffices(cfg, [] + [SampleScan(cfg)] + [SampleScan(cfg)], q, base);
    BlockUsedUp(q, base);
  }

  /** `ports` are the first draws from `base` on, and nothing but its sub-counter has changed. */
  predicate DrawnFrom(q: Params, before: State, after: State, base: Port, ports: seq<Port>) {
    && base in before.subs
    && before.subs[base] == Wrap16(base + 1)
    && after == before.(subs := before.subs[base := Wrap16(base + 1 + |ports|)])
    && forall i :: 0 <= i < |ports| ==> ports[i] == PortLaws.NthDraw(q, base, 1 + i)
  }

  lemma OneMoreDrawn(q: Params, before: State, now: State, base: Port, ports: seq<Port>)
    requires DrawnFrom(q, before, now, base, ports)
    ensures var (after, port) := AssignedFromBase(q, now, base, 0);
            DrawnFrom(q, before, after, base, ports + [port])
  {
    PortLaws.NextDraw(q, base, |ports|);
  }

  lemma NothingDrawn(q: Params, s: State)
    ensures var (after, base) := Assigned(q, s); DrawnFrom(q, after, after, base, [])
  {
  }

  /** What a server's reply makes of the loop. */
  lemma StartOutcome(cfg: Config, l: Loop, e: Input)
    requires ServerReply(cfg, e)
    ensures Iterate(cfg, l, e) ==
            if TryStart(cfg, e.msg, e.env).Answered? then l.(target := Predicted(e.msg, e.env), left := 1)
            else if !cfg.symmetric && TargetPort(e.msg, e.env) != 0
            then l.(phase := GaveUp, target := Predicted(e.msg, e.env))
            else l.(phase := GaveUp)
  {
  }

  /** The ports that a log of calls gave the caller, 0 where a call was refused. */
  function PortsOf(log: seq<PortLaws.Entry>): (ports: seq<Port>)
    ensures |ports| == |log|
  {
    seq(|log|, i requires 0 <= i < |log| => if log[i].Refused? then 0 else log[i].port)
  }

  /** A connection draws from its base port, or reserves a new one for every socket if it has none. */
  predicate OwnCall(basePort: Port, simulated: bool, op: PortLaws.Op) {
    if basePort == 0 then op.Next? else op.FromBase? && op.base == basePort && (simulated || op.offset == 0)
  }

  /** `calls` lead from one state of the allocator to the other, and gave `ports`. */
  predicate CallsGave(
    q: Params, before: State, calls: seq<PortLaws.Op>, after: State, ports: seq<Port>)
  {
    var (s, log) := PortLaws.Run(q, before, calls);
    s == after && PortsOf(log) == ports
  }

  lemma OneMoreCall(
    q: Params, before: State, calls: seq<PortLaws.Op>, now: State, ports: seq<Port>, op: PortLaws.Op,
    after: State, e: PortLaws.Entry)
    requires CallsGave(q, before, calls, now, ports) && (after, e) == PortLaws.Apply(q, now, op)
    ensures CallsGave(q, before, calls + [op], after, ports + [if e.Refused? then 0 else e.port])
  {
    PortLaws.RunExtends(q, before, calls, op);
  }

  lemma Regroup(a: seq<Send>, b: seq<Send>, c: seq<Send>)
    ensures a + b + c == a + (b + c)
  {
  }

  class Connector {
    const cfg: Config
    var basePort: Port
    var state: Option<Phase>
    var target: Addr
    ghost var outbox: seq<Send>
    /** The ports drawn for helper and scan sockets, and the calls of the allocator they came from. */
    ghost var drawn: seq<Port>
    ghost var calls: seq<PortLaws.Op>

    constructor (cfg: Config)
      ensures this.cfg == cfg && basePort == 0 && state == None && drawn == [] && calls == [] && outbox == []
    {
      this.cfg, basePort, state, target := cfg, 0, None, UNSET;
      drawn, calls, outbox := [], [], [];
    }

    /** The connection has a base port, and no simulated traffic is mixed into its draws. */
    predicate Exact(pm: Manager)
      reads this`basePort, pm`simulatedAllocsPerSecond
    {
      basePort != 0 && pm.simulatedAllocsPerSecond == 0
    }

    /** What was drawn since `before` came from the connection's own calls, in order. */
    ghost predicate Drawn(pm: Manager, before: State)
      reads this`basePort, this`drawn, this`calls, pm
    {
      && CallsGave(pm.Parameters(), before, calls, pm.Contents(), drawn)
      && (forall i :: 0 <= i < |calls| ==> OwnCall(basePort, pm.simulatedAllocsPerSecond != 0, calls[i]))
      && (Exact(pm) ==> DrawnFrom(pm.Parameters(), before, pm.Contents(), basePort, drawn))
    }

    /** Draw the port for one more socket; a failing bind is only reported. */
    method DrawOne(pm: Manager, ghost before: State)
      requires Drawn(pm, before)
      modifies pm`currentPort, pm`portResPortMap, this`drawn, this`calls
      ensures |drawn| == |old(drawn)| + 1 && Drawn(pm, before)
    {
      ghost var q, now := pm.Parameters(), pm.Contents();
      ghost var op := PortLaws.Next;
      var port;
      if basePort != 0 {
        var simulated: Port :| 0 <= simulated < 0x1_0000;
        ghost var offset: Port := if pm.simulatedAllocsPerSecond != 0 then simulated else 0;
        if Exact(pm) {
          OneMoreDrawn(q, before, now, basePort, drawn);
        }
        op := PortLaws.FromBase(basePort, offset);
        port := pm.AssignNextFromBase(basePort, simulated);
      } else {
        port := pm.AssignNext();
      }
      ghost var e := PortLaws.Apply(q, now, op).1;
      assert port == if e.Refused? then 0 else e.port;
      OneMoreCall(q, before, calls, now, drawn, op, pm.Contents(), e);
      drawn, calls := drawn + [port], calls + [op];
    }

    /** The scan loop of `try_start_ps_connection`, up to the first socket that cannot be set up. */
    method DrawScanPorts(pm: Manager, sockets: nat, to: Addr, ghost before: State)
      requires Drawn(pm, before)
      modifies pm`currentPort, pm`portResPortMap, this`drawn, this`calls, this`outbox
      ensures |drawn| == |old(drawn)| + ScanSize(sockets) && Drawn(pm, before)
      ensures outbox == old(outbox) + Requests(cfg, to, ScanSize(sockets))
    {
      var i := 0;
      while i < SCAN_RANGE && i < sockets
        invariant 0 <= i <= SCAN_RANGE && i <= sockets
        invariant |drawn| == |old(drawn)| + i && Drawn(pm, before)
        invariant outbox == old(outbox) + Requests(cfg, to, i)
      {
        DrawOne(pm, before);
        TryConnectToClient(2 + i, to);
        i := i + 1;
      }
    }

    /** Ask `to` to connect, through one of the sockets. */
    method TryConnectToClient(socket: nat, to: Addr)
      modifies this`outbox
      ensures outbox == old(outbox) + [Send(socket, to, ClientBindRequest(cfg.id))]
    {
      outbox := outbox + [Send(socket, to, ClientBindRequest(cfg.id))];
    }

    /** Answer a peer's request if it carries the own id, and make that peer the target. */
    method ReplyToBindRequest(theirs: Id, peer: Addr) returns (ok: bool)
      modifies this`outbox, this`target
      ensures ok <==> theirs == cfg.id
      ensures target == if ok then peer else old(target)
      ensures outbox == old(outbox) + if ok then [Send(0, peer, ClientBindResponse(cfg.id))] else []
    {
      if theirs != cfg.id {
        return false;
      }
      target := peer;
      outbox := outbox + [Send(0, target, ClientBindResponse(cfg.id))];
      return true;
    }

    /**
     `try_start_ps_connection`: predict the peer's port and ask there, from many sockets at once if the
     client is symmetric, and wait for an answer. The socket that was answered becomes the own one.
     */
    method TryStartPsConnection(pm: Manager, reply: Message, env: Env, ghost before: State) returns (success: bool)
      requires reply.PsBindReply? && Drawn(pm, before)
      modifies pm`currentPort, pm`portResPortMap, this`drawn, this`calls, this`outbox, this`target
      ensures Drawn(pm, before)
      ensures success == TryStart(cfg, reply, env).Answered?
      ensures target == if success || (!cfg.symmetric && TargetPort(reply, env) != 0)
                        then Predicted(reply, env) else old(target)
      ensures |drawn| == |old(drawn)| +
              if cfg.symmetric && TargetPort(reply, env) != 0 then ScanSize(env.sockets) else 0
      ensures outbox == old(outbox) + StartSends(cfg, reply, env)
    {
      var port := TargetPort(reply, env);
      if port == 0 {
        return false;
      }
      var to := Addr(reply.one.host, port);
      if !cfg.symmetric {
        target := to;
        TryConnectToClient(0, to);
        return env.selected.Ready?;
      }
      DrawScanPorts(pm, env.sockets, to, before);
      if env.sockets < SCAN_RANGE {
        return false;
      }
      match env.selected {
        case Silence => return false;
        case Broken => return false;
        case Ready(i) =>
          if i >= SCAN_RANGE {
            return false;
          }
          target := to;
          return true;
      }
    }

    /** A reply of the server. A successful scan sets the attempts, and the decrement follows. */
    method OnServerReply(pm: Manager, e: Input, left: int, ghost before: State) returns (left': int)
      requires state.Some? && Drawn(pm, before) && ServerReply(cfg, e)
      modifies pm`currentPort, pm`portResPortMap, this`drawn, this`calls, this`outbox, this`target, this`state
      ensures state.Some? && Drawn(pm, before)
      ensures Loop(state.value, target, left') == Iterate(cfg, Loop(old(state.value), old(target), left), e)
      ensures |drawn| == |old(drawn)| + ScanDraws(cfg, e)
      ensures outbox == old(outbox) + Sends(cfg, Loop(old(state.value), old(target), left), e)
    {
      StartOutcome(cfg, Loop(state.value, target, left), e);
      var success := TryStartPsConnection(pm, e.msg, e.env, before);
      if success {
        left' := ATTEMPTS_AFTER_SCAN;
        left' := left' - 1;
      } else {
        left' := left;
        state := Some(GaveUp);
      }
    }

    /** One iteration of the loop of `connect`. */
    method Turn(pm: Manager, e: Input, left: int, ghost before: State) returns (left': int)
      requires state.Some? && Drawn(pm, before)
      modifies pm`currentPort, pm`portResPortMap, this
      ensures state.Some? && basePort == old(basePort) && Drawn(pm, before)
      ensures Loop(state.value, target, left') == Iterate(cfg, Loop(old(state.value), old(target), left), e)
      ensures |drawn| == |old(drawn)| + ScanDraws(cfg, e)
      ensures outbox == old(outbox) + Sends(cfg, Loop(old(state.value), old(target), left), e)
    {
      left' := left;
      match e {
        case Timeout =>
          left' := left - 1;
        case Fault =>
          left' := left - 1;
        case Msg(from, PsBindReply(_, _, _, _), env) =>
          if FromServer(cfg, from) {
            left' := OnServerReply(pm, e, left, before);
          }
        case Msg(from, ClientBindRequest(theirs), _) =>
          var ok := ReplyToBindRequest(theirs, from);
          if ok {
            state := Some(Connected);
          } else {
            left' := left - 1;
          }
        case Msg(from, ClientBindResponse(_), _) =>
          if from == target {
            state := Some(Connected);
          }
        case Msg(_, Ack, _) =>
        case Msg(_, _, _) =>
          left' := left - 1;
      }
    }

    /** The loop of `connect`, on a script of receipts followed by silence. */
    method AwaitPeer(pm: Manager, script: seq<Input>, ghost before: State) returns (iterations: nat)
      requires state == Some(WaitingForStunReply) && target == Begin(cfg).target && Drawn(pm, before)
      modifies pm`currentPort, pm`portResPortMap, this
      ensures state.Some? && basePort == old(basePort) && Drawn(pm, before)
      ensures var p := Stream(script, iterations);
              && Running(cfg, p) && !Active(Fold(cfg, p))
              && state.value == Fold(cfg, p).phase && target == Fold(cfg, p).target
              && |drawn| == |old(drawn)| + Draws(cfg, p)
              && outbox == old(outbox) + SentOver(cfg, p)
      ensures iterations <= 5 + Messages(script)
    {
      var left := ATTEMPTS;
      iterations := 0;
      assert Stream(script, 0) == [];
      while state.value == WaitingForStunReply && left > 0
        invariant state.Some? && basePort == old(basePort) && Drawn(pm, before)
        invariant Loop(state.value, target, left) == Fold(cfg, Stream(script, iterations))
        invariant Running(cfg, Stream(script, iterations))
        invariant |drawn| == |old(drawn)| + Draws(cfg, Stream(script, iterations))
        invariant outbox == old(outbox) + SentOver(cfg, Stream(script, iterations))
        decreases 5 + Messages(script) - iterations
      {
        StreamBudget(cfg, script, iterations);
        StreamStep(cfg, script, iterations);
        var e := At(script, iterations);
        ghost var l := Fold(cfg, Stream(script, iterations));
        left := Turn(pm, e, left, before);
        Regroup(old(outbox), SentOver(cfg, Stream(script, iterations)), Sends(cfg, l, e));
        iterations := iterations + 1;
      }
      StreamBudget(cfg, script, iterations);
    }

    /**
     `connect`. The parameters are what the outside does: whether the first port can be bound, the two
     sends succeed, the helper socket can be set up, what the two first waits yield, and then the
     receipts of the loop.
     */
    method Connect(pm: Manager, bound: bool, sent1: bool, first: Input, helper: bool, sent2: bool,
                   second: Input, script: seq<Input>)
      returns (result: ConnectResult, iterations: nat)
      modifies pm`currentPort, pm`portResPortMap, this
      ensures var ok := sent1 && first.Msg? && (cfg.symmetric ==> helper) && sent2 && second.Msg?;
              && (result == Error <==> !ok) && result != Invalid
              && (ok ==>
                    var p := Stream(script, iterations);
                    && EndsAt(cfg, script, iterations)
                    && (result == Successful <==> p != [] && Settles(cfg, p[..|p| - 1], p[|p| - 1]))
                    && (result == Failed <==> p != [] && ScanFailed(cfg, p[|p| - 1]))
                    && (result == FailedNoServerMatchInTime <==> !Decided(cfg, p))
                    && target == Fold(cfg, p).target
                    && iterations <= 5 + Messages(script)
                    && |drawn| == (if cfg.symmetric then 1 else 0) + Draws(cfg, p)
                    && outbox == old(outbox)
                                 + [Send(0, cfg.server1, PsBindRequest(cfg.id)),
                                    Send(if cfg.symmetric then 1 else 0, cfg.server2, PsBindRequest(cfg.id))]
                                 + SentOver(cfg, p))
      ensures result == Error ==>
                outbox == old(outbox)
                          + (if sent1 then [Send(0, cfg.server1, PsBindRequest(cfg.id))] else [])
                          + (if !(sent1 && first.Msg? && sent2) || (cfg.symmetric && !helper) then []
                             else [Send(if cfg.symmetric then 1 else 0, cfg.server2, PsBindRequest(cfg.id))])
      ensures var (before, base) := Assigned(pm.Parameters(), old(pm.Contents()));
              basePort == (if bound then base else 0) && Drawn(pm, before)
    {
      iterations := 0;
      ghost var before := BindBase(pm, bound);
      var ok := AskServers(pm, sent1, first, helper, sent2, second, before);
      if !ok {
        return Error, 0;
      }
      state := Some(WaitingForStunReply);
      ghost var asked := [Send(0, cfg.server1, PsBindRequest(cfg.id)),
                          Send(if cfg.symmetric then 1 else 0, cfg.server2, PsBindRequest(cfg.id))];
      assert outbox == old(outbox) + asked;
      iterations := AwaitPeer(pm, script, before);
      OutcomeOfRun(cfg, Stream(script, iterations));
      StopsWhere(cfg, script, iterations);
      match state.value {
        case Connected => result := Successful;
        case GaveUp => result := Failed;
        case WaitingForStunReply => result := FailedNoServerMatchInTime;
      }
    }

    /** The first part of `connect`: one request to each server, and any answer to each. */
    method AskServers(pm: Manager, sent1: bool, first: Input, helper: bool, sent2: bool, second: Input,
                      ghost before: State)
      returns (ok: bool)
      requires Drawn(pm, before)
      modifies pm`currentPort, pm`portResPortMap, this`drawn, this`calls, this`outbox, this`target
      ensures Drawn(pm, before)
      ensures ok <==> sent1 && first.Msg? && (cfg.symmetric ==> helper) && sent2 && second.Msg?
      ensures ok ==> target == Begin(cfg).target && |drawn| == |old(drawn)| + if cfg.symmetric then 1 else 0
      ensures outbox == old(outbox)
                        + (if sent1 then [Send(0, cfg.server1, PsBindRequest(cfg.id))] else [])
                        + (if !(sent1 && first.Msg? && sent2) || (cfg.symmetric && !helper) then []
                           else [Send(if cfg.symmetric then 1 else 0, cfg.server2, PsBindRequest(cfg.id))])
    {
      target := cfg.server1;
      if !sent1 {
        return false;
      }
      outbox := outbox + [Send(0, target, PsBindRequest(cfg.id))];
      if !first.Msg? {
        return false;
      }
      if cfg.symmetric {
        if !helper {
          return false;
        }
        DrawOne(pm, before);
      } else {
        target := cfg.server2;
      }
      if !sent2 {
        return false;
      }
      outbox := outbox + [Send(if cfg.symmetric then 1 else 0, cfg.server2, PsBindRequest(cfg.id))];
      return second.Msg?;
    }

    /** Reserve a base port and bind the first socket to it. */
    method BindBase(pm: Manager, bound: bool) returns (ghost before: State)
      modifies pm`currentPort, pm`portResPortMap, this`basePort, this`drawn, this`calls
      ensures before == Assigned(pm.Parameters(), old(pm.Contents())).0
      ensures basePort == if bound then Assigned(pm.Parameters(), old(pm.Contents())).1 else 0
      ensures drawn == [] && calls == [] && Drawn(pm, before)
    {
      NothingDrawn(pm.Parameters(), pm.Contents());
      var port := pm.AssignNext();
      basePort := if bound then port else 0;
      before := pm.Contents();
      drawn, calls := [], [];
    }
  }

  lemma StreamBudget(cfg: Config, script: seq<Input>, n: nat)
    requires Running(cfg, Stream(script, n))
    ensures 0 <= Fold(cfg, Stream(script, n)).left
    ensures n + Fold(cfg, Stream(script, n)).left <= 5 + Messages(script)
  {
    AttemptBudget(cfg, Stream(script, n));
    MessagesOfStream(script, n);
  }

  lemma StreamStep(cfg: Config, script: seq<Input>, n: nat)
    requires Running(cfg, Stream(script, n)) && Active(Fold(cfg, Stream(script, n)))
    ensures var p, e := Stream(script, n), At(script, n);
            && Fold(cfg, Stream(script, n + 1)) == Iterate(cfg, Fold(cfg, p), e)
            && Draws(cfg, Stream(script, n + 1)) == Draws(cfg, p) + ScanDraws(cfg, e)
            && SentOver(cfg, Stream(script, n + 1)) == SentOver(cfg, p) + Sends(cfg, Fold(cfg, p), e)
    ensures Running(cfg, Stream(script, n + 1))
  {
    var p, s := Stream(script, n), Stream(script, n + 1);
    assert s[..n] == p;
    forall k | 0 <= k < n + 1 ensures Active(Fold(cfg, s[..k])) {
      if k < n {
        assert s[..k] == p[..k];
      }
    }
  }
}
