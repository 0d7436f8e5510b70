/** From the server's replies to the clients' arithmetic, and from the scan to the allocator's blocks. */
module ReplySafety {
  import opened Wire
  import Ps = PsTransactions
  import PsLaws
  import opened PortPrediction
  import opened PortManager
  import PortLaws
  import Client = P2pPsConnector

  /** A reply's stamps, at a client that evaluates it at `now`: nothing wraps, nothing divides by 0. */
  predicate Evaluable(m: Message, now: Time)
    requires m.PsBindReply?
  {
    && m.t1 <= m.t2 <= now
    && Wrap64(m.t2 - m.t1 + 1) == m.t2 - m.t1 + 1 >= 1
    && Wrap64(now - m.t2) == now - m.t2
  }

  /** If the reported ports ascend, the prediction stays under the steepest slope let through. */
  predicate UnderSlope(m: Message, now: Time)
    requires m.PsBindReply? && m.t1 <= m.t2 <= now
  {
    m.one.port < m.two.port < m.one.port + 250 ==>
      match DetermineTargetPort(m.one.port, m.two.port, m.t1, m.t2, now)
      case OutOfRange => true
      case Target(p) =>
        m.two.port + 25 <= p <= m.two.port + 25 + Carried(now - m.t2 + 100, m.t2 - m.t1 + 1, 249)
  }

  lemma OrderedStampsAreEvaluable(m: Message, now: Time)
    requires m.PsBindReply? && m.t1 <= m.t2 <= now && now + 100 < 0x1_0000_0000_0000_0000
    ensures Evaluable(m, now)
  {
  }

  lemma OrderedStampsAreSafe(m: Message, now: Time)
    requires m.PsBindReply? && m.t1 <= m.t2 <= now && now + 100 < 0x1_0000_0000_0000_0000
    ensures UnderSlope(m, now)
  {
    if m.one.port < m.two.port < m.one.port + 250 {
      SlopeBound(m.one.port, m.two.port, m.t1, m.t2, now);
    }
  }

  /**
   A reply that some run of the server sent, evaluated by a client with a synchronised clock after it
   was sent: no subtraction of the predictor underflows and its divisor is at least 1, and if the
   ports ascend the prediction stays under the steepest slope.
   */
  lemma {:induction false} PredictorIsSafe(trace: seq<Ps.Request>, l: Ps.Logged, now: Time)
    requires Ps.Addressed(trace) && Ps.Clocked(trace)
    requires l in Ps.Run(trace).log && l.send.msg.PsBindReply?
    requires l.cause.stamp <= now && now + 100 < 0x1_0000_0000_0000_0000
    ensures Evaluable(l.send.msg, now) && UnderSlope(l.send.msg, now)
  {
    PsLaws.EveryReplyIsSound(trace);
    OrderedStampsAreEvaluable(l.send.msg, now);
    OrderedStampsAreSafe(l.send.msg, now);
  }

  /** The ports lie strictly inside the block of `base`. */
  predicate Inside(q: Params, base: Port, d: seq<Port>) {
    forall i :: 0 <= i < |d| ==> base < d[i] < base + q.reserved
  }

  /** Consecutive draws stay inside the block exactly if they are few enough and end by port 65535. */
  lemma ConsecutiveInBlock(q: Params, base: Port, d: seq<Port>)
    requires q.reserved > 0 && q.minPort <= base
    requires forall i :: 0 <= i < |d| ==> d[i] == PortLaws.NthDraw(q, base, 1 + i)
    ensures Inside(q, base, d) <==> |d| < q.reserved && base + |d| < 0x1_0000
    ensures base + |d| < 0x1_0000 ==> forall i :: 0 <= i < |d| ==> d[i] == base + 1 + i
  {
    if base + |d| < 0x1_0000 {
      forall i | 0 <= i < |d| ensures d[i] == base + 1 + i {
        Client.WithinBlock(q, base, 1 + i);
      }
      assert |d| >= q.reserved ==> d[q.reserved - 1] == base + q.reserved;
    } else {
      Client.BlockUsedUp(q, base);
      assert d[0x1_0000 - base - 1] == q.minPort;
    }
  }

  /**
   A connection reserves `base` and draws its helper and scan ports from it. Whatever was called before,
   and however the calls of other threads are interleaved with its own, as long as nobody else draws
   from its base and fewer base ports than a pass has are reserved meanwhile: its draws stay inside its
   block exactly if there are fewer of them than the block has ports and they end by port 65535. So they
   do if that holds of what its receipts call for, and they are then the consecutive ports above its base.
   */
  lemma {:induction false} InterleavedReservation(
    cfg: Client.Config, p: seq<Client.Input>, q: Params, s: State, before: seq<PortLaws.Op>,
    s1: State, base: Port, after: seq<PortLaws.Op>)
    requires q.reserved > 0 && PortLaws.Restarts(q) && q.minPort <= s.current
    requires PortLaws.Apply(q, PortLaws.Run(q, s, before).0, PortLaws.Next) == (s1, PortLaws.Base(base))
    requires PortLaws.NextCalls(after) < PortLaws.PassLength(q, q.minPort) && PortLaws.ExactDraws(after, base)
    requires PortLaws.DrawsFrom(after, base) <= 1 + Client.Draws(cfg, p)
    ensures var d := PortLaws.DerivedFrom(PortLaws.Run(q, s1, after).1, base);
            && |d| == PortLaws.DrawsFrom(after, base)
            && (Inside(q, base, d) <==> |d| < q.reserved && base + |d| < 0x1_0000)
            && (1 + Client.Draws(cfg, p) < q.reserved && base + 1 + Client.Draws(cfg, p) < 0x1_0000 ==>
                  Inside(q, base, d) && forall i :: 0 <= i < |d| ==> d[i] == base + 1 + i)
  {
    PortLaws.OwnDraws(q, s, before, s1, base, after);
    ConsecutiveInBlock(q, base, PortLaws.DerivedFrom(PortLaws.Run(q, s1, after).1, base));
  }

  /**
   The last base port of every later pass is 65525 with the program's allocator, followed by 5000. From
   it, one server reply with an answered full scan already leaves the block: the 11th port drawn is 5000.
   */
  lemma LastBlockTooShort(cfg: Client.Config, first: Port)
    requires cfg.symmetric && 5000 <= first
    ensures var q, p := Params(75, 5000), [] + [Client.SampleScan(cfg)];
            var n := PortLaws.PassLength(q, first) + 807;
            && PortLaws.Expected(q, first, n) == 65525 && PortLaws.Expected(q, first, n + 1) == 5000
            && Client.Running(cfg, p) && Client.Active(Client.Fold(cfg, p))
            && Client.ServerReplies(cfg, p) == 1 && Client.Draws(cfg, p) == 50
            && !Client.InsideBlock(cfg, p, q, 65525) && PortLaws.NthDraw(q, 65525, 11) == 5000
  {
    var q, p := Params(75, 5000), [] + [Client.SampleScan(cfg)];
    assert PortLaws.PassLength(q, 5000) == 808;
    PortLaws.SmallMod(807, 808);
    assert 808 % 808 == 0;
    Client.RunStep(cfg, [], Client.SampleScan(cfg));
    Client.ReservationSuffices(cfg, p, q, 65525);
    Client.BlockUsedUp(q, 65525);
  }
}
