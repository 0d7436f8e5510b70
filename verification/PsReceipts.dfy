/**
 What each receipt makes the port-scan client do: where it aims, what it sends and how many ports it
 draws, told from the message and the outside, in whole numbers.
 */
module PsReceipts {
  import opened Wire
  import opened PortPrediction
  import opened Receipts
  import opened P2pPsConnector

  /** The port a reply about `one` and `two` leads to: 0 for none, any port if the prediction is no port. */
  function PortFor(one: Addr, two: Addr, t1: nat, t2: nat, env: Env): Port {
    match WholePrediction(one.port, two.port, t1 % 0x1_0000_0000_0000_0000, t2 % 0x1_0000_0000_0000_0000, env.now)
    case Target(port) => port
    case OutOfRange => env.undefined
  }

  /** Something answered: on one of 50 scan sockets if the client is symmetric, on its own socket otherwise. */
  predicate Heard(cfg: Config, env: Env) {
    && env.selected.Ready?
    && (cfg.symmetric ==> env.sockets >= 50 && env.selected.socket < 50)
  }

  predicate FromEither(cfg: Config, from: Addr) {
    from.host == cfg.server1.host || from.host == cfg.server2.host
  }

  lemma Extends(cfg: Config, p: seq<Input>, e: Input)
    ensures Fold(cfg, p + [e]) == Iterate(cfg, Fold(cfg, p), e)
    ensures SentOver(cfg, p + [e]) == SentOver(cfg, p) + Sends(cfg, Fold(cfg, p), e)
    ensures Draws(cfg, p + [e]) == Draws(cfg, p) + ScanDraws(cfg, e)
  {
    assert (p + [e])[..|p|] == p;
  }

  lemma SamePort(one: Addr, two: Addr, t1: nat, t2: nat, env: Env)
    ensures TargetPort(PsBindReply(one, two, t1, t2), env) == PortFor(one, two, t1, t2, env)
  {
    PredictionFormula(one.port, two.port, Wrap64(t1), Wrap64(t2), env.now);
  }

  /** No port can be predicted: the connection gives up at once. */
  lemma UnpredictableReply(cfg: Config, p: seq<Input>, from: Addr, one: Addr, two: Addr, t1: nat, t2: nat, env: Env)
    requires FromEither(cfg, from) && PortFor(one, two, t1, t2, env) == 0
    ensures var q := p + [Msg(from, PsBindReply(one, two, t1, t2), env)];
            && Fold(cfg, q) == Fold(cfg, p).(phase := GaveUp)
            && SentOver(cfg, q) == SentOver(cfg, p) && Draws(cfg, q) == Draws(cfg, p)
  {
    Extends(cfg, p, Msg(from, PsBindReply(one, two, t1, t2), env));
    SamePort(one, two, t1, t2, env);
  }

  /** A client that is not symmetric asks the predicted address from its own socket and keeps aiming there. */
  lemma PlainReply(cfg: Config, p: seq<Input>, from: Addr, one: Addr, two: Addr, t1: nat, t2: nat, env: Env)
    requires !cfg.symmetric && FromEither(cfg, from) && PortFor(one, two, t1, t2, env) != 0
    ensures var q, to := p + [Msg(from, PsBindReply(one, two, t1, t2), env)],
                         Addr(one.host, PortFor(one, two, t1, t2, env));
            && Fold(cfg, q) == (if Heard(cfg, env) then Fold(cfg, p).(target := to, left := 1)
                                else Fold(cfg, p).(target := to, phase := GaveUp))
            && SentOver(cfg, q) == SentOver(cfg, p) + [Send(0, to, ClientBindRequest(cfg.id))]
            && Draws(cfg, q) == Draws(cfg, p)
  {
    Extends(cfg, p, Msg(from, PsBindReply(one, two, t1, t2), env));
    SamePort(one, two, t1, t2, env);
  }

  /** One request to `to` from each scan socket in turn; the scan sockets are numbered from 2. */
  predicate AskedFromAll(sent: seq<Send>, to: Addr, id: Id) {
    forall i :: 0 <= i < |sent| ==> sent[i] == Send(2 + i, to, ClientBindRequest(id))
  }

  /** A symmetric client asks it once from each of up to 50 fresh sockets, one port drawn for each. */
  lemma SymmetricReply(cfg: Config, p: seq<Input>, from: Addr, one: Addr, two: Addr, t1: nat, t2: nat, env: Env)
    requires cfg.symmetric && FromEither(cfg, from) && PortFor(one, two, t1, t2, env) != 0
    ensures var q, to := p + [Msg(from, PsBindReply(one, two, t1, t2), env)],
                         Addr(one.host, PortFor(one, two, t1, t2, env));
            var n, before := if env.sockets < 50 then env.sockets else 50, SentOver(cfg, p);
            && Fold(cfg, q) == (if Heard(cfg, env) then Fold(cfg, p).(target := to, left := 1)
                                else Fold(cfg, p).(phase := GaveUp))
            && |SentOver(cfg, q)| == |before| + n && before <= SentOver(cfg, q)
            && AskedFromAll(SentOver(cfg, q)[|before|..], to, cfg.id)
            && Draws(cfg, q) == Draws(cfg, p) + n
  {
    Extends(cfg, p, Msg(from, PsBindReply(one, two, t1, t2), env));
    SamePort(one, two, t1, t2, env);
  }

  /** An answered reply makes the client aim at the predicted port, with one attempt left. */
  lemma AnsweredReply(cfg: Config, p: seq<Input>, from: Addr, one: Addr, two: Addr, t1: nat, t2: nat, env: Env)
    requires FromEither(cfg, from) && Heard(cfg, env) && PortFor(one, two, t1, t2, env) != 0
    ensures Fold(cfg, p + [Msg(from, PsBindReply(one, two, t1, t2), env)]) ==
            Fold(cfg, p).(target := Addr(one.host, PortFor(one, two, t1, t2, env)), left := 1)
  {
    if cfg.symmetric {
      SymmetricReply(cfg, p, from, one, two, t1, t2, env);
    } else {
      PlainReply(cfg, p, from, one, two, t1, t2, env);
    }
  }

  /** A peer whose port was the same twice is aimed at there, whatever the times. */
  lemma StablePortAims(cfg: Config, p: seq<Input>, from: Addr, one: Addr, two: Addr, t1: nat, t2: nat, env: Env)
    requires FromEither(cfg, from) && Heard(cfg, env) && one.port == two.port != 0
    ensures Fold(cfg, p + [Msg(from, PsBindReply(one, two, t1, t2), env)]) == Fold(cfg, p).(target := one, left := 1)
  {
    AnsweredReply(cfg, p, from, one, two, t1, t2, env);
  }

  /** A peer whose ports ascend is aimed at where the extrapolation leads, half a scan ahead. */
  lemma AscendingPortsAim(cfg: Config, p: seq<Input>, from: Addr, one: Addr, two: Addr, t1: nat, t2: nat, env: Env)
    requires FromEither(cfg, from) && Heard(cfg, env) && one.port < two.port <= one.port + 249
    requires t1 <= t2 <= env.now && env.now + 100 < 0x1_0000_0000_0000_0000
    requires two.port + Ahead(env.now - t2, t2 - t1, two.port - one.port) < 0x1_0000
    ensures Fold(cfg, p + [Msg(from, PsBindReply(one, two, t1, t2), env)]) ==
            Fold(cfg, p).(
              target := Addr(one.host, two.port + Ahead(env.now - t2, t2 - t1, two.port - one.port)), left := 1)
  {
    AscendingPort(one, two, t1, t2, env);
    AnsweredReply(cfg, p, from, one, two, t1, t2, env);
  }

  lemma AscendingPort(one: Addr, two: Addr, t1: nat, t2: nat, env: Env)
    requires one.port < two.port <= one.port + 249
    requires t1 <= t2 <= env.now && env.now + 100 < 0x1_0000_0000_0000_0000
    requires two.port + Ahead(env.now - t2, t2 - t1, two.port - one.port) < 0x1_0000
    ensures PortFor(one, two, t1, t2, env) == two.port + Ahead(env.now - t2, t2 - t1, two.port - one.port)
  {
    SmallStamps(t1, t2, env.now);
    assert (two.port - one.port) % 0x1_0000 == two.port - one.port;
  }

  /** How far ahead of the second port: the rate of allocation carried on for the time since, and 25 ports. */
  function Ahead(since: nat, between: nat, distance: nat): nat {
    Quotient(0, (since + 100) * distance, between + 1);
    (since + 100) * distance / (between + 1) + 25
  }

  lemma SmallStamps(t1: nat, t2: nat, now: Time)
    requires t1 <= t2 <= now && now + 100 < 0x1_0000_0000_0000_0000
    ensures t1 % 0x1_0000_0000_0000_0000 == t1 && t2 % 0x1_0000_0000_0000_0000 == t2
    ensures (t2 - t1 + 1) % 0x1_0000_0000_0000_0000 == t2 - t1 + 1
    ensures ((now - t2) % 0x1_0000_0000_0000_0000 + 100) % 0x1_0000_0000_0000_0000 == now - t2 + 100
  {
  }

  /** Ports that lie 250 or more apart end the connection, and nothing is sent. */
  lemma DistantReply(cfg: Config, p: seq<Input>, from: Addr, one: Addr, two: Addr, t1: nat, t2: nat, env: Env)
    requires FromEither(cfg, from)
    requires one.port + 250 <= two.port || two.port + 250 <= one.port
    ensures var q := p + [Msg(from, PsBindReply(one, two, t1, t2), env)];
            Fold(cfg, q) == Fold(cfg, p).(phase := GaveUp) && SentOver(cfg, q) == SentOver(cfg, p)
  {
    UnpredictableReply(cfg, p, from, one, two, t1, t2, env);
  }

  /**
   The receipt that settles the connection: on a request with the own id the peer becomes the target
   and is sent a response; on a response from the target nothing is sent and the target stays.
   */
  lemma SettlingReceipt(cfg: Config, p: seq<Input>, from: Addr, id: Id, env: Env)
    requires Running(cfg, p) && Active(Fold(cfg, p))
    ensures var q := p + [Msg(from, ClientBindRequest(cfg.id), env)];
            && Fold(cfg, q) == Fold(cfg, p).(phase := Connected, target := from)
            && SentOver(cfg, q) == SentOver(cfg, p) + [Send(0, from, ClientBindResponse(cfg.id))]
    ensures var q := p + [Msg(TargetAfter(cfg, p), ClientBindResponse(id), env)];
            && Fold(cfg, q) == Fold(cfg, p).(phase := Connected) && Fold(cfg, q).target == TargetAfter(cfg, p)
            && SentOver(cfg, q) == SentOver(cfg, p)
  {
    TargetWhileRunning(cfg, p);
    Extends(cfg, p, Msg(from, ClientBindRequest(cfg.id), env));
    Extends(cfg, p, Msg(TargetAfter(cfg, p), ClientBindResponse(id), env));
  }

  /** Neither a reply of a server nor settling. */
  predicate Idle(cfg: Config, p: seq<Input>, e: Input) {
    !Settles(cfg, p, e) && !(e.Msg? && e.msg.PsBindReply? && FromEither(cfg, e.from))
  }

  /** Replies from strangers, acknowledgements and foreign responses are free; everything else costs one. */
  predicate Free(e: Input) {
    e.Msg? && (e.msg.PsBindReply? || e.msg.Ack? || e.msg.ClientBindResponse?)
  }

  /** Any other receipt sends nothing, draws nothing, and at most costs an attempt. */
  lemma IdleReceipt(cfg: Config, p: seq<Input>, e: Input)
    requires Running(cfg, p) && Active(Fold(cfg, p)) && Idle(cfg, p, e)
    ensures Fold(cfg, p + [e]) == Fold(cfg, p).(left := Fold(cfg, p).left - if Free(e) then 0 else 1)
    ensures SentOver(cfg, p + [e]) == SentOver(cfg, p) && Draws(cfg, p + [e]) == Draws(cfg, p)
  {
    TargetWhileRunning(cfg, p);
    Extends(cfg, p, e);
  }

  function Silence(n: nat): seq<Input> {
    seq(n, _ => Timeout)
  }

  /** Five silences end the loop, and four do not. Until then the target is the server asked last. */
  lemma {:induction false} FiveSilences(cfg: Config, n: nat)
    requires n <= 5
    ensures Running(cfg, Silence(n))
    ensures Fold(cfg, Silence(n)) ==
            Loop(WaitingForStunReply, if cfg.symmetric then cfg.server1 else cfg.server2, 5 - n)
    ensures Active(Fold(cfg, Silence(n))) <==> n < 5
  {
    if n > 0 {
      FiveSilences(cfg, n - 1);
      RunStep(cfg, Silence(n - 1), Timeout);
      assert Silence(n) == Silence(n - 1) + [Timeout];
    }
  }
}
