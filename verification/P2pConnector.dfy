/**
 The plain hole-punching client: its connect loop as a state machine over receipts, a closed form for
 the loop's state in terms of the receipts alone, and the loop itself.
 */
module P2pConnector {
  import opened Wire
  import opened Receipts

  type Input = Receipt<()>

  datatype Phase = WaitingForStunReply | WaitingForClientReply | Connected

  /** The loop's variables: the connector's state, the socket's target and the attempts left. */
  datatype Loop = Loop(phase: Phase, target: Addr, left: int)

  /** The rendezvous server's address and the client's own transaction id. */
  datatype Config = Config(server: Addr, id: Id)

  const ATTEMPTS := 10
  const ATTEMPTS_AFTER_REPLY := 3

  function Begin(cfg: Config): Loop {
    Loop(WaitingForStunReply, cfg.server, ATTEMPTS)
  }

  predicate Active(l: Loop) {
    l.phase != Connected && l.left > 0
  }

  /** One iteration of the loop. A send never reports failure here, so sending always counts as done. */
  function Iterate(cfg: Config, l: Loop, e: Input): Loop {
    match e
    case Timeout => l.(left := l.left - 1)
    case Fault => l.(left := l.left - 1)
    case Msg(from, BindReply(peer), _) =>
      if from != cfg.server then l else Loop(WaitingForClientReply, peer, ATTEMPTS_AFTER_REPLY)
    case Msg(from, ClientBindRequest(id), _) =>
      if id == cfg.id then l.(phase := Connected, target := from) else l.(left := l.left - 1)
    case Msg(from, ClientBindResponse(_), _) =>
      if from != l.target then l else l.(phase := Connected)
    case Msg(_, Ack, _) => l
    case Msg(_, _, _) => l.(left := l.left - 1)
  }

  /** What the iteration sends. */
  function Sends(cfg: Config, l: Loop, e: Input): seq<Send> {
    match e
    case Timeout =>
      if l.phase == WaitingForClientReply then [Send(0, l.target, ClientBindRequest(cfg.id))] else []
    case Msg(from, BindReply(peer), _) =>
      if from != cfg.server then [] else [Send(0, peer, ClientBindRequest(cfg.id))]
    case Msg(from, ClientBindRequest(id), _) =>
      if id == cfg.id then [Send(0, from, ClientBindResponse(cfg.id))] else []
    case _ => []
  }

  function Fold(cfg: Config, p: seq<Input>): Loop {
    if p == [] then Begin(cfg) else Iterate(cfg, Fold(cfg, p[..|p| - 1]), p[|p| - 1])
  }

  function SentOver(cfg: Config, p: seq<Input>): seq<Send> {
    if p == [] then []
    else
      var q := p[..|p| - 1];
      SentOver(cfg, q) + Sends(cfg, Fold(cfg, q), p[|p| - 1])
  }

  // ----- the same in terms of the receipts alone

  predicate IsReply(cfg: Config, e: Input) {
    e.Msg? && e.msg.BindReply? && e.from == cfg.server
  }

  /** The address of the latest reply of the server, or the server's own before the first one. */
  function TargetAfter(cfg: Config, p: seq<Input>): Addr {
    if p == [] then cfg.server
    else if IsReply(cfg, p[|p| - 1]) then p[|p| - 1].msg.peer
    else TargetAfter(cfg, p[..|p| - 1])
  }

  /** A request with the client's own id, or a response from the address last named by the server. */
  predicate Settles(cfg: Config, p: seq<Input>, e: Input) {
    && e.Msg?
    && (|| (e.msg.ClientBindRequest? && e.msg.id == cfg.id)
        || (e.msg.ClientBindResponse? && e.from == TargetAfter(cfg, p)))
  }

  predicate Settled(cfg: Config, p: seq<Input>) {
    exists k :: 0 <= k < |p| && Settles(cfg, p[..k], p[k])
  }

  /** Receipts that cost an attempt: silence, errors, foreign ids and unexpected kinds. */
  predicate Charged(cfg: Config, e: Input) {
    match e
    case Msg(_, BindReply(_), _) => false
    case Msg(_, ClientBindRequest(id), _) => id != cfg.id
    case Msg(_, ClientBindResponse(_), _) => false
    case Msg(_, Ack, _) => false
    case _ => true
  }

  function Charges(cfg: Config, p: seq<Input>): nat {
    if p == [] then 0
    else Charges(cfg, p[..|p| - 1]) + if Charged(cfg, p[|p| - 1]) then 1 else 0
  }

  /** One past the position of the latest reply of the server; 0 if there is none. */
  function PastLastReply(cfg: Config, p: seq<Input>): (k: nat)
    ensures k <= |p|
    ensures k > 0 ==> IsReply(cfg, p[k - 1])
    ensures forall i :: k <= i < |p| ==> !IsReply(cfg, p[i])
  {
    if p == [] then 0
    else if IsReply(cfg, p[|p| - 1]) then |p|
    else PastLastReply(cfg, p[..|p| - 1])
  }

  predicate HasReply(cfg: Config, p: seq<Input>) {
    exists k :: 0 <= k < |p| && IsReply(cfg, p[k])
  }

  /** Ten attempts, or three from the latest reply on, less what was charged since. */
  function Budget(cfg: Config, p: seq<Input>): int {
    var k := PastLastReply(cfg, p);
    (if HasReply(cfg, p) then 3 else 10) - Charges(cfg, p[k..])
  }

  /** Until the loop connects, its variables are given by the receipts in closed form. */
  lemma {:induction false} ClosedForm(cfg: Config, p: seq<Input>)
    requires !Settled(cfg, p)
    ensures Fold(cfg, p) ==
            Loop(if HasReply(cfg, p) then WaitingForClientReply else WaitingForStunReply,
                 TargetAfter(cfg, p), Budget(cfg, p))
  {
    if p == [] {
      assert p[0..] == [];
    } else {
      var q, e := p[..|p| - 1], p[|p| - 1];
      assert q + [e] == p;
      SettledStep(cfg, q, e);
      ClosedForm(cfg, q);
      BudgetStep(cfg, q, e);
      ReplyStep(cfg, q, e);
    }
  }

  lemma SettledStep(cfg: Config, q: seq<Input>, e: Input)
    ensures Settled(cfg, q + [e]) <==> Settled(cfg, q) || Settles(cfg, q, e)
  {
    var p := q + [e];
    assert p[..|q|] == q;
    if Settles(cfg, q, e) {
      assert Settles(cfg, p[..|q|], p[|q|]);
    }
    if Settled(cfg, q) {
      var k :| 0 <= k < |q| && Settles(cfg, q[..k], q[k]);
      assert p[..k] == q[..k];
      assert Settles(cfg, p[..k], p[k]);
    }
    if Settled(cfg, p) {
      var k :| 0 <= k < |p| && Settles(cfg, p[..k], p[k]);
      if k < |q| {
        assert p[..k] == q[..k];
        assert Settles(cfg, q[..k], q[k]);
      }
    }
  }

  lemma ReplyStep(cfg: Config, q: seq<Input>, e: Input)
    ensures HasReply(cfg, q + [e]) <==> HasReply(cfg, q) || IsReply(cfg, e)
  {
    var p := q + [e];
    assert p[|q|] == e;
    assert forall k :: 0 <= k < |q| ==> p[k] == q[k];
  }

  lemma BudgetStep(cfg: Config, q: seq<Input>, e: Input)
    ensures Budget(cfg, q + [e]) ==
            if IsReply(cfg, e) then 3
            else Budget(cfg, q) - if Charged(cfg, e) then 1 else 0
  {
    var p := q + [e];
    assert p[..|q|] == q;
    ReplyStep(cfg, q, e);
    if IsReply(cfg, e) {
      assert p[|p|..] == [];
    } else {
      var k := PastLastReply(cfg, q);
      assert p[k..] == q[k..] + [e];
      assert p[k..][..|p[k..]| - 1] == q[k..];
    }
  }

  /** The replies of the server, plus the silences after the first of them. */
  function Prompts(cfg: Config, p: seq<Input>): nat {
    if p == [] then 0
    else
      var q, e := p[..|p| - 1], p[|p| - 1];
      Prompts(cfg, q) + if IsReply(cfg, e) || (e.Timeout? && HasReply(cfg, q)) then 1 else 0
  }

  /**
   Until it connects, the loop sends nothing but requests with the own id: one for every reply of the
   server and one for every silence after the first reply, the latest to the address named last.
   */
  lemma {:induction false} RequestsSent(cfg: Config, p: seq<Input>)
    requires !Settled(cfg, p)
    ensures var sent := SentOver(cfg, p);
            && |sent| == Prompts(cfg, p)
            && (forall i :: 0 <= i < |sent| ==> sent[i] == Send(0, sent[i].to, ClientBindRequest(cfg.id)))
            && (HasReply(cfg, p) ==> sent != [] && sent[|sent| - 1].to == TargetAfter(cfg, p))
  {
    if p != [] {
      var q, e := p[..|p| - 1], p[|p| - 1];
      assert q + [e] == p;
      SettledStep(cfg, q, e);
      ReplyStep(cfg, q, e);
      RequestsSent(cfg, q);
      ClosedForm(cfg, q);
      UnsettledSends(cfg, q, e, Fold(cfg, q));
    }
  }

  /** What a receipt that does not settle the connection makes the loop send. */
  lemma UnsettledSends(cfg: Config, q: seq<Input>, e: Input, l: Loop)
    requires !Settles(cfg, q, e) && l.target == TargetAfter(cfg, q)
    requires l.phase == if HasReply(cfg, q) then WaitingForClientReply else WaitingForStunReply
    ensures Sends(cfg, l, e) ==
            if IsReply(cfg, e) then [Send(0, e.msg.peer, ClientBindRequest(cfg.id))]
            else if e.Timeout? && HasReply(cfg, q) then [Send(0, l.target, ClientBindRequest(cfg.id))]
            else []
  {
  }

  /**
   The receipt that settles the connection: on a request with the own id the peer becomes the target
   and is sent a response; on a response from the target nothing is sent and the target stays.
   */
  lemma {:induction false} SettlingReceipt(cfg: Config, p: seq<Input>, e: Input)
    requires !Settled(cfg, p) && Settles(cfg, p, e)
    ensures Fold(cfg, p + [e]) ==
            Loop(Connected, if e.msg.ClientBindRequest? then e.from else TargetAfter(cfg, p), Budget(cfg, p))
    ensures SentOver(cfg, p + [e]) == SentOver(cfg, p) +
            if e.msg.ClientBindRequest? then [Send(0, e.from, ClientBindResponse(cfg.id))] else []
  {
    assert (p + [e])[..|p|] == p;
    ClosedForm(cfg, p);
  }

  // ----- termination

  /** While the loop runs, the attempts left plus the iterations made are bounded by the messages. */
  lemma {:induction false} AttemptBound(cfg: Config, p: seq<Input>)
    requires forall k :: 0 <= k < |p| ==> Active(Fold(cfg, p[..k]))
    ensures 0 <= Fold(cfg, p).left
    ensures Fold(cfg, p).left + |p| <= 10 + 3 * Messages(p)
  {
    if p != [] {
      var q := p[..|p| - 1];
      forall k | 0 <= k < |q| ensures Active(Fold(cfg, q[..k])) {
        assert q[..k] == p[..k];
      }
      AttemptBound(cfg, q);
      assert Active(Fold(cfg, p[..|q|]));
    }
  }

  /** A script on which the bound is met: replies spaced so that each finds one attempt left. */
  function WorstScript(cfg: Config, n: nat): (p: seq<Input>)
    ensures |p| == 9 + 3 * n
  {
    if n == 0 then Silence(9)
    else WorstScript(cfg, n - 1) + [Msg(cfg.server, BindReply(UNSET), ()), Timeout, Timeout]
  }

  lemma {:induction false} FoldStep(cfg: Config, p: seq<Input>, e: Input)
    ensures Fold(cfg, p + [e]) == Iterate(cfg, Fold(cfg, p), e)
    ensures Messages(p + [e]) == Messages(p) + if e.Msg? then 1 else 0
  {
    assert (p + [e])[..|p|] == p;
  }

  function Silence(n: nat): seq<Input> {
    seq(n, _ => Timeout)
  }

  lemma {:induction false} FoldSilence(cfg: Config, n: nat)
    ensures Fold(cfg, Silence(n)) == Begin(cfg).(left := 10 - n) && Messages(Silence(n)) == 0
  {
    if n > 0 {
      FoldSilence(cfg, n - 1);
      FoldStep(cfg, Silence(n - 1), Timeout);
      assert Silence(n) == Silence(n - 1) + [Timeout];
    }
  }

  /** The bound on iterations is exact for every number of messages. */
  lemma {:induction false} BoundIsTight(cfg: Config, n: nat)
    ensures var w := WorstScript(cfg, n);
            && Messages(w) == n
            && Fold(cfg, w).phase != Connected && Fold(cfg, w).left == 1
            && !Active(Fold(cfg, w + [Timeout]))
            && |w + [Timeout]| == 10 + 3 * n
    ensures forall k :: 0 <= k <= |WorstScript(cfg, n)| ==> Active(Fold(cfg, WorstScript(cfg, n)[..k]))
  {
    var w := WorstScript(cfg, n);
    if n == 0 {
      forall k | 0 <= k <= |w| ensures Active(Fold(cfg, w[..k])) {
        FoldSilence(cfg, k);
        assert w[..k] == Silence(k);
      }
      FoldSilence(cfg, 9);
    } else {
      BoundIsTight(cfg, n - 1);
      WorstRound(cfg, WorstScript(cfg, n - 1));
    }
    FoldStep(cfg, w, Timeout);
  }

  /** From one attempt left, a reply and two silences lead back to one attempt left. */
  lemma WorstRound(cfg: Config, v: seq<Input>)
    requires Fold(cfg, v).phase != Connected && Fold(cfg, v).left == 1
    requires forall k :: 0 <= k <= |v| ==> Active(Fold(cfg, v[..k]))
    ensures var w := v + [Msg(cfg.server, BindReply(UNSET), ()), Timeout, Timeout];
            && Fold(cfg, w).phase != Connected && Fold(cfg, w).left == 1
            && Messages(w) == Messages(v) + 1
            && forall k :: 0 <= k <= |w| ==> Active(Fold(cfg, w[..k]))
  {
    var a := v + [Msg(cfg.server, BindReply(UNSET), ())];
    var b := a + [Timeout];
    var w := v + [Msg(cfg.server, BindReply(UNSET), ()), Timeout, Timeout];
    assert w == b + [Timeout];
    FoldStep(cfg, v, Msg(cfg.server, BindReply(UNSET), ()));
    FoldStep(cfg, a, Timeout);
    FoldStep(cfg, b, Timeout);
    forall k | 0 <= k <= |w| ensures Active(Fold(cfg, w[..k])) {
      if k <= |v| {
        assert w[..k] == v[..k];
      } else {
        assert w[..k] == if k == |a| then a else if k == |b| then b else w;
      }
    }
  }

  // ----- the connector

  lemma Regroup(a: seq<Send>, b: seq<Send>, c: seq<Send>)
    ensures a + b + c == a + (b + c)
  {
  }

  class Connector {
    const server: Addr
    const id: Id
    /** None until the server has answered the first request in any way. */
    var state: Option<Phase>
    var target: Addr
    ghost var outbox: seq<Send>

    constructor (server: Addr, id: Id)
      ensures this.server == server && this.id == id && state == None && outbox == []
    {
      this.server, this.id := server, id;
      state, target, outbox := None, UNSET, [];
    }

    function Cfg(): Config { Config(server, id) }

    /** Ask the current target to connect. The outcome of the send is never seen as a failure. */
    method TryConnectToClient()
      modifies this`outbox
      ensures outbox == old(outbox) + [Send(0, target, ClientBindRequest(id))]
    {
      outbox := outbox + [Send(0, target, ClientBindRequest(id))];
    }

    /** Answer a peer's request if it carries the own id, and make that peer the target. */
    method ReplyToBindRequest(theirs: Id, peer: Addr) returns (ok: bool)
      modifies this`outbox, this`target
      ensures ok <==> theirs == id
      ensures target == if ok then peer else old(target)
      ensures outbox == old(outbox) + if ok then [Send(0, peer, ClientBindResponse(id))] else []
    {
      if theirs != id {
        return false;
      }
      target := peer;
      outbox := outbox + [Send(0, target, ClientBindResponse(id))];
      return true;
    }

    /** One iteration of the loop of `connect`, on the receipt `e`. */
    method Turn(e: Input, left: int) returns (left': int)
      requires state.Some?
      modifies this
      ensures state.Some?
      ensures Loop(state.value, target, left') == Iterate(Cfg(), Loop(old(state.value), old(target), left), e)
      ensures outbox == old(outbox) + Sends(Cfg(), Loop(old(state.value), old(target), left), e)
    {
      left' := left;
      match e {
        case Timeout =>
          if state.value == WaitingForClientReply {
            TryConnectToClient();
          }
          left' := left - 1;
        case Fault =>
          left' := left - 1;
        case Msg(from, BindReply(peer), _) =>
          if from == server {
            target := peer;
            TryConnectToClient();
            state := Some(WaitingForClientReply);
            left' := ATTEMPTS_AFTER_REPLY;
          }
        case Msg(from, ClientBindRequest(theirs), _) =>
          var ok := ReplyToBindRequest(theirs, from);
          if ok {
            state := Some(Connected);
          } else {
            left' := left - 1;
          }
        case Msg(from, ClientBindResponse(_), _) =>
          if from == target {
            state := Some(Connected);
          }
        case Msg(_, Ack, _) =>
        case Msg(_, _, _) =>
          left' := left - 1;
      }
    }

    /**
     `connect`: send the request, wait for anything at all, then loop. `script` holds the receipts of
     the loop's waits; after it there is silence. Nothing is assumed about any of them.
     */
    method Connect(sendOk: bool, first: Input, script: seq<Input>)
      returns (result: ConnectResult, iterations: nat)
      modifies this
      ensures (result == Error <==> !sendOk || !first.Msg?) && result != Invalid
      ensures result == Error ==> iterations == 0
      ensures result == Successful <==> result != Error && Settled(Cfg(), Stream(script, iterations))
      ensures result == FailedNoServerMatchInTime ==> !HasReply(Cfg(), Stream(script, iterations))
      ensures result == Failed ==> HasReply(Cfg(), Stream(script, iterations))
      ensures result != Error ==> EndsAt(Cfg(), script, iterations)
      ensures result != Error ==> iterations <= 10 + 3 * Messages(script)
      ensures result == Error ==> outbox == old(outbox) + if sendOk then [Send(0, server, BindRequest(id))] else []
      ensures result != Error ==>
                && target == Fold(Cfg(), Stream(script, iterations)).target
                && outbox == old(outbox) + [Send(0, server, BindRequest(id))]
                             + SentOver(Cfg(), Stream(script, iterations))
      ensures result == Successful ==>
                var p, e := Stream(script, iterations - 1), At(script, iterations - 1);
                && iterations > 0 && !Settled(Cfg(), p) && Settles(Cfg(), p, e)
                && target == (if e.msg.ClientBindRequest? then e.from else TargetAfter(Cfg(), p))
                && outbox == old(outbox) + [Send(0, server, BindRequest(id))] + SentOver(Cfg(), p) +
                             if e.msg.ClientBindRequest? then [Send(0, e.from, ClientBindResponse(id))] else []
    {
      target, iterations := server, 0;
      if !sendOk {
        return Error, 0;
      }
      outbox := outbox + [Send(0, server, BindRequest(id))];
      if !first.Msg? {
        return Error, 0;
      }
      state := Some(WaitingForStunReply);
      iterations := AwaitPeer(script);
      StopsWhere(Cfg(), script, iterations);
      if Settled(Cfg(), Stream(script, iterations)) {
        LastReceipt(Cfg(), script, iterations);
        LastSettles(Cfg(), script, iterations, Stream(script, iterations - 1), At(script, iterations - 1));
        ghost var e := At(script, iterations - 1);
        Regroup(old(outbox) + [Send(0, server, BindRequest(id))], SentOver(Cfg(), Stream(script, iterations - 1)),
                if e.msg.ClientBindRequest? then [Send(0, e.from, ClientBindResponse(id))] else []);
      }
      match state.value {
        case Connected => result := Successful;
        case WaitingForStunReply => result := FailedNoServerMatchInTime;
        case WaitingForClientReply => result := Failed;
      }
    }

    /** The loop of `connect`. */
    method AwaitPeer(script: seq<Input>) returns (iterations: nat)
      requires state == Some(WaitingForStunReply) && target == server
      modifies this
      ensures state.Some?
      ensures var l := Fold(Cfg(), Stream(script, iterations));
              !Active(l) && state.value == l.phase && target == l.target
      ensures ActiveUntil(Cfg(), script, iterations)
      ensures iterations <= 10 + 3 * Messages(script)
      ensures outbox == old(outbox) + SentOver(Cfg(), Stream(script, iterations))
    {
      var left := ATTEMPTS;
      iterations := 0;
      while state.value != Connected && left > 0
        invariant state.Some?
        invariant Loop(state.value, target, left) == Fold(Cfg(), Stream(script, iterations))
        invariant ActiveUntil(Cfg(), script, iterations)
        invariant outbox == old(outbox) + SentOver(Cfg(), Stream(script, iterations))
        decreases 10 + 3 * Messages(script) - iterations
      {
        BoundAlong(Cfg(), script, iterations);
        NextFold(Cfg(), script, iterations);
        var e := At(script, iterations);
        ghost var l := Fold(Cfg(), Stream(script, iterations));
        left := Turn(e, left);
        Regroup(old(outbox), SentOver(Cfg(), Stream(script, iterations)), Sends(Cfg(), l, e));
        iterations := iterations + 1;
      }
      BoundAlong(Cfg(), script, iterations);
    }
  }

  ghost predicate ActiveUntil(cfg: Config, script: seq<Input>, n: nat) {
    forall k: nat :: k < n ==> Active(Fold(cfg, Stream(script, k)))
  }

  /** `n` is the first point at which the receipts settle the connection or use up its attempts. */
  ghost predicate EndsAt(cfg: Config, script: seq<Input>, n: nat) {
    && Over(cfg, Stream(script, n))
    && forall k: nat :: k < n ==> !Over(cfg, Stream(script, k))
  }

  predicate Over(cfg: Config, p: seq<Input>) {
    Settled(cfg, p) || Budget(cfg, p) <= 0
  }

  lemma NextFold(cfg: Config, script: seq<Input>, n: nat)
    ensures var p, e := Stream(script, n), At(script, n);
            && Fold(cfg, Stream(script, n + 1)) == Iterate(cfg, Fold(cfg, p), e)
            && SentOver(cfg, Stream(script, n + 1)) == SentOver(cfg, p) + Sends(cfg, Fold(cfg, p), e)
  {
    StreamExtends(script, n);
  }

  lemma BoundAlong(cfg: Config, script: seq<Input>, n: nat)
    requires ActiveUntil(cfg, script, n)
    ensures 0 <= Fold(cfg, Stream(script, n)).left
    ensures Fold(cfg, Stream(script, n)).left + n <= 10 + 3 * Messages(script)
  {
    var p := Stream(script, n);
    PrefixesActive(cfg, script, n);
    AttemptBound(cfg, p);
    MessagesOfStream(script, n);
  }

  lemma PrefixesActive(cfg: Config, script: seq<Input>, n: nat)
    requires ActiveUntil(cfg, script, n)
    ensures forall k :: 0 <= k < n ==> Active(Fold(cfg, Stream(script, n)[..k]))
  {
    var p := Stream(script, n);
    forall k | 0 <= k < n ensures Active(Fold(cfg, p[..k])) {
      assert p[..k] == Stream(script, k);
    }
  }

  /** The loop has connected exactly if some receipt settled it. */
  lemma {:induction false} ConnectedMeansSettled(cfg: Config, p: seq<Input>)
    requires forall k :: 0 <= k < |p| ==> Active(Fold(cfg, p[..k]))
    ensures Fold(cfg, p).phase == Connected <==> Settled(cfg, p)
    ensures p != [] ==> !Settled(cfg, p[..|p| - 1])
  {
    if p != [] {
      var q, e := p[..|p| - 1], p[|p| - 1];
      forall k | 0 <= k < |q| ensures Active(Fold(cfg, q[..k])) {
        assert q[..k] == p[..k];
      }
      ConnectedMeansSettled(cfg, q);
      assert Active(Fold(cfg, p[..|q|]));
      assert q + [e] == p;
      SettledStep(cfg, q, e);
      IterateConnects(cfg, q, e);
    }
  }

  lemma IterateConnects(cfg: Config, q: seq<Input>, e: Input)
    requires !Settled(cfg, q)
    ensures Iterate(cfg, Fold(cfg, q), e).phase == Connected <==> Settles(cfg, q, e)
  {
    ClosedForm(cfg, q);
  }

  /** A loop that has ended on a settled connection ended at the receipt that settled it. */
  lemma LastReceipt(cfg: Config, script: seq<Input>, n: nat)
    requires ActiveUntil(cfg, script, n) && Settled(cfg, Stream(script, n))
    ensures n > 0 && !Settled(cfg, Stream(script, n - 1)) && Settles(cfg, Stream(script, n - 1), At(script, n - 1))
  {
    PrefixesActive(cfg, script, n);
    NotSettledAtFirst(cfg, Stream(script, n));
    StreamExtends(script, n - 1);
    SettledLast(cfg, Stream(script, n), Stream(script, n - 1), At(script, n - 1));
  }

  lemma NotSettledAtFirst(cfg: Config, p: seq<Input>)
    requires Settled(cfg, p)
    ensures p != []
  {
  }

  lemma SettledLast(cfg: Config, p: seq<Input>, q: seq<Input>, e: Input)
    requires p == q + [e] && Settled(cfg, p)
    requires forall k :: 0 <= k < |p| ==> Active(Fold(cfg, p[..k]))
    ensures !Settled(cfg, q) && Settles(cfg, q, e)
  {
    ConnectedMeansSettled(cfg, p);
    assert p[..|p| - 1] == q;
    SettledStep(cfg, q, e);
  }

  lemma LastSettles(cfg: Config, script: seq<Input>, n: nat, p: seq<Input>, e: Input)
    requires n > 0 && p == Stream(script, n - 1) && e == At(script, n - 1)
    requires !Settled(cfg, p) && Settles(cfg, p, e)
    ensures Fold(cfg, Stream(script, n)).target == if e.msg.ClientBindRequest? then e.from else TargetAfter(cfg, p)
    ensures SentOver(cfg, Stream(script, n)) == SentOver(cfg, p) +
            if e.msg.ClientBindRequest? then [Send(0, e.from, ClientBindResponse(cfg.id))] else []
  {
    StreamExtends(script, n - 1);
    SettlingReceipt(cfg, p, e);
  }

  lemma OverMeansInactive(cfg: Config, script: seq<Input>, n: nat)
    requires ActiveUntil(cfg, script, n)
    ensures Over(cfg, Stream(script, n)) <==> !Active(Fold(cfg, Stream(script, n)))
  {
    var p := Stream(script, n);
    PrefixesActive(cfg, script, n);
    ConnectedMeansSettled(cfg, p);
    if !Settled(cfg, p) {
      ClosedForm(cfg, p);
    }
  }

  lemma StopsWhere(cfg: Config, script: seq<Input>, n: nat)
    requires ActiveUntil(cfg, script, n) && !Active(Fold(cfg, Stream(script, n)))
    ensures EndsAt(cfg, script, n)
    ensures var p := Stream(script, n);
            && (Fold(cfg, p).phase == Connected <==> Settled(cfg, p))
            && (Fold(cfg, p).phase == WaitingForStunReply <==> !Settled(cfg, p) && !HasReply(cfg, p))
  {
    forall m: nat | m <= n
      ensures Over(cfg, Stream(script, m)) <==> !Active(Fold(cfg, Stream(script, m)))
    {
      OverMeansInactive(cfg, script, m);
    }
    var p := Stream(script, n);
    PrefixesActive(cfg, script, n);
    ConnectedMeansSettled(cfg, p);
    if !Settled(cfg, p) {
      ClosedForm(cfg, p);
    }
  }
}
