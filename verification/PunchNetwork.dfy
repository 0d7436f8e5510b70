/**
 Clients, server and network as one state machine. Any number of clients, each with its own endpoint
 and transaction id, run the connect loop; the network loses, reorders and may duplicate datagrams;
 the server pairs requests, and may also misbehave by sending arbitrary replies. Source addresses
 are truthful.
 */
module PunchNetwork {
  import opened Wire
  import opened P2pConnector
  import opened Receipts
  import Plain = PlainRendezvous

  datatype Datagram = Datagram(src: Addr, dst: Addr, msg: Message)

  /**
   A client: not started, waiting for the first answer, in its loop, or given up before the loop.
   `viaResponse` records whether the loop's latest receipt was a `client_bind_response`.
   */
  datatype Client =
    | Idle
    | AwaitingAnswer
    | Running(loop: Loop, viaResponse: bool)
    | Aborted

  /** The server's address and each client's id, by client endpoint. */
  datatype Setup = Setup(server: Addr, ids: map<Addr, Id>)

  datatype World = World(clients: map<Addr, Client>, waiting: map<Id, Addr>, net: multiset<Datagram>)

  datatype Step =
    | Start(c: Addr)
    | GiveUp(c: Addr)
    | Quiet(c: Addr, fault: bool)
    | Deliver(d: Datagram)
    | Lose(d: Datagram)
    | Duplicate(d: Datagram)
    | Rogue(to: Addr, msg: Message)

  function Cfg(u: Setup, c: Addr): Config
    requires c in u.ids
  {
    Config(u.server, u.ids[c])
  }

  function Init(u: Setup): World {
    World(map c | c in u.ids :: Idle, map[], multiset{})
  }

  function Datagrams(src: Addr, sends: seq<Send>): multiset<Datagram> {
    multiset(seq(|sends|, i requires 0 <= i < |sends| => Datagram(src, sends[i].to, sends[i].msg)))
  }

  /** One iteration of the loop of client `c`. */
  function Turn(u: Setup, w: World, c: Addr, e: Input): World
    requires c in u.ids && c in w.clients && w.clients[c].Running?
  {
    var l := w.clients[c].loop;
    var via := e.Msg? && e.msg.ClientBindResponse?;
    w.(clients := w.clients[c := Running(Iterate(Cfg(u, c), l, e), via)],
       net := w.net + Datagrams(c, Sends(Cfg(u, c), l, e)))
  }

  /** The arrival of a datagram at its destination. */
  function Arrive(u: Setup, key: Id -> Id, w: World, d: Datagram): World {
    if d.dst == u.server then
      if d.msg.BindRequest? then
        var r := Plain.Request(d.msg.id, d.src);
        w.(waiting := Plain.NextWaiting(key, w.waiting, r),
           net := w.net + Datagrams(u.server, Plain.Sends(key, w.waiting, r)))
      else w
    else if d.dst in u.ids && d.dst in w.clients then
      match w.clients[d.dst]
      case AwaitingAnswer =>
        w.(clients := w.clients[d.dst := Running(Begin(Cfg(u, d.dst)), false)])
      case Running(l, _) =>
        if Active(l) then Turn(u, w, d.dst, Msg(d.src, d.msg, ())) else w
      case _ => w
    else w
  }

  /** A step that is not possible in `w` leaves it unchanged. */
  function Apply(u: Setup, key: Id -> Id, w: World, s: Step): World {
    match s
    case Start(c) =>
      if c in u.ids && c in w.clients && w.clients[c] == Idle then
        w.(clients := w.clients[c := AwaitingAnswer],
           net := w.net + multiset{Datagram(c, u.server, BindRequest(u.ids[c]))})
      else w
    case GiveUp(c) =>
      if c in w.clients && w.clients[c] == AwaitingAnswer then
        w.(clients := w.clients[c := Aborted])
      else w
    case Quiet(c, fault) =>
      if c in u.ids && c in w.clients && w.clients[c].Running? && Active(w.clients[c].loop) then
        Turn(u, w, c, if fault then Fault else Timeout)
      else w
    case Deliver(d) =>
      if d in w.net then Arrive(u, key, w.(net := w.net - multiset{d}), d) else w
    case Lose(d) => w.(net := w.net - multiset{d})
    case Duplicate(d) => if d in w.net then w.(net := w.net + multiset{d}) else w
    case Rogue(to, msg) =>
      if msg.ClientBindRequest? || msg.ClientBindResponse? then w
      else w.(net := w.net + multiset{Datagram(u.server, to, msg)})
  }

  function Run(u: Setup, key: Id -> Id, steps: seq<Step>): World {
    if steps == [] then Init(u)
    else Apply(u, key, Run(u, key, steps[..|steps| - 1]), steps[|steps| - 1])
  }

  predicate ConnectedTo(w: World, c: Addr, e: Addr) {
    c in w.clients && w.clients[c].Running? && w.clients[c].loop.phase == Connected
    && w.clients[c].loop.target == e
  }

  // ----- agreement

  /** What a client's request or response in flight says about the two parties' ids and states. */
  predicate Truthful(u: Setup, w: World, d: Datagram) {
    && (d.msg.ClientBindRequest? ==> d.src in u.ids && d.msg.id == u.ids[d.src])
    && (d.msg.ClientBindResponse? ==>
          && d.src in u.ids && d.dst in u.ids && u.ids[d.src] == u.ids[d.dst]
          && ConnectedTo(w, d.src, d.dst))
  }

  predicate Agreeing(u: Setup, w: World, c: Addr) {
    c in w.clients && w.clients[c].Running? && w.clients[c].loop.phase == Connected ==>
      var e := w.clients[c].loop.target;
      && c in u.ids && e in u.ids && u.ids[e] == u.ids[c]
      && (w.clients[c].viaResponse ==> ConnectedTo(w, e, c))
  }

  ghost predicate Inv(u: Setup, w: World) {
    && w.clients.Keys == u.ids.Keys
    && (forall d :: d in w.net ==> Truthful(u, w, d))
    && (forall c :: c in w.clients ==> Agreeing(u, w, c))
  }

  lemma DatagramsAre(src: Addr, sends: seq<Send>, d: Datagram)
    requires d in Datagrams(src, sends)
    ensures exists i :: 0 <= i < |sends| && d == Datagram(src, sends[i].to, sends[i].msg)
  {
    var q := seq(|sends|, i requires 0 <= i < |sends| => Datagram(src, sends[i].to, sends[i].msg));
    assert d in q;
    var i :| 0 <= i < |q| && q[i] == d;
    assert d == Datagram(src, sends[i].to, sends[i].msg);
  }

  /** What a client's iteration sends is truthful afterwards. */
  lemma TurnSendsTruth(u: Setup, w: World, c: Addr, e: Input, d: Datagram)
    requires c in u.ids && c in w.clients && w.clients[c].Running?
    requires e.Msg? ==> Truthful(u, w, Datagram(e.from, c, e.msg))
    requires d in Datagrams(c, Sends(Cfg(u, c), w.clients[c].loop, e))
    ensures Truthful(u, Turn(u, w, c, e), d)
  {
    DatagramsAre(c, Sends(Cfg(u, c), w.clients[c].loop, e), d);
  }

  /** A client's iteration keeps the invariant, provided what it received was truthful. */
  lemma TurnKeepsInv(u: Setup, w: World, c: Addr, e: Input)
    requires Inv(u, w)
    requires c in w.clients && w.clients[c].Running? && Active(w.clients[c].loop)
    requires e.Msg? ==> Truthful(u, w, Datagram(e.from, c, e.msg))
    ensures Inv(u, Turn(u, w, c, e))
  {
    var w' := Turn(u, w, c, e);
    assert forall x, y :: ConnectedTo(w, x, y) ==> ConnectedTo(w', x, y);
    forall d | d in w'.net ensures Truthful(u, w', d) {
      if d in w.net {
        assert Truthful(u, w, d);
      } else {
        TurnSendsTruth(u, w, c, e, d);
      }
    }
    forall x | x in w'.clients ensures Agreeing(u, w', x) {
      assert Agreeing(u, w, x);
    }
  }

  lemma ServerSendsNoClientMessage(key: Id -> Id, waiting: map<Id, Addr>, r: Plain.Request, src: Addr, d: Datagram)
    requires d in Datagrams(src, Plain.Sends(key, waiting, r))
    ensures d.msg.Ack? || d.msg.BindReply?
  {
    DatagramsAre(src, Plain.Sends(key, waiting, r), d);
  }

  lemma ArriveKeepsInv(u: Setup, key: Id -> Id, w: World, d: Datagram)
    requires Inv(u, w) && Truthful(u, w, d)
    ensures Inv(u, Arrive(u, key, w, d))
  {
    var w' := Arrive(u, key, w, d);
    if d.dst == u.server {
      if d.msg.BindRequest? {
        var r := Plain.Request(d.msg.id, d.src);
        forall g | g in w'.net ensures Truthful(u, w', g) {
          if g in w.net {
            assert Truthful(u, w, g);
          } else {
            ServerSendsNoClientMessage(key, w.waiting, r, u.server, g);
          }
        }
        forall x | x in w'.clients ensures Agreeing(u, w', x) {
          assert Agreeing(u, w, x);
        }
      }
    } else if d.dst in w.clients {
      var c := w.clients[d.dst];
      if c.Running? && Active(c.loop) {
        TurnKeepsInv(u, w, d.dst, Msg(d.src, d.msg, ()));
      } else {
        UnconnectedChange(u, w, w');
      }
    }
  }

  /** Changing only clients that are not connected, to ones that are not, keeps the invariant. */
  lemma UnconnectedChange(u: Setup, w: World, w': World)
    requires Inv(u, w)
    requires w'.clients.Keys == w.clients.Keys
    requires forall x, y :: ConnectedTo(w, x, y) <==> ConnectedTo(w', x, y)
    requires forall x :: x in w.clients && w.clients[x].Running? && w.clients[x].loop.phase == Connected ==>
               w'.clients[x] == w.clients[x]
    requires forall d :: d in w'.net ==> d in w.net || !(d.msg.ClientBindRequest? || d.msg.ClientBindResponse?)
    ensures Inv(u, w')
  {
    forall d | d in w'.net ensures Truthful(u, w', d) {
      assert d in w.net ==> Truthful(u, w, d);
    }
    forall x | x in w'.clients ensures Agreeing(u, w', x) {
      assert Agreeing(u, w, x);
      if w'.clients[x].Running? && w'.clients[x].loop.phase == Connected {
        assert ConnectedTo(w', x, w'.clients[x].loop.target);
        assert ConnectedTo(w, x, w'.clients[x].loop.target);
      }
    }
  }

  lemma DeliverKeepsInv(u: Setup, key: Id -> Id, w: World, d: Datagram)
    requires Inv(u, w) && d in w.net
    ensures Inv(u, Apply(u, key, w, Deliver(d)))
  {
    var v := w.(net := w.net - multiset{d});
    UnconnectedChange(u, w, v);
    assert Truthful(u, w, d);
    ArriveKeepsInv(u, key, v, d);
  }

  /** A client that has not begun its loop, and does not do so now. */
  lemma MarkKeepsInv(u: Setup, w: World, c: Addr, to: Client, net: multiset<Datagram>)
    requires Inv(u, w)
    requires c in w.clients && !w.clients[c].Running? && !to.Running?
    requires forall d :: d in net ==> d in w.net || d.msg.BindRequest?
    ensures Inv(u, w.(clients := w.clients[c := to], net := net))
  {
    UnconnectedChange(u, w, w.(clients := w.clients[c := to], net := net));
  }

  /** The network and a misbehaving server connect nobody. */
  lemma NetChange(u: Setup, w: World, net: multiset<Datagram>)
    requires Inv(u, w)
    requires forall d :: d in net ==> d in w.net || !(d.msg.ClientBindRequest? || d.msg.ClientBindResponse?)
    ensures Inv(u, w.(net := net))
  {
    UnconnectedChange(u, w, w.(net := net));
  }

  lemma ApplyKeepsInv(u: Setup, key: Id -> Id, w: World, s: Step)
    requires Inv(u, w)
    ensures Inv(u, Apply(u, key, w, s))
  {
    match s
    case Start(c) =>
      if c in w.clients && w.clients[c] == Idle {
        MarkKeepsInv(u, w, c, AwaitingAnswer, w.net + multiset{Datagram(c, u.server, BindRequest(u.ids[c]))});
      }
    case GiveUp(c) =>
      if c in w.clients && w.clients[c] == AwaitingAnswer {
        MarkKeepsInv(u, w, c, Aborted, w.net);
        assert Apply(u, key, w, s) == w.(clients := w.clients[c := Aborted], net := w.net);
      }
    case Quiet(c, fault) =>
      if c in w.clients && w.clients[c].Running? && Active(w.clients[c].loop) {
        TurnKeepsInv(u, w, c, if fault then Fault else Timeout);
      }
    case Deliver(d) =>
      if d in w.net {
        DeliverKeepsInv(u, key, w, d);
      }
    case Lose(d) =>
      NetChange(u, w, w.net - multiset{d});
    case Duplicate(d) =>
      if d in w.net {
        NetChange(u, w, w.net + multiset{d});
      }
    case Rogue(to, msg) =>
      if !(msg.ClientBindRequest? || msg.ClientBindResponse?) {
        NetChange(u, w, w.net + multiset{Datagram(u.server, to, msg)});
      }
  }

  lemma {:induction false} RunKeepsInv(u: Setup, key: Id -> Id, steps: seq<Step>)
    ensures Inv(u, Run(u, key, steps))
  {
    if steps != [] {
      RunKeepsInv(u, key, steps[..|steps| - 1]);
      ApplyKeepsInv(u, key, Run(u, key, steps[..|steps| - 1]), steps[|steps| - 1]);
    }
  }

  /**
   In every run, whatever is lost, reordered or duplicated and whatever the server replies, a
   connected client's target is the endpoint of a client with the same transaction id.
   */
  lemma {:induction false} Agreement(u: Setup, key: Id -> Id, steps: seq<Step>, c: Addr, e: Addr)
    requires ConnectedTo(Run(u, key, steps), c, e)
    ensures c in u.ids && e in u.ids && u.ids[e] == u.ids[c]
  {
    RunKeepsInv(u, key, steps);
    assert Agreeing(u, Run(u, key, steps), c);
  }

  /** A client that connected on a response has a peer that is connected, and to this client. */
  lemma {:induction false} ResponseMeansMutual(u: Setup, key: Id -> Id, steps: seq<Step>, c: Addr, e: Addr)
    requires var w := Run(u, key, steps); ConnectedTo(w, c, e) && w.clients[c].viaResponse
    ensures ConnectedTo(Run(u, key, steps), e, c)
  {
    RunKeepsInv(u, key, steps);
    assert Agreeing(u, Run(u, key, steps), c);
  }

  lemma TurnKeepsConnection(u: Setup, w: World, x: Addr, r: Input, c: Addr, e: Addr)
    requires ConnectedTo(w, c, e)
    requires x in u.ids && x in w.clients && w.clients[x].Running? && Active(w.clients[x].loop)
    ensures ConnectedTo(Turn(u, w, x, r), c, e)
  {
    assert x != c;
  }

  lemma ArriveKeepsConnection(u: Setup, key: Id -> Id, w: World, d: Datagram, c: Addr, e: Addr)
    requires ConnectedTo(w, c, e)
    ensures ConnectedTo(Arrive(u, key, w, d), c, e)
  {
    if d.dst != u.server && d.dst in u.ids && d.dst in w.clients {
      var x := w.clients[d.dst];
      if x.Running? && Active(x.loop) {
        TurnKeepsConnection(u, w, d.dst, Msg(d.src, d.msg, ()), c, e);
      }
    }
  }

  lemma ApplyKeepsConnection(u: Setup, key: Id -> Id, w: World, s: Step, c: Addr, e: Addr)
    requires ConnectedTo(w, c, e)
    ensures ConnectedTo(Apply(u, key, w, s), c, e)
  {
    match s
    case Deliver(d) =>
      if d in w.net {
        ArriveKeepsConnection(u, key, w.(net := w.net - multiset{d}), d, c, e);
      }
    case Quiet(x, fault) =>
      if x in u.ids && x in w.clients && w.clients[x].Running? && Active(w.clients[x].loop) {
        TurnKeepsConnection(u, w, x, if fault then Fault else Timeout, c, e);
      }
    case _ =>
  }

  /** Once connected, a client stays connected to the same target. */
  lemma {:induction false} ConnectionIsFinal(u: Setup, key: Id -> Id,
    steps: seq<Step>, more: seq<Step>, c: Addr, e: Addr)
    requires ConnectedTo(Run(u, key, steps), c, e)
    ensures ConnectedTo(Run(u, key, steps + more), c, e)
  {
    if more == [] {
      assert steps + more == steps;
    } else {
      var k := |more| - 1;
      ConnectionIsFinal(u, key, steps, more[..k], c, e);
      var all := steps + more;
      assert all[..|all| - 1] == steps + more[..k];
      ApplyKeepsConnection(u, key, Run(u, key, steps + more[..k]), more[k], c, e);
    }
  }

  // ----- mutual pairing

  /**
   All steps except two: the duplication of a client's bind request, and a misbehaving server's reply
   that names a client to itself.
   */
  predicate Plainly(u: Setup, s: Step) {
    && (s.Duplicate? && s.d.msg.BindRequest? ==> s.d.src !in u.ids)
    && (s.Rogue? && s.msg.BindReply? && s.to in u.ids ==> s.msg.peer != s.to)
  }

  function Asking(u: Setup, c: Addr): Datagram
    requires c in u.ids
  {
    Datagram(c, u.server, BindRequest(u.ids[c]))
  }

  ghost predicate Absent(w: World, c: Addr) {
    forall k :: k in w.waiting ==> w.waiting[k] != c
  }

  /** Nothing in flight would make a client turn to itself. */
  predicate NotToSelf(u: Setup, d: Datagram) {
    && (d.msg.BindRequest? && d.src in u.ids ==> d == Asking(u, d.src))
    && (d.msg.BindReply? && d.dst in u.ids ==> d.msg.peer != d.dst)
    && (d.msg.ClientBindRequest? ==> d.src != d.dst)
  }

  /** Each client's single bind request is unsent, in flight, or used up by the server. */
  ghost predicate AsksOnce(u: Setup, w: World, c: Addr)
    requires c in u.ids
  {
    && c in w.clients
    && w.net[Asking(u, c)] <= 1
    && (Asking(u, c) in w.net ==> w.clients[c] != Idle && Absent(w, c))
    && (w.clients[c] == Idle ==> Absent(w, c))
    && (w.clients[c].Running? ==> w.clients[c].loop.target != c)
  }

  ghost predicate SelfFree(u: Setup, w: World) {
    && u.server !in u.ids
    && w.clients.Keys == u.ids.Keys
    && (forall d :: d in w.net ==> NotToSelf(u, d))
    && (forall c :: c in u.ids ==> AsksOnce(u, w, c))
  }

  /** An iteration sends no bind request, sends nothing to the client itself, and keeps it aimed away. */
  lemma TurnAimsAway(u: Setup, w: World, c: Addr, e: Input)
    requires c in u.ids && c in w.clients && w.clients[c].Running? && w.clients[c].loop.target != c
    requires e.Msg? ==> NotToSelf(u, Datagram(e.from, c, e.msg))
    ensures Iterate(Cfg(u, c), w.clients[c].loop, e).target != c
    ensures forall d :: d in Datagrams(c, Sends(Cfg(u, c), w.clients[c].loop, e)) ==>
              NotToSelf(u, d) && !d.msg.BindRequest?
  {
    var sends := Sends(Cfg(u, c), w.clients[c].loop, e);
    forall d | d in Datagrams(c, sends)
      ensures NotToSelf(u, d) && !d.msg.BindRequest?
    {
      DatagramsAre(c, sends, d);
    }
  }

  lemma TurnKeepsSelfFree(u: Setup, w: World, c: Addr, e: Input)
    requires SelfFree(u, w)
    requires c in w.clients && w.clients[c].Running?
    requires e.Msg? ==> NotToSelf(u, Datagram(e.from, c, e.msg))
    ensures SelfFree(u, Turn(u, w, c, e))
  {
    var w' := Turn(u, w, c, e);
    var out := Datagrams(c, Sends(Cfg(u, c), w.clients[c].loop, e));
    assert AsksOnce(u, w, c);
    TurnAimsAway(u, w, c, e);
    assert w'.net == w.net + out;
    forall x | x in u.ids ensures AsksOnce(u, w', x) {
      assert AsksOnce(u, w, x);
      assert Asking(u, x) !in out;
    }
  }

  /** The server's answer to a request, a client's only one, never names a client to itself. */
  lemma ServerKeepsSelfFree(u: Setup, key: Id -> Id, w: World, d: Datagram)
    requires SelfFree(u, w) && d.dst == u.server && d.msg.BindRequest?
    requires d.src in u.ids ==> w.clients[d.src] != Idle && Asking(u, d.src) !in w.net && Absent(w, d.src)
    ensures SelfFree(u, Arrive(u, key, w, d))
  {
    var w' := Arrive(u, key, w, d);
    var sends := Plain.Sends(key, w.waiting, Plain.Request(d.msg.id, d.src));
    forall g | g in Datagrams(u.server, sends)
      ensures NotToSelf(u, g) && !g.msg.BindRequest?
    {
      DatagramsAre(u.server, sends, g);
    }
    forall x | x in u.ids ensures AsksOnce(u, w', x) {
      assert AsksOnce(u, w, x);
      assert Asking(u, x) !in Datagrams(u.server, sends);
      if x != d.src && Absent(w, x) {
        assert Absent(w', x);
      }
    }
  }

  lemma ServerArrivalKeepsSelfFree(u: Setup, key: Id -> Id, w: World, d: Datagram)
    requires SelfFree(u, w) && d in w.net && d.dst == u.server
    ensures SelfFree(u, Arrive(u, key, w.(net := w.net - multiset{d}), d))
  {
    LosingKeepsSelfFree(u, w, d);
    if d.msg.BindRequest? {
      assert NotToSelf(u, d);
      assert d.src in u.ids ==> AsksOnce(u, w, d.src);
      ServerKeepsSelfFree(u, key, w.(net := w.net - multiset{d}), d);
    }
  }

  lemma ArriveKeepsSelfFree(u: Setup, key: Id -> Id, w: World, d: Datagram)
    requires SelfFree(u, w) && d in w.net && d.dst != u.server
    ensures SelfFree(u, Arrive(u, key, w.(net := w.net - multiset{d}), d))
  {
    var v := w.(net := w.net - multiset{d});
    LosingKeepsSelfFree(u, w, d);
    assert NotToSelf(u, d);
    if d.dst in w.clients && w.clients[d.dst].Running? {
      if Active(w.clients[d.dst].loop) {
        TurnKeepsSelfFree(u, v, d.dst, Msg(d.src, d.msg, ()));
      }
    } else if d.dst in w.clients && w.clients[d.dst].AwaitingAnswer? {
      QuietChange(u, v, Arrive(u, key, v, d));
    }
  }

  lemma StartKeepsSelfFree(u: Setup, key: Id -> Id, w: World, c: Addr)
    requires SelfFree(u, w)
    ensures SelfFree(u, Apply(u, key, w, Start(c)))
  {
    var w' := Apply(u, key, w, Start(c));
    forall x | x in u.ids ensures AsksOnce(u, w', x) {
      assert AsksOnce(u, w, x);
      assert Absent(w, x) ==> Absent(w', x);
    }
  }

  lemma ApplyKeepsSelfFree(u: Setup, key: Id -> Id, w: World, s: Step)
    requires SelfFree(u, w) && Plainly(u, s)
    ensures SelfFree(u, Apply(u, key, w, s))
  {
    match s
    case Quiet(c, fault) =>
      if c in w.clients && w.clients[c].Running? && Active(w.clients[c].loop) {
        TurnKeepsSelfFree(u, w, c, if fault then Fault else Timeout);
      }
    case Deliver(d) =>
      if d in w.net {
        if d.dst == u.server {
          ServerArrivalKeepsSelfFree(u, key, w, d);
        } else {
          ArriveKeepsSelfFree(u, key, w, d);
        }
      }
    case Lose(d) =>
      LosingKeepsSelfFree(u, w, d);
    case Start(c) =>
      StartKeepsSelfFree(u, key, w, c);
    case GiveUp(c) =>
      QuietChange(u, w, Apply(u, key, w, s));
    case Duplicate(d) =>
      if d in w.net {
        AddingKeepsSelfFree(u, w, d);
      }
    case Rogue(to, msg) =>
      if !(msg.ClientBindRequest? || msg.ClientBindResponse?) {
        AddingKeepsSelfFree(u, w, Datagram(u.server, to, msg));
      }
  }

  /** A datagram that is no client's bind request may be added to those in flight. */
  lemma AddingKeepsSelfFree(u: Setup, w: World, d: Datagram)
    requires SelfFree(u, w) && NotToSelf(u, d) && (d.msg.BindRequest? ==> d.src !in u.ids)
    ensures SelfFree(u, w.(net := w.net + multiset{d}))
  {
    forall x | x in u.ids ensures AsksOnce(u, w.(net := w.net + multiset{d}), x) {
      assert AsksOnce(u, w, x);
    }
  }

  lemma LosingKeepsSelfFree(u: Setup, w: World, d: Datagram)
    requires SelfFree(u, w)
    ensures SelfFree(u, w.(net := w.net - multiset{d}))
  {
    forall x | x in u.ids ensures AsksOnce(u, w.(net := w.net - multiset{d}), x) {
      assert AsksOnce(u, w, x);
    }
  }

  lemma QuietChange(u: Setup, w: World, w': World)
    requires SelfFree(u, w)
    requires w'.net == w.net && w'.waiting == w.waiting && w'.clients.Keys == w.clients.Keys
    requires forall x :: x in w.clients ==>
               || w'.clients[x] == w.clients[x]
               || w'.clients[x] == Aborted
               || (w'.clients[x].Running? && w'.clients[x].loop.target == u.server)
    ensures SelfFree(u, w')
  {
    forall x | x in u.ids ensures AsksOnce(u, w', x) {
      assert AsksOnce(u, w, x);
    }
  }

  lemma {:induction false} RunKeepsSelfFree(u: Setup, key: Id -> Id, steps: seq<Step>)
    requires u.server !in u.ids
    requires forall s :: s in steps ==> Plainly(u, s)
    ensures SelfFree(u, Run(u, key, steps))
  {
    if steps != [] {
      RunKeepsSelfFree(u, key, steps[..|steps| - 1]);
      ApplyKeepsSelfFree(u, key, Run(u, key, steps[..|steps| - 1]), steps[|steps| - 1]);
    }
  }

  /**
   Unless a client's bind request is duplicated or the server names a client to itself, and whatever
   else is lost, reordered, duplicated or replied and whatever key the server uses: if `a` and `b` are
   the only clients with their id and both are connected, they are connected to each other.
   */
  lemma {:induction false} MutualPairing(u: Setup, key: Id -> Id, steps: seq<Step>, a: Addr, b: Addr, x: Addr, y: Addr)
    requires u.server !in u.ids
    requires forall s :: s in steps ==> Plainly(u, s)
    requires a in u.ids && b in u.ids
    requires forall c :: c in u.ids && u.ids[c] == u.ids[a] ==> c == a || c == b
    requires ConnectedTo(Run(u, key, steps), a, x) && ConnectedTo(Run(u, key, steps), b, y)
    requires u.ids[a] == u.ids[b]
    ensures x == b && y == a && a != b
  {
    Agreement(u, key, steps, a, x);
    Agreement(u, key, steps, b, y);
    RunKeepsSelfFree(u, key, steps);
    var w := Run(u, key, steps);
    assert AsksOnce(u, w, a) && AsksOnce(u, w, b);
  }

  // ----- the two steps that mutual pairing excludes

  /** The two kinds of steps that are not plain. */
  datatype Excluded = DuplicatedRequest | MisdirectedReply

  predicate Allows(u: Setup, f: Excluded, s: Step) {
    Plainly(u, s) || (if f == DuplicatedRequest then s.Duplicate? else s.Rogue?)
  }

  /** Some run of plain steps and of steps of the kind `f` leads to `w`. */
  ghost predicate Reachable(u: Setup, key: Id -> Id, f: Excluded, w: World) {
    exists steps: seq<Step> :: (forall s :: s in steps ==> Allows(u, f, s)) && Run(u, key, steps) == w
  }

  lemma ReachableInit(u: Setup, key: Id -> Id, f: Excluded)
    ensures Reachable(u, key, f, Init(u))
  {
    assert Run(u, key, []) == Init(u);
  }

  lemma ReachableStep(u: Setup, key: Id -> Id, f: Excluded, w: World, s: Step)
    requires Reachable(u, key, f, w) && Allows(u, f, s)
    ensures Reachable(u, key, f, Apply(u, key, w, s))
  {
    var steps: seq<Step> :| (forall s :: s in steps ==> Allows(u, f, s)) && Run(u, key, steps) == w;
    assert (steps + [s])[..|steps|] == steps;
    assert Run(u, key, steps + [s]) == Apply(u, key, w, s);
  }

  lemma SentIsInFlight(src: Addr, sends: seq<Send>, i: nat)
    requires i < |sends|
    ensures Datagram(src, sends[i].to, sends[i].msg) in Datagrams(src, sends)
  {
    var q := seq(|sends|, i requires 0 <= i < |sends| => Datagram(src, sends[i].to, sends[i].msg));
    assert q[i] == Datagram(src, sends[i].to, sends[i].msg);
    assert q[i] in q;
  }

  /** A client whose request is still waiting at the server when its duplicate arrives. */
  lemma DuplicateIsPairedWithItself(u: Setup, key: Id -> Id, w: World, c: Addr)
    requires c in u.ids && c != u.server
    requires Asking(u, c) in w.net && key(u.ids[c]) in w.waiting && w.waiting[key(u.ids[c])] == c
    ensures var w' := Apply(u, key, w, Deliver(Asking(u, c)));
            && w'.clients == w.clients
            && Datagram(u.server, c, Ack) in w'.net && Datagram(u.server, c, BindReply(c)) in w'.net
  {
    var sends := Plain.Sends(key, w.waiting, Plain.Request(u.ids[c], c));
    SentIsInFlight(u.server, sends, 0);
    SentIsInFlight(u.server, sends, 1);
  }

  /** The server's reply makes the client turn to itself. */
  lemma ReplyTurnsToSelf(u: Setup, key: Id -> Id, w: World, c: Addr)
    requires c in u.ids && c in w.clients && c != u.server
    requires w.clients[c] == Running(Begin(Cfg(u, c)), false)
    requires Datagram(u.server, c, BindReply(c)) in w.net
    ensures var w' := Apply(u, key, w, Deliver(Datagram(u.server, c, BindReply(c))));
            && c in w'.clients && w'.clients[c].Running? && Active(w'.clients[c].loop)
            && Datagram(c, c, ClientBindRequest(u.ids[c])) in w'.net
  {
    SentIsInFlight(c, Sends(Cfg(u, c), Begin(Cfg(u, c)), Msg(u.server, BindReply(c), ())), 0);
  }

  /** The first answer puts the client into its loop. */
  lemma AnswerStartsLoop(u: Setup, key: Id -> Id, w: World, c: Addr)
    requires c in u.ids && c in w.clients && c != u.server
    requires w.clients[c] == AwaitingAnswer
    requires Datagram(u.server, c, Ack) in w.net && Datagram(u.server, c, BindReply(c)) in w.net
    ensures var w' := Apply(u, key, w, Deliver(Datagram(u.server, c, Ack)));
            && w'.clients == w.clients[c := Running(Begin(Cfg(u, c)), false)]
            && Datagram(u.server, c, BindReply(c)) in w'.net
  {
  }

  /** A client in its loop that receives its own request connects to itself. */
  lemma OwnRequestConnects(u: Setup, key: Id -> Id, w: World, c: Addr)
    requires c in u.ids && c in w.clients && c != u.server
    requires w.clients[c].Running? && Active(w.clients[c].loop)
    requires Datagram(c, c, ClientBindRequest(u.ids[c])) in w.net
    ensures ConnectedTo(Apply(u, key, w, Deliver(Datagram(c, c, ClientBindRequest(u.ids[c])))), c, c)
  {
  }

  lemma SelfConnection(u: Setup, key: Id -> Id, f: Excluded, w: World, c: Addr)
    requires c in u.ids && c in w.clients && c != u.server
    requires w.clients[c] == AwaitingAnswer
    requires Datagram(u.server, c, Ack) in w.net && Datagram(u.server, c, BindReply(c)) in w.net
    ensures Reachable(u, key, f, w) ==> exists w' :: Reachable(u, key, f, w') && ConnectedTo(w', c, c)
  {
    var ack, reply := Datagram(u.server, c, Ack), Datagram(u.server, c, BindReply(c));
    AnswerStartsLoop(u, key, w, c);
    if Reachable(u, key, f, w) {
      ReachableStep(u, key, f, w, Deliver(ack));
    }
    TurnedToSelf(u, key, f, Apply(u, key, w, Deliver(ack)), c);
  }

  lemma TurnedToSelf(u: Setup, key: Id -> Id, f: Excluded, w: World, c: Addr)
    requires c in u.ids && c in w.clients && c != u.server
    requires w.clients[c] == Running(Begin(Cfg(u, c)), false)
    requires Datagram(u.server, c, BindReply(c)) in w.net
    ensures Reachable(u, key, f, w) ==> exists w' :: Reachable(u, key, f, w') && ConnectedTo(w', c, c)
  {
    var reply, ask := Datagram(u.server, c, BindReply(c)), Datagram(c, c, ClientBindRequest(u.ids[c]));
    ReplyTurnsToSelf(u, key, w, c);
    if Reachable(u, key, f, w) {
      ReachableStep(u, key, f, w, Deliver(reply));
    }
    AskedBySelf(u, key, f, Apply(u, key, w, Deliver(reply)), c);
  }

  lemma AskedBySelf(u: Setup, key: Id -> Id, f: Excluded, w: World, c: Addr)
    requires c in u.ids && c in w.clients && c != u.server
    requires w.clients[c].Running? && Active(w.clients[c].loop)
    requires Datagram(c, c, ClientBindRequest(u.ids[c])) in w.net
    ensures Reachable(u, key, f, w) ==> exists w' :: Reachable(u, key, f, w') && ConnectedTo(w', c, c)
  {
    var ask := Datagram(c, c, ClientBindRequest(u.ids[c]));
    OwnRequestConnects(u, key, w, c);
    if Reachable(u, key, f, w) {
      ReachableStep(u, key, f, w, Deliver(ask));
    }
  }

  /** A lone client asks. */
  lemma LoneClientAsks(u: Setup, key: Id -> Id, f: Excluded, c: Addr, id: Id)
    requires u.ids == map[c := id]
    ensures Reachable(u, key, f, World(map[c := AwaitingAnswer], map[], multiset{Asking(u, c)}))
  {
    ReachableInit(u, key, f);
    ReachableStep(u, key, f, Init(u), Start(c));
    assert Apply(u, key, Init(u), Start(c)) == World(map[c := AwaitingAnswer], map[], multiset{Asking(u, c)});
  }

  lemma RequestIsDuplicated(u: Setup, key: Id -> Id, c: Addr, id: Id)
    requires u.ids == map[c := id]
    ensures var w' := World(map[c := AwaitingAnswer], map[], multiset{Asking(u, c), Asking(u, c)});
            Reachable(u, key, DuplicatedRequest, w')
  {
    var d := Asking(u, c);
    var w := World(map[c := AwaitingAnswer], map[], multiset{d});
    var w' := World(map[c := AwaitingAnswer], map[], multiset{d, d});
    LoneClientAsks(u, key, DuplicatedRequest, c, id);
    assert multiset{d} + multiset{d} == multiset{d, d};
    assert Apply(u, key, w, Duplicate(d)) == w';
    ReachableStep(u, key, DuplicatedRequest, w, Duplicate(d));
  }

  /** The first copy of a lone client's duplicated request waits at the server. */
  lemma CopyIsWaiting(u: Setup, key: Id -> Id, c: Addr, id: Id)
    requires u.ids == map[c := id] && c != u.server
    ensures exists w :: Reachable(u, key, DuplicatedRequest, w) && w.clients == map[c := AwaitingAnswer]
              && Asking(u, c) in w.net && w.waiting == map[key(id) := c]
  {
    var w := World(map[c := AwaitingAnswer], map[], multiset{Asking(u, c), Asking(u, c)});
    RequestIsDuplicated(u, key, c, id);
    FirstCopyWaits(u, key, w, c, id);
    ReachableStep(u, key, DuplicatedRequest, w, Deliver(Asking(u, c)));
  }

  lemma FirstCopyWaits(u: Setup, key: Id -> Id, w: World, c: Addr, id: Id)
    requires u.ids == map[c := id] && c != u.server
    requires w == World(map[c := AwaitingAnswer], map[], multiset{Asking(u, c), Asking(u, c)})
    ensures var w' := Apply(u, key, w, Deliver(Asking(u, c)));
            && w'.clients == w.clients && Asking(u, c) in w'.net && w'.waiting == map[key(id) := c]
  {
  }

  /**
   Mutual pairing does need bind requests that are not duplicated: with one duplicate, otherwise plain
   steps, and whatever key the server uses, a client can end up connected to itself.
   */
  lemma DuplicationCanSelfConnect(u: Setup, key: Id -> Id, c: Addr, id: Id)
    requires u.ids == map[c := id] && c != u.server
    ensures exists w :: Reachable(u, key, DuplicatedRequest, w) && ConnectedTo(w, c, c)
  {
    CopyIsWaiting(u, key, c, id);
    var w :| Reachable(u, key, DuplicatedRequest, w) && w.clients == map[c := AwaitingAnswer]
             && Asking(u, c) in w.net && w.waiting == map[key(id) := c];
    DuplicateIsPairedWithItself(u, key, w, c);
    ReachableStep(u, key, DuplicatedRequest, w, Deliver(Asking(u, c)));
    SelfConnection(u, key, DuplicatedRequest, Apply(u, key, w, Deliver(Asking(u, c))), c);
  }

  lemma RogueSends(u: Setup, key: Id -> Id, f: Excluded, w: World, to: Addr, msg: Message)
    requires Reachable(u, key, f, w) && f == MisdirectedReply && (msg.Ack? || msg.BindReply?)
    ensures var w' := Apply(u, key, w, Rogue(to, msg));
            && Reachable(u, key, f, w') && w'.clients == w.clients
            && Datagram(u.server, to, msg) in w'.net && forall d :: d in w.net ==> d in w'.net
  {
    ReachableStep(u, key, f, w, Rogue(to, msg));
  }

  lemma MisdirectedReplyArrives(u: Setup, key: Id -> Id, c: Addr, id: Id)
    requires u.ids == map[c := id]
    ensures exists w :: Reachable(u, key, MisdirectedReply, w) && w.clients == map[c := AwaitingAnswer]
              && Datagram(u.server, c, Ack) in w.net && Datagram(u.server, c, BindReply(c)) in w.net
  {
    var f, w := MisdirectedReply, World(map[c := AwaitingAnswer], map[], multiset{Asking(u, c)});
    LoneClientAsks(u, key, f, c, id);
    RogueSends(u, key, f, w, c, Ack);
    RogueSends(u, key, f, Apply(u, key, w, Rogue(c, Ack)), c, BindReply(c));
  }

  /** And it needs a server that does not name a client to itself: one such reply connects it to itself. */
  lemma MisdirectionCanSelfConnect(u: Setup, key: Id -> Id, c: Addr, id: Id)
    requires u.ids == map[c := id] && c != u.server
    ensures exists w :: Reachable(u, key, MisdirectedReply, w) && ConnectedTo(w, c, c)
  {
    MisdirectedReplyArrives(u, key, c, id);
    var w :| Reachable(u, key, MisdirectedReply, w) && w.clients == map[c := AwaitingAnswer]
             && Datagram(u.server, c, Ack) in w.net && Datagram(u.server, c, BindReply(c)) in w.net;
    SelfConnection(u, key, MisdirectedReply, w, c);
  }
}
