/**
 The traffic between clients and server: what each arrival puts in flight, that every client and the
 server follow what they receive, that datagrams are neither made nor lost but by the parties and the
 network, and that two clients can find each other.
 */
module PunchTraffic {
  import opened Wire
  import opened P2pConnector
  import opened Receipts
  import opened PunchNetwork
  import Plain = PlainRendezvous

  // ----- what is put in flight

  /** The client `c` is in its loop and goes on. */
  predicate InLoop(u: Setup, w: World, c: Addr) {
    c in u.ids && c != u.server && c in w.clients && w.clients[c].Running? && Active(w.clients[c].loop)
  }

  lemma OneSend(src: Addr, s: Send)
    ensures Datagrams(src, [s]) == multiset{Datagram(src, s.to, s.msg)}
    ensures Datagrams(src, []) == multiset{}
  {
    assert seq(1, i requires 0 <= i < 1 => Datagram(src, [s][i].to, [s][i].msg)) == [Datagram(src, s.to, s.msg)];
  }

  /** A request with the own id connects the client to its sender and puts a response to it in flight. */
  lemma RequestIsAnswered(u: Setup, key: Id -> Id, w: World, c: Addr, peer: Addr)
    requires InLoop(u, w, c)
    requires Datagram(peer, c, ClientBindRequest(u.ids[c])) in w.net
    ensures var d := Datagram(peer, c, ClientBindRequest(u.ids[c]));
            var w' := Apply(u, key, w, Deliver(d));
            && ConnectedTo(w', c, peer) && !w'.clients[c].viaResponse
            && w'.clients == w.clients[c := w'.clients[c]] && w'.waiting == w.waiting
            && w'.net == w.net - multiset{d} + multiset{Datagram(c, peer, ClientBindResponse(u.ids[c]))}
  {
    OneSend(c, Send(0, peer, ClientBindResponse(u.ids[c])));
  }

  /** A response from the target connects the client to it and puts nothing in flight. */
  lemma ResponseIsAccepted(u: Setup, key: Id -> Id, w: World, c: Addr, id: Id)
    requires InLoop(u, w, c)
    requires Datagram(w.clients[c].loop.target, c, ClientBindResponse(id)) in w.net
    ensures var peer := w.clients[c].loop.target;
            var d := Datagram(peer, c, ClientBindResponse(id));
            var w' := Apply(u, key, w, Deliver(d));
            && ConnectedTo(w', c, peer) && w'.clients[c].viaResponse
            && w'.clients == w.clients[c := w'.clients[c]] && w'.waiting == w.waiting
            && w'.net == w.net - multiset{d}
  {
    OneSend(c, Send(0, c, Ack));
  }

  /** An introduction by the server puts a request to the peer in flight. */
  lemma IntroductionIsFollowed(u: Setup, key: Id -> Id, w: World, c: Addr, peer: Addr)
    requires InLoop(u, w, c)
    requires Datagram(u.server, c, BindReply(peer)) in w.net
    ensures var d := Datagram(u.server, c, BindReply(peer));
            var w' := Apply(u, key, w, Deliver(d));
            && InLoop(u, w', c) && w'.clients[c].loop.target == peer
            && w'.clients == w.clients[c := w'.clients[c]] && w'.waiting == w.waiting
            && w'.net == w.net - multiset{d} + multiset{Datagram(c, peer, ClientBindRequest(u.ids[c]))}
  {
    OneSend(c, Send(0, peer, ClientBindRequest(u.ids[c])));
  }

  /**
   How far a client has come: it starts once, enters its loop on the first thing that arrives, unless it
   has given up by then, and never leaves its loop or comes back from giving up.
   */
  lemma ClientStages(u: Setup, key: Id -> Id, w: World, s: Step, c: Addr)
    requires c in u.ids && c != u.server && c in w.clients
    ensures c in Apply(u, key, w, s).clients
    ensures var x, y := w.clients[c], Apply(u, key, w, s).clients[c];
            && (x == Idle ==> y == if s == Start(c) then AwaitingAnswer else Idle)
            && (x == AwaitingAnswer ==>
                  y == if s.Deliver? && s.d in w.net && s.d.dst == c
                       then Running(Loop(WaitingForStunReply, u.server, 10), false)
                       else if s == GiveUp(c) then Aborted else AwaitingAnswer)
            && (x == Aborted ==> y == Aborted)
            && (x.Running? ==> y.Running? && (!Active(x.loop) ==> y == x))
  {
    match s
    case Deliver(d) =>
      if d in w.net {
        OtherClientsStay(u, key, w.(net := w.net - multiset{d}), d, c);
      }
    case _ =>
  }

  /** An arrival changes no client but the one it is for. */
  lemma OtherClientsStay(u: Setup, key: Id -> Id, w: World, d: Datagram, c: Addr)
    requires c in w.clients
    ensures c in Arrive(u, key, w, d).clients
    ensures c != d.dst ==> Arrive(u, key, w, d).clients[c] == w.clients[c]
  {
  }

  // ----- every client follows its receipts

  /** What the client `c` has received in its loop, in order. */
  function Heard(u: Setup, key: Id -> Id, steps: seq<Step>, c: Addr): seq<Input> {
    if steps == [] then []
    else
      var p := steps[..|steps| - 1];
      Heard(u, key, p, c) + HeardAt(u, Run(u, key, p), steps[|steps| - 1], c)
  }

  function HeardAt(u: Setup, w: World, s: Step, c: Addr): seq<Input> {
    if !(c in u.ids && c in w.clients && w.clients[c].Running? && Active(w.clients[c].loop)) then []
    else
      match s
      case Deliver(d) => if d in w.net && d.dst == c && c != u.server then [Msg(d.src, d.msg, ())] else []
      case Quiet(x, fault) => if x == c then [if fault then Fault else Timeout] else []
      case _ => []
  }

  /** In every run, a client's loop is in the state that its receipts determine on their own. */
  lemma {:induction false} LoopFollowsReceipts(u: Setup, key: Id -> Id, steps: seq<Step>, c: Addr)
    requires c in u.ids
    ensures c in Run(u, key, steps).clients
    ensures var w := Run(u, key, steps);
            if w.clients[c].Running? then w.clients[c].loop == Fold(Cfg(u, c), Heard(u, key, steps, c))
            else Heard(u, key, steps, c) == []
  {
    if steps != [] {
      var p, s := steps[..|steps| - 1], steps[|steps| - 1];
      LoopFollowsReceipts(u, key, p, c);
      HeardStep(u, key, Run(u, key, p), s, c, Heard(u, key, p, c));
    }
  }

  /** A loop starts fresh, and then changes only by what it hears. */
  ghost predicate Follows(u: Setup, w: World, w': World, c: Addr, more: seq<Input>)
    requires c in u.ids && c in w.clients
  {
    && |more| <= 1 && c in w'.clients && (w.clients[c].Running? ==> w'.clients[c].Running?)
    && (more != [] ==>
          w.clients[c].Running? && w'.clients[c].loop == Iterate(Cfg(u, c), w.clients[c].loop, more[0]))
    && (more == [] && w'.clients[c].Running? ==>
          w'.clients[c].loop == if w.clients[c].Running? then w.clients[c].loop else Begin(Cfg(u, c)))
  }

  lemma TurnFollows(u: Setup, w: World, x: Addr, e: Input, c: Addr)
    requires x in u.ids && x in w.clients && w.clients[x].Running? && c in u.ids && c in w.clients
    ensures Follows(u, w, Turn(u, w, x, e), c, if x == c then [e] else [])
  {
  }

  lemma ArriveFollows(u: Setup, key: Id -> Id, w: World, d: Datagram, c: Addr)
    requires c in u.ids && c in w.clients
    ensures Follows(u, w, Arrive(u, key, w, d), c,
                    if d.dst == c && InLoop(u, w, c) then [Msg(d.src, d.msg, ())] else [])
  {
    if d.dst != u.server && d.dst in u.ids && d.dst in w.clients {
      if w.clients[d.dst].Running? && Active(w.clients[d.dst].loop) {
        TurnFollows(u, w, d.dst, Msg(d.src, d.msg, ()), c);
      }
    }
  }

  lemma DeliverFollows(u: Setup, key: Id -> Id, w: World, d: Datagram, c: Addr)
    requires c in u.ids && c in w.clients
    ensures Follows(u, w, Apply(u, key, w, Deliver(d)), c, HeardAt(u, w, Deliver(d), c))
  {
    if d in w.net {
      ArriveFollows(u, key, w.(net := w.net - multiset{d}), d, c);
    }
  }

  lemma QuietFollows(u: Setup, key: Id -> Id, w: World, x: Addr, fault: bool, c: Addr)
    requires c in u.ids && c in w.clients
    ensures Follows(u, w, Apply(u, key, w, Quiet(x, fault)), c, HeardAt(u, w, Quiet(x, fault), c))
  {
    if x in u.ids && x in w.clients && w.clients[x].Running? && Active(w.clients[x].loop) {
      TurnFollows(u, w, x, if fault then Fault else Timeout, c);
    }
  }

  lemma StepFollows(u: Setup, key: Id -> Id, w: World, s: Step, c: Addr)
    requires c in u.ids && c in w.clients
    ensures Follows(u, w, Apply(u, key, w, s), c, HeardAt(u, w, s, c))
  {
    match s
    case Deliver(d) => DeliverFollows(u, key, w, d, c);
    case Quiet(x, fault) => QuietFollows(u, key, w, x, fault, c);
    case _ =>
  }

  lemma HeardStep(u: Setup, key: Id -> Id, w: World, s: Step, c: Addr, h: seq<Input>)
    requires c in u.ids && c in w.clients
    requires if w.clients[c].Running? then w.clients[c].loop == Fold(Cfg(u, c), h) else h == []
    ensures var w' := Apply(u, key, w, s);
            var h' := h + HeardAt(u, w, s, c);
            && c in w'.clients
            && if w'.clients[c].Running? then w'.clients[c].loop == Fold(Cfg(u, c), h') else h' == []
  {
    var more := HeardAt(u, w, s, c);
    StepFollows(u, key, w, s, c);
    if more == [] {
      assert h + more == h;
    } else {
      FoldStep(Cfg(u, c), h, more[0]);
      assert h + more == h + [more[0]];
    }
  }

  // ----- nothing is sent or lost but by the parties and the network

  /** How often a copy of `d` was taken out of the network, and how often one was added by it. */
  function Taken(u: Setup, key: Id -> Id, steps: seq<Step>, d: Datagram): nat {
    if steps == [] then 0
    else
      var p, s := steps[..|steps| - 1], steps[|steps| - 1];
      Taken(u, key, p, d) + if s in {Deliver(d), Lose(d)} && d in Run(u, key, p).net then 1 else 0
  }

  function Copied(u: Setup, key: Id -> Id, steps: seq<Step>, d: Datagram): nat {
    if steps == [] then 0
    else
      var p, s := steps[..|steps| - 1], steps[|steps| - 1];
      Copied(u, key, p, d) + if s == Duplicate(d) && d in Run(u, key, p).net then 1 else 0
  }

  /** Everything the client `c` has sent: its request to the server, and what its loop sends on its receipts. */
  function SentBy(u: Setup, key: Id -> Id, steps: seq<Step>, c: Addr): multiset<Datagram>
    requires c in u.ids
  {
    var w := Run(u, key, steps);
    (if c in w.clients && w.clients[c] != Idle then multiset{Asking(u, c)} else multiset{}) +
    Datagrams(c, SentOver(Cfg(u, c), Heard(u, key, steps, c)))
  }

  lemma DatagramsAppend(src: Addr, a: seq<Send>, b: seq<Send>)
    ensures Datagrams(src, a + b) == Datagrams(src, a) + Datagrams(src, b)
  {
    var all := a + b;
    assert seq(|all|, i requires 0 <= i < |all| => Datagram(src, all[i].to, all[i].msg)) ==
           seq(|a|, i requires 0 <= i < |a| => Datagram(src, a[i].to, a[i].msg)) +
           seq(|b|, i requires 0 <= i < |b| => Datagram(src, b[i].to, b[i].msg));
  }

  lemma NotFrom(src: Addr, sends: seq<Send>, d: Datagram)
    requires d.src != src
    ensures Datagrams(src, sends)[d] == 0
  {
    if d in Datagrams(src, sends) {
      DatagramsAre(src, sends, d);
    }
  }

  /** What the loop of `c` sends in the step. */
  function LoopSends(u: Setup, w: World, s: Step, c: Addr): seq<Send> {
    var e := HeardAt(u, w, s, c);
    if e != [] && c in u.ids && c in w.clients && w.clients[c].Running? then Sends(Cfg(u, c), w.clients[c].loop, e[0])
    else []
  }

  lemma TurnTraffic(u: Setup, w: World, x: Addr, e: Input, d: Datagram)
    requires x in u.ids && x in w.clients && w.clients[x].Running?
    ensures Turn(u, w, x, e).net[d] == w.net[d] +
            if x == d.src then Datagrams(x, Sends(Cfg(u, x), w.clients[x].loop, e))[d] else 0
  {
    if x != d.src {
      NotFrom(x, Sends(Cfg(u, x), w.clients[x].loop, e), d);
    }
  }

  /** An arrival at the server puts none of a client's datagrams in flight. */
  lemma ServerArrivalTraffic(u: Setup, key: Id -> Id, w: World, g: Datagram, d: Datagram)
    requires g.dst == u.server && d.src != u.server
    ensures Arrive(u, key, w, g).net[d] == w.net[d]
  {
    if g.msg.BindRequest? {
      NotFrom(u.server, Plain.Sends(key, w.waiting, Plain.Request(g.msg.id, g.src)), d);
    }
  }

  /** An arrival at a client puts in flight what its loop sends. */
  lemma ClientArrivalTraffic(u: Setup, key: Id -> Id, w: World, g: Datagram, d: Datagram)
    requires g.dst != u.server
    ensures Arrive(u, key, w, g).net[d] == w.net[d] +
            if d.src == g.dst && InLoop(u, w, g.dst)
            then Datagrams(g.dst, Sends(Cfg(u, g.dst), w.clients[g.dst].loop, Msg(g.src, g.msg, ())))[d] else 0
  {
    if InLoop(u, w, g.dst) {
      TurnTraffic(u, w, g.dst, Msg(g.src, g.msg, ()), d);
    }
  }

  /** In the step, copies of `d` in flight come and go as they are sent, taken and added. */
  ghost predicate Balanced(u: Setup, key: Id -> Id, w: World, s: Step, d: Datagram)
    requires d.src in u.ids && d.src in w.clients
  {
    var c := d.src;
    Apply(u, key, w, s).net[d] + (if s in {Deliver(d), Lose(d)} && d in w.net then 1 else 0) ==
    w.net[d] + (if s == Duplicate(d) && d in w.net then 1 else 0)
    + (if s == Start(c) && w.clients[c] == Idle && d == Asking(u, c) then 1 else 0)
    + Datagrams(c, LoopSends(u, w, s, c))[d]
  }

  lemma DeliverBalanced(u: Setup, key: Id -> Id, w: World, g: Datagram, d: Datagram)
    requires u.server !in u.ids && d.src in u.ids && d.src in w.clients
    ensures Balanced(u, key, w, Deliver(g), d)
  {
    if g in w.net {
      var v := w.(net := w.net - multiset{g});
      if g.dst == u.server {
        ServerArrivalTraffic(u, key, v, g, d);
        assert LoopSends(u, w, Deliver(g), d.src) == [];
      } else {
        ClientArrivalTraffic(u, key, v, g, d);
        assert LoopSends(u, w, Deliver(g), d.src) ==
               if d.src == g.dst && InLoop(u, w, g.dst)
               then Sends(Cfg(u, g.dst), w.clients[g.dst].loop, Msg(g.src, g.msg, ())) else [];
      }
    } else {
      assert LoopSends(u, w, Deliver(g), d.src) == [];
    }
  }

  lemma QuietBalanced(u: Setup, key: Id -> Id, w: World, x: Addr, fault: bool, d: Datagram)
    requires u.server !in u.ids && d.src in u.ids && d.src in w.clients
    ensures Balanced(u, key, w, Quiet(x, fault), d)
  {
    if InLoop(u, w, x) {
      TurnTraffic(u, w, x, if fault then Fault else Timeout, d);
    }
    assert LoopSends(u, w, Quiet(x, fault), d.src) ==
           if d.src == x && InLoop(u, w, x)
           then Sends(Cfg(u, x), w.clients[x].loop, if fault then Fault else Timeout) else [];
  }

  /** One step, for the datagrams of one client. */
  lemma TrafficStep(u: Setup, key: Id -> Id, w: World, s: Step, d: Datagram)
    requires u.server !in u.ids && d.src in u.ids && d.src in w.clients
    ensures Balanced(u, key, w, s, d)
  {
    match s
    case Quiet(x, fault) => QuietBalanced(u, key, w, x, fault, d);
    case Deliver(g) => DeliverBalanced(u, key, w, g, d);
    case _ => assert LoopSends(u, w, s, d.src) == [];
  }

  lemma {:induction false} ClientsStay(u: Setup, key: Id -> Id, steps: seq<Step>)
    ensures Run(u, key, steps).clients.Keys == u.ids.Keys
  {
    RunKeepsInv(u, key, steps);
  }

  /** One step more of what a client has sent. */
  lemma SentByStep(u: Setup, key: Id -> Id, p: seq<Step>, s: Step, c: Addr)
    requires c in u.ids && c in Run(u, key, p).clients
    ensures var w := Run(u, key, p);
            SentBy(u, key, p + [s], c) == SentBy(u, key, p, c)
            + (if s == Start(c) && w.clients[c] == Idle then multiset{Asking(u, c)} else multiset{})
            + Datagrams(c, LoopSends(u, w, s, c))
  {
    var w := Run(u, key, p);
    assert (p + [s])[..|p|] == p;
    assert Run(u, key, p + [s]) == Apply(u, key, w, s);
    assert Heard(u, key, p + [s], c) == Heard(u, key, p, c) + HeardAt(u, w, s, c);
    StartedStays(u, key, w, s, c);
    LoopFollowsReceipts(u, key, p, c);
    LoopSendsStep(u, w, s, c, Heard(u, key, p, c));
  }

  lemma LoopSendsStep(u: Setup, w: World, s: Step, c: Addr, h: seq<Input>)
    requires c in u.ids && c in w.clients
    requires w.clients[c].Running? ==> w.clients[c].loop == Fold(Cfg(u, c), h)
    ensures Datagrams(c, SentOver(Cfg(u, c), h + HeardAt(u, w, s, c))) ==
            Datagrams(c, SentOver(Cfg(u, c), h)) + Datagrams(c, LoopSends(u, w, s, c))
  {
    var more := HeardAt(u, w, s, c);
    if more == [] {
      assert h + more == h;
      assert Datagrams(c, []) == multiset{};
    } else {
      assert h + more == h + [more[0]];
      assert (h + more)[..|h|] == h;
      DatagramsAppend(c, SentOver(Cfg(u, c), h), Sends(Cfg(u, c), w.clients[c].loop, more[0]));
    }
  }

  lemma StartedStays(u: Setup, key: Id -> Id, w: World, s: Step, c: Addr)
    requires c in u.ids && c in w.clients
    ensures c in Apply(u, key, w, s).clients
    ensures Apply(u, key, w, s).clients[c] != Idle <==> w.clients[c] != Idle || s == Start(c)
  {
  }

  /**
   Conservation of datagrams, in every run: the copies of a client's datagram in flight and those taken
   out of the network are together those the client has sent and those the network has added.
   */
  lemma {:induction false} ClientTraffic(u: Setup, key: Id -> Id, steps: seq<Step>, d: Datagram)
    requires u.server !in u.ids && d.src in u.ids
    ensures Run(u, key, steps).net[d] + Taken(u, key, steps, d) ==
            SentBy(u, key, steps, d.src)[d] + Copied(u, key, steps, d)
  {
    if steps == [] {
      DatagramsAppend(d.src, [], []);
    } else {
      var p, s := steps[..|steps| - 1], steps[|steps| - 1];
      assert steps == p + [s];
      ClientTraffic(u, key, p, d);
      ClientsStay(u, key, p);
      TrafficStep(u, key, Run(u, key, p), s, d);
      SentByStep(u, key, p, s, d.src);
    }
  }

  // ----- the server follows the requests that reach it

  /** The bind requests that have reached the server, in order. */
  function Asked(u: Setup, key: Id -> Id, steps: seq<Step>): seq<Plain.Request> {
    if steps == [] then []
    else
      var p := steps[..|steps| - 1];
      Asked(u, key, p) + AskedAt(u, Run(u, key, p), steps[|steps| - 1])
  }

  function AskedAt(u: Setup, w: World, s: Step): seq<Plain.Request> {
    if s.Deliver? && s.d in w.net && s.d.dst == u.server && s.d.msg.BindRequest?
    then [Plain.Request(s.d.msg.id, s.d.src)] else []
  }

  /** What the server's code sends on requests. */
  function Answered(key: Id -> Id, asked: seq<Plain.Request>): seq<Send> {
    if asked == [] then []
    else
      var q := asked[..|asked| - 1];
      Answered(key, q) + Plain.Sends(key, Plain.Waiting(key, q), asked[|asked| - 1])
  }

  /** How often a misbehaving server has sent `d`. */
  function Forged(steps: seq<Step>, d: Datagram): nat {
    if steps == [] then 0
    else
      var s := steps[|steps| - 1];
      Forged(steps[..|steps| - 1], d) +
      if s.Rogue? && s.to == d.dst && s.msg == d.msg && !s.msg.ClientBindRequest? && !s.msg.ClientBindResponse?
      then 1 else 0
  }

  lemma ArriveWaiting(u: Setup, key: Id -> Id, w: World, d: Datagram)
    ensures Arrive(u, key, w, d).waiting ==
            if d.dst == u.server && d.msg.BindRequest?
            then Plain.NextWaiting(key, w.waiting, Plain.Request(d.msg.id, d.src)) else w.waiting
  {
  }

  /** In every run, the server's map is the one its code makes of the requests that reached it. */
  lemma {:induction false} ServerFollowsRequests(u: Setup, key: Id -> Id, steps: seq<Step>)
    ensures Run(u, key, steps).waiting == Plain.Waiting(key, Asked(u, key, steps))
  {
    if steps != [] {
      var p, s := steps[..|steps| - 1], steps[|steps| - 1];
      var w, q := Run(u, key, p), Asked(u, key, p);
      ServerFollowsRequests(u, key, p);
      WaitingStep(u, key, w, s, q);
    }
  }

  lemma WaitingStep(u: Setup, key: Id -> Id, w: World, s: Step, q: seq<Plain.Request>)
    requires w.waiting == Plain.Waiting(key, q)
    ensures Apply(u, key, w, s).waiting == Plain.Waiting(key, q + AskedAt(u, w, s))
    ensures Answered(key, q + AskedAt(u, w, s)) == Answered(key, q) + ServerSends(u, key, w, s)
  {
    var more := AskedAt(u, w, s);
    if s.Deliver? && s.d in w.net {
      ArriveWaiting(u, key, w.(net := w.net - multiset{s.d}), s.d);
    }
    if more == [] {
      assert q + more == q;
    } else {
      assert (q + more)[..|q|] == q;
    }
  }

  /** What the server sends in the step. */
  function ServerSends(u: Setup, key: Id -> Id, w: World, s: Step): seq<Send> {
    var more := AskedAt(u, w, s);
    if more == [] then [] else Plain.Sends(key, w.waiting, more[0])
  }

  ghost predicate ServerBalanced(u: Setup, key: Id -> Id, w: World, s: Step, d: Datagram) {
    Apply(u, key, w, s).net[d] + (if s in {Deliver(d), Lose(d)} && d in w.net then 1 else 0) ==
    w.net[d] + (if s == Duplicate(d) && d in w.net then 1 else 0)
    + Forged([s], d) + Datagrams(u.server, ServerSends(u, key, w, s))[d]
  }

  /** An arrival at a client puts none of the server's datagrams in flight. */
  lemma ClientArrivalSilent(u: Setup, key: Id -> Id, w: World, g: Datagram, d: Datagram)
    requires u.server !in u.ids && d.src == u.server && g.dst != u.server
    ensures Arrive(u, key, w, g).net[d] == w.net[d]
  {
    if InLoop(u, w, g.dst) {
      TurnTraffic(u, w, g.dst, Msg(g.src, g.msg, ()), d);
    }
  }

  lemma ServerDeliverBalanced(u: Setup, key: Id -> Id, w: World, g: Datagram, d: Datagram)
    requires u.server !in u.ids && d.src == u.server
    ensures ServerBalanced(u, key, w, Deliver(g), d)
  {
    assert Forged([Deliver(g)], d) == 0;
    if g in w.net && g.dst != u.server {
      ClientArrivalSilent(u, key, w.(net := w.net - multiset{g}), g, d);
    }
  }

  lemma ServerQuietBalanced(u: Setup, key: Id -> Id, w: World, x: Addr, fault: bool, d: Datagram)
    requires u.server !in u.ids && d.src == u.server
    ensures ServerBalanced(u, key, w, Quiet(x, fault), d)
  {
    assert Forged([Quiet(x, fault)], d) == 0;
    if InLoop(u, w, x) {
      TurnTraffic(u, w, x, if fault then Fault else Timeout, d);
    }
  }

  lemma ServerOtherBalanced(u: Setup, key: Id -> Id, w: World, s: Step, d: Datagram)
    requires u.server !in u.ids && d.src == u.server && !s.Quiet? && !s.Deliver?
    ensures ServerBalanced(u, key, w, s, d)
  {
    assert [s][..0] == [];
    assert ServerSends(u, key, w, s) == [];
  }

  lemma ServerTrafficStep(u: Setup, key: Id -> Id, w: World, s: Step, d: Datagram)
    requires u.server !in u.ids && d.src == u.server
    ensures ServerBalanced(u, key, w, s, d)
  {
    match s
    case Quiet(x, fault) => ServerQuietBalanced(u, key, w, x, fault, d);
    case Deliver(g) => ServerDeliverBalanced(u, key, w, g, d);
    case _ => ServerOtherBalanced(u, key, w, s, d);
  }

  lemma CountsExtend(u: Setup, key: Id -> Id, p: seq<Step>, s: Step, d: Datagram)
    ensures var w := Run(u, key, p);
            && Run(u, key, p + [s]) == Apply(u, key, w, s)
            && Asked(u, key, p + [s]) == Asked(u, key, p) + AskedAt(u, w, s)
            && Taken(u, key, p + [s], d) ==
               Taken(u, key, p, d) + (if s in {Deliver(d), Lose(d)} && d in w.net then 1 else 0)
            && Copied(u, key, p + [s], d) == Copied(u, key, p, d) + (if s == Duplicate(d) && d in w.net then 1 else 0)
    ensures Forged(p + [s], d) == Forged(p, d) + Forged([s], d)
  {
    assert (p + [s])[..|p|] == p;
    assert [s][..0] == [];
  }

  /** The same conservation for the server's datagrams, with the forged ones added. */
  lemma {:induction false} ServerTraffic(u: Setup, key: Id -> Id, steps: seq<Step>, d: Datagram)
    requires u.server !in u.ids && d.src == u.server
    ensures Run(u, key, steps).net[d] + Taken(u, key, steps, d) ==
            Datagrams(u.server, Answered(key, Asked(u, key, steps)))[d]
            + Copied(u, key, steps, d) + Forged(steps, d)
  {
    if steps == [] {
      DatagramsAppend(u.server, [], []);
      assert Answered(key, Asked(u, key, steps)) == [];
    } else {
      var p, s := steps[..|steps| - 1], steps[|steps| - 1];
      assert steps == p + [s];
      ServerTraffic(u, key, p, d);
      ServerTrafficNext(u, key, p, s, d, Run(u, key, p), Asked(u, key, p));
    }
  }

  lemma ServerTrafficNext(
    u: Setup, key: Id -> Id, p: seq<Step>, s: Step, d: Datagram, w: World, q: seq<Plain.Request>)
    requires u.server !in u.ids && d.src == u.server && w == Run(u, key, p) && q == Asked(u, key, p)
    requires w.net[d] + Taken(u, key, p, d) ==
             Datagrams(u.server, Answered(key, q))[d] + Copied(u, key, p, d) + Forged(p, d)
    ensures Run(u, key, p + [s]).net[d] + Taken(u, key, p + [s], d) ==
            Datagrams(u.server, Answered(key, Asked(u, key, p + [s])))[d]
            + Copied(u, key, p + [s], d) + Forged(p + [s], d)
  {
    CountsExtend(u, key, p, s, d);
    ServerFollowsRequests(u, key, p);
    ServerTrafficStep(u, key, w, s, d);
    WaitingStep(u, key, w, s, q);
    DatagramsAppend(u.server, Answered(key, q), ServerSends(u, key, w, s));
  }

  // ----- two clients can find each other

  /** Some run in which nothing is lost or duplicated and the server follows its code leads to `w`. */
  ghost predicate Orderly(u: Setup, key: Id -> Id, w: World) {
    exists steps: seq<Step> ::
      (forall s :: s in steps ==> s.Start? || s.Deliver?) && Run(u, key, steps) == w
  }

  lemma OrderlyStep(u: Setup, key: Id -> Id, w: World, s: Step)
    requires Orderly(u, key, w) && (s.Start? || s.Deliver?)
    ensures Orderly(u, key, Apply(u, key, w, s))
  {
    var steps: seq<Step> :|
      (forall s :: s in steps ==> s.Start? || s.Deliver?) && Run(u, key, steps) == w;
    assert (steps + [s])[..|steps|] == steps;
    assert Run(u, key, steps + [s]) == Apply(u, key, w, s);
  }

  predicate Pair(u: Setup, a: Addr, b: Addr) {
    a in u.ids && b in u.ids && a != b && u.ids[a] == u.ids[b] && a != u.server && b != u.server
  }

  lemma BothAsk(u: Setup, key: Id -> Id, a: Addr, b: Addr) returns (w: World)
    requires Pair(u, a, b)
    ensures Orderly(u, key, w) && a in w.clients && b in w.clients
    ensures w.clients[a] == AwaitingAnswer && w.clients[b] == AwaitingAnswer
    ensures Asking(u, a) in w.net && Asking(u, b) in w.net && w.waiting == map[]
  {
    assert Run(u, key, []) == Init(u);
    OrderlyStep(u, key, Init(u), Start(a));
    w := Apply(u, key, Init(u), Start(a));
    OrderlyStep(u, key, w, Start(b));
    w := Apply(u, key, w, Start(b));
  }

  /** The server keeps the first request and introduces the second one's sender to the first one's. */
  lemma BothIntroduced(u: Setup, key: Id -> Id, w: World, a: Addr, b: Addr) returns (v: World)
    requires Pair(u, a, b) && Orderly(u, key, w)
    requires Asking(u, a) in w.net && Asking(u, b) in w.net && w.waiting == map[]
    ensures Orderly(u, key, v) && v.clients == w.clients
    ensures Datagram(u.server, a, Ack) in v.net && Datagram(u.server, b, Ack) in v.net
    ensures Datagram(u.server, a, BindReply(b)) in v.net && Datagram(u.server, b, BindReply(a)) in v.net
  {
    FirstWaits(u, key, w, a, b);
    OrderlyStep(u, key, w, Deliver(Asking(u, a)));
    v := Apply(u, key, w, Deliver(Asking(u, a)));
    SecondIsIntroduced(u, key, v, b, a);
    OrderlyStep(u, key, v, Deliver(Asking(u, b)));
    v := Apply(u, key, v, Deliver(Asking(u, b)));
  }

  lemma FirstWaits(u: Setup, key: Id -> Id, w: World, a: Addr, b: Addr)
    requires Pair(u, a, b) && Asking(u, a) in w.net && Asking(u, b) in w.net && w.waiting == map[]
    ensures var v := Apply(u, key, w, Deliver(Asking(u, a)));
            && v.clients == w.clients && v.waiting == map[key(u.ids[a]) := a]
            && Datagram(u.server, a, Ack) in v.net && Asking(u, b) in v.net
  {
    SentIsInFlight(u.server, Plain.Sends(key, w.waiting, Plain.Request(u.ids[a], a)), 0);
  }

  /** A request that falls on a waiting client: both are told about each other, and the key is free again. */
  lemma SecondIsIntroduced(u: Setup, key: Id -> Id, w: World, b: Addr, a: Addr)
    requires b in u.ids && b != u.server && Asking(u, b) in w.net
    requires key(u.ids[b]) in w.waiting && w.waiting[key(u.ids[b])] == a
    ensures var v := Apply(u, key, w, Deliver(Asking(u, b)));
            && v.clients == w.clients && v.waiting == w.waiting - {key(u.ids[b])}
            && Datagram(u.server, b, Ack) in v.net
            && Datagram(u.server, b, BindReply(a)) in v.net && Datagram(u.server, a, BindReply(b)) in v.net
            && forall d :: d in w.net && d != Asking(u, b) ==> d in v.net
  {
    var sends := Plain.Sends(key, w.waiting, Plain.Request(u.ids[b], b));
    SentIsInFlight(u.server, sends, 0);
    SentIsInFlight(u.server, sends, 1);
    SentIsInFlight(u.server, sends, 2);
  }

  lemma EntersLoop(u: Setup, key: Id -> Id, w: World, c: Addr)
    requires c in u.ids && c != u.server && c in w.clients && w.clients[c] == AwaitingAnswer
    requires Datagram(u.server, c, Ack) in w.net
    ensures var w' := Apply(u, key, w, Deliver(Datagram(u.server, c, Ack)));
            && InLoop(u, w', c) && w'.clients == w.clients[c := w'.clients[c]]
            && w'.net == w.net - multiset{Datagram(u.server, c, Ack)}
  {
  }

  lemma BothInLoop(u: Setup, key: Id -> Id, w: World, a: Addr, b: Addr) returns (v: World)
    requires Pair(u, a, b) && Orderly(u, key, w) && a in w.clients && b in w.clients
    requires w.clients[a] == AwaitingAnswer && w.clients[b] == AwaitingAnswer
    requires Datagram(u.server, a, Ack) in w.net && Datagram(u.server, b, Ack) in w.net
    requires Datagram(u.server, a, BindReply(b)) in w.net
    ensures Orderly(u, key, v) && InLoop(u, v, a) && InLoop(u, v, b)
    ensures Datagram(u.server, a, BindReply(b)) in v.net
  {
    EntersLoop(u, key, w, a);
    OrderlyStep(u, key, w, Deliver(Datagram(u.server, a, Ack)));
    v := Apply(u, key, w, Deliver(Datagram(u.server, a, Ack)));
    EntersLoop(u, key, v, b);
    OrderlyStep(u, key, v, Deliver(Datagram(u.server, b, Ack)));
    v := Apply(u, key, v, Deliver(Datagram(u.server, b, Ack)));
  }

  /**
   Any two clients with the same id can find each other, among any other clients and whatever key the
   server uses: asked for, introduced, requested and answered, they are connected to each other.
   */
  lemma PairCanConnect(u: Setup, key: Id -> Id, a: Addr, b: Addr)
    requires Pair(u, a, b)
    ensures exists w :: Orderly(u, key, w) && ConnectedTo(w, a, b) && ConnectedTo(w, b, a)
                        && w.clients[a].viaResponse && !w.clients[b].viaResponse
  {
    var id := u.ids[a];
    var w := BothAsk(u, key, a, b);
    w := BothIntroduced(u, key, w, a, b);
    w := BothInLoop(u, key, w, a, b);
    IntroductionIsFollowed(u, key, w, a, b);
    OrderlyStep(u, key, w, Deliver(Datagram(u.server, a, BindReply(b))));
    w := Apply(u, key, w, Deliver(Datagram(u.server, a, BindReply(b))));
    RequestIsAnswered(u, key, w, b, a);
    OrderlyStep(u, key, w, Deliver(Datagram(a, b, ClientBindRequest(id))));
    w := Apply(u, key, w, Deliver(Datagram(a, b, ClientBindRequest(id))));
    ResponseIsAccepted(u, key, w, a, id);
    OrderlyStep(u, key, w, Deliver(Datagram(b, a, ClientBindResponse(id))));
    w := Apply(u, key, w, Deliver(Datagram(b, a, ClientBindResponse(id))));
  }
}
