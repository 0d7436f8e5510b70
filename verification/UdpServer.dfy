/** The rendezvous server itself: a receive loop over two maps that it updates in place. */
module UdpServer {
  import opened Wire
  import Ps = PsTransactions
  import PsHistory
  import Plain = PlainRendezvous

  /** A received datagram, by kind. Anything else than the three requests is only reported. */
  datatype Event =
    | PsBind(ps: Ps.Request)
    | Bind(plain: Plain.Request)
    | Beat(src: Addr)
    | Unexpected(src: Addr)

  function PsRequests(events: seq<Event>): seq<Ps.Request> {
    if events == [] then []
    else
      var q, e := PsRequests(events[..|events| - 1]), events[|events| - 1];
      if e.PsBind? then q + [e.ps] else q
  }

  function BindRequests(events: seq<Event>): seq<Plain.Request> {
    if events == [] then []
    else
      var q, e := BindRequests(events[..|events| - 1]), events[|events| - 1];
      if e.Bind? then q + [e.plain] else q
  }

  function Beats(events: seq<Event>): nat {
    if events == [] then 0
    else Beats(events[..|events| - 1]) + if events[|events| - 1].Beat? then 1 else 0
  }

  /** Everything the server sends on `e`, received after `events`. */
  function Sends(key: Id -> Id, events: seq<Event>, e: Event): seq<Send> {
    match e
    case PsBind(r) => Ps.Sends(Ps.Run(PsRequests(events)).pending, r)
    case Bind(r) => Plain.Sends(key, Plain.Waiting(key, BindRequests(events)), r)
    case Beat(src) => [Send(0, src, Ack)]
    case Unexpected(_) => []
  }

  function Output(key: Id -> Id, events: seq<Event>): seq<Send> {
    if events == [] then []
    else
      var p := events[..|events| - 1];
      Output(key, p) + Sends(key, p, events[|events| - 1])
  }

  function Acks(sends: seq<Send>): nat {
    if sends == [] then 0
    else Acks(sends[..|sends| - 1]) + if sends[|sends| - 1].msg.Ack? then 1 else 0
  }

  lemma {:induction false} AcksAppend(a: seq<Send>, b: seq<Send>)
    ensures Acks(a + b) == Acks(a) + Acks(b)
  {
    if b == [] {
      assert a + b == a;
    } else {
      AcksAppend(a, b[..|b| - 1]);
      assert (a + b)[..|a + b| - 1] == a + b[..|b| - 1];
    }
  }

  lemma AckThenReplies(s: Send, replies: seq<Send>)
    requires s.msg.Ack? && |replies| in {0, 2}
    requires forall i :: 0 <= i < |replies| ==> !replies[i].msg.Ack?
    ensures Acks([s] + replies) == 1
  {
    AcksAppend([s], replies);
    assert [s][..0] == [];
    if |replies| == 2 {
      assert replies[..1][..0] == [];
    }
  }

  lemma PsAcksOnce(pending: map<Id, Ps.Transaction>, r: Ps.Request)
    ensures Acks(Ps.Sends(pending, r)) == 1
  {
    AckThenReplies(Send(r.socket, r.src, Ack), Ps.Handle(Ps.Lookup(pending, r.id), r).replies);
  }

  lemma PlainAcksOnce(key: Id -> Id, waiting: map<Id, Addr>, r: Plain.Request)
    ensures Acks(Plain.Sends(key, waiting, r)) == 1
  {
    var sends := Plain.Sends(key, waiting, r);
    AckThenReplies(sends[0], sends[1..]);
    assert sends == [sends[0]] + sends[1..];
  }

  lemma AcksOneStep(key: Id -> Id, events: seq<Event>, e: Event)
    ensures Acks(Sends(key, events, e)) == if e.Unexpected? then 0 else 1
  {
    match e
    case PsBind(r) => PsAcksOnce(Ps.Run(PsRequests(events)).pending, r);
    case Bind(r) => PlainAcksOnce(key, Plain.Waiting(key, BindRequests(events)), r);
    case Beat(src) =>
      AckThenReplies(Send(0, src, Ack), []);
      assert [Send(0, src, Ack)] + [] == [Send(0, src, Ack)];
    case Unexpected(_) =>
  }

  /** Over any mixture of requests, acknowledgements sent equal requests and heartbeats handled. */
  lemma {:induction false} AckConservation(key: Id -> Id, events: seq<Event>)
    ensures Acks(Output(key, events)) == |PsRequests(events)| + |BindRequests(events)| + Beats(events)
  {
    if events != [] {
      var p, e := events[..|events| - 1], events[|events| - 1];
      AckConservation(key, p);
      AcksAppend(Output(key, p), Sends(key, p, e));
      AcksOneStep(key, p, e);
    }
  }

  /** The introductions owed to the sender of a plain request and to the partner it is paired with. */
  function Introductions(r: Plain.Request, partner: Option<Plain.Request>): seq<Send> {
    if partner.None? then []
    else [Send(0, r.src, BindReply(partner.value.src)), Send(0, partner.value.src, BindReply(r.src))]
  }

  /**
   What is owed on a datagram, told from the requests received before it. A port-scan request is
   acknowledged through the socket it came in on, everything else through the first one.
   */
  function Owed(key: Id -> Id, events: seq<Event>, e: Event): seq<Send> {
    match e
    case PsBind(r) =>
      var trace := PsRequests(events);
      [Send(r.socket, r.src, Ack)] +
      (if PsHistory.CompletesNext(trace, r) then PsHistory.OwedReplies(PsHistory.Live(trace, r.id) + [r]) else [])
    case Bind(r) => [Send(0, r.src, Ack)] + Introductions(r, Plain.Partner(key, BindRequests(events), r))
    case Beat(src) => [Send(0, src, Ack)]
    case Unexpected(_) => []
  }

  /** On every datagram, the server sends what is owed, and nothing else. */
  lemma ServerAnswers(key: Id -> Id, events: seq<Event>, e: Event)
    requires Ps.Addressed(PsRequests(events + [e]))
    ensures Output(key, events + [e]) == Output(key, events) + Owed(key, events, e)
  {
    assert (events + [e])[..|events|] == events;
    assert Output(key, events + [e]) == Output(key, events) + Sends(key, events, e);
    match e
    case PsBind(r) => PsHistory.ExactCompletion(PsRequests(events), r);
    case Bind(r) => Plain.StepPairsPartners(key, BindRequests(events), r);
    case _ =>
  }

  lemma AppendOne(before: seq<Event>, events: seq<Event>, i: nat)
    requires i < |events|
    ensures before + events[..i] + [events[i]] == before + events[..i + 1]
  {
  }

  class Server {
    /** The map key for a plain request; `Plain.ZeroedKey` is the one the source uses. */
    const key: Id -> Id
    var transactionClientMap: map<Id, Addr>
    var psTransactionClientMap: map<Id, Ps.Transaction>
    ghost var history: seq<Event>
    ghost var sent: seq<Send>

    /** The maps and everything sent so far are determined by what was received. */
    ghost predicate Valid()
      reads this
    {
      && transactionClientMap == Plain.Waiting(key, BindRequests(history))
      && psTransactionClientMap == Ps.Run(PsRequests(history)).pending
      && sent == Output(key, history)
    }

    constructor (key: Id -> Id)
      ensures Valid() && history == [] && this.key == key
    {
      this.key := key;
      transactionClientMap, psTransactionClientMap := map[], map[];
      history, sent := [], [];
    }

    /** `ps_bind_request`: find, create, expire, fill or complete the record of the id. */
    method PsBindRequest(r: Ps.Request) returns (ghost out: seq<Send>)
      modifies this`psTransactionClientMap
      ensures var pending := old(psTransactionClientMap);
              psTransactionClientMap == Ps.Store(pending, r.id, Ps.Handle(Ps.Lookup(pending, r.id), r).left)
      ensures out == Ps.Sends(old(psTransactionClientMap), r)
    {
      out := [Send(r.socket, r.src, Ack)];
      if r.id !in psTransactionClientMap {
        psTransactionClientMap := psTransactionClientMap[r.id := Ps.NewTransaction(r)];
        return;
      }
      var t := psTransactionClientMap[r.id];
      if t.cl1Ts1 + Ps.EXPIRY_MS < r.check {
        psTransactionClientMap := psTransactionClientMap[r.id := Ps.NewTransaction(r)];
        return;
      }
      if t.cl1Sk1.host == r.src.host {
        t := t.(cl1Ts2 := r.stamp, cl1Sk2 := r.src);
        psTransactionClientMap := psTransactionClientMap[r.id := t];
        return;
      } else if t.cl2Sk1.host == 0 {
        t := t.(cl2Ts1 := r.stamp, cl2Sk1 := r.src);
        psTransactionClientMap := psTransactionClientMap[r.id := t];
      } else if t.cl2Sk1.host == r.src.host {
        t := t.(cl2Ts2 := r.stamp, cl2Sk2 := r.src);
        psTransactionClientMap := psTransactionClientMap[r.id := t];
      }
      if !(t.cl2Sk2.host != 0 && t.cl1Sk2.host != 0) {
        return;
      }
      out := out + [Send(0, t.cl1Sk1, PsBindReply(t.cl2Sk1, t.cl2Sk2, t.cl2Ts1, t.cl2Ts2))];
      out := out + [Send(0, t.cl2Sk1, PsBindReply(t.cl1Sk1, t.cl1Sk2, t.cl1Ts1, t.cl1Ts2))];
      psTransactionClientMap := psTransactionClientMap - {r.id};
    }

    /** `bind_request`: keep the first of two requests on a key, introduce the second to the first. */
    method BindRequest(r: Plain.Request) returns (ghost out: seq<Send>)
      modifies this`transactionClientMap
      ensures transactionClientMap == Plain.NextWaiting(key, old(transactionClientMap), r)
      ensures out == Plain.Sends(key, old(transactionClientMap), r)
    {
      out := [Send(0, r.src, Ack)];
      var k := key(r.id);
      if k !in transactionClientMap {
        transactionClientMap := transactionClientMap[k := r.src];
      } else {
        var copeer := transactionClientMap[k];
        out := out + [Send(0, r.src, Message.BindReply(copeer))];
        out := out + [Send(0, copeer, Message.BindReply(r.src))];
        transactionClientMap := transactionClientMap - {k};
      }
    }

    /** One pass of the receive loop. */
    method Receive(e: Event)
      requires Valid()
      modifies this
      ensures Valid()
      ensures history == old(history) + [e]
      ensures sent == old(sent) + Sends(key, old(history), e)
    {
      ghost var events := history + [e];
      assert events[..|events| - 1] == history;
      ghost var out := [];
      match e {
        case PsBind(r) => out := PsBindRequest(r);
        case Bind(r) => out := BindRequest(r);
        case Beat(src) => out := [Send(0, src, Ack)];
        case Unexpected(_) =>
      }
      sent := sent + out;
      history := events;
    }

    /** The receive loop, on whatever arrives. */
    method Start(events: seq<Event>)
      requires Valid()
      modifies this
      ensures Valid()
      ensures history == old(history) + events
    {
      ghost var before := history;
      var i := 0;
      while i < |events|
        invariant 0 <= i <= |events|
        invariant Valid()
        invariant history == before + events[..i]
      {
        Receive(events[i]);
        AppendOne(before, events, i);
        i := i + 1;
      }
      assert events[..i] == events;
    }

    /** At any time, a pending record is the description of its id's live requests. */
    lemma PendingIsDescribed(id: Id)
      requires Valid() && Ps.Addressed(PsRequests(history))
      ensures Ps.Lookup(psTransactionClientMap, id) ==
              PsHistory.DescribeLive(PsHistory.Live(PsRequests(history), id))
    {
      PsHistory.HistoryRefinement(PsRequests(history), id);
    }
  }
}
