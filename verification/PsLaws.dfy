/**
 Safety of the port-scan path over whole runs: the shape of records, the content and timing of
 replies, independence of transactions, and conservation of requests.
 */
module PsLaws {
  import opened Wire
  import opened PsTransactions
  import opened PsHistory

  // ----- records

  predicate WellFormed(t: Transaction) {
    && t.cl1Sk1.host != 0
    && (t.cl1Sk2.host == 0 || t.cl1Sk2.host == t.cl1Sk1.host)
    && t.cl2Sk1.host != t.cl1Sk1.host
    && (t.cl2Sk2.host == 0 || t.cl2Sk2.host == t.cl2Sk1.host)
  }

  lemma DescriptionWellFormed(h: seq<Request>)
    requires h != [] && Addressed(h)
    ensures WellFormed(Describe(h))
  {
    ClientLists(h);
    var a, b := Client1(h), Client2(h);
    assert a[0] in h && a[|a| - 1] in h;
    assert b != [] ==> b[0] in h && b[|b| - 1] in h;
  }

  lemma {:induction false} RecordsWellFormed(trace: seq<Request>, id: Id)
    requires Addressed(trace)
    requires id in Run(trace).pending
    ensures WellFormed(Run(trace).pending[id])
  {
    HistoryRefinement(trace, id);
    var h := Live(trace, id);
    forall i | 0 <= i < |h| ensures h[i].src.host != 0 {
      assert h[i] in trace;
    }
    DescriptionWellFormed(h);
  }

  /** The record holds nothing but the request `r`. */
  predicate OnlyHolds(t: Transaction, r: Request) {
    t == Transaction(r.src, Addr(0, 0), r.stamp, 0, Addr(0, 0), Addr(0, 0), 0, 0)
  }

  lemma OnlyHoldsOne(h: seq<Request>)
    requires h != [] && Addressed(h)
    ensures OnlyHolds(Describe(h), h[|h| - 1]) <==> |h| == 1
  {
    ClientLists(h);
    var k := |h| - 1;
    var p, r := h[..k], h[k];
    assert h == p + [r];
    if k == 0 {
      FreshDescription(r);
      assert h == [r];
    } else {
      DescribeExtends(p, r);
      assert p[0] == h[0];
      DescriptionWellFormed(p);
      assert Describe(p).cl2Sk1.host != 0 || Describe(p).cl2Sk1 == UNSET;
    }
  }

  /**
   When a record starts over: the next request for a pending id replaces the record exactly if it
   comes more than 30000 ms after the record's first stamp. At 30000 ms it still joins the record.
   */
  lemma {:induction false} StartsOver(trace: seq<Request>, r: Request)
    requires Addressed(trace + [r]) && r.id in Run(trace).pending
    ensures (r.id in Run(trace + [r]).pending && OnlyHolds(Run(trace + [r]).pending[r.id], r)) <==>
            Run(trace).pending[r.id].cl1Ts1 + 30000 < r.check
  {
    var h, g := Live(trace, r.id), Live(trace + [r], r.id);
    assert (trace + [r])[..|trace|] == trace;
    AddressedParts(trace, r);
    AddressedPrefix(trace + [r]);
    HistoryRefinement(trace, r.id);
    HistoryRefinement(trace + [r], r.id);
    ClientLists(h);
    if g != [] {
      OnlyHoldsOne(g);
    }
  }

  // ----- replies

  lemma {:induction false} FromClocked(h: seq<Request>, host: nat)
    requires Clocked(h)
    ensures Clocked(From(h, host))
  {
    if h != [] {
      var p, r := h[..|h| - 1], h[|h| - 1];
      var q := From(p, host);
      FromClocked(p, host);
      forall i | 0 <= i < |q| ensures q[i].stamp <= r.check {
        assert q[i] in p;
      }
      ClockedAppend(q, r);
    }
  }

  lemma ClockedAppend(h: seq<Request>, r: Request)
    requires Clocked(h) && r.check <= r.stamp
    requires forall i :: 0 <= i < |h| ==> h[i].stamp <= r.check
    ensures Clocked(h + [r])
  {
  }

  lemma {:induction false} LiveClocked(trace: seq<Request>, id: Id)
    requires Clocked(trace)
    ensures Clocked(Live(trace, id))
  {
    if trace != [] {
      var p, r := trace[..|trace| - 1], trace[|trace| - 1];
      var g := Live(p, id);
      LiveClocked(p, id);
      forall i | 0 <= i < |g| ensures g[i].stamp <= r.check {
        assert g[i] in p;
      }
      ClockedAppend(g, r);
      ClockedAppend([], r);
      assert [] + [r] == [r];
    }
  }

  /** The stamps of one client's requests are in order, between a first stamp and a last one. */
  predicate InOrder(q: seq<Request>, first: nat, last: nat) {
    q != [] && first <= q[0].stamp <= q[|q| - 1].stamp <= last
  }

  lemma FromInOrder(h: seq<Request>, host: nat)
    requires Clocked(h) && From(h, host) != []
    ensures InOrder(From(h, host), h[0].stamp, h[|h| - 1].stamp)
  {
    var q := From(h, host);
    FromClocked(h, host);
    var m := |q| - 1;
    StampsBetween(h, q[0]);
    StampsBetween(h, q[m]);
    assert m > 0 ==> q[0].stamp <= q[m].check <= q[m].stamp;
  }

  /**
   A request that completes its transaction: both clients' stamps are in order, none is older than
   the record or newer than the request, and the record is at most 30000 ms old.
   */
  lemma ReplyTimes(trace: seq<Request>, r: Request)
    requires Clocked(trace + [r])
    ensures CompletesNext(trace, r) ==> TimesInOrder(Live(trace, r.id) + [r], r)
  {
    if CompletesNext(trace, r) {
      var h := Live(trace, r.id) + [r];
      LiveClockedNext(trace, r);
      FromInOrder(h, h[0].src.host);
      FromInOrder(h, FirstOther(h, h[0].src.host).value.src.host);
      assert h[|h| - 1] == r;
      LoneRequestIncomplete(r);
    }
  }

  /** Both clients' stamps lie in order between the first request's stamp and `r`, in time for `r`. */
  predicate TimesInOrder(h: seq<Request>, r: Request)
    requires h != []
  {
    && InOrder(Client1(h), h[0].stamp, r.stamp)
    && InOrder(Client2(h), h[0].stamp, r.stamp)
    && r.check <= h[0].stamp + 30000
  }

  lemma LoneRequestIncomplete(r: Request)
    ensures !Completes([] + [r])
  {
    assert [] + [r] == [r];
  }

  lemma PrefixClocked(trace: seq<Request>, r: Request)
    requires Clocked(trace + [r])
    ensures Clocked(trace) && forall i :: 0 <= i < |trace| ==> trace[i].stamp <= r.check
  {
    var t := trace + [r];
    assert t[|trace|] == r;
    assert forall i :: 0 <= i < |trace| ==> trace[i] == t[i];
  }

  lemma LiveClockedNext(trace: seq<Request>, r: Request)
    requires Clocked(trace + [r])
    ensures Clocked(Live(trace, r.id) + [r])
  {
    PrefixClocked(trace, r);
    LiveClocked(trace, r.id);
    var g := Live(trace, r.id);
    forall i | 0 <= i < |g| ensures g[i].stamp <= r.check {
      assert g[i] in trace;
    }
    assert (trace + [r])[|trace|] == r;
  }

  lemma StampsBetween(h: seq<Request>, r: Request)
    requires Clocked(h) && r in h
    ensures h[0].stamp <= r.stamp <= h[|h| - 1].stamp
  {
    var i :| 0 <= i < |h| && h[i] == r;
    assert i > 0 ==> h[0].stamp <= h[i].check;
    assert i < |h| - 1 ==> h[i].stamp <= h[|h| - 1].check;
  }

  /** What a reply must look like, given the request that caused it to be sent. */
  predicate SoundReply(l: Logged) {
    l.send.msg.PsBindReply? ==>
      && l.send.socket == 0
      && l.send.msg.one.host == l.send.msg.two.host != 0
      && l.send.msg.one.host != l.send.to.host
      && l.send.msg.t1 <= l.send.msg.t2 <= l.cause.stamp
      && l.cause.check <= l.send.msg.t1 + 30000
  }

  lemma OwedRepliesAreSound(h: seq<Request>, r: Request)
    requires Completes(h) && Addressed(h)
    requires TimesInOrder(h, r)
    ensures forall s :: s in OwedReplies(h) ==> SoundReply(Logged(r, s))
  {
    DescriptionWellFormed(h);
    ReadyMeansTwoEach(h);
    var a, b := Client1(h), Client2(h);
    assert a[0] in h && b[0] in h;
  }

  lemma AddressedParts(trace: seq<Request>, r: Request)
    requires Addressed(trace + [r])
    ensures Addressed(trace) && r.src.host != 0 && Addressed(Live(trace, r.id) + [r])
  {
    var t := trace + [r];
    assert t[|trace|] == r;
    assert forall i :: 0 <= i < |trace| ==> t[i] == trace[i];
    var h := Live(trace, r.id);
    forall i | 0 <= i < |h| ensures h[i].src.host != 0 {
      assert h[i] in trace;
    }
  }

  lemma SendsAreSound(trace: seq<Request>, r: Request)
    requires Addressed(trace + [r]) && Clocked(trace + [r])
    ensures forall s :: s in Sends(Run(trace).pending, r) ==> SoundReply(Logged(r, s))
  {
    ExactCompletion(trace, r);
    if CompletesNext(trace, r) {
      ReplyTimes(trace, r);
      AddressedParts(trace, r);
      OwedRepliesAreSound(Live(trace, r.id) + [r], r);
    }
  }

  lemma NewEntriesAreSound(trace: seq<Request>, r: Request)
    requires Addressed(trace + [r]) && Clocked(trace + [r])
    ensures forall l :: l in Tag(r, Sends(Run(trace).pending, r)) ==> SoundReply(l)
  {
    SendsAreSound(trace, r);
    var sends := Sends(Run(trace).pending, r);
    forall i | 0 <= i < |sends| ensures SoundReply(Tag(r, sends)[i]) {
      assert sends[i] in sends;
    }
  }

  /** On every run, every reply names two endpoints of one other host and carries ordered stamps. */
  lemma {:induction false} EveryReplyIsSound(trace: seq<Request>)
    requires Addressed(trace) && Clocked(trace)
    ensures forall l :: l in Run(trace).log ==> SoundReply(l)
  {
    if trace != [] {
      var p, r := trace[..|trace| - 1], trace[|trace| - 1];
      assert trace == p + [r];
      AddressedParts(p, r);
      PrefixClocked(p, r);
      EveryReplyIsSound(p);
      NewEntriesAreSound(p, r);
    }
  }

  // ----- independence of transactions

  function Only(trace: seq<Request>, id: Id): seq<Request> {
    if trace == [] then []
    else
      var q := Only(trace[..|trace| - 1], id);
      if trace[|trace| - 1].id == id then q + [trace[|trace| - 1]] else q
  }

  function LogOf(log: seq<Logged>, id: Id): seq<Logged> {
    if log == [] then []
    else
      var q := LogOf(log[..|log| - 1], id);
      if log[|log| - 1].cause.id == id then q + [log[|log| - 1]] else q
  }

  lemma {:induction false} LogOfAppend(log: seq<Logged>, more: seq<Logged>, r: Request, id: Id)
    requires forall l :: l in more ==> l.cause == r
    ensures LogOf(log + more, id) == LogOf(log, id) + (if r.id == id then more else [])
  {
    if more == [] {
      assert log + more == log;
    } else {
      var k := |more| - 1;
      LogOfAppend(log, more[..k], r, id);
      assert (log + more)[..|log + more| - 1] == log + more[..k];
      assert more == more[..k] + [more[k]];
      assert more[k] in more;
    }
  }

  /** A request of another id changes nothing for `id`. */
  lemma OtherIdStep(s: State, r: Request, id: Id)
    requires r.id != id
    ensures Lookup(Step(s, r).pending, id) == Lookup(s.pending, id)
    ensures LogOf(Step(s, r).log, id) == LogOf(s.log, id)
  {
    LogOfAppend(s.log, Tag(r, Sends(s.pending, r)), r, id);
  }

  /** A request of the id itself has the same effect in two states that agree on that id. */
  lemma OwnIdStep(s: State, alone: State, r: Request)
    requires Lookup(s.pending, r.id) == Lookup(alone.pending, r.id)
    requires LogOf(s.log, r.id) == alone.log
    ensures Lookup(Step(s, r).pending, r.id) == Lookup(Step(alone, r).pending, r.id)
    ensures LogOf(Step(s, r).log, r.id) == Step(alone, r).log
  {
    LogOfAppend(s.log, Tag(r, Sends(s.pending, r)), r, r.id);
  }

  /** What the server keeps and sends for one id does not depend on any other id's requests. */
  lemma {:induction false} Projection(trace: seq<Request>, id: Id)
    ensures Lookup(Run(trace).pending, id) == Lookup(Run(Only(trace, id)).pending, id)
    ensures LogOf(Run(trace).log, id) == Run(Only(trace, id)).log
  {
    if trace != [] {
      var p, r := trace[..|trace| - 1], trace[|trace| - 1];
      Projection(p, id);
      var q := Only(p, id);
      if r.id == id {
        OwnIdStep(Run(p), Run(q), r);
        assert (q + [r])[..|q + [r]| - 1] == q;
      } else {
        OtherIdStep(Run(p), r, id);
      }
    }
  }

  // ----- conservation

  /** How many of the four endpoint slots of a record are filled. */
  function Filled(t: Transaction): nat {
    (if t.cl1Sk1.host != 0 then 1 else 0) + (if t.cl1Sk2.host != 0 then 1 else 0) +
    (if t.cl2Sk1.host != 0 then 1 else 0) + (if t.cl2Sk2.host != 0 then 1 else 0)
  }

  ghost function TotalFilled(pending: map<Id, Transaction>): nat
    decreases |pending|
  {
    if pending == map[] then 0
    else
      var id :| id in pending;
      Filled(pending[id]) + TotalFilled(pending - {id})
  }

  function FilledIn(rec: Option<Transaction>): nat {
    if rec.Some? then Filled(rec.value) else 0
  }

  lemma {:induction false} TotalFilledSplits(pending: map<Id, Transaction>, id: Id)
    ensures TotalFilled(pending) == FilledIn(Lookup(pending, id)) + TotalFilled(pending - {id})
    decreases |pending|
  {
    if id !in pending {
      assert pending - {id} == pending;
    } else {
      var k :| k in pending && TotalFilled(pending) == Filled(pending[k]) + TotalFilled(pending - {k});
      if k != id {
        TotalFilledSplits(pending - {k}, id);
        TotalFilledSplits(pending - {id}, k);
        assert pending - {k} - {id} == pending - {id} - {k};
      }
    }
  }

  /** The number of requests of the trace that completed a transaction. */
  function Completions(trace: seq<Request>): nat {
    if trace == [] then 0
    else
      var p, r := trace[..|trace| - 1], trace[|trace| - 1];
      Completions(p) + if CompletesNext(p, r) then 1 else 0
  }

  function Replies(log: seq<Logged>): nat {
    if log == [] then 0
    else Replies(log[..|log| - 1]) + if log[|log| - 1].send.msg.PsBindReply? then 1 else 0
  }

  function Acks(log: seq<Logged>): nat {
    if log == [] then 0
    else Acks(log[..|log| - 1]) + if log[|log| - 1].send.msg.Ack? then 1 else 0
  }

  lemma {:induction false} CountsAppend(log: seq<Logged>, more: seq<Logged>)
    ensures Replies(log + more) == Replies(log) + Replies(more)
    ensures Acks(log + more) == Acks(log) + Acks(more)
  {
    if more == [] {
      assert log + more == log;
    } else {
      CountsAppend(log, more[..|more| - 1]);
      assert (log + more)[..|log + more| - 1] == log + more[..|more| - 1];
    }
  }

  /** A request fills at most one slot net, and a completion gives back at least three. */
  lemma HandlePays(rec: Option<Transaction>, r: Request)
    requires r.src.host != 0
    requires rec.Some? ==> WellFormed(rec.value)
    ensures var o := Handle(rec, r);
            FilledIn(rec) + 1 >= FilledIn(o.left) + if o.replies == [] then 0 else 4
  {
    if rec.Some? && Handle(rec, r).replies != [] {
      assert rec.value.cl1Sk2.host != 0 && rec.value.cl2Sk1.host != 0;
    }
  }

  lemma TotalFilledStep(s: State, r: Request)
    ensures TotalFilled(Step(s, r).pending) + FilledIn(Lookup(s.pending, r.id)) ==
            TotalFilled(s.pending) + FilledIn(Handle(Lookup(s.pending, r.id), r).left)
  {
    var s' := Step(s, r);
    TotalFilledSplits(s.pending, r.id);
    TotalFilledSplits(s'.pending, r.id);
    assert s.pending - {r.id} == s'.pending - {r.id};
  }

  lemma SlotsOneStep(trace: seq<Request>, r: Request)
    requires Addressed(trace + [r])
    ensures TotalFilled(Run(trace).pending) + 1 >=
            TotalFilled(Step(Run(trace), r).pending) + if CompletesNext(trace, r) then 4 else 0
  {
    AddressedParts(trace, r);
    var s := Run(trace);
    if r.id in s.pending {
      RecordsWellFormed(trace, r.id);
    }
    HandlePays(Lookup(s.pending, r.id), r);
    TotalFilledStep(s, r);
    ExactCompletion(trace, r);
    assert CompletesNext(trace, r) ==> |Sends(s.pending, r)| == 3;
  }

  /** Every completion consumed four requests that no other completion or pending slot accounts for. */
  lemma {:induction false} SlotConservation(trace: seq<Request>)
    requires Addressed(trace)
    ensures |trace| >= 4 * Completions(trace) + TotalFilled(Run(trace).pending)
  {
    if trace != [] {
      var p, r := trace[..|trace| - 1], trace[|trace| - 1];
      assert trace == p + [r];
      AddressedParts(p, r);
      SlotConservation(p);
      SlotsOneStep(p, r);
    }
  }

  lemma SendsShape(trace: seq<Request>, r: Request)
    requires Addressed(trace + [r])
    ensures var sends := Sends(Run(trace).pending, r);
            && |sends| == (if CompletesNext(trace, r) then 3 else 1)
            && sends[0].msg.Ack?
            && forall i :: 1 <= i < |sends| ==> sends[i].msg.PsBindReply?
  {
    ExactCompletion(trace, r);
  }

  lemma RepliesOneStep(trace: seq<Request>, r: Request)
    requires Addressed(trace + [r])
    ensures var tagged := Tag(r, Sends(Run(trace).pending, r));
            && Acks(tagged) == 1
            && Replies(tagged) == if CompletesNext(trace, r) then 2 else 0
  {
    SendsShape(trace, r);
    CountOneStep(Tag(r, Sends(Run(trace).pending, r)));
  }

  /** Every completion produced exactly two replies and every request exactly one acknowledgement. */
  lemma {:induction false} ReplyConservation(trace: seq<Request>)
    requires Addressed(trace)
    ensures Replies(Run(trace).log) == 2 * Completions(trace)
    ensures Acks(Run(trace).log) == |trace|
  {
    if trace != [] {
      var p, r := trace[..|trace| - 1], trace[|trace| - 1];
      assert trace == p + [r];
      AddressedParts(p, r);
      ReplyConservation(p);
      RepliesOneStep(p, r);
      var s, s' := Run(p), Run(trace);
      CountsAppend(s.log, Tag(r, Sends(s.pending, r)));
      assert s'.log == s.log + Tag(r, Sends(s.pending, r));
    }
  }

  lemma CountOneStep(tagged: seq<Logged>)
    requires |tagged| == 1 || |tagged| == 3
    requires tagged[0].send.msg.Ack?
    requires forall i :: 1 <= i < |tagged| ==> tagged[i].send.msg.PsBindReply?
    ensures Acks(tagged) == 1 && Replies(tagged) == |tagged| - 1
  {
    var a := tagged[..1];
    assert a[..0] == [];
    if |tagged| == 3 {
      var b := tagged[..2];
      assert b[..1] == a;
      assert Acks(b) == 1 && Replies(b) == 1;
    } else {
      assert tagged == a;
    }
  }
}
