/**
 What the port-scan path promises over whole runs. A pending record is described from the requests
 that made it, without reference to the server's slots, and the server is shown to agree with that
 description after every run.
 */
module PsHistory {
  import opened Wire
  import opened PsTransactions

  /** The requests of `h` that came from `host`, in order. */
  function From(h: seq<Request>, host: nat): (q: seq<Request>)
    ensures |q| <= |h|
    ensures forall r :: r in q ==> r in h && r.src.host == host
  {
    if h == [] then []
    else
      var q := From(h[..|h| - 1], host);
      if h[|h| - 1].src.host == host then q + [h[|h| - 1]] else q
  }

  /** The first request of `h` that did not come from `host`, if any. */
  function FirstOther(h: seq<Request>, host: nat): (o: Option<Request>)
    ensures o.Some? ==> o.value in h && o.value.src.host != host
    ensures o.None? ==> forall r :: r in h ==> r.src.host == host
  {
    if h == [] then None
    else
      var o := FirstOther(h[..|h| - 1], host);
      if o.None? && h[|h| - 1].src.host != host then Some(h[|h| - 1]) else o
  }

  /** Client 1 is whoever sent the first request. */
  function Client1(h: seq<Request>): seq<Request>
    requires h != []
  {
    From(h, h[0].src.host)
  }

  /** Client 2 is whoever sent the first request from another host. */
  function Client2(h: seq<Request>): seq<Request>
    requires h != []
  {
    var o := FirstOther(h, h[0].src.host);
    if o.None? then [] else From(h, o.value.src.host)
  }

  function FirstSrc(q: seq<Request>): Addr { if q == [] then UNSET else q[0].src }
  function FirstStamp(q: seq<Request>): nat { if q == [] then 0 else q[0].stamp }
  function LatestSrc(q: seq<Request>): Addr { if |q| < 2 then UNSET else q[|q| - 1].src }
  function LatestStamp(q: seq<Request>): nat { if |q| < 2 then 0 else q[|q| - 1].stamp }

  /** The record that the requests `h` of one transaction ought to have built. */
  function Describe(h: seq<Request>): Transaction
    requires h != []
  {
    var a, b := Client1(h), Client2(h);
    Transaction(FirstSrc(a), LatestSrc(a), FirstStamp(a), LatestStamp(a),
                FirstSrc(b), LatestSrc(b), FirstStamp(b), LatestStamp(b))
  }

  /** The last request of `h` is not client 1's, and both clients have sent at least two. */
  predicate Completes(h: seq<Request>) {
    && h != []
    && h[|h| - 1].src.host != h[0].src.host
    && |Client1(h)| >= 2
    && |Client2(h)| >= 2
  }

  /** The first request of `h` is more than 30 seconds old. */
  predicate Expired(h: seq<Request>, r: Request) {
    h != [] && h[0].stamp + 30000 < r.check
  }

  /** The requests for `id` since its record was last created, expired or completed. */
  function Live(trace: seq<Request>, id: Id): (h: seq<Request>)
    ensures forall r :: r in h ==> r in trace && r.id == id
  {
    if trace == [] then []
    else
      var h := Live(trace[..|trace| - 1], id);
      var r := trace[|trace| - 1];
      if r.id != id then h
      else if Expired(h, r) then [r]
      else if Completes(h + [r]) then []
      else h + [r]
  }

  /** The request `r`, received after `trace`, completes its transaction in time. */
  predicate CompletesNext(trace: seq<Request>, r: Request) {
    var h := Live(trace, r.id);
    !Expired(h, r) && Completes(h + [r])
  }

  /** The replies owed to the two clients when `h` completes. */
  function OwedReplies(h: seq<Request>): seq<Send>
    requires Completes(h)
  {
    var a, b := Client1(h), Client2(h);
    [Send(0, a[0].src, PsBindReply(b[0].src, b[|b| - 1].src, b[0].stamp, b[|b| - 1].stamp)),
     Send(0, b[0].src, PsBindReply(a[0].src, a[|a| - 1].src, a[0].stamp, a[|a| - 1].stamp))]
  }

  // ----- one request

  lemma FromExtends(h: seq<Request>, r: Request, host: nat)
    ensures From(h + [r], host) == From(h, host) + (if r.src.host == host then [r] else [])
  {
    assert (h + [r])[..|h|] == h;
  }

  lemma FirstOtherExtends(h: seq<Request>, r: Request, host: nat)
    ensures FirstOther(h + [r], host) ==
            if FirstOther(h, host).Some? then FirstOther(h, host)
            else if r.src.host != host then Some(r) else None
  {
    assert (h + [r])[..|h|] == h;
  }

  lemma {:induction false} NoneFrom(h: seq<Request>, host: nat)
    requires forall r :: r in h ==> r.src.host != host
    ensures From(h, host) == []
  {
    if h != [] {
      assert h[|h| - 1] in h;
      NoneFrom(h[..|h| - 1], host);
    }
  }

  /** The two clients' request lists never share a request, and each list starts where it should. */
  lemma {:induction false} ClientLists(h: seq<Request>)
    requires h != []
    ensures Client1(h) != [] && Client1(h)[0] == h[0]
    ensures FirstOther(h, h[0].src.host).Some? ==>
              Client2(h) != [] && Client2(h)[0] == FirstOther(h, h[0].src.host).value
  {
    var k := |h| - 1;
    var p, r, host := h[..k], h[k], h[0].src.host;
    assert h == p + [r];
    FromExtends(p, r, host);
    FirstOtherExtends(p, r, host);
    if k == 0 {
      assert p == [];
    } else {
      ClientLists(p);
      var o := FirstOther(h, host);
      if o.Some? {
        FromExtends(p, r, o.value.src.host);
        if FirstOther(p, host).None? {
          NoneFrom(p, r.src.host);
        }
      }
    }
  }

  /** How one more request changes the description. */
  lemma DescribeExtends(h: seq<Request>, r: Request)
    requires h != [] && Addressed(h) && r.src.host != 0
    ensures var t, u := Describe(h), Describe(h + [r]);
            u == if r.src.host == h[0].src.host then t.(cl1Ts2 := r.stamp, cl1Sk2 := r.src)
                 else if t.cl2Sk1.host == 0 then t.(cl2Ts1 := r.stamp, cl2Sk1 := r.src)
                 else if t.cl2Sk1.host == r.src.host then t.(cl2Ts2 := r.stamp, cl2Sk2 := r.src)
                 else t
  {
    var host := h[0].src.host;
    ClientLists(h);
    ClientLists(h + [r]);
    FromExtends(h, r, host);
    FirstOtherExtends(h, r, host);
    var o := FirstOther(h, host);
    if o.Some? {
      FromExtends(h, r, o.value.src.host);
    } else if r.src.host != host {
      NoneFrom(h, r.src.host);
      FromExtends(h, r, r.src.host);
    }
  }

  /** The readiness test on the record is the counting test on the requests. */
  lemma ReadyMeansTwoEach(h: seq<Request>)
    requires h != [] && Addressed(h)
    ensures Ready(Describe(h)) <==> |Client1(h)| >= 2 && |Client2(h)| >= 2
    ensures Completes(h) ==> CrossedReplies(Describe(h)) == OwedReplies(h)
  {
    var a, b := Client1(h), Client2(h);
    assert |a| >= 2 ==> a[|a| - 1] in h;
    assert |b| >= 2 ==> b[|b| - 1] in h;
  }

  /** One step on a described record. */
  lemma HandleDescribed(h: seq<Request>, r: Request)
    requires h != [] && Addressed(h) && r.src.host != 0
    ensures Handle(Some(Describe(h)), r) ==
            if Expired(h, r) then Outcome(Some(Describe([r])), [])
            else if Completes(h + [r]) then Outcome(None, OwedReplies(h + [r]))
            else Outcome(Some(Describe(h + [r])), [])
  {
    ClientLists(h);
    ClientLists([r]);
    DescribeExtends(h, r);
    ReadyMeansTwoEach(h + [r]);
    FreshDescription(r);
  }

  lemma FreshDescription(r: Request)
    ensures Describe([r]) == NewTransaction(r)
  {
    FromExtends([], r, r.src.host);
    FirstOtherExtends([], r, r.src.host);
    assert [] + [r] == [r];
  }

  // ----- whole runs

  lemma AddressedPrefix(trace: seq<Request>)
    requires trace != [] && Addressed(trace)
    ensures Addressed(trace[..|trace| - 1]) && trace[|trace| - 1].src.host != 0
    ensures forall id :: Addressed(Live(trace, id)) && Addressed(Live(trace[..|trace| - 1], id))
  {
    var p := trace[..|trace| - 1];
    forall id, i | 0 <= i < |Live(trace, id)|
      ensures Live(trace, id)[i].src.host != 0
    {
      assert Live(trace, id)[i] in trace;
    }
    forall id, i | 0 <= i < |Live(p, id)|
      ensures Live(p, id)[i].src.host != 0
    {
      assert Live(p, id)[i] in p;
    }
  }

  function DescribeLive(h: seq<Request>): Option<Transaction> {
    if h == [] then None else Some(Describe(h))
  }

  /** After every run, each id's record is the description of its live requests, and vice versa. */
  lemma {:induction false} HistoryRefinement(trace: seq<Request>, id: Id)
    requires Addressed(trace)
    ensures Lookup(Run(trace).pending, id) == DescribeLive(Live(trace, id))
  {
    if trace != [] {
      var p, r := trace[..|trace| - 1], trace[|trace| - 1];
      AddressedPrefix(trace);
      HistoryRefinement(p, id);
      if r.id == id {
        var h := Live(p, id);
        FreshDescription(r);
        if h == [] {
          assert [] + [r] == [r];
          FirstOtherExtends([], r, r.src.host);
        } else {
          HandleDescribed(h, r);
        }
      }
    }
  }

  /**
   The datagrams of every step: the acknowledgement, and the crossed replies at exactly those
   requests that complete an unexpired live history.
   */
  lemma {:induction false} ExactCompletion(trace: seq<Request>, r: Request)
    requires Addressed(trace + [r])
    ensures Sends(Run(trace).pending, r) ==
            [Send(r.socket, r.src, Ack)] +
            if CompletesNext(trace, r) then OwedReplies(Live(trace, r.id) + [r]) else []
    ensures Run(trace + [r]).log == Run(trace).log + Tag(r, Sends(Run(trace).pending, r))
  {
    var t := trace + [r];
    assert t[..|t| - 1] == trace;
    AddressedPrefix(t);
    HistoryRefinement(trace, r.id);
    var h := Live(trace, r.id);
    if h == [] {
      assert [] + [r] == [r];
    } else {
      HandleDescribed(h, r);
    }
  }

  /** A live history has not completed at any earlier point: a completion is always the first one. */
  lemma {:induction false} LiveHasNotCompleted(trace: seq<Request>, id: Id, k: nat)
    requires k <= |Live(trace, id)|
    ensures !Completes(Live(trace, id)[..k])
  {
    if trace != [] && k > 0 {
      var p, r := trace[..|trace| - 1], trace[|trace| - 1];
      var h, g := Live(trace, id), Live(p, id);
      if r.id != id {
        LiveHasNotCompleted(p, id, k);
      } else if h == [r] && g != [] {
        assert h[..k] == [r];
      } else if k <= |g| {
        LiveHasNotCompleted(p, id, k);
        assert h[..k] == g[..k];
      } else {
        assert h[..k] == g + [r];
      }
    }
  }

  /**
   A request of client 1 never triggers the replies, even if it fills the last slot; a record left
   full in this way is completed by the next request in time from any other host, even a third one.
   */
  lemma FullRecordWaits(trace: seq<Request>, r: Request)
    requires Addressed(trace) && r.src.host != 0
    requires r.id in Run(trace).pending && Ready(Run(trace).pending[r.id])
    requires !Expired(Live(trace, r.id), r)
    ensures CompletesNext(trace, r) <==> r.src.host != Run(trace).pending[r.id].cl1Sk1.host
  {
    HistoryRefinement(trace, r.id);
    var h := Live(trace, r.id);
    forall i | 0 <= i < |h| ensures h[i].src.host != 0 {
      assert h[i] in trace;
    }
    ClientLists(h);
    ReadyMeansTwoEach(h);
    CountsGrow(h, r);
  }

  lemma CountsGrow(h: seq<Request>, r: Request)
    requires h != [] && |Client2(h)| > 0
    ensures |Client1(h + [r])| >= |Client1(h)| && |Client2(h + [r])| >= |Client2(h)|
  {
    var host := h[0].src.host;
    FromExtends(h, r, host);
    FirstOtherExtends(h, r, host);
    FromExtends(h, r, FirstOther(h, host).value.src.host);
  }
}
