/**
 The plain path of the rendezvous server: `bind_request`s are paired two by two. The map key used for
 a request is a parameter, because the source does not use the id it was sent: the request is
 overwritten with zeros before its id is read, so every request falls on key 0.
 */
module PlainRendezvous {
  import opened Wire

  datatype Request = Request(id: Id, src: Addr)

  /** The key as written: the id is read back from a message that has just been zeroed. */
  function ZeroedKey(id: Id): Id { 0 }

  /** The key as intended. */
  function OwnKey(id: Id): Id { id }

  function Sends(key: Id -> Id, waiting: map<Id, Addr>, r: Request): seq<Send> {
    var k := key(r.id);
    [Send(0, r.src, Ack)] +
    if k in waiting then [Send(0, r.src, BindReply(waiting[k])), Send(0, waiting[k], BindReply(r.src))]
    else []
  }

  function NextWaiting(key: Id -> Id, waiting: map<Id, Addr>, r: Request): map<Id, Addr> {
    var k := key(r.id);
    if k in waiting then waiting - {k} else waiting[k := r.src]
  }

  function Waiting(key: Id -> Id, trace: seq<Request>): map<Id, Addr> {
    if trace == [] then map[]
    else NextWaiting(key, Waiting(key, trace[..|trace| - 1]), trace[|trace| - 1])
  }

  /** The requests that fall on key `k`, in order. */
  function OnKey(key: Id -> Id, trace: seq<Request>, k: Id): (q: seq<Request>)
    ensures forall r :: r in q ==> r in trace && key(r.id) == k
  {
    if trace == [] then []
    else
      var q := OnKey(key, trace[..|trace| - 1], k);
      if key(trace[|trace| - 1].id) == k then q + [trace[|trace| - 1]] else q
  }

  /** The earlier request that `r` is paired with: the last one on its key, if they are odd in number. */
  function Partner(key: Id -> Id, trace: seq<Request>, r: Request): Option<Request> {
    var q := OnKey(key, trace, key(r.id));
    if |q| % 2 == 1 then Some(q[|q| - 1]) else None
  }

  /** After every run, a key waits exactly if an odd number of requests fell on it, and for the last. */
  lemma {:induction false} WaitingIsOddKeys(key: Id -> Id, trace: seq<Request>, k: Id)
    ensures var q := OnKey(key, trace, k);
            && (k in Waiting(key, trace) <==> |q| % 2 == 1)
            && (|q| % 2 == 1 ==> Waiting(key, trace)[k] == q[|q| - 1].src)
  {
    if trace != [] {
      WaitingIsOddKeys(key, trace[..|trace| - 1], k);
    }
  }

  /** Every step tells a request and its partner about each other, and nobody else about anything. */
  lemma {:induction false} StepPairsPartners(key: Id -> Id, trace: seq<Request>, r: Request)
    ensures var p := Partner(key, trace, r);
            Sends(key, Waiting(key, trace), r) ==
              [Send(0, r.src, Ack)] +
              if p.None? then []
              else [Send(0, r.src, BindReply(p.value.src)), Send(0, p.value.src, BindReply(r.src))]
  {
    WaitingIsOddKeys(key, trace, key(r.id));
  }

  /** The number of requests of the trace that were paired with an earlier one. */
  function Pairings(key: Id -> Id, trace: seq<Request>): nat {
    if trace == [] then 0
    else
      var p := trace[..|trace| - 1];
      Pairings(key, p) + if Partner(key, p, trace[|trace| - 1]).Some? then 1 else 0
  }

  /** Whatever the key, every request is in exactly one pairing or still waiting. */
  lemma {:induction false} PlainConservation(key: Id -> Id, trace: seq<Request>)
    ensures |trace| == 2 * Pairings(key, trace) + |Waiting(key, trace)|
  {
    if trace != [] {
      var p, r := trace[..|trace| - 1], trace[|trace| - 1];
      PlainConservation(key, p);
      WaitingIsOddKeys(key, p, key(r.id));
      var w, k := Waiting(key, p), key(r.id);
      if k in w {
        assert w == (w - {k})[k := w[k]];
      }
    }
  }

  ghost predicate Injective(key: Id -> Id) {
    forall a, b :: key(a) == key(b) ==> a == b
  }

  /** The server only ever introduces requests that carry the same transaction id. */
  ghost predicate PairsEqualIdsOnly(key: Id -> Id) {
    forall trace: seq<Request>, r: Request ::
      Partner(key, trace, r).Some? ==> Partner(key, trace, r).value.id == r.id
  }

  /** Pairing respects transaction ids on every run if and only if the key tells ids apart. */
  lemma PairingNeedsInjectiveKey(key: Id -> Id)
    ensures PairsEqualIdsOnly(key) <==> Injective(key)
  {
    if Injective(key) {
      forall trace: seq<Request>, r: Request | Partner(key, trace, r).Some?
        ensures Partner(key, trace, r).value.id == r.id
      {
        var q := OnKey(key, trace, key(r.id));
        assert q[|q| - 1] in q;
      }
    }
    if PairsEqualIdsOnly(key) {
      forall a, b | key(a) == key(b) ensures a == b {
        var first, second := Request(a, UNSET), Request(b, UNSET);
        SingleOnKey(key, first);
        assert Partner(key, [first], second) == Some(first);
      }
    }
  }

  lemma SingleOnKey(key: Id -> Id, r: Request)
    ensures OnKey(key, [r], key(r.id)) == [r]
  {
    assert [r][..0] == [];
  }

  /** As written, two requests with different ids are introduced to each other. */
  lemma ZeroedKeyPairsStrangers(a: Addr, b: Addr)
    ensures Partner(ZeroedKey, [Request(1, a)], Request(2, b)) == Some(Request(1, a))
    ensures !PairsEqualIdsOnly(ZeroedKey)
    ensures PairsEqualIdsOnly(OwnKey)
  {
    SingleOnKey(ZeroedKey, Request(1, a));
    PairingNeedsInjectiveKey(OwnKey);
  }

  lemma {:induction false} AllOnZeroedKey(trace: seq<Request>)
    ensures OnKey(ZeroedKey, trace, 0) == trace
  {
    if trace != [] {
      AllOnZeroedKey(trace[..|trace| - 1]);
    }
  }

  /** Every introduction of the run joins two requests that carry the same transaction id. */
  ghost predicate IntroducesEqualIds(key: Id -> Id, trace: seq<Request>) {
    forall k :: 0 <= k < |trace| && Partner(key, trace[..k], trace[k]).Some? ==>
      Partner(key, trace[..k], trace[k]).value.id == trace[k].id
  }

  predicate EqualIdsInTurn(trace: seq<Request>) {
    forall k :: 0 <= k < |trace| && k % 2 == 1 ==> trace[k - 1].id == trace[k].id
  }

  /**
   When the server as written pairs correctly: exactly on the runs in which every second request
   carries the id of the request before it.
   */
  lemma {:induction false} ZeroedKeyPairsInTurn(trace: seq<Request>)
    ensures IntroducesEqualIds(ZeroedKey, trace) <==> EqualIdsInTurn(trace)
  {
    forall k | 0 <= k < |trace|
      ensures Partner(ZeroedKey, trace[..k], trace[k]) == if k % 2 == 1 then Some(trace[k - 1]) else None
    {
      AllOnZeroedKey(trace[..k]);
    }
  }
}
