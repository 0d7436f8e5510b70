/**
 The port-scan path of the rendezvous server: one step of the server on a `ps_bind_request`,
 and the run of the server on a sequence of such requests.
 */
module PsTransactions {
  import opened Wire

  const EXPIRY_MS := 30000

  /** `ps_transaction_t`: two endpoints and two time stamps for each of two clients. */
  datatype Transaction = Transaction(
    cl1Sk1: Addr, cl1Sk2: Addr, cl1Ts1: nat, cl1Ts2: nat,
    cl2Sk1: Addr, cl2Sk2: Addr, cl2Ts1: nat, cl2Ts2: nat)

  /**
   A `ps_bind_request` as received: its transaction id, its source, the server socket it came in on,
   and the two clock readings the server takes, one for the expiry test and one for the time stamp.
   */
  datatype Request = Request(id: Id, src: Addr, socket: nat, check: nat, stamp: nat)

  datatype Outcome = Outcome(left: Option<Transaction>, replies: seq<Send>)

  function NewTransaction(r: Request): Transaction {
    Transaction(r.src, UNSET, r.stamp, 0, UNSET, UNSET, 0, 0)
  }

  /** The two crossed replies, both sent through the first socket. */
  function CrossedReplies(t: Transaction): seq<Send> {
    [Send(0, t.cl1Sk1, PsBindReply(t.cl2Sk1, t.cl2Sk2, t.cl2Ts1, t.cl2Ts2)),
     Send(0, t.cl2Sk1, PsBindReply(t.cl1Sk1, t.cl1Sk2, t.cl1Ts1, t.cl1Ts2))]
  }

  predicate Ready(t: Transaction) {
    t.cl2Sk2.host != 0 && t.cl1Sk2.host != 0
  }

  /** What the request does to the record of its own id. */
  function Handle(rec: Option<Transaction>, r: Request): Outcome {
    match rec
    case None => Outcome(Some(NewTransaction(r)), [])
    case Some(t) =>
      if t.cl1Ts1 + EXPIRY_MS < r.check then
        Outcome(Some(NewTransaction(r)), [])
      else if t.cl1Sk1.host == r.src.host then
        Outcome(Some(t.(cl1Ts2 := r.stamp, cl1Sk2 := r.src)), [])
      else
        var u :=
          if t.cl2Sk1.host == 0 then t.(cl2Ts1 := r.stamp, cl2Sk1 := r.src)
          else if t.cl2Sk1.host == r.src.host then t.(cl2Ts2 := r.stamp, cl2Sk2 := r.src)
          else t;
        if Ready(u) then Outcome(None, CrossedReplies(u)) else Outcome(Some(u), [])
  }

  /** A datagram sent by the server, with the request that caused it. */
  datatype Logged = Logged(cause: Request, send: Send)

  datatype State = State(pending: map<Id, Transaction>, log: seq<Logged>)

  const START := State(map[], [])

  function Lookup(pending: map<Id, Transaction>, id: Id): Option<Transaction> {
    if id in pending then Some(pending[id]) else None
  }

  function Store(pending: map<Id, Transaction>, id: Id, rec: Option<Transaction>): map<Id, Transaction> {
    match rec
    case None => pending - {id}
    case Some(t) => pending[id := t]
  }

  function Tag(cause: Request, sends: seq<Send>): (tagged: seq<Logged>)
    ensures |tagged| == |sends|
    ensures forall i :: 0 <= i < |sends| ==> tagged[i] == Logged(cause, sends[i])
  {
    seq(|sends|, i requires 0 <= i < |sends| => Logged(cause, sends[i]))
  }

  /** All datagrams the server sends on one request: the acknowledgement first, then any replies. */
  function Sends(pending: map<Id, Transaction>, r: Request): seq<Send> {
    [Send(r.socket, r.src, Ack)] + Handle(Lookup(pending, r.id), r).replies
  }

  function Step(s: State, r: Request): State {
    State(
      Store(s.pending, r.id, Handle(Lookup(s.pending, r.id), r).left),
      s.log + Tag(r, Sends(s.pending, r)))
  }

  function Run(trace: seq<Request>): State {
    if trace == [] then START
    else Step(Run(trace[..|trace| - 1]), trace[|trace| - 1])
  }

  /** A source address is never 0.0.0.0. */
  predicate Addressed(trace: seq<Request>) {
    forall i :: 0 <= i < |trace| ==> trace[i].src.host != 0
  }

  /** The clock does not run backwards, within a step or from one step to the next. */
  predicate Clocked(trace: seq<Request>) {
    && (forall i :: 0 <= i < |trace| ==> trace[i].check <= trace[i].stamp)
    && (forall i, j :: 0 <= i < j < |trace| ==> trace[i].stamp <= trace[j].check)
  }
}
