/** The wire protocol shared by the rendezvous server and the clients, as values. */
module Wire {

  datatype Option<+T> = None | Some(value: T)

  type Port = p: int | 0 <= p < 0x1_0000
  type Id = i: int | 0 <= i < 0x1_0000_0000

  /** Conversion of an integer to `uint16_t`. */
  function Wrap16(x: int): Port {
    x % 0x1_0000
  }

  /** An IPv4 endpoint. The source marks an endpoint that was never filled in by host 0. */
  datatype Addr = Addr(host: nat, port: Port)

  const UNSET := Addr(0, 0)

  datatype Message =
    | BindRequest(id: Id)
    | BindReply(peer: Addr)
    | PsBindRequest(id: Id)
    | PsBindReply(one: Addr, two: Addr, t1: nat, t2: nat)
    | ClientBindRequest(id: Id)
    | ClientBindResponse(id: Id)
    | Ack
    | Heartbeat

  /** One call of `sendto`: the local socket it leaves through, its destination and its content. */
  datatype Send = Send(socket: nat, to: Addr, msg: Message)

  datatype ConnectResult =
    | Invalid
    | FailedNoServerMatchInTime
    | Successful
    | Failed
    | Error
}
