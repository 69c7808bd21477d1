/** The Unix domain socket `_send_message` talks through, reduced to the
    calls it makes (`connect`, `sendall`, `recv`, `close`). The daemon at the
    other end is a script: whether `connect` and `sendall` raise, and what
    each successive `recv` returns or raises. */
module Transport {
  import opened Values
  import opened Encoding

  /** What one `recv` call gives: some bytes (none when the peer has closed)
      or an exception such as a timeout. */
  datatype RecvEvent = Chunk(data: seq<byte>) | RecvFault(exc: Exception)

  /** The daemon's side of one connection. */
  datatype Peer = Peer(connectFault: Option<Exception>, sendFault: Option<Exception>, inbox: seq<RecvEvent>)

  /** What `connect(None)` raises: the plugin's address before `initialize`. */
  const NoAddress := TypeError(NotBuffer)

  class Socket {
    /** The daemon this socket reaches. */
    const peer: Peer
    /** What the remaining `recv` calls will give. */
    var inbox: seq<RecvEvent>
    var connectedTo: Option<string>
    /** Every byte written by `sendall` so far. */
    var sent: seq<byte>
    var closed: bool

    /** `socket.socket(AF_UNIX, SOCK_STREAM)`: a new, unconnected socket. */
    constructor (peer: Peer)
      ensures this.peer == peer && inbox == peer.inbox
      ensures connectedTo == None && sent == [] && !closed
    {
      this.peer := peer;
      inbox := peer.inbox;
      connectedTo := None;
      sent := [];
      closed := false;
    }

    /** `connect(address)`; a fault is the exception it raises. */
    method Connect(address: Option<string>) returns (fault: Option<Exception>)
      requires connectedTo.None? && !closed
      modifies this`connectedTo
      ensures fault == if address.None? then Some(NoAddress) else peer.connectFault
      ensures connectedTo == if fault.None? then address else None
    {
      if address.None? {
        fault := Some(NoAddress);
      } else {
        fault := peer.connectFault;
        if fault.None? {
          connectedTo := address;
        }
      }
    }

    /** `sendall(data)`: all of `data` is written, or it raises. */
    method SendAll(data: seq<byte>) returns (fault: Option<Exception>)
      requires connectedTo.Some? && !closed
      modifies this`sent
      ensures fault == peer.sendFault
      ensures sent == if fault.None? then old(sent) + data else old(sent)
    {
      fault := peer.sendFault;
      if fault.None? {
        sent := sent + data;
      }
    }

    /** `recv(16)`: the next event of the script. */
    method Recv() returns (e: RecvEvent)
      requires connectedTo.Some? && !closed && inbox != []
      modifies this`inbox
      ensures e == old(inbox)[0] && inbox == old(inbox)[1..]
    {
      e := inbox[0];
      inbox := inbox[1..];
    }

    /** `close()`. */
    method Close()
      modifies this`closed
      ensures closed
    {
      closed := true;
    }
  }
}
