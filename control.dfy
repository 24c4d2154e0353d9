/**
 * The client's control codec, ssh-tunnelc/control.c: connect to the daemon,
 * send one request byte, and succeed only when the daemon echoes it.
 */
module Control {
  import opened Wrappers
  import opened Wire
  import opened Getopt

  /**
   * What the client's calls into the network return: the address lookup for
   * a host and port (None when getaddrinfo fails), the value send() returns,
   * and the byte recv() delivers (None when recv() does not return exactly 1).
   */
  datatype Network = Network(
    resolve: (CString, CString) -> Option<seq<Attempt>>,
    sent: int,
    reply: Option<Byte>)

  /** What the client does on a socket. */
  datatype Op = Send(fd: Fd, b: Byte) | Close(fd: Fd)

  /** The socket a connection to host:port ends up on, if any. */
  function Socket(net: Network, host: CString, port: CString): Option<Fd> {
    match net.resolve(host, port)
    case None => None
    case Some(addrs) => ConnectedSocket(addrs)
  }

  /** The daemon at host:port received `message` and echoed it. */
  predicate Delivered(net: Network, host: CString, port: CString, message: Byte) {
    Socket(net, host, port).Some? && net.sent == 1 && net.reply == Some(message)
  }

  /**
   * establish_connection: looks host:port up and tries the addresses in order.
   * Returns the socket of the first address that connects, or -1 when none
   * does; a failed lookup ends the process.
   */
  method EstablishConnection(lookup: Option<seq<Attempt>>) returns (r: Status<int>)
    ensures lookup.None? <==> r == ExitFailure
    ensures lookup.Some? ==> (r == Return(-1) <==> !Reachable(lookup.value))
    ensures lookup.Some? && r != Return(-1) ==>
      r.value >= 0 && ConnectedSocket(lookup.value) == Some(r.value as Fd) &&
      exists i :: 0 <= i < |lookup.value| && lookup.value[i] == Connected(r.value as Fd) &&
        forall j :: 0 <= j < i ==> !lookup.value[j].Connected?
  {
    if lookup.None? {
      return ExitFailure;
    }
    var addrs := lookup.value;
    ConnectedSocketIsFirst(addrs);
    var socketFd: int := -1;
    var i := 0;
    while i < |addrs|
      invariant 0 <= i <= |addrs|
      invariant forall j :: 0 <= j < i ==> !addrs[j].Connected?
      invariant ConnectedSocket(addrs[i..]) == ConnectedSocket(addrs)
    {
      if addrs[i].Connected? {
        socketFd := addrs[i].fd;
        break;
      }
      // NoSocket: try the next address; Refused: its socket is closed first
      assert addrs[i..][1..] == addrs[i + 1..];
      i := i + 1;
    }
    if i == |addrs| {
      assert !Reachable(addrs);
      socketFd := -1;
    }
    r := Return(socketFd);
  }

  /**
   * send_message: connect to the daemon, send the one-byte message, read the
   * one-byte reply and close the socket. Every failure along the way ends the
   * process (r == ExitFailure): no connection, a send that does not transmit
   * exactly one byte, a recv that does not return exactly one byte, or a reply
   * other than the message. `ops` is what the client did on the socket.
   */
  method SendMessage(host: CString, port: CString, message: Byte, net: Network)
    returns (r: Status<()>, ops: seq<Op>)
    ensures r.Return? <==> Delivered(net, host, port, message)
    ensures Socket(net, host, port).None? ==> ops == []
    ensures Socket(net, host, port).Some? ==>
      var fd := Socket(net, host, port).value;
      ops == if r.Return? then [Send(fd, message), Close(fd)] else [Send(fd, message)]
  {
    if net.resolve(host, port).Some? {
      ConnectedSocketIsFirst(net.resolve(host, port).value);
    }
    var socketFd := EstablishConnection(net.resolve(host, port));
    if socketFd.ExitFailure? || socketFd.value == -1 {
      return ExitFailure, [];
    }
    var fd := socketFd.value as Fd;
    ops := [Send(fd, message)];
    if net.sent != 1 {
      return ExitFailure, ops;
    }
    if net.reply.None? {
      return ExitFailure, ops;
    }
    var buffer := net.reply.value;
    if buffer != message {
      return ExitFailure, ops;
    }
    ops := ops + [Close(fd)];
    r := Return(());
  }

  /** connection_start: ask the daemon at host:port for the tunnel with 'C'. */
  method ConnectionStart(host: CString, port: CString, net: Network) returns (r: Status<()>, ops: seq<Op>)
    ensures r.Return? <==> Delivered(net, host, port, Connect)
    ensures Socket(net, host, port).None? ==> ops == []
    ensures Socket(net, host, port).Some? ==>
      |ops| >= 1 && ops[..1] == [Send(Socket(net, host, port).value, Connect)] &&
      ops[1..] == if r.Return? then [Close(Socket(net, host, port).value)] else []
  {
    r, ops := SendMessage(host, port, Connect, net);
  }

  /** connection_stop: release the tunnel at the daemon at host:port with 'D'. */
  method ConnectionStop(host: CString, port: CString, net: Network) returns (r: Status<()>, ops: seq<Op>)
    ensures r.Return? <==> Delivered(net, host, port, Disconnect)
    ensures Socket(net, host, port).None? ==> ops == []
    ensures Socket(net, host, port).Some? ==>
      |ops| >= 1 && ops[..1] == [Send(Socket(net, host, port).value, Disconnect)] &&
      ops[1..] == if r.Return? then [Close(Socket(net, host, port).value)] else []
  {
    r, ops := SendMessage(host, port, Disconnect, net);
  }
}
