/**
 * What the daemon and the client see of the network: the one-byte control
 * messages, and the outcome of trying to connect to each address that an
 * address lookup (getaddrinfo) returned, in list order.
 */
module Wire {
  import opened Wrappers

  type Byte = b: int | 0 <= b < 0x100

  /** 'C': the client asks for the tunnel; also the daemon's acknowledgement. */
  const Connect: Byte := 0x43
  /** 'D': the client releases the tunnel; also the daemon's acknowledgement. */
  const Disconnect: Byte := 0x44

  /** A socket descriptor. */
  type Fd = nat

  /** One address of a lookup result, and what happened when it was tried. */
  datatype Attempt =
    | NoSocket          // socket() returned -1; the next address is tried
    | Refused(fd: Fd)   // socket() gave fd, connect() returned -1; fd is closed
    | Connected(fd: Fd) // socket() gave fd and connect() succeeded

  /** Some address of the list accepts a connection. */
  predicate Reachable(addrs: seq<Attempt>) {
    exists i | 0 <= i < |addrs| :: addrs[i].Connected?
  }

  /** The socket of the first address, in list order, that accepts a connection. */
  function ConnectedSocket(addrs: seq<Attempt>): Option<Fd> {
    if addrs == [] then None
    else if addrs[0].Connected? then Some(addrs[0].fd)
    else ConnectedSocket(addrs[1..])
  }

  /** ConnectedSocket finds a socket exactly when some address connects, and it is the first one's. */
  lemma {:induction false} ConnectedSocketIsFirst(addrs: seq<Attempt>)
    ensures ConnectedSocket(addrs).Some? <==> Reachable(addrs)
    ensures ConnectedSocket(addrs).Some? ==>
      exists i :: 0 <= i < |addrs| && addrs[i] == Connected(ConnectedSocket(addrs).value) &&
        forall j :: 0 <= j < i ==> !addrs[j].Connected?
  {
    if addrs != [] && !addrs[0].Connected? {
      ConnectedSocketIsFirst(addrs[1..]);
      if Reachable(addrs) {
        var i :| 0 <= i < |addrs| && addrs[i].Connected?;
        assert addrs[1..][i - 1].Connected?;
      }
      if ConnectedSocket(addrs).Some? {
        var i :| 0 <= i < |addrs[1..]| && addrs[1..][i] == Connected(ConnectedSocket(addrs).value) &&
          forall j :: 0 <= j < i ==> !addrs[1..][j].Connected?;
        assert addrs[i + 1] == Connected(ConnectedSocket(addrs).value);
        forall j | 0 <= j < i + 1 ensures !addrs[j].Connected? {
          if j > 0 { assert addrs[j] == addrs[1..][j - 1]; }
        }
      }
    } else if addrs != [] {
      assert addrs[0] == Connected(ConnectedSocket(addrs).value);
    }
  }
}
