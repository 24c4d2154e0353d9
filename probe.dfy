/** The daemon's readiness probe, test_connection in ssh-tunneld/ssh-tunneld.c. */
module Probe {
  import opened Wrappers
  import opened Wire

  /**
   * Looks up 127.0.0.1:proxy_port (`lookup`, None when getaddrinfo fails)
   * and tries the addresses in order until one connects. Returns 0 when the
   * tunnel's local endpoint is reachable and 1 when it is not (note the
   * inverted sense); a failed lookup ends the daemon.
   */
  method TestConnection(lookup: Option<seq<Attempt>>) returns (r: Status<int>)
    ensures lookup.None? <==> r == ExitFailure
    ensures lookup.Some? ==> (r == Return(0) <==> Reachable(lookup.value))
    ensures lookup.Some? ==> (r == Return(1) <==> !Reachable(lookup.value))
  {
    if lookup.None? {
      return ExitFailure;
    }
    var addrs := lookup.value;
    var i := 0;
    while i < |addrs|
      invariant 0 <= i <= |addrs|
      invariant forall j :: 0 <= j < i ==> !addrs[j].Connected?
    {
      if addrs[i].Connected? {
        break;
      }
      // NoSocket: try the next address; Refused: its socket is closed first
      i := i + 1;
    }
    if i == |addrs| {
      r := Return(1);
    } else {
      // the connected socket is closed again straight away
      r := Return(0);
    }
  }
}
