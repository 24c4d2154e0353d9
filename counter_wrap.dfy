/**
 * The accept loop with its counter exactly as declared in tunneld_main: an
 * unsigned int n_connected, so `n_connected -= 1` at 0 wraps to 2^32 - 1,
 * and a pid_t ssh_tunnel_process where 0 means no tunnel. Arbiter.Step is
 * the corrected arbiter, which keeps the count at 0 instead; the two agree
 * everywhere else.
 */
module CounterWrap {
  import opened Wrappers
  import opened Wire
  import opened Arbiter

  const UintMax: int := 0xFFFF_FFFF

  type Uint = n: int | 0 <= n <= UintMax

  datatype RawState = RawState(nConnected: Uint, process: int)

  datatype RawTransition = RawTransition(state: RawState, events: seq<Event>, outcome: Outcome)

  /** Unsigned 32-bit arithmetic: the result is reduced modulo 2^32. */
  function Wrap(n: int): Uint {
    n % (UintMax + 1)
  }

  /** One connection, as the accept loop is written. */
  function StepAsWritten(s: RawState, c: Conn): (t: RawTransition)
    ensures t.outcome != Serving ==> c.Connection? && c.msg == Some(Connect) && s.nConnected == 0
    ensures c.Connection? && c.msg == Some(Disconnect) ==>
      (t.state.nConnected == 0 <==> s.nConnected == 1) && (t.state.process == 0 <==> s.nConnected == 1 || s.process == 0)
  {
    match c
    case AcceptFailed => RawTransition(s, [], Serving)
    case Connection(msg, pid, probes) =>
      if msg == Some(Connect) then
        if s.nConnected == 0 then
          var p := Poll(probes);
          if p.outcome == Serving then
            RawTransition(RawState(1, pid), [Started(pid)] + p.events + [Sent(Connect), Closed], Serving)
          else
            RawTransition(RawState(0, pid), [Started(pid)] + p.events, p.outcome)
        else
          RawTransition(RawState(Wrap(s.nConnected + 1), s.process), [Sent(Connect), Closed], Serving)
      else if msg == Some(Disconnect) then
        var n := Wrap(s.nConnected - 1);
        if n <= 0 then
          RawTransition(RawState(0, 0), [Stopped(s.process), Sent(Disconnect), Closed], Serving)
        else
          RawTransition(RawState(n, s.process), [Sent(Disconnect), Closed], Serving)
      else
        RawTransition(s, [Closed], Serving)
  }

  /** The C encoding of a model state. */
  function Raw(s: State): (r: RawState)
    requires s.count <= UintMax
    ensures r.nConnected == s.count && (r.process == 0 <==> s.tunnel.None?)
  {
    RawState(s.count, if s.tunnel.Some? then s.tunnel.value else 0)
  }

  /**
   * The code as written and the corrected arbiter agree on every
   * connection except a 'D' at count 0 (and an increment past 2^32 - 1).
   */
  lemma AgreesUnlessUnderflow(s: State, c: Conn)
    requires Valid(s) && s.count < UintMax
    requires !(c.Connection? && c.msg == Some(Disconnect) && s.count == 0)
    ensures Step(s, c).state.count <= UintMax
    ensures StepAsWritten(Raw(s), c) ==
      RawTransition(Raw(Step(s, c).state), Step(s, c).events, Step(s, c).outcome)
  {
  }

  /**
   * As written, an unmatched 'D' wraps the counter to 2^32 - 1 with no
   * tunnel running; the next 'C' then skips the start (the count is not
   * 0), wraps the count back to 0 and acknowledges 'C' although no tunnel
   * runs.
   */
  lemma UnmatchedDisconnectAcksWithoutTunnel(pid: Pid, probes: seq<Option<seq<Attempt>>>)
    ensures StepAsWritten(RawState(0, 0), Connection(Some(Disconnect), pid, probes)) ==
      RawTransition(RawState(UintMax, 0), [Sent(Disconnect), Closed], Serving)
    ensures StepAsWritten(RawState(UintMax, 0), Connection(Some(Connect), pid, probes)) ==
      RawTransition(RawState(0, 0), [Sent(Connect), Closed], Serving)
  {
  }
}
