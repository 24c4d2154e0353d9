/**
 * The connection arbiter of ssh-tunneld: the body of the accept loop in
 * tunneld_main (ssh-tunneld/ssh-tunneld.c). It keeps the number of clients
 * using the tunnel and the process handle of the running ssh tunnel, and
 * serves one control connection at a time.
 *
 * Starting and stopping the ssh process, sleeping, probing, replying and
 * closing are recorded as events of a trace, so that their order can be
 * stated. The specification is the pair of functions Step (one connection)
 * and Run (a sequence of connections); the class Daemon is the imperative
 * loop proved against them.
 */
module Arbiter {
  import opened Wrappers
  import opened Wire
  import Probe

  /** A process id returned to the parent by fork(); always positive. */
  type Pid = p: int | p > 0 witness 1

  /** What the arbiter does, in the order it does it. */
  datatype Event =
    | Started(pid: Pid)         // start_ssh_tunnel returned pid
    | Slept                     // sleep(1) in the readiness loop
    | Probed(reachable: bool)   // test_connection returned 0 (reachable) or 1
    | Stopped(handle: int)      // stop_ssh_tunnel(handle); as written, the handle can be 0
    | Sent(b: Byte)             // one-byte reply to the client
    | Closed                    // close(new_fd)

  /**
   * One turn of the accept loop, with everything the environment decides:
   * whether accept() failed, the byte recv() delivered (None when it did not
   * return exactly one byte), the pid start_ssh_tunnel would return, and the
   * address lookups that successive test_connection calls would see.
   */
  datatype Conn =
    | AcceptFailed
    | Connection(msg: Option<Byte>, pid: Pid, probes: seq<Option<seq<Attempt>>>)

  /**
   * Serving: the connection was handled and the loop goes on.
   * Polling: the given probe answers ran out while the daemon was still
   *          waiting for the tunnel (the source would keep polling).
   * Exited:  the daemon terminated (a probe's address lookup failed).
   */
  datatype Outcome = Serving | Polling | Exited

  /** n_connected and ssh_tunnel_process; None stands for the handle 0. */
  datatype State = State(count: nat, tunnel: Option<Pid>)

  /** The daemon's invariant: a tunnel is running exactly when some client uses it. */
  predicate Valid(s: State) {
    s.tunnel.Some? <==> s.count > 0
  }

  datatype Transition = Transition(state: State, events: seq<Event>, outcome: Outcome)

  datatype PollResult = PollResult(events: seq<Event>, outcome: Outcome)

  /** The readiness loop: sleep, then probe, until a probe reports the endpoint reachable. */
  function Poll(probes: seq<Option<seq<Attempt>>>): (p: PollResult)
    ensures p.events == [] <==> probes == []
    ensures probes != [] ==> p.events[0] == Slept
    ensures p.outcome == Serving ==> p.events != [] && p.events[|p.events| - 1] == Probed(true)
  {
    if probes == [] then PollResult([], Polling)
    else if probes[0].None? then PollResult([Slept], Exited)
    else if Reachable(probes[0].value) then PollResult([Slept, Probed(true)], Serving)
    else
      var rest := Poll(probes[1..]);
      PollResult([Slept, Probed(false)] + rest.events, rest.outcome)
  }

  /**
   * One connection. A 'D' at count 0 leaves the count at 0 and stops
   * nothing; the source instead wraps its unsigned counter (see CounterWrap).
   */
  function Step(s: State, c: Conn): (t: Transition)
    requires Valid(s)
    ensures t.outcome == Serving ==> Valid(t.state)
    ensures t.outcome != Serving ==> c.Connection? && c.msg == Some(Connect) && s.count == 0
  {
    match c
    case AcceptFailed => Transition(s, [], Serving)
    case Connection(msg, pid, probes) =>
      if msg == Some(Connect) then
        if s.count == 0 then
          var p := Poll(probes);
          if p.outcome == Serving then
            Transition(State(1, Some(pid)), [Started(pid)] + p.events + [Sent(Connect), Closed], Serving)
          else
            Transition(State(0, Some(pid)), [Started(pid)] + p.events, p.outcome)
        else
          Transition(State(s.count + 1, s.tunnel), [Sent(Connect), Closed], Serving)
      else if msg == Some(Disconnect) then
        if s.count == 0 then
          Transition(s, [Sent(Disconnect), Closed], Serving)
        else if s.count == 1 then
          Transition(State(0, None), [Stopped(s.tunnel.value), Sent(Disconnect), Closed], Serving)
        else
          Transition(State(s.count - 1, s.tunnel), [Sent(Disconnect), Closed], Serving)
      else
        Transition(s, [Closed], Serving)
  }

  /** The accept loop over a sequence of connections; it ends early when a connection does not complete. */
  function Run(s: State, cs: seq<Conn>): (r: Transition)
    requires Valid(s)
    ensures r.outcome == Serving ==> Valid(r.state)
    decreases |cs|
  {
    if cs == [] then Transition(s, [], Serving)
    else
      var t := Step(s, cs[0]);
      if t.outcome != Serving then t
      else
        var rest := Run(t.state, cs[1..]);
        Transition(rest.state, t.events + rest.events, rest.outcome)
  }

  /** Run unfolded once: the first connection, then the rest when the daemon goes on serving. */
  lemma RunFirst(s: State, cs: seq<Conn>)
    requires Valid(s) && cs != []
    ensures Step(s, cs[0]).outcome != Serving ==> Run(s, cs) == Step(s, cs[0])
    ensures Step(s, cs[0]).outcome == Serving ==>
              Run(s, cs) == Transition(Run(Step(s, cs[0]).state, cs[1..]).state,
                                       Step(s, cs[0]).events + Run(Step(s, cs[0]).state, cs[1..]).events,
                                       Run(Step(s, cs[0]).state, cs[1..]).outcome)
  {
  }

  /** Concatenation of traces is associative. */
  lemma Associative(a: seq<Event>, b: seq<Event>, c: seq<Event>)
    ensures (a + b) + c == a + (b + c)
  {
  }

  /** The daemon's state, owned by the accept loop. */
  class Daemon {
    var count: nat
    var tunnel: Option<Pid>
    ghost var trace: seq<Event>

    ghost function Current(): State
      reads this
    {
      State(count, tunnel)
    }

    ghost predicate Inv()
      reads this
    {
      Valid(Current())
    }

    /** n_connected = 0, ssh_tunnel_process = 0. */
    constructor ()
      ensures Inv() && count == 0 && tunnel == None && trace == []
    {
      count := 0;
      tunnel := None;
      trace := [];
    }

    /** One turn of the accept loop. */
    method Handle(c: Conn) returns (outcome: Outcome)
      requires Inv()
      modifies this
      ensures Current() == Step(old(Current()), c).state
      ensures trace == old(trace) + Step(old(Current()), c).events
      ensures outcome == Step(old(Current()), c).outcome
      ensures outcome == Serving ==> Inv()
    {
      if c.AcceptFailed? {
        return Serving;
      }
      var msg := c.msg;
      if msg.None? {
        // a read that is not exactly one byte: close without a reply
        trace := trace + [Closed];
        return Serving;
      }
      if msg.value == Connect {
        if count == 0 {
          tunnel := Some(c.pid);
          trace := trace + [Started(c.pid)];
          outcome := AwaitReady(c.probes);
          if outcome != Serving {
            return;
          }
        }
        count := count + 1;
        trace := trace + [Sent(Connect), Closed];
      } else if msg.value == Disconnect {
        if count > 0 {
          count := count - 1;
          if count == 0 {
            trace := trace + [Stopped(tunnel.value)];
            tunnel := None;
          }
        }
        trace := trace + [Sent(Disconnect), Closed];
      } else {
        trace := trace + [Closed];
      }
      outcome := Serving;
    }

    /** do { sleep(1); } while (test_connection(proxy_port)); */
    method AwaitReady(probes: seq<Option<seq<Attempt>>>) returns (outcome: Outcome)
      modifies this`trace
      ensures trace == old(trace) + Poll(probes).events
      ensures outcome == Poll(probes).outcome
    {
      var k := 0;
      var again := true;
      while again
        invariant 0 <= k <= |probes|
        invariant again ==> trace + Poll(probes[k..]).events == old(trace) + Poll(probes).events
        invariant again ==> Poll(probes[k..]).outcome == Poll(probes).outcome
        invariant !again ==> trace == old(trace) + Poll(probes).events && Poll(probes).outcome == Serving
        decreases |probes| - k, again
      {
        if k == |probes| {
          // no further probe answers: the daemon is still waiting
          return Polling;
        }
        assert probes[k..][1..] == probes[k + 1..];
        trace := trace + [Slept];
        var r := Probe.TestConnection(probes[k]);
        if r == ExitFailure {
          return Exited;
        }
        again := r != Return(0);
        trace := trace + [Probed(!again)];
        k := k + 1;
      }
      outcome := Serving;
    }

    /** The while(1) accept loop, over the connections that arrive. */
    method Serve(cs: seq<Conn>) returns (outcome: Outcome)
      requires Inv()
      modifies this
      ensures Current() == Run(old(Current()), cs).state
      ensures trace == old(trace) + Run(old(Current()), cs).events
      ensures outcome == Run(old(Current()), cs).outcome
    {
      ghost var goal := Run(Current(), cs);
      ghost var all := trace + goal.events;
      ghost var pending := goal.events;
      var i := 0;
      outcome := Serving;
      while i < |cs|
        invariant 0 <= i <= |cs|
        invariant Inv() && outcome == Serving
        invariant Run(Current(), cs[i..]).state == goal.state
        invariant Run(Current(), cs[i..]).outcome == goal.outcome
        invariant pending == Run(Current(), cs[i..]).events
        invariant trace + pending == all
      {
        ghost var before := Current();
        ghost var tr0 := trace;
        ghost var t := Step(before, cs[i]);
        assert cs[i..][0] == cs[i] && cs[i..][1..] == cs[i + 1..];
        RunFirst(before, cs[i..]);
        outcome := Handle(cs[i]);
        if outcome != Serving {
          return;
        }
        ghost var rest := Run(Current(), cs[i + 1..]).events;
        assert pending == t.events + rest;
        Associative(tr0, t.events, rest);
        pending := rest;
        i := i + 1;
      }
      assert cs[i..] == [];
    }
  }
}
