/**
 * What the arbiter promises, proved about its specification (Arbiter.Step
 * and Arbiter.Run) and therefore about every run of Arbiter.Daemon.Serve.
 */
module ArbiterProperties {
  import opened Wrappers
  import opened Wire
  import opened Arbiter

  /** n rounds of the readiness loop whose probe found the endpoint unreachable. */
  function Failures(n: nat): seq<Event> {
    if n == 0 then [] else [Slept, Probed(false)] + Failures(n - 1)
  }

  /** A probe whose address lookup worked and whose every address refused. */
  predicate Unready(probe: Option<seq<Attempt>>) {
    probe.Some? && !Reachable(probe.value)
  }

  /** Rounds that failed, followed by one more. */
  lemma FailuresStep(n: nat, tail: seq<Event>)
    ensures [Slept, Probed(false)] + (Failures(n) + tail) == Failures(n + 1) + tail
  {
  }

  /** Every probe before index n found the endpoint unreachable. */
  lemma UnreadyShift(probes: seq<Option<seq<Attempt>>>, n: nat)
    requires |probes| > n && Unready(probes[0])
    requires forall i :: 0 <= i < n ==> Unready(probes[1..][i])
    ensures forall i :: 0 <= i < n + 1 ==> Unready(probes[i])
  {
    forall i | 1 <= i < n + 1 ensures Unready(probes[i]) {
      assert probes[i] == probes[1..][i - 1];
    }
  }

  /**
   * The readiness loop sleeps before every probe and leaves at the first
   * probe that reports the endpoint reachable.
   */
  lemma {:induction false} PollReady(probes: seq<Option<seq<Attempt>>>)
    requires Poll(probes).outcome == Serving
    ensures exists n :: 0 <= n < |probes| && Poll(probes).events == Failures(n) + [Slept, Probed(true)] &&
                        probes[n].Some? && Reachable(probes[n].value) && forall i :: 0 <= i < n ==> Unready(probes[i])
    decreases |probes|
  {
    if Reachable(probes[0].value) {
      assert Poll(probes).events == Failures(0) + [Slept, Probed(true)];
    } else {
      var tail := probes[1..];
      PollReady(tail);
      var n :| 0 <= n < |tail| && Poll(tail).events == Failures(n) + [Slept, Probed(true)] &&
        tail[n].Some? && Reachable(tail[n].value) && forall i :: 0 <= i < n ==> Unready(tail[i]);
      FailuresStep(n, [Slept, Probed(true)]);
      UnreadyShift(probes, n);
      assert probes[n + 1] == tail[n];
    }
  }

  /** The loop ends the daemon at the first probe whose lookup fails, all earlier probes having found the endpoint unreachable. */
  lemma {:induction false} PollExit(probes: seq<Option<seq<Attempt>>>)
    requires Poll(probes).outcome == Exited
    ensures exists n :: 0 <= n < |probes| && Poll(probes).events == Failures(n) + [Slept] &&
                        probes[n].None? && forall i :: 0 <= i < n ==> Unready(probes[i])
    decreases |probes|
  {
    if probes[0].None? {
      assert Poll(probes).events == Failures(0) + [Slept];
    } else {
      var tail := probes[1..];
      PollExit(tail);
      var n :| 0 <= n < |tail| && Poll(tail).events == Failures(n) + [Slept] &&
        tail[n].None? && forall i :: 0 <= i < n ==> Unready(tail[i]);
      FailuresStep(n, [Slept]);
      UnreadyShift(probes, n);
      assert probes[n + 1] == tail[n];
    }
  }

  /** While no probe has succeeded, the loop keeps sleeping and probing, once per probe. */
  lemma {:induction false} PollPending(probes: seq<Option<seq<Attempt>>>)
    requires Poll(probes).outcome == Polling
    ensures Poll(probes).events == Failures(|probes|)
    ensures forall i :: 0 <= i < |probes| ==> Unready(probes[i])
    decreases |probes|
  {
    if probes != [] {
      var tail := probes[1..];
      PollPending(tail);
      FailuresStep(|tail|, []);
      assert Failures(|tail|) + [] == Failures(|tail|) && Failures(|tail| + 1) + [] == Failures(|tail| + 1);
      UnreadyShift(probes, |tail|);
    }
  }

  /**
   * 'C' at count 0 starts the tunnel once, then polls; the count becomes 1
   * and 'C' is sent only after a probe reported the endpoint reachable.
   */
  lemma ConnectStartsAndWaits(s: State, pid: Pid, probes: seq<Option<seq<Attempt>>>)
    requires Valid(s) && s.count == 0
    ensures var t := Step(s, Connection(Some(Connect), pid, probes));
      t.outcome == Serving ==>
        t.state == State(1, Some(pid)) &&
        exists n :: 0 <= n < |probes| &&
          t.events == [Started(pid)] + Failures(n) + [Slept, Probed(true), Sent(Connect), Closed] &&
          forall i :: 0 <= i < n ==> Unready(probes[i])
  {
    var t := Step(s, Connection(Some(Connect), pid, probes));
    if t.outcome == Serving {
      PollReady(probes);
      var n :| 0 <= n < |probes| && Poll(probes).events == Failures(n) + [Slept, Probed(true)] &&
        probes[n].Some? && Reachable(probes[n].value) && forall i :: 0 <= i < n ==> Unready(probes[i]);
      var p := Poll(probes);
      assert t.events == [Started(pid)] + p.events + [Sent(Connect), Closed];
      calc {
        [Started(pid)] + p.events + [Sent(Connect), Closed];
        [Started(pid)] + (Failures(n) + [Slept, Probed(true)]) + [Sent(Connect), Closed];
        { Associative([Started(pid)], Failures(n), [Slept, Probed(true)]); }
        [Started(pid)] + Failures(n) + [Slept, Probed(true)] + [Sent(Connect), Closed];
        { Associative([Started(pid)] + Failures(n), [Slept, Probed(true)], [Sent(Connect), Closed]); }
        [Started(pid)] + Failures(n) + ([Slept, Probed(true)] + [Sent(Connect), Closed]);
        { assert [Slept, Probed(true)] + [Sent(Connect), Closed] == [Slept, Probed(true), Sent(Connect), Closed]; }
        [Started(pid)] + Failures(n) + [Slept, Probed(true), Sent(Connect), Closed];
      }
    }
  }

  /** 'C' while a tunnel runs: no start, no poll; the count goes up by one and 'C' is sent. */
  lemma ConnectWhileRunning(s: State, c: Conn)
    requires Valid(s) && s.count > 0 && c.Connection? && c.msg == Some(Connect)
    ensures Step(s, c) == Transition(State(s.count + 1, s.tunnel), [Sent(Connect), Closed], Serving)
  {
  }

  /**
   * 'D' with clients counted: the count goes down by one and 'D' is sent;
   * on reaching 0 the tunnel is stopped through its stored handle first.
   */
  lemma DisconnectReleases(s: State, c: Conn)
    requires Valid(s) && s.count > 0 && c.Connection? && c.msg == Some(Disconnect)
    ensures Step(s, c).outcome == Serving && Step(s, c).state.count == s.count - 1
    ensures s.count == 1 ==>
      Step(s, c).state.tunnel == None &&
      Step(s, c).events == [Stopped(s.tunnel.value), Sent(Disconnect), Closed]
    ensures s.count > 1 ==>
      Step(s, c).state.tunnel == s.tunnel && Step(s, c).events == [Sent(Disconnect), Closed]
  {
  }

  /** 'D' with no client counted: the count stays 0, nothing is stopped, 'D' is still sent. */
  lemma UnmatchedDisconnectClamped(c: Conn)
    requires c.Connection? && c.msg == Some(Disconnect)
    ensures Step(State(0, None), c) == Transition(State(0, None), [Sent(Disconnect), Closed], Serving)
  {
  }

  /**
   * A failed or short read, or any byte other than 'C' and 'D': the
   * connection is closed with no reply and the state is unchanged.
   */
  lemma MalformedIgnored(s: State, c: Conn)
    requires Valid(s) && c.Connection? && c.msg != Some(Connect) && c.msg != Some(Disconnect)
    ensures Step(s, c) == Transition(s, [Closed], Serving)
  {
  }

  // ---- starting and stopping the tunnel ----

  /**
   * Replays the Started/Stopped events of a trace from a given tunnel
   * handle: a start needs no tunnel running, a stop must name the running
   * tunnel. None when the trace breaks that discipline, otherwise the
   * handle at the end.
   */
  function Replay(tunnel: Option<Pid>, events: seq<Event>): Option<Option<Pid>>
    decreases |events|
  {
    if events == [] then Some(tunnel)
    else match events[0]
      case Started(p) => if tunnel == None then Replay(Some(p), events[1..]) else None
      case Stopped(p) => if tunnel.Some? && tunnel.value == p then Replay(None, events[1..]) else None
      case _ => Replay(tunnel, events[1..])
  }

  lemma {:induction false} ReplayAppend(tunnel: Option<Pid>, a: seq<Event>, b: seq<Event>)
    ensures Replay(tunnel, a + b) ==
      if Replay(tunnel, a).None? then None else Replay(Replay(tunnel, a).value, b)
    decreases |a|
  {
    if a == [] {
      assert a + b == b;
    } else {
      assert (a + b)[0] == a[0] && (a + b)[1..] == a[1..] + b;
      match a[0]
      case Started(p) => if tunnel == None { ReplayAppend(Some(p), a[1..], b); }
      case Stopped(p) => if tunnel.Some? && tunnel.value == p { ReplayAppend(None, a[1..], b); }
      case _ => ReplayAppend(tunnel, a[1..], b);
    }
  }

  /** Events other than starts and stops leave the handle alone. */
  lemma {:induction false} ReplayQuiet(tunnel: Option<Pid>, events: seq<Event>)
    requires forall k :: 0 <= k < |events| ==> !events[k].Started? && !events[k].Stopped?
    ensures Replay(tunnel, events) == Some(tunnel)
    decreases |events|
  {
    if events != [] {
      assert forall k :: 1 <= k < |events| ==> events[1..][k - 1] == events[k];
      ReplayQuiet(tunnel, events[1..]);
    }
  }

  /** The readiness loop only sleeps and probes. */
  lemma {:induction false} PollQuiet(tunnel: Option<Pid>, probes: seq<Option<seq<Attempt>>>)
    ensures Replay(tunnel, Poll(probes).events) == Some(tunnel)
    ensures forall k :: 0 <= k < |Poll(probes).events| ==> Poll(probes).events[k].Slept? || Poll(probes).events[k].Probed?
    decreases |probes|
  {
    if probes != [] && probes[0].Some? && !Reachable(probes[0].value) {
      var rest := Poll(probes[1..]).events;
      PollQuiet(tunnel, probes[1..]);
      ReplayAppend(tunnel, [Slept, Probed(false)], rest);
      assert Poll(probes).events == [Slept, Probed(false)] + rest;
      forall k | 2 <= k < |Poll(probes).events|
        ensures Poll(probes).events[k].Slept? || Poll(probes).events[k].Probed?
      {
        assert Poll(probes).events[k] == rest[k - 2];
      }
    }
  }

  /** One connection starts only when no tunnel runs, stops only the running one, and leaves the handle it records. */
  lemma StepLifecycle(s: State, c: Conn)
    requires Valid(s)
    ensures Replay(s.tunnel, Step(s, c).events) == Some(Step(s, c).state.tunnel)
  {
    if c.Connection? && c.msg == Some(Connect) && s.count == 0 {
      var p := Poll(c.probes);
      PollQuiet(Some(c.pid), c.probes);
      assert Replay(s.tunnel, [Started(c.pid)]) == Some(Some(c.pid));
      ReplayAppend(s.tunnel, [Started(c.pid)], p.events);
      ReplayQuiet(Some(c.pid), [Sent(Connect), Closed]);
      ReplayAppend(s.tunnel, [Started(c.pid)] + p.events, [Sent(Connect), Closed]);
    } else if c.Connection? && c.msg == Some(Disconnect) && s.count == 1 {
      ReplayQuiet(None, [Sent(Disconnect), Closed]);
      assert Step(s, c).events == [Stopped(s.tunnel.value)] + [Sent(Disconnect), Closed];
    } else {
      ReplayQuiet(s.tunnel, Step(s, c).events);
    }
  }

  /** Over any sequence of connections, starts and stops follow the discipline Replay checks. */
  lemma {:induction false} RunLifecycle(s: State, cs: seq<Conn>)
    requires Valid(s)
    ensures Replay(s.tunnel, Run(s, cs).events) == Some(Run(s, cs).state.tunnel)
    decreases |cs|
  {
    if cs != [] {
      var t := Step(s, cs[0]);
      StepLifecycle(s, cs[0]);
      if t.outcome == Serving {
        RunLifecycle(t.state, cs[1..]);
        ReplayAppend(s.tunnel, t.events, Run(t.state, cs[1..]).events);
      }
    }
  }

  /** The Started and Stopped events of a trace, in order. */
  function Lifecycle(events: seq<Event>): seq<Event>
    decreases |events|
  {
    if events == [] then []
    else if events[0].Started? || events[0].Stopped? then [events[0]] + Lifecycle(events[1..])
    else Lifecycle(events[1..])
  }

  /**
   * A trace Replay accepts alternates start and stop (beginning with a start
   * when no tunnel ran), and every stop names the process the preceding
   * start created.
   */
  lemma {:induction false} ReplayAlternates(tunnel: Option<Pid>, events: seq<Event>)
    requires Replay(tunnel, events).Some?
    ensures forall i :: 0 <= i < |Lifecycle(events)| ==>
              (Lifecycle(events)[i].Started? <==> (i % 2 == 0) == tunnel.None?)
    ensures forall i :: 0 < i < |Lifecycle(events)| && Lifecycle(events)[i].Stopped? ==>
              Lifecycle(events)[i - 1].Started? && Lifecycle(events)[i - 1].pid == Lifecycle(events)[i].handle
    ensures tunnel.Some? && |Lifecycle(events)| > 0 ==> Lifecycle(events)[0] == Stopped(tunnel.value)
    decreases |events|
  {
    if events != [] {
      var e := events[0];
      var l := Lifecycle(events);
      var rest := Lifecycle(events[1..]);
      if e.Started? || e.Stopped? {
        var next: Option<Pid> := if e.Started? then Some(e.pid) else None;
        assert Replay(tunnel, events) == Replay(next, events[1..]);
        ReplayAlternates(next, events[1..]);
        assert l == [e] + rest;
        forall i | 1 <= i < |l| ensures l[i] == rest[i - 1] { }
      } else {
        ReplayAlternates(tunnel, events[1..]);
        assert l == rest;
        forall i | 0 <= i < |l| ensures l[i].Started? <==> (i % 2 == 0) == tunnel.None? {
          assert l[i] == rest[i];
        }
        forall i | 0 < i < |l| && l[i].Stopped? ensures l[i - 1].Started? && l[i - 1].pid == l[i].handle {
          assert l[i] == rest[i] && l[i - 1] == rest[i - 1];
        }
      }
    }
  }

  /**
   * From the daemon's initial state, the tunnel is started and stopped in
   * strict alternation, beginning with a start, each stop naming the pid of
   * the start before it; the tunnel runs at the end exactly when the last
   * of these events is a start.
   */
  lemma StartsAndStopsAlternate(cs: seq<Conn>)
    ensures var r := Run(State(0, None), cs); var l := Lifecycle(r.events);
      (forall i :: 0 <= i < |l| ==> (l[i].Started? <==> i % 2 == 0)) &&
      (forall i :: 0 < i < |l| && l[i].Stopped? ==> l[i - 1].Started? && l[i - 1].pid == l[i].handle) &&
      (r.state.tunnel.Some? <==> |l| % 2 == 1)
  {
    var r := Run(State(0, None), cs);
    RunLifecycle(State(0, None), cs);
    ReplayAlternates(None, r.events);
    ReplayEnd(None, r.events);
  }

  /** The handle at the end of a replay is set exactly when an odd number of lifecycle events changed the initial one. */
  lemma {:induction false} ReplayEnd(tunnel: Option<Pid>, events: seq<Event>)
    requires Replay(tunnel, events).Some?
    ensures Replay(tunnel, events).value.Some? <==> (tunnel.Some? <==> |Lifecycle(events)| % 2 == 0)
    decreases |events|
  {
    if events != [] {
      match events[0]
      case Started(p) => ReplayEnd(Some(p), events[1..]);
      case Stopped(p) => ReplayEnd(None, events[1..]);
      case _ => ReplayEnd(tunnel, events[1..]);
    }
  }

  // ---- the count ----

  /** The change a connection asks of the count: +1 for 'C', -1 for 'D', 0 otherwise. */
  function Delta(c: Conn): int {
    if c.Connection? && c.msg == Some(Connect) then 1
    else if c.Connection? && c.msg == Some(Disconnect) then -1
    else 0
  }

  /** At no point do the 'D's outnumber the count plus the earlier 'C's. */
  predicate NeverOverdrawn(n: int, cs: seq<Conn>)
    decreases |cs|
  {
    cs == [] || (n + Delta(cs[0]) >= 0 && NeverOverdrawn(n + Delta(cs[0]), cs[1..]))
  }

  function NetDelta(cs: seq<Conn>): int
    decreases |cs|
  {
    if cs == [] then 0 else Delta(cs[0]) + NetDelta(cs[1..])
  }

  /** Under balanced use the count is exactly the number of 'C's minus the number of 'D's. */
  lemma {:induction false} RunCount(s: State, cs: seq<Conn>)
    requires Valid(s) && NeverOverdrawn(s.count, cs)
    ensures Run(s, cs).outcome == Serving ==> Run(s, cs).state.count == s.count + NetDelta(cs)
    decreases |cs|
  {
    if cs != [] {
      var t := Step(s, cs[0]);
      if t.outcome == Serving {
        assert t.state.count == s.count + Delta(cs[0]);
        RunCount(t.state, cs[1..]);
      }
    }
  }

  // ---- acknowledgements ----

  /** Every 'C' sent in the trace is sent while the replayed handle names a running tunnel. */
  predicate AcksWhileRunning(tunnel: Option<Pid>, ev: seq<Event>) {
    forall i :: 0 <= i < |ev| && ev[i] == Sent(Connect) ==>
      Replay(tunnel, ev[..i]).Some? && Replay(tunnel, ev[..i]).value.Some?
  }

  /** Within one connection, 'C' is sent only once a tunnel is running. */
  lemma StepAckWhileRunning(s: State, c: Conn)
    requires Valid(s)
    ensures AcksWhileRunning(s.tunnel, Step(s, c).events)
  {
    var t := Step(s, c);
    var ev := t.events;
    if c.Connection? && c.msg == Some(Connect) && s.count == 0 {
      var p := Poll(c.probes);
      PollQuiet(Some(c.pid), c.probes);
      ReplayAppend(s.tunnel, [Started(c.pid)], p.events);
      assert Replay(s.tunnel, [Started(c.pid)]) == Some(Some(c.pid));
      assert forall k :: 1 <= k <= |p.events| ==> ev[k] == p.events[k - 1] && ev[k] != Sent(Connect);
      if t.outcome == Serving {
        forall i | 0 <= i < |ev| && ev[i] == Sent(Connect)
          ensures Replay(s.tunnel, ev[..i]).Some? && Replay(s.tunnel, ev[..i]).value.Some?
        {
          assert i == 1 + |p.events|;
          assert ev[..i] == [Started(c.pid)] + p.events;
        }
      } else {
        assert ev == [Started(c.pid)] + p.events;
        assert forall i :: 0 <= i < |ev| ==> ev[i] != Sent(Connect);
      }
    } else if c.Connection? && c.msg == Some(Connect) {
      forall i | 0 <= i < |ev| && ev[i] == Sent(Connect)
        ensures Replay(s.tunnel, ev[..i]).Some? && Replay(s.tunnel, ev[..i]).value.Some?
      {
        assert i == 0 && ev[..i] == [];
      }
    }
  }

  /**
   * Over any run from a valid state, every 'C' acknowledgement is sent
   * while a tunnel is running: a client told to proceed finds a tunnel.
   */
  lemma {:induction false} ConnectAckedOnlyWhileRunning(s: State, cs: seq<Conn>)
    requires Valid(s)
    ensures AcksWhileRunning(s.tunnel, Run(s, cs).events)
    decreases |cs|
  {
    if cs != [] {
      var t := Step(s, cs[0]);
      StepAckWhileRunning(s, cs[0]);
      if t.outcome == Serving {
        var rest := Run(t.state, cs[1..]).events;
        var ev := t.events + rest;
        assert Run(s, cs).events == ev;
        ConnectAckedOnlyWhileRunning(t.state, cs[1..]);
        assert AcksWhileRunning(t.state.tunnel, rest);
        StepLifecycle(s, cs[0]);
        AcksAppend(s.tunnel, t.events, rest);
      }
    }
  }

  /** Two traces that each acknowledge 'C' only while a tunnel runs, one after the other. */
  lemma AcksAppend(tunnel: Option<Pid>, a: seq<Event>, b: seq<Event>)
    requires AcksWhileRunning(tunnel, a) && Replay(tunnel, a).Some?
    requires AcksWhileRunning(Replay(tunnel, a).value, b)
    ensures AcksWhileRunning(tunnel, a + b)
  {
    var ev := a + b;
    forall i | 0 <= i < |ev| && ev[i] == Sent(Connect)
      ensures Replay(tunnel, ev[..i]).Some? && Replay(tunnel, ev[..i]).value.Some?
    {
      if i < |a| {
        assert ev[..i] == a[..i] && ev[i] == a[i];
      } else {
        var j := i - |a|;
        assert b[j] == ev[i];
        assert ev[..i] == a + b[..j];
        ReplayAppend(tunnel, a, b[..j]);
      }
    }
  }

  /**
   * The end-to-end scenario: A connects (start, poll until ready, count 1),
   * B connects (no start, count 2), A disconnects (count 1, tunnel stays),
   * B disconnects (count 0, tunnel stopped).
   */
  lemma TwoClientScenario(pidA: Pid, pidB: Pid, fd: Fd)
    ensures var ready: seq<Option<seq<Attempt>>> := [Some([Connected(fd)])];
      var cs := [Connection(Some(Connect), pidA, ready), Connection(Some(Connect), pidB, ready),
                 Connection(Some(Disconnect), pidA, ready), Connection(Some(Disconnect), pidB, ready)];
      Run(State(0, None), cs) ==
        Transition(State(0, None),
          [Started(pidA), Slept, Probed(true), Sent(Connect), Closed,
           Sent(Connect), Closed,
           Sent(Disconnect), Closed,
           Stopped(pidA), Sent(Disconnect), Closed], Serving)
  {
    var ready: seq<Option<seq<Attempt>>> := [Some([Connected(fd)])];
    assert Reachable(ready[0].value) by { assert ready[0].value[0].Connected?; }
    var cs := [Connection(Some(Connect), pidA, ready), Connection(Some(Connect), pidB, ready),
               Connection(Some(Disconnect), pidA, ready), Connection(Some(Disconnect), pidB, ready)];
    var s1 := Step(State(0, None), cs[0]);
    assert s1 == Transition(State(1, Some(pidA)), [Started(pidA), Slept, Probed(true), Sent(Connect), Closed], Serving);
    var s2 := Step(s1.state, cs[1]);
    assert s2 == Transition(State(2, Some(pidA)), [Sent(Connect), Closed], Serving);
    var s3 := Step(s2.state, cs[2]);
    assert s3 == Transition(State(1, Some(pidA)), [Sent(Disconnect), Closed], Serving);
    var s4 := Step(s3.state, cs[3]);
    assert s4 == Transition(State(0, None), [Stopped(pidA), Sent(Disconnect), Closed], Serving);
    assert cs[1..][1..][1..][1..] == [];
    assert Run(s3.state, cs[3..]) == s4;
    assert Run(s2.state, cs[2..]).events == s3.events + s4.events;
    assert Run(s1.state, cs[1..]).events == s2.events + s3.events + s4.events;
  }
}
