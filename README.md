# ssh-tunnel: the connection arbiter and the client's control path

ssh-tunnel shares one `ssh -D` SOCKS5 tunnel among several clients. The daemon,
`ssh-tunneld`, listens on a control port. Each client, `ssh-tunnelc`, sends it one
byte: `'C'` to use the tunnel and `'D'` to release it. The daemon counts the
clients. It starts the ssh process when the first client arrives and waits until
the proxy port accepts connections. It stops the process when the last client
leaves. Every `'C'` and `'D'` is acknowledged by echoing the byte.

This project models, in Dafny:

- the daemon's **connection arbiter**, the body of the accept loop in `tunneld_main`.
  The specification is `Arbiter.Step` (one connection) and `Arbiter.Run` (a
  sequence of connections). The class `Arbiter.Daemon` holds `n_connected` and
  `ssh_tunnel_process` as fields. Its methods `Handle`, `AwaitReady` (the
  `do … while` readiness loop) and `Serve` (the accept loop) are proved against
  that specification.
- the readiness probe `test_connection` (`Probe.TestConnection`).
- the arbiter **as written**, with its 32-bit unsigned counter (`CounterWrap`).
  This is the basis of the finding below.
- the **option folding** of both programs: a first-occurrence-wins fold over what
  getopt returned (`Getopt`), then `process_options` of the daemon
  (`TunneldOptions`) and `process_arguments` and `checked_strdup` of the client
  (`TunnelcOptions`).
- the client's **control codec**: `establish_connection`, `send_message`,
  `connection_start` and `connection_stop` (`Control`).
- the client's `main` up to the fork of `nc` (`Tunnelc.ClientMain`). This covers the
  `proxy_host_port` buffer, filled in place in a Dafny `array<char>`
  (`Tunnelc.ProxyEndpoint`).

Everything the programs get from the operating system is a parameter:

- what an address lookup returns, and which of its addresses accept a
  connection (`Wire.Attempt`);
- the byte a `recv` delivers, and the count a `send` returns;
- the pid `start_ssh_tunnel` returns;
- whether `strdup` can allocate memory.

Starting and stopping ssh, sleeping, probing, replying and closing a socket are
events in a ghost trace, so the order of these steps can be stated. Calls to
`exit(EXIT_FAILURE)` become `Wrappers.Status.ExitFailure`, or `Outcome.Exited`
in the arbiter.

The client has two copies of `establish_connection`, `send_message`,
`connection_start`, `connection_stop` and `process_arguments`. One is in
`ssh-tunnelc/control.c` and `ssh-tunnelc/options.c`. The older one is in
`ssh-tunnelc/ssh-tunnelc.c` (lines 108-158, 160-194, 196-204 and 221-302). The two
copies behave the same whenever memory allocation succeeds, so each behaviour is
modelled once, and the table below cites the newer copy. They differ when
allocation fails. The older `process_arguments` copies every string with an
unchecked `strdup`, and a failure leaves a NULL string that `main` then passes
to `strlen`. The `options.c` version copies only the defaults, and it copies them
with `checked_strdup`, which exits cleanly when allocation fails. The model's
`heapOk` parameter follows the `options.c` version.

`Arbiter.Step` and `Arbiter.Daemon.Handle` follow the code branch by branch in
every case but one: a `'D'` that arrives while the count is 0. Their count is a
`nat` and stays at 0, with no stop, and `'D'` is still sent. The code as written
wraps the counter instead; see Findings.

## Model

| member | source | states |
|---|---|---|
| Wire.ConnectedSocketIsFirst | ssh-tunnelc/control.c:60-81 | a socket is found exactly when some address connects, and it is the socket of the first such address in list order |
| Probe.TestConnection | ssh-tunneld/ssh-tunneld.c:281-333 | a failed lookup ends the daemon; otherwise the result is 0 exactly when some address connects and 1 exactly when none does |
| Arbiter.Poll | ssh-tunneld/ssh-tunneld.c:249-251 | the readiness loop does something exactly when it has a probe to make, its first action is a sleep, and when it lets the connection go on, its last action is a probe that found the proxy port reachable |
| Arbiter.Step | ssh-tunneld/ssh-tunneld.c:225-275 | one connection keeps the invariant "tunnel running iff count > 0"; the daemon only stops serving during a 'C' at count 0 (while it waits for the tunnel) |
| Arbiter.Run | ssh-tunneld/ssh-tunneld.c:217-276 | any sequence of connections that the daemon serves to the end leaves the invariant intact |
| Arbiter.Daemon.constructor | ssh-tunneld/ssh-tunneld.c:144-145 | the daemon starts with no clients, no tunnel (handle 0) and an empty trace |
| Arbiter.Daemon.Handle | ssh-tunneld/ssh-tunneld.c:225-275 | the new count, handle, trace and outcome are those of Step, and the invariant holds whenever the daemon goes on serving |
| Arbiter.Daemon.AwaitReady | ssh-tunneld/ssh-tunneld.c:249-251 | the do-while loop appends exactly the sleeps and probes of Poll, and ends the way Poll does |
| Arbiter.Daemon.Serve | ssh-tunneld/ssh-tunneld.c:217-276 | the accept loop ends in the state, trace and outcome of Run |
| ArbiterProperties.PollReady | ssh-tunneld/ssh-tunneld.c:249-251 | when the loop returns, it slept before every probe, and it stopped at the first probe that found the proxy port reachable; every earlier probe found it unreachable |
| ArbiterProperties.PollExit | ssh-tunneld/ssh-tunneld.c:296-300 | the daemon ends at the first probe whose lookup fails; every earlier probe found the port unreachable |
| ArbiterProperties.PollPending | ssh-tunneld/ssh-tunneld.c:249-251 | while no probe succeeds, the loop performs exactly one sleep and one failed probe per answer |
| ArbiterProperties.ConnectStartsAndWaits | ssh-tunneld/ssh-tunneld.c:242-258 | 'C' at count 0 starts the tunnel exactly once and then polls; the count becomes 1, and 'C' is sent only after the first successful probe |
| ArbiterProperties.ConnectWhileRunning | ssh-tunneld/ssh-tunneld.c:242-258 | 'C' at count > 0 does not start and does not poll; the count goes up by one and 'C' is sent |
| ArbiterProperties.DisconnectReleases | ssh-tunneld/ssh-tunneld.c:260-273 | 'D' at count ≥ 1 lowers the count by one and sends 'D'; at 1 it first stops the tunnel through the stored pid and resets the handle |
| ArbiterProperties.UnmatchedDisconnectClamped | ssh-tunneld/ssh-tunneld.c:262-273 | in the corrected arbiter, 'D' at count 0 keeps the count at 0, stops nothing, and sends 'D' |
| ArbiterProperties.MalformedIgnored | ssh-tunneld/ssh-tunneld.c:233-275 | a failed or short read, or any byte other than 'C' and 'D', closes the connection with no reply and leaves count and handle unchanged |
| ArbiterProperties.StepLifecycle | ssh-tunneld/ssh-tunneld.c:242-269 | within one connection, a start happens only when no tunnel runs, and a stop names the running tunnel |
| ArbiterProperties.RunLifecycle | ssh-tunneld/ssh-tunneld.c:217-276 | over any sequence of connections, every start and stop follows that discipline, and the final handle is the one the trace implies |
| ArbiterProperties.ReplayAlternates | ssh-tunneld/ssh-tunneld.c:245-269 | in a well-formed trace, starts and stops alternate, and every stop names the pid of the start before it |
| ArbiterProperties.StartsAndStopsAlternate | ssh-tunneld/ssh-tunneld.c:242-269 | from the initial state, start and stop calls alternate beginning with a start, and a tunnel runs at the end exactly when the last of them is a start |
| ArbiterProperties.ReplayEnd | ssh-tunneld/ssh-tunneld.c:245-269 | at the end of a well-formed trace, a tunnel runs exactly when the number of starts and stops has the right parity |
| ArbiterProperties.RunCount | ssh-tunneld/ssh-tunneld.c:253-262 | when the 'D's never outnumber the earlier 'C's, the count equals the initial count plus 'C's minus 'D's |
| ArbiterProperties.StepAckWhileRunning | ssh-tunneld/ssh-tunneld.c:240-258 | within one connection, 'C' is sent only while a tunnel is running |
| ArbiterProperties.ConnectAckedOnlyWhileRunning | ssh-tunneld/ssh-tunneld.c:240-269 | over any sequence of connections, every 'C' acknowledgement is sent while a tunnel is running |
| ArbiterProperties.TwoClientScenario | ssh-tunneld/ssh-tunneld.c:217-276 | A connects (start, poll, count 1); B connects (count 2, no start); A leaves (count 1, tunnel kept); B leaves (stop, count 0) |
| CounterWrap.StepAsWritten | ssh-tunneld/ssh-tunneld.c:240-275 | the accept-loop body with the 32-bit unsigned counter and the pid 0 handle, as written: only a 'C' at count 0 can keep the loop from completing; after a 'D' the count is 0 exactly when it was 1 (a 'D' at 0 wraps instead), and the handle is 0 exactly when the count was 1 or the handle was already 0 |
| CounterWrap.AgreesUnlessUnderflow | ssh-tunneld/ssh-tunneld.c:240-275 | the unsigned, pid-encoded code as written and the corrected arbiter agree on every connection except 'D' at count 0 and an increment past 2^32 - 1 |
| CounterWrap.UnmatchedDisconnectAcksWithoutTunnel | ssh-tunneld/ssh-tunneld.c:260-274 | as written, 'D' at count 0 wraps the count to 2^32 - 1 without a stop; a following 'C' wraps it to 0, starts nothing, and acknowledges with no tunnel running |
| Getopt.FirstArgIsFirst | ssh-tunneld/options.c:78-99 | the stored argument of an option exists exactly when the option occurs, and it comes from the first occurrence |
| Getopt.LaterIgnored | ssh-tunneld/options.c:78-99 | occurrences of an option after its first one do not change the stored argument |
| TunneldOptions.ProcessOptions | ssh-tunneld/options.c:29-130 | usage failure exactly for an unknown option or a missing host name; host = first positional argument; -f and -r set their flags iff given; -d, -l, -p and -t take their first argument or the defaults "1080", none, "22" and "1081" |
| TunnelcOptions.CheckedStrdup | ssh-tunnelc/options.c:16-27 | returns a copy equal to its input, or ends the process when allocation fails |
| TunnelcOptions.ProcessArguments | ssh-tunnelc/options.c:41-121 | usage failure for an unknown option or fewer than two positional arguments, and an exit when a needed default cannot be copied; remote host and port = first and second positional arguments; -h, -p and -t take their first argument or the defaults "127.0.0.1", "1080" and "1081" |
| TunnelcOptions.RepeatedOptionIgnored | ssh-tunnelc/ssh-tunnelc.c:248-269 | repeating an option that was already given changes neither the stored -h, -p, -t arguments nor whether the options are accepted |
| Control.EstablishConnection | ssh-tunnelc/control.c:32-82 | a failed lookup is fatal; otherwise the result is the socket of the first address that connects, and -1 exactly when none does |
| Control.SendMessage | ssh-tunnelc/control.c:84-118 | succeeds exactly when a connection is made, send returns 1, and recv returns one byte equal to the message; it sends exactly the message, and on success closes the socket exactly once, after the send |
| Control.ConnectionStart | ssh-tunnelc/control.c:21-24 | sends exactly 'C' to the given daemon host and port; succeeds exactly when 'C' is echoed |
| Control.ConnectionStop | ssh-tunnelc/control.c:26-29 | sends exactly 'D' to the given daemon host and port; succeeds exactly when 'D' is echoed |
| Tunnelc.StrNCopy | ssh-tunnelc/ssh-tunnelc.c:41-43 | strncpy writes the source, cut or NUL-padded to n, at the offset, and changes nothing outside those n cells |
| Tunnelc.ProxyEndpoint | ssh-tunnelc/ssh-tunnelc.c:35-44 | the buffer has phost_len + pport_len + 2 cells holding host, ':' at index phost_len, port, and NUL last; every write is in bounds; as a C string it reads host:port |
| Tunnelc.ClientMain | ssh-tunnelc/ssh-tunnelc.c:25-49 | a rejected command line exits before any network use; otherwise 'C' goes to the proxy host at the control port, the client continues exactly when it is echoed, and the nc endpoint is proxyhost:proxyport |

## Left out

- Daemonisation in `ssh-tunneld`'s `main` (fork, setsid, chdir, closing descriptors, opening the log file): process setup with no arbiter logic.
- Binding and listening in `tunneld_main` (ssh-tunneld/ssh-tunneld.c:147-213): operating-system I/O. Accepted connections and their bytes are inputs of `Handle`. When `-r` is not given, the daemon binds only to 127.0.0.1; this is not modelled.
- ssh-tunneld/ssh-control.c (fork, execvp, kill and wait of the ssh process) is not part of this model. A start is the event `Started(pid)`, with the pid as an input, and a stop is `Stopped(handle)`. Failures inside those calls are not modelled.
- Logging (ssh-tunneld/logging.c): timestamps and file writes, with no effect on the state.
- Signal handlers in both programs: asynchronous delivery is concurrency. The client's handler sends 'D' through `Control.ConnectionStop`, but that call from the handler is not modelled.
- The client's fork and exec of `nc`, and its wait: process plumbing. `Tunnelc.ClientMain` ends at the point where `nc` would be started. It does not capture that `nc` is given `argv[1]` and `argv[2]` rather than the parsed host and port.
- getopt itself (argv permutation, `optind`): a library whose behaviour is not shown. The model starts from the options getopt returned and the remaining positional arguments. A missing option argument is reported by getopt as an unknown option.
- `sleep(1)`: there is no notion of time. Only the order "sleep, then probe" is kept.
- The header declarations that disagree with the definitions (ssh-tunneld/options.h, ssh-tunnelc/options.h): the `.c` definitions are modelled.
- Arbiter.Daemon.AwaitReady: the source polls forever while the proxy port stays unreachable. The model takes a finite list of probe answers, and running out of them gives `Outcome.Polling`, the daemon still waiting.
- Arbiter.Step: the count is unbounded, so an increment past 2^32 - 1 does not wrap as the C `unsigned int` would. `CounterWrap` models the 32-bit arithmetic.
- Probe.TestConnection and Control.EstablishConnection: closing the sockets of refused addresses, and closing the probe's successful socket, are not recorded.
- Control.SendMessage: its trace does not record that the process exits with the socket still open on failure; the exit closes it.
- When the daemon exits during the readiness loop, the ssh child it started is left running; this is not modelled.
- The client's `strdup` of `optarg` in the older `process_arguments`, and the `malloc` of `proxy_host_port`: allocation failure there is not modelled.
- Tunnelc.ClientMain: its `heapOk` exit follows `checked_strdup` in ssh-tunnelc/options.c. The `process_arguments` that ssh-tunnelc/ssh-tunnelc.c:32 calls uses an unchecked `strdup` instead. When allocation fails there, `main` goes on with a NULL string, and the model does not capture that.
- TunneldOptions.ProcessOptions: the daemon's `strdup` calls (ssh-tunneld/options.c:80-128) are unchecked. Allocation failure, which would leave an option NULL, is not modelled.

## Findings

| source | as written | input that shows it | evidently intended | confidence | as-written member | corrected member |
|---|---|---|---|---|---|---|
| ssh-tunneld/ssh-tunneld.c:262-264 | `n_connected` is an `unsigned int`, so `n_connected -= 1` at 0 wraps to 4294967295, and the test `n_connected <= 0` is then false | from the start, a client sends 'D' and then another sends 'C': the count becomes 4294967295 and then wraps to 0, no tunnel is started, and 'C' is acknowledged with no tunnel running | a 'D' with no client counted leaves the count at 0, so every 'C' acknowledgement finds a running tunnel | high, not executed | CounterWrap.UnmatchedDisconnectAcksWithoutTunnel | ArbiterProperties.ConnectAckedOnlyWhileRunning |
