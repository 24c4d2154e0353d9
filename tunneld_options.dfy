/** Option processing of the daemon, ssh-tunneld. */
module TunneldOptions {
  import opened Wrappers
  import opened Getopt

  /** The letters of getopt's option string "d:fl:p:rt:". */
  const Letters: set<char> := {'d', 'f', 'l', 'p', 'r', 't'}

  const DefaultProxyPort: CString := "1080"
  const DefaultRemotePort: CString := "22"
  const DefaultTunnelPort: CString := "1081"

  datatype Options = Options(
    nofork: bool,
    logFilename: Option<CString>,
    remoteHost: CString,
    remotePort: CString,
    proxyPort: CString,
    tunnelPort: CString,
    acceptRemote: bool)

  /**
   * process_options: one pass over the options, keeping the first argument of
   * each of -d, -l, -p, -t and setting the -f and -r flags; an option outside
   * the option string prints the usage and exits, and so does a missing host
   * name. Ports that were not given take their defaults.
   */
  method ProcessOptions(opts: seq<Opt>, positional: seq<CString>) returns (r: Status<Options>)
    ensures r.ExitFailure? <==> !AllKnown(opts, Letters) || |positional| == 0
    ensures r.Return? ==> r.value.remoteHost == positional[0]
    ensures r.Return? ==> (r.value.nofork <==> Occurs(opts, 'f'))
    ensures r.Return? ==> (r.value.acceptRemote <==> Occurs(opts, 'r'))
    ensures r.Return? ==> r.value.logFilename == FirstArg(opts, 'l')
    ensures r.Return? ==> r.value.proxyPort == FirstArg(opts, 'd').GetOr(DefaultProxyPort)
    ensures r.Return? ==> r.value.remotePort == FirstArg(opts, 'p').GetOr(DefaultRemotePort)
    ensures r.Return? ==> r.value.tunnelPort == FirstArg(opts, 't').GetOr(DefaultTunnelPort)
  {
    var nofork := false;
    var acceptRemote := false;
    var proxyPort: Option<CString> := None;
    var logFilename: Option<CString> := None;
    var remotePort: Option<CString> := None;
    var tunnelPort: Option<CString> := None;
    var i := 0;
    while i < |opts|
      invariant 0 <= i <= |opts|
      invariant AllKnown(opts[..i], Letters)
      invariant nofork <==> Occurs(opts[..i], 'f')
      invariant acceptRemote <==> Occurs(opts[..i], 'r')
      invariant proxyPort == FirstArg(opts[..i], 'd')
      invariant logFilename == FirstArg(opts[..i], 'l')
      invariant remotePort == FirstArg(opts[..i], 'p')
      invariant tunnelPort == FirstArg(opts[..i], 't')
    {
      var o := opts[i];
      assert opts[..i + 1] == opts[..i] + [o];
      OccursSnoc(opts[..i], o, 'f');
      OccursSnoc(opts[..i], o, 'r');
      FirstArgSnoc(opts[..i], o, 'd');
      FirstArgSnoc(opts[..i], o, 'l');
      FirstArgSnoc(opts[..i], o, 'p');
      FirstArgSnoc(opts[..i], o, 't');
      match o.letter {
        case 'd' =>
          if proxyPort == None {
            proxyPort := Some(o.arg);
          }
        case 'f' =>
          nofork := true;
        case 'l' =>
          if logFilename == None {
            logFilename := Some(o.arg);
          }
        case 'p' =>
          if remotePort == None {
            remotePort := Some(o.arg);
          }
        case 'r' =>
          acceptRemote := true;
        case 't' =>
          if tunnelPort == None {
            tunnelPort := Some(o.arg);
          }
        case _ =>
          assert !AllKnown(opts, Letters) by {
            assert opts[i].letter !in Letters;
          }
          return ExitFailure;
      }
      i := i + 1;
    }
    assert opts[..i] == opts;
    if |positional| == 0 {
      return ExitFailure;
    }
    var remoteHost := positional[0];
    r := Return(Options(nofork, logFilename, remoteHost,
                        remotePort.GetOr(DefaultRemotePort),
                        proxyPort.GetOr(DefaultProxyPort),
                        tunnelPort.GetOr(DefaultTunnelPort),
                        acceptRemote));
  }
}
