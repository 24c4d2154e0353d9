/** Option processing of the client, ssh-tunnelc. */
module TunnelcOptions {
  import opened Wrappers
  import opened Getopt

  /** The letters of getopt's option string "h:p:t:". */
  const Letters: set<char> := {'h', 'p', 't'}

  const DefaultProxyHost: CString := "127.0.0.1"
  const DefaultProxyPort: CString := "1080"
  const DefaultTunnelPort: CString := "1081"

  /** struct program_options; the proxy host is also the host of the daemon. */
  datatype Options = Options(
    proxyHost: CString,
    proxyPort: CString,
    tunnelPort: CString,
    remoteHost: CString,
    remotePort: CString)

  /**
   * checked_strdup: a copy of the string, or exit when the allocation fails.
   * `heapOk` stands for whether malloc inside strdup succeeds.
   */
  method CheckedStrdup(s: CString, heapOk: bool) returns (r: Status<CString>)
    ensures r.Return? <==> heapOk
    ensures r.Return? ==> r.value == s
  {
    if !heapOk {
      return ExitFailure;
    }
    var duplicate := s;
    return Return(duplicate);
  }

  /** Some option among -h, -p, -t was not given, so its default has to be copied. */
  predicate NeedsDefault(opts: seq<Opt>) {
    FirstArg(opts, 'h').None? || FirstArg(opts, 'p').None? || FirstArg(opts, 't').None?
  }

  /**
   * process_arguments: one pass over the options, keeping the first argument
   * of each of -h, -p and -t; an option outside the option string prints the
   * usage and exits, and so do fewer than two positional arguments. Options
   * that were not given take their defaults, each copied by checked_strdup.
   */
  method ProcessArguments(opts: seq<Opt>, positional: seq<CString>, heapOk: bool)
    returns (r: Status<Options>)
    ensures r.ExitFailure? <==>
      !AllKnown(opts, Letters) || |positional| < 2 || (!heapOk && NeedsDefault(opts))
    ensures r.Return? ==> r.value.remoteHost == positional[0] && r.value.remotePort == positional[1]
    ensures r.Return? ==> r.value.proxyHost == FirstArg(opts, 'h').GetOr(DefaultProxyHost)
    ensures r.Return? ==> r.value.proxyPort == FirstArg(opts, 'p').GetOr(DefaultProxyPort)
    ensures r.Return? ==> r.value.tunnelPort == FirstArg(opts, 't').GetOr(DefaultTunnelPort)
  {
    var setProxyHost, setProxyPort, setTunnelPort := false, false, false;
    var proxyHost, proxyPort, tunnelPort: CString := "", "", "";
    var i := 0;
    while i < |opts|
      invariant 0 <= i <= |opts|
      invariant AllKnown(opts[..i], Letters)
      invariant setProxyHost <==> FirstArg(opts[..i], 'h').Some?
      invariant setProxyHost ==> proxyHost == FirstArg(opts[..i], 'h').value
      invariant setProxyPort <==> FirstArg(opts[..i], 'p').Some?
      invariant setProxyPort ==> proxyPort == FirstArg(opts[..i], 'p').value
      invariant setTunnelPort <==> FirstArg(opts[..i], 't').Some?
      invariant setTunnelPort ==> tunnelPort == FirstArg(opts[..i], 't').value
    {
      var o := opts[i];
      assert opts[..i + 1] == opts[..i] + [o];
      FirstArgSnoc(opts[..i], o, 'h');
      FirstArgSnoc(opts[..i], o, 'p');
      FirstArgSnoc(opts[..i], o, 't');
      match o.letter {
        case 'h' =>
          if !setProxyHost {
            proxyHost := o.arg;
            setProxyHost := true;
          }
        case 'p' =>
          if !setProxyPort {
            proxyPort := o.arg;
            setProxyPort := true;
          }
        case 't' =>
          if !setTunnelPort {
            tunnelPort := o.arg;
            setTunnelPort := true;
          }
        case _ =>
          assert !AllKnown(opts, Letters) by {
            assert opts[i].letter !in Letters;
          }
          return ExitFailure;
      }
      i := i + 1;
    }
    assert opts[..i] == opts;
    if |positional| < 2 {
      return ExitFailure;
    }
    var remoteHost := positional[0];
    var remotePort := positional[1];
    if !setProxyHost {
      var copy := CheckedStrdup(DefaultProxyHost, heapOk);
      if copy.ExitFailure? {
        return ExitFailure;
      }
      proxyHost := copy.value;
    }
    if !setProxyPort {
      var copy := CheckedStrdup(DefaultProxyPort, heapOk);
      if copy.ExitFailure? {
        return ExitFailure;
      }
      proxyPort := copy.value;
    }
    if !setTunnelPort {
      var copy := CheckedStrdup(DefaultTunnelPort, heapOk);
      if copy.ExitFailure? {
        return ExitFailure;
      }
      tunnelPort := copy.value;
    }
    r := Return(Options(proxyHost, proxyPort, tunnelPort, remoteHost, remotePort));
  }

  /** Giving an option again after its first occurrence changes nothing in the result. */
  lemma RepeatedOptionIgnored(opts: seq<Opt>, again: Opt)
    requires again.letter in Letters
    requires Occurs(opts, again.letter)
    ensures FirstArg(opts + [again], 'h') == FirstArg(opts, 'h')
    ensures FirstArg(opts + [again], 'p') == FirstArg(opts, 'p')
    ensures FirstArg(opts + [again], 't') == FirstArg(opts, 't')
    ensures AllKnown(opts, Letters) <==> AllKnown(opts + [again], Letters)
  {
    FirstArgIsFirst(opts, again.letter);
    FirstArgSnoc(opts, again, 'h');
    FirstArgSnoc(opts, again, 'p');
    FirstArgSnoc(opts, again, 't');
    if AllKnown(opts, Letters) {
      forall i | 0 <= i < |opts + [again]| ensures (opts + [again])[i].letter in Letters {
        if i < |opts| {
          assert (opts + [again])[i] == opts[i];
        }
      }
    }
    if AllKnown(opts + [again], Letters) {
      forall i | 0 <= i < |opts| ensures opts[i].letter in Letters {
        assert (opts + [again])[i] == opts[i];
      }
    }
  }
}
