/**
 * The client's main, ssh-tunnelc/ssh-tunnelc.c: parse the arguments, build
 * the "proxyhost:proxyport" string that nc is given, and ask the daemon
 * for the tunnel.
 */
module Tunnelc {
  import opened Wrappers
  import opened Wire
  import opened Getopt
  import TunnelcOptions
  import opened Control

  /** The C string a character buffer holds: everything before its first NUL. */
  function CStringValue(buf: seq<char>): (s: CString)
    ensures |s| <= |buf| && s == buf[..|s|]
    ensures |s| < |buf| ==> buf[|s|] == '\0'
  {
    if buf == [] || buf[0] == '\0' then []
    else [buf[0]] + CStringValue(buf[1..])
  }

  /** A string without NUL followed by a terminator reads back as itself. */
  lemma {:induction false} CStringOfTerminated(s: CString, rest: seq<char>)
    ensures CStringValue(s + ['\0'] + rest) == s
  {
    if s != [] {
      assert (s + ['\0'] + rest)[1..] == s[1..] + ['\0'] + rest;
      CStringOfTerminated(s[1..], rest);
    }
  }

  /** What strncpy(dst, src, n) writes: src cut to n characters, padded with NULs up to n. */
  function StrNCopied(src: CString, n: nat): (w: seq<char>)
    ensures |w| == n
    ensures forall k :: 0 <= k < n ==> w[k] == if k < |src| then src[k] else '\0'
  {
    if n <= |src| then src[..n] else src + seq(n - |src|, _ => '\0')
  }

  /** strncpy(dst + offset, src, n); it writes exactly dst[offset..offset + n]. */
  method StrNCopy(dst: array<char>, offset: nat, src: CString, n: nat)
    requires offset + n <= dst.Length
    modifies dst
    ensures dst[..] == old(dst[..offset]) + StrNCopied(src, n) + old(dst[offset + n..])
  {
    ghost var before := dst[..];
    ghost var w := StrNCopied(src, n);
    var k := 0;
    while k < n
      invariant 0 <= k <= n
      invariant forall j :: 0 <= j < dst.Length ==>
        dst[j] == if offset <= j < offset + k then w[j - offset] else before[j]
    {
      dst[offset + k] := if k < |src| then src[k] else '\0';
      k := k + 1;
    }
    ghost var expected := before[..offset] + w + before[offset + n..];
    assert |expected| == dst.Length;
    forall j | 0 <= j < dst.Length ensures dst[j] == expected[j] {
      if j < offset {
        assert expected[j] == before[j];
      } else if j < offset + n {
        assert expected[j] == w[j - offset];
      } else {
        assert expected[j] == before[j];
      }
    }
    assert dst[..] == expected;
  }

  /**
   * The proxy_host_port buffer: phost_len + pport_len + 2 characters holding
   * the host, ':' at index phost_len, the port, and NUL at the last index.
   * The precondition of each StrNCopy call is the bound that keeps every
   * write inside the buffer.
   */
  method ProxyEndpoint(host: CString, port: CString) returns (buf: array<char>)
    ensures fresh(buf)
    ensures buf.Length == |host| + |port| + 2
    ensures buf[..] == host + [':'] + port + ['\0']
    ensures CStringValue(buf[..]) == host + ":" + port
  {
    var hostLen := |host|;
    var portLen := |port|;
    buf := new char[hostLen + portLen + 2];
    assert StrNCopied(host, hostLen) == host && StrNCopied(port, portLen) == port;
    StrNCopy(buf, 0, host, hostLen);
    assert buf[..hostLen] == host;
    buf[hostLen] := ':';
    assert buf[..hostLen + 1] == host + [':'];
    StrNCopy(buf, hostLen + 1, port, portLen);
    assert buf[..hostLen + 1 + portLen] == buf[..hostLen + 1] + port;
    buf[hostLen + portLen + 1] := '\0';
    assert buf[..] == buf[..hostLen + 1 + portLen] + ['\0'];
    CStringOfTerminated(host + ":" + port, []);
    assert host + ":" + port + ['\0'] + [] == buf[..];
  }

  /** The proxy host after option processing; it is also the daemon's host. */
  function ProxyHost(opts: seq<Opt>): CString {
    FirstArg(opts, 'h').GetOr(TunnelcOptions.DefaultProxyHost)
  }

  function ProxyPort(opts: seq<Opt>): CString {
    FirstArg(opts, 'p').GetOr(TunnelcOptions.DefaultProxyPort)
  }

  function TunnelPort(opts: seq<Opt>): CString {
    FirstArg(opts, 't').GetOr(TunnelcOptions.DefaultTunnelPort)
  }

  /** The command line is accepted by process_arguments. */
  predicate Accepted(opts: seq<Opt>, positional: seq<CString>, heapOk: bool) {
    AllKnown(opts, TunnelcOptions.Letters) && |positional| >= 2 &&
    (heapOk || !TunnelcOptions.NeedsDefault(opts))
  }

  /**
   * main up to the fork of nc: a rejected command line ends the client before
   * it touches the network; otherwise it sends 'C' to the daemon on the proxy
   * host at the control port, and goes on (r.Return?) only when the daemon
   * acknowledged. The returned value is the string passed to nc after -x.
   */
  method ClientMain(opts: seq<Opt>, positional: seq<CString>, heapOk: bool, net: Network)
    returns (r: Status<string>, ops: seq<Op>)
    ensures !Accepted(opts, positional, heapOk) ==> r.ExitFailure? && ops == []
    ensures Accepted(opts, positional, heapOk) ==>
      (r.Return? <==> Delivered(net, ProxyHost(opts), TunnelPort(opts), Connect))
    ensures r.Return? ==> r.value == ProxyHost(opts) + ":" + ProxyPort(opts)
    ensures Accepted(opts, positional, heapOk) && Socket(net, ProxyHost(opts), TunnelPort(opts)).Some? ==>
      |ops| >= 1 && ops[0] == Send(Socket(net, ProxyHost(opts), TunnelPort(opts)).value, Connect)
  {
    var options := TunnelcOptions.ProcessArguments(opts, positional, heapOk);
    if options.ExitFailure? {
      return ExitFailure, [];
    }
    var tunneldHost := options.value.proxyHost;
    var tunneldPort := options.value.tunnelPort;
    var proxyHostPort := ProxyEndpoint(options.value.proxyHost, options.value.proxyPort);
    var started;
    started, ops := ConnectionStart(tunneldHost, tunneldPort, net);
    if started.ExitFailure? {
      return ExitFailure, ops;
    }
    r := Return(CStringValue(proxyHostPort[..]));
  }
}
