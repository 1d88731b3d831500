/** How `gNMIclient.__init__` turns its `(host, port)` target into the target
    it keeps and the address its gRPC channel dials. */
module ClientTarget {
  import opened Wrappers
  import opened Strings

  /** The kept target tuple and the channel address. */
  datatype Endpoint = Endpoint(target: (string, string), targetPath: string)

  /** `re.match("unix:.*", host)`: the host starts with `unix:`. */
  predicate IsUnix(host: string)
  {
    |host| >= 5 && host[..5] == "unix:"
  }

  /** `re.match(".*:.*", host)`: the host holds a colon, as an IPv6 literal
      does. */
  predicate HasColon(host: string)
  {
    ':' in host
  }

  /** The target tuple after the branch on the host. */
  function KeptTarget(host: string, port: string): (string, string)
  {
    if IsUnix(host) then (host, port)
    else if HasColon(host) then ("[" + host + "]", port)
    else (host, port)
  }

  /** The normalisation as written: the `unix:` branch sets the channel
      address to the host alone, but the assignment after the branches
      overwrites it for every host with `host:port`. */
  function NormaliseAsWritten(host: string, port: string): (e: Endpoint)
    ensures e.target == KeptTarget(host, port)
    ensures e.targetPath == e.target.0 + ":" + port
  {
    var t := KeptTarget(host, port);
    Endpoint(t, t.0 + ":" + port)
  }

  /** The normalisation as intended: a `unix:` socket address is dialled as
      it is, every other target as `host:port`, an IPv6 host in brackets. */
  function Normalise(host: string, port: string): (e: Endpoint)
    ensures e.target == KeptTarget(host, port)
    ensures IsUnix(host) ==> e.targetPath == host
    ensures !IsUnix(host) ==> e.targetPath == e.target.0 + ":" + port
  {
    var t := KeptTarget(host, port);
    if IsUnix(host) then Endpoint(t, host) else Endpoint(t, t.0 + ":" + port)
  }

  /** The position of the last occurrence of `c` in `s`. */
  function LastIndex(s: string, c: char): (r: Option<nat>)
    ensures r.Some? ==> r.value < |s| && s[r.value] == c && forall j :: r.value < j < |s| ==> s[j] != c
    ensures r.None? ==> c !in s
  {
    if |s| == 0 then None
    else if s[|s| - 1] == c then Some(|s| - 1)
    else LastIndex(s[..|s| - 1], c)
  }

  /** Splitting the dialled address at its last colon gives back the host as
      kept and the port, provided the port holds no colon; the host itself
      comes back by dropping the brackets exactly when it held a colon. */
  lemma AddressSplits(host: string, port: string)
    requires !IsUnix(host) && ':' !in port
    ensures var e := Normalise(host, port);
            var i := LastIndex(e.targetPath, ':');
            i.Some? && e.targetPath[..i.value] == e.target.0 && e.targetPath[i.value + 1..] == port
    ensures var kept := Normalise(host, port).target.0;
            (HasColon(host) ==> kept == "[" + host + "]" && kept[1..|kept| - 1] == host)
            && (!HasColon(host) ==> kept == host)
  {
    var e := Normalise(host, port);
    var t0 := e.target.0;
    var path := e.targetPath;
    assert path == t0 + ":" + port;
    var i := LastIndex(path, ':');
    assert path[|t0|] == ':';
    assert ':' in path;
    forall j | |t0| < j < |path| ensures path[j] != ':' {
      assert path[j] == port[j - |t0| - 1];
    }
    assert i.value == |t0|;
  }

  /** Finding: for a `unix:` host the code as written dials `host:port`, never
      the socket address it assigned first; the intended version dials the
      socket address. */
  lemma UnixAddressOverwritten(host: string, port: string)
    requires IsUnix(host)
    ensures NormaliseAsWritten(host, port).targetPath == host + ":" + port
    ensures NormaliseAsWritten(host, port).targetPath != host
    ensures Normalise(host, port).targetPath == host
  {
    assert |host + ":" + port| > |host|;
  }

  /** Away from `unix:` hosts the two versions agree. */
  lemma NormaliseAgrees(host: string, port: string)
    requires !IsUnix(host)
    ensures NormaliseAsWritten(host, port) == Normalise(host, port)
  {
  }
}
