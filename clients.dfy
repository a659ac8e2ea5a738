/**
  The network client factory: the two public-address lookup clients and the
  push client, with their static proxy, optional local source address and
  the dial fallback to an unbound connection.
*/
module ClientFactory {
  import opened Wrappers
  import opened Platform

  /** How connections are opened. A local dialer binds to `local` first and, when `retryUnbound`, dials again unbound if that fails. */
  datatype Dialer = SystemDialer | LocalDialer(local: string, retryUnbound: bool)

  /** An HTTP client: the proxy every request goes through, the dialer, and the timeout (0 for none). */
  datatype Client = Client(proxy: Option<Url>, dialer: Dialer, timeout: int)

  /** A lookup: the prepared GET request for the public address service and its client. */
  datatype Lookup = Lookup(request: Request, client: Client)

  datatype ClientError = InvalidLookupUrl(fam: Family) | InvalidProxyUrl | InvalidLocalAddr(fam: Family)

  /** The proxy setting: none for an empty string, otherwise the parsed URL used for every request. */
  function ReadProxyUrl(lib: Lib, s: string): (r: Result<Option<Url>, ClientError>)
    ensures s == "" ==> r == Success(None)
    ensures s != "" ==> (r.Success? <==> lib.parseUrl(s).Some?)
    ensures s != "" && r.Success? ==> r.value == lib.parseUrl(s)
    ensures r.Failure? ==> r.error == InvalidProxyUrl
  {
    if s == "" then Success(None)
    else match lib.parseUrl(s)
      case None => Failure(InvalidProxyUrl)
      case Some(u) => Success(Some(u))
  }

  /** A bare IP as local address gets port 0 joined on; anything else is resolved as written. */
  function LocalAddrText(lib: Lib, la: string): (r: string)
    ensures lib.parseIP(la) ==> |r| >= 2 && r[|r| - 2..] == ":0"
    ensures lib.parseIP(la) && ':' !in la ==> r == la + ":0"
    ensures lib.parseIP(la) && ':' in la ==> r == "[" + la + "]:0"
    ensures !lib.parseIP(la) ==> r == la
  {
    if lib.parseIP(la) then JoinHostPort(la, "0") else la
  }

  /**
    `newIPv4HTTPClient` / `newIPv6HTTPClient`: the lookup request and a
    client without a timeout; a local address gives a bound dialer that
    falls back to an unbound dial only when a proxy is configured.
  */
  function NewLookupClient(lib: Lib, fam: Family, url: string, localAddr: string, proxy: string): (r: Result<Lookup, ClientError>)
    ensures r.Success? <==>
      && lib.parseUrl(url).Some?
      && ReadProxyUrl(lib, proxy).Success?
      && (localAddr != "" ==> lib.resolveTcp(fam, LocalAddrText(lib, localAddr)).Some?)
    ensures lib.parseUrl(url).None? ==> r == Failure(InvalidLookupUrl(fam))
    ensures lib.parseUrl(url).Some? && ReadProxyUrl(lib, proxy).Failure? ==> r == Failure(ReadProxyUrl(lib, proxy).error)
    ensures lib.parseUrl(url).Some? && ReadProxyUrl(lib, proxy).Success? && r.Failure? ==> r == Failure(InvalidLocalAddr(fam))
    ensures r.Success? ==>
      && lib.parseUrl(url).Some?
      && r.value.request == Request("GET", lib.parseUrl(url).value, None)
      && Success(r.value.client.proxy) == ReadProxyUrl(lib, proxy)
      && r.value.client.timeout == 0
    ensures r.Success? && localAddr == "" ==> r.value.client.dialer == SystemDialer
    ensures r.Success? && localAddr != "" ==>
      && r.value.client.dialer.LocalDialer?
      && Some(r.value.client.dialer.local) == lib.resolveTcp(fam, LocalAddrText(lib, localAddr))
      && r.value.client.dialer.retryUnbound == r.value.client.proxy.Some?
    ensures r.Failure? && r.error == InvalidLocalAddr(fam) ==>
      localAddr != "" && lib.resolveTcp(fam, LocalAddrText(lib, localAddr)).None?
  {
    match lib.parseUrl(url)
    case None => Failure(InvalidLookupUrl(fam))
    case Some(u) =>
      match ReadProxyUrl(lib, proxy)
      case Failure(e) => Failure(e)
      case Success(p) =>
        var req := Request("GET", u, None);
        if localAddr == "" then Success(Lookup(req, Client(p, SystemDialer, 0)))
        else match lib.resolveTcp(fam, LocalAddrText(lib, localAddr))
          case None => Failure(InvalidLocalAddr(fam))
          case Some(a) => Success(Lookup(req, Client(p, LocalDialer(a, p.Some?), 0)))
  }

  /** The dial attempts made for one connection (`None` for unbound) and whether one connected. */
  datatype DialTrace = DialTrace(attempts: seq<Option<string>>, connected: bool)

  /** One connection attempt through `d`, where `connect` says which dials succeed. */
  function Dial(d: Dialer, connect: Option<string> -> bool): (t: DialTrace)
    ensures 1 <= |t.attempts| <= 2
    ensures t.attempts[0] == (if d.LocalDialer? then Some(d.local) else None)
    ensures |t.attempts| == 2 <==> d.LocalDialer? && d.retryUnbound && !connect(Some(d.local))
    ensures |t.attempts| == 2 ==> t.attempts[1] == None
    ensures t.connected == connect(t.attempts[|t.attempts| - 1])
  {
    match d
    case SystemDialer => DialTrace([None], connect(None))
    case LocalDialer(a, retry) =>
      if connect(Some(a)) || !retry then DialTrace([Some(a)], connect(Some(a)))
      else DialTrace([Some(a), None], connect(None))
  }

  /**
    A lookup client with a local address reaches its target when the unbound
    dial does, exactly when a proxy is configured.
  */
  lemma {:induction false} FallbackNeedsProxy(lib: Lib, fam: Family, url: string, localAddr: string, proxy: string, connect: Option<string> -> bool)
    requires NewLookupClient(lib, fam, url, localAddr, proxy).Success?
    requires localAddr != ""
    requires connect(None)
    ensures Dial(NewLookupClient(lib, fam, url, localAddr, proxy).value.client.dialer, connect).connected
            <==> proxy != "" || connect(Some(NewLookupClient(lib, fam, url, localAddr, proxy).value.client.dialer.local))
  {
  }
}
