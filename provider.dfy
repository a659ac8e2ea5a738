/**
  The provider engine: a decoded provider definition is validated into a
  provider (its host rendered and parsed once, its accepted responses split
  on `|`), and the provider builds one push request per address family,
  writing the current address into its argument map in place.
*/
module ProviderEngine {
  import opened Wrappers
  import opened Platform
  import Strings

  /** The `[meta]` table of a provider file. */
  datatype Meta = Meta(hostUrl: string, httpMethod: string, response: string)

  /** The `[ipv4]` or `[ipv6]` table: a path template and an optional body template. */
  datatype Section = Section(path: string, body: string)

  /** A decoded provider file; `args` is `None` when the file has no `[args]` table (a nil map). */
  datatype Definition = Definition(meta: Meta, ipv4: Section, ipv6: Section, args: Option<map<string, string>>)
  {
    function SectionOf(fam: Family): Section
    {
      match fam
      case IPv4 => ipv4
      case IPv6 => ipv6
    }

    /** The arguments as a template sees them: a nil map reads like an empty one. */
    function ArgsView(): map<string, string>
    {
      if args.Some? then args.value else map[]
    }

    /** Building a request for `fam` writes into the argument map, which must then exist. */
    predicate CanWrite(fam: Family)
    {
      SectionOf(fam).path != "" ==> args.Some?
    }

    predicate Writable()
    {
      CanWrite(IPv4) && CanWrite(IPv6)
    }
  }

  /** The value of a loaded provider: its definition (with the current arguments), host and accepted responses. */
  datatype ProviderState = ProviderState(cfg: Definition, host: Url, resp: seq<string>)

  /** The argument key that receives the current address of `fam`. */
  function ArgKey(fam: Family): (k: string)
    ensures k == (if fam == IPv4 then "ipv4" else "ipv6")
  {
    match fam
    case IPv4 => "ipv4"
    case IPv6 => "ipv6"
  }

  datatype LoadError =
    | ReadFailed(path: string, reason: string)
    | HostTemplateParse
    | HostTemplateExec
    | HostUrlInvalid
    | NoPath

  datatype RequestError =
    | PathParse(fam: Family)
    | PathExec(fam: Family)
    | BodyParse(fam: Family)
    | BodyExec(fam: Family)
    | RequestInvalid(fam: Family)

  /** The host template renders over the arguments and the result parses as a URL. */
  predicate HostResolves(lib: Lib, def: Definition)
  {
    var h := Render(lib, def.meta.hostUrl, def.ArgsView());
    h.Success? && lib.parseUrl(h.value).Some?
  }

  /**
    Validate a decoded definition. Host problems are reported before the
    missing-path check; the path and body templates are not looked at.
  */
  function NewProvider(lib: Lib, def: Definition): (r: Result<ProviderState, LoadError>)
    ensures r.Success? <==> HostResolves(lib, def) && (def.ipv4.path != "" || def.ipv6.path != "")
    ensures !lib.parseTemplate(def.meta.hostUrl) ==> r == Failure(HostTemplateParse)
    ensures r == Failure(NoPath) <==> HostResolves(lib, def) && def.ipv4.path == "" && def.ipv6.path == ""
    ensures r.Success? ==>
      && r.value.cfg == def
      && Some(r.value.host) == lib.parseUrl(Render(lib, def.meta.hostUrl, def.ArgsView()).value)
      && Strings.Join(r.value.resp, '|') == def.meta.response
      && |r.value.resp| == Strings.Count(def.meta.response, '|') + 1
  {
    match Render(lib, def.meta.hostUrl, def.ArgsView())
    case Failure(ParseFailed) => Failure(HostTemplateParse)
    case Failure(ExecFailed) => Failure(HostTemplateExec)
    case Success(h) =>
      match lib.parseUrl(h)
      case None => Failure(HostUrlInvalid)
      case Some(host) =>
        if def.ipv4.path == "" && def.ipv6.path == "" then Failure(NoPath)
        else
          var resp := Strings.Split(def.meta.response, '|');
          Strings.JoinSplit(def.meta.response, '|');
          Strings.SplitLength(def.meta.response, '|');
          Success(ProviderState(def, host, resp))
  }

  /**
    The request for `fam` rendered from the provider's current arguments:
    path template, then the body template when there is one, then the URL,
    with the provider's one method for both families (GET when it is empty,
    as `http.NewRequest` defaults it).
  */
  function RenderRequest(lib: Lib, s: ProviderState, fam: Family): Result<Request, RequestError>
  {
    var sec := s.cfg.SectionOf(fam);
    var args := s.cfg.ArgsView();
    match Render(lib, sec.path, args)
    case Failure(ParseFailed) => Failure(PathParse(fam))
    case Failure(ExecFailed) => Failure(PathExec(fam))
    case Success(path) =>
      var body :=
        if sec.body == "" then Success(None)
        else match Render(lib, sec.body, args)
          case Failure(ParseFailed) => Failure(BodyParse(fam))
          case Failure(ExecFailed) => Failure(BodyExec(fam))
          case Success(b) => Success(Some(b));
      if body.Failure? then Failure(body.error)
      else
        var url := lib.joinPath(s.host, path);
        var verb := RequestMethod(s.cfg.meta.httpMethod);
        if lib.requestOk(verb, url) then Success(Request(verb, url, body.value))
        else Failure(RequestInvalid(fam))
  }

  /**
    A rendered request carries the provider's method (GET when none is set),
    the URL joined from the host and the rendered path, and the rendered body
    exactly when the family has a body template. The path template is parsed
    and executed first, then the body template, then the request is checked;
    the first step that fails decides the error.
  */
  lemma {:induction false} RenderRequestShape(lib: Lib, s: ProviderState, fam: Family)
    ensures
      var r := RenderRequest(lib, s, fam);
      var sec := s.cfg.SectionOf(fam);
      var args := s.cfg.ArgsView();
      var path := Render(lib, sec.path, args);
      var body := Render(lib, sec.body, args);
      var verb := if s.cfg.meta.httpMethod == "" then "GET" else s.cfg.meta.httpMethod;
      && (r.Success? <==>
            && path.Success?
            && (sec.body != "" ==> body.Success?)
            && lib.requestOk(verb, lib.joinPath(s.host, path.value)))
      && (r.Success? ==> r.value.httpMethod == verb)
      && (r.Success? ==> r.value.url == lib.joinPath(s.host, path.value))
      && (r.Success? && sec.body == "" ==> r.value.body == None)
      && (r.Success? && sec.body != "" ==> r.value.body == Some(body.value))
      && (path == Failure(ParseFailed) ==> r == Failure(PathParse(fam)))
      && (path == Failure(ExecFailed) ==> r == Failure(PathExec(fam)))
      && (path.Success? && sec.body != "" && body == Failure(ParseFailed) ==> r == Failure(BodyParse(fam)))
      && (path.Success? && sec.body != "" && body == Failure(ExecFailed) ==> r == Failure(BodyExec(fam)))
      && (path.Success? && (sec.body != "" ==> body.Success?) && r.Failure? ==> r == Failure(RequestInvalid(fam)))
  {
  }

  /**
    `NewIPv4Request` / `NewIPv6Request` on the provider's value: the request
    (`None` when the family has no path) and the provider afterwards.
  */
  function BuildRequest(lib: Lib, s: ProviderState, fam: Family, ip: string): (out: (Result<Option<Request>, RequestError>, ProviderState))
    requires s.cfg.CanWrite(fam)
    ensures out.1.cfg.Writable() == s.cfg.Writable()
  {
    if s.cfg.SectionOf(fam).path == "" then (Success(None), s)
    else
      var s' := s.(cfg := s.cfg.(args := Some(s.cfg.args.value[ArgKey(fam) := ip])));
      match RenderRequest(lib, s', fam)
      case Failure(e) => (Failure(e), s')
      case Success(req) => (Success(Some(req)), s')
  }

  /**
    Building a request changes only the argument map: a family without a path
    gives no request and no change; otherwise the address is stored under the
    family's key, every other argument is kept, and the request is the one
    rendered from the updated arguments.
  */
  lemma {:induction false} BuildRequestEffect(lib: Lib, s: ProviderState, fam: Family, ip: string)
    requires s.cfg.CanWrite(fam)
    ensures
      var out := BuildRequest(lib, s, fam, ip);
      && out.1.host == s.host && out.1.resp == s.resp
      && out.1.cfg.meta == s.cfg.meta && out.1.cfg.ipv4 == s.cfg.ipv4 && out.1.cfg.ipv6 == s.cfg.ipv6
      && (s.cfg.SectionOf(fam).path == "" ==> out == (Success(None), s))
      && (s.cfg.SectionOf(fam).path != "" ==>
            && out.1.cfg.args.Some?
            && out.1.cfg.args.value.Keys == s.cfg.args.value.Keys + {ArgKey(fam)}
            && out.1.cfg.args.value[ArgKey(fam)] == ip
            && (forall k :: k in s.cfg.args.value && k != ArgKey(fam) ==> out.1.cfg.args.value[k] == s.cfg.args.value[k])
            && (out.0.Success? <==> RenderRequest(lib, out.1, fam).Success?)
            && (out.0.Success? ==> out.0.value == Some(RenderRequest(lib, out.1, fam).value)))
  {
  }

  /**
    The address written for IPv4 stays in the arguments and is what the IPv6
    templates see next, and the host is the one computed at load time.
  */
  lemma {:induction false} ArgsPersist(lib: Lib, s: ProviderState, ip4: string, ip6: string)
    requires s.cfg.Writable()
    requires s.cfg.ipv4.path != ""
    ensures
      var s1 := BuildRequest(lib, s, IPv4, ip4).1;
      var s2 := BuildRequest(lib, s1, IPv6, ip6).1;
      && s2.host == s.host
      && "ipv4" in s2.cfg.ArgsView() && s2.cfg.ArgsView()["ipv4"] == ip4
      && (s.cfg.ipv6.path != "" ==> s2.cfg.ArgsView()["ipv6"] == ip6)
  {
    var s1 := BuildRequest(lib, s, IPv4, ip4).1;
    assert s1.cfg.args.value["ipv4"] == ip4;
    assert s1.cfg.Writable();
  }

  /** The mutable provider: only its argument map changes after loading. */
  class Provider {
    const meta: Meta
    const ipv4: Section
    const ipv6: Section
    var args: Option<map<string, string>>
    const host: Url
    const resp: seq<string>

    constructor (s: ProviderState)
      ensures State() == s
    {
      meta, ipv4, ipv6, args := s.cfg.meta, s.cfg.ipv4, s.cfg.ipv6, s.cfg.args;
      host, resp := s.host, s.resp;
    }

    function State(): ProviderState
      reads this
    {
      ProviderState(Definition(meta, ipv4, ipv6, args), host, resp)
    }

    /** Write the address into the arguments, then render and build the request. */
    method NewRequest(lib: Lib, fam: Family, ip: string) returns (r: Result<Option<Request>, RequestError>)
      requires State().cfg.CanWrite(fam)
      modifies this`args
      ensures (r, State()) == BuildRequest(lib, old(State()), fam, ip)
    {
      var sec := if fam == IPv4 then ipv4 else ipv6;
      if sec.path == "" {
        return Success(None);
      }
      args := Some(args.value[ArgKey(fam) := ip]);
      var path := Render(lib, sec.path, args.value);
      if path.Failure? {
        return Failure(if path.error == ParseFailed then PathParse(fam) else PathExec(fam));
      }
      var body: Option<string> := None;
      if sec.body != "" {
        var b := Render(lib, sec.body, args.value);
        if b.Failure? {
          return Failure(if b.error == ParseFailed then BodyParse(fam) else BodyExec(fam));
        }
        body := Some(b.value);
      }
      var url := lib.joinPath(host, path.value);
      var verb := RequestMethod(meta.httpMethod);
      if !lib.requestOk(verb, url) {
        return Failure(RequestInvalid(fam));
      }
      r := Success(Some(Request(verb, url, body)));
    }

    method NewIPv4Request(lib: Lib, ip: string) returns (r: Result<Option<Request>, RequestError>)
      requires State().cfg.CanWrite(IPv4)
      modifies this`args
      ensures (r, State()) == BuildRequest(lib, old(State()), IPv4, ip)
    {
      r := NewRequest(lib, IPv4, ip);
    }

    method NewIPv6Request(lib: Lib, ip: string) returns (r: Result<Option<Request>, RequestError>)
      requires State().cfg.CanWrite(IPv6)
      modifies this`args
      ensures (r, State()) == BuildRequest(lib, old(State()), IPv6, ip)
    {
      r := NewRequest(lib, IPv6, ip);
    }
  }
}
