/**
  The parts of Go's standard library that the updater calls: text/template,
  net/url, net/http request construction, net address parsing and
  path/filepath. Their behaviour is not part of this model, so each one is a
  field of `Lib`, a record of total functions that every operation takes as a
  parameter; a call that may fail returns `false` or `None` for failure.
*/
module Platform {
  import opened Wrappers

  /** An address family, independent at every stage of the updater. */
  datatype Family = IPv4 | IPv6

  /** A parsed URL, identified with its string form. */
  type Url = string

  /** An HTTP request as the updater builds it: method, URL and optional body. */
  datatype Request = Request(httpMethod: string, url: Url, body: Option<string>)

  datatype Lib = Lib(
    /** `template.New(..).Parse(text)` succeeds */
    parseTemplate: string -> bool,
    /** `Execute` of a parsed template over a string map; `None` when it fails */
    executeTemplate: (string, map<string, string>) -> Option<string>,
    /** `url.Parse` */
    parseUrl: string -> Option<Url>,
    /** `(*url.URL).JoinPath(path).String()` */
    joinPath: (Url, string) -> Url,
    /** `http.NewRequest(method, url, body)` accepts this (already defaulted) method and URL */
    requestOk: (string, Url) -> bool,
    /** `net.ParseIP(s) != nil` */
    parseIP: string -> bool,
    /** `net.ResolveTCPAddr("tcp4" / "tcp6", s)`, giving the resolved local endpoint */
    resolveTcp: (Family, string) -> Option<string>,
    /** `filepath.Join(dir, name)` */
    filepathJoin: (string, string) -> string)

  /** Which of the two template steps failed. */
  datatype TemplateError = ParseFailed | ExecFailed

  /** Parse a template and execute it over `args`, as every template use in the updater does. */
  function Render(lib: Lib, text: string, args: map<string, string>): Result<string, TemplateError>
  {
    if !lib.parseTemplate(text) then Failure(ParseFailed)
    else match lib.executeTemplate(text, args)
      case None => Failure(ExecFailed)
      case Some(s) => Success(s)
  }

  /** The method `http.NewRequest` uses: an empty method means GET. */
  function RequestMethod(m: string): string
  {
    if m == "" then "GET" else m
  }

  /** `net.JoinHostPort`: a host holding a colon (an IPv6 literal) is bracketed. */
  function JoinHostPort(host: string, port: string): (r: string)
    ensures |r| == |host| + |port| + (if ':' in host then 3 else 1)
    ensures r[|r| - |port| - 1..] == ":" + port
    ensures ':' !in host ==> r[..|host|] == host
    ensures ':' in host ==> r[0] == '[' && r[1..|host| + 1] == host && r[|host| + 1] == ']'
  {
    if ':' in host then "[" + host + "]:" + port else host + ":" + port
  }
}
