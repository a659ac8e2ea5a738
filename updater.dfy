/**
  The updater: construction from the configuration (defaults, validation,
  lookup clients, ordered provider loading, push client), the run/stop
  state machine, and the update pass over the mutable providers.
*/
module Ddns {
  import opened Wrappers
  import opened Collecting
  import opened Platform
  import opened ProviderEngine
  import opened ClientFactory
  import opened PushStage
  import opened UpdateCycle

  /** `time.Minute` and `15 * time.Second`, in nanoseconds like `time.Duration`. */
  const DefaultPeriod: int := 60 * 1_000_000_000
  const DefaultTimeout: int := 15 * 1_000_000_000

  /** One `[public_ipv4]` / `[public_ipv6]` table. */
  datatype FamilyConfig = FamilyConfig(enable: bool, url: string, localAddr: string, proxy: string)

  /** The `[provider]` table: directory, ordered file names, push proxy. */
  datatype ProviderList = ProviderList(dir: string, items: seq<string>, proxy: string)

  /** The configuration; durations are nanosecond counts. */
  datatype Config = Config(
    period: int,
    timeout: int,
    logFile: string,
    publicIPv4: FamilyConfig,
    publicIPv6: FamilyConfig,
    provider: ProviderList)

  datatype SetupError =
    | LoggerFailed(reason: string)
    | AllFamiliesDisabled
    | ClientFailed(clientError: ClientError)
    | ProviderFailed(loadError: LoadError)

  /** What a successful construction holds. */
  datatype Plan = Plan(
    period: int,
    lookupV4: Option<Lookup>,
    lookupV6: Option<Lookup>,
    providers: seq<ProviderState>,
    push: Client)

  /** `loadProvider`: read and decode the file (an input here), then validate it. */
  function LoadOne(lib: Lib, read: string -> Result<Definition, string>, path: string): (r: Result<ProviderState, LoadError>)
    ensures read(path).Failure? ==> r == Failure(ReadFailed(path, read(path).error))
    ensures read(path).Success? ==> r == NewProvider(lib, read(path).value)
  {
    match read(path)
    case Failure(m) => Failure(ReadFailed(path, m))
    case Success(def) => NewProvider(lib, def)
  }

  /** The outcome of loading each configured file, in the configured order. */
  function Loads(lib: Lib, read: string -> Result<Definition, string>, dir: string, items: seq<string>)
    : (rs: seq<Result<ProviderState, LoadError>>)
    ensures |rs| == |items|
    ensures forall i :: 0 <= i < |items| ==> rs[i] == LoadOne(lib, read, lib.filepathJoin(dir, items[i]))
  {
    seq(|items|, i requires 0 <= i < |items| => LoadOne(lib, read, lib.filepathJoin(dir, items[i])))
  }

  /** `loadProviders` on values: every configured file in order, stopping at the first failure. */
  function LoadAll(lib: Lib, read: string -> Result<Definition, string>, dir: string, items: seq<string>)
    : Result<seq<ProviderState>, LoadError>
  {
    Collect(Loads(lib, read, dir, items), |items|)
  }

  /** A successful load has one provider per file, in the configured order. */
  lemma {:induction false} LoadAllInOrder(lib: Lib, read: string -> Result<Definition, string>, dir: string, items: seq<string>)
    requires LoadAll(lib, read, dir, items).Success?
    ensures |LoadAll(lib, read, dir, items).value| == |items|
    ensures forall i :: 0 <= i < |items| ==>
      LoadOne(lib, read, lib.filepathJoin(dir, items[i])) == Success(LoadAll(lib, read, dir, items).value[i])
  {
    CollectInOrder(Loads(lib, read, dir, items), |items|);
  }

  /** Loading fails exactly with the error of the first file that fails. */
  lemma {:induction false} LoadAllFirstFailure(lib: Lib, read: string -> Result<Definition, string>, dir: string, items: seq<string>, k: nat)
    requires k < |items|
    requires forall i :: 0 <= i < k ==> LoadOne(lib, read, lib.filepathJoin(dir, items[i])).Success?
    requires LoadOne(lib, read, lib.filepathJoin(dir, items[k])).Failure?
    ensures LoadAll(lib, read, dir, items) == Failure(LoadOne(lib, read, lib.filepathJoin(dir, items[k])).error)
  {
    CollectFirstFailure(Loads(lib, read, dir, items), k);
  }

  /** Loading succeeds exactly when every file loads. */
  lemma {:induction false} LoadAllSucceeds(lib: Lib, read: string -> Result<Definition, string>, dir: string, items: seq<string>)
    ensures LoadAll(lib, read, dir, items).Success? <==>
      forall i :: 0 <= i < |items| ==> LoadOne(lib, read, lib.filepathJoin(dir, items[i])).Success?
  {
    CollectSucceedsIff(Loads(lib, read, dir, items));
  }

  /** An enabled family's lookup, with the configured timeout applied to its client. */
  function LookupFor(lib: Lib, fam: Family, fc: FamilyConfig, timeout: int): (r: Result<Option<Lookup>, SetupError>)
    ensures !fc.enable ==> r == Success(None)
    ensures fc.enable && r.Success? ==> r.value.Some? && r.value.value.client.timeout == timeout
    ensures fc.enable ==> (r.Success? <==> NewLookupClient(lib, fam, fc.url, fc.localAddr, fc.proxy).Success?)
    ensures fc.enable && r.Failure? ==> r.error == ClientFailed(NewLookupClient(lib, fam, fc.url, fc.localAddr, fc.proxy).error)
    ensures fc.enable && r.Success? ==>
      var l := NewLookupClient(lib, fam, fc.url, fc.localAddr, fc.proxy).value;
      && r.value.value.request == l.request
      && r.value.value.client.proxy == l.client.proxy
      && r.value.value.client.dialer == l.client.dialer
  {
    if !fc.enable then Success(None)
    else match NewLookupClient(lib, fam, fc.url, fc.localAddr, fc.proxy)
      case Failure(e) => Failure(ClientFailed(e))
      case Success(l) => Success(Some(l.(client := l.client.(timeout := timeout))))
  }

  /**
    `NewUpdater` on values. The steps run in order: logger, the family check,
    the IPv4 and IPv6 lookup clients, the providers, the push proxy.
  */
  function Setup(lib: Lib, read: string -> Result<Definition, string>, loggerErr: Option<string>, cfg: Config)
    : (r: Result<Plan, SetupError>)
    ensures loggerErr.Some? ==> r == Failure(LoggerFailed(loggerErr.value))
    ensures r == Failure(AllFamiliesDisabled) <==> loggerErr.None? && !cfg.publicIPv4.enable && !cfg.publicIPv6.enable
    ensures
      var timeout := if cfg.timeout == 0 then DefaultTimeout else cfg.timeout;
      var v4 := LookupFor(lib, IPv4, cfg.publicIPv4, timeout);
      var v6 := LookupFor(lib, IPv6, cfg.publicIPv6, timeout);
      var ps := LoadAll(lib, read, cfg.provider.dir, cfg.provider.items);
      var proxy := ReadProxyUrl(lib, cfg.provider.proxy);
      && (r.Success? <==>
            loggerErr.None? && (cfg.publicIPv4.enable || cfg.publicIPv6.enable)
            && v4.Success? && v6.Success? && ps.Success? && proxy.Success?)
      && (loggerErr.None? && (cfg.publicIPv4.enable || cfg.publicIPv6.enable) ==>
            && (v4.Failure? ==> r == Failure(v4.error))
            && (v4.Success? && v6.Failure? ==> r == Failure(v6.error))
            && (v4.Success? && v6.Success? && ps.Failure? ==> r == Failure(ProviderFailed(ps.error)))
            && (v4.Success? && v6.Success? && ps.Success? && proxy.Failure? ==> r == Failure(ClientFailed(proxy.error))))
      && (r.Success? ==> Success(r.value.lookupV4) == v4 && Success(r.value.lookupV6) == v6)
    ensures r.Success? ==> cfg.publicIPv4.enable || cfg.publicIPv6.enable
    ensures r.Success? ==> r.value.period == (if cfg.period == 0 then DefaultPeriod else cfg.period)
    ensures r.Success? ==>
      var timeout := if cfg.timeout == 0 then DefaultTimeout else cfg.timeout;
      && (r.value.lookupV4.Some? <==> cfg.publicIPv4.enable)
      && (r.value.lookupV6.Some? <==> cfg.publicIPv6.enable)
      && (r.value.lookupV4.Some? ==> r.value.lookupV4.value.client.timeout == timeout)
      && (r.value.lookupV6.Some? ==> r.value.lookupV6.value.client.timeout == timeout)
      && r.value.push.timeout == timeout
    ensures r.Success? ==> LoadAll(lib, read, cfg.provider.dir, cfg.provider.items) == Success(r.value.providers)
    ensures r.Success? ==> r.value.push.dialer == SystemDialer && Success(r.value.push.proxy) == ReadProxyUrl(lib, cfg.provider.proxy)
  {
    var period := if cfg.period == 0 then DefaultPeriod else cfg.period;
    var timeout := if cfg.timeout == 0 then DefaultTimeout else cfg.timeout;
    if loggerErr.Some? then Failure(LoggerFailed(loggerErr.value))
    else if !cfg.publicIPv4.enable && !cfg.publicIPv6.enable then Failure(AllFamiliesDisabled)
    else
      match LookupFor(lib, IPv4, cfg.publicIPv4, timeout)
      case Failure(e) => Failure(e)
      case Success(v4) =>
        match LookupFor(lib, IPv6, cfg.publicIPv6, timeout)
        case Failure(e) => Failure(e)
        case Success(v6) =>
          match LoadAll(lib, read, cfg.provider.dir, cfg.provider.items)
          case Failure(e) => Failure(ProviderFailed(e))
          case Success(ps) =>
            match ReadProxyUrl(lib, cfg.provider.proxy)
            case Failure(e) => Failure(ClientFailed(e))
            case Success(proxy) => Success(Plan(period, v4, v6, ps, Client(proxy, SystemDialer, timeout)))
  }

  predicate Distinct(ps: seq<Provider>)
  {
    forall i, j :: 0 <= i < j < |ps| ==> ps[i] != ps[j]
  }

  lemma {:induction false} DistinctAppend(ps: seq<Provider>, p: Provider)
    requires Distinct(ps) && p !in ps
    ensures Distinct(ps + [p])
  {
  }

  /** The values of the providers, in order. */
  function StatesOf(ps: seq<Provider>): (ss: seq<ProviderState>)
    reads ps
    ensures |ss| == |ps|
    ensures forall i :: 0 <= i < |ps| ==> ss[i] == ps[i].State()
  {
    if ps == [] then [] else StatesOf(ps[..|ps| - 1]) + [ps[|ps| - 1].State()]
  }

  lemma {:induction false} StatesOfAppend(ps: seq<Provider>, p: Provider)
    ensures StatesOf(ps + [p]) == StatesOf(ps) + [p.State()]
  {
    assert (ps + [p])[..|ps|] == ps;
  }

  /** `loadProvider`: a fresh provider for the file, or the error. */
  method LoadProvider(lib: Lib, read: string -> Result<Definition, string>, path: string) returns (r: Result<Provider, LoadError>)
    ensures r.Failure? ==> LoadOne(lib, read, path) == Failure(r.error)
    ensures r.Success? ==> fresh(r.value) && LoadOne(lib, read, path) == Success(r.value.State())
  {
    var loaded := LoadOne(lib, read, path);
    if loaded.Failure? {
      return Failure(loaded.error);
    }
    var p := new Provider(loaded.value);
    r := Success(p);
  }

  /** `loadProviders`: load each configured file in order, stopping at the first failure. */
  method LoadProviders(lib: Lib, read: string -> Result<Definition, string>, dir: string, items: seq<string>)
    returns (r: Result<seq<Provider>, LoadError>)
    ensures r.Failure? ==> LoadAll(lib, read, dir, items) == Failure(r.error)
    ensures r.Success? ==>
      && LoadAll(lib, read, dir, items) == Success(StatesOf(r.value))
      && Distinct(r.value)
      && (forall i :: 0 <= i < |r.value| ==> fresh(r.value[i]))
  {
    ghost var rs := Loads(lib, read, dir, items);
    var ps: seq<Provider> := [];
    var i := 0;
    while i < |items|
      invariant 0 <= i <= |items| && |ps| == i
      invariant Collect(rs, i) == Success(StatesOf(ps))
      invariant Distinct(ps)
      invariant forall j :: 0 <= j < |ps| ==> fresh(ps[j])
    {
      var loaded := LoadProvider(lib, read, lib.filepathJoin(dir, items[i]));
      CollectNext(rs, i);
      if loaded.Failure? {
        CollectStopped(rs, i + 1, |items|);
        return Failure(loaded.error);
      }
      var p := loaded.value;
      assert rs[i] == Success(p.State());
      assert p !in ps;
      DistinctAppend(ps, p);
      StatesOfAppend(ps, p);
      ps := ps + [p];
      i := i + 1;
    }
    r := Success(ps);
  }

  /** The response check of `pushIPv4` / `pushIPv6`: an exact match against some accepted response. */
  method CheckResponse(resp: seq<string>, body: string) returns (err: Option<PushError>)
    ensures err.None? <==> Accepted(resp, body)
    ensures err.Some? ==> err.value == UnexpectedResponse(body)
  {
    var i := 0;
    while i < |resp|
      invariant 0 <= i <= |resp|
      invariant forall j :: 0 <= j < i ==> resp[j] != body
    {
      if body == resp[i] {
        return None;
      }
      i := i + 1;
    }
    err := Some(UnexpectedResponse(body));
  }

  /**
    `run` on values: one pass per scheduler tick, for the first `k` ticks in
    order, until a pass stops the process; the flag says whether one did.
  */
  function Passes(lib: Lib, v4Enabled: bool, v6Enabled: bool, ticks: seq<Network>, ss: seq<ProviderState>, k: nat)
    : (out: (seq<Event>, seq<ProviderState>, bool))
    requires AllWritable(ss) && k <= |ticks|
    ensures |out.1| == |ss| && AllWritable(out.1)
    decreases k, 1
  {
    if k == 0 then ([], ss, false)
    else
      var (evs, ss', crashed) := Passes(lib, v4Enabled, v6Enabled, ticks, ss, k - 1);
      if crashed then (evs, ss', true)
      else
        var (e, ss'') := PassAt(lib, v4Enabled, v6Enabled, ticks, ss, k);
        (evs + e, ss'', Halted(e))
  }

  /** The pass of tick `k`, on the providers as the earlier passes left them. */
  function PassAt(lib: Lib, v4Enabled: bool, v6Enabled: bool, ticks: seq<Network>, ss: seq<ProviderState>, k: nat)
    : (out: (seq<Event>, seq<ProviderState>))
    requires AllWritable(ss) && 0 < k <= |ticks|
    ensures |out.1| == |ss| && AllWritable(out.1)
    decreases k, 0
  {
    Pass(lib, v4Enabled, v6Enabled, ticks[k - 1], Passes(lib, v4Enabled, v6Enabled, ticks, ss, k - 1).1)
  }

  class Updater {
    const period: int
    const lookupV4: Option<Lookup>
    const lookupV6: Option<Lookup>
    const pushClient: Client
    const providers: seq<Provider>
    /** Each provider's position in `providers`: they are distinct objects. */
    ghost const slot: map<Provider, nat>

    /** What the logger receives, as events. */
    var events: seq<Event>

    /** `runOnce` and `stopOnce` have fired; the context is cancelled. */
    var runOnce: bool
    var stopOnce: bool
    var cancelled: bool
    /** The scheduler loop is running (it holds the wait group). */
    var loopActive: bool
    /** Scheduler loops ever started, and logger closes ever done. */
    var loopsStarted: nat
    var loggerCloses: nat

    /** `slot` indexes the providers, so they are distinct objects. */
    ghost predicate Indexed()
    {
      forall i :: 0 <= i < |providers| ==> providers[i] in slot && slot[providers[i]] == i
    }

    ghost predicate Valid()
      reads this
    {
      && Indexed()
      && loopsStarted == (if runOnce then 1 else 0)
      && (loopActive ==> runOnce && !cancelled)
      && (cancelled <==> stopOnce)
      && loggerCloses == (if stopOnce then 1 else 0)
    }

    constructor (period: int, lookupV4: Option<Lookup>, lookupV6: Option<Lookup>, pushClient: Client, providers: seq<Provider>)
      requires Distinct(providers)
      ensures Valid()
      ensures this.period == period && this.lookupV4 == lookupV4 && this.lookupV6 == lookupV6
      ensures this.pushClient == pushClient && this.providers == providers
      ensures events == [] && !runOnce && !stopOnce && !cancelled && !loopActive
    {
      this.period, this.lookupV4, this.lookupV6 := period, lookupV4, lookupV6;
      this.pushClient, this.providers := pushClient, providers;
      this.slot := map i | 0 <= i < |providers| :: providers[i] := i;
      events := [];
      runOnce, stopOnce, cancelled, loopActive := false, false, false, false;
      loopsStarted, loggerCloses := 0, 0;
    }

    function States(): seq<ProviderState>
      reads this, providers
    {
      StatesOf(providers)
    }

    /**
      Start the scheduler loop the first time only. Started after `Stop`, the
      loop sees the cancelled context at once and returns.
    */
    method Run()
      requires Valid()
      modifies this`runOnce, this`loopsStarted, this`loopActive
      ensures Valid() && runOnce && loopsStarted == 1
      ensures old(runOnce) ==> loopActive == old(loopActive)
      ensures !old(runOnce) ==> loopActive == !cancelled
    {
      if !runOnce {
        runOnce := true;
        loopsStarted := loopsStarted + 1;
        loopActive := !cancelled;
      }
    }

    /** The first call cancels, waits for the scheduler loop to return and closes the logger; later calls do nothing. */
    method Stop()
      requires Valid()
      modifies this`stopOnce, this`cancelled, this`loopActive, this`loggerCloses
      ensures Valid() && stopOnce && cancelled && !loopActive && loggerCloses == 1
      ensures old(stopOnce) ==> unchanged(this)
      ensures runOnce == old(runOnce) && loopsStarted == old(loopsStarted)
    {
      if !stopOnce {
        stopOnce := true;
        cancelled := true;
        loopActive := false;
        loggerCloses := loggerCloses + 1;
      }
    }

    /** `pushIPv4` / `pushIPv6`: build the request, send it, check the answer. */
    method PushFamily(lib: Lib, exchange: Request -> Result<string, string>, p: Provider, fam: Family, ip: string)
      returns (o: PushOutcome)
      requires p.State().cfg.CanWrite(fam)
      modifies p`args
      ensures (o, p.State()) == UpdateCycle.PushFamily(lib, exchange, old(p.State()), fam, ip)
    {
      var r := p.NewRequest(lib, fam, ip);
      if r.Failure? {
        return PushFailed(RequestFailed(r.error));
      }
      if r.value.None? {
        // The family has no path; the nil request goes on to the HTTP client.
        return NilRequest;
      }
      var answer := exchange(r.value.value);
      if answer.Failure? {
        return PushFailed(TransportFailed(answer.error));
      }
      var err := CheckResponse(p.resp, answer.value);
      o := if err.None? then Pushed else PushFailed(err.value);
    }

    /** `pushIP`: IPv4 then IPv6, each only with a non-empty address; a failure is logged and the next family still goes. */
    method PushIP(lib: Lib, exchange: Request -> Result<string, string>, i: nat, p: Provider, ipv4: string, ipv6: string)
      returns (halted: bool)
      requires p.State().cfg.Writable()
      modifies this`events, p`args
      ensures
        var (evs, s) := UpdateCycle.PushIP(lib, exchange, i, old(p.State()), ipv4, ipv6);
        events == old(events) + evs && p.State() == s && halted == Halted(evs)
    {
      ghost var s0 := p.State();
      ghost var ev0 := events;
      if ipv4 != "" {
        var o := PushFamily(lib, exchange, p, IPv4, ipv4);
        events := events + [Push(i, IPv4, o)];
        if o == NilRequest {
          return true;
        }
      }
      assert events == ev0 + PushPart(lib, exchange, i, s0, IPv4, ipv4).0;
      assert p.State() == PushPart(lib, exchange, i, s0, IPv4, ipv4).1;
      if ipv6 != "" {
        var o := PushFamily(lib, exchange, p, IPv6, ipv6);
        events := events + [Push(i, IPv6, o)];
        if o == NilRequest {
          return true;
        }
      }
      halted := false;
    }

    /** `Update`: one pass. The result says whether the pass stopped the process. */
    method Update(lib: Lib, net: Network) returns (crashed: bool)
      requires Indexed() && AllWritable(States())
      requires cancelled ==> LookupsCancelled(lookupV4.Some?, lookupV6.Some?, net)
      modifies this`events, providers
      ensures cancelled && (lookupV4.Some? || lookupV6.Some?) ==>
        States() == old(States()) && !crashed && |events| == |old(events)| + 1 && events[|events| - 1].LookupFailed?
      ensures events == old(events) + Pass(lib, lookupV4.Some?, lookupV6.Some?, net, old(States())).0
      ensures States() == Pass(lib, lookupV4.Some?, lookupV6.Some?, net, old(States())).1
      ensures crashed == Halted(Pass(lib, lookupV4.Some?, lookupV6.Some?, net, old(States())).0)
    {
      ghost var ev0 := events;
      ghost var ss0 := States();
      if cancelled && (lookupV4.Some? || lookupV6.Some?) {
        PassCancelled(lib, lookupV4.Some?, lookupV6.Some?, net, ss0);
      }
      var r4 := PublicIP(lookupV4.Some?, net.ipv4);
      if r4.Failure? {
        events := events + [LookupFailed(IPv4, r4.error)];
        return false;
      }
      var ipv4 := r4.value;
      if lookupV4.Some? {
        events := events + [LookedUp(IPv4, ipv4)];
      }
      var r6 := PublicIP(lookupV6.Some?, net.ipv6);
      if r6.Failure? {
        events := events + [LookupFailed(IPv6, r6.error)];
        return false;
      }
      var ipv6 := r6.value;
      if lookupV6.Some? {
        events := events + [LookedUp(IPv6, ipv6)];
      }
      ghost var looked := (if lookupV4.Some? then [LookedUp(IPv4, ipv4)] else []) + (if lookupV6.Some? then [LookedUp(IPv6, ipv6)] else []);
      assert events == ev0 + looked;
      assert States() == ss0;
      PassAfterLookups(lib, lookupV4.Some?, lookupV6.Some?, net, ss0);
      crashed := PushAll(lib, net.exchange, ipv4, ipv6);
      Associative(ev0, looked, FanOut(lib, net.exchange, ss0, ipv4, ipv6).0);
      HaltedConcat(looked, FanOut(lib, net.exchange, ss0, ipv4, ipv6).0);
    }

    /** The push stage of `Update`: `pushIP` for every provider in order (concurrent in the source). */
    method PushAll(lib: Lib, exchange: Request -> Result<string, string>, ipv4: string, ipv6: string) returns (halted: bool)
      requires Indexed() && AllWritable(States())
      modifies this`events, providers
      ensures events == old(events) + FanOut(lib, exchange, old(States()), ipv4, ipv6).0
      ensures States() == FanOut(lib, exchange, old(States()), ipv4, ipv6).1
      ensures halted == Halted(FanOut(lib, exchange, old(States()), ipv4, ipv6).0)
    {
      ghost var steps := Steps(lib, exchange, States(), ipv4, ipv6);
      StepsSpec(lib, exchange, States(), ipv4, ipv6);
      halted := PushSteps(lib, exchange, ipv4, ipv6, steps);
    }

    /** The loop of the push stage, given what each provider's push yields. */
    method PushSteps(lib: Lib, exchange: Request -> Result<string, string>, ipv4: string, ipv6: string, ghost steps: seq<StepResult>)
      returns (halted: bool)
      requires Indexed() && AllWritable(States())
      requires StepsOf(lib, exchange, States(), ipv4, ipv6, steps)
      modifies this`events, providers
      ensures events == old(events) + Stage(steps, old(States()), |providers|).0
      ensures States() == Stage(steps, old(States()), |providers|).1
      ensures halted == Halted(Stage(steps, old(States()), |providers|).0)
    {
      ghost var ss0 := States();
      ghost var ev0 := events;
      var i := 0;
      halted := false;
      while i < |providers| && !halted
        invariant 0 <= i <= |providers| == |ss0| == |steps|
        invariant events == ev0 + Stage(steps, ss0, i).0
        invariant halted == Halted(Stage(steps, ss0, i).0)
        invariant States() == Stage(steps, ss0, i).1
      {
        ghost var prefix := Stage(steps, ss0, i);
        StageUntouched(steps, ss0, i);
        StageNext(steps, ss0, i);
        halted := PushAt(lib, exchange, i, ipv4, ipv6, ss0, steps);
        HaltedConcat(prefix.0, steps[i].0);
        Associative(ev0, prefix.0, steps[i].0);
        i := i + 1;
      }
      if halted {
        StageStopped(steps, ss0, i, |ss0|);
      }
    }

    /** `pushIP` on the provider at position `i`; the other providers are untouched. */
    method PushAt(lib: Lib, exchange: Request -> Result<string, string>, i: nat, ipv4: string, ipv6: string,
                  ghost ss0: seq<ProviderState>, ghost steps: seq<StepResult>)
      returns (halted: bool)
      requires Indexed() && i < |providers| == |ss0| && AllWritable(ss0) && States()[i] == ss0[i]
      requires StepsOf(lib, exchange, ss0, ipv4, ipv6, steps)
      modifies this`events, providers[i]
      ensures events == old(events) + steps[i].0 && halted == Halted(steps[i].0)
      ensures States() == old(States())[i := steps[i].1]
    {
      halted := PushIP(lib, exchange, i, providers[i], ipv4, ipv6);
      assert steps[i] == UpdateCycle.PushIP(lib, exchange, i, ss0[i], ipv4, ipv6);
      forall j | 0 <= j < |providers| && j != i
        ensures providers[j].State() == old(providers[j].State())
      {
        assert slot[providers[j]] != slot[providers[i]];
      }
    }

    /**
      `run`: the scheduler loop, one pass per tick, while the context is not
      cancelled; here the ticks that arrive before `Stop` are given.
    */
    method Serve(lib: Lib, ticks: seq<Network>) returns (crashed: bool)
      requires Valid() && loopActive && AllWritable(States())
      modifies this`events, providers
      ensures events == old(events) + Passes(lib, lookupV4.Some?, lookupV6.Some?, ticks, old(States()), |ticks|).0
      ensures States() == Passes(lib, lookupV4.Some?, lookupV6.Some?, ticks, old(States()), |ticks|).1
      ensures crashed == Passes(lib, lookupV4.Some?, lookupV6.Some?, ticks, old(States()), |ticks|).2
    {
      ghost var ss0 := States();
      ghost var ev0 := events;
      ghost var run: (seq<Event>, seq<ProviderState>, bool) := ([], ss0, false);
      var k := 0;
      crashed := false;
      while k < |ticks| && !crashed
        invariant 0 <= k <= |ticks|
        invariant run == Passes(lib, lookupV4.Some?, lookupV6.Some?, ticks, ss0, k)
        invariant events == ev0 + run.0 && States() == run.1 && crashed == run.2
      {
        crashed, run := Tick(lib, ticks, ss0, k, ev0, run);
        k := k + 1;
      }
      if crashed {
        PassesStopped(lib, lookupV4.Some?, lookupV6.Some?, ticks, ss0, k, |ticks|);
      }
    }

    /** One tick of `run`: one more pass after `k` passes that did not stop the process. */
    method Tick(lib: Lib, ticks: seq<Network>, ghost ss0: seq<ProviderState>, k: nat, ghost ev0: seq<Event>, ghost run: (seq<Event>, seq<ProviderState>, bool))
      returns (crashed: bool, ghost run': (seq<Event>, seq<ProviderState>, bool))
      requires Indexed() && AllWritable(ss0) && k < |ticks| && !cancelled
      requires run == Passes(lib, lookupV4.Some?, lookupV6.Some?, ticks, ss0, k)
      requires events == ev0 + run.0 && States() == run.1 && !run.2
      modifies this`events, providers
      ensures run' == Passes(lib, lookupV4.Some?, lookupV6.Some?, ticks, ss0, k + 1)
      ensures events == ev0 + run'.0 && States() == run'.1 && crashed == run'.2
    {
      PassesNext(lib, lookupV4.Some?, lookupV6.Some?, ticks, ss0, k);
      ghost var pass := Pass(lib, lookupV4.Some?, lookupV6.Some?, ticks[k], run.1);
      crashed := Update(lib, ticks[k]);
      Associative(ev0, run.0, pass.0);
      run' := (run.0 + pass.0, pass.1, crashed);
    }
  }

  /** A tick after passes that did not stop the process runs one more pass. */
  lemma {:induction false} PassesNext(lib: Lib, v4Enabled: bool, v6Enabled: bool, ticks: seq<Network>, ss: seq<ProviderState>, k: nat)
    requires AllWritable(ss) && k < |ticks|
    requires !Passes(lib, v4Enabled, v6Enabled, ticks, ss, k).2
    ensures
      var before := Passes(lib, v4Enabled, v6Enabled, ticks, ss, k);
      var pass := Pass(lib, v4Enabled, v6Enabled, ticks[k], before.1);
      Passes(lib, v4Enabled, v6Enabled, ticks, ss, k + 1) == (before.0 + pass.0, pass.1, Halted(pass.0))
  {
  }

  /** Once a pass has stopped the process, later ticks change nothing. */
  lemma {:induction false} PassesStopped(lib: Lib, v4Enabled: bool, v6Enabled: bool, ticks: seq<Network>, ss: seq<ProviderState>, k: nat, m: nat)
    requires AllWritable(ss)
    requires k <= m <= |ticks|
    requires Passes(lib, v4Enabled, v6Enabled, ticks, ss, k).2
    ensures Passes(lib, v4Enabled, v6Enabled, ticks, ss, m) == Passes(lib, v4Enabled, v6Enabled, ticks, ss, k)
    decreases m
  {
    if m > k {
      PassesStopped(lib, v4Enabled, v6Enabled, ticks, ss, k, m - 1);
    }
  }

  /** `NewUpdater`: a fresh, idle updater holding what `Setup` computes, or its error. */
  method NewUpdater(lib: Lib, read: string -> Result<Definition, string>, loggerErr: Option<string>, cfg: Config)
    returns (r: Result<Updater, SetupError>)
    ensures r.Failure? ==> Setup(lib, read, loggerErr, cfg) == Failure(r.error)
    ensures r.Success? ==>
      && Setup(lib, read, loggerErr, cfg).Success?
      && var plan := Setup(lib, read, loggerErr, cfg).value;
      && fresh(r.value) && r.value.Valid()
      && r.value.period == plan.period
      && r.value.lookupV4 == plan.lookupV4 && r.value.lookupV6 == plan.lookupV6
      && r.value.pushClient == plan.push
      && r.value.States() == plan.providers
      && r.value.events == [] && !r.value.runOnce && !r.value.stopOnce && !r.value.loopActive
  {
    var period := if cfg.period == 0 then DefaultPeriod else cfg.period;
    var timeout := if cfg.timeout == 0 then DefaultTimeout else cfg.timeout;
    if loggerErr.Some? {
      return Failure(LoggerFailed(loggerErr.value));
    }
    if !cfg.publicIPv4.enable && !cfg.publicIPv6.enable {
      return Failure(AllFamiliesDisabled);
    }
    var v4 := LookupFor(lib, IPv4, cfg.publicIPv4, timeout);
    if v4.Failure? {
      return Failure(v4.error);
    }
    var v6 := LookupFor(lib, IPv6, cfg.publicIPv6, timeout);
    if v6.Failure? {
      return Failure(v6.error);
    }
    var ps := LoadProviders(lib, read, cfg.provider.dir, cfg.provider.items);
    if ps.Failure? {
      return Failure(ProviderFailed(ps.error));
    }
    var proxy := ReadProxyUrl(lib, cfg.provider.proxy);
    if proxy.Failure? {
      return Failure(ClientFailed(proxy.error));
    }
    var u := new Updater(period, v4.value, v6.value, Client(proxy.value, SystemDialer, timeout), ps.value);
    r := Success(u);
  }

  lemma {:induction false} Associative<T>(a: seq<T>, b: seq<T>, c: seq<T>)
    ensures (a + b) + c == a + (b + c)
  {
  }
}
