# DDNS updater: construction, provider engine and update pass

A model of the core of a dynamic-DNS updater written in Go. The updater
finds the machine's public IPv4 and IPv6 addresses and reports them to one
or more DDNS providers over HTTP. A provider is described by a definition
file: a host template, a path and body template per address family, a
method, the accepted response bodies (split on `|`) and a map of template
arguments. When the updater builds a request, it writes the current
address into that argument map in place.

The model covers:

- **Construction.** `NewUpdater` applies the defaults: one minute for the
  period and 15 seconds for the timeout. It rejects a configuration with
  both families disabled. It builds the two lookup clients, with the static
  proxy, the `host:0` rewrite of a bare local IP, and the unbound-dial
  retry that happens only behind a proxy. It then loads the providers in
  the configured order, stopping at the first failure, and builds the push
  client.
- **The provider engine.** Loading validates a definition. Request
  building has three parts: the guard for a family with no path, the write
  of the address into the argument map, and rendering, with a body only
  when the family has a body template.
- **The run/stop state machine.** Each of `Run` and `Stop` takes effect at
  most once.
- **The update pass.** The pass looks up IPv4 first and gives up on the
  first failed lookup. It then runs `pushIP` on every provider. Within one
  provider, IPv4 goes before IPv6, each family is pushed only when its
  address is non-empty, and a response is accepted only on an exact match.

Go's standard library calls are fields of `Platform.Lib`, a record of total
functions that may fail: template parse and execute, URL parse and join,
request validity, IP parse, TCP address resolution and `filepath.Join`. The
following are inputs:

- reading and decoding a provider file: `read`;
- the logger's creation error;
- each pass's lookup outcomes and the body answered to each push request:
  `UpdateCycle.Network`;
- which dials connect.

The state the source updates in place is modelled as objects:

- The provider's argument map is a field of the class
  `ProviderEngine.Provider`.
- The updater is the class `Ddns.Updater`. Its fields are the providers,
  the event trace of what it logs and pushes, the run-once and stop-once
  flags, the cancel flag and the loop-active flag.

Each method is proved against a function on values:

| method | function |
|---|---|
| `Provider.NewRequest` | `BuildRequest` |
| `Updater.PushIP` | `UpdateCycle.PushIP` |
| `Updater.Update` | `UpdateCycle.Pass` |
| `Updater.Serve` | `Ddns.Passes` |
| `LoadProviders` | `LoadAll` |
| `NewUpdater` | `Setup` |

The properties are proved about those functions.

The provider fan-out runs concurrently in the source and in provider order
here. Each goroutine touches only its own provider's arguments, so the
resulting states are the same. `PushStage.Stage` and
`Collecting.Collect` are the generic shapes of the two loops that stop at
the first failure: the push stage and provider loading.

## Model

| member | source | states |
|---|---|---|
| Platform.JoinHostPort | updater.go:137-139 | a host containing a colon (an IPv6 literal) is bracketed; the result ends in `:` and the port |
| Strings.JoinSplit | provider.go:69 | joining the `\|`-split of the response string with `\|` gives back the string |
| Strings.SplitLength | provider.go:69 | the split has one more piece than the string has separators |
| Strings.SplitPiecesFree | provider.go:69 | no accepted response contains the separator |
| Strings.SplitJoin | provider.go:69 | splitting the join of separator-free pieces gives back the pieces |
| Strings.SplitEmpty | provider.go:69 | an empty response string gives the one accepted response `""` |
| ClientFactory.ReadProxyUrl | updater.go:206-218 | an empty proxy string gives no proxy and no error; otherwise the parsed URL, used for every request, or an invalid-proxy error |
| ClientFactory.LocalAddrText | updater.go:137-139 | a bare IP gets port 0 joined on (bracketed when it holds a colon); anything else is resolved as written |
| ClientFactory.NewLookupClient | updater.go:118-160 | a client is built exactly when the lookup URL parses, the proxy reads and a given local address resolves; the URL is checked first, then the proxy, then the local address, and the first that fails gives the error; success gives a GET request for that URL and a client with the parsed proxy and no timeout yet; no local address means the system dialer; a local address gives a dialer bound to its resolution that retries unbound exactly when a proxy is set; an unresolvable local address fails |
| ClientFactory.Dial | updater.go:144-157 | a bound dial is retried once, unbound, only when the retry is enabled and the bound dial fails; the outcome is that of the last attempt |
| ClientFactory.FallbackNeedsProxy | updater.go:144-157 | with a local address and a reachable target, the lookup client connects exactly when a proxy is configured or the bound dial connects |
| ProviderEngine.NewProvider | provider.go:42-72 | loading succeeds exactly when the host renders and parses and some family has a path; a host template that does not parse is reported first; the missing-path error arises only after the host checks pass; the host is computed once from the arguments; the accepted responses join back to `meta.response` and number one more than its separators |
| ProviderEngine.RenderRequestShape | provider.go:79-107 | a request is built exactly when the path renders, the body renders (if there is a body template) and the request is valid; it carries `meta.method`, or GET when that is empty as `http.NewRequest` defaults it, the URL joined from the host and the rendered path, and the rendered body exactly when there is a body template; a parse or execute failure of the path, then of the body, gives its own error, and otherwise the request check's |
| ProviderEngine.BuildRequestEffect | provider.go:74-108 | with an empty path: no request, no error, arguments untouched; otherwise the address is stored under `ipv4`/`ipv6`, every other argument and the host are kept, and the request is rendered from the updated arguments |
| ProviderEngine.ArgsPersist | provider.go:78-114 | the address written for IPv4 stays in the argument map and is seen by the IPv6 templates; the host never changes |
| ProviderEngine.Provider.constructor | provider.go:66-71 | the provider object holds the loaded value |
| ProviderEngine.Provider.NewRequest | provider.go:74-108 | the in-place request builder returns the request and leaves the provider as `BuildRequest` says |
| ProviderEngine.Provider.NewIPv4Request | provider.go:74-108 | `NewIPv4Request` is `BuildRequest` for IPv4 on the provider's state |
| ProviderEngine.Provider.NewIPv6Request | provider.go:110-144 | `NewIPv6Request` is `BuildRequest` for IPv6 on the provider's state |
| PushStage.StageEachProvider | updater.go:284-292 | when no provider stops the process, the stage does not stop, and each provider has exactly its own events and new value |
| PushStage.StageStopsAt | updater.go:284-292 | a provider that stops the process ends the stage: only pushes up to it are reported and the later providers keep their values |
| PushStage.StageFamilies | updater.go:284-292 | a stage of runs that push only families with an address pushes only such families |
| UpdateCycle.PublicIP | updater.go:295-315 | a disabled family gives "" with no error; an enabled one gives the raw, untrimmed body or the transport error |
| UpdateCycle.PushFamilyOutcome | updater.go:354-378 | a family without a path yields the nil request; a push succeeds exactly when the request is built, delivered and answered with a body equal to some accepted response; a refused body matches none |
| UpdateCycle.PushIPShape | updater.go:339-352 | `pushIP` changes only the provider's arguments and reports only its own events; it stops the process exactly when a family with an address has no path; otherwise it pushes IPv4 (if its address is non-empty) then IPv6 (if its address is non-empty), an IPv4 failure notwithstanding |
| UpdateCycle.FanOutEachProvider | updater.go:284-292 | when every provider supports the families with an address, every provider gets exactly its own `pushIP`, whatever the others' outcomes |
| UpdateCycle.FanOutStopsAtUnsupported | updater.go:354-359 | the first provider without a path for a family with an address stops the process; in this sequential model the providers after it are not pushed and keep their values (concurrently, some of them may already have been pushed) |
| UpdateCycle.Pass | updater.go:273-283 | a failed IPv4 lookup ends the pass with no IPv6 lookup and no push; a failed IPv6 lookup ends it with no push; providers are unchanged in both cases |
| UpdateCycle.PassCancelled | updater.go:295-305 | with every enabled lookup failing, as on a cancelled context, the pass logs one lookup error for the first enabled family, pushes nothing and changes no provider |
| UpdateCycle.PassPushesEveryProvider | updater.go:273-293 | after successful lookups, every provider's events and new value are those of its own `pushIP` with the looked-up addresses |
| UpdateCycle.PassPushesOnlyResolved | updater.go:273-293 | a push happens only after both lookups succeed, and never for a disabled family |
| UpdateCycle.FanOutFamilies | updater.go:339-352 | every push in the push stage is of a family whose address is non-empty |
| SkippingPush.PushIPSkippingShape | provider.go:75-77 | corrected `pushIP`: never stops the process; pushes exactly the families with an address and a path, IPv4 first; equal to `pushIP` wherever the provider supports every family with an address |
| SkippingPush.FanOutSkippingReachesAll | updater.go:284-292 | corrected push stage: never stops, and every provider gets exactly its own corrected `pushIP` |
| SkippingPush.FanOutSkippingAgrees | updater.go:284-292 | the corrected stage is the original one whenever every provider supports every family with an address |
| Collecting.CollectInOrder | updater.go:226-234 | a successful in-order load holds one value per item, each being that item's own load |
| Collecting.CollectFirstFailure | updater.go:226-234 | the loop returns the error of the first item that fails |
| Collecting.CollectSucceedsIff | updater.go:226-234 | the loop succeeds exactly when every item does |
| Ddns.LoadOne | updater.go:237-248 | a file that cannot be read or decoded gives the read error; otherwise the result of validating its definition |
| Ddns.LoadAllInOrder | updater.go:220-235 | loaded providers are in the configured order, one per file; an empty list loads to no providers |
| Ddns.LoadAllFirstFailure | updater.go:226-231 | loading fails with the error of the first file that fails |
| Ddns.LoadAllSucceeds | updater.go:220-235 | loading succeeds exactly when every configured file loads |
| Ddns.LookupFor | updater.go:74-87 | a disabled family has no lookup (a nil request); an enabled one has exactly `NewLookupClient`'s request, proxy and dialer with the configured timeout, or fails with `NewLookupClient`'s error |
| Ddns.Setup | updater.go:45-116 | construction: a logger error is reported first; the all-disabled error arises exactly when both families are disabled; construction succeeds exactly when every later step does, and the first failing step (IPv4 lookup client, IPv6 lookup client, providers, push proxy) gives the error; a success has a family enabled, the period and timeout defaulted from zero, a lookup exactly for each enabled family, each being `LookupFor`'s, the one timeout on both lookup clients and the push client, the providers as loaded in order, and the push client's proxy |
| Ddns.LoadProvider | updater.go:237-248 | a fresh provider object holding the loaded value, or the load error |
| Ddns.LoadProviders | updater.go:220-235 | the loop returns `LoadAll`'s error, or distinct fresh providers whose values are `LoadAll`'s result |
| Ddns.CheckResponse | updater.go:371-377 | the scan accepts exactly when the body equals some accepted response, otherwise reports the unexpected body |
| Ddns.PassesStopped | updater.go:259-271 | once a pass has stopped the process, later ticks change nothing |
| Ddns.Updater.constructor | updater.go:103-113 | a new updater is idle: no loop started, not stopped, not cancelled, nothing logged |
| Ddns.Updater.Run | updater.go:250-257 | the first call starts the loop (active unless already stopped); later calls change nothing; the loop is started at most once |
| Ddns.Updater.Stop | updater.go:406-414 | the first call cancels, waits for the loop and closes the logger; later calls change nothing; afterwards no loop is active and the logger was closed once |
| Ddns.Updater.PushFamily | updater.go:354-378 | `pushIPv4`/`pushIPv6` on the provider object match `UpdateCycle.PushFamily`, including the nil-request outcome |
| Ddns.Updater.PushIP | updater.go:339-352 | the method's events and the provider's new value are those of `UpdateCycle.PushIP` |
| Ddns.Updater.Update | updater.go:273-293 | one pass appends `Pass`'s events, leaves the providers as `Pass` says, and reports whether it stopped the process; after `Stop` the first lookup fails on the cancelled context, so one error is logged and no provider changes |
| Ddns.Updater.PushAll | updater.go:284-292 | the push stage over the provider objects is `FanOut` on their values |
| Ddns.Updater.PushSteps | updater.go:284-292 | the provider loop follows the generic stage, one provider at a time, stopping where a push stops the process |
| Ddns.Updater.PushAt | updater.go:286-290 | `pushIP` on one provider leaves every other provider untouched |
| Ddns.Updater.Serve | updater.go:259-271 | the scheduler loop runs one pass per tick until one stops the process; events, providers and the stop flag are those of `Passes` |
| Ddns.Updater.Tick | updater.go:263-266 | one tick extends the run by exactly one `Pass` |
| Ddns.NewUpdater | updater.go:45-116 | construction fails with `Setup`'s error, or yields a fresh idle updater holding `Setup`'s period, lookups, push client and providers |

## Left out

- Concurrency is left out: goroutines, the wait group, the mutex, the ticker and `context` cancellation. The provider fan-out is sequential in provider order. Cancellation is the `cancelled` flag, and once it is set `Update` requires every enabled lookup to fail. The ticks that arrive before `Stop` are the input to `Updater.Serve`.
- I/O is left out: HTTP transport, dialing, `io.ReadAll`, draining and closing bodies, and opening files. Lookup outcomes, push answers, dial outcomes and file contents are inputs.
- Library behaviour is left out: `text/template`, `url.Parse`/`JoinPath`, `http.NewRequest` validity, `net.ParseIP`, `net.ResolveTCPAddr` and `filepath.Join` are uninterpreted fields of `Platform.Lib`. `net.JoinHostPort` and `strings.Split` with a one-character separator are concrete.
- TOML decoding of provider files and duration parsing are left out. A provider file's decoding is part of the `read` input; durations are nanosecond counts.
- The logger is left out: creating it is an input error, and its output is the event trace. Successful pushes are recorded too, which the updater does not log. Events carry the provider's position, which log lines do not.
- Closing the logger when construction fails after the logger was created is not modelled.
- The proxy setting is read as `ProxyURL` by the updater and declared as `Proxy` by the configuration file. Here it is one optional string per client.
- Loading a provider does not check its path and body templates. They are parsed on every request (provider.go:79-100), so a bad template surfaces only when a request is built.
- One `meta.method` serves both families (provider.go:103, provider.go:139).
- Ddns.Updater.Update: requires every provider's argument map to exist wherever a family has a path. Writing into a nil map panics in Go, and this case is left unmodelled.
- Ddns.Updater.Serve: the ticker's period is not modelled; the ticks are given as a sequence. `Setup` passes a negative configured period through unchanged, as the code does; `time.NewTicker` then panics in `run` (updater.go:261) before any tick, and that panic is not modelled.
- Ddns.Updater.Update: the cancelled context is not a value passed to the requests. It is a requirement on the network input: once `Stop` has cancelled, every enabled lookup fails (`UpdateCycle.LookupsCancelled`). The model does not cover a push request that is already in flight when `Stop` cancels it.
- PushStage.StageStopsAt: the halt of the whole process is modelled as the end of the current pass. What other goroutines had done concurrently before the panic is not modelled.

## Findings

| source | as written | input that shows it | evidently intended | confidence | as-written member | corrected member |
|---|---|---|---|---|---|---|
| updater.go:354-359 | `pushIPv4`/`pushIPv6` pass the request from `NewIPv4Request`/`NewIPv6Request` to the HTTP client without checking it. For a family without a path, that request is nil (provider.go:75-77), so `Client.Do(nil)` dereferences it and the process stops. | A provider file with an `[ipv4]` path and no `[ipv6]` path, with IPv6 enabled and the IPv6 lookup returning a non-empty body. | A family the provider has no path for is skipped, and the other providers are still pushed. | not executed | UpdateCycle.FanOutStopsAtUnsupported | SkippingPush.FanOutSkippingReachesAll |
