/**
  One update pass on values: look up the public IPv4 address, then the IPv6
  address, then push both to every provider in turn. The provider fan-out,
  concurrent in the updater, is taken in provider order; each provider only
  ever touches its own arguments, so the resulting states are the same.
*/
module UpdateCycle {
  import opened Wrappers
  import opened Platform
  import opened ProviderEngine
  import opened PushStage

  /**
    What the network answers during one pass: the body of each lookup (or the
    transport error), and the body answered to each push request.
  */
  datatype Network = Network(
    ipv4: Result<string, string>,
    ipv6: Result<string, string>,
    exchange: Request -> Result<string, string>)

  /** `getPublicIPv4` / `getPublicIPv6`: a disabled family is "" with no error; otherwise the raw, untrimmed body. */
  function PublicIP(enabled: bool, outcome: Result<string, string>): (r: Result<string, string>)
    ensures !enabled ==> r == Success("")
    ensures enabled ==> r == outcome
  {
    if enabled then outcome else Success("")
  }

  /** A response body is accepted when it is exactly one of the accepted responses. */
  predicate Accepted(resp: seq<string>, body: string)
  {
    exists i :: 0 <= i < |resp| && resp[i] == body
  }

  /** `pushIPv4` / `pushIPv6` on the provider's value. */
  function PushFamily(lib: Lib, exchange: Request -> Result<string, string>, s: ProviderState, fam: Family, ip: string)
    : (out: (PushOutcome, ProviderState))
    requires s.cfg.CanWrite(fam)
    ensures s.cfg.Writable() ==> out.1.cfg.Writable()
  {
    var (r, s') := BuildRequest(lib, s, fam, ip);
    var outcome :=
      match r
      case Failure(e) => PushFailed(RequestFailed(e))
      case Success(None) => NilRequest
      case Success(Some(req)) =>
        match exchange(req)
        case Failure(m) => PushFailed(TransportFailed(m))
        case Success(body) => if Accepted(s.resp, body) then Pushed else PushFailed(UnexpectedResponse(body));
    (outcome, s')
  }

  /**
    A family without a path yields the nil request; a push succeeds exactly
    when the request is built, delivered, and answered with an accepted
    response; a refused answer is one that no accepted response matches.
  */
  lemma {:induction false} PushFamilyOutcome(lib: Lib, exchange: Request -> Result<string, string>, s: ProviderState, fam: Family, ip: string)
    requires s.cfg.CanWrite(fam)
    ensures
      var out := PushFamily(lib, exchange, s, fam, ip);
      && out.1 == BuildRequest(lib, s, fam, ip).1
      && (out.0 == NilRequest <==> s.cfg.SectionOf(fam).path == "")
      && (out.0 == Pushed <==>
            var r := BuildRequest(lib, s, fam, ip).0;
            r.Success? && r.value.Some? && exchange(r.value.value).Success? && Accepted(s.resp, exchange(r.value.value).value))
      && (out.0.PushFailed? && out.0.err.UnexpectedResponse? ==> !Accepted(s.resp, out.0.err.body))
  {
  }

  /** The provider has a path for every family that has an address to push. */
  predicate Supports(s: ProviderState, ipv4: string, ipv6: string)
  {
    (ipv4 != "" ==> s.cfg.ipv4.path != "") && (ipv6 != "" ==> s.cfg.ipv6.path != "")
  }

  /** The families of a run of events, in order. */
  function Families(evs: seq<Event>): (fs: seq<Family>)
    ensures |fs| == |evs|
    ensures forall k :: 0 <= k < |evs| ==> fs[k] == evs[k].fam
  {
    if evs == [] then [] else [evs[0].fam] + Families(evs[1..])
  }

  /** One family's part of `pushIP`: pushed only when its address is non-empty. */
  function PushPart(lib: Lib, exchange: Request -> Result<string, string>, i: nat, s: ProviderState, fam: Family, ip: string)
    : (out: (seq<Event>, ProviderState))
    requires s.cfg.Writable()
    ensures out.1.cfg.Writable()
  {
    if ip == "" then ([], s)
    else
      var (o, s') := PushFamily(lib, exchange, s, fam, ip);
      ([Push(i, fam, o)], s')
  }

  /** `pushIP`: IPv4 first, then IPv6 whatever the IPv4 outcome, each only with a non-empty address. */
  function PushIP(lib: Lib, exchange: Request -> Result<string, string>, i: nat, s: ProviderState, ipv4: string, ipv6: string)
    : (out: (seq<Event>, ProviderState))
    requires s.cfg.Writable()
    ensures out.1.cfg.Writable()
  {
    var (e4, s1) := PushPart(lib, exchange, i, s, IPv4, ipv4);
    if Halted(e4) then (e4, s1)
    else
      var (e6, s2) := PushPart(lib, exchange, i, s1, IPv6, ipv6);
      (e4 + e6, s2)
  }

  /**
    `pushIP` only rewrites the provider's arguments; its events are the
    provider's own; it stops the process exactly when the provider lacks a
    path for a family with an address; otherwise it pushes IPv4 (when there
    is an IPv4 address) and then IPv6 (when there is an IPv6 address).
  */
  lemma {:induction false} PushIPShape(lib: Lib, exchange: Request -> Result<string, string>, i: nat, s: ProviderState, ipv4: string, ipv6: string)
    requires s.cfg.Writable()
    ensures
      var s' := PushIP(lib, exchange, i, s, ipv4, ipv6).1;
      && s'.host == s.host && s'.resp == s.resp
      && s'.cfg.meta == s.cfg.meta && s'.cfg.ipv4 == s.cfg.ipv4 && s'.cfg.ipv6 == s.cfg.ipv6
    ensures forall k :: 0 <= k < |PushIP(lib, exchange, i, s, ipv4, ipv6).0| ==>
      PushIP(lib, exchange, i, s, ipv4, ipv6).0[k].Push? && PushIP(lib, exchange, i, s, ipv4, ipv6).0[k].provider == i
    ensures Halted(PushIP(lib, exchange, i, s, ipv4, ipv6).0) <==> !Supports(s, ipv4, ipv6)
    ensures Supports(s, ipv4, ipv6) ==>
      Families(PushIP(lib, exchange, i, s, ipv4, ipv6).0) == (if ipv4 != "" then [IPv4] else []) + (if ipv6 != "" then [IPv6] else [])
    ensures ipv4 != "" ==> PushIP(lib, exchange, i, s, ipv4, ipv6).0[0].outcome == PushFamily(lib, exchange, s, IPv4, ipv4).0
  {
    var (e4, s1) := PushPart(lib, exchange, i, s, IPv4, ipv4);
    if ipv4 != "" {
      PushFamilyOutcome(lib, exchange, s, IPv4, ipv4);
    }
    if !Halted(e4) && ipv6 != "" {
      PushFamilyOutcome(lib, exchange, s1, IPv6, ipv6);
    }
  }

  predicate AllWritable(ss: seq<ProviderState>)
  {
    forall i :: 0 <= i < |ss| ==> ss[i].cfg.Writable()
  }

  /** What `pushIP` yields for one provider: its events and its value afterwards. */
  type StepResult = (seq<Event>, ProviderState)

  /**
    `pushIP` for every provider, each on its own value: a provider's push
    reads and writes only that provider, so the results do not depend on
    one another.
  */
  function Steps(lib: Lib, exchange: Request -> Result<string, string>, ss: seq<ProviderState>, ipv4: string, ipv6: string)
    : (steps: seq<StepResult>)
    requires AllWritable(ss)
    ensures |steps| == |ss|
  {
    seq(|ss|, i requires 0 <= i < |ss| => PushIP(lib, exchange, i, ss[i], ipv4, ipv6))
  }

  /** `steps` holds the `pushIP` of every provider of `ss`. */
  ghost predicate StepsOf(lib: Lib, exchange: Request -> Result<string, string>, ss: seq<ProviderState>, ipv4: string, ipv6: string, steps: seq<StepResult>)
    requires AllWritable(ss)
  {
    && |steps| == |ss|
    && forall i {:trigger PushIP(lib, exchange, i, ss[i], ipv4, ipv6)} :: 0 <= i < |ss| ==> steps[i] == PushIP(lib, exchange, i, ss[i], ipv4, ipv6)
  }

  lemma {:induction false} StepsSpec(lib: Lib, exchange: Request -> Result<string, string>, ss: seq<ProviderState>, ipv4: string, ipv6: string)
    requires AllWritable(ss)
    ensures StepsOf(lib, exchange, ss, ipv4, ipv6, Steps(lib, exchange, ss, ipv4, ipv6))
  {
  }

  /** The push stage: every provider, in order. */
  function FanOut(lib: Lib, exchange: Request -> Result<string, string>, ss: seq<ProviderState>, ipv4: string, ipv6: string)
    : (out: (seq<Event>, seq<ProviderState>))
    requires AllWritable(ss)
    ensures |out.1| == |ss| && AllWritable(out.1)
  {
    var steps := Steps(lib, exchange, ss, ipv4, ipv6);
    StepsSpec(lib, exchange, ss, ipv4, ipv6);
    FanOutWritable(lib, exchange, ss, ipv4, ipv6, steps, |ss|);
    Stage(steps, ss, |ss|)
  }

  /** Pushing keeps every provider's argument map in place. */
  lemma {:induction false} FanOutWritable(lib: Lib, exchange: Request -> Result<string, string>, ss: seq<ProviderState>, ipv4: string, ipv6: string, steps: seq<StepResult>, n: nat)
    requires AllWritable(ss) && StepsOf(lib, exchange, ss, ipv4, ipv6, steps) && n <= |ss|
    ensures AllWritable(Stage(steps, ss, n).1)
  {
    if n > 0 {
      FanOutWritable(lib, exchange, ss, ipv4, ipv6, steps, n - 1);
      assert steps[n - 1] == PushIP(lib, exchange, n - 1, ss[n - 1], ipv4, ipv6);
    }
  }

  /** The facts `PushIPShape` gives for every provider at once. */
  lemma {:induction false} StepsShape(lib: Lib, exchange: Request -> Result<string, string>, ss: seq<ProviderState>, ipv4: string, ipv6: string, steps: seq<StepResult>)
    requires AllWritable(ss) && StepsOf(lib, exchange, ss, ipv4, ipv6, steps)
    ensures forall i :: 0 <= i < |ss| ==> Tagged(steps[i].0, i)
    ensures forall i :: 0 <= i < |ss| ==> (Halted(steps[i].0) <==> !Supports(ss[i], ipv4, ipv6))
  {
    forall i | 0 <= i < |ss|
      ensures Tagged(steps[i].0, i) && (Halted(steps[i].0) <==> !Supports(ss[i], ipv4, ipv6))
    {
      PushIPShape(lib, exchange, i, ss[i], ipv4, ipv6);
      assert steps[i] == PushIP(lib, exchange, i, ss[i], ipv4, ipv6);
    }
  }

  /**
    When every provider supports the families being pushed, the pass reaches
    every provider, and each provider's events and new value are those of its
    own `pushIP`, whatever the other providers' outcomes.
  */
  lemma {:induction false} FanOutEachProvider(lib: Lib, exchange: Request -> Result<string, string>, ss: seq<ProviderState>, ipv4: string, ipv6: string)
    requires AllWritable(ss)
    requires forall i :: 0 <= i < |ss| ==> Supports(ss[i], ipv4, ipv6)
    ensures !Halted(FanOut(lib, exchange, ss, ipv4, ipv6).0)
    ensures forall i :: 0 <= i < |ss| ==>
      && ProviderEvents(FanOut(lib, exchange, ss, ipv4, ipv6).0, i) == PushIP(lib, exchange, i, ss[i], ipv4, ipv6).0
      && FanOut(lib, exchange, ss, ipv4, ipv6).1[i] == PushIP(lib, exchange, i, ss[i], ipv4, ipv6).1
  {
    var steps := Steps(lib, exchange, ss, ipv4, ipv6);
    StepsSpec(lib, exchange, ss, ipv4, ipv6);
    StepsShape(lib, exchange, ss, ipv4, ipv6, steps);
    StageEachProvider(steps, ss, |ss|);
    forall i | 0 <= i < |ss|
      ensures steps[i] == PushIP(lib, exchange, i, ss[i], ipv4, ipv6)
    {
    }
  }

  /**
    The pass stops at the first provider that lacks a path for a family with
    an address: the providers after it are not pushed and keep their values.
  */
  lemma {:induction false} FanOutStopsAtUnsupported(lib: Lib, exchange: Request -> Result<string, string>, ss: seq<ProviderState>, ipv4: string, ipv6: string, first: nat)
    requires AllWritable(ss)
    requires first < |ss| && !Supports(ss[first], ipv4, ipv6)
    requires forall i :: 0 <= i < first ==> Supports(ss[i], ipv4, ipv6)
    ensures Halted(FanOut(lib, exchange, ss, ipv4, ipv6).0)
    ensures Below(FanOut(lib, exchange, ss, ipv4, ipv6).0, first + 1)
    ensures forall j :: first < j < |ss| ==> FanOut(lib, exchange, ss, ipv4, ipv6).1[j] == ss[j]
  {
    var steps := Steps(lib, exchange, ss, ipv4, ipv6);
    StepsSpec(lib, exchange, ss, ipv4, ipv6);
    StepsShape(lib, exchange, ss, ipv4, ipv6, steps);
    StageStopsAt(steps, ss, first);
  }

  /** One pass (`Update`) on values: both lookups, then the push stage. */
  function Pass(lib: Lib, v4Enabled: bool, v6Enabled: bool, net: Network, ss: seq<ProviderState>)
    : (out: (seq<Event>, seq<ProviderState>))
    requires AllWritable(ss)
    ensures |out.1| == |ss| && AllWritable(out.1)
    ensures v4Enabled && net.ipv4.Failure? ==> out == ([LookupFailed(IPv4, net.ipv4.error)], ss)
    ensures PublicIP(v4Enabled, net.ipv4).Success? && v6Enabled && net.ipv6.Failure? ==>
      out == ((if v4Enabled then [LookedUp(IPv4, net.ipv4.value)] else []) + [LookupFailed(IPv6, net.ipv6.error)], ss)
  {
    match PublicIP(v4Enabled, net.ipv4)
    case Failure(e) => ([LookupFailed(IPv4, e)], ss)
    case Success(ipv4) =>
      var e4 := if v4Enabled then [LookedUp(IPv4, ipv4)] else [];
      match PublicIP(v6Enabled, net.ipv6)
      case Failure(e) => (e4 + [LookupFailed(IPv6, e)], ss)
      case Success(ipv6) =>
        var e6 := if v6Enabled then [LookedUp(IPv6, ipv6)] else [];
        var (evs, ss') := FanOut(lib, net.exchange, ss, ipv4, ipv6);
        (e4 + e6 + evs, ss')
  }

  /** A pass whose lookups succeed is its lookup events followed by the push stage. */
  lemma {:induction false} PassAfterLookups(lib: Lib, v4Enabled: bool, v6Enabled: bool, net: Network, ss: seq<ProviderState>)
    requires AllWritable(ss)
    requires PublicIP(v4Enabled, net.ipv4).Success? && PublicIP(v6Enabled, net.ipv6).Success?
    ensures
      var ipv4 := PublicIP(v4Enabled, net.ipv4).value;
      var ipv6 := PublicIP(v6Enabled, net.ipv6).value;
      var fan := FanOut(lib, net.exchange, ss, ipv4, ipv6);
      Pass(lib, v4Enabled, v6Enabled, net, ss) ==
        ((if v4Enabled then [LookedUp(IPv4, ipv4)] else []) + (if v6Enabled then [LookedUp(IPv6, ipv6)] else []) + fan.0, fan.1)
  {
  }

  /**
    The lookups as they go once the updater's context is cancelled: the
    request of every enabled lookup carries that context and fails.
  */
  predicate LookupsCancelled(v4Enabled: bool, v6Enabled: bool, net: Network)
  {
    (v4Enabled ==> net.ipv4.Failure?) && (v6Enabled ==> net.ipv6.Failure?)
  }

  /**
    A pass after cancellation fails its first lookup and ends there: one
    lookup error is logged, nothing is pushed and no provider changes.
  */
  lemma {:induction false} PassCancelled(lib: Lib, v4Enabled: bool, v6Enabled: bool, net: Network, ss: seq<ProviderState>)
    requires AllWritable(ss)
    requires v4Enabled || v6Enabled
    requires LookupsCancelled(v4Enabled, v6Enabled, net)
    ensures Pass(lib, v4Enabled, v6Enabled, net, ss).1 == ss
    ensures Pass(lib, v4Enabled, v6Enabled, net, ss).0 ==
      if v4Enabled then [LookupFailed(IPv4, net.ipv4.error)] else [LookupFailed(IPv6, net.ipv6.error)]
    ensures !Halted(Pass(lib, v4Enabled, v6Enabled, net, ss).0)
  {
  }

  /** The address a pass pushes for a family: the lookup body, or "" when the family is disabled. */
  function PushedAddress(enabled: bool, outcome: Result<string, string>): string
  {
    if enabled && outcome.Success? then outcome.value else ""
  }

  /**
    A pass whose lookups succeed gives every provider exactly its own
    `pushIP` with the looked-up addresses, provided no provider lacks a path
    for a family that has an address.
  */
  lemma {:induction false} PassPushesEveryProvider(lib: Lib, v4Enabled: bool, v6Enabled: bool, net: Network, ss: seq<ProviderState>)
    requires AllWritable(ss)
    requires PublicIP(v4Enabled, net.ipv4).Success? && PublicIP(v6Enabled, net.ipv6).Success?
    requires forall i :: 0 <= i < |ss| ==>
      Supports(ss[i], PushedAddress(v4Enabled, net.ipv4), PushedAddress(v6Enabled, net.ipv6))
    ensures forall i :: 0 <= i < |ss| ==>
      var p := PushIP(lib, net.exchange, i, ss[i], PushedAddress(v4Enabled, net.ipv4), PushedAddress(v6Enabled, net.ipv6));
      ProviderEvents(Pass(lib, v4Enabled, v6Enabled, net, ss).0, i) == p.0 && Pass(lib, v4Enabled, v6Enabled, net, ss).1[i] == p.1
  {
    var ipv4 := PushedAddress(v4Enabled, net.ipv4);
    var ipv6 := PushedAddress(v6Enabled, net.ipv6);
    var e4 := if v4Enabled then [LookedUp(IPv4, ipv4)] else [];
    var e6 := if v6Enabled then [LookedUp(IPv6, ipv6)] else [];
    FanOutEachProvider(lib, net.exchange, ss, ipv4, ipv6);
    var (evs, ss') := FanOut(lib, net.exchange, ss, ipv4, ipv6);
    assert Pass(lib, v4Enabled, v6Enabled, net, ss) == (e4 + e6 + evs, ss');
    forall i | 0 <= i < |ss|
      ensures ProviderEvents(e4 + e6 + evs, i) == ProviderEvents(evs, i)
    {
      ProviderEventsConcat(e4 + e6, evs, i);
      ProviderEventsNone(e4 + e6, i);
    }
  }

  /** A disabled family is never pushed, and no push happens unless both lookups succeeded. */
  lemma {:induction false} PassPushesOnlyResolved(lib: Lib, v4Enabled: bool, v6Enabled: bool, net: Network, ss: seq<ProviderState>)
    requires AllWritable(ss)
    ensures forall k :: 0 <= k < |Pass(lib, v4Enabled, v6Enabled, net, ss).0| ==>
      var e := Pass(lib, v4Enabled, v6Enabled, net, ss).0[k];
      e.Push? ==>
        && PublicIP(v4Enabled, net.ipv4).Success? && PublicIP(v6Enabled, net.ipv6).Success?
        && (e.fam == IPv4 ==> v4Enabled) && (e.fam == IPv6 ==> v6Enabled)
  {
    if PublicIP(v4Enabled, net.ipv4).Success? && PublicIP(v6Enabled, net.ipv6).Success? {
      var ipv4 := PushedAddress(v4Enabled, net.ipv4);
      var ipv6 := PushedAddress(v6Enabled, net.ipv6);
      FanOutFamilies(lib, net.exchange, ss, ipv4, ipv6);
    }
  }

  /** Every push in the push stage is of a family whose address is non-empty. */
  lemma {:induction false} FanOutFamilies(lib: Lib, exchange: Request -> Result<string, string>, ss: seq<ProviderState>, ipv4: string, ipv6: string)
    requires AllWritable(ss)
    ensures FamiliesPushed(FanOut(lib, exchange, ss, ipv4, ipv6).0, ipv4, ipv6)
  {
    var steps := Steps(lib, exchange, ss, ipv4, ipv6);
    StepsSpec(lib, exchange, ss, ipv4, ipv6);
    forall i | 0 <= i < |ss|
      ensures FamiliesPushed(steps[i].0, ipv4, ipv6)
    {
      assert steps[i] == PushIP(lib, exchange, i, ss[i], ipv4, ipv6);
    }
    StageFamilies(steps, ss, ipv4, ipv6, |ss|);
  }
}
