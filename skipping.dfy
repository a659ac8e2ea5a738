/**
  The push stage as its nil-request check evidently intends: a family the
  provider has no path for is skipped, instead of its nil request reaching
  the HTTP client and stopping the process.
*/
module SkippingPush {
  import opened Wrappers
  import opened Platform
  import opened ProviderEngine
  import opened PushStage
  import opened UpdateCycle

  /** The address pushed to a provider for a family: none when the provider has no path for it. */
  function Offered(s: ProviderState, fam: Family, ip: string): string
  {
    if s.cfg.SectionOf(fam).path == "" then "" else ip
  }

  /** `pushIP` with unsupported families skipped. */
  function PushIPSkipping(lib: Lib, exchange: Request -> Result<string, string>, i: nat, s: ProviderState, ipv4: string, ipv6: string)
    : (out: StepResult)
    requires s.cfg.Writable()
    ensures out.1.cfg.Writable()
  {
    PushIP(lib, exchange, i, s, Offered(s, IPv4, ipv4), Offered(s, IPv6, ipv6))
  }

  /**
    The corrected `pushIP` never stops the process; it pushes exactly the
    families that have an address and a path, IPv4 first; and on a provider
    that supports every family with an address it is the original `pushIP`.
  */
  lemma {:induction false} PushIPSkippingShape(lib: Lib, exchange: Request -> Result<string, string>, i: nat, s: ProviderState, ipv4: string, ipv6: string)
    requires s.cfg.Writable()
    ensures !Halted(PushIPSkipping(lib, exchange, i, s, ipv4, ipv6).0)
    ensures Tagged(PushIPSkipping(lib, exchange, i, s, ipv4, ipv6).0, i)
    ensures Families(PushIPSkipping(lib, exchange, i, s, ipv4, ipv6).0) ==
      (if ipv4 != "" && s.cfg.ipv4.path != "" then [IPv4] else []) + (if ipv6 != "" && s.cfg.ipv6.path != "" then [IPv6] else [])
    ensures Supports(s, ipv4, ipv6) ==> PushIPSkipping(lib, exchange, i, s, ipv4, ipv6) == PushIP(lib, exchange, i, s, ipv4, ipv6)
  {
    PushIPShape(lib, exchange, i, s, Offered(s, IPv4, ipv4), Offered(s, IPv6, ipv6));
  }

  /** The corrected `pushIP` of every provider, each on its own value. */
  function StepsSkipping(lib: Lib, exchange: Request -> Result<string, string>, ss: seq<ProviderState>, ipv4: string, ipv6: string)
    : (steps: seq<StepResult>)
    requires AllWritable(ss)
    ensures |steps| == |ss|
    ensures forall i :: 0 <= i < |ss| ==> steps[i] == PushIPSkipping(lib, exchange, i, ss[i], ipv4, ipv6)
  {
    seq(|ss|, i requires 0 <= i < |ss| => PushIPSkipping(lib, exchange, i, ss[i], ipv4, ipv6))
  }

  /** The corrected push stage: every provider, in order. */
  function FanOutSkipping(lib: Lib, exchange: Request -> Result<string, string>, ss: seq<ProviderState>, ipv4: string, ipv6: string)
    : (out: (seq<Event>, seq<ProviderState>))
    requires AllWritable(ss)
    ensures |out.1| == |ss|
  {
    Stage(StepsSkipping(lib, exchange, ss, ipv4, ipv6), ss, |ss|)
  }

  /**
    The corrected stage never stops the process and reaches every provider:
    each one's events and new value are those of its own corrected `pushIP`.
  */
  lemma {:induction false} FanOutSkippingReachesAll(lib: Lib, exchange: Request -> Result<string, string>, ss: seq<ProviderState>, ipv4: string, ipv6: string)
    requires AllWritable(ss)
    ensures !Halted(FanOutSkipping(lib, exchange, ss, ipv4, ipv6).0)
    ensures forall i :: 0 <= i < |ss| ==>
      && ProviderEvents(FanOutSkipping(lib, exchange, ss, ipv4, ipv6).0, i) == PushIPSkipping(lib, exchange, i, ss[i], ipv4, ipv6).0
      && FanOutSkipping(lib, exchange, ss, ipv4, ipv6).1[i] == PushIPSkipping(lib, exchange, i, ss[i], ipv4, ipv6).1
  {
    var steps := StepsSkipping(lib, exchange, ss, ipv4, ipv6);
    forall i | 0 <= i < |ss|
      ensures Tagged(steps[i].0, i) && !Halted(steps[i].0)
    {
      PushIPSkippingShape(lib, exchange, i, ss[i], ipv4, ipv6);
    }
    StageEachProvider(steps, ss, |ss|);
  }

  /** Where every provider supports the families with an address, the correction changes nothing. */
  lemma {:induction false} FanOutSkippingAgrees(lib: Lib, exchange: Request -> Result<string, string>, ss: seq<ProviderState>, ipv4: string, ipv6: string)
    requires AllWritable(ss)
    requires forall i :: 0 <= i < |ss| ==> Supports(ss[i], ipv4, ipv6)
    ensures FanOutSkipping(lib, exchange, ss, ipv4, ipv6) == FanOut(lib, exchange, ss, ipv4, ipv6)
  {
    var steps := StepsSkipping(lib, exchange, ss, ipv4, ipv6);
    var original := Steps(lib, exchange, ss, ipv4, ipv6);
    StepsSpec(lib, exchange, ss, ipv4, ipv6);
    forall i | 0 <= i < |ss|
      ensures steps[i] == original[i]
    {
      PushIPSkippingShape(lib, exchange, i, ss[i], ipv4, ipv6);
      assert original[i] == PushIP(lib, exchange, i, ss[i], ipv4, ipv6);
    }
    assert steps == original;
  }
}
