/**
  The push stage of a pass, apart from what each provider's push does: the
  events it reports, the point where it stops the process, and the stage
  that runs the providers in order, given the result of each one's push.
*/
module PushStage {
  import opened Platform
  import opened ProviderEngine

  datatype PushError =
    | RequestFailed(cause: RequestError)
    | TransportFailed(reason: string)
    | UnexpectedResponse(body: string)

  /**
    The end of one family's push. `NilRequest` is the family the provider
    does not support: the updater hands the resulting nil request to the
    HTTP client, which dereferences it, so the process stops there.
  */
  datatype PushOutcome = Pushed | PushFailed(err: PushError) | NilRequest

  /** What a pass reports: the lookups (logged) and each push attempt, tagged with the provider's position. */
  datatype Event =
    | LookedUp(fam: Family, ip: string)
    | LookupFailed(fam: Family, reason: string)
    | Push(provider: nat, fam: Family, outcome: PushOutcome)

  /** The pass stopped: its last event handed a nil request to the HTTP client. */
  predicate Halted(evs: seq<Event>)
  {
    |evs| > 0 && evs[|evs| - 1].Push? && evs[|evs| - 1].outcome == NilRequest
  }

  /** Appending a run that does not stop leaves the stage not stopped; one that stops stops it. */
  lemma {:induction false} HaltedConcat(a: seq<Event>, b: seq<Event>)
    ensures b != [] ==> (Halted(a + b) <==> Halted(b))
    ensures b == [] ==> (Halted(a + b) <==> Halted(a))
  {
    if b != [] {
      assert (a + b)[|a + b| - 1] == b[|b| - 1];
    } else {
      assert a + b == a;
    }
  }
  /** Every event of `evs` is a push by provider `i`. */
  predicate Tagged(evs: seq<Event>, i: nat)
  {
    forall k :: 0 <= k < |evs| ==> evs[k].Push? && evs[k].provider == i
  }

  /** Every event of `evs` is a push by a provider before `n`. */
  predicate Below(evs: seq<Event>, n: nat)
  {
    forall k :: 0 <= k < |evs| ==> evs[k].Push? && evs[k].provider < n
  }

  /** The events of one provider, in order. */
  function ProviderEvents(evs: seq<Event>, i: nat): seq<Event>
  {
    if evs == [] then []
    else (if evs[0].Push? && evs[0].provider == i then [evs[0]] else []) + ProviderEvents(evs[1..], i)
  }

  lemma {:induction false} ProviderEventsConcat(a: seq<Event>, b: seq<Event>, i: nat)
    ensures ProviderEvents(a + b, i) == ProviderEvents(a, i) + ProviderEvents(b, i)
  {
    if a == [] {
      assert a + b == b;
    } else {
      var head := if a[0].Push? && a[0].provider == i then [a[0]] else [];
      assert (a + b)[0] == a[0];
      assert (a + b)[1..] == a[1..] + b;
      assert ProviderEvents(a + b, i) == head + ProviderEvents(a[1..] + b, i);
      ProviderEventsConcat(a[1..], b, i);
      assert head + (ProviderEvents(a[1..], i) + ProviderEvents(b, i)) == (head + ProviderEvents(a[1..], i)) + ProviderEvents(b, i);
    }
  }

  lemma {:induction false} ProviderEventsAll(evs: seq<Event>, i: nat)
    requires forall k :: 0 <= k < |evs| ==> evs[k].Push? && evs[k].provider == i
    ensures ProviderEvents(evs, i) == evs
  {
    if evs != [] {
      ProviderEventsAll(evs[1..], i);
    }
  }

  lemma {:induction false} ProviderEventsNone(evs: seq<Event>, i: nat)
    requires forall k :: 0 <= k < |evs| ==> !(evs[k].Push? && evs[k].provider == i)
    ensures ProviderEvents(evs, i) == []
  {
    if evs != [] {
      ProviderEventsNone(evs[1..], i);
    }
  }

  /** Appending the events of provider `m` to events of earlier providers. */
  lemma {:induction false} AppendTagged(evs: seq<Event>, e: seq<Event>, m: nat)
    requires Below(evs, m) && Tagged(e, m)
    ensures Below(evs + e, m + 1)
  {
    forall k | 0 <= k < |evs + e|
      ensures (evs + e)[k].Push? && (evs + e)[k].provider < m + 1
    {
      if k < |evs| {
        assert (evs + e)[k] == evs[k];
      } else {
        assert (evs + e)[k] == e[k - |evs|];
      }
    }
  }

  /** Separating the events of one provider from those of earlier providers. */
  lemma {:induction false} ProviderEventsAppend(evs: seq<Event>, e: seq<Event>, i: nat, m: nat)
    requires Below(evs, m) && Tagged(e, m) && i <= m
    ensures i < m ==> ProviderEvents(evs + e, i) == ProviderEvents(evs, i)
    ensures i == m ==> ProviderEvents(evs + e, i) == e
  {
    ProviderEventsConcat(evs, e, i);
    if i < m {
      ProviderEventsNone(e, i);
    } else {
      ProviderEventsNone(evs, i);
      ProviderEventsAll(e, i);
    }
  }

  /** Every event of `evs` is of a family whose address is non-empty. */
  predicate FamiliesPushed(evs: seq<Event>, ipv4: string, ipv6: string)
  {
    forall k :: 0 <= k < |evs| ==> (evs[k].fam == IPv4 ==> ipv4 != "") && (evs[k].fam == IPv6 ==> ipv6 != "")
  }

  /**
    The push stage over the first `n` providers, given each provider's
    `pushIP`: their events in provider order, up to and including the first
    one that hands a nil request to the HTTP client, and the value of every
    provider (those not reached keep theirs).
  */
  function Stage<S>(steps: seq<(seq<Event>, S)>, ss: seq<S>, n: nat): (out: (seq<Event>, seq<S>))
    requires |steps| == |ss| && n <= |ss|
    ensures |out.1| == |ss|
    decreases n
  {
    if n == 0 then ([], ss)
    else
      var (evs, cur) := Stage(steps, ss, n - 1);
      if Halted(evs) then (evs, cur)
      else (evs + steps[n - 1].0, cur[n - 1 := steps[n - 1].1])
  }

  /** The providers not reached yet keep their values. */
  lemma {:induction false} StageUntouched<S>(steps: seq<(seq<Event>, S)>, ss: seq<S>, n: nat)
    requires |steps| == |ss| && n <= |ss|
    ensures forall j :: n <= j < |ss| ==> Stage(steps, ss, n).1[j] == ss[j]
  {
    if n > 0 {
      StageUntouched(steps, ss, n - 1);
    }
  }

  /** When each provider's events are its own, every event of the stage is a push by a provider reached. */
  lemma {:induction false} StageTags<S>(steps: seq<(seq<Event>, S)>, ss: seq<S>, n: nat)
    requires |steps| == |ss| && n <= |ss|
    requires forall i :: 0 <= i < |ss| ==> Tagged(steps[i].0, i)
    ensures Below(Stage(steps, ss, n).0, n)
  {
    if n > 0 {
      StageTags(steps, ss, n - 1);
      var evs := Stage(steps, ss, n - 1).0;
      if !Halted(evs) {
        AppendTagged(evs, steps[n - 1].0, n - 1);
      } else {
        assert Below(evs, n);
      }
    }
  }

  /** Once the stage has stopped, the providers after that point change nothing. */
  lemma {:induction false} StageStopped<S>(steps: seq<(seq<Event>, S)>, ss: seq<S>, k: nat, m: nat)
    requires |steps| == |ss| && k <= m <= |ss|
    requires Halted(Stage(steps, ss, k).0)
    ensures Stage(steps, ss, m) == Stage(steps, ss, k)
    decreases m
  {
    if m > k {
      StageStopped(steps, ss, k, m - 1);
    }
  }

  /** A stage that has not stopped runs the next provider. */
  lemma {:induction false} StageNext<S>(steps: seq<(seq<Event>, S)>, ss: seq<S>, n: nat)
    requires |steps| == |ss| && n < |ss|
    requires !Halted(Stage(steps, ss, n).0)
    ensures Stage(steps, ss, n + 1) == (Stage(steps, ss, n).0 + steps[n].0, Stage(steps, ss, n).1[n := steps[n].1])
  {
  }

  /** When none of the first `n` providers stops the process, neither does the stage. */
  lemma {:induction false} StageRunning<S>(steps: seq<(seq<Event>, S)>, ss: seq<S>, n: nat)
    requires |steps| == |ss| && n <= |ss|
    requires forall i :: 0 <= i < n ==> !Halted(steps[i].0)
    ensures !Halted(Stage(steps, ss, n).0)
  {
    if n > 0 {
      StageRunning(steps, ss, n - 1);
      StageNext(steps, ss, n - 1);
      HaltedConcat(Stage(steps, ss, n - 1).0, steps[n - 1].0);
    }
  }

  /** Each of the first `n` providers has exactly its own events and new value in `out`. */
  ghost predicate OwnResults<S>(out: (seq<Event>, seq<S>), steps: seq<(seq<Event>, S)>, n: nat)
    requires n <= |out.1| && n <= |steps|
  {
    forall i :: 0 <= i < n ==> ProviderEvents(out.0, i) == steps[i].0 && out.1[i] == steps[i].1
  }

  /**
    When none of the first `n` providers stops the process, the stage does not
    stop there, and each of them has exactly its own events and new value.
  */
  lemma {:induction false} StageEachProvider<S>(steps: seq<(seq<Event>, S)>, ss: seq<S>, n: nat)
    requires |steps| == |ss| && n <= |ss|
    requires forall i :: 0 <= i < |ss| ==> Tagged(steps[i].0, i)
    requires forall i :: 0 <= i < n ==> !Halted(steps[i].0)
    ensures !Halted(Stage(steps, ss, n).0)
    ensures OwnResults(Stage(steps, ss, n), steps, n)
  {
    if n > 0 {
      StageEachProvider(steps, ss, n - 1);
      StageTags(steps, ss, n - 1);
      StageEachStep(steps, ss, n);
    }
  }

  /** The inductive step of `StageEachProvider`: provider `n - 1` runs and adds only its own results. */
  lemma {:induction false} StageEachStep<S>(steps: seq<(seq<Event>, S)>, ss: seq<S>, n: nat)
    requires |steps| == |ss| && 0 < n <= |ss|
    requires Tagged(steps[n - 1].0, n - 1) && !Halted(steps[n - 1].0)
    requires !Halted(Stage(steps, ss, n - 1).0) && Below(Stage(steps, ss, n - 1).0, n - 1)
    requires OwnResults(Stage(steps, ss, n - 1), steps, n - 1)
    ensures !Halted(Stage(steps, ss, n).0)
    ensures OwnResults(Stage(steps, ss, n), steps, n)
  {
    var prev := Stage(steps, ss, n - 1);
    var e := steps[n - 1].0;
    HaltedConcat(prev.0, e);
    var next := (prev.0 + e, prev.1[n - 1 := steps[n - 1].1]);
    assert Stage(steps, ss, n) == next;
    forall i | 0 <= i < n
      ensures ProviderEvents(next.0, i) == steps[i].0 && next.1[i] == steps[i].1
    {
      ProviderEventsAppend(prev.0, e, i, n - 1);
    }
  }

  /** A stage made of such runs is itself such a run. */
  lemma {:induction false} StageFamilies<S>(steps: seq<(seq<Event>, S)>, ss: seq<S>, ipv4: string, ipv6: string, n: nat)
    requires |steps| == |ss| && n <= |ss|
    requires forall i :: 0 <= i < |ss| ==> FamiliesPushed(steps[i].0, ipv4, ipv6)
    ensures FamiliesPushed(Stage(steps, ss, n).0, ipv4, ipv6)
  {
    if n > 0 {
      StageFamilies(steps, ss, ipv4, ipv6, n - 1);
      var evs := Stage(steps, ss, n - 1).0;
      var e := steps[n - 1].0;
      assert FamiliesPushed(e, ipv4, ipv6);
      forall k | |evs| <= k < |evs + e|
        ensures (evs + e)[k] == e[k - |evs|]
      {
      }
    }
  }

  /**
    When the first `first` providers do not stop the process and provider
    `first` does, the stage stops, reports only pushes by providers up to
    `first`, and leaves the providers after it as they were.
  */
  lemma {:induction false} StageStopsAt<S>(steps: seq<(seq<Event>, S)>, ss: seq<S>, first: nat)
    requires |steps| == |ss| && first < |ss|
    requires forall i :: 0 <= i < |ss| ==> Tagged(steps[i].0, i)
    requires forall i :: 0 <= i < first ==> !Halted(steps[i].0)
    requires Halted(steps[first].0)
    ensures Halted(Stage(steps, ss, |ss|).0)
    ensures Below(Stage(steps, ss, |ss|).0, first + 1)
    ensures forall j :: first < j < |ss| ==> Stage(steps, ss, |ss|).1[j] == ss[j]
  {
    StageHaltsAt(steps, ss, first);
    StageTags(steps, ss, first + 1);
    StageUntouched(steps, ss, first + 1);
  }

  /** The stage stops at the first provider that stops the process, and stays as it was there. */
  lemma {:induction false} StageHaltsAt<S>(steps: seq<(seq<Event>, S)>, ss: seq<S>, first: nat)
    requires |steps| == |ss| && first < |ss|
    requires forall i :: 0 <= i < first ==> !Halted(steps[i].0)
    requires Halted(steps[first].0)
    ensures Halted(Stage(steps, ss, first + 1).0)
    ensures Stage(steps, ss, |ss|) == Stage(steps, ss, first + 1)
  {
    StageRunning(steps, ss, first);
    StageNext(steps, ss, first);
    HaltedConcat(Stage(steps, ss, first).0, steps[first].0);
    StageStopped(steps, ss, first + 1, |ss|);
  }
}
