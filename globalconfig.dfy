/** checkAndSetGlobalPostgreSQLConfiguration: the bootstrap-only PostgreSQL
    parameters of the manifest are pushed through the Patroni API of one pod,
    trying the cluster's pods in turn until one accepts them. */
module GlobalConfig {
  import opened Results
  import opened Objects

  /** What the backend answers: the pod listing, and for every pod whether
      its Patroni API accepts the parameters. */
  datatype ConfigWorld = ConfigWorld(listPods: Res<seq<Pod>>, accepts: Pod -> bool)

  /** The bootstrap-only entries of `parameters`; `bootstrapOnly` is
      isBootstrapOnlyParameter. */
  function BootstrapOptions(parameters: map<string, string>, bootstrapOnly: string -> bool): map<string, string>
  {
    map k | k in parameters && bootstrapOnly(k) :: parameters[k]
  }

  /** One Patroni call per pod of `pods`, sending `options`. */
  function Attempts(pods: seq<Pod>, options: map<string, string>): (cs: seq<Call>)
    ensures |cs| == |pods|
  {
    seq(|pods|, i requires 0 <= i < |pods| => SetParameters(pods[i], options))
  }

  /** Tries the pods in order; stops at the first that accepts. Returns
      whether one accepted, and the calls made. */
  function TryPods(pods: seq<Pod>, accepts: Pod -> bool, options: map<string, string>): (bool, seq<Call>)
  {
    if pods == [] then (false, [])
    else if accepts(pods[0]) then (true, [SetParameters(pods[0], options)])
    else
      var rest := TryPods(pods[1..], accepts, options);
      (rest.0, [SetParameters(pods[0], options)] + rest.1)
  }

  /** The index of the first pod that accepts, or |pods| if none does. */
  function FirstAccepting(pods: seq<Pod>, accepts: Pod -> bool): (k: nat)
    ensures k <= |pods|
    ensures forall j :: 0 <= j < k ==> !accepts(pods[j])
    ensures k < |pods| ==> accepts(pods[k])
  {
    if pods == [] then 0
    else if accepts(pods[0]) then 0
    else 1 + FirstAccepting(pods[1..], accepts)
  }

  /** A refusing pod is called once and passed over. */
  lemma TryPodsRefused(pods: seq<Pod>, accepts: Pod -> bool, options: map<string, string>)
    requires pods != [] && !accepts(pods[0])
    ensures TryPods(pods, accepts, options).0 == TryPods(pods[1..], accepts, options).0
    ensures TryPods(pods, accepts, options).1 == [SetParameters(pods[0], options)] + TryPods(pods[1..], accepts, options).1
  {
  }

  lemma AttemptsCons(pods: seq<Pod>, options: map<string, string>, i: nat)
    requires 0 < i <= |pods|
    ensures Attempts(pods[..i], options) == [SetParameters(pods[0], options)] + Attempts(pods[1..][..i - 1], options)
  {
    var a, b := Attempts(pods[..i], options), [SetParameters(pods[0], options)] + Attempts(pods[1..][..i - 1], options);
    forall k | 0 <= k < i ensures a[k] == b[k] {
      if k > 0 {
        assert pods[..i][k] == pods[1..][..i - 1][k - 1];
      }
    }
  }

  /** Pods that refuse are passed over: TryPods on `pods` makes one call to
      each refusing pod of the prefix and then goes on as TryPods on the rest. */
  lemma {:induction false} TryPodsSkipsRefusals(pods: seq<Pod>, accepts: Pod -> bool, options: map<string, string>, i: nat)
    requires i <= |pods|
    requires forall j :: 0 <= j < i ==> !accepts(pods[j])
    ensures TryPods(pods, accepts, options).0 == TryPods(pods[i..], accepts, options).0
    ensures TryPods(pods, accepts, options).1 == Attempts(pods[..i], options) + TryPods(pods[i..], accepts, options).1
  {
    if i == 0 {
      assert pods[0..] == pods;
      assert Attempts(pods[..0], options) == [];
    } else {
      var tail := pods[1..];
      TryPodsRefused(pods, accepts, options);
      TryPodsSkipsRefusals(tail, accepts, options, i - 1);
      assert tail[i - 1..] == pods[i..];
      AttemptsCons(pods, options, i);
      ConcatAssoc([SetParameters(pods[0], options)], Attempts(tail[..i - 1], options), TryPods(pods[i..], accepts, options).1);
    }
  }

  /** TryPods succeeds exactly when some pod accepts, and calls exactly the
      pods up to and including the first that accepts (all pods if none). */
  lemma TryPodsStopsAtFirstSuccess(pods: seq<Pod>, accepts: Pod -> bool, options: map<string, string>)
    ensures TryPods(pods, accepts, options).0 <==> exists j :: 0 <= j < |pods| && accepts(pods[j])
    ensures var k := FirstAccepting(pods, accepts);
            TryPods(pods, accepts, options).1 == Attempts(if k < |pods| then pods[..k + 1] else pods, options)
  {
    var k := FirstAccepting(pods, accepts);
    TryPodsSkipsRefusals(pods, accepts, options, k);
    if k < |pods| {
      assert pods[k..][0] == pods[k];
      assert Attempts(pods[..k + 1], options) == Attempts(pods[..k], options) + [SetParameters(pods[k], options)];
    } else {
      assert pods[k..] == [] && pods[..k] == pods;
    }
  }

  /** The whole of checkAndSetGlobalPostgreSQLConfiguration: its result and
      the calls it makes. */
  function ConfigRun(parameters: map<string, string>, bootstrapOnly: string -> bool, w: ConfigWorld): (Outcome, seq<Call>)
  {
    var options := BootstrapOptions(parameters, bootstrapOnly);
    if options == map[] then (Pass, [])
    else
      match w.listPods
      case Err(reason) => (Fail(Api(reason)), [ListPods])
      case Ok(pods) =>
        if |pods| == 0 then (Fail(Message), [ListPods])
        else
          var (ok, tries) := TryPods(pods, w.accepts, options);
          (if ok then Pass else Fail(Message), [ListPods] + tries)
  }

  /** What checkAndSetGlobalPostgreSQLConfiguration promises: every Patroni
      call sends exactly the bootstrap-only subset of the parameters; with no
      such parameter nothing is called and the result is nil; a listing with
      no pod is an error; pods are tried in order up to the first success;
      and the result is an error exactly when no pod accepted. */
  lemma ConfigRunContract(parameters: map<string, string>, bootstrapOnly: string -> bool, w: ConfigWorld)
    ensures var calls := ConfigRun(parameters, bootstrapOnly, w).1;
            forall i :: 0 <= i < |calls| && calls[i].SetParameters? ==> calls[i].options == BootstrapOptions(parameters, bootstrapOnly)
    ensures BootstrapOptions(parameters, bootstrapOnly) == map[] ==> ConfigRun(parameters, bootstrapOnly, w) == (Pass, [])
    ensures BootstrapOptions(parameters, bootstrapOnly) != map[] ==>
              |ConfigRun(parameters, bootstrapOnly, w).1| > 0 && ConfigRun(parameters, bootstrapOnly, w).1[0] == ListPods
    ensures BootstrapOptions(parameters, bootstrapOnly) != map[] && w.listPods == Ok([]) ==>
              ConfigRun(parameters, bootstrapOnly, w).0.Fail?
    ensures BootstrapOptions(parameters, bootstrapOnly) != map[] && w.listPods.Ok? ==>
              var pods := w.listPods.value;
              var k := FirstAccepting(pods, w.accepts);
              ConfigRun(parameters, bootstrapOnly, w).1
                == [ListPods] + Attempts(if k < |pods| then pods[..k + 1] else pods, BootstrapOptions(parameters, bootstrapOnly))
    ensures ConfigRun(parameters, bootstrapOnly, w).0.Pass? <==>
              (BootstrapOptions(parameters, bootstrapOnly) == map[] ||
               (w.listPods.Ok? && exists j :: 0 <= j < |w.listPods.value| && w.accepts(w.listPods.value[j])))
  {
    var options := BootstrapOptions(parameters, bootstrapOnly);
    if w.listPods.Ok? {
      TryPodsStopsAtFirstSuccess(w.listPods.value, w.accepts, options);
    }
  }

  /** The calls of checkAndSetGlobalPostgreSQLConfiguration are the pod
      listing and Patroni calls, and nothing else. */
  predicate PatroniCallsOnly(cs: seq<Call>)
  {
    forall i :: 0 <= i < |cs| ==> cs[i] == ListPods || cs[i].SetParameters?
  }

  lemma ConfigRunCalls(parameters: map<string, string>, bootstrapOnly: string -> bool, w: ConfigWorld)
    ensures PatroniCallsOnly(ConfigRun(parameters, bootstrapOnly, w).1)
  {
    ConfigRunContract(parameters, bootstrapOnly, w);
    var calls := ConfigRun(parameters, bootstrapOnly, w).1;
    forall i | 0 <= i < |calls| ensures calls[i] == ListPods || calls[i].SetParameters? {
      if i > 0 {
        assert calls[i] == calls[1..][i - 1];
      }
    }
  }

  /** checkAndSetGlobalPostgreSQLConfiguration. The first loop collects the
      bootstrap-only parameters (in no particular order, as Go iterates a
      map); the second tries the pods in order. */
  method CheckAndSetGlobalConfiguration(parameters: map<string, string>, bootstrapOnly: string -> bool, w: ConfigWorld)
    returns (err: Outcome, options: map<string, string>, calls: seq<Call>)
    ensures options.Keys == set k | k in parameters && bootstrapOnly(k)
    ensures forall k :: k in options ==> options[k] == parameters[k]
    ensures (err, calls) == ConfigRun(parameters, bootstrapOnly, w)
  {
    options := map[];
    var rest := parameters.Keys;
    while rest != {}
      invariant rest <= parameters.Keys
      invariant options == map k | k in parameters.Keys - rest && bootstrapOnly(k) :: parameters[k]
      decreases rest
    {
      var k :| k in rest;
      if bootstrapOnly(k) {
        options := options[k := parameters[k]];
      }
      rest := rest - {k};
    }
    assert options == BootstrapOptions(parameters, bootstrapOnly);
    calls := [];
    if options == map[] {
      return Pass, options, calls;
    }
    calls := [ListPods];
    if w.listPods.Err? {
      return Fail(Api(w.listPods.reason)), options, calls;
    }
    var pods := w.listPods.value;
    if |pods| == 0 {
      return Fail(Message), options, calls;
    }
    var i := 0;
    while i < |pods|
      invariant 0 <= i <= |pods|
      invariant calls == [ListPods] + Attempts(pods[..i], options)
      invariant forall j :: 0 <= j < i ==> !w.accepts(pods[j])
    {
      var pod := pods[i];
      calls := calls + [SetParameters(pod, options)];
      assert Attempts(pods[..i + 1], options) == Attempts(pods[..i], options) + [SetParameters(pod, options)];
      if w.accepts(pod) {
        TryPodsSkipsRefusals(pods, w.accepts, options, i);
        assert pods[i..][0] == pod;
        assert TryPods(pods[i..], w.accepts, options) == (true, [SetParameters(pod, options)]);
        assert TryPods(pods, w.accepts, options) == (true, Attempts(pods[..i + 1], options));
        assert ConfigRun(parameters, bootstrapOnly, w) == (Pass, [ListPods] + Attempts(pods[..i + 1], options));
        assert calls == [ListPods] + Attempts(pods[..i + 1], options);
        return Pass, options, calls;
      }
      i := i + 1;
    }
    TryPodsSkipsRefusals(pods, w.accepts, options, i);
    assert pods[i..] == [] && pods[..i] == pods;
    assert TryPods(pods[i..], w.accepts, options) == (false, []);
    assert Attempts(pods, options) + [] == Attempts(pods, options);
    assert TryPods(pods, w.accepts, options) == (false, Attempts(pods, options));
    assert ConfigRun(parameters, bootstrapOnly, w) == (Fail(Message), [ListPods] + Attempts(pods, options));
    err := Fail(Message);
  }
}
