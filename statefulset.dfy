/** syncStatefulSet: the statefulset is created when missing or updated or
    replaced when it differs from the desired one; the cluster-wide
    PostgreSQL options are pushed next; and, when the rolling-update marker is
    pending, the pods are recreated and the marker is cleared.

    This module holds the specification of the stage as a function of what
    the backend answers (`StatefulSetRun`) and the properties proved about it;
    the imperative stage itself is `ClusterSync.Cluster.SyncStatefulSet`. */
module StatefulSetSync {
  import opened Results
  import opened Objects
  import opened GlobalConfig

  /** compareStatefulSetWith: whether the running statefulset must be
      written, whether the change needs a replace rather than an update, and
      whether it only takes effect once the pods are recreated. */
  datatype Comparison = Comparison(update: bool, replace: bool, rollingUpdate: bool)

  /** What the backend answers during syncStatefulSet.
      `generate` is generateStatefulSet(&c.Spec) and `compare` is
      compareStatefulSetWith(running, desired); both are left uninterpreted. */
  datatype StatefulSetWorld = StatefulSetWorld(
    get: Res<StatefulSet>,
    listPods: Res<seq<Pod>>,
    create: Res<StatefulSet>,
    waitReady: Outcome,
    generate: Result<StatefulSet>,
    compare: (StatefulSet, StatefulSet) -> Comparison,
    update: Outcome,
    replace: Outcome,
    config: ConfigWorld,
    recreate: Outcome)

  /** The result of the stage, the calls it makes, the new value of the
      cached statefulset (c.Statefulset) and the final value of the local
      podsRollingUpdateRequired. */
  datatype Run = Run(err: Outcome, calls: seq<Call>, cache: Option<StatefulSet>, rollingUpdate: bool)

  /** mergeRollingUpdateFlagUsingCache: the marker persisted on the running
      statefulset, or-ed with the one on the statefulset cached by the
      previous pass. */
  function MergedFlag(running: StatefulSet, cached: Option<StatefulSet>): bool
  {
    running.rollingUpdate || (cached.Some? && cached.value.rollingUpdate)
  }

  /** Lines 308-327: push the global configuration, then recreate the pods
      and clear the marker if it is pending. A failure to clear the marker is
      only logged, so it is not part of the result. */
  function Finish(calls: seq<Call>, cache: Option<StatefulSet>, pending: bool,
                  parameters: map<string, string>, bootstrapOnly: string -> bool, w: StatefulSetWorld): Run
  {
    var (cerr, ccalls) := ConfigRun(parameters, bootstrapOnly, w.config);
    if cerr.Fail? then Run(Fail(Wrapped(cerr.error)), calls + ccalls, cache, pending)
    else if !pending then Run(Pass, calls + ccalls, cache, pending)
    else if w.recreate.Fail? then Run(Fail(Wrapped(w.recreate.error)), calls + ccalls + [RecreatePods], cache, pending)
    else Run(Pass, calls + ccalls + [RecreatePods, SetRollingUpdateFlag(false)], cache, pending)
  }

  /** The calls made after the global configuration was pushed. */
  function RecreateTail(configured: Outcome, pending: bool, recreate: Outcome): seq<Call>
  {
    if configured.Fail? || !pending then []
    else if recreate.Fail? then [RecreatePods]
    else [RecreatePods, SetRollingUpdateFlag(false)]
  }

  /** Finish appends the configuration calls and then the recreation calls,
      which happen only when the configuration was pushed and the marker is
      pending; it succeeds exactly when both steps do. */
  lemma FinishCalls(calls: seq<Call>, cache: Option<StatefulSet>, pending: bool,
                    parameters: map<string, string>, bootstrapOnly: string -> bool, w: StatefulSetWorld)
    ensures var r := Finish(calls, cache, pending, parameters, bootstrapOnly, w);
            var (cerr, ccalls) := ConfigRun(parameters, bootstrapOnly, w.config);
            && r.cache == cache && r.rollingUpdate == pending
            && r.calls == calls + ccalls + RecreateTail(cerr, pending, w.recreate)
            && PatroniCallsOnly(ccalls)
            && (r.err.Pass? <==> cerr.Pass? && (!pending || w.recreate.Pass?))
            && (r.err.Fail? ==> r.err.error.Wrapped?)
  {
    ConfigRunCalls(parameters, bootstrapOnly, w.config);
    var (cerr, ccalls) := ConfigRun(parameters, bootstrapOnly, w.config);
    var tail := RecreateTail(cerr, pending, w.recreate);
    if cerr.Fail? || !pending {
      assert ccalls + tail == ccalls;
    } else {
      assert calls + ccalls + tail == calls + (ccalls + tail);
    }
  }

  /** The calls before Finish are kept as they are, and every call Finish
      adds is one of the calls made after a write. */
  lemma FinishShape(calls: seq<Call>, cache: Option<StatefulSet>, pending: bool,
                    parameters: map<string, string>, bootstrapOnly: string -> bool, w: StatefulSetWorld)
    ensures var r := Finish(calls, cache, pending, parameters, bootstrapOnly, w);
            && r.cache == cache && r.rollingUpdate == pending
            && |r.calls| >= |calls|
            && (forall i :: 0 <= i < |calls| ==> r.calls[i] == calls[i])
            && (forall i :: |calls| <= i < |r.calls| ==> AfterWrite(r.calls[i]))
  {
    FinishCalls(calls, cache, pending, parameters, bootstrapOnly, w);
    var r := Finish(calls, cache, pending, parameters, bootstrapOnly, w);
    var (cerr, ccalls) := ConfigRun(parameters, bootstrapOnly, w.config);
    var more := ccalls + RecreateTail(cerr, pending, w.recreate);
    assert r.calls == calls + more;
    AfterWriteParts(ccalls, RecreateTail(cerr, pending, w.recreate));
    AppendedAfterWrite(calls, more);
  }

  /** The configuration calls followed by the recreation calls are all calls
      made after a write. */
  lemma AfterWriteParts(ccalls: seq<Call>, tail: seq<Call>)
    requires PatroniCallsOnly(ccalls)
    requires tail == [] || tail == [RecreatePods] || tail == [RecreatePods, SetRollingUpdateFlag(false)]
    ensures forall k :: 0 <= k < |ccalls + tail| ==> AfterWrite((ccalls + tail)[k])
  {
    var more := ccalls + tail;
    forall k | 0 <= k < |more| ensures AfterWrite(more[k]) {
      if k >= |ccalls| {
        assert more[k] == tail[k - |ccalls|];
      } else {
        assert more[k] == ccalls[k];
      }
    }
  }

  /** A log followed by calls made after a write. */
  lemma AppendedAfterWrite(calls: seq<Call>, more: seq<Call>)
    requires forall k :: 0 <= k < |more| ==> AfterWrite(more[k])
    ensures forall i :: 0 <= i < |calls| ==> (calls + more)[i] == calls[i]
    ensures forall i :: |calls| <= i < |calls + more| ==> AfterWrite((calls + more)[i])
  {
    forall i | |calls| <= i < |calls + more| ensures AfterWrite((calls + more)[i]) {
      assert (calls + more)[i] == more[i - |calls|];
    }
  }

  /** The calls made after the statefulset was written: configuration calls,
      the recreation of the pods and the clearing of the marker. */
  predicate AfterWrite(c: Call)
  {
    c == ListPods || c.SetParameters? || c == RecreatePods || c == SetRollingUpdateFlag(false)
  }

  /** The comparison syncStatefulSet acts on: the running statefulset
      against the desired one carrying the merged marker. */
  function ComparisonOf(generated: StatefulSet, running: StatefulSet, cached: Option<StatefulSet>,
                        compare: (StatefulSet, StatefulSet) -> Comparison): Comparison
  {
    compare(running, generated.(rollingUpdate := MergedFlag(running, cached)))
  }

  /** The desired statefulset, carrying the marker raised when the
      comparison asks for a rolling update. */
  function Desired(generated: StatefulSet, running: StatefulSet, cached: Option<StatefulSet>,
                   compare: (StatefulSet, StatefulSet) -> Comparison): StatefulSet
  {
    var cmp := ComparisonOf(generated, running, cached, compare);
    generated.(rollingUpdate := MergedFlag(running, cached) || (cmp.update && cmp.rollingUpdate))
  }

  /** Lines 252-271: the statefulset is missing and is created again. */
  function CreatePath(parameters: map<string, string>, bootstrapOnly: string -> bool, w: StatefulSetWorld): Run
  {
    var listed := [GetStatefulSet, ListPods];
    match w.listPods
    case Err(r) => Run(Fail(Wrapped(Api(r))), listed, None, false)
    case Ok(pods) =>
      match w.create
      case Err(r) => Run(Fail(Wrapped(Api(r))), listed + [CreateStatefulSet], None, false)
      case Ok(_) =>
        var created := listed + [CreateStatefulSet, WaitPodsReady];
        if w.waitReady.Fail? then Run(Fail(Wrapped(w.waitReady.error)), created, None, false)
        else
          var orphans := |pods| > 0;
          Finish(created + (if orphans then [SetRollingUpdateFlag(true)] else []), None, orphans,
                 parameters, bootstrapOnly, w)
  }

  /** Lines 273-305: the statefulset exists; it is compared with the
      desired one and written when they differ. */
  function UpdatePath(running: StatefulSet, cached: Option<StatefulSet>, parameters: map<string, string>,
                      bootstrapOnly: string -> bool, w: StatefulSetWorld): Run
  {
    match w.generate
    case Failure(e) => Run(Fail(Wrapped(e)), [GetStatefulSet], Some(running), MergedFlag(running, cached))
    case Success(generated) =>
      var cmp := ComparisonOf(generated, running, cached, w.compare);
      var desired := Desired(generated, running, cached, w.compare);
      var flag := desired.rollingUpdate;
      if !cmp.update then Finish([GetStatefulSet], Some(running), flag, parameters, bootstrapOnly, w)
      else
        var write := if cmp.replace then ReplaceStatefulSet(desired) else UpdateStatefulSet(desired);
        var result := if cmp.replace then w.replace else w.update;
        if result.Fail? then Run(Fail(Wrapped(result.error)), [GetStatefulSet, write], Some(running), flag)
        else Finish([GetStatefulSet, write], Some(running), flag, parameters, bootstrapOnly, w)
  }

  /** syncStatefulSet as a function of the backend's answers and of the
      statefulset cached by the previous pass. */
  function StatefulSetRun(cached: Option<StatefulSet>, parameters: map<string, string>,
                          bootstrapOnly: string -> bool, w: StatefulSetWorld): Run
  {
    match w.get
    case Ok(running) => UpdatePath(running, cached, parameters, bootstrapOnly, w)
    case Err(reason) =>
      if reason == NotFound then CreatePath(parameters, bootstrapOnly, w)
      else Run(Fail(Wrapped(Api(reason))), [GetStatefulSet], cached, false)
  }

  /** A call that persists the value `flag` for the rolling-update marker. */
  predicate PersistsFlag(c: Call, flag: bool)
  {
    || c == SetRollingUpdateFlag(flag)
    || (c.UpdateStatefulSet? && c.sset.rollingUpdate == flag)
    || (c.ReplaceStatefulSet? && c.sset.rollingUpdate == flag)
  }

  /** Finish adds only statefulset-stage calls. */
  lemma FinishStage(calls: seq<Call>, cache: Option<StatefulSet>, pending: bool,
                    parameters: map<string, string>, bootstrapOnly: string -> bool, w: StatefulSetWorld)
    requires AllAt(calls, StatefulSetStage)
    ensures AllAt(Finish(calls, cache, pending, parameters, bootstrapOnly, w).calls, StatefulSetStage)
  {
    FinishShape(calls, cache, pending, parameters, bootstrapOnly, w);
    var r := Finish(calls, cache, pending, parameters, bootstrapOnly, w);
    forall i | 0 <= i < |r.calls| ensures StageOf(r.calls[i]) == StatefulSetStage {
      if i < |calls| {
        assert r.calls[i] == calls[i];
      } else {
        assert AfterWrite(r.calls[i]);
      }
    }
  }

  lemma UpdatePathStage(running: StatefulSet, cached: Option<StatefulSet>, parameters: map<string, string>,
                        bootstrapOnly: string -> bool, w: StatefulSetWorld)
    ensures AllAt(UpdatePath(running, cached, parameters, bootstrapOnly, w).calls, StatefulSetStage)
  {
    if w.generate.Success? {
      var cmp := ComparisonOf(w.generate.value, running, cached, w.compare);
      var desired := Desired(w.generate.value, running, cached, w.compare);
      if !cmp.update {
        FinishStage([GetStatefulSet], Some(running), desired.rollingUpdate, parameters, bootstrapOnly, w);
      } else {
        var write := if cmp.replace then ReplaceStatefulSet(desired) else UpdateStatefulSet(desired);
        FinishStage([GetStatefulSet, write], Some(running), desired.rollingUpdate, parameters, bootstrapOnly, w);
      }
    }
  }

  lemma CreatePathStage(parameters: map<string, string>, bootstrapOnly: string -> bool, w: StatefulSetWorld)
    ensures AllAt(CreatePath(parameters, bootstrapOnly, w).calls, StatefulSetStage)
  {
    if w.listPods.Ok? && w.create.Ok? && w.waitReady.Pass? {
      var orphans := |w.listPods.value| > 0;
      var flagged := CreatedLog(orphans);
      assert AllAt(flagged, StatefulSetStage) by {
        forall i | 0 <= i < |flagged| ensures StageOf(flagged[i]) == StatefulSetStage {
          if i >= 4 {
            assert flagged[i] == SetRollingUpdateFlag(true);
          }
        }
      }
      CreatePathReachesFinish(parameters, bootstrapOnly, w);
      FinishStage(flagged, None, orphans, parameters, bootstrapOnly, w);
    }
  }

  /** Every call of the stage is a statefulset-stage call. */
  lemma StatefulSetRunStage(cached: Option<StatefulSet>, parameters: map<string, string>,
                            bootstrapOnly: string -> bool, w: StatefulSetWorld)
    ensures AllAt(StatefulSetRun(cached, parameters, bootstrapOnly, w).calls, StatefulSetStage)
  {
    if w.get.Ok? {
      UpdatePathStage(w.get.value, cached, parameters, bootstrapOnly, w);
    } else if w.get.reason == NotFound {
      CreatePathStage(parameters, bootstrapOnly, w);
    }
  }

  /** A get that fails for a reason other than NotFound returns an error
      before anything is written, and leaves the cache alone. */
  lemma GetFailureWritesNothing(cached: Option<StatefulSet>, parameters: map<string, string>,
                                bootstrapOnly: string -> bool, w: StatefulSetWorld)
    requires w.get.Err? && w.get.reason != NotFound
    ensures var r := StatefulSetRun(cached, parameters, bootstrapOnly, w);
            r.err.Fail? && r.calls == [GetStatefulSet] && r.cache == cached && !r.rollingUpdate
  {
  }

  /** Finish, when the marker is pending and was not cleared before it:
      nothing clears the marker but the last call, right after a successful
      recreation of the pods. */
  lemma FinishMarker(calls: seq<Call>, cache: Option<StatefulSet>, pending: bool,
                     parameters: map<string, string>, bootstrapOnly: string -> bool, w: StatefulSetWorld)
    requires pending
    requires forall i :: 0 <= i < |calls| ==> !PersistsFlag(calls[i], false)
    ensures var r := Finish(calls, cache, pending, parameters, bootstrapOnly, w);
            forall i :: 0 <= i < |r.calls| && PersistsFlag(r.calls[i], false) ==>
              i == |r.calls| - 1 && i > 0 && r.calls[i - 1] == RecreatePods && w.recreate.Pass?
  {
    FinishCalls(calls, cache, pending, parameters, bootstrapOnly, w);
    var (cerr, ccalls) := ConfigRun(parameters, bootstrapOnly, w.config);
    var r := Finish(calls, cache, pending, parameters, bootstrapOnly, w);
    var tail := RecreateTail(cerr, pending, w.recreate);
    var n := |calls| + |ccalls|;
    assert r.calls == calls + ccalls + tail;
    forall i | 0 <= i < |r.calls| && PersistsFlag(r.calls[i], false)
      ensures i == |r.calls| - 1 && i > 0 && r.calls[i - 1] == RecreatePods && w.recreate.Pass?
    {
      if i >= n {
        assert r.calls[i] == tail[i - n];
      }
    }
  }

  /** Pods are recreated only after every configuration call, and only when
      the marker is pending and the configuration was pushed; a pending
      marker on a pass without error ends with the recreation of the pods and
      the clearing of the marker. */
  ghost predicate RecreationLast(r: Run, configured: bool)
  {
    && (forall i, j :: (0 <= i < |r.calls| && 0 <= j < |r.calls| && r.calls[i] == RecreatePods &&
          (r.calls[j].SetParameters? || r.calls[j] == ListPods)) ==> j < i)
    && (forall i :: 0 <= i < |r.calls| && r.calls[i] == RecreatePods ==> r.rollingUpdate && configured)
    && (r.rollingUpdate && r.err.Pass? ==>
          |r.calls| >= 2 && r.calls[|r.calls| - 2..] == [RecreatePods, SetRollingUpdateFlag(false)])
  }

  /** Finish, when no pods were recreated before it: pods are recreated
      after every configuration call, only when the configuration was pushed
      and the marker is pending; a pending marker on a pass without error
      ends with the recreation and the clearing of the marker. */
  lemma FinishRecreation(calls: seq<Call>, cache: Option<StatefulSet>, pending: bool,
                         parameters: map<string, string>, bootstrapOnly: string -> bool, w: StatefulSetWorld)
    requires forall i :: 0 <= i < |calls| ==> calls[i] != RecreatePods && !calls[i].SetParameters?
    requires forall i :: 1 <= i < |calls| ==> calls[i] != ListPods || i == 1
    ensures RecreationLast(Finish(calls, cache, pending, parameters, bootstrapOnly, w),
                           ConfigRun(parameters, bootstrapOnly, w.config).0.Pass?)
  {
    FinishCalls(calls, cache, pending, parameters, bootstrapOnly, w);
    var (cerr, ccalls) := ConfigRun(parameters, bootstrapOnly, w.config);
    var r := Finish(calls, cache, pending, parameters, bootstrapOnly, w);
    var tail := RecreateTail(cerr, pending, w.recreate);
    var n := |calls| + |ccalls|;
    forall i | 0 <= i < |r.calls| && r.calls[i] == RecreatePods
      ensures i == n && pending && cerr.Pass?
    {
      if i >= n {
        assert r.calls[i] == tail[i - n];
      }
    }
  }

  /** Nothing is written when the comparison asks for no update. */
  lemma UpdatePathNoWrite(running: StatefulSet, cached: Option<StatefulSet>, parameters: map<string, string>,
                          bootstrapOnly: string -> bool, w: StatefulSetWorld)
    requires w.generate.Success? && !ComparisonOf(w.generate.value, running, cached, w.compare).update
    ensures var r := UpdatePath(running, cached, parameters, bootstrapOnly, w);
            forall i :: 0 <= i < |r.calls| ==> !r.calls[i].UpdateStatefulSet? && !r.calls[i].ReplaceStatefulSet?
  {
    var desired := Desired(w.generate.value, running, cached, w.compare);
    FinishShape([GetStatefulSet], Some(running), desired.rollingUpdate, parameters, bootstrapOnly, w);
  }

  /** The single write when the comparison asks for an update. */
  lemma UpdatePathWrite(running: StatefulSet, cached: Option<StatefulSet>, parameters: map<string, string>,
                        bootstrapOnly: string -> bool, w: StatefulSetWorld)
    requires w.generate.Success? && ComparisonOf(w.generate.value, running, cached, w.compare).update
    ensures var r := UpdatePath(running, cached, parameters, bootstrapOnly, w);
            var cmp := ComparisonOf(w.generate.value, running, cached, w.compare);
            var desired := Desired(w.generate.value, running, cached, w.compare);
            && |r.calls| >= 2 && r.calls[1] == (if cmp.replace then ReplaceStatefulSet(desired) else UpdateStatefulSet(desired))
            && (forall i :: 0 <= i < |r.calls| && (r.calls[i].UpdateStatefulSet? || r.calls[i].ReplaceStatefulSet?) ==> i == 1)
  {
    var cmp := ComparisonOf(w.generate.value, running, cached, w.compare);
    var desired := Desired(w.generate.value, running, cached, w.compare);
    var prefix := [GetStatefulSet, if cmp.replace then ReplaceStatefulSet(desired) else UpdateStatefulSet(desired)];
    FinishShape(prefix, Some(running), desired.rollingUpdate, parameters, bootstrapOnly, w);
  }

  /** When the statefulset exists and the desired one was generated, the
      statefulset is written exactly when the comparison asks for an update;
      it is then replaced exactly when the comparison asks for a replace, and
      updated otherwise; what is written is the desired statefulset carrying
      the marker. When the desired statefulset cannot be generated, nothing
      is written. */
  lemma WriteOnlyOnUpdate(cached: Option<StatefulSet>, parameters: map<string, string>,
                          bootstrapOnly: string -> bool, w: StatefulSetWorld)
    requires w.get.Ok?
    ensures var r := StatefulSetRun(cached, parameters, bootstrapOnly, w);
            && r.cache == Some(w.get.value)
            && (w.generate.Failure? ==> r.calls == [GetStatefulSet] && r.err.Fail?)
            && (w.generate.Success? ==>
                  var cmp := ComparisonOf(w.generate.value, w.get.value, cached, w.compare);
                  var desired := Desired(w.generate.value, w.get.value, cached, w.compare);
                  && ((exists i :: 0 <= i < |r.calls| && (r.calls[i].UpdateStatefulSet? || r.calls[i].ReplaceStatefulSet?))
                        <==> cmp.update)
                  && (cmp.update ==> |r.calls| >= 2 && r.calls[1] == if cmp.replace then ReplaceStatefulSet(desired) else UpdateStatefulSet(desired))
                  && (forall i :: 0 <= i < |r.calls| && r.calls[i].ReplaceStatefulSet? ==> i == 1 && cmp.replace)
                  && (forall i :: 0 <= i < |r.calls| && r.calls[i].UpdateStatefulSet? ==> i == 1 && !cmp.replace))
  {
    var running := w.get.value;
    if w.generate.Success? {
      var r := StatefulSetRun(cached, parameters, bootstrapOnly, w);
      if ComparisonOf(w.generate.value, running, cached, w.compare).update {
        UpdatePathWrite(running, cached, parameters, bootstrapOnly, w);
        assert r.calls[1].UpdateStatefulSet? || r.calls[1].ReplaceStatefulSet?;
      } else {
        UpdatePathNoWrite(running, cached, parameters, bootstrapOnly, w);
      }
    }
  }

  /** The marker on the path where the statefulset exists. */
  lemma UpdatePathMarker(running: StatefulSet, cached: Option<StatefulSet>, parameters: map<string, string>,
                         bootstrapOnly: string -> bool, w: StatefulSetWorld)
    ensures var r := UpdatePath(running, cached, parameters, bootstrapOnly, w);
            && (r.rollingUpdate <==>
                  || MergedFlag(running, cached)
                  || (w.generate.Success? && ComparisonOf(w.generate.value, running, cached, w.compare).update
                      && ComparisonOf(w.generate.value, running, cached, w.compare).rollingUpdate))
            && (forall i :: 0 <= i < |r.calls| && (r.calls[i].UpdateStatefulSet? || r.calls[i].ReplaceStatefulSet?) ==>
                  r.calls[i].sset.rollingUpdate == r.rollingUpdate)
            && (forall i :: 0 <= i < |r.calls| && r.rollingUpdate && PersistsFlag(r.calls[i], false) ==>
                  i == |r.calls| - 1 && i > 0 && r.calls[i - 1] == RecreatePods && w.recreate.Pass?)
  {
    if w.generate.Success? {
      var cmp := ComparisonOf(w.generate.value, running, cached, w.compare);
      var desired := Desired(w.generate.value, running, cached, w.compare);
      var prefix := if !cmp.update then [GetStatefulSet]
                    else [GetStatefulSet, if cmp.replace then ReplaceStatefulSet(desired) else UpdateStatefulSet(desired)];
      var result := if cmp.replace then w.replace else w.update;
      if cmp.update && result.Fail? {
        assert UpdatePath(running, cached, parameters, bootstrapOnly, w).calls == prefix;
      } else {
        UpdatePathFinishMarker(running, cached, parameters, bootstrapOnly, w, prefix);
      }
    }
  }

  /** UpdatePathMarker, on the paths that reach Finish. */
  lemma UpdatePathFinishMarker(running: StatefulSet, cached: Option<StatefulSet>, parameters: map<string, string>,
                               bootstrapOnly: string -> bool, w: StatefulSetWorld, prefix: seq<Call>)
    requires w.generate.Success?
    requires var cmp := ComparisonOf(w.generate.value, running, cached, w.compare);
             var desired := Desired(w.generate.value, running, cached, w.compare);
             prefix == if !cmp.update then [GetStatefulSet]
                       else [GetStatefulSet, if cmp.replace then ReplaceStatefulSet(desired) else UpdateStatefulSet(desired)]
    requires var cmp := ComparisonOf(w.generate.value, running, cached, w.compare);
             !cmp.update || (if cmp.replace then w.replace else w.update).Pass?
    ensures var pending := Desired(w.generate.value, running, cached, w.compare).rollingUpdate;
            var r := Finish(prefix, Some(running), pending, parameters, bootstrapOnly, w);
            && UpdatePath(running, cached, parameters, bootstrapOnly, w) == r
            && (forall i :: 0 <= i < |r.calls| && (r.calls[i].UpdateStatefulSet? || r.calls[i].ReplaceStatefulSet?) ==>
                  r.calls[i].sset.rollingUpdate == pending)
            && (forall i :: 0 <= i < |r.calls| && pending && PersistsFlag(r.calls[i], false) ==>
                  i == |r.calls| - 1 && i > 0 && r.calls[i - 1] == RecreatePods && w.recreate.Pass?)
  {
    var pending := Desired(w.generate.value, running, cached, w.compare).rollingUpdate;
    FinishShape(prefix, Some(running), pending, parameters, bootstrapOnly, w);
    if pending {
      FinishMarker(prefix, Some(running), pending, parameters, bootstrapOnly, w);
    }
  }

  /** The marker on the path where the statefulset is created again. */
  lemma CreatePathMarker(parameters: map<string, string>, bootstrapOnly: string -> bool, w: StatefulSetWorld)
    ensures var r := CreatePath(parameters, bootstrapOnly, w);
            && (r.rollingUpdate <==>
                  w.listPods.Ok? && |w.listPods.value| > 0 && w.create.Ok? && w.waitReady.Pass?)
            && (forall i :: 0 <= i < |r.calls| ==> !r.calls[i].UpdateStatefulSet? && !r.calls[i].ReplaceStatefulSet?)
            && (forall i :: 0 <= i < |r.calls| && r.rollingUpdate && PersistsFlag(r.calls[i], false) ==>
                  i == |r.calls| - 1 && i > 0 && r.calls[i - 1] == RecreatePods && w.recreate.Pass?)
  {
    if w.listPods.Ok? && w.create.Ok? && w.waitReady.Pass? {
      CreatePathReachesFinish(parameters, bootstrapOnly, w);
      CreatedFinishMarker(|w.listPods.value| > 0, parameters, bootstrapOnly, w);
    }
  }

  /** The log of the create path when it reaches Finish. */
  function CreatedLog(orphans: bool): seq<Call>
  {
    [GetStatefulSet, ListPods, CreateStatefulSet, WaitPodsReady] + (if orphans then [SetRollingUpdateFlag(true)] else [])
  }

  /** The create path reaches Finish once the pods were listed, the
      statefulset created and its pods ready; the marker is raised exactly
      when pods of a previous statefulset were found. */
  lemma CreatePathReachesFinish(parameters: map<string, string>, bootstrapOnly: string -> bool, w: StatefulSetWorld)
    requires w.listPods.Ok? && w.create.Ok? && w.waitReady.Pass?
    ensures var orphans := |w.listPods.value| > 0;
            CreatePath(parameters, bootstrapOnly, w) == Finish(CreatedLog(orphans), None, orphans, parameters, bootstrapOnly, w)
  {
    assert [GetStatefulSet, ListPods] + [CreateStatefulSet, WaitPodsReady] == [GetStatefulSet, ListPods, CreateStatefulSet, WaitPodsReady];
  }

  /** CreatePathMarker, on the path that reaches Finish. */
  lemma CreatedFinishMarker(orphans: bool, parameters: map<string, string>, bootstrapOnly: string -> bool, w: StatefulSetWorld)
    ensures var r := Finish(CreatedLog(orphans), None, orphans, parameters, bootstrapOnly, w);
            && r.rollingUpdate == orphans
            && (forall i :: 0 <= i < |r.calls| ==> !r.calls[i].UpdateStatefulSet? && !r.calls[i].ReplaceStatefulSet?)
            && (forall i :: 0 <= i < |r.calls| && orphans && PersistsFlag(r.calls[i], false) ==>
                  i == |r.calls| - 1 && i > 0 && r.calls[i - 1] == RecreatePods && w.recreate.Pass?)
  {
    var flagged := CreatedLog(orphans);
    FinishShape(flagged, None, orphans, parameters, bootstrapOnly, w);
    if orphans {
      assert forall i :: 0 <= i < |flagged| ==> !PersistsFlag(flagged[i], false);
      FinishMarker(flagged, None, orphans, parameters, bootstrapOnly, w);
    }
  }

  /** The rolling-update marker ends up pending exactly when pods from a
      previous statefulset were found when the missing statefulset was
      created again, or when the statefulset exists and its persisted marker
      or the cached one was set, or the comparison asks for an update that
      needs a rolling update. While it is pending nothing persists it as
      cleared, except the last call, right after the pods were recreated
      successfully; every update or replace carries the marker. */
  lemma RollingUpdateMarker(cached: Option<StatefulSet>, parameters: map<string, string>,
                            bootstrapOnly: string -> bool, w: StatefulSetWorld)
    ensures var r := StatefulSetRun(cached, parameters, bootstrapOnly, w);
            && (r.rollingUpdate <==>
                  || (w.get == Err(NotFound) && w.listPods.Ok? && |w.listPods.value| > 0
                      && w.create.Ok? && w.waitReady.Pass?)
                  || (w.get.Ok? && MergedFlag(w.get.value, cached))
                  || (w.get.Ok? && w.generate.Success?
                      && ComparisonOf(w.generate.value, w.get.value, cached, w.compare).update
                      && ComparisonOf(w.generate.value, w.get.value, cached, w.compare).rollingUpdate))
            && (forall i :: 0 <= i < |r.calls| && (r.calls[i].UpdateStatefulSet? || r.calls[i].ReplaceStatefulSet?) ==>
                  r.calls[i].sset.rollingUpdate == r.rollingUpdate)
            && (forall i :: 0 <= i < |r.calls| && r.rollingUpdate && PersistsFlag(r.calls[i], false) ==>
                  i == |r.calls| - 1 && i > 0 && r.calls[i - 1] == RecreatePods && w.recreate.Pass?)
  {
    if w.get.Ok? {
      UpdatePathMarker(w.get.value, cached, parameters, bootstrapOnly, w);
    } else if w.get.reason == NotFound {
      CreatePathMarker(parameters, bootstrapOnly, w);
    }
  }

  lemma UpdatePathRecreation(running: StatefulSet, cached: Option<StatefulSet>, parameters: map<string, string>,
                             bootstrapOnly: string -> bool, w: StatefulSetWorld)
    ensures RecreationLast(UpdatePath(running, cached, parameters, bootstrapOnly, w),
                           ConfigRun(parameters, bootstrapOnly, w.config).0.Pass?)
  {
    if w.generate.Success? {
      var cmp := ComparisonOf(w.generate.value, running, cached, w.compare);
      var desired := Desired(w.generate.value, running, cached, w.compare);
      var prefix := if !cmp.update then [GetStatefulSet]
                    else [GetStatefulSet, if cmp.replace then ReplaceStatefulSet(desired) else UpdateStatefulSet(desired)];
      var result := if cmp.replace then w.replace else w.update;
      if cmp.update && result.Fail? {
        assert UpdatePath(running, cached, parameters, bootstrapOnly, w).calls == prefix;
      } else {
        assert UpdatePath(running, cached, parameters, bootstrapOnly, w) ==
               Finish(prefix, Some(running), desired.rollingUpdate, parameters, bootstrapOnly, w);
        FinishRecreation(prefix, Some(running), desired.rollingUpdate, parameters, bootstrapOnly, w);
      }
    }
  }

  lemma CreatePathRecreation(parameters: map<string, string>, bootstrapOnly: string -> bool, w: StatefulSetWorld)
    ensures RecreationLast(CreatePath(parameters, bootstrapOnly, w),
                           ConfigRun(parameters, bootstrapOnly, w.config).0.Pass?)
  {
    if w.listPods.Ok? && w.create.Ok? && w.waitReady.Pass? {
      var orphans := |w.listPods.value| > 0;
      CreatePathReachesFinish(parameters, bootstrapOnly, w);
      FinishRecreation(CreatedLog(orphans), None, orphans, parameters, bootstrapOnly, w);
    }
  }

  /** The global configuration is pushed before any pod is recreated: pods
      are recreated only after every configuration call, only when the
      configuration was pushed and the marker is pending; and a pending
      marker on a pass without error ends with the recreation of the pods
      and the clearing of the marker. */
  lemma ConfigurationBeforeRecreation(cached: Option<StatefulSet>, parameters: map<string, string>,
                                      bootstrapOnly: string -> bool, w: StatefulSetWorld)
    ensures var r := StatefulSetRun(cached, parameters, bootstrapOnly, w);
            && (forall i, j :: (0 <= i < |r.calls| && 0 <= j < |r.calls| && r.calls[i] == RecreatePods &&
                  (r.calls[j].SetParameters? || r.calls[j] == ListPods)) ==> j < i)
            && (forall i :: 0 <= i < |r.calls| && r.calls[i] == RecreatePods ==>
                  r.rollingUpdate && ConfigRun(parameters, bootstrapOnly, w.config).0.Pass?)
            && (r.rollingUpdate && r.err.Pass? ==>
                  |r.calls| >= 2 && r.calls[|r.calls| - 2..] == [RecreatePods, SetRollingUpdateFlag(false)])
  {
    var configured := ConfigRun(parameters, bootstrapOnly, w.config).0.Pass?;
    if w.get.Ok? {
      UpdatePathRecreation(w.get.value, cached, parameters, bootstrapOnly, w);
    } else if w.get.reason == NotFound {
      CreatePathRecreation(parameters, bootstrapOnly, w);
    }
    assert RecreationLast(StatefulSetRun(cached, parameters, bootstrapOnly, w), configured);
  }

  // Sync, lines 72-77, tolerates a statefulset error that is AlreadyExists.

  /** As written: ResourceAlreadyExists applied to the error syncStatefulSet
      returns. */
  predicate ToleratedAsWritten(e: Error)
  {
    ResourceAlreadyExists(e)
  }

  /** As intended: the error was caused by an AlreadyExists answer. */
  predicate Tolerated(e: Error)
  {
    RootCause(e) == Api(AlreadyExists)
  }

  /** Every error syncStatefulSet returns is built by fmt.Errorf, so the
      check as written never tolerates one: a statefulset created by someone
      else between the get and the create aborts the pass. */
  lemma NeverToleratedAsWritten(cached: Option<StatefulSet>, parameters: map<string, string>,
                                                  bootstrapOnly: string -> bool, w: StatefulSetWorld)
    ensures var r := StatefulSetRun(cached, parameters, bootstrapOnly, w);
            r.err.Fail? ==> r.err.error.Wrapped? && !ToleratedAsWritten(r.err.error)
    ensures w.get == Err(NotFound) && w.listPods.Ok? && w.create == Err(AlreadyExists) ==>
              var r := StatefulSetRun(cached, parameters, bootstrapOnly, w);
              r.err.Fail? && !ToleratedAsWritten(r.err.error)
  {
  }

  /** With the corrected check, the race the check is there for, a create
      answered AlreadyExists, is tolerated, and an error that no
      AlreadyExists answer caused is not. */
  lemma CreateConflictTolerated(cached: Option<StatefulSet>, parameters: map<string, string>,
                                bootstrapOnly: string -> bool, w: StatefulSetWorld)
    ensures w.get == Err(NotFound) && w.listPods.Ok? && w.create == Err(AlreadyExists) ==>
              var r := StatefulSetRun(cached, parameters, bootstrapOnly, w);
              r.err.Fail? && Tolerated(r.err.error)
    ensures w.get.Err? && w.get.reason.Other? ==>
              !Tolerated(StatefulSetRun(cached, parameters, bootstrapOnly, w).err.error)
  {
    if w.get.Err? && w.get.reason.Other? {
      assert StatefulSetRun(cached, parameters, bootstrapOnly, w).err.error == Wrapped(Api(w.get.reason));
      assert RootCause(Wrapped(Api(w.get.reason))) == Api(w.get.reason);
    }
  }
}
