/** applyActions: the deferred service changes collected by syncServices are
    applied one by one, unless the operator runs in dry-run mode. */
module Actions {
  import opened Results
  import opened Objects

  /** The Process() call of every action, in order. */
  function ProcessCalls(actions: seq<Action>): (cs: seq<Call>)
    ensures |cs| == |actions|
    ensures forall i :: 0 <= i < |actions| ==> cs[i] == ProcessAction(actions[i])
  {
    seq(|actions|, i requires 0 <= i < |actions| => ProcessAction(actions[i]))
  }

  /** The actions whose Process() fails, in order; these are only logged. */
  function Failures(actions: seq<Action>, process: Action -> Outcome): (fs: seq<Action>)
  {
    if actions == [] then []
    else
      var last := actions[|actions| - 1];
      Failures(actions[..|actions| - 1], process) + (if process(last).Fail? then [last] else [])
  }

  /** An action is reported as failed exactly when its Process() fails, and
      no more failures are reported than there are actions. */
  lemma {:induction false} FailuresAreTheFailingActions(actions: seq<Action>, process: Action -> Outcome)
    ensures forall a :: a in Failures(actions, process) <==> a in actions && process(a).Fail?
    ensures |Failures(actions, process)| <= |actions|
  {
    if actions != [] {
      var init := actions[..|actions| - 1];
      FailuresAreTheFailingActions(init, process);
      assert actions == init + [actions[|actions| - 1]];
    }
  }

  /** Applies `actions`. `process` is the outcome of each action's Process().
      In dry-run mode nothing is processed; otherwise every action is
      processed in order, a failure is logged (collected in `failed`) and the
      next action is processed all the same. The result is always nil. */
  method ApplyActions(actions: seq<Action>, dryRun: bool, process: Action -> Outcome)
    returns (err: Outcome, calls: seq<Call>, failed: seq<Action>)
    ensures err == Pass
    ensures dryRun ==> calls == [] && failed == []
    ensures !dryRun ==> calls == ProcessCalls(actions) && failed == Failures(actions, process)
    ensures AllAt(calls, ActionsStage)
  {
    calls, failed := [], [];
    if dryRun {
      return Pass, calls, failed;
    }
    var i := 0;
    while i < |actions|
      invariant 0 <= i <= |actions|
      invariant |calls| == i
      invariant forall j :: 0 <= j < i ==> calls[j] == ProcessAction(actions[j])
      invariant failed == Failures(actions[..i], process)
    {
      var action := actions[i];
      calls := calls + [ProcessAction(action)];
      if process(action).Fail? {
        failed := failed + [action];
      }
      assert actions[..i + 1][..i] == actions[..i];
      i := i + 1;
    }
    assert actions[..i] == actions;
    assert calls == ProcessCalls(actions);
    err := Pass;
  }
}
