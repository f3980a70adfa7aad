/** The cluster objects the reconciler reads and writes, and the log of the
    calls it makes into the backend. Objects are reduced to the parts the
    reconciliation logic looks at; the fields the operator manages are an
    abstract `Fields` value compared by equality. */
module Objects {
  import opened Results

  datatype Role = Master | Replica

  /** The operator-managed part of an object's specification. */
  type Fields = map<string, string>

  datatype Service = Service(name: string, spec: Fields)
  datatype Endpoint = Endpoint(name: string)
  datatype Pdb = Pdb(name: string, spec: Fields)
  datatype Pod = Pod(name: string)

  /** A statefulset; `rollingUpdate` is the persisted rolling-update marker
      (an annotation on the object). */
  datatype StatefulSet = StatefulSet(name: string, spec: Fields, rollingUpdate: bool)

  /** A deferred change to a service, applied by applyActions. */
  datatype Action = Action(name: string)

  /** A credential secret; `username` and `password` are its data entries. */
  datatype Secret = Secret(uid: string, name: string, username: string, password: string)

  datatype ClusterStatus =
    | StatusUnknown | Creating | Updating | UpdateFailed | SyncFailed | AddFailed | Running | Invalid

  /** One call into the backend (Kubernetes, Patroni, the database),
      recorded whether or not it succeeded. */
  datatype Call =
    | CreateSecret(user: string)
    | GetSecret(user: string)
    | UpdateSecret(user: string)
    | GetEndpoint(role: Role)
    | CreateEndpoint(role: Role)
    | GetService(role: Role)
    | ProcessAction(action: Action)
    | CompareVolumes
    | ResizeVolumes
    | GetStatefulSet
    | ListPods
    | CreateStatefulSet
    | WaitPodsReady
    | UpdateStatefulSet(sset: StatefulSet)
    | ReplaceStatefulSet(sset: StatefulSet)
    | SetRollingUpdateFlag(flag: bool)
    | SetParameters(pod: Pod, options: map<string, string>)
    | RecreatePods
    | OpenDbConn(stage: Stage)
    | CloseDbConn(stage: Stage)
    | ReadRoles
    | ExecuteRoleRequests
    | ReadDatabases
    | CreateDatabase(datname: string, owner: string)
    | AlterDatabaseOwner(datname: string, owner: string)
    | GetPdb
    | CreatePdb
    | UpdatePdb(pdb: Pdb)
    | SetStatus(status: ClusterStatus)

  /** The Sync stage a call belongs to. */
  function StageOf(c: Call): Stage
  {
    match c
    case CreateSecret(_) => SecretsStage
    case GetSecret(_) => SecretsStage
    case UpdateSecret(_) => SecretsStage
    case GetEndpoint(_) => ServicesStage
    case CreateEndpoint(_) => ServicesStage
    case GetService(_) => ServicesStage
    case ProcessAction(_) => ActionsStage
    case CompareVolumes => VolumesStage
    case ResizeVolumes => VolumesStage
    case OpenDbConn(s) => s
    case CloseDbConn(s) => s
    case ReadRoles => RolesStage
    case ExecuteRoleRequests => RolesStage
    case ReadDatabases => DatabasesStage
    case CreateDatabase(_, _) => DatabasesStage
    case AlterDatabaseOwner(_, _) => DatabasesStage
    case GetPdb => PdbStage
    case CreatePdb => PdbStage
    case UpdatePdb(_) => PdbStage
    case SetStatus(_) => StatusStage
    case _ => StatefulSetStage
  }

  /** Every call in `cs` belongs to stage `s`. */
  ghost predicate AllAt(cs: seq<Call>, s: Stage)
  {
    forall i :: 0 <= i < |cs| ==> StageOf(cs[i]) == s
  }

  /** No call in `cs` belongs to a stage after `s`. */
  ghost predicate UpTo(cs: seq<Call>, s: Stage)
  {
    forall i :: 0 <= i < |cs| ==> Rank(StageOf(cs[i])) <= Rank(s)
  }

  /** The calls of `cs` come stage by stage, in Sync's stage order. */
  ghost predicate StageOrdered(cs: seq<Call>)
  {
    forall i, j :: 0 <= i < j < |cs| ==> Rank(StageOf(cs[i])) <= Rank(StageOf(cs[j]))
  }

  /** Two runs of calls of the same stage make one. */
  lemma AllAtConcat(a: seq<Call>, b: seq<Call>, s: Stage)
    requires AllAt(a, s) && AllAt(b, s)
    ensures AllAt(a + b, s)
  {
    forall i | 0 <= i < |a + b| ensures StageOf((a + b)[i]) == s {
      if i >= |a| {
        assert (a + b)[i] == b[i - |a|];
      }
    }
  }

  /** StageOrdered and UpTo together, stated call by call from the end of
      the log: the last call belongs to a stage up to `s`, and the calls
      before it to stages up to that one. */
  ghost predicate OrderedUpTo(cs: seq<Call>, s: Stage)
    decreases |cs|
  {
    cs == [] || (Rank(StageOf(cs[|cs| - 1])) <= Rank(s) && OrderedUpTo(cs[..|cs| - 1], StageOf(cs[|cs| - 1])))
  }

  /** A log ordered up to `s` is in stage order and has no call after `s`. */
  lemma {:induction false} OrderedUpToSound(cs: seq<Call>, s: Stage)
    requires OrderedUpTo(cs, s)
    ensures StageOrdered(cs) && UpTo(cs, s)
    decreases |cs|
  {
    if cs != [] {
      var n := |cs|;
      var prefix, last := cs[..n - 1], cs[n - 1];
      OrderedUpToSound(prefix, StageOf(last));
      forall i, j | 0 <= i < j < n ensures Rank(StageOf(cs[i])) <= Rank(StageOf(cs[j])) {
        assert cs[i] == prefix[i];
        if j < n - 1 {
          assert cs[j] == prefix[j];
        }
      }
      forall i | 0 <= i < n ensures Rank(StageOf(cs[i])) <= Rank(s) {
        if i < n - 1 {
          assert cs[i] == prefix[i];
        }
      }
    }
  }

  /** A log in stage order with no call after `s` is ordered up to `s`. */
  lemma {:induction false} OrderedUpToComplete(cs: seq<Call>, s: Stage)
    requires StageOrdered(cs) && UpTo(cs, s)
    ensures OrderedUpTo(cs, s)
    decreases |cs|
  {
    if cs != [] {
      var n := |cs|;
      var prefix, last := cs[..n - 1], cs[n - 1];
      forall i, j | 0 <= i < j < n - 1 ensures Rank(StageOf(prefix[i])) <= Rank(StageOf(prefix[j])) {
        assert prefix[i] == cs[i] && prefix[j] == cs[j];
      }
      forall i | 0 <= i < n - 1 ensures Rank(StageOf(prefix[i])) <= Rank(StageOf(last)) {
        assert prefix[i] == cs[i];
      }
      OrderedUpToComplete(prefix, StageOf(last));
    }
  }

  /** OrderedUpTo is StageOrdered and UpTo. */
  lemma OrderedUpToMeans(cs: seq<Call>, s: Stage)
    ensures OrderedUpTo(cs, s) <==> StageOrdered(cs) && UpTo(cs, s)
  {
    if OrderedUpTo(cs, s) {
      OrderedUpToSound(cs, s);
    }
    if StageOrdered(cs) && UpTo(cs, s) {
      OrderedUpToComplete(cs, s);
    }
  }

  /** A log up to stage `s` is a log up to any later stage. */
  lemma OrderedUpToLater(cs: seq<Call>, s: Stage, t: Stage)
    requires OrderedUpTo(cs, s) && Rank(s) <= Rank(t)
    ensures OrderedUpTo(cs, t)
  {
  }

  /** Appending the calls of a stage `s` to a log up to `s` keeps it in stage
      order. */
  lemma {:induction false} AppendStage(before: seq<Call>, stage: seq<Call>, s: Stage)
    requires OrderedUpTo(before, s) && AllAt(stage, s)
    ensures OrderedUpTo(before + stage, s)
    decreases |stage|
  {
    if stage != [] {
      var rest := stage[..|stage| - 1];
      assert AllAt(rest, s) by {
        forall i | 0 <= i < |rest| ensures StageOf(rest[i]) == s {
          assert rest[i] == stage[i];
        }
      }
      AppendStage(before, rest, s);
      var all := before + stage;
      assert all[..|all| - 1] == before + rest;
      assert StageOf(all[|all| - 1]) == s by {
        assert all[|all| - 1] == stage[|stage| - 1];
      }
      assert OrderedUpTo(all[..|all| - 1], StageOf(all[|all| - 1]));
    } else {
      assert before + stage == before;
    }
  }

  /** Appending the calls of a stage `t` to a log up to an earlier stage
      `s` gives a log up to `t`. */
  lemma AppendLater(before: seq<Call>, stage: seq<Call>, s: Stage, t: Stage)
    requires OrderedUpTo(before, s) && Rank(s) <= Rank(t) && AllAt(stage, t)
    ensures OrderedUpTo(before + stage, t)
  {
    OrderedUpToLater(before, s, t);
    AppendStage(before, stage, t);
  }

  /** No call in `cs` belongs to stage `s`. */
  ghost predicate NoneAt(cs: seq<Call>, s: Stage)
  {
    forall i :: 0 <= i < |cs| ==> StageOf(cs[i]) != s
  }

  /** A log up to stage `s` has no call of a later stage `u`. */
  lemma NoneAfter(cs: seq<Call>, s: Stage, u: Stage)
    requires OrderedUpTo(cs, s) && Rank(s) < Rank(u)
    ensures NoneAt(cs, u)
  {
    OrderedUpToMeans(cs, s);
  }

  /** A log up to stage `s` followed by calls of stage `t` contains no call
      of a stage `u` that comes after `s` and is not `t`: the stages between
      were skipped. */
  lemma SkippedStage(before: seq<Call>, after: seq<Call>, s: Stage, t: Stage, u: Stage)
    requires OrderedUpTo(before, s) && AllAt(after, t) && Rank(s) < Rank(u) && t != u
    ensures NoneAt(before + after, u)
  {
    OrderedUpToMeans(before, s);
    var all := before + after;
    forall i | 0 <= i < |all| ensures StageOf(all[i]) != u {
      if i < |before| {
        assert all[i] == before[i];
      } else {
        assert all[i] == after[i - |before|];
      }
    }
  }

  /** Calls of another stage appended to a log keep it free of stage `u`. */
  lemma NoneAtAppend(before: seq<Call>, after: seq<Call>, t: Stage, u: Stage)
    requires NoneAt(before, u) && AllAt(after, t) && t != u
    ensures NoneAt(before + after, u)
  {
    var all := before + after;
    forall i | 0 <= i < |all| ensures StageOf(all[i]) != u {
      if i < |before| {
        assert all[i] == before[i];
      } else {
        assert all[i] == after[i - |before|];
      }
    }
  }

  lemma ConcatAssoc(a: seq<Call>, b: seq<Call>, c: seq<Call>)
    ensures (a + b) + c == a + (b + c)
  {
  }

  /** No name occurs twice. */
  ghost predicate Distinct(order: seq<string>)
  {
    forall i, j :: 0 <= i < j < |order| ==> order[i] != order[j]
  }
}
