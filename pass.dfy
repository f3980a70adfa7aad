/** One pass of Cluster.Sync as a function of the backend's answers: each
    stage is the function its own module gives, run on the part of the
    cluster it owns, and the pass stops at the first stage that fails. The
    methods of ClusterSync.Cluster are proved to compute exactly this, and
    the lemmas here state what the pass promises: which stage's error ends
    it, which fields each stage leaves, and in what order the calls come. */
module SyncPass {
  import opened Results
  import opened Objects
  import opened Actions
  import opened StatefulSetSync
  import opened Secrets
  import opened Databases
  import opened Volumes
  import opened ObjectSync

  /** The part of the manifest a pass reads: the PostgreSQL parameters and
      the declared databases with their owners. */
  datatype ClusterSpec = ClusterSpec(parameters: map<string, string>, databases: map<string, string>)

  /** What the backend and the uninterpreted helpers answer during one pass.
      `users` is initUsers (the system users and the manifest users, or an
      error); `secretUsers` is the set of usernames generateUserSecrets
      returns a secret for; `instances` is getNumberOfInstances of the new
      manifest. */
  datatype World = World(
    users: Result<(UserMap, UserMap)>,
    secretUsers: set<string>,
    secrets: SecretsWorld,
    services: ServicesWorld,
    process: Action -> Outcome,
    volumes: VolumesWorld,
    statefulset: StatefulSetWorld,
    instances: int,
    roles: RolesWorld,
    databases: DatabasesWorld,
    pdb: PdbWorld)

  /** Which statefulset errors let the pass go on: the ResourceAlreadyExists
      check as Sync writes it, or the check on the error's root cause, which
      lets a create that raced another writer through. */
  datatype Tolerance = AsWritten | Corrected

  predicate Tolerates(t: Tolerance, e: Error)
  {
    match t
    case AsWritten => ToleratedAsWritten(e)
    case Corrected => Tolerated(e)
  }

  /** What a pass reads besides the backend: the new manifest, the
      operator's configuration and the statefulset error check. */
  datatype Settings = Settings(
    spec: ClusterSpec,
    dryRunMode: bool,
    databaseAccessDisabled: bool,
    bootstrapOnly: string -> bool,
    tolerance: Tolerance)

  /** The fields of the cluster the stages write: the users and the secrets
      (secrets stage), the endpoints and the services (services stage), the
      cached statefulset and the cached pod disruption budget. */
  datatype Snapshot = Snapshot(
    users: SecretsState,
    net: ServicesState,
    statefulset: Option<StatefulSet>,
    pdb: Option<Pdb>)

  /** The orders Go's map iteration took in the secrets loop and in the two
      loops of syncDatabases. */
  datatype Orders = Orders(secrets: seq<string>, creates: seq<string>, alters: seq<string>)

  datatype PassResult = PassResult(err: Outcome, calls: seq<Call>, next: Snapshot)

  /** Whether the pass reaches the two database stages. */
  predicate DatabaseStagesRun(databaseAccessDisabled: bool, instances: int)
  {
    !(databaseAccessDisabled || instances <= 0)
  }

  /** `err` is the error of the stage `stage`. */
  predicate FailedAt(err: Outcome, stage: Stage)
  {
    err.Fail? && err.error.AtStage? && err.error.stage == stage
  }


  // ---- The stages, each on the state it owns ----

  /** The secrets-stage state after initUsers replaced the two user maps. */
  function Loaded(st: Snapshot, w: World): SecretsState
    requires w.users.Success?
  {
    SecretsState(w.users.value.0, w.users.value.1, st.users.secrets)
  }

  /** The calls of applyActions: none in dry-run mode. */
  function ActionCalls(s: Settings, actions: seq<Action>): seq<Call>
  {
    if s.dryRunMode then [] else ProcessCalls(actions)
  }

  /** What the stage functions before syncStatefulSet return. */
  datatype EarlyResults = EarlyResults(sec: Step, svc: ServicesStep, vol: (Outcome, seq<Call>))

  /** What the stage functions from syncStatefulSet on return. */
  datatype LateResults = LateResults(ss: Run, roles: (Outcome, seq<Call>), dbs: (Outcome, seq<Call>), pdb: PdbStep)

  /** The secrets loop in the order `secrets` after initUsers (nothing when
      initUsers failed, since the loop is then never reached), syncServices
      over the master and the replica role, and syncVolumes. */
  function EarlyOf(st: Snapshot, w: World, secrets: seq<string>): EarlyResults
  {
    EarlyResults(
      if w.users.Success? then RunSecrets(secrets, Loaded(st, w), w.secrets) else Step(st.users, [], Pass),
      ServicesRun(ServiceRoles, st.net, w.services, []),
      SyncVolumes(w.volumes))
  }

  /** syncStatefulSet from the statefulset `cached` by the previous pass,
      syncRoles, syncDatabases with its loops in the orders given, and
      syncPodDisruptionBudget. */
  function LateOf(s: Settings, cached: Option<StatefulSet>, w: World, creates: seq<string>, alters: seq<string>): LateResults
    requires PlanFits(s.spec.databases, w.databases, creates, alters)
  {
    LateResults(
      StatefulSetRun(cached, s.spec.parameters, s.bootstrapOnly, w.statefulset),
      SyncRoles(w.roles),
      DatabasesRun(s.spec.databases, w.databases, creates, alters),
      PdbRun(w.pdb))
  }

  // ---- The pass, from what the stage functions return ----

  /** syncRoles and then syncDatabases, each error marked with its stage. */
  function DatabaseChain(roles: (Outcome, seq<Call>), dbs: (Outcome, seq<Call>)): (Outcome, seq<Call>)
  {
    if roles.0.Fail? then (Fail(AtStage(RolesStage, roles.0.error)), roles.1)
    else (if dbs.0.Fail? then Fail(AtStage(DatabasesStage, dbs.0.error)) else Pass, roles.1 + dbs.1)
  }

  /** The database stages, run only when DatabaseStagesRun holds, and then
      the budget stage, from the fields `st`. */
  function LateTail(s: Settings, st: Snapshot, w: World, late: LateResults): PassResult
  {
    var db := if DatabaseStagesRun(s.databaseAccessDisabled, w.instances) then DatabaseChain(late.roles, late.dbs)
              else (Pass, []);
    if db.0.Fail? then PassResult(db.0, db.1, st)
    else
      PassResult(if late.pdb.err.Fail? then Fail(AtStage(PdbStage, late.pdb.err.error)) else Pass,
                 db.1 + late.pdb.calls, st.(pdb := ApplyWrite(st.pdb, late.pdb.write)))
  }

  /** The stages from syncStatefulSet on: a statefulset error ends the pass
      unless the tolerance lets it through. */
  function LateChain(s: Settings, st: Snapshot, w: World, late: LateResults): PassResult
  {
    var st1 := st.(statefulset := late.ss.cache);
    if late.ss.err.Fail? && !Tolerates(s.tolerance, late.ss.err.error) then
      PassResult(Fail(AtStage(StatefulSetStage, late.ss.err.error)), late.ss.calls, st1)
    else
      var t := LateTail(s, st1, w, late);
      PassResult(t.err, late.ss.calls + t.calls, t.next)
  }

  /** The whole pass from initUsers to syncPodDisruptionBudget. applyActions
      returns nil on every path, so the check of its error never ends the
      pass. */
  function Chain(s: Settings, st: Snapshot, w: World, early: EarlyResults, late: LateResults): PassResult
  {
    if w.users.Failure? then PassResult(Fail(AtStage(UsersStage, w.users.error)), [], st)
    else
      var st1 := st.(users := early.sec.next);
      if early.sec.err.Fail? then PassResult(Fail(AtStage(SecretsStage, early.sec.err.error)), early.sec.calls, st1)
      else
        var st2 := st1.(net := early.svc.next);
        if early.svc.err.Fail? then
          PassResult(Fail(AtStage(ServicesStage, early.svc.err.error)), early.sec.calls + early.svc.calls, st2)
        else
          var calls := early.sec.calls + early.svc.calls + ActionCalls(s, early.svc.actions) + early.vol.1;
          if early.vol.0.Fail? then PassResult(Fail(AtStage(VolumesStage, early.vol.0.error)), calls, st2)
          else
            var r := LateChain(s, st2, w, late);
            PassResult(r.err, calls + r.calls, r.next)
  }

  /** The pass from syncServices on, from the fields `st` the secrets
      stage left. */
  function FromServices(s: Settings, st: Snapshot, w: World, svc: ServicesStep, vol: (Outcome, seq<Call>),
                        late: LateResults): PassResult
  {
    var st2 := st.(net := svc.next);
    if svc.err.Fail? then PassResult(Fail(AtStage(ServicesStage, svc.err.error)), svc.calls, st2)
    else
      var t := FromActions(s, st2, w, svc.actions, vol, late);
      PassResult(t.err, svc.calls + t.calls, t.next)
  }

  /** The pass from applyActions on, from the fields `st` the services
      stage left and the actions it prepared. */
  function FromActions(s: Settings, st: Snapshot, w: World, actions: seq<Action>, vol: (Outcome, seq<Call>),
                       late: LateResults): PassResult
  {
    var calls := ActionCalls(s, actions) + vol.1;
    if vol.0.Fail? then PassResult(Fail(AtStage(VolumesStage, vol.0.error)), calls, st)
    else
      var r := LateChain(s, st, w, late);
      PassResult(r.err, calls + r.calls, r.next)
  }

  /** Once initUsers and the secrets stage succeeded, the pass goes on as
      FromServices, after the calls of the secrets stage. */
  lemma ChainFromServices(s: Settings, st: Snapshot, w: World, early: EarlyResults, late: LateResults)
    requires w.users.Success? && early.sec.err.Pass?
    ensures var t := FromServices(s, st.(users := early.sec.next), w, early.svc, early.vol, late);
            Chain(s, st, w, early, late) == PassResult(t.err, early.sec.calls + t.calls, t.next)
  {
    var sec, svc, vol := early.sec.calls, early.svc.calls, early.vol.1;
    var acts := ActionCalls(s, early.svc.actions);
    var lateCalls := LateChain(s, st.(users := early.sec.next).(net := early.svc.next), w, late).calls;
    ConcatAssoc(sec, svc, acts);
    ConcatAssoc(sec + svc, acts, vol);
    ConcatAssoc(sec + svc, acts + vol, lateCalls);
    ConcatAssoc(sec, svc, acts + vol + lateCalls);
    ConcatAssoc(sec, svc, acts + vol);
  }

  /** One pass of Sync from the fields `st`, with the loops over Go maps
      taken in the orders `o`. */
  function SyncRun(s: Settings, st: Snapshot, w: World, o: Orders): PassResult
    requires PlanFits(s.spec.databases, w.databases, o.creates, o.alters)
  {
    Chain(s, st, w, EarlyOf(st, w, o.secrets), LateOf(s, st.statefulset, w, o.creates, o.alters))
  }

  /** The orders a pass can take: the secrets loop visits distinct
      generated users, all of them once the stage succeeded; the database
      loops take orders of their plan, complete once the databases stage
      succeeded. */
  ghost predicate OrdersFit(s: Settings, st: Snapshot, w: World, o: Orders)
  {
    && Distinct(o.secrets) && (forall u :: u in o.secrets ==> u in w.secretUsers)
    && (w.users.Success? && EarlyOf(st, w, o.secrets).sec.err.Pass? ==> forall u :: u in w.secretUsers ==> u in o.secrets)
    && PlanFits(s.spec.databases, w.databases, o.creates, o.alters)
    && LateOrdersFit(s, w, o.creates, o.alters, SyncRun(s, st, w, o).err)
  }

  /** The orders of the database loops in a pass that ended with `err`:
      orders of their plan, complete once the databases stage succeeded,
      which it did when the pass got past it. */
  ghost predicate LateOrdersFit(s: Settings, w: World, creates: seq<string>, alters: seq<string>, err: Outcome)
  {
    && PlanOrders(s.spec.databases, w.databases, creates, alters)
    && (DatabaseStagesRun(s.databaseAccessDisabled, w.instances) && (err.Pass? || FailedAt(err, PdbStage)) ==>
          PlanComplete(s.spec.databases, w.databases, creates, alters))
  }

  // ---- Which stage ends the pass ----

  /** The outcome of one stage's own function, as Sync judges it: a
      tolerated statefulset error counts as a success, applyActions always
      succeeds, and a database stage that Sync skips succeeds without
      running. The status write is not a stage that fails. */
  function StageErr(s: Settings, w: World, early: EarlyResults, late: LateResults, stage: Stage): Outcome
  {
    match stage
    case UsersStage => if w.users.Failure? then Fail(w.users.error) else Pass
    case SecretsStage => if w.users.Failure? then Pass else early.sec.err
    case ServicesStage => early.svc.err
    case ActionsStage => Pass
    case VolumesStage => early.vol.0
    case StatefulSetStage => if late.ss.err.Fail? && Tolerates(s.tolerance, late.ss.err.error) then Pass else late.ss.err
    case RolesStage => if DatabaseStagesRun(s.databaseAccessDisabled, w.instances) then late.roles.0 else Pass
    case DatabasesStage => if DatabaseStagesRun(s.databaseAccessDisabled, w.instances) then late.dbs.0 else Pass
    case PdbStage => late.pdb.err
    case StatusStage => Pass
  }

  /** Every stage before `stage` succeeded. */
  ghost predicate PassedBefore(s: Settings, w: World, early: EarlyResults, late: LateResults, stage: Stage)
  {
    forall t :: Rank(t) < Rank(stage) ==> StageErr(s, w, early, late, t).Pass?
  }

  /** No stage comes before initUsers. */
  lemma PassedBeforeUsers(s: Settings, w: World, early: EarlyResults, late: LateResults)
    ensures PassedBefore(s, w, early, late, UsersStage)
  {
  }

  /** Every stage before `stage` succeeded exactly when every stage before
      the previous one did and the previous one did. */
  lemma PassedBeforeStep(s: Settings, w: World, early: EarlyResults, late: LateResults, previous: Stage, stage: Stage)
    requires Rank(previous) + 1 == Rank(stage)
    ensures PassedBefore(s, w, early, late, stage) <==>
              PassedBefore(s, w, early, late, previous) && StageErr(s, w, early, late, previous).Pass?
  {
  }

  /** PassedBefore of every stage, one step at a time. */
  lemma PassedBeforeChain(s: Settings, w: World, early: EarlyResults, late: LateResults)
    ensures PassedBefore(s, w, early, late, UsersStage)
    ensures PassedBefore(s, w, early, late, SecretsStage) <==> StageErr(s, w, early, late, UsersStage).Pass?
    ensures PassedBefore(s, w, early, late, ServicesStage) <==>
              PassedBefore(s, w, early, late, SecretsStage) && StageErr(s, w, early, late, SecretsStage).Pass?
    ensures PassedBefore(s, w, early, late, ActionsStage) <==>
              PassedBefore(s, w, early, late, ServicesStage) && StageErr(s, w, early, late, ServicesStage).Pass?
    ensures PassedBefore(s, w, early, late, VolumesStage) <==> PassedBefore(s, w, early, late, ActionsStage)
    ensures PassedBefore(s, w, early, late, StatefulSetStage) <==>
              PassedBefore(s, w, early, late, VolumesStage) && StageErr(s, w, early, late, VolumesStage).Pass?
    ensures PassedBefore(s, w, early, late, RolesStage) <==>
              PassedBefore(s, w, early, late, StatefulSetStage) && StageErr(s, w, early, late, StatefulSetStage).Pass?
    ensures PassedBefore(s, w, early, late, DatabasesStage) <==>
              PassedBefore(s, w, early, late, RolesStage) && StageErr(s, w, early, late, RolesStage).Pass?
    ensures PassedBefore(s, w, early, late, PdbStage) <==>
              PassedBefore(s, w, early, late, DatabasesStage) && StageErr(s, w, early, late, DatabasesStage).Pass?
    ensures PassedBefore(s, w, early, late, StatusStage) <==>
              PassedBefore(s, w, early, late, PdbStage) && StageErr(s, w, early, late, PdbStage).Pass?
  {
    PassedBeforeUsers(s, w, early, late);
    PassedBeforeStep(s, w, early, late, UsersStage, SecretsStage);
    PassedBeforeStep(s, w, early, late, SecretsStage, ServicesStage);
    PassedBeforeStep(s, w, early, late, ServicesStage, ActionsStage);
    PassedBeforeStep(s, w, early, late, ActionsStage, VolumesStage);
    PassedBeforeStep(s, w, early, late, VolumesStage, StatefulSetStage);
    PassedBeforeStep(s, w, early, late, StatefulSetStage, RolesStage);
    PassedBeforeStep(s, w, early, late, RolesStage, DatabasesStage);
    PassedBeforeStep(s, w, early, late, DatabasesStage, PdbStage);
    PassedBeforeStep(s, w, early, late, PdbStage, StatusStage);
  }

  /** The error of the pass is the error of a stage that every earlier
      stage passed, and a pass that succeeds passed every stage. */
  lemma ChainErrorSound(s: Settings, st: Snapshot, w: World, early: EarlyResults, late: LateResults)
    ensures var r := Chain(s, st, w, early, late);
            && (r.err.Fail? ==> r.err.error.AtStage? &&
                                PassedBefore(s, w, early, late, r.err.error.stage) &&
                                StageErr(s, w, early, late, r.err.error.stage) == Fail(r.err.error.cause))
            && (r.err.Pass? ==> PassedBefore(s, w, early, late, StatusStage))
  {
    PassedBeforeChain(s, w, early, late);
  }

  /** A stage that fails after every earlier stage passed is the one whose
      error the pass returns, and a pass through every stage succeeds. */
  lemma ChainErrorComplete(s: Settings, st: Snapshot, w: World, early: EarlyResults, late: LateResults, stage: Stage)
    ensures var r := Chain(s, st, w, early, late);
            && (PassedBefore(s, w, early, late, stage) && StageErr(s, w, early, late, stage).Fail? ==>
                  r.err == Fail(AtStage(stage, StageErr(s, w, early, late, stage).error)))
            && (PassedBefore(s, w, early, late, StatusStage) ==> r.err.Pass?)
  {
    PassedBeforeChain(s, w, early, late);
  }

  /** The pass fails at a stage exactly when every earlier stage succeeded
      and that stage's own function failed, with that function's error; it
      succeeds exactly when every stage does; and every error it returns is
      marked with the stage that raised it. */
  lemma ChainFailFast(s: Settings, st: Snapshot, w: World, early: EarlyResults, late: LateResults)
    ensures var r := Chain(s, st, w, early, late);
            && (r.err.Fail? ==> r.err.error.AtStage?)
            && (forall stage, e :: r.err == Fail(AtStage(stage, e)) <==>
                  PassedBefore(s, w, early, late, stage) && StageErr(s, w, early, late, stage) == Fail(e))
            && (r.err.Pass? <==> PassedBefore(s, w, early, late, StatusStage))
  {
    ChainErrorSound(s, st, w, early, late);
    forall stage | PassedBefore(s, w, early, late, stage) && StageErr(s, w, early, late, stage).Fail?
      ensures Chain(s, st, w, early, late).err == Fail(AtStage(stage, StageErr(s, w, early, late, stage).error))
    {
      ChainErrorComplete(s, st, w, early, late, stage);
    }
    ChainErrorComplete(s, st, w, early, late, StatusStage);
  }

  /** Each field is written by its own stage only, and only once the pass
      reaches that stage: the users and the secrets by initUsers and the
      secrets stage, the endpoints and the services by the services stage,
      the cached statefulset by the statefulset stage and the cached budget
      by the budget stage. */
  lemma ChainFields(s: Settings, st: Snapshot, w: World, early: EarlyResults, late: LateResults)
    ensures var r := Chain(s, st, w, early, late);
            && r.next.users == (if w.users.Failure? then st.users else early.sec.next)
            && r.next.net == (if PassedBefore(s, w, early, late, ServicesStage) then early.svc.next else st.net)
            && r.next.statefulset == (if PassedBefore(s, w, early, late, StatefulSetStage) then late.ss.cache else st.statefulset)
            && r.next.pdb == (if PassedBefore(s, w, early, late, PdbStage) then ApplyWrite(st.pdb, late.pdb.write) else st.pdb)
  {
    PassedBeforeChain(s, w, early, late);
  }

  // ---- The order of the calls ----

  /** Each stage function's calls belong to its stage; the database stages
      open their connection first and the budget stage starts with the Get. */
  ghost predicate CallsAtStages(early: EarlyResults, late: LateResults)
  {
    EarlyCallsAtStages(early) && LateCallsAtStages(late)
  }

  /** CallsAtStages for the stages before syncStatefulSet. */
  ghost predicate EarlyCallsAtStages(early: EarlyResults)
  {
    AllAt(early.sec.calls, SecretsStage) && AllAt(early.svc.calls, ServicesStage) && AllAt(early.vol.1, VolumesStage)
  }

  /** CallsAtStages for syncStatefulSet and the stages after it. */
  ghost predicate LateCallsAtStages(late: LateResults)
  {
    && AllAt(late.ss.calls, StatefulSetStage)
    && AllAt(late.roles.1, RolesStage) && |late.roles.1| >= 1 && late.roles.1[0] == OpenDbConn(RolesStage)
    && AllAt(late.dbs.1, DatabasesStage) && |late.dbs.1| >= 1 && late.dbs.1[0] == OpenDbConn(DatabasesStage)
    && AllAt(late.pdb.calls, PdbStage) && |late.pdb.calls| >= 1 && late.pdb.calls[0] == GetPdb
  }

  /** The stage functions of a pass make only calls of their own stage. */
  lemma StagesCallsAtStages(s: Settings, st: Snapshot, w: World, o: Orders)
    requires PlanFits(s.spec.databases, w.databases, o.creates, o.alters)
    ensures CallsAtStages(EarlyOf(st, w, o.secrets), LateOf(s, st.statefulset, w, o.creates, o.alters))
  {
    if w.users.Success? {
      RunSecretsContract(o.secrets, Loaded(st, w), w.secrets);
    }
    ServicesRunStage(ServiceRoles, st.net, w.services, []);
    SyncVolumesContract(w.volumes);
    StatefulSetRunStage(st.statefulset, s.spec.parameters, s.bootstrapOnly, w.statefulset);
    SyncRolesContract(w.roles);
    DatabasesRunStage(s.spec.databases, w.databases, o.creates, o.alters);
    PdbRunContract(w.pdb);
  }

  /** The calls of applyActions are actions-stage calls. */
  lemma ActionCallsStage(s: Settings, actions: seq<Action>)
    ensures AllAt(ActionCalls(s, actions), ActionsStage)
  {
    var cs := ActionCalls(s, actions);
    forall i | 0 <= i < |cs| ensures StageOf(cs[i]) == ActionsStage {
      assert cs[i] == ProcessAction(actions[i]);
    }
  }

  /** The stages from the secrets to the volumes keep the log in stage
      order. */
  lemma EarlyChainOrdered(s: Settings, early: EarlyResults)
    requires EarlyCallsAtStages(early)
    ensures OrderedUpTo(early.sec.calls, SecretsStage)
    ensures OrderedUpTo(early.sec.calls + early.svc.calls, ServicesStage)
    ensures OrderedUpTo(early.sec.calls + early.svc.calls + ActionCalls(s, early.svc.actions) + early.vol.1, VolumesStage)
  {
    var sec, svc, vol := early.sec.calls, early.svc.calls, early.vol.1;
    var acts := ActionCalls(s, early.svc.actions);
    AppendStage([], sec, SecretsStage);
    assert [] + sec == sec;
    AppendLater(sec, svc, SecretsStage, ServicesStage);
    ActionCallsStage(s, early.svc.actions);
    AppendLater(sec + svc, acts, ServicesStage, ActionsStage);
    AppendLater(sec + svc + acts, vol, ActionsStage, VolumesStage);
  }

  /** syncRoles and then syncDatabases after a log that ends with the
      statefulset stage: the log stays in stage order, an error is marked
      with the stage that raised it and ends the log, the roles connection
      is opened, and the databases connection too when the roles stage
      succeeds. */
  lemma DatabaseChainOrdered(late: LateResults, log: seq<Call>)
    requires LateCallsAtStages(late)
    requires OrderedUpTo(log, StatefulSetStage)
    ensures var r := DatabaseChain(late.roles, late.dbs);
            && OrderedUpTo(log + r.1, DatabasesStage)
            && (r.0.Fail? ==> r.0.error.AtStage? && (r.0.error.stage == RolesStage || r.0.error.stage == DatabasesStage) &&
                              OrderedUpTo(log + r.1, r.0.error.stage))
            && OpenDbConn(RolesStage) in r.1
            && (r.0.Pass? ==> OpenDbConn(DatabasesStage) in r.1)
  {
    var (rolesErr, rolesCalls) := late.roles;
    OrderedUpToLater(log, StatefulSetStage, RolesStage);
    AppendStage(log, rolesCalls, RolesStage);
    assert OpenDbConn(RolesStage) in rolesCalls by {
      assert rolesCalls[0] == OpenDbConn(RolesStage);
    }
    if rolesErr.Fail? {
      OrderedUpToLater(log + rolesCalls, RolesStage, DatabasesStage);
      return;
    }
    var (dbErr, dbCalls) := late.dbs;
    OrderedUpToLater(log + rolesCalls, RolesStage, DatabasesStage);
    AppendStage(log + rolesCalls, dbCalls, DatabasesStage);
    assert OpenDbConn(DatabasesStage) in dbCalls by {
      assert dbCalls[0] == OpenDbConn(DatabasesStage);
    }
    ConcatAssoc(log, rolesCalls, dbCalls);
  }

  /** The budget stage's calls appended to a log that has reached at most
      the databases stage: the log stays in stage order and reads the
      budget. */
  lemma PdbAppended(log: seq<Call>, calls: seq<Call>)
    requires OrderedUpTo(log, DatabasesStage)
    requires AllAt(calls, PdbStage) && |calls| >= 1 && calls[0] == GetPdb
    ensures OrderedUpTo(log + calls, PdbStage) && GetPdb in calls
  {
    OrderedUpToLater(log, DatabasesStage, PdbStage);
    AppendStage(log, calls, PdbStage);
  }

  /** The database stages and the budget stage, after a log that ends with
      the statefulset stage: the log stays in stage order, an error is
      marked with the stage that raised it, and no call of a later stage
      follows it; a skipped database stage makes no call; success means the
      budget was read and, when the database stages ran, both connections
      were opened. */
  lemma LateTailOrdered(s: Settings, st: Snapshot, w: World, late: LateResults, log: seq<Call>)
    requires LateCallsAtStages(late)
    requires OrderedUpTo(log, StatefulSetStage)
    ensures var r := LateTail(s, st, w, late);
            && OrderedUpTo(log + r.calls, PdbStage)
            && (r.err.Fail? ==> r.err.error.AtStage? && Rank(RolesStage) <= Rank(r.err.error.stage) <= Rank(PdbStage) &&
                                OrderedUpTo(log + r.calls, r.err.error.stage))
            && (!DatabaseStagesRun(s.databaseAccessDisabled, w.instances) ==>
                  NoneAt(log + r.calls, RolesStage) && NoneAt(log + r.calls, DatabasesStage))
            && (r.err.Pass? ==> GetPdb in r.calls)
            && (r.err.Pass? && DatabaseStagesRun(s.databaseAccessDisabled, w.instances) ==>
                  OpenDbConn(RolesStage) in r.calls && OpenDbConn(DatabasesStage) in r.calls)
  {
    if DatabaseStagesRun(s.databaseAccessDisabled, w.instances) {
      LateTailRanOrdered(s, st, w, late, log);
    } else {
      var r := LateTail(s, st, w, late);
      assert r.calls == late.pdb.calls by {
        assert [] + late.pdb.calls == late.pdb.calls;
      }
      assert r.err.Fail? ==> r.err.error == AtStage(PdbStage, late.pdb.err.error);
      SkippedDatabaseStages(log, late.pdb.calls);
    }
  }

  /** LateTailOrdered when the database stages run. */
  lemma LateTailRanOrdered(s: Settings, st: Snapshot, w: World, late: LateResults, log: seq<Call>)
    requires LateCallsAtStages(late)
    requires OrderedUpTo(log, StatefulSetStage)
    requires DatabaseStagesRun(s.databaseAccessDisabled, w.instances)
    ensures var r := LateTail(s, st, w, late);
            && OrderedUpTo(log + r.calls, PdbStage)
            && (r.err.Fail? ==> r.err.error.AtStage? && Rank(RolesStage) <= Rank(r.err.error.stage) <= Rank(PdbStage) &&
                                OrderedUpTo(log + r.calls, r.err.error.stage))
            && (r.err.Pass? ==> GetPdb in r.calls && OpenDbConn(RolesStage) in r.calls && OpenDbConn(DatabasesStage) in r.calls)
  {
    var r := LateTail(s, st, w, late);
    var p := late.pdb;
    var db := DatabaseChain(late.roles, late.dbs);
    DatabaseChainOrdered(late, log);
    if db.0.Fail? {
      assert r.calls == db.1 && r.err == db.0;
      OrderedUpToLater(log + db.1, db.0.error.stage, PdbStage);
    } else {
      assert r.calls == db.1 + p.calls;
      PdbAppended(log + db.1, p.calls);
      ConcatAssoc(log, db.1, p.calls);
      assert r.err.Fail? ==> r.err.error == AtStage(PdbStage, p.err.error);
    }
  }

  /** The budget stage's calls right after the statefulset stage's: the
      database stages left no call. */
  lemma SkippedDatabaseStages(log: seq<Call>, calls: seq<Call>)
    requires OrderedUpTo(log, StatefulSetStage)
    requires AllAt(calls, PdbStage) && |calls| >= 1 && calls[0] == GetPdb
    ensures OrderedUpTo(log + calls, PdbStage) && GetPdb in calls
    ensures NoneAt(log + calls, RolesStage) && NoneAt(log + calls, DatabasesStage)
  {
    OrderedUpToLater(log, StatefulSetStage, DatabasesStage);
    PdbAppended(log, calls);
    SkippedStage(log, calls, StatefulSetStage, PdbStage, RolesStage);
    SkippedStage(log, calls, StatefulSetStage, PdbStage, DatabasesStage);
  }

  /** The stages from syncStatefulSet on, after a log that ends with the
      volumes stage: LateTailOrdered after the statefulset stage's calls. */
  lemma LateChainOrdered(s: Settings, st: Snapshot, w: World, late: LateResults, log: seq<Call>)
    requires LateCallsAtStages(late)
    requires OrderedUpTo(log, VolumesStage)
    ensures var r := LateChain(s, st, w, late);
            && OrderedUpTo(log + r.calls, PdbStage)
            && (r.err.Fail? ==> r.err.error.AtStage? && Rank(StatefulSetStage) <= Rank(r.err.error.stage) <= Rank(PdbStage) &&
                                OrderedUpTo(log + r.calls, r.err.error.stage))
            && (!DatabaseStagesRun(s.databaseAccessDisabled, w.instances) ==>
                  NoneAt(log + r.calls, RolesStage) && NoneAt(log + r.calls, DatabasesStage))
            && (r.err.Pass? ==> GetPdb in r.calls)
            && (r.err.Pass? && DatabaseStagesRun(s.databaseAccessDisabled, w.instances) ==>
                  OpenDbConn(RolesStage) in r.calls && OpenDbConn(DatabasesStage) in r.calls)
  {
    var ss := late.ss;
    OrderedUpToLater(log, VolumesStage, StatefulSetStage);
    AppendStage(log, ss.calls, StatefulSetStage);
    var log1 := log + ss.calls;
    if ss.err.Fail? && !Tolerates(s.tolerance, ss.err.error) {
      OrderedUpToLater(log1, StatefulSetStage, PdbStage);
      NoneAfter(log1, StatefulSetStage, RolesStage);
      NoneAfter(log1, StatefulSetStage, DatabasesStage);
      return;
    }
    var t := LateTail(s, st.(statefulset := ss.cache), w, late);
    LateTailOrdered(s, st.(statefulset := ss.cache), w, late, log1);
    ConcatAssoc(log, ss.calls, t.calls);
  }

  /** The whole pass: its log is in stage order, its error is marked with
      the stage that raised it and no call of a later stage was made; a
      failing initUsers ends the pass before any call; the skipped database
      stages make no call; a pass that succeeds has read the budget and,
      when the database stages ran, opened both connections. */
  lemma ChainOrdered(s: Settings, st: Snapshot, w: World, early: EarlyResults, late: LateResults)
    requires CallsAtStages(early, late)
    ensures var r := Chain(s, st, w, early, late);
            && OrderedUpTo(r.calls, PdbStage)
            && (r.err.Fail? ==> r.err.error.AtStage? && r.err.error.stage != StatusStage &&
                                OrderedUpTo(r.calls, r.err.error.stage))
            && (w.users.Failure? ==> r.calls == [])
            && (!DatabaseStagesRun(s.databaseAccessDisabled, w.instances) ==>
                  NoneAt(r.calls, RolesStage) && NoneAt(r.calls, DatabasesStage))
            && (r.err.Pass? ==> GetPdb in r.calls)
            && (r.err.Pass? && DatabaseStagesRun(s.databaseAccessDisabled, w.instances) ==>
                  OpenDbConn(RolesStage) in r.calls && OpenDbConn(DatabasesStage) in r.calls)
  {
    var r := Chain(s, st, w, early, late);
    if w.users.Success? {
      var sec, svc := early.sec, early.svc;
      var log := sec.calls + svc.calls + ActionCalls(s, svc.actions) + early.vol.1;
      EarlyChainOrdered(s, early);
      if sec.err.Fail? {
        assert r.calls == sec.calls && r.err == Fail(AtStage(SecretsStage, sec.err.error));
        EndedEarly(sec.calls, SecretsStage);
      } else if svc.err.Fail? {
        assert r.calls == sec.calls + svc.calls && r.err == Fail(AtStage(ServicesStage, svc.err.error));
        EndedEarly(sec.calls + svc.calls, ServicesStage);
      } else if early.vol.0.Fail? {
        assert r.calls == log && r.err == Fail(AtStage(VolumesStage, early.vol.0.error));
        EndedEarly(log, VolumesStage);
      } else {
        var st2 := st.(users := sec.next).(net := svc.next);
        LateChainOrdered(s, st2, w, late, log);
        var lateRun := LateChain(s, st2, w, late);
        assert r.calls == log + lateRun.calls && r.err == lateRun.err;
      }
    }
  }

  /** A log that ends before the statefulset stage is a log up to the
      budget stage with no database call. */
  lemma EndedEarly(log: seq<Call>, stage: Stage)
    requires OrderedUpTo(log, stage) && Rank(stage) < Rank(StatefulSetStage)
    ensures OrderedUpTo(log, PdbStage) && NoneAt(log, RolesStage) && NoneAt(log, DatabasesStage)
  {
    OrderedUpToLater(log, stage, PdbStage);
    NoneAfter(log, stage, RolesStage);
    NoneAfter(log, stage, DatabasesStage);
  }

  // ---- The pass itself ----

  /** The outcome of the stage `stage`'s own function in the pass. */
  function StageOutcome(s: Settings, st: Snapshot, w: World, o: Orders, stage: Stage): Outcome
    requires PlanFits(s.spec.databases, w.databases, o.creates, o.alters)
  {
    StageErr(s, w, EarlyOf(st, w, o.secrets), LateOf(s, st.statefulset, w, o.creates, o.alters), stage)
  }

  /** The pass reaches the stage `stage`: every stage before it succeeded. */
  ghost predicate Reached(s: Settings, st: Snapshot, w: World, o: Orders, stage: Stage)
    requires PlanFits(s.spec.databases, w.databases, o.creates, o.alters)
  {
    PassedBefore(s, w, EarlyOf(st, w, o.secrets), LateOf(s, st.statefulset, w, o.creates, o.alters), stage)
  }

  /** The pass fails at a stage exactly when it reaches that stage and the
      stage's own function fails, with that function's error; it succeeds
      exactly when it reaches the status write; each field is left by its
      own stage once the pass reaches it and is untouched otherwise. */
  lemma SyncRunFailFast(s: Settings, st: Snapshot, w: World, o: Orders)
    requires PlanFits(s.spec.databases, w.databases, o.creates, o.alters)
    ensures var r := SyncRun(s, st, w, o);
            && (r.err.Fail? ==> r.err.error.AtStage?)
            && (forall stage, e :: r.err == Fail(AtStage(stage, e)) <==>
                  Reached(s, st, w, o, stage) && StageOutcome(s, st, w, o, stage) == Fail(e))
            && (r.err.Pass? <==> Reached(s, st, w, o, StatusStage))
  {
    ChainFailFast(s, st, w, EarlyOf(st, w, o.secrets), LateOf(s, st.statefulset, w, o.creates, o.alters));
  }

  /** Each field is written by its own stage function, and only once the
      pass reaches that stage. */
  lemma SyncRunFields(s: Settings, st: Snapshot, w: World, o: Orders)
    requires PlanFits(s.spec.databases, w.databases, o.creates, o.alters)
    ensures var r := SyncRun(s, st, w, o);
            && r.next.users == (if w.users.Failure? then st.users else RunSecrets(o.secrets, Loaded(st, w), w.secrets).next)
            && r.next.net == (if Reached(s, st, w, o, ServicesStage) then ServicesRun(ServiceRoles, st.net, w.services, []).next
                              else st.net)
            && r.next.statefulset ==
                 (if Reached(s, st, w, o, StatefulSetStage)
                  then StatefulSetRun(st.statefulset, s.spec.parameters, s.bootstrapOnly, w.statefulset).cache
                  else st.statefulset)
            && r.next.pdb == (if Reached(s, st, w, o, PdbStage) then ApplyWrite(st.pdb, PdbRun(w.pdb).write) else st.pdb)
  {
    ChainFields(s, st, w, EarlyOf(st, w, o.secrets), LateOf(s, st.statefulset, w, o.creates, o.alters));
  }

  /** The log of a pass is in stage order, its error is marked with the
      stage that raised it and no call of a later stage was made; a failing
      initUsers ends the pass before any call; the skipped database stages
      make no call; a pass that succeeds has read the budget and, when the
      database stages ran, opened both connections. */
  lemma SyncRunOrdered(s: Settings, st: Snapshot, w: World, o: Orders)
    requires PlanFits(s.spec.databases, w.databases, o.creates, o.alters)
    ensures var r := SyncRun(s, st, w, o);
            && OrderedUpTo(r.calls, PdbStage)
            && (r.err.Fail? ==> r.err.error.AtStage? && r.err.error.stage != StatusStage &&
                                OrderedUpTo(r.calls, r.err.error.stage))
            && (w.users.Failure? ==> r.calls == [])
            && (!DatabaseStagesRun(s.databaseAccessDisabled, w.instances) ==>
                  NoneAt(r.calls, RolesStage) && NoneAt(r.calls, DatabasesStage))
            && (r.err.Pass? ==> GetPdb in r.calls)
            && (r.err.Pass? && DatabaseStagesRun(s.databaseAccessDisabled, w.instances) ==>
                  OpenDbConn(RolesStage) in r.calls && OpenDbConn(DatabasesStage) in r.calls)
  {
    StagesCallsAtStages(s, st, w, o);
    ChainOrdered(s, st, w, EarlyOf(st, w, o.secrets), LateOf(s, st.statefulset, w, o.creates, o.alters));
  }

  // ---- The AlreadyExists check on the statefulset error ----

  /** A statefulset created by someone else between the Get and the Create. */
  predicate CreateRace(w: StatefulSetWorld)
  {
    w.get == Err(NotFound) && w.listPods.Ok? && w.create == Err(AlreadyExists)
  }

  /** As written, the check never lets a statefulset error through: once
      the pass reaches syncStatefulSet, any error of it ends the pass, the
      create race included. */
  lemma StatefulSetErrorEndsPass(s: Settings, st: Snapshot, w: World, o: Orders)
    requires PlanFits(s.spec.databases, w.databases, o.creates, o.alters)
    requires s.tolerance == AsWritten
    ensures var ss := StatefulSetRun(st.statefulset, s.spec.parameters, s.bootstrapOnly, w.statefulset);
            Reached(s, st, w, o, StatefulSetStage) && ss.err.Fail? ==>
              SyncRun(s, st, w, o).err == Fail(AtStage(StatefulSetStage, ss.err.error))
    ensures Reached(s, st, w, o, StatefulSetStage) && CreateRace(w.statefulset) ==>
              FailedAt(SyncRun(s, st, w, o).err, StatefulSetStage)
  {
    NeverToleratedAsWritten(st.statefulset, s.spec.parameters, s.bootstrapOnly, w.statefulset);
    SyncRunFailFast(s, st, w, o);
  }

  /** With the corrected check, the create race does not end the pass: it
      goes on to the database stages when they run, and to the budget stage
      when they succeed. */
  lemma CreateRaceTolerated(s: Settings, st: Snapshot, w: World, o: Orders)
    requires PlanFits(s.spec.databases, w.databases, o.creates, o.alters)
    requires s.tolerance == Corrected
    ensures Reached(s, st, w, o, StatefulSetStage) && CreateRace(w.statefulset) ==>
              && !FailedAt(SyncRun(s, st, w, o).err, StatefulSetStage)
              && Reached(s, st, w, o, RolesStage)
  {
    var early, late := EarlyOf(st, w, o.secrets), LateOf(s, st.statefulset, w, o.creates, o.alters);
    CreateConflictTolerated(st.statefulset, s.spec.parameters, s.bootstrapOnly, w.statefulset);
    PassedBeforeChain(s, w, early, late);
    SyncRunFailFast(s, st, w, o);
  }
}
