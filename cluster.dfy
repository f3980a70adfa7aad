/** Cluster.Sync: one reconciliation pass of a PostgreSQL cluster. The pass
    runs its stages in a fixed order (users, secrets, services, service
    actions, volumes, statefulset, roles, databases, pod disruption budget),
    stops at the first stage that fails, and records the outcome in the
    cluster status.

    The class keeps the cluster fields the pass reads and writes, and
    `calls`, the log of the calls made into the backend. Each stage method is
    proved to leave exactly the state its specification function in the
    stage's own module computes from the old state and the backend's answers,
    and Sync to compute exactly SyncPass.SyncRun, the whole pass. */
module ClusterSync {
  import opened Results
  import opened Objects
  import opened Actions
  import opened GlobalConfig
  import opened StatefulSetSync
  import opened Secrets
  import opened Databases
  import opened Volumes
  import opened ObjectSync
  import opened SyncPass

  /** The log of a pass with the status write after it is in stage order,
      and the stage that failed is one before the status write. */
  lemma StatusLast(stageCalls: seq<Call>, statusCalls: seq<Call>, err: Outcome)
    requires OrderedUpTo(stageCalls, PdbStage) && AllAt(statusCalls, StatusStage)
    requires err.Fail? ==> err.error.AtStage? && OrderedUpTo(stageCalls, err.error.stage)
    ensures StageOrdered(stageCalls + statusCalls) && NoneAt(stageCalls, StatusStage)
    ensures err.Fail? ==> UpTo(stageCalls, err.error.stage)
  {
    NoneAfter(stageCalls, PdbStage, StatusStage);
    if err.Fail? {
      OrderedUpToMeans(stageCalls, err.error.stage);
    }
    OrderedUpToLater(stageCalls, PdbStage, StatusStage);
    AppendStage(stageCalls, statusCalls, StatusStage);
    OrderedUpToMeans(stageCalls + statusCalls, StatusStage);
  }

  /** The log of a whole pass followed by the status write is in stage
      order, and an error leaves no call of a later stage before the
      status write. */
  lemma PassThenStatus(s: Settings, st: Snapshot, w: World, o: Orders, statusCalls: seq<Call>)
    requires PlanFits(s.spec.databases, w.databases, o.creates, o.alters)
    requires AllAt(statusCalls, StatusStage)
    ensures var r := SyncRun(s, st, w, o);
            && StageOrdered(r.calls + statusCalls) && NoneAt(r.calls, StatusStage)
            && (r.err.Fail? ==> r.err.error.AtStage? && r.err.error.stage != StatusStage && UpTo(r.calls, r.err.error.stage))
  {
    var r := SyncRun(s, st, w, o);
    SyncRunOrdered(s, st, w, o);
    StatusLast(r.calls, statusCalls, r.err);
  }

  class Cluster {
    var spec: ClusterSpec
    var status: ClusterStatus
    var systemUsers: UserMap
    var pgUsers: UserMap
    /** c.Secrets, keyed by UID. */
    var secrets: map<string, Secret>
    var endpoints: map<Role, Option<Endpoint>>
    var services: map<Role, Option<Service>>
    var statefulset: Option<StatefulSet>
    var podDisruptionBudget: Option<Pdb>
    /** Every call made into the backend, in order. */
    var calls: seq<Call>

    const dryRunMode: bool
    const databaseAccessDisabled: bool
    /** isBootstrapOnlyParameter. */
    const bootstrapOnly: string -> bool

    constructor (spec: ClusterSpec, dryRunMode: bool, databaseAccessDisabled: bool, bootstrapOnly: string -> bool)
      ensures this.spec == spec && status == StatusUnknown
      ensures systemUsers == map[] && pgUsers == map[] && secrets == map[]
      ensures endpoints == map[] && services == map[]
      ensures statefulset == None && podDisruptionBudget == None && calls == []
      ensures this.dryRunMode == dryRunMode && this.databaseAccessDisabled == databaseAccessDisabled
      ensures this.bootstrapOnly == bootstrapOnly
    {
      this.spec := spec;
      status := StatusUnknown;
      systemUsers, pgUsers, secrets := map[], map[], map[];
      endpoints, services := map[], map[];
      statefulset, podDisruptionBudget := None, None;
      calls := [];
      this.dryRunMode := dryRunMode;
      this.databaseAccessDisabled := databaseAccessDisabled;
      this.bootstrapOnly := bootstrapOnly;
    }

    /** The secrets-stage view of the fields. */
    function SecretsView(): SecretsState
      reads this`systemUsers, this`pgUsers, this`secrets
    {
      SecretsState(systemUsers, pgUsers, secrets)
    }

    /** initUsers, whose result is taken as given: on success the two user
        maps are replaced. */
    method InitUsers(users: Result<(UserMap, UserMap)>) returns (err: Outcome)
      modifies this`systemUsers, this`pgUsers
      ensures users.Success? ==> err == Pass && systemUsers == users.value.0 && pgUsers == users.value.1
      ensures users.Failure? ==> err == Fail(users.error) && systemUsers == old(systemUsers) && pgUsers == old(pgUsers)
    {
      if users.Failure? {
        return Fail(users.error);
      }
      systemUsers, pgUsers := users.value.0, users.value.1;
      err := Pass;
    }

    /** One iteration of the loop of syncSecrets, for the user `username`. */
    method SyncUserSecret(username: string, ghost step: (string, SecretsState) -> Step, w: SecretsWorld)
      returns (err: Outcome)
      requires RunsSecrets(step, w)
      modifies this`systemUsers, this`pgUsers, this`secrets, this`calls
      ensures var s := step(username, old(SecretsView()));
              err == s.err && SecretsView() == s.next && calls == old(calls) + s.calls
    {
      assert step(username, SecretsView()) == Secrets.SyncSecret(username, SecretsView(), w);
      calls := calls + [CreateSecret(username)];
      var created := w.create(username);
      if created.Ok? {
        secrets := secrets[created.value.uid := created.value];
        return Pass;
      }
      if created.reason != AlreadyExists {
        return Fail(Wrapped(Api(created.reason)));
      }
      calls := calls + [GetSecret(username)];
      var current := w.get(username);
      if current.Err? {
        return Fail(Wrapped(Api(current.reason)));
      }
      var cur := current.value;
      if username != cur.username {
        return Pass;
      }
      var key := username;
      var system := false;
      if username == Lookup(systemUsers, SuperuserKeyName).name {
        key, system := SuperuserKeyName, true;
      } else if username == Lookup(systemUsers, ReplicationUserKeyName).name {
        key, system := ReplicationUserKeyName, true;
      }
      assert (system, key) == ResolveUser(username, systemUsers);
      var pwdUser := if system then Lookup(systemUsers, key) else Lookup(pgUsers, key);
      if pwdUser.password != cur.password && pwdUser.origin == OriginInfrastructure {
        calls := calls + [UpdateSecret(username)];
        var updated := w.update(username);
        if updated.Fail? {
          return Fail(Wrapped(updated.error));
        }
      } else {
        pwdUser := pwdUser.(password := cur.password);
        if system {
          systemUsers := systemUsers[key := pwdUser];
        } else {
          pgUsers := pgUsers[key := pwdUser];
        }
      }
      err := Pass;
    }

    /** syncSecrets over the secrets of `users`, taken in the order Go's map
        iteration picks, which `order` records. The state and the log are
        those of the loop of `step` over that order, which Sync runs with
        SecretStep(w), so that they are RunSecrets'; when the stage succeeds
        every user's secret was synced, each once. */
    method SyncSecrets(users: set<string>, ghost step: (string, SecretsState) -> Step, w: SecretsWorld)
      returns (err: Outcome, ghost order: seq<string>)
      requires RunsSecrets(step, w)
      modifies this`systemUsers, this`pgUsers, this`secrets, this`calls
      ensures Distinct(order) && (forall u :: u in order ==> u in users)
      ensures err.Pass? ==> forall u :: u in users ==> u in order
      ensures var r := SecretsLoop(order, old(SecretsView()), step);
              err == r.err && SecretsView() == r.next && calls == old(calls) + r.calls
    {
      ghost var st0 := SecretsView();
      ghost var calls0 := calls;
      ghost var done: seq<Call> := [];
      order := [];
      err := Pass;
      var todo := users;
      while todo != {}
        invariant todo <= users
        invariant Distinct(order)
        invariant forall u :: u in order <==> u in users && u !in todo
        invariant calls == calls0 + done
        invariant SecretsLoop(order, st0, step) == Step(SecretsView(), done, Pass)
        invariant err == Pass
        decreases todo
      {
        var username :| username in todo;
        SecretsLoopSnoc(order, username, st0, step);
        DistinctSnoc(order, username);
        order := order + [username];
        ghost var before := calls;
        err := SyncUserSecret(username, step, w);
        done := done + calls[|before|..];
        if err.Fail? {
          break;
        }
        todo := todo - {username};
      }
      assert calls[|calls0|..] == done;
    }

    /** syncEndpoint(role). */
    method SyncEndpoint(role: Role, w: EndpointWorld) returns (err: Outcome)
      modifies this`endpoints, this`calls
      ensures var s := EndpointRun(role, w);
              err == s.err && endpoints == ApplyAt(old(endpoints), role, s.write) && calls == old(calls) + s.calls
    {
      calls := calls + [GetEndpoint(role)];
      if w.get.Ok? {
        endpoints := endpoints[role := Some(w.get.value)];
        return Pass;
      }
      if w.get.reason != NotFound {
        return Fail(Wrapped(Api(w.get.reason)));
      }
      endpoints := endpoints[role := None];
      calls := calls + [CreateEndpoint(role)];
      if w.create.Ok? {
        endpoints := endpoints[role := Some(w.create.value)];
      } else if w.create.reason == AlreadyExists {
        calls := calls + [GetEndpoint(role)];
        if w.refetch.Ok? {
          endpoints := endpoints[role := Some(w.refetch.value)];
        }
      } else {
        return Fail(Wrapped(Api(w.create.reason)));
      }
      err := Pass;
    }

    /** syncService(role). */
    method SyncService(role: Role, w: ServiceWorld) returns (err: Outcome, actions: seq<Action>)
      modifies this`services, this`calls
      ensures var s := ServiceRun(role, w);
              && err == s.err && actions == s.actions
              && services == ApplyAt(old(services), role, s.write) && calls == old(calls) + s.calls
    {
      actions := [];
      calls := calls + [GetService(role)];
      if w.get.Ok? {
        var svc := w.get.value;
        services := services[role := Some(svc)];
        if w.same(svc, w.desired) {
          return Pass, [];
        }
        if w.update.Failure? {
          return Fail(Wrapped(w.update.error)), [];
        }
        return Pass, w.update.value;
      }
      if w.get.reason != NotFound {
        return Fail(Wrapped(Api(w.get.reason))), [];
      }
      services := services[role := None];
      if w.create.Failure? {
        return Fail(Wrapped(w.create.error)), [];
      }
      return Pass, w.create.value;
    }

    /** One iteration of the loop of syncServices: RoleRun, which `step`
        stands for. */
    method SyncRole(role: Role, ghost step: (Role, ServicesState) -> ServicesStep, w: ServicesWorld)
      returns (err: Outcome, actions: seq<Action>)
      requires RunsRoles(step, w)
      modifies this`endpoints, this`services, this`calls
      ensures var r := step(role, ServicesState(old(endpoints), old(services)));
              && err == r.err && actions == r.actions
              && ServicesState(endpoints, services) == r.next && calls == old(calls) + r.calls
      ensures err.Fail? ==> actions == []
    {
      ghost var calls0 := calls;
      assert step(role, ServicesState(endpoints, services)) == RoleRun(role, ServicesState(endpoints, services), w);
      var e := SyncEndpoint(role, w.endpoint(role));
      if e.Fail? {
        return Fail(Wrapped(e.error)), [];
      }
      ghost var endpointCalls := calls[|calls0|..];
      var s;
      s, actions := SyncService(role, w.service(role));
      assert calls == calls0 + endpointCalls + ServiceRun(role, w.service(role)).calls;
      if s.Fail? {
        return Fail(Wrapped(s.error)), [];
      }
      err := Pass;
    }

    /** syncServices: the loop over `roles`, which Sync calls with the
        master and the replica role and with RoleStep(w) as `step`. The
        state and the log are those the loop of RoleRun computes. */
    method SyncServices(roles: seq<Role>, ghost step: (Role, ServicesState) -> ServicesStep, w: ServicesWorld)
      returns (err: Outcome, actions: seq<Action>)
      requires RunsRoles(step, w)
      modifies this`endpoints, this`services, this`calls
      ensures var r := RoleLoop(roles, ServicesState(old(endpoints), old(services)), step, []);
              && err == r.err && actions == r.actions
              && ServicesState(endpoints, services) == r.next && calls == old(calls) + r.calls
    {
      ghost var st0 := ServicesState(endpoints, services);
      ghost var calls0 := calls;
      ghost var done: seq<Call> := [];
      actions := [];
      err := Pass;
      var i := 0;
      while i < |roles|
        invariant 0 <= i <= |roles|
        invariant err == Pass
        invariant calls == calls0 + done
        invariant RoleLoop(roles[..i], st0, step, []) ==
                    ServicesStep(Pass, actions, done, ServicesState(endpoints, services))
      {
        RoleLoopPrefix(roles, i, st0, step, []);
        ghost var before := calls;
        var a;
        err, a := SyncRole(roles[i], step, w);
        done := done + calls[|before|..];
        if err.Fail? {
          RoleLoopStopsAt(roles, i + 1, st0, step, []);
          return err, [];
        }
        actions := a;
        i := i + 1;
      }
      assert roles[..i] == roles;
    }

    /** syncStatefulSet. The state and the log are those StatefulSetRun
        computes from the statefulset cached by the previous pass. */
    method SyncStatefulSet(w: StatefulSetWorld) returns (err: Outcome)
      modifies this`statefulset, this`calls
      ensures var r := StatefulSetRun(old(statefulset), spec.parameters, bootstrapOnly, w);
              err == r.err && statefulset == r.cache && calls == old(calls) + r.calls
    {
      if w.get.Ok? {
        err := SyncRunningStatefulSet(w.get.value, w);
      } else if w.get.reason == NotFound {
        err := CreateMissingStatefulSet(w);
      } else {
        calls := calls + [GetStatefulSet];
        err := Fail(Wrapped(Api(w.get.reason)));
      }
    }

    /** The statefulset is missing: create it again, and mark the pods for
        recreation when some were left over from the previous one. */
    method CreateMissingStatefulSet(w: StatefulSetWorld) returns (err: Outcome)
      modifies this`statefulset, this`calls
      ensures var r := CreatePath(spec.parameters, bootstrapOnly, w);
              err == r.err && statefulset == r.cache && calls == old(calls) + r.calls
    {
      ghost var calls0 := calls;
      ghost var r := CreatePath(spec.parameters, bootstrapOnly, w);
      calls := calls + [GetStatefulSet];
      statefulset := None;
      calls := calls + [ListPods];
      if w.listPods.Err? {
        assert r == Run(Fail(Wrapped(Api(w.listPods.reason))), [GetStatefulSet, ListPods], None, false);
        return Fail(Wrapped(Api(w.listPods.reason)));
      }
      var pods := w.listPods.value;
      calls := calls + [CreateStatefulSet];
      if w.create.Err? {
        assert r == Run(Fail(Wrapped(Api(w.create.reason))), [GetStatefulSet, ListPods, CreateStatefulSet], None, false);
        return Fail(Wrapped(Api(w.create.reason)));
      }
      calls := calls + [WaitPodsReady];
      if w.waitReady.Fail? {
        assert r == Run(Fail(Wrapped(w.waitReady.error)), [GetStatefulSet, ListPods, CreateStatefulSet, WaitPodsReady], None, false);
        return Fail(Wrapped(w.waitReady.error));
      }
      var podsRollingUpdateRequired := |pods| > 0;
      if podsRollingUpdateRequired {
        calls := calls + [SetRollingUpdateFlag(true)];
      }
      ghost var prefix := CreatedLog(podsRollingUpdateRequired);
      assert calls == calls0 + prefix;
      CreatePathReachesFinish(spec.parameters, bootstrapOnly, w);
      err := FinishStatefulSet(calls0, prefix, podsRollingUpdateRequired, w);
    }

    /** The statefulset exists: cache it, compare it with the desired one and
        write the desired one when they differ. */
    method SyncRunningStatefulSet(running: StatefulSet, w: StatefulSetWorld) returns (err: Outcome)
      modifies this`statefulset, this`calls
      ensures var r := UpdatePath(running, old(statefulset), spec.parameters, bootstrapOnly, w);
              err == r.err && statefulset == r.cache && calls == old(calls) + r.calls
    {
      ghost var calls0 := calls;
      ghost var cached := statefulset;
      ghost var r := UpdatePath(running, cached, spec.parameters, bootstrapOnly, w);
      calls := calls + [GetStatefulSet];
      var podsRollingUpdateRequired := MergedFlag(running, statefulset);
      statefulset := Some(running);
      if w.generate.Failure? {
        return Fail(Wrapped(w.generate.error));
      }
      ghost var generated := w.generate.value;
      ghost var wanted := Desired(generated, running, cached, w.compare);
      var desired := w.generate.value.(rollingUpdate := podsRollingUpdateRequired);
      var cmp := w.compare(running, desired);
      assert cmp == ComparisonOf(generated, running, cached, w.compare);
      ghost var prefix := [GetStatefulSet];
      if cmp.update {
        if cmp.rollingUpdate && !podsRollingUpdateRequired {
          podsRollingUpdateRequired := true;
          desired := desired.(rollingUpdate := true);
        }
        assert desired == wanted;
        if !cmp.replace {
          calls := calls + [UpdateStatefulSet(desired)];
          prefix := prefix + [UpdateStatefulSet(desired)];
          if w.update.Fail? {
            assert r == Run(Fail(Wrapped(w.update.error)), prefix, Some(running), wanted.rollingUpdate);
            return Fail(Wrapped(w.update.error));
          }
        } else {
          calls := calls + [ReplaceStatefulSet(desired)];
          prefix := prefix + [ReplaceStatefulSet(desired)];
          if w.replace.Fail? {
            assert r == Run(Fail(Wrapped(w.replace.error)), prefix, Some(running), wanted.rollingUpdate);
            return Fail(Wrapped(w.replace.error));
          }
        }
      }
      assert podsRollingUpdateRequired == wanted.rollingUpdate;
      UpdatePathFinishMarker(running, cached, spec.parameters, bootstrapOnly, w, prefix);
      err := FinishStatefulSet(calls0, prefix, podsRollingUpdateRequired, w);
    }

    /** The part of syncStatefulSet after the statefulset is in place, with
        `prefix` the calls the stage made after `before`: push the global
        configuration, then recreate the pods and clear the marker when it is
        pending. */
    method FinishStatefulSet(ghost before: seq<Call>, ghost prefix: seq<Call>, pending: bool, w: StatefulSetWorld)
      returns (err: Outcome)
      requires calls == before + prefix
      modifies this`calls
      ensures var r := Finish(prefix, statefulset, pending, spec.parameters, bootstrapOnly, w);
              err == r.err && calls == before + r.calls
    {
      ghost var r := Finish(prefix, statefulset, pending, spec.parameters, bootstrapOnly, w);
      var configErr, _, configCalls := CheckAndSetGlobalConfiguration(spec.parameters, bootstrapOnly, w.config);
      calls := calls + configCalls;
      assert calls == before + (prefix + configCalls);
      if configErr.Fail? {
        assert r == Run(Fail(Wrapped(configErr.error)), prefix + configCalls, statefulset, pending);
        return Fail(Wrapped(configErr.error));
      }
      if pending {
        calls := calls + [RecreatePods];
        assert calls == before + (prefix + configCalls + [RecreatePods]);
        if w.recreate.Fail? {
          assert r == Run(Fail(Wrapped(w.recreate.error)), prefix + configCalls + [RecreatePods], statefulset, pending);
          return Fail(Wrapped(w.recreate.error));
        }
        // A failure to clear the marker is only logged.
        calls := calls + [SetRollingUpdateFlag(false)];
        assert calls == before + (prefix + configCalls + [RecreatePods, SetRollingUpdateFlag(false)]);
        assert r == Run(Pass, prefix + configCalls + [RecreatePods, SetRollingUpdateFlag(false)], statefulset, pending);
      } else {
        assert r == Run(Pass, prefix + configCalls, statefulset, pending);
      }
      err := Pass;
    }

    /** syncPodDisruptionBudget. */
    method SyncPodDisruptionBudget(w: PdbWorld) returns (err: Outcome)
      modifies this`podDisruptionBudget, this`calls
      ensures var s := PdbRun(w);
              && err == s.err && podDisruptionBudget == ApplyWrite(old(podDisruptionBudget), s.write)
              && calls == old(calls) + s.calls
    {
      calls := calls + [GetPdb];
      if w.get.Ok? {
        podDisruptionBudget := Some(w.get.value);
        if !w.same(w.get.value, w.desired) {
          calls := calls + [UpdatePdb(w.desired)];
          return w.update;
        }
        return Pass;
      }
      if w.get.reason != NotFound {
        return Fail(Wrapped(Api(w.get.reason)));
      }
      podDisruptionBudget := None;
      calls := calls + [CreatePdb];
      if w.create.Ok? {
        podDisruptionBudget := Some(w.create.value);
      } else if w.create.reason != AlreadyExists {
        return Fail(Wrapped(Api(w.create.reason)));
      }
      err := Pass;
    }

    // ---- The pass ----

    /** What the pass reads besides the backend. Sync checks a statefulset
        error with ResourceAlreadyExists, as written. */
    function PassSettings(): Settings
      reads this`spec
    {
      Settings(spec, dryRunMode, databaseAccessDisabled, bootstrapOnly, AsWritten)
    }

    /** The fields the stages of a pass write. */
    function Fields(): Snapshot
      reads this`systemUsers, this`pgUsers, this`secrets, this`endpoints, this`services,
            this`statefulset, this`podDisruptionBudget
    {
      Snapshot(SecretsView(), ServicesState(endpoints, services), statefulset, podDisruptionBudget)
    }

    /** syncRoles and then syncDatabases, which Sync runs when it can reach
        the database; `creates` and `alters` are the orders syncDatabases
        took over its two maps. */
    method DatabaseStages(w: World, ghost declared: map<string, string>)
      returns (err: Outcome, ghost creates: seq<string>, ghost alters: seq<string>)
      requires declared == spec.databases
      modifies this`calls
      ensures PlanOrders(declared, w.databases, creates, alters)
      ensures var r := DatabaseChain(SyncRoles(w.roles), DatabasesRun(declared, w.databases, creates, alters));
              err == r.0 && calls == old(calls) + r.1
      ensures err.Pass? ==> PlanComplete(declared, w.databases, creates, alters)
    {
      var roles := SyncRoles(w.roles);
      Record(roles.1);
      creates, alters := [], [];
      if roles.0.Fail? {
        err := Fail(AtStage(RolesStage, roles.0.error));
      } else {
        var databaseErr, toCreate, toAlter, databaseCalls;
        databaseErr, toCreate, toAlter, databaseCalls, creates, alters := SyncDatabases(spec.databases, w.databases);
        ConcatAssoc(old(calls), roles.1, databaseCalls);
        Record(databaseCalls);
        err := if databaseErr.Fail? then Fail(AtStage(DatabasesStage, databaseErr.error)) else Pass;
      }
    }

    /** The stages of Sync after syncStatefulSet, from the fields `st`
        syncStatefulSet left: the two database stages when
        DatabaseStagesRun holds, and then the pod disruption budget stage. */
    method TailStages(w: World, ghost s: Settings, ghost st: Snapshot, ghost ss: Run)
      returns (err: Outcome, ghost creates: seq<string>, ghost alters: seq<string>, ghost r: PassResult)
      requires s == PassSettings() && st == Fields()
      modifies this`podDisruptionBudget, this`calls
      ensures LateOrdersFit(s, w, creates, alters, err)
      ensures r == LateTail(s, st, w, LateResults(ss, SyncRoles(w.roles),
                                                  DatabasesRun(s.spec.databases, w.databases, creates, alters), PdbRun(w.pdb)))
      ensures err == r.err && calls == old(calls) + r.calls && Fields() == r.next
    {
      creates, alters, err := [], [], Pass;
      ghost var db: seq<Call> := [];
      if DatabaseStagesRun(databaseAccessDisabled, w.instances) {
        err, creates, alters := DatabaseStages(w, s.spec.databases);
        db := calls[|old(calls)|..];
        assert calls == old(calls) + db;
      }
      if err.Pass? {
        var e := SyncPodDisruptionBudget(w.pdb);
        ConcatAssoc(old(calls), db, PdbRun(w.pdb).calls);
        err := if e.Fail? then Fail(AtStage(PdbStage, e.error)) else Pass;
      }
      r := LateTail(s, st, w, LateResults(ss, SyncRoles(w.roles),
                                          DatabasesRun(s.spec.databases, w.databases, creates, alters), PdbRun(w.pdb)));
    }

    /** syncStatefulSet as the stage sees it, from the fields `st`. */
    method RunStatefulSetStage(w: World, ghost s: Settings, ghost st: Snapshot) returns (err: Outcome, ghost ss: Run)
      requires s == PassSettings() && st == Fields()
      modifies this`statefulset, this`calls
      ensures ss == StatefulSetRun(st.statefulset, s.spec.parameters, s.bootstrapOnly, w.statefulset)
      ensures err == ss.err && calls == old(calls) + ss.calls && Fields() == st.(statefulset := ss.cache)
    {
      ss := StatefulSetRun(statefulset, spec.parameters, bootstrapOnly, w.statefulset);
      err := SyncStatefulSet(w.statefulset);
    }

    /** The stages of Sync from syncStatefulSet on, from the fields `st`: a
        statefulset error ends the pass unless ResourceAlreadyExists holds
        of it, and the later stages run as TailStages describes. */
    method LateStages(w: World, ghost s: Settings, ghost st: Snapshot)
      returns (err: Outcome, ghost creates: seq<string>, ghost alters: seq<string>, ghost r: PassResult)
      requires s == PassSettings() && st == Fields()
      modifies this`statefulset, this`podDisruptionBudget, this`calls
      ensures LateOrdersFit(s, w, creates, alters, err)
      ensures r == LateChain(s, st, w, LateOf(s, st.statefulset, w, creates, alters))
      ensures err == r.err && calls == old(calls) + r.calls && Fields() == r.next
    {
      ghost var ss: Run;
      var e;
      e, ss := RunStatefulSetStage(w, s, st);
      creates, alters := [], [];
      if e.Fail? && !ToleratedAsWritten(e.error) {
        r := LateChain(s, st, w, LateOf(s, st.statefulset, w, creates, alters));
        return Fail(AtStage(StatefulSetStage, e.error)), creates, alters, r;
      }
      ghost var tail: PassResult;
      err, creates, alters, tail := TailStages(w, s, st.(statefulset := ss.cache), ss);
      ConcatAssoc(old(calls), ss.calls, tail.calls);
      r := LateChain(s, st, w, LateOf(s, st.statefulset, w, creates, alters));
      assert r == PassResult(tail.err, ss.calls + tail.calls, tail.next);
    }

    /** The stages of Sync from applyActions on, from the fields `st` the
        services stage left. The error of applyActions is not checked here,
        since ApplyActions returns nil on every path. */
    method ActionsOnward(actions: seq<Action>, w: World, ghost s: Settings, ghost st: Snapshot)
      returns (err: Outcome, ghost creates: seq<string>, ghost alters: seq<string>, ghost r: PassResult)
      requires s == PassSettings() && st == Fields()
      modifies this`statefulset, this`podDisruptionBudget, this`calls
      ensures LateOrdersFit(s, w, creates, alters, err)
      ensures r == FromActions(s, st, w, actions, SyncVolumes(w.volumes), LateOf(s, st.statefulset, w, creates, alters))
      ensures err == r.err && calls == old(calls) + r.calls && Fields() == r.next
    {
      var e, actionCalls, failed := ApplyActions(actions, dryRunMode, w.process);
      Record(actionCalls);
      var (volumeErr, volumeCalls) := SyncVolumes(w.volumes);
      Record(volumeCalls);
      ConcatAssoc(old(calls), actionCalls, volumeCalls);
      creates, alters := [], [];
      if volumeErr.Fail? {
        err := Fail(AtStage(VolumesStage, volumeErr.error));
      } else {
        ghost var late: PassResult;
        err, creates, alters, late := LateStages(w, s, st);
        ConcatAssoc(old(calls), actionCalls + volumeCalls, late.calls);
      }
      r := FromActions(s, st, w, actions, SyncVolumes(w.volumes), LateOf(s, st.statefulset, w, creates, alters));
    }

    /** The stages of Sync from syncServices on, from the fields `st` the
        secrets stage left. */
    method ServicesOnward(w: World, ghost s: Settings, ghost st: Snapshot)
      returns (err: Outcome, ghost creates: seq<string>, ghost alters: seq<string>, ghost r: PassResult)
      requires s == PassSettings() && st == Fields()
      modifies this`endpoints, this`services, this`statefulset, this`podDisruptionBudget, this`calls
      ensures LateOrdersFit(s, w, creates, alters, err)
      ensures r == FromServices(s, st, w, ServicesRun(ServiceRoles, st.net, w.services, []), SyncVolumes(w.volumes),
                                LateOf(s, st.statefulset, w, creates, alters))
      ensures err == r.err && calls == old(calls) + r.calls && Fields() == r.next
    {
      ghost var svc := ServicesRun(ServiceRoles, st.net, w.services, []);
      var e, actions := SyncServices(ServiceRoles, RoleStep(w.services), w.services);
      creates, alters := [], [];
      if e.Fail? {
        err := Fail(AtStage(ServicesStage, e.error));
      } else {
        ghost var t: PassResult;
        err, creates, alters, t := ActionsOnward(actions, w, s, st.(net := svc.next));
        ConcatAssoc(old(calls), svc.calls, t.calls);
      }
      r := FromServices(s, st, w, svc, SyncVolumes(w.volumes), LateOf(s, st.statefulset, w, creates, alters));
    }

    /** The stages of Sync, from initUsers to syncPodDisruptionBudget, each
        error marked with the stage that raised it: exactly SyncRun on the
        fields `st` before the pass, with the loops over Go maps taken in
        the orders `o`. */
    method RunStages(w: World, ghost s: Settings, ghost st: Snapshot) returns (err: Outcome, ghost o: Orders, ghost r: PassResult)
      requires s == PassSettings() && st == Fields()
      modifies this`systemUsers, this`pgUsers, this`secrets, this`endpoints, this`services,
               this`statefulset, this`podDisruptionBudget, this`calls
      ensures OrdersFit(s, st, w, o)
      ensures r == SyncRun(s, st, w, o)
      ensures err == r.err && Fields() == r.next && calls == old(calls) + r.calls
    {
      o := Orders([], [], []);
      var e := InitUsers(w.users);
      if e.Fail? {
        assert calls == old(calls) + [];
        err := Fail(AtStage(UsersStage, e.error));
      } else {
        ghost var secrets: seq<string>;
        e, secrets := SyncSecrets(w.secretUsers, SecretStep(w.secrets), w.secrets);
        ghost var sec := RunSecrets(secrets, Loaded(st, w), w.secrets);
        assert e == sec.err && calls == old(calls) + sec.calls && Fields() == st.(users := sec.next);
        o := o.(secrets := secrets);
        if e.Fail? {
          err := Fail(AtStage(SecretsStage, e.error));
        } else {
          ghost var creates: seq<string>, alters: seq<string>, t: PassResult;
          err, creates, alters, t := ServicesOnward(w, s, st.(users := sec.next));
          ConcatAssoc(old(calls), sec.calls, t.calls);
          o := o.(creates := creates, alters := alters);
          ghost var early, late := EarlyOf(st, w, o.secrets), LateOf(s, st.statefulset, w, creates, alters);
          assert early.sec == sec;
          ChainFromServices(s, st, w, early, late);
          assert SyncRun(s, st, w, o) == PassResult(t.err, sec.calls + t.calls, t.next);
        }
      }
      r := SyncRun(s, st, w, o);
    }

    /** One reconciliation pass against the new manifest. The manifest is
        stored first; the stages then run as SyncRun describes on the fields
        before the pass (so SyncRunFailFast, SyncRunFields and
        SyncRunOrdered say which stage's error ends it and what each field
        becomes), and on the way out the status is written: SyncFailed
        after a failure, Running after a success unless the cluster is
        Running already. `log` is every call of the pass: the calls of the
        stages in stage order, then the status write. */
    method Sync(newSpec: ClusterSpec, w: World) returns (err: Outcome, ghost o: Orders, ghost r: PassResult, ghost log: seq<Call>)
      modifies this`spec, this`status, this`systemUsers, this`pgUsers, this`secrets, this`endpoints, this`services,
               this`statefulset, this`podDisruptionBudget, this`calls
      ensures spec == newSpec
      ensures OrdersFit(PassSettings(), old(Fields()), w, o)
      ensures r == SyncRun(PassSettings(), old(Fields()), w, o)
      ensures err == r.err && Fields() == r.next
      ensures status == if err.Fail? then SyncFailed else Running
      ensures calls == old(calls) + log
      ensures log == r.calls + (if err.Fail? || old(status) != Running then [SetStatus(status)] else [])
      ensures StageOrdered(log) && NoneAt(r.calls, StatusStage)
      ensures err.Fail? ==> err.error.AtStage? && err.error.stage != StatusStage && UpTo(r.calls, err.error.stage)
    {
      spec := newSpec;
      ghost var s, st := PassSettings(), Fields();
      assert st == old(Fields());
      err, o, r := RunStages(w, s, st);
      ghost var statusCalls := WriteStatus(err);
      log := r.calls + statusCalls;
      ConcatAssoc(old(calls), r.calls, statusCalls);
      PassThenStatus(s, st, w, o, statusCalls);
      assert s == PassSettings();
    }

    /** The deferred status write of Sync: SyncFailed after a failure;
        after a success, Running, written only when the cluster is not
        Running already. */
    method WriteStatus(err: Outcome) returns (ghost statusCalls: seq<Call>)
      modifies this`status, this`calls
      ensures status == if err.Fail? then SyncFailed else Running
      ensures statusCalls == if err.Fail? || old(status) != Running then [SetStatus(status)] else []
      ensures calls == old(calls) + statusCalls
      ensures AllAt(statusCalls, StatusStage)
    {
      statusCalls := [];
      if err.Fail? {
        StoreStatus(SyncFailed);
        statusCalls := [SetStatus(SyncFailed)];
      } else if status != Running {
        StoreStatus(Running);
        statusCalls := [SetStatus(Running)];
      }
    }

    /** setStatus: the new status is stored and written to the cluster's
        resource. A failure to write it is only logged. */
    method StoreStatus(next: ClusterStatus)
      modifies this`status, this`calls
      ensures status == next && calls == old(calls) + [SetStatus(next)]
    {
      status := next;
      calls := calls + [SetStatus(next)];
    }

    /** Appends the calls a stage-level function returned to the log. */
    method Record(stageCalls: seq<Call>)
      modifies this`calls
      ensures calls == old(calls) + stageCalls
    {
      calls := calls + stageCalls;
    }
  }
}
