# Cluster sync of the Postgres operator, modelled in Dafny

This project models `Cluster.Sync` of the Postgres operator, together with the
stages it runs. `Cluster.Sync` is one reconciliation pass: it makes the
Kubernetes objects of a PostgreSQL cluster match the cluster manifest.

The pass runs its stages in a fixed order:

1. initialise the users;
2. sync the credential secrets;
3. sync the master and replica endpoints and services;
4. apply the service actions;
5. resize the volumes;
6. sync the statefulset, including the cluster-wide PostgreSQL parameters
   set through Patroni and the rolling update of the pods;
7. sync the database roles and the databases, unless database access is
   disabled or the cluster has no instances;
8. sync the pod disruption budget.

The first fatal error ends the pass. The deferred status update then marks
the cluster `SyncFailed`, or `Running` on success.

## How the model is built

- **The backend is abstract.** Every Kubernetes, Patroni and database call is
  an answer taken from a scripted "world" value. An answer is `Ok(x)`, or
  `Err(reason)` with the reason `NotFound`, `AlreadyExists` or another
  error.
- **Generators and comparators are inputs.** The object generators and
  comparators, and the helpers whose source is not part of this model,
  become inputs of the world (uninterpreted functions or answers).
- **Every call is logged.** Each call the pass makes is appended to the
  `calls` log of the `Cluster` object. This is how call order ("volumes are
  resized before any statefulset call") and absence ("no write when nothing
  differs") are stated.
- **`ClusterSync.Cluster` is a class.** It holds the fields the pass updates
  in place: spec, status, the user maps, the cached secrets, endpoints,
  services, statefulset and pod disruption budget, and the call log.
- **Each stage method has a specification function.** A pure function in the
  stage's own module computes the stage's result, new state and calls. The
  method is proved to leave exactly that state. The source's promises are
  then lemmas about the function.
- **The whole pass has a specification function too.** `SyncPass.SyncRun`
  computes one pass from the fields before it: each stage's function runs
  on the part of the cluster it owns, and the pass stops at the first stage
  that fails. `Sync` is proved to compute exactly that. Lemmas about
  `SyncRun` then state which stage's error ends the pass, what each field
  becomes and in what order the calls come.
- **Loops that change no cluster field are module-level methods.** These are
  `applyActions`, `checkAndSetGlobalPostgreSQLConfiguration` and the two
  loops of `syncDatabases`. Each is proved equal to a reference function.
- **Map iteration order is chosen, not assumed.** Go's map loops (secrets,
  bootstrap-only options, databases to create or alter) pick an element
  with `:|`. The order actually taken is returned as a ghost sequence.
- **Errors keep their shape, not their text.** A Go error is one of four
  forms:
  - the raw API error, which still carries its reason;
  - an error wrapped with `%v`, which no longer carries the reason;
  - a bare message;
  - the stage error `Sync` builds.

  Message texts are not modelled.

Modules:

| Module | File | Contents |
|---|---|---|
| `Results` | results.dfy | backend results, errors, stages |
| `Objects` | objects.dfy | cluster objects, the call log, stage-order predicates |
| `Actions` | actions.dfy | `applyActions` |
| `GlobalConfig` | globalconfig.dfy | `checkAndSetGlobalPostgreSQLConfiguration` |
| `StatefulSetSync` | statefulset.dfy | `syncStatefulSet` as a function, and its lemmas |
| `Secrets` | secrets.dfy | `syncSecrets` for one secret and for a sequence of them |
| `Databases` | databases.dfy | `syncRoles` and `syncDatabases` |
| `Volumes` | volumes.dfy | `syncVolumes` |
| `PodDisruptionBudgets` | pdb.dfy | `samePDBWith` |
| `ObjectSync` | objectsync.dfy | `syncEndpoint`, `syncService`, `syncServices` and `syncPodDisruptionBudget` as functions |
| `SyncPass` | pass.dfy | one pass as a function of the backend's answers, and its lemmas |
| `ClusterSync` | cluster.dfy | the `Cluster` class, its stage methods and `Sync` |

## Model

| member | source | states |
|---|---|---|
| ClusterSync.Cluster.Sync | pkg/cluster/sync.go:19-100 | The manifest is stored first. The stages then compute exactly `SyncRun` on the fields before the pass, with the statefulset error checked by `ResourceAlreadyExists` as written: the same error, the same calls, and the same final user maps, secrets, endpoints, services, statefulset and budget caches. The map loops take orders they can take (`OrdersFit`). On the way out the status becomes `SyncFailed` on error and `Running` otherwise; it is written on error, or when it was not `Running` already. The whole log is in stage order, with the status write last. A failure names a stage before the status write, and no call of a later stage was made. |
| ClusterSync.PassThenStatus | pkg/cluster/sync.go:26-33 | The calls of a pass followed by the status write are in stage order. An error names a stage before the status write, and no call of a later stage comes before the status write. |
| ClusterSync.Cluster.RunStages | pkg/cluster/sync.go:35-97 | The stages from initUsers to the budget compute exactly `SyncRun` on the fields before them: the same error, calls and final fields. An initUsers failure ends the pass before any call. The orders the secrets loop and the database loops take are orders they can take: each generated user once, all of them once the secrets stage succeeded; and the database plan, in full once the databases stage succeeded. |
| ClusterSync.Cluster.ServicesOnward | pkg/cluster/sync.go:49-97 | From syncServices on, exactly `FromServices`. A services failure ends the pass with that stage's error and no later call. Otherwise applyActions receives the actions syncServices returned. |
| ClusterSync.Cluster.ActionsOnward | pkg/cluster/sync.go:54-97 | From applyActions on, exactly `FromActions`. The actions are processed unless in dry-run mode, then the volumes are synced. A volumes failure ends the pass with that stage's error, before any statefulset call. |
| ClusterSync.Cluster.LateStages | pkg/cluster/sync.go:71-97 | From syncStatefulSet on, exactly `LateChain` with the as-written check. A statefulset error ends the pass unless `ResourceAlreadyExists` holds of it, which it never does. |
| ClusterSync.Cluster.RunStatefulSetStage | pkg/cluster/sync.go:72 | The result, calls and cached statefulset are those of `StatefulSetRun`. No other field changes. |
| ClusterSync.Cluster.TailStages | pkg/cluster/sync.go:79-97 | Exactly `LateTail`. The database stages run only when database access is enabled and there are instances. A database stage failure ends the pass before the budget. Otherwise the budget stage runs, and its failure is the pass's error. |
| ClusterSync.Cluster.DatabaseStages | pkg/cluster/sync.go:80-91 | Roles, then databases. A roles failure ends the pass with the roles error, before any databases call. Otherwise the error is that of syncDatabases. The calls are those of syncRoles followed by those of syncDatabases. The database loops take orders of the plan, in full when the stage succeeds. |
| SyncPass.SyncRunFailFast | pkg/cluster/sync.go:35-97 | The pass fails with the error of stage S exactly when every stage before S passed and S's own function failed with that error. It succeeds exactly when every stage passed. A skipped database stage and applyActions count as passed. |
| SyncPass.SyncRunFields | pkg/cluster/sync.go:35-97 | Each field is the one its stage's function leaves once the pass reaches that stage, and is untouched otherwise. The user maps and secrets are those of the secrets loop when initUsers succeeds. |
| SyncPass.SyncRunOrdered | pkg/cluster/sync.go:35-97 | The calls are in stage order. An error names the stage that raised it, and no call of a later stage was made. A failing initUsers makes no call. Skipped database stages make no call. A successful pass read the budget and, when the database stages ran, opened both connections. |
| SyncPass.StatefulSetErrorEndsPass | pkg/cluster/sync.go:72-77 | As written, once the pass reaches syncStatefulSet, any error of it is the pass's error, marked with the statefulset stage. The create race (the get answers `NotFound`, the create `AlreadyExists`) included. |
| SyncPass.CreateRaceTolerated | pkg/cluster/sync.go:72-77 | With the check on the root cause, the create race does not end the pass at the statefulset stage, and the pass reaches the database stages. |
| ClusterSync.Cluster.WriteStatus | pkg/cluster/sync.go:26-33 | The status becomes `SyncFailed` on error. On success it becomes `Running`, and a status write is made only if it was not `Running` already. |
| ClusterSync.StatusLast | pkg/cluster/sync.go:26-33 | The deferred status write comes after every stage call, and the failing stage is one before it. |
| ClusterSync.Cluster.InitUsers | pkg/cluster/sync.go:35-38 | The user maps are replaced by the ones initUsers built and the pass goes on. On error the maps are unchanged and the error is returned. |
| ClusterSync.Cluster.SyncSecrets | pkg/cluster/sync.go:367-417 | Every user with a generated secret is handled once, in some order, until the first error. The new users, secrets and calls are those of the fold `SecretsLoop` over that order. |
| ClusterSync.Cluster.SyncUserSecret | pkg/cluster/sync.go:371-413 | One loop iteration: the state and calls are those of `SyncSecret`. |
| ClusterSync.Cluster.SyncEndpoint | pkg/cluster/sync.go:173-206 | The endpoint cache and calls are those of `EndpointRun`. |
| ClusterSync.Cluster.SyncService | pkg/cluster/sync.go:137-171 | The service cache, the actions and the calls are those of `ServiceRun`. |
| ClusterSync.Cluster.SyncRole | pkg/cluster/sync.go:103-114 | One role: endpoint, then service. Its actions are those of the service when both pass, and none on error. |
| ClusterSync.Cluster.SyncServices | pkg/cluster/sync.go:102-117 | The caches, calls and actions are those of the role loop, which keeps only the actions of the last role. |
| ClusterSync.Cluster.SyncStatefulSet | pkg/cluster/sync.go:243-328 | Result, cached statefulset and calls are those of `StatefulSetRun`. Every call made belongs to the statefulset stage. |
| ClusterSync.Cluster.CreateMissingStatefulSet | pkg/cluster/sync.go:253-275 | The create path as `CreatePath` describes it: list pods, create, wait, raise the marker when old pods were found, then finish. |
| ClusterSync.Cluster.SyncRunningStatefulSet | pkg/cluster/sync.go:277-305 | The update path as `UpdatePath` describes it: merge the marker, cache the running set, compare, update or replace, then finish. |
| ClusterSync.Cluster.FinishStatefulSet | pkg/cluster/sync.go:308-327 | Global configuration, then the rolling update when the marker is pending, as `Finish` describes. |
| ClusterSync.Cluster.SyncPodDisruptionBudget | pkg/cluster/sync.go:208-241 | The cached budget and calls are those of `PdbRun`. |
| ClusterSync.Cluster.StoreStatus | pkg/cluster/sync.go:29-31 | setStatus: the status is the new one and its write is logged. |
| Actions.ApplyActions | pkg/cluster/sync.go:119-135 | It always returns nil. In dry-run mode nothing is processed. Otherwise every action is processed in order, and the failures reported are those of `Failures`, so a failing action does not stop the rest. |
| Actions.FailuresAreTheFailingActions | pkg/cluster/sync.go:128-132 | An action is reported as failed exactly when its Process() fails, and no more failures than actions are reported. |
| GlobalConfig.CheckAndSetGlobalConfiguration | pkg/cluster/sync.go:332-365 | The options collected are exactly the bootstrap-only parameters with their values. The result and calls are those of `ConfigRun`. |
| GlobalConfig.ConfigRunContract | pkg/cluster/sync.go:334-364 | Every Patroni call sends exactly the bootstrap-only subset. An empty subset returns nil and calls nothing. Otherwise the pods are listed first, and an empty listing is an error. Pods are tried in order up to and including the first that accepts. The result is nil if and only if the subset is empty or some pod accepts. |
| GlobalConfig.TryPodsStopsAtFirstSuccess | pkg/cluster/sync.go:351-362 | The pod loop succeeds if and only if some pod accepts. It calls exactly the pods before the first acceptance and that pod, or all pods when none accepts. |
| GlobalConfig.TryPodsSkipsRefusals | pkg/cluster/sync.go:351-360 | A run of refusing pods is called once each and passed over. |
| GlobalConfig.ConfigRunCalls | pkg/cluster/sync.go:344-362 | The only calls are the pod listing and Patroni calls. |
| StatefulSetSync.GetFailureWritesNothing | pkg/cluster/sync.go:248-252 | A get error other than `NotFound` fails after the get alone. No write is made, the cache is untouched and no marker is raised. |
| StatefulSetSync.RollingUpdateMarker | pkg/cluster/sync.go:270-305 | The marker is pending exactly when one of three holds: old pods were found after a successful re-creation; the persisted or cached marker was set; or an update that needs a rolling update was found. Every written statefulset carries the marker. The marker is lowered only as the last call, right after a successful pod re-creation. |
| StatefulSetSync.UpdatePathMarker | pkg/cluster/sync.go:277-305 | The same marker facts for the update path. |
| StatefulSetSync.CreatePathMarker | pkg/cluster/sync.go:253-275 | The same marker facts for the create path, which writes no update or replace. |
| StatefulSetSync.WriteOnlyOnUpdate | pkg/cluster/sync.go:277-305 | On the update path the running statefulset is cached. A generate error fails before any write. An update or replace is made if and only if the comparison asks for an update. The write is a replace exactly when the comparison asks for one, and it is the single write, right after the get. |
| StatefulSetSync.UpdatePathNoWrite | pkg/cluster/sync.go:289-305 | No update is needed, so no update or replace call is made. |
| StatefulSetSync.UpdatePathWrite | pkg/cluster/sync.go:289-305 | An update is needed, so exactly one write is made, right after the get, and `cmp.replace` selects replace over update. |
| StatefulSetSync.ConfigurationBeforeRecreation | pkg/cluster/sync.go:308-326 | Every pod listing and Patroni call comes before the pod re-creation. Pods are re-created only when the marker is pending and the global configuration succeeded. A successful pass with the marker pending ends with the re-creation and then the marker being cleared. |
| StatefulSetSync.FinishCalls | pkg/cluster/sync.go:308-327 | The calls after the paths are the configuration calls, then the re-creation when pending. The result is nil exactly when the configuration succeeds and, when pending, the re-creation does. A failure to clear the marker is not an error. |
| StatefulSetSync.StatefulSetRunStage | pkg/cluster/sync.go:243-328 | Every call of syncStatefulSet belongs to the statefulset stage. |
| StatefulSetSync.NeverToleratedAsWritten | pkg/cluster/sync.go:72-77 | As written, no error syncStatefulSet returns is ever accepted by the `AlreadyExists` check in Sync, not even when the create was refused because the statefulset exists. |
| StatefulSetSync.CreateConflictTolerated | pkg/cluster/sync.go:72-77 | With the check on the root cause, a create refused with `AlreadyExists` is tolerated, and a get error of another kind is not. |
| Secrets.ResolveUser | pkg/cluster/sync.go:384-392 | The superuser name resolves to the superuser key and the replication user's name to the replication key, both in the system users. Any other name stays as it is, in the manifest users. |
| Secrets.MismatchSkipped | pkg/cluster/sync.go:379-382 | A secret whose username differs is skipped with no change and no error. |
| Secrets.ExactlyOneDirection | pkg/cluster/sync.go:393-404 | For an existing secret, exactly one direction applies. An infrastructure user whose password differs gets the secret updated, and the users are unchanged. Otherwise the in-memory password takes the secret's password in the map the user resolved to, and the other map is unchanged. The secret cache is never touched here. |
| Secrets.CreatedSecretCached | pkg/cluster/sync.go:406-412 | A successful create caches the new secret under its UID, and nothing else changes. |
| Secrets.CreateFailureFails | pkg/cluster/sync.go:407-410 | A create error other than `AlreadyExists` fails with no change. |
| Secrets.SyncSecretFrame | pkg/cluster/sync.go:371-413 | An error leaves the state unchanged. The calls start with the create and concern only that user's secret. |
| Secrets.RunSecretsContract | pkg/cluster/sync.go:367-417 | The whole loop calls only the secrets of the users handled, all in the secrets stage. No cached secret is dropped. No user means no change. |
| Databases.SyncRolesContract | pkg/cluster/sync.go:419-452 | The connection is opened first and, once open, closed last on every exit. The requests are executed only when reading the users succeeded. The stage succeeds exactly when open, read and execute do. |
| Databases.DiffPartitions | pkg/cluster/sync.go:503-510 | The create map holds exactly the declared databases that are absent, with their declared owner. The alter map holds exactly the present ones whose owner differs. The two are disjoint, and databases not declared are in neither. Both are empty exactly when nothing differs. |
| Databases.DiffDatabases | pkg/cluster/sync.go:503-510 | The diff loop builds exactly those two maps. |
| Databases.ExecuteEach | pkg/cluster/sync.go:516-525 | One execution loop: each entry at most once, in some order. On success every entry was executed. The result is that of the first failure, or nil. |
| Databases.ExecuteAllStopsAtFirstFailure | pkg/cluster/sync.go:516-525 | A batch succeeds exactly when every statement does. Otherwise it stops at the first failing statement, and its error is the result. |
| Databases.ExecutePlan | pkg/cluster/sync.go:516-525 | All creates run before any alter. The first failure aborts the rest. At most one statement runs per database in the two maps, and on success exactly one. |
| Databases.SyncDatabases | pkg/cluster/sync.go:483-528 | An open failure returns an error with nothing else called. Once open, the connection is closed last. A read error fails before any statement. Otherwise the maps are the diff, the statements executed are the creates and then the alters, up to the first failure, and the calls are exactly those. When both maps are empty nothing is executed. |
| Volumes.SyncVolumesContract | pkg/cluster/sync.go:455-472 | The sizes are compared first. A resize is made exactly when one is needed. The stage succeeds exactly when the comparison and any resize do. |
| PodDisruptionBudgets.SamePdbWith | pkg/cluster/sync.go:474-481 | A budget matches exactly when its spec equals the cached one. The reason is empty exactly on a match, and otherwise the fixed mismatch text. |
| PodDisruptionBudgets.SamePdbWithIsSpecEquivalence | pkg/cluster/sync.go:474-481 | Matching is reflexive, symmetric and transitive, and ignores everything but the spec. |
| ObjectSync.EndpointRunContract | pkg/cluster/sync.go:173-206 | The result is an error exactly when the get fails with something other than `NotFound`, or the create fails with something other than `AlreadyExists`. A create is made exactly after `NotFound`. The cache is kept only on a get error. A found endpoint is cached with no further call. What is cached is an endpoint the backend returned. |
| ObjectSync.ServiceRunContract | pkg/cluster/sync.go:137-171 | A found service is cached, and a missing one caches nil. A get error other than `NotFound` fails and keeps the cache. A matching service yields no action. Otherwise the update's or the create's actions are returned. The result is an error exactly in those three failure cases. |
| ObjectSync.RoleRunContract | pkg/cluster/sync.go:103-114 | One role fails exactly when its endpoint or service fails, and then returns no action. On success it returns the service's actions. The other role's cache entries are untouched. |
| ObjectSync.ServicesRunKeepsLastRole | pkg/cluster/sync.go:102-117 | syncServices returns only the replica's actions when both roles pass, and none on error. A master failure stops before any replica call and leaves the replica entries unchanged. |
| ObjectSync.PdbRunContract | pkg/cluster/sync.go:208-241 | The budget is read first. It is updated, with the generated budget, exactly when it exists and differs. It is created exactly when missing. A found budget is cached. A create refused with `AlreadyExists` is not an error. The result is an error exactly in the three failure cases. |
| Objects.OrderedUpToMeans | pkg/cluster/sync.go:35-98 | The recursive ordering predicate the stage methods keep is exactly "the calls are in stage order and none is after stage s". |
| Results.RootCause | pkg/cluster/sync.go:72-77 | Unwrapping an error reaches an error that is neither wrapped nor a stage error. |

## Left out

- Locking (`c.mu`): the model is one single-threaded call.
- Logging, `setProcessName` and every message text: errors keep only their
  shape.
- The client mechanics of Kubernetes, Patroni (`SetPostgresParameters`) and
  the database (connection, SQL): each call is one scripted answer.
- `waitStatefulsetPodsReady` and `recreatePods` poll with timeouts. Each is
  one step that passes or fails.
- Helpers whose source is not part of this model are inputs: generate*,
  compareStatefulSetWith, SameService, SamePDB, updateService,
  createService, mergeRollingUpdateFlagUsingCache, getNumberOfInstances,
  databaseAccessDisabled, isBootstrapOnlyParameter, initUsers,
  generateUserSecrets, readPgUsersFromDatabase, the userSyncStrategy
  requests, volumesNeedResizing and resizeVolumes. The k8sutil predicates
  and the constants package are not part of this model.
- StatefulSetSync.MergedFlag: mergeRollingUpdateFlagUsingCache is taken to
  be the OR of the persisted marker and the cached statefulset's marker.
  Its source is not part of this model. The cached statefulset is the one
  read at the start of the pass. The marker writes of the pass do not update
  it, so the marker a later pass would merge is not modelled. The model
  covers one pass only.
- Caches and objects that those unseen helpers update are not modelled, for
  example the service an update or create stores.
- `isUpdate` of syncPodDisruptionBudget, which only feeds logging.
- The create answers of syncEndpoint and syncPodDisruptionBudget are
  assumed to return a non-nil object along with an `AlreadyExists` error.
  The `AlreadyExists` branches at pkg/cluster/sync.go:190 and :231 log a
  field of that object. With a nil object they would panic; the model
  treats those branches as the tolerated success the source intends.
- A failure to close the database connection is only logged, so it is not
  modelled.
- The result of clearing the rolling-update marker after the re-creation is
  ignored by the source. The model logs that call and ignores its result.
  The result of raising the marker on the create path is dropped as well.
- ClusterSync.Cluster.StoreStatus and ClusterSync.Cluster.WriteStatus: the
  status write always succeeds in the model, because setStatus is not part
  of this model and Sync does not look at its outcome.
- The error check after applyActions in Sync: applyActions returns nil on
  every path (`Actions.ApplyActions`), so the check never ends the pass and
  the model does not test it.
- ClusterSync.Cluster.Sync: the statefulset check is the one Sync writes,
  `ResourceAlreadyExists`. The corrected check on the root cause is a
  variant of `SyncPass.SyncRun` only, not of the `Cluster` methods.
- Go map iteration order is not assumed. The order taken is a ghost
  sequence that the contracts quantify over.
- ClusterSync.Cluster.SyncServices: generalised to any sequence of roles.
  Sync calls it with master then replica, the order of the source.
- ClusterSync.Cluster.SyncUserSecret and ClusterSync.Cluster.SyncRole take a
  ghost step function. The step function is only a proof device that names
  the stage's specification function.
- Secrets: the secret loop models only the Kubernetes calls and the
  in-memory maps. Which namespace and name a secret is written under is not
  modelled.

## Findings

| source | as written | input that shows it | evidently intended | confidence | as-written member | corrected member |
|---|---|---|---|---|---|---|
| pkg/cluster/sync.go:72-77 | Sync tolerates a statefulset error when `k8sutil.ResourceAlreadyExists(err)` holds. But every error syncStatefulSet returns is built with `fmt.Errorf("...: %v", err)`, which drops the API status, so the check can never hold (`StatefulSetSync.NeverToleratedAsWritten`). `Cluster.Sync` follows the code as written. | The statefulset get answers `NotFound`, the pods are listed, and the create answers `AlreadyExists`. The error returned is the wrapped `could not create missing statefulset`, and Sync aborts the pass. | A create that races another writer does not end the pass: the check looks at the root cause of the wrapped error (`StatefulSetSync.CreateConflictTolerated`); `SyncRun` with the `Corrected` check models that pass. | not executed | SyncPass.StatefulSetErrorEndsPass | SyncPass.CreateRaceTolerated |
