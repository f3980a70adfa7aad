/** syncSecrets: one credential secret per user. A missing secret is created
    and cached; a secret that already exists is reconciled with the
    in-memory user record, in exactly one direction decided by the user's
    origin.

    This module holds one secret's step (`SyncSecret`) and the pass over all
    secrets in a chosen order (`RunSecrets`), with the properties proved
    about them; the imperative stage is `ClusterSync.Cluster.SyncSecrets`. */
module Secrets {
  import opened Results
  import opened Objects

  /** constants.SuperuserKeyName and constants.ReplicationUserKeyName: the
      keys of the two system users in c.systemUsers. */
  const SuperuserKeyName := "superuser"
  const ReplicationUserKeyName := "replication"

  /** Who owns a user's password; OriginUnknown is Go's zero value. */
  datatype Origin = OriginUnknown | OriginSystem | OriginInfrastructure | OriginManifest

  datatype PgUser = PgUser(name: string, password: string, origin: Origin)

  type UserMap = map<string, PgUser>

  /** The zero PgUser, which a Go map lookup of a missing key returns. */
  const ZeroUser := PgUser("", "", OriginUnknown)

  /** A Go map lookup: the entry, or the zero value when it is missing. */
  function Lookup(m: UserMap, key: string): (u: PgUser)
    ensures key in m ==> u == m[key]
    ensures key !in m ==> u == ZeroUser
  {
    if key in m then m[key] else ZeroUser
  }

  /** What the backend answers, per username: the Create of the user's
      secret spec, the Get of the existing secret, and the Update that
      overwrites it with the spec. */
  datatype SecretsWorld = SecretsWorld(
    create: string -> Res<Secret>,
    get: string -> Res<Secret>,
    update: string -> Outcome)

  /** The cluster fields syncSecrets reads and writes: c.systemUsers,
      c.pgUsers and c.Secrets (keyed by UID). */
  datatype SecretsState = SecretsState(systemUsers: UserMap, pgUsers: UserMap, secrets: map<string, Secret>)

  /** The result of syncing some secrets: the new state, the calls made and
      the error, if any. */
  datatype Step = Step(next: SecretsState, calls: seq<Call>, err: Outcome)

  /** Lines 384-393: the map and key under which the user named `username`
      is kept. The superuser and the replication user are found by name among
      the system users and stored under their key there; every other user is
      kept in the manifest's user map under its own name. */
  function ResolveUser(username: string, systemUsers: UserMap): (r: (bool, string))
    ensures r.0 && r.1 == SuperuserKeyName <==> username == Lookup(systemUsers, SuperuserKeyName).name
    ensures (r.0 && r.1 == ReplicationUserKeyName) <==>
              (username != Lookup(systemUsers, SuperuserKeyName).name &&
               username == Lookup(systemUsers, ReplicationUserKeyName).name)
    ensures !r.0 <==> (username != Lookup(systemUsers, SuperuserKeyName).name &&
                       username != Lookup(systemUsers, ReplicationUserKeyName).name)
    ensures !r.0 ==> r.1 == username
  {
    if username == Lookup(systemUsers, SuperuserKeyName).name then (true, SuperuserKeyName)
    else if username == Lookup(systemUsers, ReplicationUserKeyName).name then (true, ReplicationUserKeyName)
    else (false, username)
  }

  /** The secret exists and belongs to the user: the user record is found,
      and either the secret is overwritten from an infrastructure user whose
      password changed, or the secret's password is copied into the record. */
  function Reconcile(username: string, current: Secret, st: SecretsState, w: SecretsWorld, calls: seq<Call>): Step
  {
    var (system, key) := ResolveUser(username, st.systemUsers);
    var userMap := if system then st.systemUsers else st.pgUsers;
    var pwdUser := Lookup(userMap, key);
    if pwdUser.password != current.password && pwdUser.origin == OriginInfrastructure then
      var written := calls + [UpdateSecret(username)];
      match w.update(username)
      case Fail(e) => Step(st, written, Fail(Wrapped(e)))
      case Pass => Step(st, written, Pass)
    else
      var adopted := pwdUser.(password := current.password);
      if system then Step(st.(systemUsers := st.systemUsers[key := adopted]), calls, Pass)
      else Step(st.(pgUsers := st.pgUsers[key := adopted]), calls, Pass)
  }

  /** One iteration of the loop over the generated secrets, for the user
      named `username`. */
  function SyncSecret(username: string, st: SecretsState, w: SecretsWorld): Step
  {
    match w.create(username)
    case Ok(secret) => Step(st.(secrets := st.secrets[secret.uid := secret]), [CreateSecret(username)], Pass)
    case Err(reason) =>
      if reason != AlreadyExists then Step(st, [CreateSecret(username)], Fail(Wrapped(Api(reason))))
      else
        var fetched := [CreateSecret(username), GetSecret(username)];
        match w.get(username)
        case Err(r) => Step(st, fetched, Fail(Wrapped(Api(r))))
        case Ok(current) =>
          if username != current.username then Step(st, fetched, Pass)
          else Reconcile(username, current, st, w, fetched)
  }

  /** A loop over `order` that runs `step` for each user on the state the
      previous one left, and stops at the first error. */
  function SecretsLoop(order: seq<string>, st: SecretsState, step: (string, SecretsState) -> Step): Step
  {
    if order == [] then Step(st, [], Pass)
    else
      var first := step(order[0], st);
      if first.err.Fail? then first
      else
        var rest := SecretsLoop(order[1..], first.next, step);
        Step(rest.next, first.calls + rest.calls, rest.err)
  }

  /** One secret's step, as a step of SecretsLoop. */
  function SecretStep(w: SecretsWorld): (string, SecretsState) -> Step
  {
    (username, st) => SyncSecret(username, st, w)
  }

  /** `step` is one secret's step in the world `w`. The trigger lets the
      equation be used only where SyncSecret itself is mentioned, so a loop
      over `step` is reasoned about without unfolding each step. */
  ghost predicate RunsSecrets(step: (string, SecretsState) -> Step, w: SecretsWorld)
  {
    forall username, st {:trigger SyncSecret(username, st, w)} :: step(username, st) == SyncSecret(username, st, w)
  }

  /** The loop over the generated secrets, taken in the order `order`: it
      stops at the first error. */
  function RunSecrets(order: seq<string>, st: SecretsState, w: SecretsWorld): Step
  {
    SecretsLoop(order, st, SecretStep(w))
  }

  /** A failing step changes nothing, and every step only calls for its own
      user's secret. */
  lemma SyncSecretFrame(username: string, st: SecretsState, w: SecretsWorld)
    ensures var s := SyncSecret(username, st, w);
            && (s.err.Fail? ==> s.next == st)
            && 1 <= |s.calls| <= 3 && s.calls[0] == CreateSecret(username)
            && (forall i :: 0 <= i < |s.calls| ==>
                  s.calls[i] in {CreateSecret(username), GetSecret(username), UpdateSecret(username)})
  {
    var s := SyncSecret(username, st, w);
    if w.create(username) == Err(AlreadyExists) && w.get(username).Ok? &&
       username == w.get(username).value.username {
      var (system, key) := ResolveUser(username, st.systemUsers);
      var pwdUser := Lookup(if system then st.systemUsers else st.pgUsers, key);
      if pwdUser.password != w.get(username).value.password && pwdUser.origin == OriginInfrastructure {
        assert s.calls == [CreateSecret(username), GetSecret(username), UpdateSecret(username)];
      }
    }
  }

  /** A created secret is cached under its UID, and nothing else changes. */
  lemma CreatedSecretCached(username: string, st: SecretsState, w: SecretsWorld)
    requires w.create(username).Ok?
    ensures var secret := w.create(username).value;
            SyncSecret(username, st, w) ==
              Step(st.(secrets := st.secrets[secret.uid := secret]), [CreateSecret(username)], Pass)
  {
  }

  /** A secret that exists but names another role is skipped: no error, no
      change, no write. */
  lemma MismatchSkipped(username: string, st: SecretsState, w: SecretsWorld)
    requires w.create(username) == Err(AlreadyExists) && w.get(username).Ok?
    requires w.get(username).value.username != username
    ensures SyncSecret(username, st, w) == Step(st, [CreateSecret(username), GetSecret(username)], Pass)
  {
  }

  /** A secret that exists and belongs to the user is reconciled in exactly
      one direction: for an infrastructure user whose password differs from
      the secret's, the secret is overwritten and both user maps stay as
      they are; otherwise the secret is not written and the user record, in
      the map and under the key ResolveUser picks, takes the secret's
      password, with everything else unchanged. */
  lemma ExactlyOneDirection(username: string, st: SecretsState, w: SecretsWorld)
    requires w.create(username) == Err(AlreadyExists) && w.get(username).Ok?
    requires w.get(username).value.username == username
    ensures var s := SyncSecret(username, st, w);
            var current := w.get(username).value;
            var (system, key) := ResolveUser(username, st.systemUsers);
            var pwdUser := Lookup(if system then st.systemUsers else st.pgUsers, key);
            var overwrite := pwdUser.password != current.password && pwdUser.origin == OriginInfrastructure;
            && s.next.secrets == st.secrets
            && (overwrite <==> UpdateSecret(username) in s.calls)
            && (overwrite ==> s.next == st && (s.err.Pass? <==> w.update(username).Pass?))
            && (!overwrite ==>
                  && s.err == Pass
                  && (system ==> s.next.systemUsers == st.systemUsers[key := pwdUser.(password := current.password)]
                                 && s.next.pgUsers == st.pgUsers)
                  && (!system ==> s.next.pgUsers == st.pgUsers[key := pwdUser.(password := current.password)]
                                  && s.next.systemUsers == st.systemUsers))
  {
    var (system, key) := ResolveUser(username, st.systemUsers);
    var pwdUser := Lookup(if system then st.systemUsers else st.pgUsers, key);
    var current := w.get(username).value;
    var s := SyncSecret(username, st, w);
    assert s == Reconcile(username, current, st, w, [CreateSecret(username), GetSecret(username)]);
  }

  /** Any other answer to the create is an error, and nothing changes. */
  lemma CreateFailureFails(username: string, st: SecretsState, w: SecretsWorld)
    requires w.create(username).Err? && w.create(username).reason != AlreadyExists
    ensures var s := SyncSecret(username, st, w);
            s.err.Fail? && s.next == st && s.calls == [CreateSecret(username)]
  {
  }

  /** Extending the order by one user runs that user's step on the state the
      earlier ones left, provided they raised no error. */
  lemma {:induction false} SecretsLoopSnoc(order: seq<string>, username: string, st: SecretsState,
                                           step: (string, SecretsState) -> Step)
    requires SecretsLoop(order, st, step).err.Pass?
    ensures var before := SecretsLoop(order, st, step);
            var last := step(username, before.next);
            SecretsLoop(order + [username], st, step) == Step(last.next, before.calls + last.calls, last.err)
  {
    if order == [] {
      var last := step(username, st);
      assert [username][1..] == [];
      assert last.calls + [] == last.calls;
      assert [] + last.calls == last.calls;
    } else {
      var first := step(order[0], st);
      assert (order + [username])[0] == order[0];
      assert (order + [username])[1..] == order[1..] + [username];
      SecretsLoopSnoc(order[1..], username, first.next, step);
      var rest := SecretsLoop(order[1..], first.next, step);
      var last := step(username, rest.next);
      assert first.calls + (rest.calls + last.calls) == (first.calls + rest.calls) + last.calls;
    }
  }

  /** A call about the secret of one of `users`. */
  predicate SecretCallFor(c: Call, users: seq<string>)
  {
    (c.CreateSecret? || c.GetSecret? || c.UpdateSecret?) && c.user in users
  }

  /** The pass stops at the first error and leaves the state the earlier
      secrets produced; every call is a secrets-stage call about a user of
      `order`; the secrets cached before stay cached. */
  lemma {:induction false} RunSecretsContract(order: seq<string>, st: SecretsState, w: SecretsWorld)
    ensures var r := RunSecrets(order, st, w);
            && (forall i :: 0 <= i < |r.calls| ==> SecretCallFor(r.calls[i], order))
            && AllAt(r.calls, SecretsStage)
            && st.secrets.Keys <= r.next.secrets.Keys
            && (order == [] ==> r == Step(st, [], Pass))
  {
    if order != [] {
      var first := SyncSecret(order[0], st, w);
      assert SecretStep(w)(order[0], st) == first;
      SyncSecretFrame(order[0], st, w);
      RunSecretsContract(order[1..], first.next, w);
      if first.err.Pass? {
        var rest := RunSecrets(order[1..], first.next, w);
        var r := RunSecrets(order, st, w);
        assert r.calls == first.calls + rest.calls;
        forall i | 0 <= i < |r.calls| ensures SecretCallFor(r.calls[i], order) && StageOf(r.calls[i]) == SecretsStage {
          if i < |first.calls| {
            assert r.calls[i] == first.calls[i];
          } else {
            assert r.calls[i] == rest.calls[i - |first.calls|];
            assert SecretCallFor(rest.calls[i - |first.calls|], order[1..]);
          }
        }
      }
    }
  }
}
