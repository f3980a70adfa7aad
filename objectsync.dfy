/** syncEndpoint, syncService, syncServices and syncPodDisruptionBudget: each
    object is fetched, and then either cached or created when missing, with a
    create that races another writer (AlreadyExists) tolerated.

    This module holds each stage as a function of the backend's answers and
    the properties proved about them; the imperative stages are methods of
    `ClusterSync.Cluster`. */
module ObjectSync {
  import opened Results
  import opened Objects

  /** What a stage does to one slot of the cluster's object cache: leave it
      alone, or set it (to nil when the value is None). */
  datatype Write<T> = Keep | Set(value: Option<T>)

  function ApplyWrite<T>(slot: Option<T>, w: Write<T>): Option<T>
  {
    match w
    case Keep => slot
    case Set(v) => v
  }

  function ApplyAt<T>(m: map<Role, Option<T>>, role: Role, w: Write<T>): (r: map<Role, Option<T>>)
    ensures w.Keep? ==> r == m
    ensures w.Set? ==> r == m[role := w.value]
  {
    match w
    case Keep => m
    case Set(v) => m[role := v]
  }

  // ---- syncEndpoint ----

  /** What the backend answers during syncEndpoint: the Get, the create and
      the second Get made when the create reports AlreadyExists. */
  datatype EndpointWorld = EndpointWorld(get: Res<Endpoint>, create: Res<Endpoint>, refetch: Res<Endpoint>)

  datatype EndpointStep = EndpointStep(err: Outcome, write: Write<Endpoint>, calls: seq<Call>)

  /** syncEndpoint(role). A failed second Get is only logged. */
  function EndpointRun(role: Role, w: EndpointWorld): EndpointStep
  {
    match w.get
    case Ok(ep) => EndpointStep(Pass, Set(Some(ep)), [GetEndpoint(role)])
    case Err(reason) =>
      if reason != NotFound then EndpointStep(Fail(Wrapped(Api(reason))), Keep, [GetEndpoint(role)])
      else
        match w.create
        case Ok(ep) => EndpointStep(Pass, Set(Some(ep)), [GetEndpoint(role), CreateEndpoint(role)])
        case Err(r) =>
          if r != AlreadyExists then
            EndpointStep(Fail(Wrapped(Api(r))), Set(None), [GetEndpoint(role), CreateEndpoint(role)])
          else
            var refetched := [GetEndpoint(role), CreateEndpoint(role), GetEndpoint(role)];
            match w.refetch
            case Ok(ep) => EndpointStep(Pass, Set(Some(ep)), refetched)
            case Err(_) => EndpointStep(Pass, Set(None), refetched)
  }

  /** syncEndpoint fails exactly when the Get fails otherwise than NotFound
      or the create fails otherwise than AlreadyExists; the endpoint is
      created exactly when the Get reports NotFound; the cache is left alone
      only when the Get fails otherwise than NotFound, and what is cached is
      an endpoint the backend returned, the one the Get found if it found
      one. */
  lemma EndpointRunContract(role: Role, w: EndpointWorld)
    ensures var s := EndpointRun(role, w);
            && (s.err.Fail? <==>
                  (w.get.Err? && w.get.reason != NotFound) ||
                  (w.get == Err(NotFound) && w.create.Err? && w.create.reason != AlreadyExists))
            && (CreateEndpoint(role) in s.calls <==> w.get == Err(NotFound))
            && (s.write.Keep? <==> w.get.Err? && w.get.reason != NotFound)
            && (w.get.Ok? ==> s.write == Set(Some(w.get.value)) && s.calls == [GetEndpoint(role)])
            && (s.write.Set? && s.write.value.Some? ==>
                  Ok(s.write.value.value) in {w.get, w.create, w.refetch})
            && (forall i :: 0 <= i < |s.calls| ==> s.calls[i] in {GetEndpoint(role), CreateEndpoint(role)})
  {
  }

  // ---- syncService ----

  /** What the backend and the helpers answer during syncService: the Get,
      the desired service (generateService), the comparison (SameService),
      and the actions updateService and createService prepare. */
  datatype ServiceWorld = ServiceWorld(
    get: Res<Service>,
    desired: Service,
    same: (Service, Service) -> bool,
    update: Result<seq<Action>>,
    create: Result<seq<Action>>)

  datatype ServiceStep = ServiceStep(err: Outcome, write: Write<Service>, actions: seq<Action>, calls: seq<Call>)

  /** syncService(role). NoActions is the empty sequence. */
  function ServiceRun(role: Role, w: ServiceWorld): ServiceStep
  {
    match w.get
    case Ok(svc) =>
      if w.same(svc, w.desired) then ServiceStep(Pass, Set(Some(svc)), [], [GetService(role)])
      else
        (match w.update
         case Success(actions) => ServiceStep(Pass, Set(Some(svc)), actions, [GetService(role)])
         case Failure(e) => ServiceStep(Fail(Wrapped(e)), Set(Some(svc)), [], [GetService(role)]))
    case Err(reason) =>
      if reason != NotFound then ServiceStep(Fail(Wrapped(Api(reason))), Keep, [], [GetService(role)])
      else
        match w.create
        case Success(actions) => ServiceStep(Pass, Set(None), actions, [GetService(role)])
        case Failure(e) => ServiceStep(Fail(Wrapped(e)), Set(None), [], [GetService(role)])
  }

  /** syncService returns no action on error or when the running service is
      the desired one; otherwise the actions are those updateService
      prepares for a service that differs, or createService for a missing
      one. A found service is cached; a missing one is cached as nil; the
      cache is left alone when the Get fails otherwise. */
  lemma ServiceRunContract(role: Role, w: ServiceWorld)
    ensures var s := ServiceRun(role, w);
            && s.calls == [GetService(role)]
            && (s.err.Fail? ==> s.actions == [])
            && (w.get.Ok? ==> s.write == Set(Some(w.get.value)))
            && (w.get == Err(NotFound) ==> s.write == Set(None))
            && (w.get.Err? && w.get.reason != NotFound ==> s.write == Keep && s.err.Fail?)
            && (w.get.Ok? && w.same(w.get.value, w.desired) ==> s.err == Pass && s.actions == [])
            && (w.get.Ok? && !w.same(w.get.value, w.desired) && w.update.Success? ==>
                  s.err == Pass && s.actions == w.update.value)
            && (w.get == Err(NotFound) && w.create.Success? ==> s.err == Pass && s.actions == w.create.value)
            && (s.err.Fail? <==>
                  || (w.get.Ok? && !w.same(w.get.value, w.desired) && w.update.Failure?)
                  || (w.get.Err? && w.get.reason != NotFound)
                  || (w.get == Err(NotFound) && w.create.Failure?))
  {
  }

  // ---- syncServices ----

  /** The two object caches syncServices writes: c.Endpoints and c.Services. */
  datatype ServicesState = ServicesState(endpoints: map<Role, Option<Endpoint>>, services: map<Role, Option<Service>>)

  datatype ServicesWorld = ServicesWorld(endpoint: Role -> EndpointWorld, service: Role -> ServiceWorld)

  datatype ServicesStep = ServicesStep(err: Outcome, actions: seq<Action>, calls: seq<Call>, next: ServicesState)

  /** The roles syncServices goes through, in order. */
  const ServiceRoles := [Master, Replica]

  /** One iteration of the loop of syncServices: the endpoint and then the
      service of `role`. The variable `actions` takes the role's actions,
      or none on error. */
  function RoleRun(role: Role, st: ServicesState, w: ServicesWorld): ServicesStep
  {
    var e := EndpointRun(role, w.endpoint(role));
    var afterEndpoint := st.(endpoints := ApplyAt(st.endpoints, role, e.write));
    if e.err.Fail? then ServicesStep(Fail(Wrapped(e.err.error)), [], e.calls, afterEndpoint)
    else
      var s := ServiceRun(role, w.service(role));
      var afterService := afterEndpoint.(services := ApplyAt(afterEndpoint.services, role, s.write));
      if s.err.Fail? then ServicesStep(Fail(Wrapped(s.err.error)), [], e.calls + s.calls, afterService)
      else ServicesStep(Pass, s.actions, e.calls + s.calls, afterService)
  }

  /** A role's iteration fails exactly when its endpoint or its service
      fails, and then yields no action; it touches only that role's slots
      and calls only about that role, as services-stage calls. */
  lemma RoleRunContract(role: Role, st: ServicesState, w: ServicesWorld)
    ensures var r := RoleRun(role, st, w);
            && (r.err.Fail? <==> EndpointRun(role, w.endpoint(role)).err.Fail? || ServiceRun(role, w.service(role)).err.Fail?)
            && (r.err.Fail? ==> r.actions == [] && r.err.error.Wrapped?)
            && (r.err.Pass? ==> r.actions == ServiceRun(role, w.service(role)).actions)
            && (forall other :: other != role && other in st.endpoints ==> other in r.next.endpoints && r.next.endpoints[other] == st.endpoints[other])
            && (forall other :: other != role && other in st.services ==> other in r.next.services && r.next.services[other] == st.services[other])
            && (forall i :: 0 <= i < |r.calls| ==> r.calls[i] in {GetEndpoint(role), CreateEndpoint(role), GetService(role)})
            && AllAt(r.calls, ServicesStage)
  {
    EndpointRunContract(role, w.endpoint(role));
    ServiceRunContract(role, w.service(role));
    var r := RoleRun(role, st, w);
    assert forall i :: 0 <= i < |r.calls| ==> r.calls[i] in {GetEndpoint(role), CreateEndpoint(role), GetService(role)};
  }

  /** A loop over `roles` that runs `step` for each role on the state the
      previous one left, and stops at the first error; `actions` is the
      value the loop's variable holds when the loop reaches the roles, and
      each iteration assigns its own actions to it. */
  function RoleLoop(roles: seq<Role>, st: ServicesState, step: (Role, ServicesState) -> ServicesStep,
                    actions: seq<Action>): ServicesStep
  {
    if roles == [] then ServicesStep(Pass, actions, [], st)
    else
      var first := step(roles[0], st);
      if first.err.Fail? then first
      else
        var rest := RoleLoop(roles[1..], first.next, step, first.actions);
        ServicesStep(rest.err, rest.actions, first.calls + rest.calls, rest.next)
  }

  /** The iteration of syncServices for one role, as a step of RoleLoop. */
  function RoleStep(w: ServicesWorld): (Role, ServicesState) -> ServicesStep
  {
    (role, st) => RoleRun(role, st, w)
  }

  /** `step` is the iteration of syncServices in the world `w`. The
      trigger lets the equation be used only where RoleRun itself is
      mentioned, so a loop over `step` is reasoned about without unfolding
      each iteration. */
  ghost predicate RunsRoles(step: (Role, ServicesState) -> ServicesStep, w: ServicesWorld)
  {
    forall role, st {:trigger RoleRun(role, st, w)} :: step(role, st) == RoleRun(role, st, w)
  }

  /** The loop of syncServices over `roles`: the endpoint and then the
      service of each role, so that the actions returned are the ones the
      last role prepared. */
  function ServicesRun(roles: seq<Role>, st: ServicesState, w: ServicesWorld, actions: seq<Action>): ServicesStep
  {
    RoleLoop(roles, st, RoleStep(w), actions)
  }

  /** Extending the roles by one runs that role's iteration on the state
      the earlier ones left, provided they raised no error. */
  lemma {:induction false} RoleLoopSnoc(roles: seq<Role>, role: Role, st: ServicesState,
                                        step: (Role, ServicesState) -> ServicesStep, actions: seq<Action>)
    requires RoleLoop(roles, st, step, actions).err.Pass?
    ensures var before := RoleLoop(roles, st, step, actions);
            var last := step(role, before.next);
            RoleLoop(roles + [role], st, step, actions) ==
              ServicesStep(last.err, last.actions, before.calls + last.calls, last.next)
  {
    if roles == [] {
      assert [role][1..] == [];
      var last := step(role, st);
      assert last.calls + [] == last.calls;
    } else {
      var first := step(roles[0], st);
      assert (roles + [role])[0] == roles[0];
      assert (roles + [role])[1..] == roles[1..] + [role];
      RoleLoopSnoc(roles[1..], role, first.next, step, first.actions);
      var rest := RoleLoop(roles[1..], first.next, step, first.actions);
      var last := step(role, rest.next);
      assert first.calls + (rest.calls + last.calls) == (first.calls + rest.calls) + last.calls;
    }
  }

  /** Once an iteration fails the loop is over: roles after it change
      nothing. */
  lemma {:induction false} RoleLoopStops(roles: seq<Role>, more: seq<Role>, st: ServicesState,
                                         step: (Role, ServicesState) -> ServicesStep, actions: seq<Action>)
    requires RoleLoop(roles, st, step, actions).err.Fail?
    ensures RoleLoop(roles + more, st, step, actions) == RoleLoop(roles, st, step, actions)
  {
    var first := step(roles[0], st);
    assert (roles + more)[0] == roles[0];
    if first.err.Pass? {
      assert (roles + more)[1..] == roles[1..] + more;
      RoleLoopStops(roles[1..], more, first.next, step, first.actions);
    }
  }

  /** RoleLoopSnoc for the prefixes of one sequence of roles, as a loop
      over it meets them. */
  lemma RoleLoopPrefix(roles: seq<Role>, i: nat, st: ServicesState,
                       step: (Role, ServicesState) -> ServicesStep, actions: seq<Action>)
    requires i < |roles| && RoleLoop(roles[..i], st, step, actions).err.Pass?
    ensures var before := RoleLoop(roles[..i], st, step, actions);
            var last := step(roles[i], before.next);
            RoleLoop(roles[..i + 1], st, step, actions) ==
              ServicesStep(last.err, last.actions, before.calls + last.calls, last.next)
  {
    assert roles[..i + 1] == roles[..i] + [roles[i]];
    RoleLoopSnoc(roles[..i], roles[i], st, step, actions);
  }

  /** RoleLoopStops for a prefix of the roles: the loop over all of them
      ends as the prefix ends. */
  lemma RoleLoopStopsAt(roles: seq<Role>, i: nat, st: ServicesState,
                        step: (Role, ServicesState) -> ServicesStep, actions: seq<Action>)
    requires i <= |roles| && RoleLoop(roles[..i], st, step, actions).err.Fail?
    ensures RoleLoop(roles, st, step, actions) == RoleLoop(roles[..i], st, step, actions)
  {
    assert roles == roles[..i] + roles[i..];
    RoleLoopStops(roles[..i], roles[i..], st, step, actions);
  }

  /** syncServices returns the actions prepared for the replica service
      only: those prepared for the master service are overwritten by the
      second iteration. On error it returns no action. A failure for the
      master role stops before anything is done for the replica role. */
  lemma ServicesRunKeepsLastRole(st: ServicesState, w: ServicesWorld)
    ensures var r := ServicesRun(ServiceRoles, st, w, []);
            && (r.err.Pass? ==> r.actions == ServiceRun(Replica, w.service(Replica)).actions)
            && (r.err.Fail? ==> r.actions == [])
            && (EndpointRun(Master, w.endpoint(Master)).err.Fail? ||
                ServiceRun(Master, w.service(Master)).err.Fail? ==>
                  && r.err.Fail?
                  && (Replica in st.endpoints ==> r.next.endpoints[Replica] == st.endpoints[Replica])
                  && (Replica in st.services ==> r.next.services[Replica] == st.services[Replica])
                  && (forall i :: 0 <= i < |r.calls| ==>
                        r.calls[i] !in {GetEndpoint(Replica), CreateEndpoint(Replica), GetService(Replica)}))
  {
    var step := RoleStep(w);
    assert ServiceRoles[0] == Master && ServiceRoles[1..] == [Replica];
    var m := RoleRun(Master, st, w);
    assert step(Master, st) == m;
    RoleRunContract(Master, st, w);
    if m.err.Pass? {
      var rp := RoleRun(Replica, m.next, w);
      assert step(Replica, m.next) == rp;
      RoleRunContract(Replica, m.next, w);
      assert [Replica][0] == Replica && [Replica][1..] == [];
      var tail := RoleLoop([Replica], m.next, step, m.actions);
      if rp.err.Pass? {
        assert RoleLoop([], rp.next, step, rp.actions) == ServicesStep(Pass, rp.actions, [], rp.next);
        assert tail == ServicesStep(Pass, rp.actions, rp.calls + [], rp.next);
      } else {
        assert tail == rp;
      }
      assert ServicesRun(ServiceRoles, st, w, []) == ServicesStep(tail.err, tail.actions, m.calls + tail.calls, tail.next);
    }
  }

  /** Every call of syncServices is a services-stage call. */
  lemma {:induction false} ServicesRunStage(roles: seq<Role>, st: ServicesState, w: ServicesWorld, actions: seq<Action>)
    ensures AllAt(ServicesRun(roles, st, w, actions).calls, ServicesStage)
  {
    if roles != [] {
      var first := RoleRun(roles[0], st, w);
      assert RoleStep(w)(roles[0], st) == first;
      RoleRunContract(roles[0], st, w);
      if first.err.Pass? {
        ServicesRunStage(roles[1..], first.next, w, first.actions);
        AllAtConcat(first.calls, ServicesRun(roles[1..], first.next, w, first.actions).calls, ServicesStage);
      }
    }
  }

  // ---- syncPodDisruptionBudget ----

  /** What the backend and the helpers answer during
      syncPodDisruptionBudget: the Get, the desired budget
      (generatePodDisruptionBudget), the comparison (SamePDB), the update and
      the create. */
  datatype PdbWorld = PdbWorld(get: Res<Pdb>, desired: Pdb, same: (Pdb, Pdb) -> bool, update: Outcome, create: Res<Pdb>)

  datatype PdbStep = PdbStep(err: Outcome, write: Write<Pdb>, calls: seq<Call>)

  /** syncPodDisruptionBudget. The error of the update is returned as it is,
      without wrapping. */
  function PdbRun(w: PdbWorld): PdbStep
  {
    match w.get
    case Ok(pdb) =>
      if w.same(pdb, w.desired) then PdbStep(Pass, Set(Some(pdb)), [GetPdb])
      else PdbStep(w.update, Set(Some(pdb)), [GetPdb, UpdatePdb(w.desired)])
    case Err(reason) =>
      if reason != NotFound then PdbStep(Fail(Wrapped(Api(reason))), Keep, [GetPdb])
      else
        match w.create
        case Ok(pdb) => PdbStep(Pass, Set(Some(pdb)), [GetPdb, CreatePdb])
        case Err(r) =>
          if r == AlreadyExists then PdbStep(Pass, Set(None), [GetPdb, CreatePdb])
          else PdbStep(Fail(Wrapped(Api(r))), Set(None), [GetPdb, CreatePdb])
  }

  /** The budget is written only when the running one differs from the
      desired one, and then the desired one is written; it is created only
      when missing; the running budget is cached whenever it was found; and
      the stage fails exactly when the update fails, the Get fails otherwise
      than NotFound, or the create fails otherwise than AlreadyExists. */
  lemma PdbRunContract(w: PdbWorld)
    ensures var s := PdbRun(w);
            && |s.calls| >= 1 && s.calls[0] == GetPdb
            && ((exists i :: 0 <= i < |s.calls| && s.calls[i].UpdatePdb?) <==>
                  w.get.Ok? && !w.same(w.get.value, w.desired))
            && (forall i :: 0 <= i < |s.calls| && s.calls[i].UpdatePdb? ==> s.calls[i].pdb == w.desired)
            && (CreatePdb in s.calls <==> w.get == Err(NotFound))
            && (w.get.Ok? ==> s.write == Set(Some(w.get.value)))
            && (s.write.Keep? <==> w.get.Err? && w.get.reason != NotFound)
            && (s.err.Fail? <==>
                  || (w.get.Ok? && !w.same(w.get.value, w.desired) && w.update.Fail?)
                  || (w.get.Err? && w.get.reason != NotFound)
                  || (w.get == Err(NotFound) && w.create.Err? && w.create.reason != AlreadyExists))
            && AllAt(s.calls, PdbStage)
  {
    var s := PdbRun(w);
    if w.get.Ok? && !w.same(w.get.value, w.desired) {
      assert s.calls[1].UpdatePdb?;
    }
  }
}
