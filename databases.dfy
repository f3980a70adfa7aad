/** syncRoles and syncDatabases: the two stages that talk to PostgreSQL
    itself. Both open a connection first and close it on every exit once it
    is open; a failure to close is only logged. */
module Databases {
  import opened Results
  import opened Objects

  /** What the database answers during syncRoles: the connection, the read
      of the current roles, and the execution of the sync requests
      (userSyncStrategy, left uninterpreted). */
  datatype RolesWorld = RolesWorld(open: Outcome, read: Outcome, execute: Outcome)

  /** syncRoles after the connection is open: read the roles, then execute
      the requests. */
  function RolesBody(w: RolesWorld): (Outcome, seq<Call>)
  {
    if w.read.Fail? then (Fail(Wrapped(w.read.error)), [ReadRoles])
    else if w.execute.Fail? then (Fail(Wrapped(w.execute.error)), [ReadRoles, ExecuteRoleRequests])
    else (Pass, [ReadRoles, ExecuteRoleRequests])
  }

  /** syncRoles: open the connection, run the body, close the connection. */
  function SyncRoles(w: RolesWorld): (Outcome, seq<Call>)
  {
    if w.open.Fail? then (Fail(Wrapped(w.open.error)), [OpenDbConn(RolesStage)])
    else
      var (err, body) := RolesBody(w);
      (err, [OpenDbConn(RolesStage)] + body + [CloseDbConn(RolesStage)])
  }

  /** The connection is opened first; once it is open it is closed exactly
      once, by the last call; the requests are executed only after the roles
      were read; and the stage succeeds exactly when the three steps do. */
  lemma SyncRolesContract(w: RolesWorld)
    ensures var (err, calls) := SyncRoles(w);
            && |calls| >= 1 && calls[0] == OpenDbConn(RolesStage)
            && (w.open.Fail? ==> calls == [OpenDbConn(RolesStage)])
            && (w.open.Pass? ==> calls[|calls| - 1] == CloseDbConn(RolesStage))
            && (forall i :: 0 <= i < |calls| - 1 ==> calls[i] != CloseDbConn(RolesStage))
            && (ExecuteRoleRequests in calls <==> w.open.Pass? && w.read.Pass?)
            && (err.Pass? <==> w.open.Pass? && w.read.Pass? && w.execute.Pass?)
            && AllAt(calls, RolesStage)
  {
    var (err, calls) := SyncRoles(w);
    if w.open.Pass? {
      var (_, body) := RolesBody(w);
      assert calls == [OpenDbConn(RolesStage)] + body + [CloseDbConn(RolesStage)];
      assert forall i :: 1 <= i < |calls| - 1 ==> calls[i] == body[i - 1];
    }
  }

  /** The create map of syncDatabases: the declared databases that do not
      exist, with their declared owner. */
  function CreateSet(declared: map<string, string>, current: map<string, string>): map<string, string>
  {
    map d | d in declared && d !in current :: declared[d]
  }

  /** The alter-owner map: the declared databases that exist with another
      owner, with their declared owner. */
  function AlterSet(declared: map<string, string>, current: map<string, string>): map<string, string>
  {
    map d | d in declared && d in current && current[d] != declared[d] :: declared[d]
  }

  /** Every declared database falls in exactly one case: to be created,
      whose owner is to be altered, or already as declared; nothing that is
      not declared is touched; and both maps carry the declared owner. */
  lemma DiffPartitions(declared: map<string, string>, current: map<string, string>)
    ensures var creates, alters := CreateSet(declared, current), AlterSet(declared, current);
            && creates.Keys !! alters.Keys
            && creates.Keys + alters.Keys <= declared.Keys
            && (forall d :: d in declared ==>
                  (d in creates <==> d !in current) &&
                  (d in alters <==> d in current && current[d] != declared[d]) &&
                  (d !in creates && d !in alters <==> d in current && current[d] == declared[d]))
            && (forall d :: d in creates ==> creates[d] == declared[d])
            && (forall d :: d in alters ==> alters[d] == declared[d])
            && (creates == map[] && alters == map[] <==>
                  forall d :: d in declared ==> d in current && current[d] == declared[d])
  {
    var creates, alters := CreateSet(declared, current), AlterSet(declared, current);
    if creates == map[] && alters == map[] {
      forall d | d in declared ensures d in current && current[d] == declared[d] {
        assert d !in creates && d !in alters;
      }
    }
  }

  /** A statement syncDatabases executes. */
  datatype Statement = CreateDb(datname: string, owner: string) | AlterOwner(datname: string, owner: string)

  function StatementCall(s: Statement): Call
  {
    match s
    case CreateDb(d, o) => CreateDatabase(d, o)
    case AlterOwner(d, o) => AlterDatabaseOwner(d, o)
  }

  /** The calls of a sequence of statements. */
  function StatementCalls(stmts: seq<Statement>): (cs: seq<Call>)
    ensures |cs| == |stmts|
    ensures forall i :: 0 <= i < |stmts| ==> cs[i] == StatementCall(stmts[i])
  {
    seq(|stmts|, i requires 0 <= i < |stmts| => StatementCall(stmts[i]))
  }

  /** Every call syncDatabases makes once the databases were read is a
      databases-stage call. */
  lemma DatabasesCallsStage(plan: seq<Statement>)
    ensures AllAt([OpenDbConn(DatabasesStage), ReadDatabases] + StatementCalls(plan) + [CloseDbConn(DatabasesStage)],
                  DatabasesStage)
  {
    var cs := StatementCalls(plan);
    forall i | 0 <= i < |cs| ensures StageOf(cs[i]) == DatabasesStage {
      assert cs[i] == StatementCall(plan[i]);
    }
    AllAtConcat([OpenDbConn(DatabasesStage), ReadDatabases], cs, DatabasesStage);
    AllAtConcat([OpenDbConn(DatabasesStage), ReadDatabases] + cs, [CloseDbConn(DatabasesStage)], DatabasesStage);
  }

  /** What the database answers during syncDatabases: the connection, the
      current databases and their owners (getDatabases), and the outcome of
      each CREATE DATABASE and ALTER DATABASE ... OWNER TO. */
  datatype DatabasesWorld = DatabasesWorld(
    open: Outcome,
    current: Res<map<string, string>>,
    create: (string, string) -> Outcome,
    alter: (string, string) -> Outcome)

  function Exec(s: Statement, w: DatabasesWorld): Outcome
  {
    match s
    case CreateDb(d, o) => w.create(d, o)
    case AlterOwner(d, o) => w.alter(d, o)
  }

  /** Statements run in order until the first failure, whose error is the
      result. Returns the result and the number of statements executed. */
  function ExecuteAll(stmts: seq<Statement>, w: DatabasesWorld): (r: (Outcome, nat))
    ensures r.1 <= |stmts|
  {
    if stmts == [] then (Pass, 0)
    else
      var o := Exec(stmts[0], w);
      if o.Fail? then (o, 1)
      else
        var rest := ExecuteAll(stmts[1..], w);
        (rest.0, rest.1 + 1)
  }

  /** The batch succeeds exactly when every statement does, and then all of
      them were executed; otherwise the statements before the last one
      executed passed and the last one's error is the result. */
  lemma {:induction false} ExecuteAllStopsAtFirstFailure(stmts: seq<Statement>, w: DatabasesWorld)
    ensures var r := ExecuteAll(stmts, w);
            && (r.0.Pass? <==> r.1 == |stmts| && forall i :: 0 <= i < |stmts| ==> Exec(stmts[i], w).Pass?)
            && (r.0.Fail? ==>
                  && r.1 >= 1 && r.0 == Exec(stmts[r.1 - 1], w)
                  && forall i :: 0 <= i < r.1 - 1 ==> Exec(stmts[i], w).Pass?)
  {
    if stmts != [] && Exec(stmts[0], w).Pass? {
      ExecuteAllStopsAtFirstFailure(stmts[1..], w);
      assert forall i :: 1 <= i < |stmts| ==> stmts[i] == stmts[1..][i - 1];
    }
  }

  /** Which of the two loops of syncDatabases a statement comes from. */
  datatype Kind = CreateKind | AlterKind

  /** The statement a loop of `kind` executes for database `d` owned by `owner`. */
  function StatementFor(kind: Kind, d: string, owner: string): Statement
  {
    if kind == CreateKind then CreateDb(d, owner) else AlterOwner(d, owner)
  }

  /** The statements one loop executes for the databases of `order`, with
      the owners recorded in `m`. */
  function Statements(order: seq<string>, m: map<string, string>, kind: Kind): (s: seq<Statement>)
    requires forall d :: d in order ==> d in m
    ensures |s| == |order|
  {
    seq(|order|, i requires 0 <= i < |order| => StatementFor(kind, order[i], m[order[i]]))
  }

  lemma DistinctSnoc(order: seq<string>, d: string)
    requires Distinct(order) && d !in order
    ensures Distinct(order + [d])
  {
  }

  /** Names that each occur once, all drawn from `keys`, are at most as
      many as `keys`, and exactly as many when every key occurs. */
  lemma {:induction false} DistinctBound(order: seq<string>, keys: set<string>)
    requires Distinct(order) && forall d :: d in order ==> d in keys
    ensures |order| <= |keys|
    ensures (forall d :: d in keys ==> d in order) ==> |order| == |keys|
  {
    if order != [] {
      var init, last := order[..|order| - 1], order[|order| - 1];
      assert order == init + [last];
      assert forall i :: 0 <= i < |init| ==> init[i] == order[i];
      DistinctBound(init, keys - {last});
    }
  }

  lemma StatementsSnoc(order: seq<string>, m: map<string, string>, kind: Kind, d: string)
    requires forall e :: e in order ==> e in m
    requires d in m
    ensures Statements(order + [d], m, kind) == Statements(order, m, kind) + [StatementFor(kind, d, m[d])]
  {
    assert forall i :: 0 <= i < |order| ==> (order + [d])[i] == order[i];
  }

  lemma StatementCallsAppend(a: seq<Statement>, b: seq<Statement>)
    ensures StatementCalls(a + b) == StatementCalls(a) + StatementCalls(b)
  {
    assert forall i :: 0 <= i < |a| ==> (a + b)[i] == a[i];
  }

  lemma StatementCallsSnoc(stmts: seq<Statement>, s: Statement)
    ensures StatementCalls(stmts + [s]) == StatementCalls(stmts) + [StatementCall(s)]
  {
  }

  /** Running two batches one after the other: the second runs only once
      the first has run to completion without error. */
  lemma {:induction false} ExecuteAllAppend(a: seq<Statement>, b: seq<Statement>, w: DatabasesWorld)
    requires ExecuteAll(a, w) == (Pass, |a|)
    ensures ExecuteAll(a + b, w) == (ExecuteAll(b, w).0, |a| + ExecuteAll(b, w).1)
  {
    if a != [] {
      assert (a + b)[0] == a[0];
      assert (a + b)[1..] == a[1..] + b;
      ExecuteAllAppend(a[1..], b, w);
    } else {
      assert a + b == b;
    }
  }

  /** The create batch ran to completion, so the whole plan ends as the
      alter batch does. */
  lemma PlanRun(creates: seq<Statement>, alters: seq<Statement>, w: DatabasesWorld, err: Outcome)
    requires ExecuteAll(creates, w) == (Pass, |creates|) && ExecuteAll(alters, w) == (err, |alters|)
    ensures ExecuteAll(creates + alters, w) == (err, |creates + alters|)
    ensures StatementCalls(creates + alters) == StatementCalls(creates) + StatementCalls(alters)
  {
    ExecuteAllAppend(creates, alters, w);
    StatementCallsAppend(creates, alters);
  }

  /** The first loop of syncDatabases: the declared databases are sorted
      into the create map and the alter-owner map, in no particular order. */
  method DiffDatabases(declared: map<string, string>, current: map<string, string>)
    returns (creates: map<string, string>, alters: map<string, string>)
    ensures creates == CreateSet(declared, current)
    ensures alters == AlterSet(declared, current)
  {
    creates, alters := map[], map[];
    var rest := declared.Keys;
    while rest != {}
      invariant rest <= declared.Keys
      invariant creates == map d | d in declared.Keys - rest && d !in current :: declared[d]
      invariant alters == map d | d in declared.Keys - rest && d in current && current[d] != declared[d] :: declared[d]
      decreases rest
    {
      var datname :| datname in rest;
      var newOwner := declared[datname];
      if datname !in current {
        creates := creates[datname := newOwner];
      } else if current[datname] != newOwner {
        alters := alters[datname := newOwner];
      }
      rest := rest - {datname};
    }
  }

  /** One more database handled by an execution loop whose statements so
      far all passed: the batch now ends as that database's statement does. */
  lemma ExecuteStep(order: seq<string>, m: map<string, string>, kind: Kind, w: DatabasesWorld, d: string)
    requires Distinct(order) && (forall e :: e in order ==> e in m)
    requires d in m && d !in order
    requires ExecuteAll(Statements(order, m, kind), w) == (Pass, |order|)
    ensures Distinct(order + [d])
    ensures ExecuteAll(Statements(order + [d], m, kind), w) == (Exec(StatementFor(kind, d, m[d]), w), |order| + 1)
    ensures StatementCalls(Statements(order + [d], m, kind))
              == StatementCalls(Statements(order, m, kind)) + [StatementCall(StatementFor(kind, d, m[d]))]
  {
    var stmt := StatementFor(kind, d, m[d]);
    DistinctSnoc(order, d);
    StatementsSnoc(order, m, kind, d);
    ExecuteAllAppend(Statements(order, m, kind), [stmt], w);
    StatementCallsSnoc(Statements(order, m, kind), stmt);
  }

  /** One of the two execution loops of syncDatabases: a statement per
      entry of `m`, in no particular order, stopping at the first failure,
      whose error is returned as it is. `order` records the databases
      handled, the failing one last. */
  method ExecuteEach(m: map<string, string>, kind: Kind, w: DatabasesWorld)
    returns (err: Outcome, executed: seq<Call>, ghost order: seq<string>)
    ensures Distinct(order) && (forall d :: d in order ==> d in m)
    ensures err.Pass? ==> forall d :: d in m ==> d in order
    ensures ExecuteAll(Statements(order, m, kind), w) == (err, |order|)
    ensures executed == StatementCalls(Statements(order, m, kind))
  {
    order, executed := [], [];
    var todo := m.Keys;
    while todo != {}
      invariant todo <= m.Keys
      invariant Distinct(order)
      invariant forall d :: d in order <==> d in m.Keys - todo
      invariant executed == StatementCalls(Statements(order, m, kind))
      invariant ExecuteAll(Statements(order, m, kind), w) == (Pass, |order|)
      decreases todo
    {
      var datname :| datname in todo;
      var stmt := StatementFor(kind, datname, m[datname]);
      ExecuteStep(order, m, kind, w, datname);
      order := order + [datname];
      executed := executed + [StatementCall(stmt)];
      if Exec(stmt, w).Fail? {
        return Exec(stmt, w), executed, order;
      }
      todo := todo - {datname};
    }
    err := Pass;
  }

  /** The two execution loops of syncDatabases: all creates, then all
      alters, stopping at the first failure. */
  method ExecutePlan(creates: map<string, string>, alters: map<string, string>, w: DatabasesWorld)
    returns (err: Outcome, executed: seq<Call>, ghost createOrder: seq<string>, ghost alterOrder: seq<string>)
    ensures Distinct(createOrder) && Distinct(alterOrder)
    ensures forall d :: d in createOrder ==> d in creates
    ensures forall d :: d in alterOrder ==> d in alters
    ensures alterOrder != [] ==> forall d :: d in creates ==> d in createOrder
    ensures err.Pass? ==> (forall d :: d in creates ==> d in createOrder) && (forall d :: d in alters ==> d in alterOrder)
    ensures var plan := Statements(createOrder, creates, CreateKind) + Statements(alterOrder, alters, AlterKind);
            executed == StatementCalls(plan) && ExecuteAll(plan, w) == (err, |plan|)
    ensures |executed| <= |creates.Keys| + |alters.Keys|
    ensures err.Pass? ==> |executed| == |creates.Keys| + |alters.Keys|
  {
    var createCalls, alterCalls;
    alterOrder := [];
    err, createCalls, createOrder := ExecuteEach(creates, CreateKind, w);
    ghost var createPlan := Statements(createOrder, creates, CreateKind);
    if err.Fail? {
      ghost var plan := createPlan + Statements(alterOrder, alters, AlterKind);
      assert plan == createPlan by {
        assert Statements(alterOrder, alters, AlterKind) == [];
      }
      DistinctBound(createOrder, creates.Keys);
      return err, createCalls, createOrder, alterOrder;
    }
    err, alterCalls, alterOrder := ExecuteEach(alters, AlterKind, w);
    ghost var alterPlan := Statements(alterOrder, alters, AlterKind);
    PlanRun(createPlan, alterPlan, w, err);
    executed := createCalls + alterCalls;
    DistinctBound(createOrder, creates.Keys);
    DistinctBound(alterOrder, alters.Keys);
  }

  /** The two orders name only databases of the plan computed from the
      databases read. */
  predicate PlanFits(declared: map<string, string>, w: DatabasesWorld, createOrder: seq<string>, alterOrder: seq<string>)
  {
    w.open.Pass? && w.current.Ok? ==>
      && (forall d :: d in createOrder ==> d in CreateSet(declared, w.current.value))
      && (forall d :: d in alterOrder ==> d in AlterSet(declared, w.current.value))
  }

  /** The orders the two loops of syncDatabases can take: each a sequence of
      distinct databases of its map, the alter loop started only after the
      create loop went through all of its map, and both empty when the plan
      was never computed. */
  ghost predicate PlanOrders(declared: map<string, string>, w: DatabasesWorld, createOrder: seq<string>, alterOrder: seq<string>)
  {
    && PlanFits(declared, w, createOrder, alterOrder)
    && Distinct(createOrder) && Distinct(alterOrder)
    && (w.open.Pass? && w.current.Ok? && alterOrder != [] ==>
          forall d :: d in CreateSet(declared, w.current.value) ==> d in createOrder)
    && (!(w.open.Pass? && w.current.Ok?) ==> createOrder == [] && alterOrder == [])
  }

  /** The two orders went through every database of the plan. */
  predicate PlanComplete(declared: map<string, string>, w: DatabasesWorld, createOrder: seq<string>, alterOrder: seq<string>)
  {
    w.open.Pass? && w.current.Ok? ==>
      && (forall d :: d in CreateSet(declared, w.current.value) ==> d in createOrder)
      && (forall d :: d in AlterSet(declared, w.current.value) ==> d in alterOrder)
  }

  /** syncDatabases as a function of the backend's answers and of the orders
      its two loops took: open the connection, read the databases, run the
      create statements and then the alter statements until the first
      failure, and close the connection once it was opened. */
  function DatabasesRun(declared: map<string, string>, w: DatabasesWorld, createOrder: seq<string>, alterOrder: seq<string>)
    : (Outcome, seq<Call>)
    requires PlanFits(declared, w, createOrder, alterOrder)
  {
    if w.open.Fail? then (Fail(Message), [OpenDbConn(DatabasesStage)])
    else if w.current.Err? then
      (Fail(Wrapped(Api(w.current.reason))), [OpenDbConn(DatabasesStage), ReadDatabases, CloseDbConn(DatabasesStage)])
    else
      var plan := Statements(createOrder, CreateSet(declared, w.current.value), CreateKind) +
                  Statements(alterOrder, AlterSet(declared, w.current.value), AlterKind);
      (ExecuteAll(plan, w).0, [OpenDbConn(DatabasesStage), ReadDatabases] + StatementCalls(plan) + [CloseDbConn(DatabasesStage)])
  }

  /** Every call of the stage is a databases-stage call, and the first one
      opens the connection. */
  lemma DatabasesRunStage(declared: map<string, string>, w: DatabasesWorld, createOrder: seq<string>, alterOrder: seq<string>)
    requires PlanFits(declared, w, createOrder, alterOrder)
    ensures var r := DatabasesRun(declared, w, createOrder, alterOrder);
            |r.1| >= 1 && r.1[0] == OpenDbConn(DatabasesStage) && AllAt(r.1, DatabasesStage)
  {
    if w.open.Pass? && w.current.Ok? {
      DatabasesCallsStage(Statements(createOrder, CreateSet(declared, w.current.value), CreateKind) +
                          Statements(alterOrder, AlterSet(declared, w.current.value), AlterKind));
    }
  }

  /** syncDatabases. `createOrder` and `alterOrder` record the order the two
      loops took, up to the first failure. */
  method SyncDatabases(declared: map<string, string>, w: DatabasesWorld)
    returns (err: Outcome, creates: map<string, string>, alters: map<string, string>, calls: seq<Call>,
             ghost createOrder: seq<string>, ghost alterOrder: seq<string>)
    ensures |calls| >= 1 && calls[0] == OpenDbConn(DatabasesStage)
    ensures AllAt(calls, DatabasesStage)
    ensures w.open.Fail? ==> err == Fail(Message) && calls == [OpenDbConn(DatabasesStage)]
    ensures w.open.Pass? ==> calls[|calls| - 1] == CloseDbConn(DatabasesStage)
    ensures w.open.Pass? && w.current.Err? ==>
              err.Fail? && calls == [OpenDbConn(DatabasesStage), ReadDatabases, CloseDbConn(DatabasesStage)]
    ensures w.open.Pass? && w.current.Ok? ==>
              && creates == CreateSet(declared, w.current.value)
              && alters == AlterSet(declared, w.current.value)
              && Distinct(createOrder) && Distinct(alterOrder)
              && (forall d :: d in createOrder ==> d in creates)
              && (forall d :: d in alterOrder ==> d in alters)
              && (alterOrder != [] ==> forall d :: d in creates ==> d in createOrder)
              && (err.Pass? ==> (forall d :: d in creates ==> d in createOrder) &&
                                (forall d :: d in alters ==> d in alterOrder))
              && var plan := Statements(createOrder, creates, CreateKind) + Statements(alterOrder, alters, AlterKind);
                 && calls == [OpenDbConn(DatabasesStage), ReadDatabases] + StatementCalls(plan) +
                             [CloseDbConn(DatabasesStage)]
                 && ExecuteAll(plan, w) == (err, |plan|)
    ensures PlanOrders(declared, w, createOrder, alterOrder)
    ensures (err, calls) == DatabasesRun(declared, w, createOrder, alterOrder)
    ensures err.Pass? ==> PlanComplete(declared, w, createOrder, alterOrder)
  {
    createOrder, alterOrder := [], [];
    creates, alters := map[], map[];
    calls := [OpenDbConn(DatabasesStage)];
    if w.open.Fail? {
      return Fail(Message), creates, alters, calls, createOrder, alterOrder;
    }
    calls := calls + [ReadDatabases];
    if w.current.Err? {
      calls := calls + [CloseDbConn(DatabasesStage)];
      return Fail(Wrapped(Api(w.current.reason))), creates, alters, calls, createOrder, alterOrder;
    }
    creates, alters := DiffDatabases(declared, w.current.value);
    if |creates| + |alters| == 0 {
      assert creates == map[] && alters == map[];
      assert Statements([], creates, CreateKind) + Statements([], alters, AlterKind) == [];
      calls := calls + [CloseDbConn(DatabasesStage)];
      return Pass, creates, alters, calls, createOrder, alterOrder;
    }
    var executed;
    err, executed, createOrder, alterOrder := ExecutePlan(creates, alters, w);
    ghost var plan := Statements(createOrder, creates, CreateKind) + Statements(alterOrder, alters, AlterKind);
    calls := [OpenDbConn(DatabasesStage), ReadDatabases] + executed + [CloseDbConn(DatabasesStage)];
    DatabasesCallsStage(plan);
  }
}
