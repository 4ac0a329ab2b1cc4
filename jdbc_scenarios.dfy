/**
 * What the JDBC handlers promise, stated over InvokeEffect: close stops the life split once,
 * a measured execute counts one more on its `.exec` stopwatch, and the call sequences of the
 * handler tests leave the stopwatches they check in the states they expect.
 */
module JdbcScenarios {
  import opened Wrappers
  import opened JavaLang
  import opened JdbcMetrics
  import opened JdbcTypes
  import opened DelegatingMethodInvocation
  import opened JdbcProxyFactory
  import opened JdbcHandlers

  // ---------------------------------------------------------------- close

  /**
   * close on a statement, result set or connection proxy stops its life split (one fewer active,
   * one more counted) and then makes the real close; closing again changes no stopwatch.
   */
  lemma CloseStopsLifeSplit(reg: Registry, digest: SqlDigest, h: JdbcHandler, ps: seq<JavaClass>, args: Option<seq<Value>>, call: RealCall)
    requires Consistent(reg) && Route(h.kind, "close") == Close
    requires h.lifeSplit.Some? && h.lifeSplit.value.id in reg.running
    ensures var (r, after) := InvokeEffect(reg, digest, h, Method("close", ps), args, call);
      var name := reg.running[h.lifeSplit.value.id];
      && r == call(h.delegate, Method("close", ps), args)
      && Lookup(after.stopwatches, name).active == Lookup(reg.stopwatches, name).active - 1
      && Lookup(after.stopwatches, name).counter == Lookup(reg.stopwatches, name).counter + 1
      && InvokeEffect(after, digest, h, Method("close", ps), args, call).1 == after
  {
  }

  /** A pooled connection forwards close: its `.pooledconn` split keeps running. */
  lemma PooledConnectionCloseKeepsSplit(reg: Registry, digest: SqlDigest, h: JdbcHandler, ps: seq<JavaClass>, args: Option<seq<Value>>, call: RealCall)
    requires h.kind.PooledConnectionHandler?
    ensures InvokeEffect(reg, digest, h, Method("close", ps), args, call) == (call(h.delegate, Method("close", ps), args), reg)
  {
  }

  // ---------------------------------------------------------------- execute

  /** The `.exec` and `.rset` stopwatches of one statement are two stopwatches. */
  lemma ExecAndResultSetDiffer(name: string, sqlId: string)
    ensures StatementStopwatchName(name, sqlId, ".exec") != StatementStopwatchName(name, sqlId, ".rset")
  {
    SuffixesDiffer(name + "." + sqlId, ".exec", ".rset");
  }

  /**
   * A measured execute whose real call returns something other than a result set returns it
   * unchanged; its `.exec` stopwatch has the same active count, one more counted, and the
   * first SQL text as its note; no other stopwatch changes and the same splits run.
   */
  lemma {:induction false} MeasuredExecuteCountsOnce(reg: Registry, digest: SqlDigest, h: JdbcHandler, m: Method, args: Option<seq<Value>>,
                                                     call: RealCall, sql: string, sqlId: string)
    requires Consistent(reg) && Route(h.kind, m.name) == Execute
    requires ExecuteSql(h, InvocationOf(h, m, args), digest) == Returned(Some((sql, sqlId)))
    requires call(h.delegate, m, args).Returned? && !InstanceOf(call(h.delegate, m, args).value, ResultSetType)
    ensures var (r, after) := InvokeEffect(reg, digest, h, m, args, call);
      var exec := StatementStopwatchName(h.name, sqlId, ".exec");
      var watch := Lookup(reg.stopwatches, exec);
      && r == call(h.delegate, m, args)
      && Lookup(after.stopwatches, exec) == Stopwatch(watch.active, watch.counter + 1, Some(watch.note.GetOr(sql)))
      && (forall n :: n != exec ==> Lookup(after.stopwatches, n) == Lookup(reg.stopwatches, n))
      && after.running == reg.running && Consistent(after)
  {
    var exec := StatementStopwatchName(h.name, sqlId, ".exec");
    var noted := NoteIfAbsent(reg, exec, sql);
    StartThenStop(noted, exec);
  }

  /**
   * A measured execute whose real call returns a result set counts one more on `.exec` and
   * returns a result set proxy whose life split runs on the `.rset` stopwatch of the same SQL.
   */
  lemma {:induction false} MeasuredExecuteWrapsResultSet(reg: Registry, digest: SqlDigest, h: JdbcHandler, m: Method, args: Option<seq<Value>>,
                                                         call: RealCall, sql: string, sqlId: string)
    requires Consistent(reg) && Route(h.kind, m.name) == Execute
    requires ExecuteSql(h, InvocationOf(h, m, args), digest) == Returned(Some((sql, sqlId)))
    requires call(h.delegate, m, args).Returned? && InstanceOf(call(h.delegate, m, args).value, ResultSetType)
    ensures var (r, after) := InvokeEffect(reg, digest, h, m, args, call);
      var exec := StatementStopwatchName(h.name, sqlId, ".exec");
      var rset := StatementStopwatchName(h.name, sqlId, ".rset");
      && r.Returned? && r.value.Proxy?
      && r.value.handler == JdbcHandler(ResultSetHandler, call(h.delegate, m, args).value,
                                        GetResultSetType(call(h.delegate, m, args).value), h.name, r.value.handler.lifeSplit)
      && r.value.handler.lifeSplit.Some? && r.value.handler.lifeSplit.value.name == rset
      && r.value.handler.lifeSplit.value.id in after.running
      && Lookup(after.stopwatches, exec).counter == Lookup(reg.stopwatches, exec).counter + 1
      && Lookup(after.stopwatches, exec).active == Lookup(reg.stopwatches, exec).active
      && Lookup(after.stopwatches, rset).active == Lookup(reg.stopwatches, rset).active + 1
      && Consistent(after)
  {
    var exec := StatementStopwatchName(h.name, sqlId, ".exec");
    var rset := StatementStopwatchName(h.name, sqlId, ".rset");
    ExecAndResultSetDiffer(h.name, sqlId);
    var noted := NoteIfAbsent(reg, exec, sql);
    StartThenStop(noted, exec);
  }

  /**
   * When the real call of a measured execute throws, the exception propagates and the `.exec`
   * split is left running: one more active, nothing counted.
   */
  lemma ExecuteThrowLeavesSplitRunning(reg: Registry, digest: SqlDigest, h: JdbcHandler, m: Method, args: Option<seq<Value>>,
                                       call: RealCall, sql: string, sqlId: string)
    requires Consistent(reg) && Route(h.kind, m.name) == Execute
    requires ExecuteSql(h, InvocationOf(h, m, args), digest) == Returned(Some((sql, sqlId)))
    requires call(h.delegate, m, args).Threw?
    ensures var (r, after) := InvokeEffect(reg, digest, h, m, args, call);
      var exec := StatementStopwatchName(h.name, sqlId, ".exec");
      && r == call(h.delegate, m, args)
      && Lookup(after.stopwatches, exec).active == Lookup(reg.stopwatches, exec).active + 1
      && Lookup(after.stopwatches, exec).counter == Lookup(reg.stopwatches, exec).counter
      && exists id: nat :: id !in reg.running && after.running == reg.running[id := exec]
  {
    var (started, split) := StartStatementSplit(reg, h.name, sql, sqlId, ".exec");
    assert split.id !in reg.running && started.running == reg.running[split.id := split.name];
  }

  /** A plain statement's execute without arguments is forwarded, with no split and no wrapping. */
  lemma StatementWithoutArgumentsIsNotMeasured(reg: Registry, digest: SqlDigest, h: JdbcHandler, m: Method, args: Option<seq<Value>>, call: RealCall)
    requires h.kind.StatementHandler? && Route(h.kind, m.name) == Execute
    requires args.None? || args == Some([])
    ensures InvokeEffect(reg, digest, h, m, args, call) == (call(h.delegate, m, args), reg)
  {
  }

  /**
   * A prepared or callable statement's execute without arguments is measured under the SQL and
   * id it was prepared with; with an SQL argument, under that text and its own id.
   */
  lemma PreparedExecuteUsesStoredSql(h: JdbcHandler, m: Method, args: Option<seq<Value>>, digest: SqlDigest)
    requires h.kind.PreparedStatementHandler? || h.kind.CallableStatementHandler?
    ensures ArgCount(InvocationOf(h, m, args)) == 0 ==>
      ExecuteSql(h, InvocationOf(h, m, args), digest) == Returned(Some((h.kind.sql, h.kind.sqlId)))
    ensures args.Some? && |args.value| > 0 && args.value[0].Text? ==>
      ExecuteSql(h, InvocationOf(h, m, args), digest) == Returned(Some((args.value[0].s, SqlId(digest, args.value[0].s))))
  {
  }

  // ---------------------------------------------------------------- children

  /**
   * A call returned `r` and left registry `after`: a proxy whose life split is running on
   * `stopwatch`, which has one more active split; every other stopwatch is as it was in `reg`,
   * and every split running before still runs.
   */
  ghost predicate OpensLifeSplit(reg: Registry, r: Outcome<Value>, after: Registry, stopwatch: string)
  {
    && r.Returned? && r.value.Proxy? && r.value.handler.lifeSplit.Some?
    && r.value.handler.lifeSplit.value.name == stopwatch
    && r.value.handler.lifeSplit.value.id in after.running && after.running[r.value.handler.lifeSplit.value.id] == stopwatch
    && Lookup(after.stopwatches, stopwatch).active == Lookup(reg.stopwatches, stopwatch).active + 1
    && Lookup(after.stopwatches, stopwatch).counter == Lookup(reg.stopwatches, stopwatch).counter
    && (forall n :: n != stopwatch ==> Lookup(after.stopwatches, n) == Lookup(reg.stopwatches, n))
    && Consistent(after) && reg.running.Keys <= after.running.Keys
  }

  /** Every child a connection or data source hands out is wrapped under the handler's own name. */
  lemma ChildrenKeepTheName(reg: Registry, digest: SqlDigest, h: JdbcHandler, m: Method, args: Option<seq<Value>>, call: RealCall)
    requires Route(h.kind, m.name) in {CreateStatement, PrepareStatement, PrepareCall, GetConnection, GetXAConnection}
    ensures var r := InvokeEffect(reg, digest, h, m, args, call).0;
      r.Returned? ==> r.value.Proxy? && r.value.handler.name == h.name && r.value.handler.lifeSplit.Some?
  {
  }

  /** createStatement on a connection proxy: a statement proxy with a life split on `name.stmt`. */
  lemma StatementOpens(reg: Registry, digest: SqlDigest, h: JdbcHandler, m: Method, args: Option<seq<Value>>, call: RealCall)
    requires Consistent(reg) && Route(h.kind, m.name) == CreateStatement
    requires var s := call(h.delegate, m, args); s.Returned? && s.value.Object? && StatementType in s.value.o.implements
    ensures var (r, after) := InvokeEffect(reg, digest, h, m, args, call);
      && OpensLifeSplit(reg, r, after, h.name + ".stmt")
      && r.value.handler.kind == StatementHandler && r.value.handler.delegate == call(h.delegate, m, args).value
  {
  }

  /** getConnection on a data source or pooled connection proxy: a connection proxy with a life split on `name.conn`. */
  lemma ConnectionOpens(reg: Registry, digest: SqlDigest, h: JdbcHandler, m: Method, args: Option<seq<Value>>, call: RealCall)
    requires Consistent(reg) && Route(h.kind, m.name) == GetConnection
    requires var c := call(h.delegate, m, args); c.Returned? && c.value.Object? && ConnectionType in c.value.o.implements
    ensures var (r, after) := InvokeEffect(reg, digest, h, m, args, call);
      && OpensLifeSplit(reg, r, after, h.name + ".conn")
      && r.value.handler.kind == ConnectionHandler && r.value.handler.delegate == call(h.delegate, m, args).value
  {
  }

  /**
   * prepareStatement(sql) on a connection proxy: a prepared statement proxy that keeps the SQL
   * and its id, with a life split on `name.sqlId.stmt`.
   */
  lemma PreparedStatementOpens(reg: Registry, digest: SqlDigest, h: JdbcHandler, m: Method, sql: string, call: RealCall)
    requires Consistent(reg) && Route(h.kind, m.name) == PrepareStatement
    requires var s := call(h.delegate, m, Some([Text(sql)])); s.Returned? && s.value.Object? && PreparedStatementType in s.value.o.implements
    ensures var (r, after) := InvokeEffect(reg, digest, h, m, Some([Text(sql)]), call);
      && OpensLifeSplit(reg, r, after, StatementStopwatchName(h.name, SqlId(digest, sql), ".stmt"))
      && r.value.handler.kind == PreparedStatementHandler(sql, SqlId(digest, sql)) && r.value.handler.name == h.name
      && r.value.handler.delegate == call(h.delegate, m, Some([Text(sql)])).value
  {
    var args := Some([Text(sql)]);
    var mi := InvocationOf(h, m, args);
    var child := call(h.delegate, m, args).value;
    assert Child(Proceed(mi, call), PreparedStatementType) == Returned(child);
    assert SqlArg(mi) == Returned(sql);
    assert InvokeEffect(reg, digest, h, m, args, call) == WrappedPreparedStatement(reg, digest, h.name, child, sql);
    WrappedPreparedOpens(reg, digest, h.name, child, sql);
  }

  /** wrapPreparedStatement of a statement: a proxy keeping the SQL and its id, with a split on `name.sqlId.stmt`. */
  lemma WrappedPreparedOpens(reg: Registry, digest: SqlDigest, name: string, statement: Value, sql: string)
    requires Consistent(reg) && !statement.Null?
    ensures var (r, after) := WrappedPreparedStatement(reg, digest, name, statement, sql);
      && OpensLifeSplit(reg, r, after, StatementStopwatchName(name, SqlId(digest, sql), ".stmt"))
      && r.value.handler.kind == PreparedStatementHandler(sql, SqlId(digest, sql)) && r.value.handler.name == name
      && r.value.handler.delegate == statement
  {
  }

  /**
   * executeQuery() without arguments on a prepared statement proxy whose real call returns a
   * result set: one more counted on the `.exec` stopwatch of the prepared SQL, and a result set
   * proxy with a running life split on its `.rset` stopwatch.
   */
  lemma {:induction false} PreparedQueryCounts(reg: Registry, digest: SqlDigest, h: JdbcHandler, call: RealCall)
    requires Consistent(reg) && h.kind.PreparedStatementHandler?
    requires var q := call(h.delegate, Method("executeQuery", NoParameters), None); q.Returned? && q.value.Object? && ResultSetType in q.value.o.implements
    ensures var (r, after) := InvokeEffect(reg, digest, h, Method("executeQuery", NoParameters), None, call);
      var exec := StatementStopwatchName(h.name, h.kind.sqlId, ".exec");
      var rset := StatementStopwatchName(h.name, h.kind.sqlId, ".rset");
      && Lookup(after.stopwatches, exec).counter == Lookup(reg.stopwatches, exec).counter + 1
      && r.Returned? && r.value.Proxy? && r.value.handler.lifeSplit.Some?
      && r.value.handler.lifeSplit.value.id in after.running
      && after.running[r.value.handler.lifeSplit.value.id] == rset
      && Lookup(after.stopwatches, rset).active == Lookup(reg.stopwatches, rset).active + 1
      && Route(r.value.handler.kind, "close") == Close
      && Consistent(after)
  {
    var query := Method("executeQuery", NoParameters);
    assert ArgCount(InvocationOf(h, query, None)) == 0;
    MeasuredExecuteWrapsResultSet(reg, digest, h, query, None, call, h.kind.sql, h.kind.sqlId);
  }

  /** Stopwatch names that end differently are different stopwatches. */
  lemma {:induction false} LastCharsDiffer(p: string, q: string, x: string, y: string)
    requires x != [] && y != [] && x[|x| - 1] != y[|y| - 1]
    ensures p + x != q + y
  {
    assert (p + x)[|p + x| - 1] == x[|x| - 1];
    assert (q + y)[|q + y| - 1] == y[|y| - 1];
  }

  /** One prefix with two different suffixes of one length names two stopwatches. */
  lemma {:induction false} SuffixesDiffer(p: string, x: string, y: string)
    requires |x| == |y| && x != y
    ensures p + x != p + y
  {
    assert (p + x)[|p|..] == x && (p + y)[|p|..] == y;
  }

  // ---------------------------------------------------------------- the handler tests

  const NoParameters: seq<JavaClass> := []

  /**
   * ConnectionProxyFactoryTest.testClose: a wrapped connection has one active split on
   * `name.conn`, and none once it is closed.
   */
  lemma ConnectionScenario(name: string, digest: SqlDigest, connection: Value, call: RealCall)
    requires connection.Object? && ConnectionType in connection.o.implements
    ensures var (c, connected) := WrappedConnection(EmptyRegistry, name, connection);
      && c.Returned? && Lookup(connected.stopwatches, name + ".conn").active == 1
      && Lookup(InvokeEffect(connected, digest, c.value.handler, Method("close", NoParameters), None, call).1.stopwatches, name + ".conn").active == 0
  {
  }

  /**
   * DataSourceProxyHandlerTest.testOpenClose: getConnection on a wrapped data source gives a
   * connection proxy with one active split on `name.conn`, and none once it is closed.
   */
  lemma DataSourceScenario(name: string, digest: SqlDigest, dataSource: Value, connection: Value, call: RealCall)
    requires connection.Object? && ConnectionType in connection.o.implements
    requires call(dataSource, Method("getConnection", NoParameters), None) == Returned(connection)
    ensures var ds := JdbcHandler(DataSourceHandler, dataSource, DataSourceType, name, None);
      var (c, connected) := InvokeEffect(EmptyRegistry, digest, ds, Method("getConnection", NoParameters), None, call);
      && c.Returned? && c.value.Proxy? && Lookup(connected.stopwatches, name + ".conn").active == 1
      && Lookup(InvokeEffect(connected, digest, c.value.handler, Method("close", NoParameters), None, call).1.stopwatches, name + ".conn").active == 0
  {
    var ds := JdbcHandler(DataSourceHandler, dataSource, DataSourceType, name, None);
    ConnectionOpens(EmptyRegistry, digest, ds, Method("getConnection", NoParameters), None, call);
    var (c, connected) := InvokeEffect(EmptyRegistry, digest, ds, Method("getConnection", NoParameters), None, call);
    CloseStopsLifeSplit(connected, digest, c.value.handler, NoParameters, None, call);
  }

  /**
   * StatementProxyHandlerTest.testClose: createStatement on a connection proxy, with a fresh
   * `name.stmt` stopwatch, gives one active split on it, and closing the statement ends it.
   */
  lemma StatementCloseScenario(reg: Registry, digest: SqlDigest, c: JdbcHandler, statement: Value, call: RealCall)
    requires Consistent(reg) && c.kind == ConnectionHandler && Lookup(reg.stopwatches, c.name + ".stmt") == Unused
    requires statement.Object? && StatementType in statement.o.implements
    requires call(c.delegate, Method("createStatement", NoParameters), None) == Returned(statement)
    ensures var (s, created) := InvokeEffect(reg, digest, c, Method("createStatement", NoParameters), None, call);
      && s.Returned? && s.value.Proxy? && Lookup(created.stopwatches, c.name + ".stmt").active == 1
      && Lookup(InvokeEffect(created, digest, s.value.handler, Method("close", NoParameters), None, call).1.stopwatches, c.name + ".stmt").active == 0
  {
    var create := Method("createStatement", NoParameters);
    StatementOpens(reg, digest, c, create, None, call);
    var (s, created) := InvokeEffect(reg, digest, c, create, None, call);
    CloseStopsLifeSplit(created, digest, s.value.handler, NoParameters, None, call);
  }

  /**
   * StatementProxyHandlerTest.testExecute: `execute(sql)` on a statement proxy a connection proxy
   * created counts one on the `.exec` stopwatch of that SQL, which had not been used, and the
   * SQL becomes its note.
   */
  lemma StatementExecuteScenario(reg: Registry, digest: SqlDigest, c: JdbcHandler, statement: Value, sql: string, call: RealCall)
    requires Consistent(reg) && c.kind == ConnectionHandler
    requires Lookup(reg.stopwatches, StatementStopwatchName(c.name, SqlId(digest, sql), ".exec")) == Unused
    requires statement.Object? && StatementType in statement.o.implements
    requires call(c.delegate, Method("createStatement", NoParameters), None) == Returned(statement)
    requires call(statement, Method("execute", [StringType]), Some([Text(sql)])) == Returned(Bool(true))
    ensures var (s, created) := InvokeEffect(reg, digest, c, Method("createStatement", NoParameters), None, call);
      s.Returned? && s.value.Proxy? &&
      var executed := InvokeEffect(created, digest, s.value.handler, Method("execute", [StringType]), Some([Text(sql)]), call).1;
      Lookup(executed.stopwatches, StatementStopwatchName(c.name, SqlId(digest, sql), ".exec")) == Stopwatch(0, 1, Some(sql))
  {
    var create := Method("createStatement", NoParameters);
    StatementOpens(reg, digest, c, create, None, call);
    var (s, created) := InvokeEffect(reg, digest, c, create, None, call);
    LastCharsDiffer(c.name + "." + SqlId(digest, sql), c.name, ".exec", ".stmt");
    MeasuredExecuteCountsOnce(created, digest, s.value.handler, Method("execute", [StringType]), Some([Text(sql)]), call, sql, SqlId(digest, sql));
  }

  /**
   * PreparedStatementProxyHandlerTest.testClose: prepareStatement(sql) on a connection proxy, with
   * a fresh `name.sqlId.stmt` stopwatch, gives one active split on it, which closing the
   * statement ends.
   */
  lemma PreparedCloseScenario(reg: Registry, digest: SqlDigest, c: JdbcHandler, statement: Value, sql: string, call: RealCall)
    requires Consistent(reg) && c.kind == ConnectionHandler
    requires Lookup(reg.stopwatches, StatementStopwatchName(c.name, SqlId(digest, sql), ".stmt")) == Unused
    requires statement.Object? && PreparedStatementType in statement.o.implements
    requires call(c.delegate, Method("prepareStatement", [StringType]), Some([Text(sql)])) == Returned(statement)
    ensures var (p, prepared) := InvokeEffect(reg, digest, c, Method("prepareStatement", [StringType]), Some([Text(sql)]), call);
      && p.Returned? && p.value.Proxy?
      && Lookup(prepared.stopwatches, StatementStopwatchName(c.name, SqlId(digest, sql), ".stmt")).active == 1
      && Lookup(InvokeEffect(prepared, digest, p.value.handler, Method("close", NoParameters), None, call).1.stopwatches,
                StatementStopwatchName(c.name, SqlId(digest, sql), ".stmt")).active == 0
  {
    var prepare := Method("prepareStatement", [StringType]);
    PreparedStatementOpens(reg, digest, c, prepare, sql, call);
    var (p, prepared) := InvokeEffect(reg, digest, c, prepare, Some([Text(sql)]), call);
    CloseStopsLifeSplit(prepared, digest, p.value.handler, NoParameters, None, call);
  }

  /**
   * PreparedStatementProxyHandlerTest.testExecute: two executeQuery() calls on a prepared
   * statement proxy count two on `name.sqlId.exec`, which had not been used.
   */
  lemma PreparedExecuteScenario(reg: Registry, digest: SqlDigest, c: JdbcHandler, statement: Value, resultSet: Value, sql: string, call: RealCall)
    requires Consistent(reg) && c.kind == ConnectionHandler
    requires Lookup(reg.stopwatches, StatementStopwatchName(c.name, SqlId(digest, sql), ".exec")) == Unused
    requires statement.Object? && PreparedStatementType in statement.o.implements
    requires resultSet.Object? && ResultSetType in resultSet.o.implements
    requires call(c.delegate, Method("prepareStatement", [StringType]), Some([Text(sql)])) == Returned(statement)
    requires call(statement, Method("executeQuery", NoParameters), None) == Returned(resultSet)
    ensures var (p, prepared) := InvokeEffect(reg, digest, c, Method("prepareStatement", [StringType]), Some([Text(sql)]), call);
      p.Returned? && p.value.Proxy? &&
      var once := InvokeEffect(prepared, digest, p.value.handler, Method("executeQuery", NoParameters), None, call).1;
      var twice := InvokeEffect(once, digest, p.value.handler, Method("executeQuery", NoParameters), None, call).1;
      && Lookup(once.stopwatches, StatementStopwatchName(c.name, SqlId(digest, sql), ".exec")).counter == 1
      && Lookup(twice.stopwatches, StatementStopwatchName(c.name, SqlId(digest, sql), ".exec")).counter == 2
  {
    var prepare := Method("prepareStatement", [StringType]);
    PreparedStatementOpens(reg, digest, c, prepare, sql, call);
    var (p, prepared) := InvokeEffect(reg, digest, c, prepare, Some([Text(sql)]), call);
    QueryTwiceAfterOpen(reg, prepared, p, digest, c.name, sql, call);
  }

  /** Opening the `.stmt` split leaves an unused `.exec` stopwatch unused, so two queries count two on it. */
  lemma QueryTwiceAfterOpen(reg: Registry, prepared: Registry, p: Outcome<Value>, digest: SqlDigest, name: string, sql: string, call: RealCall)
    requires OpensLifeSplit(reg, p, prepared, StatementStopwatchName(name, SqlId(digest, sql), ".stmt"))
    requires p.value.handler.kind == PreparedStatementHandler(sql, SqlId(digest, sql)) && p.value.handler.name == name
    requires Lookup(reg.stopwatches, StatementStopwatchName(name, SqlId(digest, sql), ".exec")) == Unused
    requires var q := call(p.value.handler.delegate, Method("executeQuery", NoParameters), None); q.Returned? && q.value.Object? && ResultSetType in q.value.o.implements
    ensures var h := p.value.handler;
      var once := InvokeEffect(prepared, digest, h, Method("executeQuery", NoParameters), None, call).1;
      var twice := InvokeEffect(once, digest, h, Method("executeQuery", NoParameters), None, call).1;
      && Lookup(once.stopwatches, StatementStopwatchName(name, SqlId(digest, sql), ".exec")).counter == 1
      && Lookup(twice.stopwatches, StatementStopwatchName(name, SqlId(digest, sql), ".exec")).counter == 2
  {
    var sqlId := SqlId(digest, sql);
    SuffixesDiffer(name + "." + sqlId, ".exec", ".stmt");
    assert Lookup(prepared.stopwatches, StatementStopwatchName(name, sqlId, ".exec")) == Unused;
    QueryTwice(prepared, digest, p.value.handler, call);
  }

  /** Two executeQuery() calls on one prepared statement proxy count two on its `.exec` stopwatch. */
  lemma QueryTwice(reg: Registry, digest: SqlDigest, h: JdbcHandler, call: RealCall)
    requires Consistent(reg) && h.kind.PreparedStatementHandler?
    requires var q := call(h.delegate, Method("executeQuery", NoParameters), None); q.Returned? && q.value.Object? && ResultSetType in q.value.o.implements
    ensures var exec := StatementStopwatchName(h.name, h.kind.sqlId, ".exec");
      var once := InvokeEffect(reg, digest, h, Method("executeQuery", NoParameters), None, call).1;
      var twice := InvokeEffect(once, digest, h, Method("executeQuery", NoParameters), None, call).1;
      && Lookup(once.stopwatches, exec).counter == Lookup(reg.stopwatches, exec).counter + 1
      && Lookup(twice.stopwatches, exec).counter == Lookup(reg.stopwatches, exec).counter + 2
  {
    PreparedQueryCounts(reg, digest, h, call);
    var once := InvokeEffect(reg, digest, h, Method("executeQuery", NoParameters), None, call).1;
    PreparedQueryCounts(once, digest, h, call);
  }

  /**
   * ResultSetProxyHandlerTest.testClose: executeQuery() on a prepared statement proxy gives a
   * result set proxy with one active split on a fresh `name.sqlId.rset`, and none once it is
   * closed.
   */
  lemma ResultSetScenario(reg: Registry, digest: SqlDigest, c: JdbcHandler, statement: Value, resultSet: Value, sql: string, call: RealCall)
    requires Consistent(reg) && c.kind == ConnectionHandler
    requires Lookup(reg.stopwatches, StatementStopwatchName(c.name, SqlId(digest, sql), ".rset")) == Unused
    requires statement.Object? && PreparedStatementType in statement.o.implements
    requires resultSet.Object? && ResultSetType in resultSet.o.implements
    requires call(c.delegate, Method("prepareStatement", [StringType]), Some([Text(sql)])) == Returned(statement)
    requires call(statement, Method("executeQuery", NoParameters), None) == Returned(resultSet)
    ensures var (p, prepared) := InvokeEffect(reg, digest, c, Method("prepareStatement", [StringType]), Some([Text(sql)]), call);
      p.Returned? && p.value.Proxy? &&
      var (rs, queried) := InvokeEffect(prepared, digest, p.value.handler, Method("executeQuery", NoParameters), None, call);
      && rs.Returned? && rs.value.Proxy?
      && Lookup(queried.stopwatches, StatementStopwatchName(c.name, SqlId(digest, sql), ".rset")).active == 1
      && Lookup(InvokeEffect(queried, digest, rs.value.handler, Method("close", NoParameters), None, call).1.stopwatches,
                StatementStopwatchName(c.name, SqlId(digest, sql), ".rset")).active == 0
  {
    var prepare := Method("prepareStatement", [StringType]);
    PreparedStatementOpens(reg, digest, c, prepare, sql, call);
    var (p, prepared) := InvokeEffect(reg, digest, c, prepare, Some([Text(sql)]), call);
    QueryThenCloseAfterOpen(reg, prepared, p, digest, c.name, sql, call);
  }

  /** Opening the `.stmt` split leaves an unused `.rset` stopwatch unused; a query then opens one split there, and close ends it. */
  lemma QueryThenCloseAfterOpen(reg: Registry, prepared: Registry, p: Outcome<Value>, digest: SqlDigest, name: string, sql: string, call: RealCall)
    requires OpensLifeSplit(reg, p, prepared, StatementStopwatchName(name, SqlId(digest, sql), ".stmt"))
    requires p.value.handler.kind == PreparedStatementHandler(sql, SqlId(digest, sql)) && p.value.handler.name == name
    requires Lookup(reg.stopwatches, StatementStopwatchName(name, SqlId(digest, sql), ".rset")) == Unused
    requires var q := call(p.value.handler.delegate, Method("executeQuery", NoParameters), None); q.Returned? && q.value.Object? && ResultSetType in q.value.o.implements
    ensures var (rs, queried) := InvokeEffect(prepared, digest, p.value.handler, Method("executeQuery", NoParameters), None, call);
      && rs.Returned? && rs.value.Proxy?
      && Lookup(queried.stopwatches, StatementStopwatchName(name, SqlId(digest, sql), ".rset")).active == 1
      && Lookup(InvokeEffect(queried, digest, rs.value.handler, Method("close", NoParameters), None, call).1.stopwatches,
                StatementStopwatchName(name, SqlId(digest, sql), ".rset")).active == 0
  {
    var sqlId := SqlId(digest, sql);
    SuffixesDiffer(name + "." + sqlId, ".rset", ".stmt");
    assert Lookup(prepared.stopwatches, StatementStopwatchName(name, sqlId, ".rset")) == Unused;
    QueryThenClose(prepared, digest, p.value.handler, call);
  }

  /**
   * executeQuery() on a prepared statement proxy opens one more split on its `.rset` stopwatch,
   * and closing the result set proxy it returns ends that split.
   */
  lemma QueryThenClose(reg: Registry, digest: SqlDigest, h: JdbcHandler, call: RealCall)
    requires Consistent(reg) && h.kind.PreparedStatementHandler?
    requires var q := call(h.delegate, Method("executeQuery", NoParameters), None); q.Returned? && q.value.Object? && ResultSetType in q.value.o.implements
    ensures var rset := StatementStopwatchName(h.name, h.kind.sqlId, ".rset");
      var (rs, queried) := InvokeEffect(reg, digest, h, Method("executeQuery", NoParameters), None, call);
      && rs.Returned? && rs.value.Proxy?
      && Lookup(queried.stopwatches, rset).active == Lookup(reg.stopwatches, rset).active + 1
      && Lookup(InvokeEffect(queried, digest, rs.value.handler, Method("close", NoParameters), None, call).1.stopwatches, rset).active
         == Lookup(reg.stopwatches, rset).active
  {
    PreparedQueryCounts(reg, digest, h, call);
    var (rs, queried) := InvokeEffect(reg, digest, h, Method("executeQuery", NoParameters), None, call);
    CloseStopsLifeSplit(queried, digest, rs.value.handler, NoParameters, None, call);
  }
}
