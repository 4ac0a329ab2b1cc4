/**
 * The JDBC proxy handlers: each handler looks at the name of the method called on its proxy and
 * either forwards the call to the real JDBC object, answers isWrapperFor/unwrap itself, stops its
 * life split on close, measures an execute, or wraps the JDBC object a call returns.
 *
 * InvokeEffect states what one call does, as a function of the registry before the call; the
 * method Handle performs it against a factory's manager and SQL cache and is proved to agree.
 */
module JdbcHandlers {
  import opened Wrappers
  import opened JavaLang
  import opened JdbcMetrics
  import opened JdbcTypes
  import opened DelegatingMethodInvocation
  import opened JdbcProxyFactory
  import PF = ProxyFactory

  /** Method.invoke on a real JDBC object (and the direct calls unwrap makes on it). */
  type RealCall = (Value, Method, Option<seq<Value>>) -> Outcome<Value>

  /** A call on a handler's proxy, as the handler sees it. */
  type Invocation = MethodInvocation<Value, (), Value>

  /** The DelegatingMethodInvocation a handler builds: the call goes to its own delegate. */
  function InvocationOf(h: JdbcHandler, m: Method, args: Option<seq<Value>>): (mi: Invocation)
  {
    MethodInvocation(h.delegate, (), m, args)
  }

  // ---------------------------------------------------------------- dispatch

  /** What a handler does with a call. */
  datatype Action =
    | Forward
    | IsWrapperFor
    | Unwrap
    | Close
    | Execute
    | CreateStatement
    | PrepareStatement
    | PrepareCall
    | GetConnection
    | GetXAConnection

  predicate IsStatementKind(kind: HandlerKind)
  {
    kind.StatementHandler? || kind.PreparedStatementHandler? || kind.CallableStatementHandler?
  }

  /** The methods the Wrapper interface and close, which every statement, result set and connection handler intercepts. */
  function WrapperAction(name: string): Action
  {
    if name == "isWrapperFor" then IsWrapperFor
    else if name == "unwrap" then Unwrap
    else if name == "close" then Close
    else Forward
  }

  /**
   * The invoke dispatch of each handler: the statement handlers add the three execute methods,
   * the connection dispatch the three statement factories; the data source and pooled connection
   * handlers single out only the getter of their child connection.
   */
  function Route(kind: HandlerKind, name: string): (a: Action)
    ensures a == Execute ==> IsStatementKind(kind)
  {
    match kind
    case StatementHandler | PreparedStatementHandler(_, _) | CallableStatementHandler(_, _) =>
      if name == "execute" || name == "executeQuery" || name == "executeUpdate" then Execute else WrapperAction(name)
    case ResultSetHandler => WrapperAction(name)
    case ConnectionHandler =>
      if name == "createStatement" then CreateStatement
      else if name == "prepareStatement" then PrepareStatement
      else if name == "prepareCall" then PrepareCall
      else WrapperAction(name)
    case DataSourceHandler => if name == "getConnection" then GetConnection else Forward
    case XADataSourceHandler => if name == "getXAConnection" then GetXAConnection else Forward
    case PooledConnectionHandler => if name == "getConnection" then GetConnection else Forward
  }

  /**
   * THIS_INVOCATION_FILTER of the statement and result set handlers; the other handlers keep the
   * filter they inherit, which is not part of this model.
   */
  function InvocationFilter(kind: HandlerKind): Option<set<string>>
  {
    if IsStatementKind(kind) then Some({"isWrapperFor", "unwrap", "close", "execute", "executeQuery", "executeUpdate"})
    else if kind.ResultSetHandler? then Some({"isWrapperFor", "unwrap", "close"})
    else None
  }

  /** A filter names exactly the methods the handler's invoke does not simply forward. */
  lemma FilterMatchesRoute(kind: HandlerKind, name: string)
    requires InvocationFilter(kind).Some?
    ensures name in InvocationFilter(kind).value <==> Route(kind, name) != Forward
  {
  }

  /**
   * The data source and pooled connection handlers intercept nothing but their getter: isWrapperFor,
   * unwrap and close are forwarded too.
   */
  lemma DataSourcesForwardAllButTheGetter(kind: HandlerKind, name: string)
    requires kind.DataSourceHandler? || kind.XADataSourceHandler? || kind.PooledConnectionHandler?
    ensures Route(kind, name) != Forward ==> name == (if kind.XADataSourceHandler? then "getXAConnection" else "getConnection")
    ensures Route(kind, name) in {Forward, GetConnection, GetXAConnection}
  {
  }

  // ---------------------------------------------------------------- arguments

  /** getClassArg: argument 0 as a Class (null passes the cast). */
  function ClassArg(mi: Invocation): (r: Outcome<Value>)
    ensures r.Returned? ==> r.value.Null? || r.value.ClassRef?
  {
    TypedArgAt(mi, 0, (v: Value) => v.Null? || v.ClassRef?)
  }

  /**
   * getArgAt(0, String.class) used as SQL text. A null SQL text is taken to throw
   * NullPointerException when its id is built (the SQL cache's map rejects null keys).
   */
  function SqlArg(mi: Invocation): (r: Outcome<string>)
    ensures r.Returned? <==> ArgCount(mi) > 0 && ArgAt(mi, 0).Returned? && ArgAt(mi, 0).value.Text?
    ensures r.Returned? ==> ArgAt(mi, 0).value == Text(r.value)
  {
    match TypedArgAt(mi, 0, (v: Value) => v.Null? || v.Text?)
    case Threw(t) => Threw(t)
    case Returned(v) => if v.Text? then Returned(v.s) else Threw(NullPointerException())
  }

  // ---------------------------------------------------------------- JdbcProxyHandler

  const IsWrapperForMethod: Method := Method("isWrapperFor", [ClassType])
  const UnwrapMethod: Method := Method("unwrap", [ClassType])

  /** isWrapperFor: true for the handler's own delegate type, otherwise the delegate's answer. */
  function IsWrapperForResult(h: JdbcHandler, mi: Invocation, call: RealCall): (r: Outcome<Value>)
  {
    match ClassArg(mi)
    case Threw(t) => Threw(t)
    case Returned(iface) => if iface == ClassRef(h.delegateType) then Returned(Bool(true)) else Proceed(mi, call)
  }

  /** For its own delegate type, isWrapperFor answers true whatever the real object would say. */
  lemma IsWrapperForOwnTypeIgnoresDelegate(h: JdbcHandler, m: Method, args: Option<seq<Value>>, call1: RealCall, call2: RealCall)
    requires ArgAt(InvocationOf(h, m, args), 0) == Returned(ClassRef(h.delegateType))
    ensures IsWrapperForResult(h, InvocationOf(h, m, args), call1) == IsWrapperForResult(h, InvocationOf(h, m, args), call2) == Returned(Bool(true))
  {
  }

  /** For any other interface (or null), isWrapperFor is the real call. */
  lemma IsWrapperForOtherTypeForwards(h: JdbcHandler, m: Method, args: Option<seq<Value>>, call: RealCall)
    requires ArgAt(InvocationOf(h, m, args), 0).Returned?
    requires ArgAt(InvocationOf(h, m, args), 0).value != ClassRef(h.delegateType)
    requires ArgAt(InvocationOf(h, m, args), 0).value.Null? || ArgAt(InvocationOf(h, m, args), 0).value.ClassRef?
    ensures IsWrapperForResult(h, InvocationOf(h, m, args), call) == call(h.delegate, m, args)
  {
  }

  /**
   * unwrap: for the handler's own delegate type, the delegate's own unwrap if it says it wraps
   * that type, else the delegate itself cast to it; for any other interface the delegate's unwrap.
   */
  function UnwrapResult(h: JdbcHandler, mi: Invocation, call: RealCall): (r: Outcome<Value>)
    ensures ClassArg(mi).Threw? ==> r == ClassArg(mi)
    ensures ClassArg(mi).Returned? && ClassArg(mi).value != ClassRef(h.delegateType)
      ==> r == call(h.delegate, UnwrapMethod, Some([ClassArg(mi).value]))
    ensures ClassArg(mi) == Returned(ClassRef(h.delegateType)) ==>
      var wraps := call(h.delegate, IsWrapperForMethod, Some([ClassRef(h.delegateType)]));
      && (wraps.Threw? ==> r == Threw(wraps.thrown))
      && (wraps == Returned(Bool(true)) ==> r == call(h.delegate, UnwrapMethod, Some([ClassRef(h.delegateType)])))
      && (wraps.Returned? && wraps.value != Bool(true) ==> r == Cast(h.delegate, h.delegateType))
  {
    match ClassArg(mi)
    case Threw(t) => Threw(t)
    case Returned(iface) =>
      if iface == ClassRef(h.delegateType) then
        match call(h.delegate, IsWrapperForMethod, Some([iface]))
        case Threw(t) => Threw(t)
        case Returned(b) => if b == Bool(true) then call(h.delegate, UnwrapMethod, Some([iface])) else Cast(h.delegate, h.delegateType)
      else
        call(h.delegate, UnwrapMethod, Some([iface]))
  }

  /** unwrap of the delegate type from a delegate that wraps nothing hands back the delegate itself. */
  lemma UnwrapOwnTypeGivesDelegate(h: JdbcHandler, m: Method, args: Option<seq<Value>>, call: RealCall)
    requires ArgAt(InvocationOf(h, m, args), 0) == Returned(ClassRef(h.delegateType))
    requires call(h.delegate, IsWrapperForMethod, Some([ClassRef(h.delegateType)])) == Returned(Bool(false))
    requires InstanceOf(h.delegate, h.delegateType)
    ensures UnwrapResult(h, InvocationOf(h, m, args), call) == Returned(h.delegate)
  {
  }

  /** getProxyClass: the key for the delegate's class loader and the one interface delegateType. */
  method GetProxyClass(hashes: IdentityHashes, h: JdbcHandler) returns (r: Outcome<PF.ProxyClass>)
    ensures r.Returned? <==> LoaderOf(h.delegate).Some?
    ensures r.Returned? ==>
      && r.value.classLoader == LoaderOf(h.delegate).value && r.value.interfaces == [h.delegateType]
      && PF.WellFormed(hashes, r.value)
    ensures r.Threw? ==> r.thrown == NullPointerException()
  {
    r := PF.NewProxyClass(hashes, LoaderOf(h.delegate), [h.delegateType]);
  }

  /** Two handlers for the same interface over objects of one class loader share one proxy key. */
  method SameKeyForSameLoaderAndType(hashes: IdentityHashes, h1: JdbcHandler, h2: JdbcHandler) returns (equal: bool)
    requires LoaderOf(h1.delegate).Some? && LoaderOf(h1.delegate) == LoaderOf(h2.delegate)
    ensures equal <==> h1.delegateType == h2.delegateType
  {
    var k1 := GetProxyClass(hashes, h1);
    var k2 := GetProxyClass(hashes, h2);
    PF.EqualsIffSameLoaderAndInterfaces(hashes, k1.value, k2.value);
    equal := PF.Equals(k1.value, PF.Key(k2.value));
    assert [h1.delegateType] == [h2.delegateType] <==> h1.delegateType == h2.delegateType;
  }

  // ---------------------------------------------------------------- statements

  /**
   * The SQL an execute is measured under, if it is measured: argument 0 (with a fresh id) when
   * there are arguments; otherwise none for a plain statement and the stored SQL and id for a
   * prepared or callable statement.
   */
  function ExecuteSql(h: JdbcHandler, mi: Invocation, digest: SqlDigest): (r: Outcome<Option<(string, string)>>)
    requires IsStatementKind(h.kind)
    ensures ArgCount(mi) > 0 ==> (r.Returned? <==> SqlArg(mi).Returned?)
    ensures ArgCount(mi) > 0 && r.Returned? ==> r.value == Some((SqlArg(mi).value, SqlId(digest, SqlArg(mi).value)))
    ensures ArgCount(mi) == 0 ==> r.Returned? && (r.value.None? <==> h.kind.StatementHandler?)
    ensures ArgCount(mi) == 0 && !h.kind.StatementHandler? ==> r.value == Some((h.kind.sql, h.kind.sqlId))
  {
    if ArgCount(mi) > 0 then
      match SqlArg(mi)
      case Threw(t) => Threw(t)
      case Returned(sql) => Returned(Some((sql, SqlId(digest, sql))))
    else
      match h.kind
      case PreparedStatementHandler(sql, sqlId) => Returned(Some((sql, sqlId)))
      case CallableStatementHandler(sql, sqlId) => Returned(Some((sql, sqlId)))
      case _ => Returned(None)
  }

  /**
   * execute(mi, sql, sqlId): an `.exec` split is started, the real call made, the split stopped,
   * and a ResultSet result wrapped. A call that throws leaves the split running.
   */
  function MeasuredEffect(reg: Registry, h: JdbcHandler, mi: Invocation, call: RealCall, sql: string, sqlId: string)
    : (Outcome<Value>, Registry)
  {
    var (started, split) := StartStatementSplit(reg, h.name, sql, sqlId, ".exec");
    match Proceed(mi, call)
    case Threw(t) => (Threw(t), started)
    case Returned(v) =>
      var stopped := StopSplit(started, Some(split));
      if InstanceOf(v, ResultSetType) then WrappedResultSet(stopped, h.name, v, sql, sqlId) else (Returned(v), stopped)
  }

  /** The execute methods of the three statement handlers. */
  function ExecuteEffect(reg: Registry, digest: SqlDigest, h: JdbcHandler, mi: Invocation, call: RealCall): (Outcome<Value>, Registry)
    requires IsStatementKind(h.kind)
  {
    match ExecuteSql(h, mi, digest)
    case Threw(t) => (Threw(t), reg)
    case Returned(choice) =>
      if choice.None? then (Proceed(mi, call), reg)
      else MeasuredEffect(reg, h, mi, call, choice.value.0, choice.value.1)
  }

  // ---------------------------------------------------------------- child objects

  /** A returned child of the expected interface, or the ClassCastException of the Java cast. */
  function Child(returned: Outcome<Value>, type_: JavaClass): Outcome<Value>
  {
    match returned
    case Threw(t) => Threw(t)
    case Returned(v) => Cast(v, type_)
  }

  /** The interface the real call's result is cast to, for each child-wrapping call. */
  function ChildType(a: Action): JavaClass
  {
    match a
    case CreateStatement => StatementType
    case PrepareStatement => PreparedStatementType
    case PrepareCall => CallableStatementType
    case GetXAConnection => XAConnectionType
    case _ => ConnectionType
  }

  /**
   * createStatement, prepareStatement, prepareCall, getConnection and getXAConnection: the real
   * call, the cast of its result, then the wrap under this handler's own name (the statements
   * with argument 0 as their SQL).
   */
  function ChildEffect(reg: Registry, digest: SqlDigest, h: JdbcHandler, mi: Invocation, call: RealCall, a: Action)
    : (Outcome<Value>, Registry)
    requires a in {CreateStatement, PrepareStatement, PrepareCall, GetConnection, GetXAConnection}
  {
    match Child(Proceed(mi, call), ChildType(a))
    case Threw(t) => (Threw(t), reg)
    case Returned(child) =>
      if a == CreateStatement then WrappedStatement(reg, h.name, child)
      else if a == GetConnection then WrappedConnection(reg, h.name, child)
      else if a == GetXAConnection then WrappedXAConnection(reg, h.name, child)
      else
        match SqlArg(mi)
        case Threw(t) => (Threw(t), reg)
        case Returned(sql) =>
          if a == PrepareStatement then WrappedPreparedStatement(reg, digest, h.name, child, sql)
          else WrappedCallableStatement(reg, digest, h.name, child, sql)
  }

  // ---------------------------------------------------------------- one call

  /** What one call on a handler's proxy returns or throws, and the registry after it. */
  function InvokeEffect(reg: Registry, digest: SqlDigest, h: JdbcHandler, m: Method, args: Option<seq<Value>>, call: RealCall)
    : (Outcome<Value>, Registry)
  {
    var mi := InvocationOf(h, m, args);
    match Route(h.kind, m.name)
    case Forward => (Proceed(mi, call), reg)
    case IsWrapperFor => (IsWrapperForResult(h, mi, call), reg)
    case Unwrap => (UnwrapResult(h, mi, call), reg)
    case Close => (Proceed(mi, call), StopSplit(reg, h.lifeSplit))
    case Execute => ExecuteEffect(reg, digest, h, mi, call)
    case _ => ChildEffect(reg, digest, h, mi, call, Route(h.kind, m.name))
  }

  /** Handle's state in one value: the registry stays consistent through any call. */
  lemma {:induction false} InvokeKeepsConsistent(reg: Registry, digest: SqlDigest, h: JdbcHandler, m: Method, args: Option<seq<Value>>, call: RealCall)
    requires Consistent(reg)
    ensures Consistent(InvokeEffect(reg, digest, h, m, args, call).1)
  {
    var mi := InvocationOf(h, m, args);
    if Route(h.kind, m.name) == Execute {
      var choice := ExecuteSql(h, mi, digest);
      if choice.Returned? && choice.value.Some? {
        var (started, split) := StartStatementSplit(reg, h.name, choice.value.value.0, choice.value.value.1, ".exec");
        assert Consistent(StopSplit(started, Some(split)));
      }
    }
  }

  /**
   * Handle: one call on the proxy of handler `h`, performed on the factory's manager and SQL
   * cache (`now` is the clock reading buildSqlId's cache sees).
   */
  method Handle(factory: JdbcProxyFactory, h: JdbcHandler, m: Method, args: Option<seq<Value>>, call: RealCall, now: int)
    returns (r: Outcome<Value>)
    requires factory.Valid()
    modifies factory.manager, factory.CacheObjects()
    ensures factory.Valid()
    ensures factory.CacheObjects() >= old(factory.CacheObjects()) && fresh(factory.CacheObjects() - old(factory.CacheObjects()))
    ensures (r, factory.manager.state) == InvokeEffect(old(factory.manager.state), factory.digest, h, m, args, call)
  {
    var mi := InvocationOf(h, m, args);
    var action := Route(h.kind, m.name);
    if action == Close {
      factory.manager.Stop(h.lifeSplit);
      r := Proceed(mi, call);
    } else if action == Execute {
      r := HandleExecute(factory, h, mi, call, now);
    } else if action in {CreateStatement, PrepareStatement, PrepareCall, GetConnection, GetXAConnection} {
      r := HandleChild(factory, h, mi, call, action, now);
    } else if action == IsWrapperFor {
      r := IsWrapperForResult(h, mi, call);
    } else if action == Unwrap {
      r := UnwrapResult(h, mi, call);
    } else {
      r := Proceed(mi, call);
    }
  }

  /** The execute methods, on the factory. */
  method HandleExecute(factory: JdbcProxyFactory, h: JdbcHandler, mi: Invocation, call: RealCall, now: int) returns (r: Outcome<Value>)
    requires factory.Valid() && IsStatementKind(h.kind)
    modifies factory.manager, factory.CacheObjects()
    ensures factory.Valid()
    ensures factory.CacheObjects() >= old(factory.CacheObjects()) && fresh(factory.CacheObjects() - old(factory.CacheObjects()))
    ensures (r, factory.manager.state) == ExecuteEffect(old(factory.manager.state), factory.digest, h, mi, call)
  {
    var sql: string, sqlId: string;
    if ArgCount(mi) > 0 {
      var arg := SqlArg(mi);
      if arg.Threw? {
        return Threw(arg.thrown);
      }
      sql := arg.value;
      sqlId := factory.BuildSqlId(sql, now);
    } else if h.kind.StatementHandler? {
      return Proceed(mi, call);
    } else {
      sql, sqlId := h.kind.sql, h.kind.sqlId;
    }
    r := HandleMeasured(factory, h, mi, call, sql, sqlId);
  }

  /** execute(mi, sql, sqlId), on the factory. */
  method HandleMeasured(factory: JdbcProxyFactory, h: JdbcHandler, mi: Invocation, call: RealCall, sql: string, sqlId: string)
    returns (r: Outcome<Value>)
    requires factory.Valid()
    modifies factory.manager
    ensures factory.Valid()
    ensures (r, factory.manager.state) == MeasuredEffect(old(factory.manager.state), h, mi, call, sql, sqlId)
  {
    var split := factory.StartStatementStopwatch(h.name, sql, sqlId, ".exec");
    r := Proceed(mi, call);
    if r.Returned? {
      factory.manager.Stop(Some(split));
      if InstanceOf(r.value, ResultSetType) {
        r := factory.WrapResultSet(h.name, r.value, sql, sqlId);
      }
    }
  }

  /** The child-wrapping calls, on the factory. */
  method HandleChild(factory: JdbcProxyFactory, h: JdbcHandler, mi: Invocation, call: RealCall, action: Action, now: int)
    returns (r: Outcome<Value>)
    requires factory.Valid()
    requires action in {CreateStatement, PrepareStatement, PrepareCall, GetConnection, GetXAConnection}
    modifies factory.manager, factory.CacheObjects()
    ensures factory.Valid()
    ensures factory.CacheObjects() >= old(factory.CacheObjects()) && fresh(factory.CacheObjects() - old(factory.CacheObjects()))
    ensures (r, factory.manager.state) == ChildEffect(old(factory.manager.state), factory.digest, h, mi, call, action)
  {
    var child := Child(Proceed(mi, call), ChildType(action));
    if child.Threw? {
      return child;
    }
    if action == CreateStatement {
      r := factory.WrapStatement(h.name, child.value);
    } else if action == GetConnection {
      r := factory.WrapConnection(h.name, child.value);
    } else if action == GetXAConnection {
      r := factory.WrapXAConnection(h.name, child.value);
    } else {
      var sql := SqlArg(mi);
      if sql.Threw? {
        return Threw(sql.thrown);
      }
      if action == PrepareStatement {
        r := factory.WrapPreparedStatement(h.name, child.value, sql.value, now);
      } else {
        r := factory.WrapCallableStatement(h.name, child.value, sql.value, now);
      }
    }
  }
}
