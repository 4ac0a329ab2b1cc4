/**
 * The values JDBC calls pass around, as the proxy handlers see them: JDBC objects of the driver,
 * proxies made for a handler, and plain values; plus the handlers themselves, whose fields are
 * all fixed when they are made.
 */
module JdbcTypes {
  import opened Wrappers
  import opened JavaLang
  import opened JdbcMetrics

  // ---------------------------------------------------------------- JDBC interfaces

  const ConnectionType := JavaClass("java.sql.Connection")
  const StatementType := JavaClass("java.sql.Statement")
  const PreparedStatementType := JavaClass("java.sql.PreparedStatement")
  const CallableStatementType := JavaClass("java.sql.CallableStatement")
  const ResultSetType := JavaClass("java.sql.ResultSet")
  const RowSetType := JavaClass("javax.sql.RowSet")
  const CachedRowSetType := JavaClass("javax.sql.rowset.CachedRowSet")
  const WebRowSetType := JavaClass("javax.sql.rowset.WebRowSet")
  const FilteredRowSetType := JavaClass("javax.sql.rowset.FilteredRowSet")
  const JoinRowSetType := JavaClass("javax.sql.rowset.JoinRowSet")
  const JdbcRowSetType := JavaClass("javax.sql.rowset.JdbcRowSet")
  const DataSourceType := JavaClass("javax.sql.DataSource")
  const XADataSourceType := JavaClass("javax.sql.XADataSource")
  const PooledConnectionType := JavaClass("javax.sql.PooledConnection")
  const XAConnectionType := JavaClass("javax.sql.XAConnection")
  const StringType := JavaClass("java.lang.String")
  const ClassType := JavaClass("java.lang.Class")

  // ---------------------------------------------------------------- values and handlers

  /** An object of the JDBC driver: its identity, its class's loader and every interface it implements. */
  datatype JdbcObject = JdbcObject(id: nat, classLoader: ClassLoader, implements: set<JavaClass>)

  /** A Java value that JDBC calls take or return. */
  datatype Value =
    | Null
    | Bool(b: bool)
    | Text(s: string)
    | ClassRef(c: JavaClass)
    | Object(o: JdbcObject)
    | Proxy(handler: JdbcHandler)

  /**
   * The concrete handler classes: the statement handlers of the prepared and callable kinds keep
   * the SQL and SQL id they were made for.
   */
  datatype HandlerKind =
    | StatementHandler
    | PreparedStatementHandler(sql: string, sqlId: string)
    | CallableStatementHandler(sql: string, sqlId: string)
    | ResultSetHandler
    | ConnectionHandler
    | DataSourceHandler
    | XADataSourceHandler
    | PooledConnectionHandler

  /** A JdbcProxyHandler: what it wraps, the interface it stands for, its name and its life split. */
  datatype JdbcHandler = JdbcHandler(kind: HandlerKind, delegate: Value, delegateType: JavaClass, name: string, lifeSplit: Option<Split>)

  /**
   * An interface and the JDBC interfaces it extends: the row-set hierarchy below ResultSet, the
   * statement hierarchy below Statement, and XAConnection below PooledConnection.
   */
  function Supertypes(c: JavaClass): (s: set<JavaClass>)
    ensures c in s
  {
    if c == FilteredRowSetType || c == JoinRowSetType then {c, WebRowSetType, CachedRowSetType, RowSetType, ResultSetType}
    else if c == WebRowSetType then {c, CachedRowSetType, RowSetType, ResultSetType}
    else if c == CachedRowSetType || c == JdbcRowSetType then {c, RowSetType, ResultSetType}
    else if c == RowSetType then {c, ResultSetType}
    else if c == CallableStatementType then {c, PreparedStatementType, StatementType}
    else if c == PreparedStatementType then {c, StatementType}
    else if c == XAConnectionType then {c, PooledConnectionType}
    else {c}
  }

  /**
   * `v instanceof type`. A proxy implements the one interface of the key it was made for, its
   * handler's delegate type, and so every interface that one extends.
   */
  predicate InstanceOf(v: Value, type_: JavaClass)
  {
    match v
    case Object(o) => type_ in o.implements
    case Proxy(h) => type_ in Supertypes(h.delegateType)
    case Text(_) => type_ == StringType
    case ClassRef(_) => type_ == ClassType
    case _ => false
  }

  /** Class.cast: null and instances pass unchanged, anything else throws ClassCastException. */
  function Cast(v: Value, type_: JavaClass): (r: Outcome<Value>)
    ensures r.Returned? <==> v.Null? || InstanceOf(v, type_)
    ensures r.Returned? ==> r.value == v
  {
    if v.Null? || InstanceOf(v, type_) then Returned(v) else Threw(Exception("ClassCastException", None))
  }

  /** `v.getClass().getClassLoader()`: a proxy's class lives in its delegate's loader; null has no class. */
  function LoaderOf(v: Value): Option<ClassLoader>
  {
    match v
    case Object(o) => Some(o.classLoader)
    case Proxy(h) => LoaderOf(h.delegate)
    case _ => None
  }
}
