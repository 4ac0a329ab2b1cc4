/**
 * JdbcProxyFactory: the SQL id scheme (normaliser type, '_', hexadecimal digest), the cache in
 * front of it, the stopwatch names for connections, statements, executions and result sets, and
 * the `wrap*` operations that start a life split and hand back a proxy for a new handler.
 */
module JdbcProxyFactory {
  import opened Wrappers
  import opened JavaLang
  import opened Cache
  import opened JdbcMetrics
  import opened JdbcTypes

  // ---------------------------------------------------------------- hexadecimal digests

  /** A Java byte. */
  newtype int8 = x: int | -128 <= x < 128

  /** `b & 0xff` */
  function Unsigned(b: int8): (u: nat)
    ensures u < 256 && (u - b as int) % 256 == 0
  {
    if b < 0 then b as int + 256 else b as int
  }

  /** The byte whose unsigned value is u. */
  function Signed(u: nat): int8
    requires u < 256
  {
    if u >= 128 then (u - 256) as int8 else u as int8
  }

  /** A lower-case hexadecimal digit, as Integer.toString writes them. */
  predicate IsHexDigit(c: char)
  {
    '0' <= c <= '9' || 'a' <= c <= 'f'
  }

  /** The digit for d: '0'..'9', then 'a'..'f'. */
  function HexDigit(d: nat): (c: char)
    requires d < 16
    ensures IsHexDigit(c)
  {
    if d < 10 then ('0' as int + d) as char else ('a' as int + d - 10) as char
  }

  /** Integer.toString(n, 16) for a non-negative n: lower-case digits, no leading zeros. */
  function ToStringRadix16(n: nat): string
  {
    if n < 16 then [HexDigit(n)] else ToStringRadix16(n / 16) + [HexDigit(n % 16)]
  }

  /** A byte's unsigned value plus 0x100 has three digits, the first of them '1'. */
  lemma Radix16OfByte(u: nat)
    requires u < 256
    ensures ToStringRadix16(u + 0x100) == ['1', HexDigit(u / 16), HexDigit(u % 16)]
  {
    var n := u + 0x100;
    assert n / 16 == u / 16 + 16 && n % 16 == u % 16;
    assert n / 16 / 16 == 1 && n / 16 % 16 == u / 16;
    assert ToStringRadix16(n / 16) == ToStringRadix16(1) + [HexDigit(u / 16)];
  }

  /**
   * The digits toHexa appends for one byte: `Integer.toString((b & 0xff) + 0x100, 16)` without its
   * first character, that is two zero-padded digits.
   */
  function HexByte(b: int8): (r: string)
    ensures r == [HexDigit(Unsigned(b) / 16), HexDigit(Unsigned(b) % 16)]
  {
    Radix16OfByte(Unsigned(b));
    ToStringRadix16(Unsigned(b) + 0x100)[1..]
  }

  /** The hexadecimal form of a byte array, byte by byte in order. */
  function Hex(bytes: seq<int8>): (r: string)
    ensures |r| == 2 * |bytes|
    ensures forall i :: 0 <= i < |r| ==> IsHexDigit(r[i])
  {
    if bytes == [] then [] else HexByte(bytes[0]) + Hex(bytes[1..])
  }

  /** toHexa: append the hexadecimal form of `input` to `builder`. */
  method ToHexa(input: seq<int8>, builder: string) returns (output: string)
    ensures output == builder + Hex(input)
  {
    output := builder;
    var i := 0;
    while i < |input|
      invariant 0 <= i <= |input|
      invariant output + Hex(input[i..]) == builder + Hex(input)
    {
      assert Hex(input[i..]) == HexByte(input[i]) + Hex(input[i + 1..]);
      output := output + HexByte(input[i]);
      i := i + 1;
    }
  }

  /** The value of a lower-case hexadecimal digit. */
  function HexValue(c: char): (d: Option<nat>)
    ensures d.Some? <==> IsHexDigit(c)
    ensures d.Some? ==> d.value < 16 && HexDigit(d.value) == c
  {
    if '0' <= c <= '9' then Some(c as int - '0' as int)
    else if 'a' <= c <= 'f' then Some(c as int - 'a' as int + 10)
    else None
  }

  /** Reads a hexadecimal form back into bytes, two digits a byte: the inverse of Hex. */
  function ParseHex(s: string): Option<seq<int8>>
  {
    if s == [] then Some([])
    else if |s| == 1 || HexValue(s[0]).None? || HexValue(s[1]).None? || ParseHex(s[2..]).None? then None
    else Some([Signed(HexValue(s[0]).value * 16 + HexValue(s[1]).value)] + ParseHex(s[2..]).value)
  }

  /** Hex loses nothing: the bytes can be read back from it. */
  lemma {:induction false} ParseHexOfHex(bytes: seq<int8>)
    ensures ParseHex(Hex(bytes)) == Some(bytes)
  {
    if bytes != [] {
      var s := Hex(bytes);
      var u := Unsigned(bytes[0]);
      assert s[0] == HexDigit(u / 16) && s[1] == HexDigit(u % 16) && s[2..] == Hex(bytes[1..]);
      assert HexValue(s[0]) == Some(u / 16) && HexValue(s[1]) == Some(u % 16);
      ParseHexOfHex(bytes[1..]);
      assert u / 16 * 16 + u % 16 == u;
      assert Signed(u) == bytes[0];
      assert [bytes[0]] + bytes[1..] == bytes;
    }
  }

  /** Different digests have different hexadecimal forms. */
  lemma HexInjective(a: seq<int8>, b: seq<int8>)
    requires Hex(a) == Hex(b)
    ensures a == b
  {
    ParseHexOfHex(a);
    ParseHexOfHex(b);
  }

  // ---------------------------------------------------------------- SQL ids

  /**
   * SqlNormalizer and SHA-1 together: for an SQL text, the normaliser's statement type and the
   * digest of the normalised text.
   */
  type SqlDigest = string -> (string, seq<int8>)

  /** SQL_CACHE_LOADER.load: the statement type, '_', then the digest in hexadecimal. */
  function SqlId(digest: SqlDigest, sql: string): (id: string)
  {
    digest(sql).0 + "_" + Hex(digest(sql).1)
  }

  /** An id names its statement type and digest exactly: a different type or digest gives another id. */
  lemma SqlIdDeterminesDigest(digest: SqlDigest, a: string, b: string)
    requires '_' !in digest(a).0 && '_' !in digest(b).0
    ensures SqlId(digest, a) == SqlId(digest, b) <==> digest(a) == digest(b)
  {
    var (ta, da) := digest(a);
    var (tb, db) := digest(b);
    if SqlId(digest, a) == SqlId(digest, b) {
      UnderscoreSplits(ta, Hex(da), tb, Hex(db));
      HexInjective(da, db);
    }
  }

  /** A prefix free of '_' is recovered from `prefix + "_" + rest`. */
  lemma UnderscoreSplits(p1: string, r1: string, p2: string, r2: string)
    requires '_' !in p1 && '_' !in p2
    requires p1 + "_" + r1 == p2 + "_" + r2
    ensures p1 == p2 && r1 == r2
  {
    var s := p1 + "_" + r1;
    assert s[|p1|] == '_';
    assert s[|p2|] == (p2 + "_" + r2)[|p2|] == '_';
    assert forall i :: 0 <= i < |p1| ==> s[i] == p1[i];
    assert forall i :: 0 <= i < |p2| ==> s[i] == (p2 + "_" + r2)[i] == p2[i];
    assert |p1| == |p2|;
    assert p1 == s[..|p1|] && r1 == s[|p1| + 1..];
    assert p2 == (p2 + "_" + r2)[..|p2|] && r2 == (p2 + "_" + r2)[|p2| + 1..];
  }

  /** SQL_CACHE_LOADER as a cache loader: it never fails, and the time of loading plays no part. */
  function SqlCacheLoader(digest: SqlDigest): (loader: (string, int) -> Result<string, Throwable>)
    ensures TimeIndependent(loader)
    ensures forall sql, at :: loader(sql, at) == Ok(SqlId(digest, sql))
  {
    (sql: string, at: int) => Ok(SqlId(digest, sql))
  }

  /** The SQL cache: the pass-through NoCache or a MapCache. */
  datatype SqlCache =
    | NoSqlCache(noCache: NoCache<string, string, Throwable>)
    | MapSqlCache(mapCache: MapCache<string, string, Throwable>)


  /**
   * getResultSetType: the most specific of the row-set interfaces the result set implements, in
   * the order FilteredRowSet, JoinRowSet, WebRowSet, CachedRowSet, JdbcRowSet, RowSet, else ResultSet.
   */
  function GetResultSetType(resultSet: Value): (type_: JavaClass)
    ensures InstanceOf(resultSet, ResultSetType) ==> InstanceOf(resultSet, type_)
    ensures type_ in {FilteredRowSetType, JoinRowSetType, WebRowSetType, CachedRowSetType, JdbcRowSetType, RowSetType, ResultSetType}
  {
    if InstanceOf(resultSet, RowSetType) then
      if InstanceOf(resultSet, CachedRowSetType) then
        if InstanceOf(resultSet, WebRowSetType) then
          if InstanceOf(resultSet, FilteredRowSetType) then FilteredRowSetType
          else if InstanceOf(resultSet, JoinRowSetType) then JoinRowSetType
          else WebRowSetType
        else CachedRowSetType
      else if InstanceOf(resultSet, JdbcRowSetType) then JdbcRowSetType
      else RowSetType
    else ResultSetType
  }

  /** A row set that is cached but not a web row set is typed CachedRowSet, even if it is also a JdbcRowSet. */
  lemma CachedBeforeJdbcRowSet(o: JdbcObject)
    requires RowSetType in o.implements && CachedRowSetType in o.implements && WebRowSetType !in o.implements
    ensures GetResultSetType(Object(o)) == CachedRowSetType
  {
  }

  // ---------------------------------------------------------------- stopwatches and wrapping

  /** The stopwatch of an SQL statement: `name.sqlId` followed by `.stmt`, `.exec` or `.rset`. */
  function StatementStopwatchName(name: string, sqlId: string, suffix: string): string
  {
    name + "." + sqlId + suffix
  }

  /** The note is set to the SQL only while the stopwatch has none: the first SQL text stays. */
  function NoteIfAbsent(reg: Registry, name: string, sql: string): (r: Registry)
    ensures Lookup(r.stopwatches, name) == Lookup(reg.stopwatches, name).(note := Some(Lookup(reg.stopwatches, name).note.GetOr(sql)))
    ensures forall n :: n != name ==> Lookup(r.stopwatches, n) == Lookup(reg.stopwatches, n)
    ensures r.running == reg.running && r.nextSplit == reg.nextSplit
  {
    if Lookup(reg.stopwatches, name).note.None? then WithNote(reg, name, sql) else reg
  }

  /**
   * startStatementStopwatch(name, sql, sqlId, suffix): a split on `name.sqlId` + suffix, whose
   * stopwatch keeps its first note.
   */
  function StartStatementSplit(reg: Registry, name: string, sql: string, sqlId: string, suffix: string): (r: (Registry, Split))
    ensures var watch := Lookup(reg.stopwatches, StatementStopwatchName(name, sqlId, suffix));
      Lookup(r.0.stopwatches, StatementStopwatchName(name, sqlId, suffix))
        == Stopwatch(watch.active + 1, watch.counter, Some(watch.note.GetOr(sql)))
    ensures r.1.name == StatementStopwatchName(name, sqlId, suffix)
    ensures Consistent(reg) ==> Consistent(r.0) && r.1.id !in reg.running && r.0.running == reg.running[r.1.id := r.1.name]
  {
    var full := StatementStopwatchName(name, sqlId, suffix);
    StartSplit(NoteIfAbsent(reg, full, sql), full)
  }

  /**
   * JdbcProxyFactory.newProxy: the proxy for a handler; building its ProxyClass key asks the
   * delegate for its class, which throws NullPointerException for a null delegate.
   */
  function NewProxy(h: JdbcHandler): (r: Outcome<Value>)
    ensures r.Returned? <==> !h.delegate.Null?
    ensures r.Returned? ==> r.value == Proxy(h)
  {
    if h.delegate.Null? then Threw(Exception("NullPointerException", None)) else Returned(Proxy(h))
  }

  /**
   * The common shape of the wrap operations that measure a lifetime: the split is started on
   * `stopwatch` first, then the handler holding it is built and proxied.
   */
  function StartAndWrap(reg: Registry, kind: HandlerKind, delegate: Value, delegateType: JavaClass, name: string, stopwatch: string)
    : (r: (Outcome<Value>, Registry))
    ensures Lookup(r.1.stopwatches, stopwatch) == Lookup(reg.stopwatches, stopwatch).(active := Lookup(reg.stopwatches, stopwatch).active + 1)
    ensures forall n :: n != stopwatch ==> Lookup(r.1.stopwatches, n) == Lookup(reg.stopwatches, n)
    ensures Consistent(reg) ==> Consistent(r.1)
    ensures r.0.Returned? <==> !delegate.Null?
    ensures r.0.Returned? ==>
      && r.0.value.Proxy? && r.0.value.handler.kind == kind && r.0.value.handler.delegate == delegate
      && r.0.value.handler.delegateType == delegateType && r.0.value.handler.name == name
      && r.0.value.handler.lifeSplit.Some? && r.0.value.handler.lifeSplit.value.name == stopwatch
      && r.1.running == reg.running[r.0.value.handler.lifeSplit.value.id := stopwatch]
      && (Consistent(reg) ==> r.0.value.handler.lifeSplit.value.id !in reg.running)
  {
    var (after, split) := StartSplit(reg, stopwatch);
    (NewProxy(JdbcHandler(kind, delegate, delegateType, name, Some(split))), after)
  }

  /** wrapConnection: a life split on `name.conn`. */
  function WrappedConnection(reg: Registry, name: string, connection: Value): (Outcome<Value>, Registry)
  {
    StartAndWrap(reg, ConnectionHandler, connection, ConnectionType, name, name + ".conn")
  }

  /** wrapPooledConnection: a life split on `name.pooledconn`. */
  function WrappedPooledConnection(reg: Registry, name: string, connection: Value): (Outcome<Value>, Registry)
  {
    StartAndWrap(reg, PooledConnectionHandler, connection, PooledConnectionType, name, name + ".pooledconn")
  }

  /** wrapXAConnection: as wrapPooledConnection, with XAConnection as the delegate type. */
  function WrappedXAConnection(reg: Registry, name: string, connection: Value): (Outcome<Value>, Registry)
  {
    StartAndWrap(reg, PooledConnectionHandler, connection, XAConnectionType, name, name + ".pooledconn")
  }

  /** wrapStatement: a life split on `name.stmt`. */
  function WrappedStatement(reg: Registry, name: string, statement: Value): (Outcome<Value>, Registry)
  {
    StartAndWrap(reg, StatementHandler, statement, StatementType, name, name + ".stmt")
  }

  /**
   * wrapPreparedStatement: the SQL id is built once, and the same SQL and id go to the `.stmt`
   * life split and to the handler.
   */
  function WrappedPreparedStatement(reg: Registry, digest: SqlDigest, name: string, statement: Value, sql: string)
    : (r: (Outcome<Value>, Registry))
    ensures r.0.Returned? ==>
      && r.0.value.Proxy? && r.0.value.handler.lifeSplit.Some?
      && r.0.value.handler.kind == PreparedStatementHandler(sql, SqlId(digest, sql))
      && r.0.value.handler.lifeSplit.value.name == StatementStopwatchName(name, r.0.value.handler.kind.sqlId, ".stmt")
  {
    var sqlId := SqlId(digest, sql);
    var full := StatementStopwatchName(name, sqlId, ".stmt");
    StartAndWrap(NoteIfAbsent(reg, full, sql), PreparedStatementHandler(sql, sqlId), statement, PreparedStatementType, name, full)
  }

  /** wrapCallableStatement: as wrapPreparedStatement, for a callable statement. */
  function WrappedCallableStatement(reg: Registry, digest: SqlDigest, name: string, statement: Value, sql: string)
    : (r: (Outcome<Value>, Registry))
    ensures r.0.Returned? ==>
      && r.0.value.Proxy? && r.0.value.handler.lifeSplit.Some?
      && r.0.value.handler.kind == CallableStatementHandler(sql, SqlId(digest, sql))
      && r.0.value.handler.lifeSplit.value.name == StatementStopwatchName(name, r.0.value.handler.kind.sqlId, ".stmt")
  {
    var sqlId := SqlId(digest, sql);
    var full := StatementStopwatchName(name, sqlId, ".stmt");
    StartAndWrap(NoteIfAbsent(reg, full, sql), CallableStatementHandler(sql, sqlId), statement, CallableStatementType, name, full)
  }

  /** wrapResultSet: a life split on `name.sqlId.rset`, and the interface getResultSetType picks. */
  function WrappedResultSet(reg: Registry, name: string, resultSet: Value, sql: string, sqlId: string): (Outcome<Value>, Registry)
  {
    var full := StatementStopwatchName(name, sqlId, ".rset");
    StartAndWrap(NoteIfAbsent(reg, full, sql), ResultSetHandler, resultSet, GetResultSetType(resultSet), name, full)
  }

  /** wrapDataSource: no life split. */
  function WrappedDataSource(name: string, dataSource: Value): Outcome<Value>
  {
    NewProxy(JdbcHandler(DataSourceHandler, dataSource, DataSourceType, name, None))
  }

  /** wrapXADataSource: no life split. */
  function WrappedXADataSource(name: string, dataSource: Value): Outcome<Value>
  {
    NewProxy(JdbcHandler(XADataSourceHandler, dataSource, XADataSourceType, name, None))
  }

  /**
   * A wrapped result set is typed by an interface its delegate implements, and its `.rset`
   * stopwatch carries the SQL text unless it already had a note.
   */
  lemma WrappedResultSetIsTyped(reg: Registry, name: string, resultSet: Value, sql: string, sqlId: string)
    requires InstanceOf(resultSet, ResultSetType)
    ensures var (r, after) := WrappedResultSet(reg, name, resultSet, sql, sqlId);
      && r.Returned? && InstanceOf(resultSet, r.value.handler.delegateType)
      && Lookup(after.stopwatches, StatementStopwatchName(name, sqlId, ".rset")).note
         == Some(Lookup(reg.stopwatches, StatementStopwatchName(name, sqlId, ".rset")).note.GetOr(sql))
  {
  }

  // ---------------------------------------------------------------- the factory

  class JdbcProxyFactory {
    const manager: Manager
    const digest: SqlDigest
    const sqlCache: SqlCache

    /** The cache objects buildSqlId may update. */
    ghost function CacheObjects(): set<object>
      reads if sqlCache.MapSqlCache? then {sqlCache.mapCache} else {}
    {
      if sqlCache.MapSqlCache? then {sqlCache.mapCache} + sqlCache.mapCache.Repr else {}
    }

    /** The registry is consistent and the cache loads SQL ids with SQL_CACHE_LOADER. */
    ghost predicate Valid()
      reads this, manager, CacheObjects()
    {
      && Consistent(manager.state)
      && (sqlCache.NoSqlCache? ==> sqlCache.noCache.loader == SqlCacheLoader(digest))
      && (sqlCache.MapSqlCache? ==> sqlCache.mapCache.Valid() && sqlCache.mapCache.loader == SqlCacheLoader(digest))
    }

    /**
     * The constructor's cache choice: no cache size, or one of at most zero, gives the
     * pass-through NoCache; any other size a MapCache with that size and time to live.
     */
    constructor(manager: Manager, digest: SqlDigest, sqlCacheSize: Option<int32>, sqlCacheTimeToLive: Option<int>)
      requires Consistent(manager.state)
      ensures Valid() && this.manager == manager && this.digest == digest
      ensures sqlCache.NoSqlCache? <==> sqlCacheSize.None? || sqlCacheSize.value <= 0
      ensures sqlCache.MapSqlCache? ==>
        && fresh(sqlCache.mapCache) && sqlCache.mapCache.Repr == {}
        && sqlCache.mapCache.size == Some(sqlCacheSize.value as int) && sqlCache.mapCache.timeToLive == sqlCacheTimeToLive
    {
      this.manager := manager;
      this.digest := digest;
      if sqlCacheSize.None? || sqlCacheSize.value <= 0 {
        sqlCache := NoSqlCache(NoCache(SqlCacheLoader(digest)));
      } else {
        var cache := new MapCache(SqlCacheLoader(digest), Some(sqlCacheSize.value as int), sqlCacheTimeToLive);
        sqlCache := MapSqlCache(cache);
      }
    }

    /**
     * buildSqlId: the id SQL_CACHE_LOADER gives the SQL text, whether the cache held it or not,
     * so equal SQL texts always get equal ids.
     */
    method BuildSqlId(sql: string, now: int) returns (id: string)
      requires Valid()
      modifies CacheObjects()
      ensures Valid() && CacheObjects() >= old(CacheObjects()) && fresh(CacheObjects() - old(CacheObjects()))
      ensures id == SqlId(digest, sql)
    {
      match sqlCache
      case NoSqlCache(noCache) =>
        var r := noCache.Get(sql, now);
        id := r.value;
      case MapSqlCache(mapCache) =>
        var r, _ := mapCache.Get(sql, now, now);
        id := r.value;
    }

    /** startStopwatch(name), and through it the connection and statement life splits. */
    method StartStopwatch(name: string) returns (split: Split)
      requires Valid()
      modifies manager
      ensures Valid()
      ensures (manager.state, split) == StartSplit(old(manager.state), name)
    {
      split := manager.Start(name);
    }

    /** startStatementStopwatch(name, sql, sqlId, suffix) */
    method StartStatementStopwatch(name: string, sql: string, sqlId: string, suffix: string) returns (split: Split)
      requires Valid()
      modifies manager
      ensures Valid()
      ensures (manager.state, split) == StartStatementSplit(old(manager.state), name, sql, sqlId, suffix)
    {
      var full := name + "." + sqlId + suffix;
      var note := manager.Note(full);
      if note.None? {
        manager.SetNote(full, sql);
      }
      split := manager.Start(full);
    }

    /** newProxy for a handler built by one of the wrap operations. */
    static method NewProxyFor(h: JdbcHandler) returns (proxy: Outcome<Value>)
      ensures proxy == NewProxy(h)
    {
      if h.delegate.Null? {
        proxy := Threw(Exception("NullPointerException", None));
      } else {
        proxy := Returned(Proxy(h));
      }
    }

    /** wrapDataSource */
    method WrapDataSource(name: string, dataSource: Value) returns (proxy: Outcome<Value>)
      ensures proxy == WrappedDataSource(name, dataSource)
    {
      proxy := NewProxyFor(JdbcHandler(DataSourceHandler, dataSource, DataSourceType, name, None));
    }

    /** wrapXADataSource */
    method WrapXADataSource(name: string, dataSource: Value) returns (proxy: Outcome<Value>)
      ensures proxy == WrappedXADataSource(name, dataSource)
    {
      proxy := NewProxyFor(JdbcHandler(XADataSourceHandler, dataSource, XADataSourceType, name, None));
    }

    /** wrapPooledConnection */
    method WrapPooledConnection(name: string, connection: Value) returns (proxy: Outcome<Value>)
      requires Valid()
      modifies manager
      ensures Valid()
      ensures (proxy, manager.state) == WrappedPooledConnection(old(manager.state), name, connection)
    {
      var split := StartStopwatch(name + ".pooledconn");
      proxy := NewProxyFor(JdbcHandler(PooledConnectionHandler, connection, PooledConnectionType, name, Some(split)));
    }

    /** wrapXAConnection */
    method WrapXAConnection(name: string, connection: Value) returns (proxy: Outcome<Value>)
      requires Valid()
      modifies manager
      ensures Valid()
      ensures (proxy, manager.state) == WrappedXAConnection(old(manager.state), name, connection)
    {
      var split := StartStopwatch(name + ".pooledconn");
      proxy := NewProxyFor(JdbcHandler(PooledConnectionHandler, connection, XAConnectionType, name, Some(split)));
    }

    /** wrapConnection */
    method WrapConnection(name: string, connection: Value) returns (proxy: Outcome<Value>)
      requires Valid()
      modifies manager
      ensures Valid()
      ensures (proxy, manager.state) == WrappedConnection(old(manager.state), name, connection)
    {
      var split := StartStopwatch(name + ".conn");
      proxy := NewProxyFor(JdbcHandler(ConnectionHandler, connection, ConnectionType, name, Some(split)));
    }

    /** wrapStatement */
    method WrapStatement(name: string, statement: Value) returns (proxy: Outcome<Value>)
      requires Valid()
      modifies manager
      ensures Valid()
      ensures (proxy, manager.state) == WrappedStatement(old(manager.state), name, statement)
    {
      var split := StartStopwatch(name + ".stmt");
      proxy := NewProxyFor(JdbcHandler(StatementHandler, statement, StatementType, name, Some(split)));
    }

    /** wrapPreparedStatement */
    method WrapPreparedStatement(name: string, statement: Value, sql: string, now: int) returns (proxy: Outcome<Value>)
      requires Valid()
      modifies manager, CacheObjects()
      ensures Valid() && CacheObjects() >= old(CacheObjects()) && fresh(CacheObjects() - old(CacheObjects()))
      ensures (proxy, manager.state) == WrappedPreparedStatement(old(manager.state), digest, name, statement, sql)
    {
      var sqlId := BuildSqlId(sql, now);
      var split := StartStatementStopwatch(name, sql, sqlId, ".stmt");
      proxy := NewProxyFor(JdbcHandler(PreparedStatementHandler(sql, sqlId), statement, PreparedStatementType, name, Some(split)));
    }

    /** wrapCallableStatement */
    method WrapCallableStatement(name: string, statement: Value, sql: string, now: int) returns (proxy: Outcome<Value>)
      requires Valid()
      modifies manager, CacheObjects()
      ensures Valid() && CacheObjects() >= old(CacheObjects()) && fresh(CacheObjects() - old(CacheObjects()))
      ensures (proxy, manager.state) == WrappedCallableStatement(old(manager.state), digest, name, statement, sql)
    {
      var sqlId := BuildSqlId(sql, now);
      var split := StartStatementStopwatch(name, sql, sqlId, ".stmt");
      proxy := NewProxyFor(JdbcHandler(CallableStatementHandler(sql, sqlId), statement, CallableStatementType, name, Some(split)));
    }

    /** wrapResultSet */
    method WrapResultSet(name: string, resultSet: Value, sql: string, sqlId: string) returns (proxy: Outcome<Value>)
      requires Valid()
      modifies manager
      ensures Valid()
      ensures (proxy, manager.state) == WrappedResultSet(old(manager.state), name, resultSet, sql, sqlId)
    {
      var split := StartStatementStopwatch(name, sql, sqlId, ".rset");
      proxy := NewProxyFor(JdbcHandler(ResultSetHandler, resultSet, GetResultSetType(resultSet), name, Some(split)));
    }
  }
}
