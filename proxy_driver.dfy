/**
 * The proxy JDBC driver: from the properties of a parsed Simon URL it chooses how the connection
 * proxies are made (a named JdbcProxyFactory class, or a proxy mode and the SQL-cache settings)
 * and wraps the real connection under the URL's Simon prefix.
 */
module ProxyDriver {
  import opened Wrappers
  import opened JavaLang
  import opened JavaText
  import opened JdbcMetrics
  import opened JdbcTypes
  import opened JdbcProxyFactory
  import opened Jdbc4

  const SimonProxyFactory: string := "simon_proxy_factory"
  const SimonProxyMode: string := "simon_proxy_mode"
  const SimonSqlCacheSize: string := "simon_sqlcache_size"
  const SimonSqlCacheTtl: string := "simon_sqlcache_ttl"

  /** URL_PREFIX, the prefix the proxy driver answers to. */
  const UrlPrefix: string := "jdbc:simonp:"

  /** getUrlPrefix */
  function GetUrlPrefix(): (r: string)
    ensures r == UrlPrefix && IsSimonUrlPrefix(r)
  {
    UrlPrefix
  }

  /** A prefix of the `jdbc:<name>:` form, ending at the `:` the driver id follows. */
  predicate IsSimonUrlPrefix(p: string)
  {
    StartsWith(p, "jdbc:") && EndsWith(p, ":")
  }

  /** How proxies are created: plain reflection, reflection with a cache of proxy constructors, or CGLib. */
  datatype ProxyStrategy = ReflectStrategy | CacheReflectStrategy | CGLibStrategy

  /** The JdbcProxyFactory wrapConnection ends up with. */
  datatype FactoryChoice =
    | Configured(strategy: ProxyStrategy, sqlCacheSize: Option<int32>, sqlCacheTimeToLive: Option<int>)
      /** `simon_proxy_factory` named a class that could be instantiated */
    | Named(className: string)
      /** `simon_proxy_factory` named a class that could not be instantiated: `new JdbcProxyFactory()` */
    | DefaultAfterFailure(className: string)

  const MinLong: int := -0x8000_0000_0000_0000
  const MaxLong: int := 0x7FFF_FFFF_FFFF_FFFF

  /** The proxy mode: absent or `default`, `cache`, `cglib`, in any case; anything else is refused. */
  function StrategyOf(mode: Option<string>): (r: Outcome<ProxyStrategy>)
    ensures r == Returned(ReflectStrategy) <==> mode.None? || EqualsIgnoreCaseWord(mode.value, "default")
    ensures r == Returned(CacheReflectStrategy) <==> mode.Some? && EqualsIgnoreCaseWord(mode.value, "cache")
    ensures r == Returned(CGLibStrategy) <==> mode.Some? && EqualsIgnoreCaseWord(mode.value, "cglib")
    ensures r.Threw? ==> r.thrown == Exception("IllegalArgumentException", None)
  {
    if mode.None? || EqualsIgnoreCaseWord(mode.value, "default") then Returned(ReflectStrategy)
    else if EqualsIgnoreCaseWord(mode.value, "cache") then
      CacheIsNotCGLib(mode.value);
      Returned(CacheReflectStrategy)
    else if EqualsIgnoreCaseWord(mode.value, "cglib") then Returned(CGLibStrategy)
    else Threw(Exception("IllegalArgumentException", None))
  }

  /** No mode matches both `cache` and `cglib`: they differ in their second letter. */
  lemma CacheIsNotCGLib(m: string)
    ensures !(EqualsIgnoreCaseWord(m, "cache") && EqualsIgnoreCaseWord(m, "cglib"))
  {
    if EqualsIgnoreCaseWord(m, "cache") {
      assert MatchesLetterIgnoreCase(m[1], "cache"[1]);
    }
  }

  /**
   * An optional number setting, read with Integer.valueOf or Long.valueOf: absent is null, a
   * decimal within [lo, hi] is its value, and anything else throws a NumberFormatException.
   */
  function NumberSetting(props: map<string, string>, key: string, lo: int, hi: int): (r: Outcome<Option<int>>)
    ensures key !in props ==> r == Returned(None)
    ensures key in props ==>
      (r.Returned? <==> ParseDecimal(props[key], lo, hi).Some?)
      && (r.Returned? ==> r.value == ParseDecimal(props[key], lo, hi) && lo <= r.value.value <= hi)
      && (r.Threw? ==> r.thrown == Exception("NumberFormatException", None))
  {
    if key !in props then Returned(None)
    else
      match ParseDecimal(props[key], lo, hi)
      case None => Threw(Exception("NumberFormatException", None))
      case Some(n) => Returned(Some(n))
  }

  /**
   * wrapConnection's choice of factory over the URL's properties: a factory class name wins over
   * every other setting; otherwise the proxy mode, then the SQL-cache size and time to live,
   * each of which can make it throw. `instantiable` says which class names
   * `Class.forName(name).newInstance()` succeeds on.
   */
  function SelectFactory(props: map<string, string>, instantiable: string -> bool): (r: Outcome<FactoryChoice>)
    ensures SimonProxyFactory in props ==>
      && r.Returned? && !r.value.Configured?
      && r.value.className == props[SimonProxyFactory]
      && (r.value.Named? <==> instantiable(props[SimonProxyFactory]))
    ensures SimonProxyFactory !in props ==> (r.Returned? ==> r.value.Configured?)
  {
    if SimonProxyFactory in props then
      var name := props[SimonProxyFactory];
      if instantiable(name) then Returned(Named(name)) else Returned(DefaultAfterFailure(name))
    else
      var mode := if SimonProxyMode in props then Some(props[SimonProxyMode]) else None;
      match StrategyOf(mode)
      case Threw(e) => Threw(e)
      case Returned(strategy) =>
        match NumberSetting(props, SimonSqlCacheSize, -0x8000_0000, 0x7FFF_FFFF)
        case Threw(e) => Threw(e)
        case Returned(size) =>
          match NumberSetting(props, SimonSqlCacheTtl, MinLong, MaxLong)
          case Threw(e) => Threw(e)
          case Returned(ttl) =>
            Returned(Configured(strategy, if size.Some? then Some(size.value as int32) else None, ttl))
  }

  /** The cache size and time to live the chosen factory is built with: none for a named class. */
  function CacheSettings(choice: FactoryChoice): (Option<int32>, Option<int>)
  {
    if choice.Configured? then (choice.sqlCacheSize, choice.sqlCacheTimeToLive) else (None, None)
  }

  // ---------------------------------------------------------------- properties of the choice

  /** With a factory class named, the mode and the cache settings are not even read. */
  lemma FactoryClassOverrides(props: map<string, string>, instantiable: string -> bool)
    requires SimonProxyFactory in props
    ensures SelectFactory(props, instantiable) == SelectFactory(map[SimonProxyFactory := props[SimonProxyFactory]], instantiable)
  {
  }

  /** A proxy mode other than the three names, in any case, is refused with IllegalArgumentException. */
  lemma UnknownModeThrows(props: map<string, string>, instantiable: string -> bool)
    requires SimonProxyFactory !in props && SimonProxyMode in props
    requires var m := props[SimonProxyMode];
      !EqualsIgnoreCaseWord(m, "default") && !EqualsIgnoreCaseWord(m, "cache") && !EqualsIgnoreCaseWord(m, "cglib")
    ensures SelectFactory(props, instantiable) == Threw(Exception("IllegalArgumentException", None))
  {
  }

  /**
   * The mode is compared without regard to case: `CGLIB` picks CGLib, `Cache` the cached
   * reflection, and so does `cglıb` with a dotless i, whose upper case is I.
   */
  lemma ModeIgnoresCase()
    ensures StrategyOf(Some("CGLIB")) == Returned(CGLibStrategy)
    ensures StrategyOf(Some("Cache")) == Returned(CacheReflectStrategy)
    ensures StrategyOf(Some("cgl\U{131}b")) == Returned(CGLibStrategy)
  {
    var upper, capital, dotless := "CGLIB", "Cache", "cgl\U{131}b";
    assert EqualsIgnoreCaseWord(upper, "cglib") by {
      assert ToLowerAscii('C') == 'c' && ToLowerAscii('G') == 'g' && ToLowerAscii('L') == 'l';
      assert ToLowerAscii('I') == 'i' && ToLowerAscii('B') == 'b';
    }
    assert !EqualsIgnoreCaseWord(upper, "default");
    assert !EqualsIgnoreCaseWord(upper, "cache") by {
      assert !MatchesLetterIgnoreCase(upper[1], "cache"[1]);
    }
    assert !EqualsIgnoreCaseWord(capital, "default");
    assert EqualsIgnoreCaseWord(capital, "cache") by {
      assert ToLowerAscii('C') == 'c';
    }
    assert EqualsIgnoreCaseWord(dotless, "cglib");
    assert !EqualsIgnoreCaseWord(dotless, "default");
    assert !EqualsIgnoreCaseWord(dotless, "cache") by {
      assert !MatchesLetterIgnoreCase(dotless[1], "cache"[1]);
    }
  }

  /**
   * A cache size and time to live written in decimal come back as the numbers: the settings
   * reach the factory unchanged, whatever the mode.
   */
  lemma CacheSettingsRoundTrip(props: map<string, string>, instantiable: string -> bool, size: int32, ttl: int)
    requires SimonProxyFactory !in props
    requires StrategyOf(if SimonProxyMode in props then Some(props[SimonProxyMode]) else None).Returned?
    requires MinLong <= ttl <= MaxLong
    requires SimonSqlCacheSize in props && props[SimonSqlCacheSize] == DecimalString(size as int)
    requires SimonSqlCacheTtl in props && props[SimonSqlCacheTtl] == DecimalString(ttl)
    ensures SelectFactory(props, instantiable).Returned?
    ensures CacheSettings(SelectFactory(props, instantiable).value) == (Some(size), Some(ttl))
  {
    DecimalRoundTrip(size as int, -0x8000_0000, 0x7FFF_FFFF);
    DecimalRoundTrip(ttl, MinLong, MaxLong);
  }

  /** A cache size that Integer.valueOf refuses, such as one past the int range, makes wrapConnection throw. */
  lemma MalformedSizeThrows(props: map<string, string>, instantiable: string -> bool)
    requires SimonProxyFactory !in props
    requires StrategyOf(if SimonProxyMode in props then Some(props[SimonProxyMode]) else None).Returned?
    requires SimonSqlCacheSize in props && ParseDecimal(props[SimonSqlCacheSize], -0x8000_0000, 0x7FFF_FFFF).None?
    ensures SelectFactory(props, instantiable) == Threw(Exception("NumberFormatException", None))
  {
  }

  /** With none of the four settings, the choice is reflection and no SQL cache (ProxyDriverTest). */
  lemma NoSettingsIsDefault(props: map<string, string>, instantiable: string -> bool)
    requires SimonProxyFactory !in props && SimonProxyMode !in props
    requires SimonSqlCacheSize !in props && SimonSqlCacheTtl !in props
    ensures SelectFactory(props, instantiable) == Returned(Configured(ReflectStrategy, None, None))
  {
  }

  // ---------------------------------------------------------------- wrapConnection

  /**
   * wrapConnection: the chosen JdbcProxyFactory wraps the real connection under the URL's
   * prefix (its `simon_prefix` property or the driver's default prefix), which starts one split
   * on `prefix.conn`; a refused setting throws before anything is started.
   */
  method WrapConnection(realConnection: Value, url: DriverUrl, manager: Manager, digest: SqlDigest,
                        instantiable: string -> bool, defaultPrefix: string) returns (r: Outcome<Value>)
    requires Consistent(manager.state) && url.properties.Valid()
    modifies manager
    ensures Consistent(manager.state)
    ensures SelectFactory(url.properties.Effective(), instantiable).Threw? ==>
      r == Threw(SelectFactory(url.properties.Effective(), instantiable).thrown) && manager.state == old(manager.state)
    ensures SelectFactory(url.properties.Effective(), instantiable).Returned? ==>
      (r, manager.state) == WrappedConnection(old(manager.state), url.GetPrefix(defaultPrefix), realConnection)
  {
    var choice := SelectFactory(url.properties.Effective(), instantiable);
    if choice.Threw? {
      return Threw(choice.thrown);
    }
    var (size, ttl) := CacheSettings(choice.value);
    var factory := new JdbcProxyFactory(manager, digest, size, ttl);
    r := factory.WrapConnection(url.GetPrefix(defaultPrefix), realConnection);
  }

  /**
   * ProxyDriverTest: with `simon_prefix` set and no other Simon setting, the connection proxy
   * has one active split on `org.simon.jdbc.test.conn`.
   */
  lemma ConnectWithPrefix(props: map<string, string>, instantiable: string -> bool, connection: Value)
    requires "simon_prefix" in props && props["simon_prefix"] == "org.simon.jdbc.test"
    requires SimonProxyFactory !in props && SimonProxyMode !in props
    requires SimonSqlCacheSize !in props && SimonSqlCacheTtl !in props
    requires connection.Object? && ConnectionType in connection.o.implements
    ensures SelectFactory(props, instantiable).Returned?
    ensures var (c, connected) := WrappedConnection(EmptyRegistry, props["simon_prefix"], connection);
      c.Returned? && Lookup(connected.stopwatches, "org.simon.jdbc.test.conn").active == 1
  {
    NoSettingsIsDefault(props, instantiable);
  }
}
