# javasimon core in Dafny

This project models the sequential logic at the heart of javasimon, a Java monitoring library.
Five parts are covered:

- **The compute cache** of `org.javasimon.cache`.
  - `MapCache` is a key-to-entry map filled by a loader. It refreshes stale entries in place on a hit. On a miss at capacity it first expires stale entries, and only if none expired does it evict the single oldest entry.
  - `MapCacheEntry` is a mutable entry.
  - `NoCache` passes every call straight to the loader.
- **Proxy plumbing** of `org.javasimon.proxy`.
  - The `ProxyFactory.ProxyClass` key has an order-sensitive equality and a 32-bit polynomial hash.
  - `CGLibProxyFactory` memoises one generated class per key and routes calls through two callback slots.
  - `DelegatingMethodInvocation` gives access to a call's arguments and maps failures.
- **The JDBC instrumentation layer** of `org.javasimon.jdbc`/`jdbcx`.
  - `JdbcProxyFactory` names the stopwatches (`.conn`, `.pooledconn`, `.stmt`, `.exec`, `.rset`), sets a note only when none is set, encodes the SQL digest in hex and chooses the result-set interface.
  - The `*ProxyHandler` classes and `ConnectionProxyFactory` dispatch on the method name. A call is forwarded, intercepted (`isWrapperFor`, `unwrap`, `close`), has its returned child wrapped, or is timed (`execute*`).
- **Driver configuration**.
  - `DriverUrl` parses the URL: it strips the prefix, splits off the driver id at the last `:`, and moves `simon_*` pairs into the properties. The split uses the regular expression `(.*):(.*)`, whose `.` does not match a line terminator, so a URL holding one does not match at all.
  - `ProxyDriver` chooses the proxy strategy and the SQL-cache settings.
- **Reporting logic**.
  - `ScheduledReporter`: the start/stop state machine, argument validation and the selection of increment samples.
  - `GraphitePlaintextClient`: the connect/close state machine and the `<path> <value> <seconds>` line format.
  - `CsvReporter`: the row and header format, the header rule and file-name validation.
  - `SampleToPathImpl`: prefix normalisation.

How the Java code becomes Dafny:

- **Classes.** A Java object whose fields its methods overwrite becomes a Dafny `class`. Each method is proved against a function of the old state. These classes are `MapCache`, `MapCacheEntry`, the CGLib factory, the JDBC factory, `DriverUrl`, `ScheduledReporter`, `GraphitePlaintextClient` and `CsvReporter`.
- **Values.** Pure dispatch code becomes datatypes and functions.
- **Metrics core.** The `Manager`, `Stopwatch` and `Split` of javasimon's core are not in this model. They are represented by an abstract registry `name -> (active, counter, note)` plus a set of running splits (`JdbcMetrics`).
- **Outside calls.** Whatever the code calls but does not define is a function parameter: the delegate JDBC object, the cache loader, the SQL digest, reflective instantiation.
- **Failures.** Exceptions are `Outcome` values: `Returned(v)` or `Threw(e)`.
- **Clock.** Time is a parameter, and timestamps are Java longs: `used + ttl` and `now - ttl` wrap around as in Java. `MapCache.get` reads the clock twice, once for the new entry (line 53) and once inside eviction (line 114), so `Get` takes `now` and `evictNow`.

The counter CSV header's third column is named `total` while the row holds the counter's value. This is what `CsvReporterTest` expects, so the model keeps it.

## Model

| member | source | states |
|---|---|---|
| Cache.AtMostIsCardinality | core/src/main/java/org/javasimon/cache/MapCache.java:58-66 | the recursive size bound the cache class keeps holds exactly when the key set has at most `n` elements |
| Cache.OldestExists | core/src/main/java/org/javasimon/cache/MapCache.java:112-134 | a non-empty map always has an entry with the smallest use timestamp, so the oldest-entry pass always finds a victim |
| Cache.EvictionFreesRoom | core/src/main/java/org/javasimon/cache/MapCache.java:112-134 | an eviction pass over a non-empty map removes at least one entry |
| Cache.EvictionMakesRoom | core/src/main/java/org/javasimon/cache/MapCache.java:58-66 | a map holding exactly `size` keys holds at most `size - 1` after eviction |
| Cache.EvictionDropsUniqueOldest | core/src/main/java/org/javasimon/cache/MapCache.java:112-134 | when no entry is stale, eviction removes exactly the one oldest entry and keeps the rest |
| Cache.ScanIsEviction | core/src/main/java/org/javasimon/cache/MapCache.java:115-133 | one pass that collects the unexpired entries and the oldest of them yields the eviction rule: every stale entry removed, otherwise the single oldest |
| Cache.GetKeepsBound | core/src/main/java/org/javasimon/cache/MapCache.java:58-66 | with a size bound of at least 1, a `get` on a map within the bound leaves it within the bound |
| Cache.GetKeepsAtMost | core/src/main/java/org/javasimon/cache/MapCache.java:58-66 | the same bound, stated through the recursive `AtMost` predicate the class invariant uses |
| Cache.MissBelowCapacity | core/src/main/java/org/javasimon/cache/MapCache.java:55-66 | a miss below capacity evicts nothing and stores the loaded value stamped with `now`; a failing loader stores nothing |
| Cache.MissEvictsOldest | core/src/main/java/org/javasimon/cache/MapCache.java:58-66 | a miss at capacity with nothing stale removes exactly the oldest entry, then stores the loaded value; a loader failure does not undo the eviction |
| Cache.MapCacheEntry.constructor | core/src/main/java/org/javasimon/cache/MapCacheEntry.java:22-25 | the entry holds the given key, value and use timestamp |
| Cache.MapCacheEntry.GetValue | core/src/main/java/org/javasimon/cache/MapCacheEntry.java:32-35 | returns the current value, leaves it unchanged, and sets the use timestamp to the argument |
| Cache.MapCacheEntry.SetValue | core/src/main/java/org/javasimon/cache/MapCacheEntry.java:42-45 | replaces value and use timestamp together |
| Cache.CompareUseTimestamp | core/src/main/java/org/javasimon/cache/MapCacheEntry.java:63-68 | the comparator's sign is negative, zero or positive exactly as the first use timestamp is smaller than, equal to or larger than the second |
| Cache.MapCache.constructor | core/src/main/java/org/javasimon/cache/MapCache.java:34-38 | an empty cache with the given loader, size bound and time-to-live |
| Cache.MapCache.Get | core/src/main/java/org/javasimon/cache/MapCache.java:50-82 | one `get` is a `GetStep`. A fresh hit returns the stored value and bumps its timestamp without loading. A stale hit (`now > used + ttl`, the sum wrapped to a Java long) reloads. A miss evicts only when full, loads once and stores the value only on success. With a loader that does not depend on time, the answer is the loader's answer |
| Cache.MapCache.LoadMissing | core/src/main/java/org/javasimon/cache/MapCache.java:55-66 | the miss path: eviction only when full, exactly one loader call appended to the load log, entry stored only if the load succeeded |
| Cache.MapCache.AtCapacity | core/src/main/java/org/javasimon/cache/MapCache.java:60-62 | true exactly when a size bound is set and the entry count is at or above it |
| Cache.MapCache.MakeRoom | core/src/main/java/org/javasimon/cache/MapCache.java:60-62 | evicts only when at capacity; afterwards there is room for one more entry |
| Cache.MapCache.Store | core/src/main/java/org/javasimon/cache/MapCache.java:63-65 | a new entry for a missing key, holding the loaded value stamped with `now`; nothing else changes |
| Cache.MapCache.File | core/src/main/java/org/javasimon/cache/MapCache.java:63-65 | the `put` of a new entry object into the map, keeping the class invariant |
| Cache.MapCache.UseEntry | core/src/main/java/org/javasimon/cache/MapCache.java:69-80 | on an entry stale by `now > used + ttl`, the sum wrapped to a Java long, calls the loader once and replaces value and timestamp on success. On a fresh entry, returns the stored value, sets its timestamp to `now` and makes no load |
| Cache.MapCache.Remove | core/src/main/java/org/javasimon/cache/MapCache.java:96-98 | removes key `k` only; an absent key leaves the map unchanged |
| Cache.MapCache.RemoveAll | core/src/main/java/org/javasimon/cache/MapCache.java:101-103 | leaves the map empty |
| Cache.MapCache.RemoveAllExpiredOrOldest | core/src/main/java/org/javasimon/cache/MapCache.java:112-134 | the new contents are the eviction of the old: all stale entries removed, or, if none was stale, the single oldest |
| Cache.MapCache.Survivors | core/src/main/java/org/javasimon/cache/MapCache.java:115-130 | the iterator loop computes exactly the entries the eviction rule keeps, an entry being expired when `used < now - ttl`, the difference wrapped to a Java long |
| Cache.StaleTestsAgree | core/src/main/java/org/javasimon/cache/MapCache.java:92-115 | the hit test `now > used + ttl` and the eviction test `used < now - ttl` agree whenever neither the sum nor the difference overflows a long |
| Cache.HugeTtlExpiresAtOnce | core/src/main/java/org/javasimon/cache/MapCache.java:92-115 | with `ttl = Long.MAX_VALUE` the sum wraps: an entry used at 1000 is stale for a hit at 1001, yet the eviction pass keeps it |
| JavaLang.Long | core/src/main/java/org/javasimon/cache/MapCache.java:92 | the long an exact result wraps to: within the long range, the result itself when it is a long, and otherwise off by a multiple of 2^64 |
| Cache.Replay | core/src/test/java/org/javasimon/cache/MapCacheTest.java:15-84 | a run of `get` calls on one real `MapCache` produces a `GetTrace`, the sequence of `GetStep`s the scenario lemmas reason about |
| Cache.NoCacheIsPassThrough | core/src/main/java/org/javasimon/cache/NoCache.java:14-24 | n fetches make n loader calls, even for the same key, and each answer is exactly the loader's. `remove` and `removeAll` change nothing |
| CacheScenarios.CacheEffect | core/src/test/java/org/javasimon/cache/MapCacheTest.java:15-26 | two `get(1)` with no time-to-live both answer "One" and the loader is called once |
| CacheScenarios.CacheExpiration | core/src/test/java/org/javasimon/cache/MapCacheTest.java:54-66 | with a time-to-live of 100, a second `get(1)` 200 ms later reloads |
| CacheScenarios.CacheSize | core/src/test/java/org/javasimon/cache/MapCacheTest.java:28-52 | with size 3, keys 1,2,3,4,1 load five times and end with keys {1,3,4} |
| CacheScenarios.FourthKeyEvictsFirst | core/src/test/java/org/javasimon/cache/MapCacheTest.java:28-52 | the fourth key evicts key 1, the oldest entry |
| CacheScenarios.FirstKeyAgainEvictsSecond | core/src/test/java/org/javasimon/cache/MapCacheTest.java:28-52 | asking for key 1 again reloads it and evicts key 2, now the oldest |
| CacheScenarios.CacheSizeAndExpiration | core/src/test/java/org/javasimon/cache/MapCacheTest.java:68-84 | size 3 and a time to live: keys 1, 2, 3 fill the cache; 200 later the gets of 1 and 2 are hits on stale entries, reloaded and restamped in place with no eviction; key 3 is loaded once and keeps its stamp; the load log is `[1, 2, 3, 1, 2]` |
| ProxyFactory.WrappedFoldIsPolynomial | core/src/main/java/org/javasimon/proxy/ProxyFactory.java:19-23 | the hash loop in 32-bit wrap-around arithmetic equals the exact polynomial reduced to 32 bits |
| ProxyFactory.KeyHashIsPolynomial | core/src/main/java/org/javasimon/proxy/ProxyFactory.java:19-23 | the key hash is `seed*31^n + Σ ifaceHash_i*31^(n-1-i)` with `seed = loaderHash*31 + n`, reduced to 32 bits |
| ProxyFactory.NewProxyClass | core/src/main/java/org/javasimon/proxy/ProxyFactory.java:16-24 | a null loader throws NullPointerException (its `hashCode` is called); otherwise the key keeps the loader and the interface array, and its cached hash is the key hash (well-formed) |
| ProxyFactory.Equals | core/src/main/java/org/javasimon/proxy/ProxyFactory.java:35-53 | reflexive; false for null or another class; false when the hashes differ; true only for an equal key |
| ProxyFactory.EqualsIffSameLoaderAndInterfaces | core/src/main/java/org/javasimon/proxy/ProxyFactory.java:35-53 | two well-formed keys are equal iff same loader and element-wise equal interfaces in the same order |
| ProxyFactory.EqualKeysEqualHashes | core/src/main/java/org/javasimon/proxy/ProxyFactory.java:43-57 | equal keys have equal hash codes |
| ProxyFactory.EqualsSymmetric | core/src/main/java/org/javasimon/proxy/ProxyFactory.java:35-53 | `a.equals(b) == b.equals(a)` |
| ProxyFactory.OrderMatters | core/src/main/java/org/javasimon/proxy/ProxyFactory.java:49-51 | the same two interfaces in a different order give unequal keys |
| ProxyFactory.LengthMatters | core/src/main/java/org/javasimon/proxy/ProxyFactory.java:49-51 | interface arrays of different lengths give unequal keys |
| ProxyFactory.KeyForLoader | core/src/main/java/org/javasimon/proxy/ProxyFactory.java:75-77 | `newProxy(handler, loader, interfaces...)` builds the key from exactly that loader and those interfaces; a null loader throws NullPointerException |
| ProxyFactory.KeyForContext | core/src/main/java/org/javasimon/proxy/ProxyFactory.java:86-88 | `newProxy(handler, interfaces...)` uses the thread-context loader; a null context loader throws NullPointerException |
| ProxyFactory.KeyForInterface | core/src/main/java/org/javasimon/proxy/ProxyFactory.java:97-99 | `newProxy(handler, X)` builds a key with the context loader and exactly one interface `X`; a null context loader throws NullPointerException |
| ProxyFactory.KeysOfTest | core/src/test/java/org/javasimon/proxy/ProxyFactoryTest.java:11-23 | same keys are equal; another interface, or more interfaces, give unequal keys |
| CGLibProxyFactory.Accept | core/src/main/java/org/javasimon/proxy/CGLibProxyFactory.java:25-29 | the filter returns slot 0 iff the handler intercepts the method, else slot 1; always a valid slot |
| CGLibProxyFactory.CallbacksFor | core/src/main/java/org/javasimon/proxy/CGLibProxyFactory.java:14-17 | the callbacks installed on a proxy have the types of `ADAPTER_CALLBACK_TYPES`, in that order |
| CGLibProxyFactory.RoutingMatchesFilter | core/src/main/java/org/javasimon/proxy/CGLibProxyFactory.java:37-48 | a call goes to `proxyHandler.invoke` when intercepted and to the raw delegate otherwise |
| CGLibProxyFactory.GeneratedClass.constructor | core/src/main/java/org/javasimon/proxy/CGLibProxyFactory.java:54-59 | the generated class captures the loader, the interfaces, the callback filter and the callback types |
| CGLibProxyFactory.Proxy.constructor | core/src/main/java/org/javasimon/proxy/CGLibProxyFactory.java:67 | a new instance of the generated class has no callbacks yet |
| CGLibProxyFactory.Proxy.SetCallbacks | core/src/main/java/org/javasimon/proxy/CGLibProxyFactory.java:68-71 | installs exactly the given callbacks |
| CGLibProxyFactory.Factory.constructor | core/src/main/java/org/javasimon/proxy/CGLibProxyFactory.java:13 | the memo map starts empty |
| CGLibProxyFactory.Factory.GetProxyClass | core/src/main/java/org/javasimon/proxy/CGLibProxyFactory.java:51-63 | a key already in the map returns the stored class and generates nothing. On a miss, a failing `createClass` throws and the map is unchanged; otherwise exactly one class is generated, stored under the key, and captures this handler's filter |
| CGLibProxyFactory.Factory.NewProxy | core/src/main/java/org/javasimon/proxy/CGLibProxyFactory.java:65-77 | a class-generation failure escapes uncaught and remembers nothing. Otherwise the proxy is an instance of the memoised class with callbacks `[interceptor, lazy loader]`, and instantiation failures become `ProxyException` |
| CGLibProxyFactory.FirstFilterWins | core/src/main/java/org/javasimon/proxy/CGLibProxyFactory.java:51-63 | a later handler with an equal key reuses the first handler's routing |
| CGLibProxyFactory.RetryAfterGenerationFailure | core/src/main/java/org/javasimon/proxy/CGLibProxyFactory.java:51-63 | after a failed generation, the next `newProxy` for the same key generates the class and returns a proxy; the map then holds that single class |
| DelegatingMethodInvocation.ArgCount | core/src/main/java/org/javasimon/proxy/DelegatingMethodInvocation.java:38-40 | 0 when the argument array is null, otherwise its length |
| DelegatingMethodInvocation.ArgAt | core/src/main/java/org/javasimon/proxy/DelegatingMethodInvocation.java:41-43 | returns `args[i]` exactly when `i` is in range; a null array throws NullPointerException and an index out of range throws ArrayIndexOutOfBoundsException |
| DelegatingMethodInvocation.TypedArgAt | core/src/main/java/org/javasimon/proxy/DelegatingMethodInvocation.java:44-46 | the same element when it casts to the type, ClassCastException otherwise, and the same failures as `getArgAt` |
| DelegatingMethodInvocation.ProceedUsesDelegate | core/src/main/java/org/javasimon/proxy/DelegatingMethodInvocation.java:64-66 | `proceed` invokes the method on the delegate with the same arguments; the proxy plays no part |
| DelegatingMethodInvocation.Run | core/src/main/java/org/javasimon/proxy/DelegatingMethodInvocation.java:68-74 | `run` always returns normally |
| DelegatingMethodInvocation.Call | core/src/main/java/org/javasimon/proxy/DelegatingMethodInvocation.java:76-84 | results and `Exception`s pass through unchanged; any other `Throwable` is wrapped in IllegalStateException with it as cause |
| DelegatingMethodInvocation.CallThrowsOnlyExceptions | core/src/main/java/org/javasimon/proxy/DelegatingMethodInvocation.java:76-84 | `call` throws only `Exception`s, returns iff `proceed` returns, and what it throws is the original failure or wraps it |
| JdbcTypes.Cast | jdbc4/src/main/java/org/javasimon/jdbc/JdbcProxyHandler.java:72 | a cast succeeds iff the value is null or an instance of the type, and returns the value unchanged |
| JdbcHandlers.Route | jdbc4/src/main/java/org/javasimon/jdbc/AbstractStatementProxyHandler.java:19-34 | method-name dispatch of every handler; only statement handlers time an `execute*` call |
| JdbcHandlers.FilterMatchesRoute | jdbc4/src/main/java/org/javasimon/jdbc/AbstractStatementProxyHandler.java:50-54 | a method is in a handler's invocation filter iff its dispatch does something other than forward |
| JdbcHandlers.DataSourcesForwardAllButTheGetter | jdbc4/src/main/java/org/javasimon/jdbcx/DataSourceProxyHandler.java:18-27 | data-source and pooled-connection handlers intercept only their connection getter and forward everything else, `isWrapperFor`/`unwrap`/`close` included |
| JdbcHandlers.SqlArg | jdbc4/src/main/java/org/javasimon/jdbc/StatementProxyHandler.java:18-22 | the SQL is argument 0 when there is one and it is a string |
| JdbcHandlers.IsWrapperForOwnTypeIgnoresDelegate | jdbc4/src/main/java/org/javasimon/jdbc/JdbcProxyHandler.java:56-59 | `isWrapperFor(delegateType)` is true whatever the delegate does |
| JdbcHandlers.IsWrapperForOtherTypeForwards | jdbc4/src/main/java/org/javasimon/jdbc/JdbcProxyHandler.java:56-59 | `isWrapperFor` of any other interface is the delegate's answer |
| JdbcHandlers.UnwrapResult | jdbc4/src/main/java/org/javasimon/jdbc/JdbcProxyHandler.java:67-77 | `unwrap(delegateType)` gives `delegate.unwrap` if the delegate wraps that type, else the delegate cast to it; any other interface gives `delegate.unwrap(iface)`; failures propagate |
| JdbcHandlers.UnwrapOwnTypeGivesDelegate | jdbc4/src/main/java/org/javasimon/jdbc/JdbcProxyHandler.java:67-73 | when the delegate does not wrap its own type, `unwrap(delegateType)` returns the delegate itself |
| JdbcHandlers.GetProxyClass | jdbc4/src/main/java/org/javasimon/jdbc/JdbcProxyHandler.java:78-80 | the key has the delegate's class loader and exactly one interface, `delegateType`; a null delegate throws NullPointerException |
| JdbcHandlers.SameKeyForSameLoaderAndType | jdbc4/src/main/java/org/javasimon/jdbc/JdbcProxyHandler.java:78-80 | two handlers over delegates of one loader get equal keys iff their delegate types are equal |
| JdbcHandlers.ExecuteSql | jdbc4/src/main/java/org/javasimon/jdbc/PreparedStatementProxyHandler.java:21-31 | with arguments, SQL is argument 0 and its id is built fresh. Without arguments, a plain statement is not measured, and a prepared or callable statement uses its stored sql and id |
| JdbcHandlers.InvokeKeepsConsistent | jdbc4/src/main/java/org/javasimon/jdbc/AbstractStatementProxyHandler.java:19-49 | every handler call keeps the registry consistent: each running split refers to an active stopwatch |
| JdbcHandlers.Handle | jdbc4/src/main/java/org/javasimon/jdbc/AbstractStatementProxyHandler.java:19-34 | the handler's `invoke` has exactly the effect `InvokeEffect` gives on the result and on the registry |
| JdbcHandlers.HandleExecute | jdbc4/src/main/java/org/javasimon/jdbc/StatementProxyHandler.java:16-27 | the per-kind `execute`: chooses the SQL, then either forwards unmeasured or measures |
| JdbcHandlers.HandleMeasured | jdbc4/src/main/java/org/javasimon/jdbc/AbstractStatementProxyHandler.java:38-49 | starts the `.exec` split, calls, stops it, and wraps a returned result set |
| JdbcHandlers.HandleChild | jdbc4/src/main/java/org/javasimon/jdbc/ConnectionProxyFactory.java:43-57 | performs the real call, then wraps the returned child with the matching `wrap*` |
| JdbcProxyFactory.ToHexa | jdbc4/src/main/java/org/javasimon/jdbc/JdbcProxyFactory.java:211-216 | appends `Hex(input)` to the builder: two lowercase, zero-padded hex digits per byte, in order |
| JdbcProxyFactory.Radix16OfByte | jdbc4/src/main/java/org/javasimon/jdbc/JdbcProxyFactory.java:213 | `Integer.toString(u + 0x100, 16)` is "1" followed by the two hex digits of `u` |
| JdbcProxyFactory.ParseHexOfHex | jdbc4/src/main/java/org/javasimon/jdbc/JdbcProxyFactory.java:211-216 | reading the hex string back gives the original bytes |
| JdbcProxyFactory.HexInjective | jdbc4/src/main/java/org/javasimon/jdbc/JdbcProxyFactory.java:211-216 | different digests give different hex strings |
| JdbcProxyFactory.SqlIdDeterminesDigest | jdbc4/src/main/java/org/javasimon/jdbc/JdbcProxyFactory.java:47-55 | two SQL texts get the same id iff their normalised digests are equal |
| JdbcProxyFactory.SqlCacheLoader | jdbc4/src/main/java/org/javasimon/jdbc/JdbcProxyFactory.java:47-55 | the loader answers `type + "_" + hex(digest)` for every SQL text and never depends on time |
| JdbcProxyFactory.GetResultSetType | jdbc4/src/main/java/org/javasimon/jdbc/JdbcProxyFactory.java:353-377 | the returned interface is one of the seven result-set types, and one the object implements |
| JdbcProxyFactory.CachedBeforeJdbcRowSet | jdbc4/src/main/java/org/javasimon/jdbc/JdbcProxyFactory.java:359-369 | a cached row set that is not a web row set is typed `CachedRowSet`, even if it is also a `JdbcRowSet` |
| JdbcProxyFactory.NoteIfAbsent | jdbc4/src/main/java/org/javasimon/jdbc/JdbcProxyFactory.java:251-257 | the note becomes the SQL only when unset, so the first text wins; nothing else changes |
| JdbcProxyFactory.StartStatementSplit | jdbc4/src/main/java/org/javasimon/jdbc/JdbcProxyFactory.java:251-257 | the stopwatch `name + "." + sqlId + suffix` gains one active split and keeps a note |
| JdbcProxyFactory.NewProxy | jdbc4/src/main/java/org/javasimon/jdbc/JdbcProxyFactory.java:101-103 | a proxy around the handler exactly when the delegate is not null |
| JdbcProxyFactory.StartAndWrap | jdbc4/src/main/java/org/javasimon/jdbc/JdbcProxyFactory.java:170-193 | starts the life split on the named stopwatch, then wraps the delegate with a handler of that name, type and split |
| JdbcProxyFactory.WrappedPreparedStatement | jdbc4/src/main/java/org/javasimon/jdbc/JdbcProxyFactory.java:310-316 | the sql id is computed once and shared by the `.stmt` split name and the handler |
| JdbcProxyFactory.WrappedCallableStatement | jdbc4/src/main/java/org/javasimon/jdbc/JdbcProxyFactory.java:326-332 | the same single sql id for the `.stmt` split and the callable handler |
| JdbcProxyFactory.WrappedResultSetIsTyped | jdbc4/src/main/java/org/javasimon/jdbc/JdbcProxyFactory.java:342-345 | a wrapped result set's delegate type is an interface the object implements, and the `.rset` note is set only if unset |
| JdbcProxyFactory.JdbcProxyFactory.constructor | jdbc4/src/main/java/org/javasimon/jdbc/JdbcProxyFactory.java:91-98 | a null or non-positive cache size selects no cache; otherwise a `MapCache(size, ttl)` |
| JdbcProxyFactory.JdbcProxyFactory.BuildSqlId | jdbc4/src/main/java/org/javasimon/jdbc/JdbcProxyFactory.java:241-243 | the id is the loader's id for the SQL, through the cache or not |
| JdbcProxyFactory.JdbcProxyFactory.StartStopwatch | jdbc4/src/main/java/org/javasimon/jdbc/JdbcProxyFactory.java:105-107 | starts a split on the named stopwatch |
| JdbcProxyFactory.JdbcProxyFactory.StartStatementStopwatch | jdbc4/src/main/java/org/javasimon/jdbc/JdbcProxyFactory.java:251-257 | sets the note if unset, then starts the statement split |
| JdbcProxyFactory.JdbcProxyFactory.NewProxyFor | jdbc4/src/main/java/org/javasimon/jdbc/JdbcProxyFactory.java:101-103 | returns the proxy `NewProxy` describes |
| JdbcProxyFactory.JdbcProxyFactory.WrapDataSource | jdbc4/src/main/java/org/javasimon/jdbc/JdbcProxyFactory.java:126-128 | a data-source handler with no life split |
| JdbcProxyFactory.JdbcProxyFactory.WrapXADataSource | jdbc4/src/main/java/org/javasimon/jdbc/JdbcProxyFactory.java:137-139 | an XA data-source handler with no life split |
| JdbcProxyFactory.JdbcProxyFactory.WrapPooledConnection | jdbc4/src/main/java/org/javasimon/jdbc/JdbcProxyFactory.java:148-150 | a pooled-connection handler whose life split is on `name + ".pooledconn"` |
| JdbcProxyFactory.JdbcProxyFactory.WrapXAConnection | jdbc4/src/main/java/org/javasimon/jdbc/JdbcProxyFactory.java:159-161 | the same handler for an `XAConnection` |
| JdbcProxyFactory.JdbcProxyFactory.WrapConnection | jdbc4/src/main/java/org/javasimon/jdbc/JdbcProxyFactory.java:191-193 | a connection handler whose life split is on `name + ".conn"` |
| JdbcProxyFactory.JdbcProxyFactory.WrapStatement | jdbc4/src/main/java/org/javasimon/jdbc/JdbcProxyFactory.java:296-300 | a statement handler whose life split is on `name + ".stmt"` |
| JdbcProxyFactory.JdbcProxyFactory.WrapPreparedStatement | jdbc4/src/main/java/org/javasimon/jdbc/JdbcProxyFactory.java:310-316 | builds the sql id, then wraps as `WrappedPreparedStatement` says |
| JdbcProxyFactory.JdbcProxyFactory.WrapCallableStatement | jdbc4/src/main/java/org/javasimon/jdbc/JdbcProxyFactory.java:326-332 | builds the sql id, then wraps as `WrappedCallableStatement` says |
| JdbcProxyFactory.JdbcProxyFactory.WrapResultSet | jdbc4/src/main/java/org/javasimon/jdbc/JdbcProxyFactory.java:342-345 | starts the `.rset` split and wraps with the resolved result-set type |
| JdbcScenarios.CloseStopsLifeSplit | jdbc4/src/main/java/org/javasimon/jdbc/JdbcProxyHandler.java:60-63 | `close` stops the life split (active −1, counter +1) and forwards the real `close`; a second close changes no stopwatch |
| JdbcScenarios.PooledConnectionCloseKeepsSplit | jdbc4/src/main/java/org/javasimon/jdbcx/PooledConnectionProxyHandler.java:20-29 | a pooled connection forwards `close` and never stops its own `.pooledconn` split |
| JdbcScenarios.ExecAndResultSetDiffer | jdbc4/src/main/java/org/javasimon/jdbc/JdbcProxyFactory.java:265-287 | the `.exec` and `.rset` stopwatches of one statement are different stopwatches |
| JdbcScenarios.MeasuredExecuteCountsOnce | jdbc4/src/main/java/org/javasimon/jdbc/AbstractStatementProxyHandler.java:38-49 | a measured execute returning a non-result-set adds exactly one count to `.exec` and leaves all else unchanged |
| JdbcScenarios.MeasuredExecuteWrapsResultSet | jdbc4/src/main/java/org/javasimon/jdbc/AbstractStatementProxyHandler.java:45-48 | a result set returned by a measured execute is wrapped with its resolved type and opens a `.rset` split |
| JdbcScenarios.ExecuteThrowLeavesSplitRunning | jdbc4/src/main/java/org/javasimon/jdbc/AbstractStatementProxyHandler.java:41-43 | when the real call throws, the exception propagates and the `.exec` split stays running, uncounted |
| JdbcScenarios.StatementWithoutArgumentsIsNotMeasured | jdbc4/src/main/java/org/javasimon/jdbc/StatementProxyHandler.java:23-25 | a plain statement's `execute*` without arguments is forwarded and changes no stopwatch |
| JdbcScenarios.PreparedExecuteUsesStoredSql | jdbc4/src/main/java/org/javasimon/jdbc/CallableStatementProxyHandler.java:21-31 | without arguments the stored sql and id are used; with a SQL argument a fresh id is built |
| JdbcScenarios.ChildrenKeepTheName | jdbc4/src/main/java/org/javasimon/jdbc/ConnectionProxyFactory.java:43-57 | every wrapped child has its parent handler's name and a life split |
| JdbcScenarios.StatementOpens | jdbc4/src/main/java/org/javasimon/jdbc/ConnectionProxyFactory.java:43-47 | `createStatement` returns a statement proxy whose split opens `name + ".stmt"` |
| JdbcScenarios.ConnectionOpens | jdbc4/src/main/java/org/javasimon/jdbcx/DataSourceProxyHandler.java:29-33 | `getConnection` returns a connection proxy whose split opens `name + ".conn"` |
| JdbcScenarios.PreparedStatementOpens | jdbc4/src/main/java/org/javasimon/jdbc/ConnectionProxyFactory.java:48-52 | `prepareStatement(sql)` returns a prepared-statement proxy holding sql and its id, whose split opens the `.stmt` stopwatch |
| JdbcScenarios.PreparedQueryCounts | jdbc4/src/main/java/org/javasimon/jdbc/PreparedStatementProxyHandler.java:21-31 | an argument-less `executeQuery` counts once on the stored statement's `.exec` and opens its `.rset` |
| JdbcScenarios.ConnectionScenario | jdbc4/src/test/java/org/javasimon/jdbc/ConnectionProxyFactoryTest.java:38-45 | a wrapped connection has `.conn` active 1, and 0 after close |
| JdbcScenarios.DataSourceScenario | jdbc4/src/test/java/org/javasimon/jdbcx/DataSourceProxyHandlerTest.java:33-41 | `getConnection` on a wrapped data source gives `.conn` active 1, and 0 after close |
| JdbcScenarios.StatementCloseScenario | jdbc4/src/test/java/org/javasimon/jdbc/StatementProxyHandlerTest.java:31-39 | a created statement has `.stmt` active 1, and 0 after close |
| JdbcScenarios.StatementExecuteScenario | jdbc4/src/test/java/org/javasimon/jdbc/StatementProxyHandlerTest.java:41-48 | `execute(sql)` leaves the `.exec` stopwatch with counter 1, nothing active, and the SQL as note |
| JdbcScenarios.PreparedCloseScenario | jdbc4/src/test/java/org/javasimon/jdbc/PreparedStatementProxyHandlerTest.java:31-39 | a prepared statement has its `.stmt` active 1, and 0 after close |
| JdbcScenarios.PreparedExecuteScenario | jdbc4/src/test/java/org/javasimon/jdbc/PreparedStatementProxyHandlerTest.java:41-52 | two `executeQuery()` on one prepared statement leave counter 2 on its `.exec` stopwatch |
| JdbcScenarios.ResultSetScenario | jdbc4/src/test/java/org/javasimon/jdbc/ResultSetProxyHandlerTest.java:32-43 | a query's result-set proxy has `.rset` active 1, and 0 once closed |
| ProxyDriver.GetUrlPrefix | jdbc4/src/main/java/org/javasimon/jdbc/ProxyDriver.java:82-84 | the URL prefix is "jdbc:simonp:" |
| ProxyDriver.StrategyOf | jdbc4/src/main/java/org/javasimon/jdbc/ProxyDriver.java:54-64 | absent or "default" selects reflection, "cache" cached reflection, "cglib" CGLib, each compared as `equalsIgnoreCase` does, so the non-ASCII characters whose case mappings reach a letter of the word also match (dotless ı and dotted İ for i); anything else throws IllegalArgumentException |
| ProxyDriver.NumberSetting | jdbc4/src/main/java/org/javasimon/jdbc/ProxyDriver.java:66-70 | an absent setting is null; a present one is its parsed value within range, or NumberFormatException |
| ProxyDriver.SelectFactory | jdbc4/src/main/java/org/javasimon/jdbc/ProxyDriver.java:54-78 | a named factory class overrides mode and cache settings and falls back to the default when it cannot be instantiated. Otherwise the mode and the two cache settings are read |
| ProxyDriver.FactoryClassOverrides | jdbc4/src/main/java/org/javasimon/jdbc/ProxyDriver.java:71-78 | with `simon_proxy_factory` set, no other property changes the choice |
| ProxyDriver.CacheIsNotCGLib | jdbc4/src/main/java/org/javasimon/jdbc/ProxyDriver.java:56-61 | no mode string matches both "cache" and "cglib", so the mode comparisons never overlap |
| ProxyDriver.UnknownModeThrows | jdbc4/src/main/java/org/javasimon/jdbc/ProxyDriver.java:62-64 | an unknown mode throws IllegalArgumentException |
| ProxyDriver.ModeIgnoresCase | jdbc4/src/main/java/org/javasimon/jdbc/ProxyDriver.java:58-61 | "CGLIB" and "Cache" select their strategies, and "cglıb" with a dotless i selects CGLib |
| ProxyDriver.CacheSettingsRoundTrip | jdbc4/src/main/java/org/javasimon/jdbc/ProxyDriver.java:66-70 | a size and a ttl written in decimal are read back as exactly those numbers |
| ProxyDriver.MalformedSizeThrows | jdbc4/src/main/java/org/javasimon/jdbc/ProxyDriver.java:66-70 | a size that is not a 32-bit decimal throws NumberFormatException |
| ProxyDriver.NoSettingsIsDefault | jdbc4/src/main/java/org/javasimon/jdbc/ProxyDriver.java:54-70 | with no settings: reflection and no SQL cache |
| ProxyDriver.WrapConnection | jdbc4/src/main/java/org/javasimon/jdbc/ProxyDriver.java:49-80 | a failed selection propagates and changes nothing; otherwise the connection is wrapped under `url.getPrefix()` |
| ProxyDriver.ConnectWithPrefix | jdbc4/src/test/java/org/javasimon/jdbc/ProxyDriverTest.java:26-37 | with `simon_prefix=org.simon.jdbc.test`, connecting opens `org.simon.jdbc.test.conn` |
| Jdbc4.StripPrefix | jdbc4/src/main/java/org/javasimon/jdbc4/DriverUrl.java:41-43 | the prefix is removed only when the URL starts with it |
| Jdbc4.DriverSplit | jdbc4/src/main/java/org/javasimon/jdbc4/DriverUrl.java:45-47 | the match succeeds iff there is a `:` and no line terminator; the driver id is everything before the last `:` |
| Jdbc4.Tokens | jdbc4/src/main/java/org/javasimon/jdbc4/DriverUrl.java:51-54 | tokenising on `;` skips empty segments; every token is non-empty and free of `;` |
| Jdbc4.SimonPair | jdbc4/src/main/java/org/javasimon/jdbc4/DriverUrl.java:55-66 | a recognised pair always has a `simon_` key |
| Jdbc4.ScanOnlyAddsSimonProperties | jdbc4/src/main/java/org/javasimon/jdbc4/DriverUrl.java:55-66 | the token loop never overwrites a caller property and adds only `simon_` keys |
| Jdbc4.KeptTokensAreTokens | jdbc4/src/main/java/org/javasimon/jdbc4/DriverUrl.java:67-75 | the tokens kept in the real URL are verbatim tokens |
| Jdbc4.RealUrlTail | jdbc4/src/main/java/org/javasimon/jdbc4/DriverUrl.java:67-77 | the real URL is `"jdbc:" + id + ":"` + the kept tokens joined by `;`, with no leading or trailing `;` |
| Jdbc4.ParseUrl | jdbc4/src/main/java/org/javasimon/jdbc4/DriverUrl.java:37-81 | driver id and real URL are both null or both set; without a match the properties are untouched |
| Jdbc4.ParseOnlyAddsSimonProperties | jdbc4/src/main/java/org/javasimon/jdbc4/DriverUrl.java:55-66 | parsing keeps every caller property and adds only `simon_` keys |
| Jdbc4.TokensOfJoin | jdbc4/src/main/java/org/javasimon/jdbc4/DriverUrl.java:51-54 | tokenising tokens joined by `;` gives them back |
| Jdbc4.ParseUrlOf | jdbc4/src/test/java/org/javasimon/jdbc4/UrlTest.java:17-44 | for `prefix + id + ":" + tokens`, the id is `id` and the real URL is built from the tokens the scan keeps |
| Jdbc4.PlainUrl | jdbc4/src/test/java/org/javasimon/jdbc4/UrlTest.java:17-31 | a URL without simon pairs gives `"jdbc:" + id + ":" + rest` and leaves the properties alone |
| Jdbc4.UrlWithNewSimonPair | jdbc4/src/main/java/org/javasimon/jdbc4/DriverUrl.java:61-65 | a new `simon_` pair moves into the properties and out of the real URL |
| Jdbc4.UrlWithSetSimonPair | jdbc4/src/main/java/org/javasimon/jdbc4/DriverUrl.java:61-75 | a `simon_` pair already in the properties stays in the real URL and the properties keep their value |
| Jdbc4.DriverUrl.Init | jdbc4/src/main/java/org/javasimon/jdbc4/DriverUrl.java:37-39 | keeps the URL and makes its own `Properties` with the caller's as defaults |
| Jdbc4.Properties.GetProperty | jdbc4/src/main/java/org/javasimon/jdbc4/DriverUrl.java:140-142 | `getProperty` finds the key exactly when the object or some link of its defaults chain holds it, and answers the nearest link's value |
| Jdbc4.DriverUrl.Parse | jdbc4/src/main/java/org/javasimon/jdbc4/DriverUrl.java:37-81 | the constructor: driver id and real URL as `ParseUrl` says, simon pairs written into the caller's properties; a null caller throws NullPointerException only when a simon pair is met |
| Jdbc4.DriverUrl.ScanInto | jdbc4/src/main/java/org/javasimon/jdbc4/DriverUrl.java:49-77 | the token loop builds the real URL and writes into the caller's properties exactly as the `Scan` function says |
| Jdbc4.DriverUrl.GetPrefix | jdbc4/src/main/java/org/javasimon/jdbc4/DriverUrl.java:120-122 | the `simon_prefix` property, looked up through the whole defaults chain, or the default prefix |
| Jdbc4.DriverUrl.GetRealDriver | jdbc4/src/main/java/org/javasimon/jdbc4/DriverUrl.java:111-113 | present iff `simon_real_drv` is set in the object or anywhere down its defaults chain, and then the value the nearest link holds |
| Jdbc4.DriverUrl.GetRealProperties | jdbc4/src/main/java/org/javasimon/jdbc4/DriverUrl.java:129-138 | as written: the non-`simon_` entries of the object's own table, which the defaults do not reach |
| Jdbc4.DriverUrl.GetRealPropertiesIntended | jdbc4/src/main/java/org/javasimon/jdbc4/DriverUrl.java:129-138 | corrected: exactly the non-`simon_` properties visible through the whole defaults chain, none of them `simon_` |
| Jdbc4.CopyWithoutSimonProperties | jdbc4/src/main/java/org/javasimon/jdbc4/DriverUrl.java:130-136 | the copy loop keeps exactly the non-`simon_` entries |
| Jdbc4.ParseKeepsRealProperties | jdbc4/src/main/java/org/javasimon/jdbc4/DriverUrl.java:53-66 | whatever the parse adds to the caller's properties, their non-`simon_` part is unchanged |
| Jdbc4.RealPropertiesLoseCaller | jdbc4/src/main/java/org/javasimon/jdbc4/DriverUrl.java:129-138 | parsing `jdbc:simonp:h2:mem:test` with a caller holding `user=sa`: the as-written result is empty, the intended one is exactly `{user=sa}` |
| SampleToPath.NewPrefix | report/src/main/java/org/javasimon/report/graphite/SampleToPathImpl.java:23-33 | a null prefix becomes ""; one trailing `.` is stripped |
| SampleToPath.TrailingDotIgnored | report/src/main/java/org/javasimon/report/graphite/SampleToPathImpl.java:30-32 | `p.` and `p` give the same path maker |
| SampleToPath.EmptyPrefixPath | report/src/main/java/org/javasimon/report/graphite/SampleToPathImpl.java:36-39 | with an empty prefix the path is the name itself |
| SampleToPath.PrefixedPath | report/src/test/java/org/javasimon/report/graphite/SampleToPathImplTest.java:13-30 | otherwise the path is `prefix + "." + name` |
| SampleToPath.PathIsInjective | report/src/main/java/org/javasimon/report/graphite/SampleToPathImpl.java:36-42 | different names give different paths |
| ScheduledReporting.StartRefusedIffRunning | report/src/main/java/org/javasimon/report/ScheduledReporter.java:301-311 | `start` throws IllegalStateException iff running, and then changes nothing; otherwise the reporter runs |
| ScheduledReporting.StopRefusedIffNotRunning | report/src/main/java/org/javasimon/report/ScheduledReporter.java:326-334 | `stop` throws iff not running; afterwards the reporter is not running |
| ScheduledReporting.StartThenStop | report/src/test/java/org/javasimon/report/ScheduledReporterTest.java:150-206 | start then stop records onStart, schedule(0, duration, unit), cancel(false), onStop; a second stop throws |
| ScheduledReporting.StopBeforeStart | report/src/test/java/org/javasimon/report/ScheduledReporterTest.java:173-206 | stop before start throws IllegalStateException |
| ScheduledReporting.RestartAfterStop | report/src/main/java/org/javasimon/report/ScheduledReporter.java:302 | after a stop, start succeeds again |
| ScheduledReporting.IncrementSamplesAppend | report/src/main/java/org/javasimon/report/ScheduledReporter.java:242-280 | the selection of samples distributes over concatenation of the Simon list, so it keeps the manager's order |
| ScheduledReporting.OtherSimonIgnored | report/src/main/java/org/javasimon/report/ScheduledReporter.java:242-280 | a Simon that is neither counter nor stopwatch contributes nothing |
| ScheduledReporting.ReportedSamplesComeFromSimons | report/src/test/java/org/javasimon/report/ScheduledReporterTest.java:208-254 | every reported sample is the unnamed increment sample of some Simon, stamped with its name |
| ScheduledReporting.EveryIncrementSampleReported | report/src/test/java/org/javasimon/report/ScheduledReporterTest.java:333-346 | every Simon whose increment sample is unnamed is reported, at its position in order |
| ScheduledReporting.ScheduledReporter.constructor | report/src/main/java/org/javasimon/report/ScheduledReporter.java:70-77 | with a non-null manager: the default duration and unit, the default locale, filter "*", increment key "scheduledReporter", not started |
| ScheduledReporting.ScheduledReporter.Create | report/src/main/java/org/javasimon/report/ScheduledReporter.java:70-77 | a null manager throws IllegalArgumentException; otherwise the defaults |
| ScheduledReporting.ScheduledReporter.Every | report/src/main/java/org/javasimon/report/ScheduledReporter.java:102-122 | `d <= 0` is rejected first; a null unit is rejected after the duration is set |
| ScheduledReporting.ScheduledReporter.SetLocale | report/src/main/java/org/javasimon/report/ScheduledReporter.java:156-163 | a null locale is rejected; otherwise only the locale changes |
| ScheduledReporting.ScheduledReporter.SetFilter | report/src/main/java/org/javasimon/report/ScheduledReporter.java:180-183 | only the filter changes |
| ScheduledReporting.ScheduledReporter.SetManager | report/src/main/java/org/javasimon/report/ScheduledReporter.java:189-195 | a null manager is rejected; otherwise only the manager changes |
| ScheduledReporting.ScheduledReporter.SetExecutorService | report/src/main/java/org/javasimon/report/ScheduledReporter.java:210-217 | a null executor service is rejected; otherwise only it changes |
| ScheduledReporting.ScheduledReporter.SetName | report/src/main/java/org/javasimon/report/ScheduledReporter.java:225-228 | only the increment key changes |
| ScheduledReporting.ScheduledReporter.Start | report/src/main/java/org/javasimon/report/ScheduledReporter.java:301-311 | the lifecycle and result follow `StartStep`; settings unchanged |
| ScheduledReporting.ScheduledReporter.Stop | report/src/main/java/org/javasimon/report/ScheduledReporter.java:326-334 | the lifecycle and result follow `StopStep`; settings unchanged |
| ScheduledReporting.ScheduledReporter.Run | report/src/main/java/org/javasimon/report/ScheduledReporter.java:242-280 | the loop returns exactly the increment samples `IncrementSamples` selects |
| Graphite.CounterLines | report/src/main/java/org/javasimon/report/graphite/GraphitePlaintextClient.java:126-134 | a counter sample gives exactly 5 lines |
| Graphite.StopwatchLines | report/src/main/java/org/javasimon/report/graphite/GraphitePlaintextClient.java:136-148 | a stopwatch sample gives exactly 9 lines |
| Graphite.ExpandLength | report/src/main/java/org/javasimon/report/graphite/GraphitePlaintextClient.java:114-120 | samples of fixed line count `w` give `w * n` lines |
| Graphite.StopwatchBlockOfSend | report/src/main/java/org/javasimon/report/graphite/GraphitePlaintextClient.java:108-124 | lines `9i..9i+9` of a send are stopwatch `i`'s lines, in the seconds of the timestamp |
| Graphite.CounterBlockOfSend | report/src/main/java/org/javasimon/report/graphite/GraphitePlaintextClient.java:108-124 | all stopwatch lines come first; counter `j` follows at `9n + 5j` |
| Graphite.LineRoundTrip | report/src/main/java/org/javasimon/report/graphite/GraphitePlaintextClient.java:167-179 | a line `path value seconds\n` reads back as exactly its path, value and seconds |
| Graphite.SecondsOfTimestamp | report/src/main/java/org/javasimon/report/graphite/GraphitePlaintextClient.java:111 | milliseconds become seconds by integer division |
| Graphite.StopwatchLinesReadBack | report/src/test/java/org/javasimon/report/graphite/GraphitePlaintextClientTest.java:132-173 | stopwatch line `k` reads back as `simonPath.metric_k`, value `k` and the seconds |
| Graphite.CounterLinesReadBack | report/src/test/java/org/javasimon/report/graphite/GraphitePlaintextClientTest.java:185-216 | counter line `k` reads back as `simonPath.metric_k`, value `k` and the seconds |
| Graphite.ConnectTwiceCloseUnconnected | report/src/test/java/org/javasimon/report/graphite/GraphitePlaintextClientTest.java:72-81 | connect while connected, or close while disconnected, throws IllegalStateException and changes nothing |
| Graphite.ConnectThenClose | report/src/test/java/org/javasimon/report/graphite/GraphitePlaintextClientTest.java:83-98 | close flushes, closes the writer, then the socket, and disconnects |
| Graphite.IoFailuresBecomeSimonExceptions | report/src/main/java/org/javasimon/report/graphite/GraphitePlaintextClient.java:102-104 | I/O failures in connect and close surface as SimonException |
| Graphite.StepsKeepWriterNeedsSocket | report/src/main/java/org/javasimon/report/graphite/GraphitePlaintextClient.java:92-105 | connect and close keep "a writer only with a socket" |
| Graphite.GraphitePlaintextClient.constructor | report/src/main/java/org/javasimon/report/graphite/GraphitePlaintextClient.java:53-89 | disconnected; a null path maker becomes one with an empty prefix |
| Graphite.GraphitePlaintextClient.Connect | report/src/main/java/org/javasimon/report/graphite/GraphitePlaintextClient.java:92-105 | follows `ConnectStep`; nothing is sent |
| Graphite.GraphitePlaintextClient.Send | report/src/main/java/org/javasimon/report/graphite/GraphitePlaintextClient.java:108-124 | the lines delivered before a failure are a prefix of `SendLines`; the result is success, NullPointerException without a writer, or SimonException |
| Graphite.GraphitePlaintextClient.SendSamples | report/src/main/java/org/javasimon/report/graphite/GraphitePlaintextClient.java:114-120 | the loop over samples delivers a prefix of their expanded lines |
| Graphite.GraphitePlaintextClient.WriteLines | report/src/main/java/org/javasimon/report/graphite/GraphitePlaintextClient.java:167-179 | the writes of one sample deliver a prefix of its lines |
| Graphite.GraphitePlaintextClient.Close | report/src/main/java/org/javasimon/report/graphite/GraphitePlaintextClient.java:182-199 | follows `CloseStep`, appending its writer and socket calls in order |
| Csv.FormatQuotes | report/src/main/java/org/javasimon/report/CsvReporter.java:142-148 | a string is wrapped in double quotes without escaping; null throws NullPointerException |
| Csv.CounterFields | report/src/main/java/org/javasimon/report/CsvReporter.java:118-129 | a counter row has 9 fields, as many as its header, starting with time and name |
| Csv.StopwatchFields | report/src/main/java/org/javasimon/report/CsvReporter.java:99-116 | a stopwatch row has 15 fields, as many as its header, starting with time and name |
| Csv.FirstUnformattable | report/src/main/java/org/javasimon/report/CsvReporter.java:131-140 | the first field `format` would fail on, if any |
| Csv.EmittedIsJoin | report/src/main/java/org/javasimon/report/CsvReporter.java:131-140 | the field loop writes the formatted fields joined by the separator, none after the last |
| Csv.RowIsJoin | report/src/main/java/org/javasimon/report/CsvReporter.java:131-140 | a whole row is the join of its formatted fields |
| Csv.SplitJoinIff | report/src/main/java/org/javasimon/report/CsvReporter.java:131-140 | splitting a row at the separator gives back its fields iff no field contains the separator |
| Csv.SplitOfJoin | report/src/main/java/org/javasimon/report/CsvReporter.java:131-140 | fields free of the separator split back exactly |
| Csv.WriteTwice | report/src/main/java/org/javasimon/report/CsvReporter.java:131-140 | two writes to a print writer append in order |
| Csv.CounterRowFormats | report/src/main/java/org/javasimon/report/CsvReporter.java:118-129 | a counter row formats iff the sample has a name |
| Csv.StopwatchRowFormats | report/src/main/java/org/javasimon/report/CsvReporter.java:99-116 | a stopwatch row formats iff the sample has a name |
| Csv.RowStartsWithTimeAndName | report/src/test/java/org/javasimon/report/CsvReporterTest.java:158-179 | a written row starts with the time, the separator, the quoted name and the separator |
| Csv.UnnamedCounterStopsReport | report/src/main/java/org/javasimon/report/CsvReporter.java:88-97 | an unnamed counter makes `report` throw NullPointerException before any stopwatch row is written |
| Csv.WriteRowsThrowsAt | report/src/main/java/org/javasimon/report/CsvReporter.java:88-97 | writing rows stops at the first unformattable row, after the fields before its bad field |
| Csv.WriteRowsOutcome | report/src/main/java/org/javasimon/report/CsvReporter.java:88-97 | writing rows throws iff some row is unformattable |
| Csv.NamedRowsAppend | report/src/main/java/org/javasimon/report/CsvReporter.java:88-97 | formattable rows are appended, each followed by a line separator |
| Csv.NamedReport | report/src/main/java/org/javasimon/report/CsvReporter.java:88-97 | with every sample named, both files get all their rows and `report` returns |
| Csv.InitialText | report/src/main/java/org/javasimon/report/CsvReporter.java:153-165 | the header is written iff append is off or the file did not exist |
| Csv.CsvReporter.ForManager | report/src/main/java/org/javasimon/report/CsvReporter.java:69-76 | a null manager throws IllegalArgumentException; otherwise the CSV defaults over the reporter defaults |
| Csv.CsvReporter.SetCountersFile | report/src/main/java/org/javasimon/report/CsvReporter.java:238-245 | a null or empty name throws IllegalArgumentException and keeps the old name |
| Csv.CsvReporter.SetStopwatchesFile | report/src/main/java/org/javasimon/report/CsvReporter.java:262-269 | a null or empty name throws IllegalArgumentException and keeps the old name |
| Csv.CsvReporter.SetSeparator | report/src/main/java/org/javasimon/report/CsvReporter.java:286-289 | only the separator changes |
| Csv.CsvReporter.SetAppendFile | report/src/main/java/org/javasimon/report/CsvReporter.java:315-317 | only the append flag changes |
| Csv.CsvReporter.WriteHeaders | report/src/main/java/org/javasimon/report/CsvReporter.java:213-222 | writes the header names joined by the separator, then a line separator |
| Csv.CsvReporter.WriteFields | report/src/main/java/org/javasimon/report/CsvReporter.java:131-140 | the loop's text and outcome are those of `WriteRow` |
| Csv.CsvReporter.OnStart | report/src/main/java/org/javasimon/report/CsvReporter.java:150-169 | opens both writers and writes each header as `InitialText` says; an opening failure stops there; the new writers and the outcome equal `OnStartEffect` |
| Csv.CsvReporter.OnStop | report/src/main/java/org/javasimon/report/CsvReporter.java:224-230 | the counters writer is flushed and closed first; a null writer throws NullPointerException; the new writers and the outcome equal `OnStopEffect` |
| Csv.CsvReporter.WriteAll | report/src/main/java/org/javasimon/report/CsvReporter.java:89-96 | the row loop follows `WriteRows` |
| Csv.CsvReporter.Report | report/src/main/java/org/javasimon/report/CsvReporter.java:88-97 | follows `ReportStep`: counter rows first, then stopwatch rows, one timestamp |
| Csv.CsvReporter.Start | report/src/main/java/org/javasimon/report/ScheduledReporter.java:301-311 | when running: IllegalStateException and nothing changes; otherwise the two writers become what `OnStartEffect` says and the lifecycle and result are the base start given `onStart`'s outcome |
| Csv.CsvReporter.Stop | report/src/main/java/org/javasimon/report/ScheduledReporter.java:326-334 | when not running: IllegalStateException and nothing changes; otherwise the two writers become what `OnStopEffect` says (closed in turn, NullPointerException at a null one) and the result is `onStop`'s outcome after the cancel |
| Csv.OnStartEffect | report/src/main/java/org/javasimon/report/CsvReporter.java:150-169 | returns iff both files open, and then both writers are open; an opening failure is a SimonException that leaves the stopwatches writer as it was |
| Csv.OnStopEffect | report/src/main/java/org/javasimon/report/CsvReporter.java:224-230 | returns iff both writers exist; every writer it leaves is closed; a missing one gives NullPointerException |
| Csv.StartThenStopClosesWriters | report/src/main/java/org/javasimon/report/CsvReporter.java:150-230 | a successful start then a stop returns and leaves both writers closed, each holding exactly its header text |
| Csv.FirstUnformattableIs | report/src/main/java/org/javasimon/report/CsvReporter.java:131-140 | locates the first null string field |
| Csv.WriteRowsStop | report/src/main/java/org/javasimon/report/CsvReporter.java:88-97 | once a row throws, later rows are not written |

## Left out

- Concurrency: `synchronized`, `ConcurrentHashMap` and the scheduled executor are modelled sequentially. Races that cause a redundant load are not modelled.
- The clock (`System.currentTimeMillis`, `TimeSource`) is modelled as parameters.
- SHA-1 and `SqlNormalizer` are modelled as an uninterpreted digest from SQL text to (type, bytes). The `hashCode` fallback is not modelled.
- The metrics core (`Manager`, `Stopwatch`, `Split`, `StopwatchTemplate`) is not part of this model. It is modelled as an abstract registry.
- Reflection and CGLib do not run here. `Method.invoke` and `Class.forName(...).newInstance()` are function parameters that return or throw. `Enhancer.createClass` and `Class.newInstance` appear only through the failure they raise, if any.
- Cache.MapCache.LoadMissing: a loader that returns null is not modelled; loader results are a value or a failure. In Java a null is stored as an entry, and the same `get` then takes the hit branch on it. It reloads at once if the entry is already stale (as with a negative time to live, MapCache.java:74); otherwise it answers null. The same gap applies to `Cache.MapCache.Get` and `Cache.GetStep`.
- `ReflectProxyFactory` and `CacheReflectProxyFactory` are left out. They are thin wrappers over `java.lang.reflect.Proxy`.
- The old-generation `*ProxyFactory` wrappers and `JdbcProxyFactoryFactory` are left out. Their behaviour is duplicated by the handlers. `ConnectionProxyFactory` is kept.
- Floating point is left out. `DecimalFormat`, `Double.toString` and the mean/stdDev/variance values are opaque pre-formatted strings.
- Files and sockets are modelled as sequences of emitted text or lines.
  - CSV writers start empty, so a file's earlier contents are not modelled.
  - The line separator is "\n".
  - The socket factory and the server address are opaque.
- `GraphitePlaintextClient` failure behaviour:
  - `Send` models delivery line by line. The bytes of a line that failed part-way are not modelled.
  - The exception's cause and message are not modelled.
- `DelegatingMethodInvocation.MethodName` has no contract row. It is a field accessor.
- `ScheduledReporting.ScheduledReporter.Run`: the logging and rethrow of a `RuntimeException` raised in `report` is not modelled.
- The thread factory is not modelled.
- Subclass hooks (`onStart`, `onStop`, `report`) are given as outcomes.
- `ConsoleReporter`, `DbReporter`, `SqlReporter`, `GraphiteReporter` and the storage classes are left out. They only forward to printf, JDBI or sockets.
- `Driver.DEFAULT_PREFIX` and `Driver.URL_PREFIX` of the jdbc4 `Driver` are not part of this model. They are parameters.
- `ProxyDriver.NumberSetting`: only the ASCII digits 0-9 are parsed. `Integer.valueOf` and `Long.valueOf` accept every Unicode decimal digit (`Character.digit`), so `"١٢"` is 12 in Java but a NumberFormatException in the model. The table of Unicode digit blocks depends on the Java version's Unicode data and is not modelled.
- `ProxyDriver.SelectFactory` does not model which class a named factory is. It only models whether the reflective instantiation succeeds.
- `ProxyDriver.WrapConnection`: a connection wrapped through a factory named by `simon_proxy_factory` is modelled as if that factory were the default `JdbcProxyFactory`. The named class's own wrapping code is not visible, so only a successful or failed instantiation is modelled.

## Findings

| source | as written | input that shows it | evidently intended | confidence | as-written member | corrected member |
|---|---|---|---|---|---|---|
| jdbc4/src/main/java/org/javasimon/jdbc4/DriverUrl.java:129-138 | `getRealProperties` copies the non-`simon_` entries of `properties.entrySet()`. That object is `new Properties(callerProperties)`, whose own table is never written, because the constructor writes `simon_` pairs into the caller's object. So the result is always empty. | caller properties `{user=sa}`, URL `jdbc:simonp:h2:mem:test` | the caller's non-`simon_` properties (`{user=sa}`), as seen through the defaults | not executed | Jdbc4.RealPropertiesLoseCaller | Jdbc4.DriverUrl.GetRealPropertiesIntended |
