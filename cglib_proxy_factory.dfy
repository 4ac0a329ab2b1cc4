/**
 * CGLibProxyFactory: one generated proxy class per ProxyClass key, remembered in a map, and
 * proxies whose calls are routed by a callback filter either to the handler (slot 0) or straight
 * to the delegate (slot 1). Class generation and instantiation are the CGLib library's own work
 * and appear here only through their results.
 */
module CGLibProxyFactory {
  import opened Wrappers
  import opened JavaLang
  import opened ProxyFactory

  /**
   * A DelegatingProxyHandler as the factory uses it: its invocation filter, its delegate, and its
   * invoke operation (the handler's own behaviour is not part of this model).
   */
  datatype Handler<D, !V> = Handler(isIntercepted: Method -> bool, delegate: D, invoke: (Method, seq<V>) -> Outcome<V>)

  /** The two callback kinds, in the order of ADAPTER_CALLBACK_TYPES. */
  datatype CallbackType = MethodInterceptorType | LazyLoaderType

  const AdapterCallbackTypes: seq<CallbackType> := [MethodInterceptorType, LazyLoaderType]

  /** The callbacks a proxy holds: an interceptor that forwards to the handler, or a loader of the delegate. */
  datatype Callback<D, !V> = AdapterMethodInterceptor(handler: Handler<D, V>) | AdapterLazyLoader(delegate: D)
  {
    function Type(): CallbackType {
      if AdapterMethodInterceptor? then MethodInterceptorType else LazyLoaderType
    }
  }

  /** AdapterCallbackFilter.accept: the callback slot for a method. */
  function Accept(isIntercepted: Method -> bool, m: Method): (slot: nat)
    ensures slot < |AdapterCallbackTypes|
    ensures slot == 0 <==> isIntercepted(m)
  {
    if isIntercepted(m) then 0 else 1
  }

  /**
   * What a proxy does with a call that lands on a callback: the interceptor hands it to the
   * handler's invoke, the lazy loader runs the method on the object it loaded (`call` stands for
   * the reflective call on that object).
   */
  function Dispatch<D, V>(callback: Callback<D, V>, m: Method, args: seq<V>, call: (D, Method, seq<V>) -> Outcome<V>): Outcome<V>
  {
    match callback
    case AdapterMethodInterceptor(handler) => handler.invoke(m, args)
    case AdapterLazyLoader(delegate) => call(delegate, m, args)
  }

  /** The callbacks newProxy installs for a handler. */
  function CallbacksFor<D, V>(handler: Handler<D, V>): (callbacks: seq<Callback<D, V>>)
    ensures |callbacks| == |AdapterCallbackTypes|
    ensures forall i :: 0 <= i < |callbacks| ==> callbacks[i].Type() == AdapterCallbackTypes[i]
  {
    [AdapterMethodInterceptor(handler), AdapterLazyLoader(handler.delegate)]
  }

  /**
   * The filter's slots agree with the installed callbacks: with a filter `f`, an intercepted
   * method goes to the handler's invoke, any other runs directly on the delegate.
   */
  lemma {:induction false} RoutingMatchesFilter<D, V>(f: Method -> bool, handler: Handler<D, V>, m: Method, args: seq<V>, call: (D, Method, seq<V>) -> Outcome<V>)
    ensures Dispatch(CallbacksFor(handler)[Accept(f, m)], m, args, call)
         == if f(m) then handler.invoke(m, args) else call(handler.delegate, m, args)
  {
    if f(m) {
      assert Accept(f, m) == 0;
    } else {
      assert Accept(f, m) == 1;
    }
  }

  /** A class produced by CGLib's Enhancer.createClass: a new class each time. */
  class GeneratedClass {
    const classLoader: ClassLoader
    const interfaces: seq<JavaClass>
    const callbackFilter: Method -> bool
    const callbackTypes: seq<CallbackType>

    constructor(classLoader: ClassLoader, interfaces: seq<JavaClass>, callbackFilter: Method -> bool)
      ensures this.classLoader == classLoader && this.interfaces == interfaces
      ensures this.callbackFilter == callbackFilter && callbackTypes == AdapterCallbackTypes
    {
      this.classLoader := classLoader;
      this.interfaces := interfaces;
      this.callbackFilter := callbackFilter;
      callbackTypes := AdapterCallbackTypes;
    }
  }

  /** An instance of a generated class; `setCallbacks` fills its callbacks after instantiation. */
  class Proxy<D, V> {
    const proxyClass: GeneratedClass
    var callbacks: seq<Callback<D, V>>

    constructor(proxyClass: GeneratedClass)
      ensures this.proxyClass == proxyClass && callbacks == []
    {
      this.proxyClass := proxyClass;
      callbacks := [];
    }

    /** Factory.setCallbacks */
    method SetCallbacks(callbacks: seq<Callback<D, V>>)
      modifies this
      ensures this.callbacks == callbacks
    {
      this.callbacks := callbacks;
    }

    /** A call on the proxy: the class's filter picks the slot, the callback in that slot runs. */
    function Call(m: Method, args: seq<V>, call: (D, Method, seq<V>) -> Outcome<V>): Outcome<V>
      reads this
      requires Accept(proxyClass.callbackFilter, m) < |callbacks|
    {
      Dispatch(callbacks[Accept(proxyClass.callbackFilter, m)], m, args, call)
    }
  }

  /** Why Class.newInstance can fail, as newProxy catches it. */
  datatype InstantiationFailure = InstantiationException | IllegalAccessException

  /** The ProxyException newProxy throws for an instantiation failure. */
  function ProxyExceptionFor(failure: InstantiationFailure): Throwable
  {
    Exception("ProxyException", Some(Exception(if failure.InstantiationException? then "InstantiationException" else "IllegalAccessException", None)))
  }

  class Factory<D, V> {
    /** proxyClasses: the class generated for each key. */
    var proxyClasses: map<ProxyClass, GeneratedClass>
    /** Every key a class was generated for, in order. */
    ghost var generated: seq<ProxyClass>

    /** Each remembered class was generated for its key, and no key was generated for twice. */
    ghost predicate Valid()
      reads this
    {
      && (forall k :: k in proxyClasses <==> k in generated)
      && (forall i, j :: 0 <= i < j < |generated| ==> generated[i] != generated[j])
      && (forall k :: k in proxyClasses ==>
            proxyClasses[k].classLoader == k.classLoader && proxyClasses[k].interfaces == k.interfaces
            && proxyClasses[k].callbackTypes == AdapterCallbackTypes)
    }

    constructor()
      ensures Valid() && proxyClasses == map[] && generated == []
    {
      proxyClasses := map[];
      generated := [];
    }

    /**
     * getProxyClass: a remembered class is returned as is; otherwise one new class is generated,
     * with the filter of the handler at hand, and remembered under the key. `genFailure` is what
     * Enhancer.createClass throws, if it does; then nothing is remembered and the throwable
     * propagates.
     */
    method GetProxyClass(handler: Handler<D, V>, key: ProxyClass, genFailure: Option<Throwable>) returns (r: Outcome<GeneratedClass>)
      requires Valid()
      modifies this
      ensures Valid()
      ensures old(key in proxyClasses) ==>
        && proxyClasses == old(proxyClasses) && generated == old(generated)
        && r == Returned(proxyClasses[key])
      ensures old(key !in proxyClasses) && genFailure.Some? ==>
        && r == Threw(genFailure.value)
        && proxyClasses == old(proxyClasses) && generated == old(generated)
      ensures old(key !in proxyClasses) && genFailure.None? ==>
        && r.Returned? && fresh(r.value) && r.value.callbackFilter == handler.isIntercepted
        && proxyClasses == old(proxyClasses)[key := r.value] && generated == old(generated) + [key]
    {
      if key in proxyClasses {
        r := Returned(proxyClasses[key]);
      } else if genFailure.Some? {
        r := Threw(genFailure.value);
      } else {
        var clazz := new GeneratedClass(key.classLoader, key.interfaces, handler.isIntercepted);
        proxyClasses := proxyClasses[key := clazz];
        generated := generated + [key];
        r := Returned(clazz);
      }
    }

    /**
     * newProxy: get the key's class (`genFailure` as for GetProxyClass), instantiate it
     * (`failure` is how Class.newInstance fails, if it does) and install the handler's callbacks.
     * An instantiation failure becomes a ProxyException; a generation failure is not caught.
     */
    method NewProxy(handler: Handler<D, V>, key: ProxyClass, genFailure: Option<Throwable>, failure: Option<InstantiationFailure>)
      returns (r: Outcome<Proxy<D, V>>)
      requires Valid()
      modifies this
      ensures Valid()
      ensures old(key in proxyClasses) ==> proxyClasses == old(proxyClasses) && generated == old(generated)
      ensures old(key !in proxyClasses) && genFailure.Some? ==>
        && r == Threw(genFailure.value)
        && proxyClasses == old(proxyClasses) && generated == old(generated)
      ensures old(key !in proxyClasses) && genFailure.None? ==>
        && proxyClasses.Keys == old(proxyClasses).Keys + {key} && generated == old(generated) + [key]
        && proxyClasses[key].callbackFilter == handler.isIntercepted
      ensures old(key in proxyClasses) || genFailure.None? ==>
        && key in proxyClasses
        && (failure.Some? ==> r == Threw(ProxyExceptionFor(failure.value)))
        && (failure.None? ==>
              && r.Returned? && fresh(r.value) && r.value.proxyClass == proxyClasses[key]
              && r.value.callbacks == CallbacksFor(handler))
    {
      var clazz := GetProxyClass(handler, key, genFailure);
      if clazz.Threw? {
        return Threw(clazz.thrown);
      }
      if failure.Some? {
        return Threw(ProxyExceptionFor(failure.value));
      }
      var proxy := new Proxy(clazz.value);
      proxy.SetCallbacks(CallbacksFor(handler));
      r := Returned(proxy);
    }
  }

  /**
   * A failed class generation remembers nothing: the next newProxy for the same key generates the
   * class afresh and gets a proxy, and the factory then holds that one class.
   */
  method RetryAfterGenerationFailure<D, V>(handler: Handler<D, V>, key: ProxyClass, thrown: Throwable)
    returns (first: Outcome<Proxy<D, V>>, second: Outcome<Proxy<D, V>>, classes: nat)
    ensures first == Threw(thrown)
    ensures second.Returned? && second.value.callbacks == CallbacksFor(handler)
    ensures classes == 1
  {
    var factory := new Factory<D, V>();
    first := factory.NewProxy(handler, key, Some(thrown), None);
    second := factory.NewProxy(handler, key, None, None);
    classes := |factory.proxyClasses|;
  }

  /**
   * Two handlers with equal keys share one generated class, so the second handler's proxy routes
   * its calls by the filter of the first handler: a method only the second handler intercepts
   * goes straight to the second handler's delegate.
   */
  method FirstFilterWins<D, V>(first: Handler<D, V>, second: Handler<D, V>, key: ProxyClass, m: Method, args: seq<V>, call: (D, Method, seq<V>) -> Outcome<V>)
    returns (answer: Outcome<V>)
    requires !first.isIntercepted(m) && second.isIntercepted(m)
    ensures answer == call(second.delegate, m, args)
  {
    var factory := new Factory<D, V>();
    var p1 := factory.NewProxy(first, key, None, None);
    var p2 := factory.NewProxy(second, key, None, None);
    var proxy := p2.value;
    RoutingMatchesFilter(first.isIntercepted, second, m, args, call);
    answer := proxy.Call(m, args, call);
  }
}
