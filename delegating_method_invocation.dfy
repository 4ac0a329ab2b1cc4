/**
 * DelegatingMethodInvocation: the record of one intercepted call (the real object, the proxy, the
 * method and its arguments), its argument accessors, and the way `run` and `call` map what the
 * reflective call on the real object throws.
 */
module DelegatingMethodInvocation {
  import opened Wrappers
  import opened JavaLang

  /** One intercepted call. A null argument array is `None`. */
  datatype MethodInvocation<T, P, V> = MethodInvocation(delegate: T, proxy: P, calledMethod: Method, args: Option<seq<V>>)

  /** getArgCount: no arguments for a null array, otherwise the array's length. */
  function ArgCount<T, P, V>(mi: MethodInvocation<T, P, V>): (n: nat)
    ensures mi.args.None? ==> n == 0
    ensures mi.args.Some? ==> n == |mi.args.value|
  {
    match mi.args
    case None => 0
    case Some(a) => |a|
  }

  function ArrayIndexOutOfBoundsException(): Throwable { Exception("ArrayIndexOutOfBoundsException", None) }
  function ClassCastException(): Throwable { Exception("ClassCastException", None) }

  /**
   * getArgAt(i): the i-th argument; indexing a null array throws NullPointerException, an index
   * outside the array ArrayIndexOutOfBoundsException.
   */
  function ArgAt<T, P, V>(mi: MethodInvocation<T, P, V>, i: int): (r: Outcome<V>)
    ensures r.Returned? <==> 0 <= i < ArgCount(mi)
    ensures r.Returned? ==> r.value == mi.args.value[i]
    ensures mi.args.None? ==> r == Threw(NullPointerException())
    ensures mi.args.Some? && !(0 <= i < ArgCount(mi)) ==> r == Threw(ArrayIndexOutOfBoundsException())
  {
    match mi.args
    case None => Threw(NullPointerException())
    case Some(a) => if 0 <= i < |a| then Returned(a[i]) else Threw(ArrayIndexOutOfBoundsException())
  }

  /**
   * getArgAt(i, type): the same argument cast to `type`; `castable(x)` says whether Class.cast
   * accepts x (it accepts null and instances of the type), and a rejected value throws
   * ClassCastException.
   */
  function TypedArgAt<T, P, V>(mi: MethodInvocation<T, P, V>, i: int, castable: V -> bool): (r: Outcome<V>)
    ensures r.Returned? <==> ArgAt(mi, i).Returned? && castable(ArgAt(mi, i).value)
    ensures r.Returned? ==> r == ArgAt(mi, i)
    ensures ArgAt(mi, i).Threw? ==> r == ArgAt(mi, i)
  {
    match ArgAt(mi, i)
    case Threw(t) => Threw(t)
    case Returned(x) => if castable(x) then Returned(x) else Threw(ClassCastException())
  }

  /** getMethodName */
  function MethodName<T, P, V>(mi: MethodInvocation<T, P, V>): string
  {
    mi.calledMethod.name
  }

  /**
   * proceed: the invoked method run reflectively on the real object (not the proxy) with the
   * same arguments; `invoke` stands for Method.invoke.
   */
  function Proceed<T, P, V>(mi: MethodInvocation<T, P, V>, invoke: (T, Method, Option<seq<V>>) -> Outcome<V>): Outcome<V>
  {
    invoke(mi.delegate, mi.calledMethod, mi.args)
  }

  /**
   * proceed goes to the real object: which proxy the call came through makes no difference, and
   * the arguments are handed on as they are.
   */
  lemma ProceedUsesDelegate<T, P, V>(mi: MethodInvocation<T, P, V>, otherProxy: P, invoke: (T, Method, Option<seq<V>>) -> Outcome<V>)
    ensures Proceed(mi.(proxy := otherProxy), invoke) == Proceed(mi, invoke)
    ensures Proceed(mi, invoke) == invoke(mi.delegate, mi.calledMethod, mi.args)
  {
  }

  /** run: proceed, and forget whatever it throws. */
  function Run<T, P, V>(mi: MethodInvocation<T, P, V>, invoke: (T, Method, Option<seq<V>>) -> Outcome<V>): (r: Outcome<()>)
    ensures r.Returned?
  {
    match Proceed(mi, invoke)
    case Returned(_) => Returned(())
    case Threw(_) => Returned(())
  }

  /** call: proceed; an Exception is rethrown as it is, any other throwable is wrapped in IllegalStateException. */
  function Call<T, P, V>(mi: MethodInvocation<T, P, V>, invoke: (T, Method, Option<seq<V>>) -> Outcome<V>): (r: Outcome<V>)
    ensures Proceed(mi, invoke).Returned? ==> r == Proceed(mi, invoke)
    ensures Proceed(mi, invoke).Threw? && Proceed(mi, invoke).thrown.Exception? ==> r == Proceed(mi, invoke)
    ensures Proceed(mi, invoke).Threw? && Proceed(mi, invoke).thrown.Error?
            ==> r == Threw(Exception("IllegalStateException", Some(Proceed(mi, invoke).thrown)))
  {
    match Proceed(mi, invoke)
    case Returned(v) => Returned(v)
    case Threw(t) =>
      match t
      case Exception(_, _) => Threw(t)
      case Error(_, _) => Threw(Exception("IllegalStateException", Some(t)))
  }

  /**
   * `call` as Callable promises: whatever it throws is an Exception, its normal results are
   * exactly those of proceed, and the original throwable is kept either as itself or as the cause.
   */
  lemma CallThrowsOnlyExceptions<T, P, V>(mi: MethodInvocation<T, P, V>, invoke: (T, Method, Option<seq<V>>) -> Outcome<V>)
    ensures Call(mi, invoke).Threw? ==> Call(mi, invoke).thrown.Exception?
    ensures Call(mi, invoke).Returned? <==> Proceed(mi, invoke).Returned?
    ensures Call(mi, invoke).Threw? ==>
      Call(mi, invoke).thrown == Proceed(mi, invoke).thrown || Call(mi, invoke).thrown.cause == Some(Proceed(mi, invoke).thrown)
  {
  }
}
