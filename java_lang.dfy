/**
 * The pieces of the Java runtime the proxy and JDBC layers are written against: 32-bit `int`
 * arithmetic, classes and class loaders as identities, their identity hashes, reflective method
 * handles, and throwables split the way a `catch (Exception e)` clause splits them.
 */
module JavaLang {
  import opened Wrappers

  // ---------------------------------------------------------------- 32-bit int arithmetic

  const TWO_TO_32: int := 0x1_0000_0000
  const TWO_TO_31: int := 0x8000_0000

  newtype int32 = x: int | -0x8000_0000 <= x < 0x8000_0000

  /** The Java `int` that an exact integer result wraps around to. */
  function Int32(x: int): (r: int32)
  {
    ((x + TWO_TO_31) % TWO_TO_32 - TWO_TO_31) as int32
  }

  /** An int value is its own wrap-around. */
  lemma Int32OfInt32(x: int32)
    ensures Int32(x as int) == x
  {
  }

  /** Wrapping forgets multiples of 2^32: only the residue modulo 2^32 matters. */
  lemma {:induction false} Int32Periodic(x: int, k: int)
    ensures Int32(x + TWO_TO_32 * k) == Int32(x)
    decreases if k < 0 then -k else k
  {
    if k > 0 {
      Int32Periodic(x, k - 1);
      assert x + TWO_TO_32 * k == (x + TWO_TO_32 * (k - 1)) + TWO_TO_32;
    } else if k < 0 {
      Int32Periodic(x, k + 1);
      assert x + TWO_TO_32 * k == (x + TWO_TO_32 * (k + 1)) - TWO_TO_32;
    }
  }

  /** `Int32(x)` differs from `x` by a multiple of 2^32. */
  lemma Int32Residue(x: int) returns (k: int)
    ensures Int32(x) as int == x + TWO_TO_32 * k
  {
    k := -((x + TWO_TO_31) / TWO_TO_32);
  }

  /**
   * Java evaluates `31 * h + c` on ints, wrapping after each operation; the result is the same as
   * wrapping the exact value once.
   */
  lemma MulAddWraps(x: int, c: int)
    ensures Int32(31 * (Int32(x) as int) + c) == Int32(31 * x + c)
  {
    var k := Int32Residue(x);
    assert 31 * (Int32(x) as int) + c == (31 * x + c) + TWO_TO_32 * (31 * k);
    Int32Periodic(31 * x + c, 31 * k);
  }

  // ---------------------------------------------------------------- 64-bit long arithmetic

  const TWO_TO_64: int := 0x1_0000_0000_0000_0000
  const TWO_TO_63: int := 0x8000_0000_0000_0000

  /**
   * The Java `long` that an exact integer result wraps around to: a long, equal to the result
   * when that is one already, and otherwise off by a multiple of 2^64.
   */
  function Long(x: int): (r: int)
    ensures -TWO_TO_63 <= r < TWO_TO_63
    ensures -TWO_TO_63 <= x < TWO_TO_63 ==> r == x
    ensures (r - x) % TWO_TO_64 == 0
  {
    (x + TWO_TO_63) % TWO_TO_64 - TWO_TO_63
  }

  // ---------------------------------------------------------------- classes and loaders

  /** A `java.lang.Class`, known by its name; classes compare by identity. */
  datatype JavaClass = JavaClass(name: string)

  /** A `java.lang.ClassLoader`, which overrides neither `equals` nor `hashCode`. */
  datatype ClassLoader = ClassLoader(name: string)

  /**
   * The identity hash codes the running JVM gave to classes and class loaders: fixed for each
   * object, otherwise arbitrary.
   */
  datatype IdentityHashes = IdentityHashes(ofClass: JavaClass -> int32, ofLoader: ClassLoader -> int32)

  /** A reflective `java.lang.reflect.Method`: its name and its parameter types. */
  datatype Method = Method(name: string, parameterTypes: seq<JavaClass>)

  // ---------------------------------------------------------------- throwables

  /**
   * A `Throwable`: either an `Exception` (checked or unchecked) or any other throwable, such as
   * an `Error`. Both carry their class name and their cause.
   */
  datatype Throwable =
    | Exception(className: string, cause: Option<Throwable>)
    | Error(className: string, cause: Option<Throwable>)

  /** How a Java call ends: with a value, or by throwing. */
  datatype Outcome<+R> = Returned(value: R) | Threw(thrown: Throwable)

  /** What dereferencing null throws. */
  function NullPointerException(): Throwable { Exception("NullPointerException", None) }
}
