/**
 * ProxyFactory.ProxyClass, the key under which generated proxy classes are remembered: a class
 * loader and an ordered list of interfaces, with a hash folded over them in 32-bit arithmetic,
 * and the `newProxy` overloads that build such a key.
 */
module ProxyFactory {
  import opened Wrappers
  import opened JavaLang

  /** A proxy class key. The constructor below is the only way the source makes one. */
  datatype ProxyClass = ProxyClass(classLoader: ClassLoader, interfaces: seq<JavaClass>, hashCode: int32)

  // ---------------------------------------------------------------- the hash

  /** The identity hashes of the interfaces, in array order. */
  function InterfaceHashes(hashes: IdentityHashes, interfaces: seq<JavaClass>): (r: seq<int>)
    ensures |r| == |interfaces|
    ensures forall i :: 0 <= i < |r| ==> r[i] == hashes.ofClass(interfaces[i]) as int
  {
    if interfaces == [] then []
    else InterfaceHashes(hashes, interfaces[..|interfaces| - 1]) + [hashes.ofClass(interfaces[|interfaces| - 1]) as int]
  }

  /** The fold as Java runs it: start from `seed`, then `h = 31 * h + c` per element, wrapping each time. */
  function WrappedFold(seed: int32, hashes: seq<int>): int32
  {
    if hashes == [] then seed
    else Int32(31 * (WrappedFold(seed, hashes[..|hashes| - 1]) as int) + hashes[|hashes| - 1])
  }

  /** The same positional polynomial over unbounded integers, without any wrap-around. */
  function Polynomial(seed: int, hashes: seq<int>): int
  {
    if hashes == [] then seed
    else 31 * Polynomial(seed, hashes[..|hashes| - 1]) + hashes[|hashes| - 1]
  }

  /** The starting value `loaderHash * 31 + interfaces.length`. */
  function Seed(hashes: IdentityHashes, classLoader: ClassLoader, count: nat): int
  {
    hashes.ofLoader(classLoader) as int * 31 + count
  }

  /** The hash code a key for this loader and these interfaces gets. */
  function KeyHash(hashes: IdentityHashes, classLoader: ClassLoader, interfaces: seq<JavaClass>): int32
  {
    WrappedFold(Int32(Seed(hashes, classLoader, |interfaces|)), InterfaceHashes(hashes, interfaces))
  }

  /** Wrapping after every step gives the exact polynomial reduced to 32 bits once. */
  lemma {:induction false} WrappedFoldIsPolynomial(seed: int, hashes: seq<int>)
    ensures WrappedFold(Int32(seed), hashes) == Int32(Polynomial(seed, hashes))
  {
    if hashes != [] {
      var front, last := hashes[..|hashes| - 1], hashes[|hashes| - 1];
      WrappedFoldIsPolynomial(seed, front);
      MulAddWraps(Polynomial(seed, front), last);
    }
  }

  /**
   * The key's hash is the position-weighted sum
   * `hash(loader) * 31^(n+1) + n * 31^n + sum of hash(interfaces[i]) * 31^(n-1-i)`, taken modulo 2^32.
   */
  lemma KeyHashIsPolynomial(hashes: IdentityHashes, classLoader: ClassLoader, interfaces: seq<JavaClass>)
    ensures KeyHash(hashes, classLoader, interfaces)
         == Int32(Polynomial(Seed(hashes, classLoader, |interfaces|), InterfaceHashes(hashes, interfaces)))
  {
    WrappedFoldIsPolynomial(Seed(hashes, classLoader, |interfaces|), InterfaceHashes(hashes, interfaces));
  }

  /** A key whose stored hash is the one its loader and interfaces determine. */
  predicate WellFormed(hashes: IdentityHashes, key: ProxyClass)
  {
    key.hashCode == KeyHash(hashes, key.classLoader, key.interfaces)
  }

  /**
   * The ProxyClass constructor: keeps loader and interfaces, and folds the hash over them. The
   * fold starts from the loader's own hashCode, so a null loader (`None`) throws
   * NullPointerException and no key is made.
   */
  method NewProxyClass(hashes: IdentityHashes, classLoader: Option<ClassLoader>, interfaces: seq<JavaClass>) returns (r: Outcome<ProxyClass>)
    ensures r.Returned? <==> classLoader.Some?
    ensures r.Threw? ==> r.thrown == NullPointerException()
    ensures r.Returned? ==> r.value.classLoader == classLoader.value && r.value.interfaces == interfaces
    ensures r.Returned? ==> WellFormed(hashes, r.value)
  {
    if classLoader.None? {
      return Threw(NullPointerException());
    }
    var loader := classLoader.value;
    var h := Int32(hashes.ofLoader(loader) as int * 31 + |interfaces|);
    ghost var folded := InterfaceHashes(hashes, interfaces);
    var i := 0;
    while i < |interfaces|
      invariant 0 <= i <= |interfaces|
      invariant h == WrappedFold(Int32(Seed(hashes, loader, |interfaces|)), folded[..i])
    {
      assert folded[..i + 1][..i] == folded[..i];
      h := Int32(31 * (h as int) + hashes.ofClass(interfaces[i]) as int);
      i := i + 1;
    }
    assert folded[..i] == folded;
    r := Returned(ProxyClass(loader, interfaces, h));
  }

  // ---------------------------------------------------------------- equality

  /** What `equals` may be handed: null, a ProxyClass, or an object of some other class. */
  datatype JavaObject = Null | Key(key: ProxyClass) | OtherObject

  /**
   * ProxyClass.equals: the same object is equal; null and other classes are not; then the stored
   * hashes, the loaders and the interface arrays (element by element, in order) must agree.
   */
  function Equals(self: ProxyClass, o: JavaObject): (r: bool)
    ensures o == Key(self) ==> r
    ensures o.Null? || o.OtherObject? ==> !r
    ensures o.Key? && o.key.hashCode != self.hashCode ==> !r
    ensures r ==> o.Key? && o.key == self
  {
    if o == Key(self) then true
    else if o.Null? || o.OtherObject? then false
    else if self.hashCode != o.key.hashCode then false
    else if self.classLoader != o.key.classLoader then false
    else if self.interfaces != o.key.interfaces then false
    else true
  }

  /** Between keys the constructor made, equality means the same loader and the same interface list. */
  lemma EqualsIffSameLoaderAndInterfaces(hashes: IdentityHashes, a: ProxyClass, b: ProxyClass)
    requires WellFormed(hashes, a) && WellFormed(hashes, b)
    ensures Equals(a, Key(b)) <==> a.classLoader == b.classLoader && a.interfaces == b.interfaces
  {
  }

  /** ProxyClass.hashCode: equal keys have equal hash codes. */
  lemma EqualKeysEqualHashes(a: ProxyClass, b: ProxyClass)
    requires Equals(a, Key(b))
    ensures a.hashCode == b.hashCode
  {
  }

  /** Equality is symmetric, as the `Object.equals` contract asks. */
  lemma EqualsSymmetric(a: ProxyClass, b: ProxyClass)
    ensures Equals(a, Key(b)) == Equals(b, Key(a))
  {
  }

  /** The same interfaces in another order make another key. */
  lemma OrderMatters(classLoader: ClassLoader, i: JavaClass, j: JavaClass, a: ProxyClass, b: ProxyClass)
    requires i != j
    requires a.classLoader == classLoader && a.interfaces == [i, j]
    requires b.classLoader == classLoader && b.interfaces == [j, i]
    ensures !Equals(a, Key(b))
  {
    assert a.interfaces[0] != b.interfaces[0];
  }

  /** Interface lists of different lengths make different keys. */
  lemma LengthMatters(a: ProxyClass, b: ProxyClass)
    requires |a.interfaces| != |b.interfaces|
    ensures !Equals(a, Key(b))
  {
  }

  // ---------------------------------------------------------------- newProxy overloads

  /**
   * newProxy(handler, classLoader, interfaces...): the key handed to the factory's own newProxy,
   * or the NullPointerException the key's constructor throws for a null loader.
   */
  method KeyForLoader(hashes: IdentityHashes, classLoader: Option<ClassLoader>, interfaces: seq<JavaClass>) returns (r: Outcome<ProxyClass>)
    ensures r.Returned? <==> classLoader.Some?
    ensures r.Threw? ==> r.thrown == NullPointerException()
    ensures r.Returned? ==> r.value.classLoader == classLoader.value && r.value.interfaces == interfaces && WellFormed(hashes, r.value)
  {
    r := NewProxyClass(hashes, classLoader, interfaces);
  }

  /**
   * newProxy(handler, interfaces...): as above, with the current thread's context class loader,
   * which may be null.
   */
  method KeyForContext(hashes: IdentityHashes, contextClassLoader: Option<ClassLoader>, interfaces: seq<JavaClass>) returns (r: Outcome<ProxyClass>)
    ensures r.Returned? <==> contextClassLoader.Some?
    ensures r.Threw? ==> r.thrown == NullPointerException()
    ensures r.Returned? ==> r.value.classLoader == contextClassLoader.value && r.value.interfaces == interfaces && WellFormed(hashes, r.value)
  {
    r := KeyForLoader(hashes, contextClassLoader, interfaces);
  }

  /** newProxy(handler, X): a key with the context class loader and the single interface X. */
  method KeyForInterface(hashes: IdentityHashes, contextClassLoader: Option<ClassLoader>, iface: JavaClass) returns (r: Outcome<ProxyClass>)
    ensures r.Returned? <==> contextClassLoader.Some?
    ensures r.Threw? ==> r.thrown == NullPointerException()
    ensures r.Returned? ==> r.value.classLoader == contextClassLoader.value && r.value.interfaces == [iface] && WellFormed(hashes, r.value)
  {
    r := KeyForContext(hashes, contextClassLoader, [iface]);
  }

  // ---------------------------------------------------------------- ProxyFactoryTest

  /**
   * Two keys for Thing under Thing's loader are equal; a key for Statement, or for Thing and
   * Statement together, is equal to neither.
   */
  method KeysOfTest(hashes: IdentityHashes, loader: ClassLoader, thing: JavaClass, statement: JavaClass)
    returns (same: bool, otherInterface: bool, moreInterfaces: bool)
    requires thing != statement
    ensures same && !otherInterface && !moreInterfaces
  {
    var key1 := NewProxyClass(hashes, Some(loader), [thing]);
    var key2 := NewProxyClass(hashes, Some(loader), [thing]);
    same := Equals(key1.value, Key(key2.value));
    var key3 := NewProxyClass(hashes, Some(loader), [statement]);
    otherInterface := Equals(key1.value, Key(key3.value));
    var key4 := NewProxyClass(hashes, Some(loader), [thing, statement]);
    moreInterfaces := Equals(key1.value, Key(key4.value));
  }
}
