/**
 * SampleToPathImpl: the Graphite path of a sample is its name under a prefix. The prefix is
 * normalised once, when the object is made: null becomes empty and one trailing '.' is dropped.
 */
module SampleToPath {
  import opened Wrappers
  import opened JavaText
  import opened Samples

  datatype SampleToPathImpl = SampleToPathImpl(prefix: string)

  /** The constructor: null is the empty prefix, and one trailing '.' is removed. */
  function New(prefix: Option<string>): (r: SampleToPathImpl)
  {
    var p := if prefix.None? then "" else prefix.value;
    if EndsWith(p, ".") then SampleToPathImpl(p[..|p| - 1]) else SampleToPathImpl(p)
  }

  /** getPrefix */
  function GetPrefix(t: SampleToPathImpl): string
  {
    t.prefix
  }

  /**
   * getPath: the sample name itself under an empty prefix (null stays null), otherwise prefix,
   * '.', name, where a null name is concatenated as "null".
   */
  function GetPath(t: SampleToPathImpl, name: Option<string>): (r: Option<string>)
  {
    if t.prefix == "" then name else Some(t.prefix + "." + StringValueOf(name))
  }

  /**
   * What the constructor keeps: the prefix itself when it does not end with '.', the prefix
   * without its last '.' when it does, and "" for null.
   */
  lemma NewPrefix(prefix: Option<string>)
    ensures prefix.None? ==> GetPrefix(New(prefix)) == ""
    ensures prefix.Some? && !EndsWith(prefix.value, ".") ==> GetPrefix(New(prefix)) == prefix.value
    ensures prefix.Some? && EndsWith(prefix.value, ".") ==> GetPrefix(New(prefix)) + "." == prefix.value
  {
    if prefix.Some? && EndsWith(prefix.value, ".") {
      var p := prefix.value;
      assert p == p[..|p| - 1] + ".";
    }
  }

  /**
   * Exactly one trailing '.' is dropped: `p.` keeps p, so "z." and "z" make the same object,
   * while "z.." keeps "z.".
   */
  lemma TrailingDotIgnored(p: string)
    ensures GetPrefix(New(Some(p + "."))) == p
    ensures !EndsWith(p, ".") ==> New(Some(p + ".")) == New(Some(p))
  {
    var q := p + ".";
    assert EndsWith(q, ".");
    assert q[..|q| - 1] == p;
  }

  /** Null and empty prefixes both leave the name as it is. */
  lemma EmptyPrefixPath(prefix: Option<string>, name: Option<string>)
    requires prefix.None? || prefix.value == "" || prefix.value == "."
    ensures GetPath(New(prefix), name) == name
  {
    if prefix.Some? && prefix.value == "." {
      assert EndsWith(prefix.value, ".");
    }
  }

  /**
   * Under a prefix with no trailing '.', the path of a name is `prefix.name`, with or without
   * the trailing '.' given to the constructor.
   */
  lemma PrefixedPath(p: string, name: string)
    requires p != "" && !EndsWith(p, ".")
    ensures GetPath(New(Some(p)), Some(name)) == Some(p + "." + name)
    ensures GetPath(New(Some(p + ".")), Some(name)) == Some(p + "." + name)
  {
    TrailingDotIgnored(p);
  }

  /** Different names give different paths: the name is what follows the prefix and its '.'. */
  lemma {:induction false} PathIsInjective(t: SampleToPathImpl, a: string, b: string)
    requires GetPath(t, Some(a)) == GetPath(t, Some(b))
    ensures a == b
  {
    if t.prefix != "" {
      var n := |t.prefix| + 1;
      assert (t.prefix + "." + a)[n..] == a;
      assert (t.prefix + "." + b)[n..] == b;
    }
  }
}
