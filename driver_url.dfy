/**
 * The Simon JDBC URL: the driver prefix is removed, the driver id is split off at the last `:`,
 * and the `;`-separated tokens of the rest are either kept in the real driver's URL or, when
 * they are `simon_*=value` pairs the caller's properties do not have yet, moved into those
 * properties.
 */
module Jdbc4 {
  import opened Wrappers
  import opened JavaLang
  import opened JavaText

  // ---------------------------------------------------------------- java.util.Properties

  /**
   * A Properties object: its own entries and the defaults it was created with, which have
   * defaults of their own in turn. `chain` holds the objects down that chain and `depth` its
   * length; both are fixed when the object is made.
   */
  class Properties {
    var entries: map<string, string>
    const defaults: Properties?
    ghost const chain: set<Properties>
    ghost const depth: nat

    /** The defaults chain ends, and each link's chain lies within this one's. */
    ghost predicate Valid()
      decreases depth
    {
      defaults != null ==>
        && defaults in chain && defaults.chain <= chain && defaults.depth < depth
        && defaults.Valid()
    }

    /** new Properties(defaults) */
    constructor(defaults: Properties?)
      requires defaults != null ==> defaults.Valid()
      ensures Valid() && entries == map[] && this.defaults == defaults
      ensures chain == if defaults == null then {} else {defaults} + defaults.chain
    {
      entries := map[];
      this.defaults := defaults;
      chain := if defaults == null then {} else {defaults} + defaults.chain;
      depth := if defaults == null then 0 else defaults.depth + 1;
    }

    /**
     * Every key getProperty finds, with the value it finds: own entries over everything the
     * defaults find.
     */
    function Effective(): map<string, string>
      requires Valid()
      reads this, chain
      decreases depth
    {
      (if defaults == null then map[] else defaults.Effective()) + entries
    }

    /** getProperty(key): the own entry, else whatever the defaults' getProperty finds, else null. */
    function GetProperty(key: string): (r: Option<string>)
      requires Valid()
      reads this, chain
      ensures r.Some? <==> key in Effective()
      ensures r.Some? ==> r.value == Effective()[key]
      decreases depth
    {
      if key in entries then Some(entries[key])
      else if defaults == null then None
      else defaults.GetProperty(key)
    }

    /** An object with no entries of its own finds what its defaults find. */
    lemma EffectiveOfEmpty()
      requires Valid() && entries == map[] && defaults != null
      ensures Effective() == defaults.Effective()
    {
    }

    /** The last link of a chain finds exactly its own entries. */
    lemma EffectiveOfLast()
      requires Valid() && defaults == null
      ensures Effective() == entries
    {
    }

    /** setProperty(key, value) */
    method SetProperty(key: string, value: string)
      modifies this
      ensures entries == old(entries)[key := value]
    {
      entries := entries[key := value];
    }
  }

  // ---------------------------------------------------------------- the parts of a URL

  /** The characters Java's regular-expression `.` does not match. */
  predicate IsLineTerminator(c: char)
  {
    c == '\n' || c == '\r' || c == '\U{0085}' || c == '\U{2028}' || c == '\U{2029}'
  }

  /** The URL without the driver prefix, when it starts with it. */
  function StripPrefix(prefixUrl: string, url: string): (r: string)
    ensures StartsWith(url, prefixUrl) ==> url == prefixUrl + r
    ensures !StartsWith(url, prefixUrl) ==> r == url
  {
    if StartsWith(url, prefixUrl) then url[|prefixUrl|..] else url
  }

  /** Every character of `s` matches `.` */
  predicate NoLineTerminator(s: string)
  {
    |s| == 0 || (!IsLineTerminator(s[0]) && NoLineTerminator(s[1..]))
  }

  /**
   * DRIVER_FROM_URL_PATTERN, `(.*):(.*)`: it matches a string with a `:` and no line terminator,
   * and its greedy first group ends at the last `:`.
   */
  function DriverSplit(s: string): (r: Option<(string, string)>)
    ensures r.Some? <==> ':' in s && NoLineTerminator(s)
    ensures r.Some? ==> s == r.value.0 + ":" + r.value.1 && ':' !in r.value.1
  {
    if !NoLineTerminator(s) then None
    else
      match LastIndexOf(s, ':')
      case None => None
      case Some(i) =>
        assert s == s[..i] + ":" + s[i + 1..];
        Some((s[..i], s[i + 1..]))
  }

  /** new StringTokenizer(s, ";"): the maximal runs of characters other than `;`, in order. */
  function Tokens(s: string): (r: seq<string>)
    ensures forall i :: 0 <= i < |r| ==> IsToken(r[i])
    decreases |s|
  {
    if |s| == 0 then []
    else if s[0] == ';' then Tokens(s[1..])
    else
      match IndexOf(s, ';')
      case None => [s]
      case Some(i) => [s[..i]] + Tokens(s[i + 1..])
  }

  /** isSimonProperty */
  predicate IsSimonProperty(name: string)
  {
    StartsWith(name, "simon_")
  }

  /**
   * The pair a token stands for when it is a Simon property: the trimmed token split at its
   * first `=`, both sides trimmed, and a key starting with `simon_`.
   */
  function SimonPair(token: string): (r: Option<(string, string)>)
    ensures r.Some? ==> IsSimonProperty(r.value.0)
  {
    var trimmed := Trim(token);
    match IndexOf(trimmed, '=')
    case None => None
    case Some(i) =>
      var key := Trim(trimmed[..i]);
      if IsSimonProperty(key) then Some((key, Trim(trimmed[i + 1..]))) else None
  }

  /** One step of the constructor's token loop: the kept tokens and the properties after `token`. */
  function ScanToken(state: (seq<string>, map<string, string>), token: string): (seq<string>, map<string, string>)
  {
    var (kept, p) := state;
    match SimonPair(token)
    case Some((k, v)) => if k !in p then (kept, p[k := v]) else (kept + [token], p)
    case None => (kept + [token], p)
  }

  /**
   * The constructor's token loop over `tokens`, with the caller's properties `props`: a Simon
   * pair whose key the properties lack is moved into them; every other token is kept for the
   * real URL, verbatim. Result: the kept tokens and the properties after the loop.
   */
  function Scan(tokens: seq<string>, props: map<string, string>): (seq<string>, map<string, string>)
    decreases |tokens|
  {
    if |tokens| == 0 then ([], props)
    else ScanToken(Scan(tokens[..|tokens| - 1], props), tokens[|tokens| - 1])
  }

  /** The loop only adds Simon properties, and changes none of the caller's entries. */
  lemma {:induction false} ScanOnlyAddsSimonProperties(tokens: seq<string>, props: map<string, string>)
    ensures var p := Scan(tokens, props).1;
      && (forall k :: k in props ==> k in p && p[k] == props[k])
      && (forall k :: k in p && k !in props ==> IsSimonProperty(k))
    decreases |tokens|
  {
    if |tokens| > 0 {
      ScanOnlyAddsSimonProperties(tokens[..|tokens| - 1], props);
    }
  }

  /** What the tokenizer hands out: a non-empty run without `;`. */
  predicate IsToken(t: string)
  {
    t != [] && ';' !in t
  }

  /** One step either drops the token or keeps it at the end. */
  lemma ScanTokenKeeps(state: (seq<string>, map<string, string>), token: string)
    ensures ScanToken(state, token).0 == state.0 || ScanToken(state, token).0 == state.0 + [token]
  {
  }

  /** Every kept token is one of the tokens, so kept tokens of a tokenizer are tokens too. */
  lemma {:induction false} ScanKeepsTokens(tokens: seq<string>, props: map<string, string>)
    requires forall i :: 0 <= i < |tokens| ==> IsToken(tokens[i])
    ensures forall i :: 0 <= i < |Scan(tokens, props).0| ==> IsToken(Scan(tokens, props).0[i])
    decreases |tokens|
  {
    if |tokens| > 0 {
      var init := tokens[..|tokens| - 1];
      assert forall i :: 0 <= i < |init| ==> init[i] == tokens[i];
      ScanKeepsTokens(init, props);
      var st := Scan(init, props);
      var last := tokens[|tokens| - 1];
      assert Scan(tokens, props) == ScanToken(st, last);
      ScanTokenKeeps(st, last);
      assert IsToken(last);
      var kept := Scan(tokens, props).0;
      assert forall i :: 0 <= i < |st.0| ==> IsToken(st.0[i]);
      if kept != st.0 {
        assert kept == st.0 + [last];
        assert forall i :: 0 <= i < |kept| ==> kept[i] == if i < |st.0| then st.0[i] else last;
      }
    }
  }

  /** Kept tokens of a tokenizer's output are, like the tokens, non-empty and free of `;`. */
  lemma KeptTokensAreTokens(s: string, props: map<string, string>)
    ensures var kept := Scan(Tokens(s), props).0;
      forall i :: 0 <= i < |kept| ==> IsToken(kept[i])
  {
    ScanKeepsTokens(Tokens(s), props);
  }

  /** Whether a token loop would reach `properties.containsKey` at least once. */
  predicate HasSimonPair(tokens: seq<string>)
    decreases |tokens|
  {
    |tokens| > 0 && (HasSimonPair(tokens[..|tokens| - 1]) || SimonPair(tokens[|tokens| - 1]).Some?)
  }

  /** A Simon pair among the first tokens is one among all of them. */
  lemma {:induction false} PairsOfPrefix(tokens: seq<string>, n: nat)
    requires n <= |tokens| && HasSimonPair(tokens[..n])
    ensures HasSimonPair(tokens)
    decreases |tokens| - n
  {
    if n < |tokens| {
      ScanSnoc(tokens, n, map[]);
      PairsOfPrefix(tokens, n + 1);
    } else {
      assert tokens[..n] == tokens;
    }
  }

  /** What the real driver is given: `jdbc:`, the driver id, `:`, and the kept tokens joined by `;`. */
  function RealUrl(driverId: string, kept: seq<string>): string
  {
    "jdbc:" + driverId + ":" + Join(kept, ";")
  }

  /** The constructor's outcome for a caller with properties `props`. */
  datatype ParsedUrl = ParsedUrl(driverId: Option<string>, realUrl: Option<string>, properties: map<string, string>)

  function ParseUrl(prefixUrl: string, url: string, props: map<string, string>): (r: ParsedUrl)
    ensures r.driverId.Some? <==> r.realUrl.Some?
    ensures r.driverId.None? ==> r.properties == props
  {
    match DriverSplit(StripPrefix(prefixUrl, url))
    case None => ParsedUrl(None, None, props)
    case Some((id, end)) =>
      var (kept, p) := Scan(Tokens(end), props);
      ParsedUrl(Some(id), Some(RealUrl(id, kept)), p)
  }

  /** With no caller properties, the constructor fails on the first Simon pair it sees. */
  predicate NullPropertiesThrow(prefixUrl: string, url: string)
  {
    match DriverSplit(StripPrefix(prefixUrl, url))
    case None => false
    case Some((_, end)) => HasSimonPair(Tokens(end))
  }

  /** The properties without the Simon ones. */
  function WithoutSimonProperties(entries: map<string, string>): map<string, string>
  {
    map k | k in entries && !IsSimonProperty(k) :: entries[k]
  }

  // ---------------------------------------------------------------- properties of the parse

  /** The kept tokens joined by `;` tokenize back to the same tokens. */
  lemma {:induction false} TokensOfJoin(parts: seq<string>)
    requires forall i :: 0 <= i < |parts| ==> IsToken(parts[i])
    ensures Tokens(Join(parts, ";")) == parts
    decreases |parts|
  {
    if |parts| == 1 {
      assert IndexOf(parts[0], ';') == None;
    } else if |parts| >= 2 {
      JoinFirst(parts, ";");
      var s := Join(parts, ";");
      var rest := Join(parts[1..], ";");
      var n := |parts[0]|;
      assert s == parts[0] + ";" + rest;
      assert s[..n] == parts[0];
      IndexOfFirst(s, ';', n);
      assert s[n + 1..] == rest;
      TokensOfJoin(parts[1..]);
      assert parts == [parts[0]] + parts[1..];
    }
  }

  /**
   * The real URL of a matched URL is `jdbc:driverId:` and a tail with no leading or trailing
   * `;` whose tokens are exactly the kept ones.
   */
  lemma RealUrlTail(driverId: string, end: string, props: map<string, string>)
    ensures var kept := Scan(Tokens(end), props).0;
      var tail := Join(kept, ";");
      && RealUrl(driverId, kept) == "jdbc:" + driverId + ":" + tail
      && Tokens(tail) == kept
      && (tail == [] || (tail[0] != ';' && tail[|tail| - 1] != ';'))
  {
    var kept := Scan(Tokens(end), props).0;
    KeptTokensAreTokens(end, props);
    TokensOfJoin(kept);
    JoinEnds(kept);
  }

  /** The loop's step on the real URL: the separator goes before every kept token but the first. */
  lemma RealUrlSnoc(driverId: string, kept: seq<string>, token: string)
    ensures RealUrl(driverId, kept + [token]) == RealUrl(driverId, kept) + (if |kept| == 0 then "" else ";") + token
  {
    assert (kept + [token])[..|kept|] == kept;
  }

  /** The loop over one more token is one more step of the loop. */
  lemma ScanSnoc(tokens: seq<string>, i: nat, props: map<string, string>)
    requires i < |tokens|
    ensures Scan(tokens[..i + 1], props) == ScanToken(Scan(tokens[..i], props), tokens[i])
    ensures HasSimonPair(tokens[..i + 1]) <==> HasSimonPair(tokens[..i]) || SimonPair(tokens[i]).Some?
  {
    assert tokens[..i + 1][..i] == tokens[..i];
  }

  /** A join of non-empty parts without `;` neither starts nor ends with `;`. */
  lemma {:induction false} JoinEnds(parts: seq<string>)
    requires forall i :: 0 <= i < |parts| ==> IsToken(parts[i])
    ensures var s := Join(parts, ";"); s == [] || (s[0] != ';' && s[|s| - 1] != ';')
    ensures |parts| > 0 ==> Join(parts, ";") != []
    decreases |parts|
  {
    if |parts| >= 2 {
      JoinEnds(parts[..|parts| - 1]);
      var last := parts[|parts| - 1];
      assert last[|last| - 1] in last;
    } else if |parts| == 1 {
      assert parts[0][0] in parts[0];
      assert parts[0][|parts[0]| - 1] in parts[0];
    }
  }

  /**
   * The caller's properties only gain Simon properties, and none of its entries changes: a
   * `simon_*` pair already present stays in the URL instead.
   */
  lemma ParseOnlyAddsSimonProperties(prefixUrl: string, url: string, props: map<string, string>)
    ensures var p := ParseUrl(prefixUrl, url, props).properties;
      && (forall k :: k in props ==> k in p && p[k] == props[k])
      && (forall k :: k in p && k !in props ==> IsSimonProperty(k))
  {
    match DriverSplit(StripPrefix(prefixUrl, url))
    case None =>
    case Some((_, end)) => ScanOnlyAddsSimonProperties(Tokens(end), props);
  }

  // ---------------------------------------------------------------- DriverUrl

  class DriverUrl {
    const simonUrl: string
    const driverId: Option<string>
    const realUrl: Option<string>
    /** new Properties(callerProperties): nothing is ever put into it. */
    const properties: Properties

    constructor Init(simonUrl: string, driverId: Option<string>, realUrl: Option<string>, caller: Properties?)
      requires caller != null ==> caller.Valid()
      ensures this.simonUrl == simonUrl && this.driverId == driverId && this.realUrl == realUrl
      ensures fresh(properties) && properties.Valid() && properties.entries == map[] && properties.defaults == caller
    {
      this.simonUrl := simonUrl;
      this.driverId := driverId;
      this.realUrl := realUrl;
      properties := new Properties(caller);
    }

    /**
     * new DriverUrl(prefixUrl, url, properties): the parse above, run on the caller's
     * properties object, which it updates; with no properties object, the first Simon pair
     * makes it throw a NullPointerException.
     */
    static method Parse(prefixUrl: string, url: string, caller: Properties?) returns (r: Outcome<DriverUrl>)
      requires caller != null ==> caller.Valid()
      modifies caller
      ensures caller != null ==>
        var parsed := ParseUrl(prefixUrl, url, old(caller.entries));
        && r.Returned? && caller.entries == parsed.properties
        && r.value.driverId == parsed.driverId && r.value.realUrl == parsed.realUrl
      ensures caller == null ==>
        && (r.Threw? <==> NullPropertiesThrow(prefixUrl, url))
        && (r.Threw? ==> r.thrown == Exception("NullPointerException", None))
        && (r.Returned? ==> r.value.driverId == ParseUrl(prefixUrl, url, map[]).driverId
                            && r.value.realUrl == ParseUrl(prefixUrl, url, map[]).realUrl)
      ensures r.Returned? ==>
        && fresh(r.value) && fresh(r.value.properties) && r.value.simonUrl == url && r.value.properties.Valid()
        && r.value.properties.entries == map[] && r.value.properties.defaults == caller
    {
      var rest := StripPrefix(prefixUrl, url);
      var split := DriverSplit(rest);
      if split.None? {
        var u := new DriverUrl.Init(url, None, None, caller);
        return Returned(u);
      }
      var driverId := split.value.0;
      var realUrl := ScanInto(driverId, Tokens(split.value.1), caller);
      if realUrl.Threw? {
        return Threw(realUrl.thrown);
      }
      var u := new DriverUrl.Init(url, Some(driverId), Some(realUrl.value), caller);
      return Returned(u);
    }

    /**
     * The constructor's token loop: each Simon pair the caller's properties lack is set in them,
     * every other token is appended to the real URL, after a `;` unless it is the first.
     */
    static method ScanInto(driverId: string, tokens: seq<string>, caller: Properties?) returns (r: Outcome<string>)
      modifies caller
      ensures caller != null ==>
        && r == Returned(RealUrl(driverId, Scan(tokens, old(caller.entries)).0))
        && caller.entries == Scan(tokens, old(caller.entries)).1
      ensures caller == null ==>
        && (r.Threw? <==> HasSimonPair(tokens))
        && (r.Threw? ==> r.thrown == Exception("NullPointerException", None))
        && (r.Returned? ==> r.value == RealUrl(driverId, Scan(tokens, map[]).0))
    {
      ghost var initial := if caller != null then caller.entries else map[];
      var builder := "jdbc:" + driverId + ":";
      var first := true;
      ghost var kept: seq<string> := [];
      ghost var props := initial;
      var i := 0;
      while i < |tokens|
        invariant 0 <= i <= |tokens|
        invariant (kept, props) == Scan(tokens[..i], initial)
        invariant caller != null ==> caller.entries == props
        invariant caller == null ==> props == map[] && !HasSimonPair(tokens[..i])
        invariant builder == RealUrl(driverId, kept)
        invariant first <==> |kept| == 0
      {
        var token := tokens[i];
        ScanSnoc(tokens, i, initial);
        var pair := SimonPair(token);
        var keep := true;
        if pair.Some? {
          if caller == null {
            assert HasSimonPair(tokens[..i + 1]);
            PairsOfPrefix(tokens, i + 1);
            return Threw(Exception("NullPointerException", None));
          }
          if pair.value.0 !in caller.entries {
            caller.SetProperty(pair.value.0, pair.value.1);
            props := props[pair.value.0 := pair.value.1];
            keep := false;
          }
        }
        if keep {
          RealUrlSnoc(driverId, kept, token);
          if first {
            first := false;
          } else {
            builder := builder + ";";
          }
          builder := builder + token;
          kept := kept + [token];
        }
        i := i + 1;
      }
      assert tokens[..|tokens|] == tokens;
      return Returned(builder);
    }

    /** getProperty(name) */
    function GetProperty(name: string): Option<string>
      requires properties.Valid()
      reads this, properties, properties.chain
    {
      properties.GetProperty(name)
    }

    /** getPrefix: the `simon_prefix` property, or the driver's default prefix. */
    function GetPrefix(defaultPrefix: string): (r: string)
      requires properties.Valid()
      reads this, properties, properties.chain
      ensures "simon_prefix" in properties.Effective() ==> r == properties.Effective()["simon_prefix"]
      ensures "simon_prefix" !in properties.Effective() ==> r == defaultPrefix
    {
      GetProperty("simon_prefix").GetOr(defaultPrefix)
    }

    /** getRealDriver: the `simon_real_drv` property. */
    function GetRealDriver(): (r: Option<string>)
      requires properties.Valid()
      reads this, properties, properties.chain
      ensures r.Some? <==> "simon_real_drv" in properties.Effective()
      ensures r.Some? ==> r.value == properties.Effective()["simon_real_drv"]
    {
      GetProperty("simon_real_drv")
    }

    /**
     * getRealProperties as written: it copies the non-Simon entries of this object's own
     * properties, which the constructor never fills, so it always returns no properties.
     */
    method GetRealProperties() returns (copy: map<string, string>)
      ensures copy == WithoutSimonProperties(properties.entries)
    {
      copy := CopyWithoutSimonProperties(properties.entries);
    }

    /**
     * getRealProperties as intended: the non-Simon properties getProperty sees, the caller's
     * included.
     */
    method GetRealPropertiesIntended() returns (copy: map<string, string>)
      requires properties.Valid()
      ensures copy == WithoutSimonProperties(properties.Effective())
      ensures forall k :: k in copy ==> !IsSimonProperty(k)
      ensures forall k :: k in properties.Effective() && !IsSimonProperty(k) ==> k in copy && copy[k] == properties.Effective()[k]
    {
      copy := CopyWithoutSimonProperties(properties.Effective());
    }
  }

  /** The loop of getRealProperties: every entry whose key is not a Simon property is copied. */
  method CopyWithoutSimonProperties(entries: map<string, string>) returns (copy: map<string, string>)
    ensures copy == WithoutSimonProperties(entries)
  {
    copy := map[];
    var remaining := entries.Keys;
    while remaining != {}
      invariant remaining <= entries.Keys
      invariant copy == map k | k in entries && k !in remaining && !IsSimonProperty(k) :: entries[k]
      decreases |remaining|
    {
      var k :| k in remaining;
      if !IsSimonProperty(k) {
        copy := copy[k := entries[k]];
      }
      remaining := remaining - {k};
    }
  }

  /** Whatever the parse adds to the caller's properties, their non-Simon part stays as it was. */
  lemma ParseKeepsRealProperties(prefixUrl: string, url: string, props: map<string, string>)
    ensures WithoutSimonProperties(ParseUrl(prefixUrl, url, props).properties) == WithoutSimonProperties(props)
  {
    ParseOnlyAddsSimonProperties(prefixUrl, url, props);
  }

  /** Properties with no Simon key lose nothing when the Simon ones are removed. */
  lemma NoSimonPropertiesKept(props: map<string, string>)
    requires forall k :: k in props ==> !IsSimonProperty(k)
    ensures WithoutSimonProperties(props) == props
  {
  }

  /**
   * getRealProperties loses the caller's properties: parsing `jdbc:simonp:h2:mem:test` with a
   * caller that holds user=sa gives no real properties as written, where the intended copy holds
   * user=sa.
   */
  method RealPropertiesLoseCaller() returns (asWritten: map<string, string>, intended: map<string, string>)
    ensures asWritten == map[]
    ensures intended == map["user" := "sa"]
  {
    var caller := new Properties(null);
    caller.SetProperty("user", "sa");
    ghost var before := caller.entries;
    var prefixUrl, simonUrl := "jdbc:simonp:", "jdbc:simonp:h2:mem:test";
    var parsed := DriverUrl.Parse(prefixUrl, simonUrl, caller);
    var url := parsed.value;
    ParseKeepsRealProperties(prefixUrl, simonUrl, before);
    asWritten := url.GetRealProperties();
    intended := url.GetRealPropertiesIntended();
    url.properties.EffectiveOfEmpty();
    caller.EffectiveOfLast();
    NoSimonPropertiesKept(before);
  }

  // ---------------------------------------------------------------- the shapes the URL tests use

  /**
   * A token `key=value` whose key and value have no blank ends, and whose key has no `=` and
   * starts with `simon_`, is the Simon pair (key, value).
   */
  lemma SimonPairOf(key: string, value: string)
    requires key != [] && !IsTrimmable(key[0]) && !IsTrimmable(key[|key| - 1]) && '=' !in key
    requires value == [] || (!IsTrimmable(value[0]) && !IsTrimmable(value[|value| - 1]))
    requires IsSimonProperty(key)
    ensures SimonPair(key + "=" + value) == Some((key, value))
  {
    var token := key + "=" + value;
    TrimmedAlready(token);
    assert token[|key|] == '=' && token[..|key|] == key && token[|key| + 1..] == value;
    assert IndexOf(token, '=') == Some(|key|);
    TrimmedAlready(key);
    TrimmedAlready(value);
  }

  /** A token with no `=` is never a Simon pair. */
  lemma NoEqualsNoPair(token: string)
    requires '=' !in token
    ensures SimonPair(token).None?
  {
    TrimResult(token);
    var t := Trim(token);
    var a := |token| - |TrimStart(token)|;
    assert forall c :: c in t ==> c in token;
  }

  /** The pattern splits at a `:` followed by no other `:`, however many `:` come before it. */
  lemma DriverSplitAt(id: string, end: string)
    requires ':' !in end && NoLineTerminator(id + ":" + end)
    ensures DriverSplit(id + ":" + end) == Some((id, end))
  {
    var s := id + ":" + end;
    assert s[|id|] == ':';
    var i := LastIndexOf(s, ':').value;
    assert s[..|id|] == id && s[|id| + 1..] == end;
  }

  /** A token that is no Simon pair is kept, and the properties stay as they are. */
  lemma PlainTokenKept(state: (seq<string>, map<string, string>), token: string)
    requires SimonPair(token).None?
    ensures ScanToken(state, token) == (state.0 + [token], state.1)
  {
  }

  /** Tokens with no Simon pair are all kept, and the properties are unchanged. */
  lemma {:induction false} ScanOfPlainTokens(tokens: seq<string>, props: map<string, string>)
    requires forall i :: 0 <= i < |tokens| ==> SimonPair(tokens[i]).None?
    ensures Scan(tokens, props) == (tokens, props)
    decreases |tokens|
  {
    if |tokens| > 0 {
      var init := tokens[..|tokens| - 1];
      var last := tokens[|tokens| - 1];
      assert forall i :: 0 <= i < |init| ==> init[i] == tokens[i];
      ScanOfPlainTokens(init, props);
      PlainTokenKept((init, props), last);
      assert init + [last] == tokens;
    }
  }

  /** A matched URL whose end is a join of tokens is parsed by the loop over those tokens. */
  lemma ParseUrlOf(prefixUrl: string, driverId: string, tokens: seq<string>, props: map<string, string>)
    requires forall i :: 0 <= i < |tokens| ==> IsToken(tokens[i])
    requires ':' !in Join(tokens, ";") && NoLineTerminator(driverId + ":" + Join(tokens, ";"))
    ensures ParseUrl(prefixUrl, prefixUrl + driverId + ":" + Join(tokens, ";"), props)
         == ParsedUrl(Some(driverId), Some(RealUrl(driverId, Scan(tokens, props).0)), Scan(tokens, props).1)
  {
    var end := Join(tokens, ";");
    var url := prefixUrl + driverId + ":" + end;
    assert url == prefixUrl + (driverId + ":" + end);
    assert StripPrefix(prefixUrl, url) == driverId + ":" + end;
    DriverSplitAt(driverId, end);
    TokensOfJoin(tokens);
  }

  /**
   * A URL whose tokens hold no Simon pair (UrlTest's `sqlserver://test;databaseName=testdb`) is
   * passed on with only the prefix changed: its real URL is `jdbc:`, the driver id, `:` and the
   * same tokens.
   */
  lemma PlainUrl(prefixUrl: string, driverId: string, plain: seq<string>, props: map<string, string>)
    requires forall i :: 0 <= i < |plain| ==> IsToken(plain[i]) && SimonPair(plain[i]).None?
    requires ':' !in Join(plain, ";") && NoLineTerminator(driverId + ":" + Join(plain, ";"))
    ensures ParseUrl(prefixUrl, prefixUrl + driverId + ":" + Join(plain, ";"), props)
         == ParsedUrl(Some(driverId), Some("jdbc:" + driverId + ":" + Join(plain, ";")), props)
  {
    ParseUrlOf(prefixUrl, driverId, plain, props);
    ScanOfPlainTokens(plain, props);
  }

  /**
   * ProxyDriverTest's `h2:mem:test;simon_prefix=org.simon.jdbc.test`, in general: a last token
   * that is a Simon pair the caller's properties lack moves into them, and the real URL keeps the
   * other tokens; a driver id may itself hold `:`.
   */
  lemma UrlWithNewSimonPair(prefixUrl: string, driverId: string, plain: seq<string>, pair: string, key: string, value: string,
                            props: map<string, string>)
    requires forall i :: 0 <= i < |plain| ==> IsToken(plain[i]) && SimonPair(plain[i]).None?
    requires IsToken(pair) && SimonPair(pair) == Some((key, value))
    requires ':' !in Join(plain + [pair], ";") && NoLineTerminator(driverId + ":" + Join(plain + [pair], ";"))
    requires key !in props
    ensures ParseUrl(prefixUrl, prefixUrl + driverId + ":" + Join(plain + [pair], ";"), props)
         == ParsedUrl(Some(driverId), Some(RealUrl(driverId, plain)), props[key := value])
  {
    var tokens := plain + [pair];
    assert forall i :: 0 <= i < |plain| ==> tokens[i] == plain[i];
    ParseUrlOf(prefixUrl, driverId, tokens, props);
    assert tokens[..|tokens| - 1] == plain;
    ScanOfPlainTokens(plain, props);
    assert Scan(tokens, props) == ScanToken((plain, props), pair);
  }

  /** The same URL with the property already set: the pair stays in the real URL, the properties stay. */
  lemma UrlWithSetSimonPair(prefixUrl: string, driverId: string, plain: seq<string>, pair: string, key: string, value: string,
                            props: map<string, string>)
    requires forall i :: 0 <= i < |plain| ==> IsToken(plain[i]) && SimonPair(plain[i]).None?
    requires IsToken(pair) && SimonPair(pair) == Some((key, value))
    requires ':' !in Join(plain + [pair], ";") && NoLineTerminator(driverId + ":" + Join(plain + [pair], ";"))
    requires key in props
    ensures ParseUrl(prefixUrl, prefixUrl + driverId + ":" + Join(plain + [pair], ";"), props)
         == ParsedUrl(Some(driverId), Some(RealUrl(driverId, plain + [pair])), props)
  {
    var tokens := plain + [pair];
    assert forall i :: 0 <= i < |plain| ==> tokens[i] == plain[i];
    ParseUrlOf(prefixUrl, driverId, tokens, props);
    assert tokens[..|tokens| - 1] == plain;
    ScanOfPlainTokens(plain, props);
  }
}
