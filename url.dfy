/**
 * The part of Go's net/url that the request builders use: url.Values (a map
 * from key to a list of values, changed in place by Set) and its Encode,
 * which writes "key=value" pairs in increasing key order, joined by '&', with
 * keys and values escaped by QueryEscape.
 */
module Url {
  import opened Strings

  // ---------------------------------------------------------------------
  // Byte-wise string order (sort.Strings). For Unicode scalar values,
  // comparing UTF-8 bytes and comparing code points give the same order.
  // ---------------------------------------------------------------------

  /** a sorts strictly before b. */
  predicate Less(a: string, b: string)
    decreases |a|
  {
    if a == [] then b != []
    else if b == [] then false
    else if a[0] != b[0] then a[0] < b[0]
    else Less(a[1..], b[1..])
  }

  lemma {:induction false} LessIrreflexive(a: string)
    ensures !Less(a, a)
    decreases |a|
  {
    if a != [] { LessIrreflexive(a[1..]); }
  }

  lemma {:induction false} LessTransitive(a: string, b: string, c: string)
    requires Less(a, b) && Less(b, c)
    ensures Less(a, c)
    decreases |a|
  {
    if a != [] && a[0] == b[0] && b[0] == c[0] {
      LessTransitive(a[1..], b[1..], c[1..]);
    }
  }

  lemma {:induction false} LessTotal(a: string, b: string)
    requires a != b
    ensures Less(a, b) || Less(b, a)
    decreases |a|
  {
    if a != [] && b != [] && a[0] == b[0] {
      assert a == [a[0]] + a[1..] && b == [b[0]] + b[1..];
      LessTotal(a[1..], b[1..]);
    }
  }

  lemma {:induction false} LessAsymmetric(a: string, b: string)
    requires Less(a, b)
    ensures !Less(b, a)
  {
    if Less(b, a) {
      LessTransitive(a, b, a);
      LessIrreflexive(a);
    }
  }

  predicate StrictlySorted(ks: seq<string>)
  {
    forall i, j :: 0 <= i < j < |ks| ==> Less(ks[i], ks[j])
  }

  ghost predicate IsLeast(k: string, keys: set<string>)
  {
    k in keys && forall y :: y in keys && y != k ==> Less(k, y)
  }

  /** Every non-empty finite set of strings has a least element. */
  lemma {:induction false} LeastExists(keys: set<string>)
    requires keys != {}
    ensures exists k :: IsLeast(k, keys)
    decreases |keys|
  {
    var x :| x in keys;
    var rest := keys - {x};
    if rest == {} {
      assert keys == {x};
      assert IsLeast(x, keys);
    } else {
      LeastExists(rest);
      var m :| IsLeast(m, rest);
      if Less(x, m) {
        forall y | y in keys && y != x ensures Less(x, y) {
          if y != m { LessTransitive(x, m, y); }
        }
        assert IsLeast(x, keys);
      } else {
        LessTotal(x, m);
        assert IsLeast(m, keys);
      }
    }
  }

  /** The least key of a non-empty set. */
  ghost function Least(keys: set<string>): (k: string)
    requires keys != {}
    ensures IsLeast(k, keys)
  {
    LeastExists(keys);
    var k :| IsLeast(k, keys);
    k
  }

  /** The keys in increasing order: what sort.Strings makes of a map's keys. */
  ghost function SortedKeys(keys: set<string>): (ks: seq<string>)
    ensures StrictlySorted(ks)
    ensures forall k :: k in ks <==> k in keys
    decreases keys
  {
    if keys == {} then []
    else
      var k := Least(keys);
      var ks := [k] + SortedKeys(keys - {k});
      assert forall j :: 0 < j < |ks| ==> ks[j] in keys - {k};
      ks
  }

  /** A strictly sorted sequence is determined by its elements. */
  lemma {:induction false} SortedKeysUnique(ks: seq<string>, keys: set<string>)
    requires StrictlySorted(ks)
    requires forall k :: k in ks <==> k in keys
    ensures ks == SortedKeys(keys)
    decreases |ks|
  {
    if ks != [] {
      forall y | y in keys && y != ks[0] ensures Less(ks[0], y) {
        var j :| 0 <= j < |ks| && ks[j] == y;
      }
      assert IsLeast(ks[0], keys);
      var k := Least(keys);
      if k != ks[0] {
        LessAsymmetric(k, ks[0]);
      }
      forall y ensures y in ks[1..] <==> y in keys - {k} {
        if y in ks[1..] {
          var j :| 1 <= j < |ks| && ks[j] == y;
          if y == k { LessIrreflexive(k); }
        }
        if y in keys - {k} {
          var j :| 0 <= j < |ks| && ks[j] == y;
          assert j != 0;
          assert ks[1..][j - 1] == y;
        }
      }
      SortedKeysUnique(ks[1..], keys - {k});
    }
  }

  // ---------------------------------------------------------------------
  // QueryEscape
  // ---------------------------------------------------------------------

  /** Characters QueryEscape leaves as they are. */
  predicate Unreserved(c: char)
  {
    ('A' <= c <= 'Z') || ('a' <= c <= 'z') || ('0' <= c <= '9') ||
    c == '-' || c == '_' || c == '.' || c == '~'
  }

  /** The UTF-8 bytes of a character. */
  function Utf8(c: char): (bytes: seq<nat>)
    ensures 1 <= |bytes| <= 4
    ensures forall i :: 0 <= i < |bytes| ==> bytes[i] < 256
  {
    var cp := c as int;
    if cp < 0x80 then [cp]
    else if cp < 0x800 then [0xC0 + cp / 0x40, 0x80 + cp % 0x40]
    else if cp < 0x1_0000 then [0xE0 + cp / 0x1000, 0x80 + (cp / 0x40) % 0x40, 0x80 + cp % 0x40]
    else [0xF0 + cp / 0x4_0000, 0x80 + (cp / 0x1000) % 0x40, 0x80 + (cp / 0x40) % 0x40, 0x80 + cp % 0x40]
  }

  function HexDigit(d: nat): (c: char)
    requires d < 16
    ensures Unreserved(c)
  {
    "0123456789ABCDEF"[d]
  }

  /** "%XY" for each byte, upper-case hexadecimal. */
  function PercentBytes(bytes: seq<nat>): (s: string)
    requires forall i :: 0 <= i < |bytes| ==> bytes[i] < 256
    ensures forall i :: 0 <= i < |s| ==> s[i] == '%' || Unreserved(s[i])
    decreases |bytes|
  {
    if bytes == [] then ""
    else ['%', HexDigit(bytes[0] / 16), HexDigit(bytes[0] % 16)] + PercentBytes(bytes[1..])
  }

  function EscapeChar(c: char): string
  {
    if Unreserved(c) then [c]
    else if c == ' ' then "+"
    else PercentBytes(Utf8(c))
  }

  /** Neither of a query's separators '&' and '=' occurs. */
  predicate NoSeparators(s: string)
  {
    forall i :: 0 <= i < |s| ==> s[i] != '&' && s[i] != '='
  }

  lemma NoSeparatorsConcat(a: string, b: string)
    requires NoSeparators(a) && NoSeparators(b)
    ensures NoSeparators(a + b)
  {
    assert forall i :: 0 <= i < |a + b| ==> (a + b)[i] == if i < |a| then a[i] else b[i - |a|];
  }

  lemma EscapeCharNoSeparators(c: char)
    ensures NoSeparators(EscapeChar(c))
  {
  }

  /**
   * url.QueryEscape: unreserved characters stay, a space becomes '+', and
   * every other character becomes the %XY escapes of its UTF-8 bytes. The
   * result never holds the separators '&' and '=' of a query.
   */
  function QueryEscape(s: string): (r: string)
    ensures NoSeparators(r)
    decreases |s|
  {
    if s == [] then ""
    else
      EscapeCharNoSeparators(s[0]);
      NoSeparatorsConcat(EscapeChar(s[0]), QueryEscape(s[1..]));
      EscapeChar(s[0]) + QueryEscape(s[1..])
  }

  /** A string of unreserved characters escapes to itself. */
  lemma {:induction false} EscapeUnreserved(s: string)
    requires forall i :: 0 <= i < |s| ==> Unreserved(s[i])
    ensures QueryEscape(s) == s
    decreases |s|
  {
    if s != [] {
      assert forall i :: 0 <= i < |s[1..]| ==> s[1..][i] == s[i + 1];
      EscapeUnreserved(s[1..]);
      assert [s[0]] + s[1..] == s;
    }
  }

  // ---------------------------------------------------------------------
  // url.Values and Encode
  // ---------------------------------------------------------------------

  /** One "key=value" pair as Encode writes it. */
  function Pair(key: string, value: string): (p: string)
    ensures '=' in p && '&' !in p
  {
    PairShape(QueryEscape(key), QueryEscape(value));
    QueryEscape(key) + "=" + QueryEscape(value)
  }

  lemma PairShape(k: string, v: string)
    requires NoSeparators(k) && NoSeparators(v)
    ensures '=' in k + "=" + v && '&' !in k + "=" + v
  {
    var p := k + "=" + v;
    assert p[|k|] == '=';
    forall i | 0 <= i < |p| ensures p[i] != '&' {
      if i < |k| {
        assert p[i] == k[i];
      } else if i > |k| {
        assert p[i] == v[i - |k| - 1];
      }
    }
  }

  /** The pairs Encode writes for one key, one per value, in order. */
  function KeyPairs(key: string, values: seq<string>): (ps: seq<string>)
    ensures |ps| == |values|
    decreases |values|
  {
    if values == [] then []
    else KeyPairs(key, values[..|values| - 1]) + [Pair(key, values[|values| - 1])]
  }

  /** The pairs Encode writes for the keys ks of m, in the order of ks. */
  function Pairs(m: map<string, seq<string>>, ks: seq<string>): seq<string>
    requires forall i :: 0 <= i < |ks| ==> ks[i] in m
    decreases |ks|
  {
    if ks == [] then []
    else Pairs(m, ks[..|ks| - 1]) + KeyPairs(ks[|ks| - 1], m[ks[|ks| - 1]])
  }

  /** url.Values.Encode: all pairs, keys in increasing order, joined by '&'. */
  ghost function Encoded(m: map<string, seq<string>>): string
  {
    var ks := SortedKeys(m.Keys);
    Join(Pairs(m, ks), '&')
  }

  predicate NonEmptyParts(ps: seq<string>)
  {
    forall i :: 0 <= i < |ps| ==> ps[i] != ""
  }

  /** Appending one more non-empty pair, as Encode's "'&' unless the buffer is empty" does. */
  lemma {:induction false} JoinSnoc(ps: seq<string>, p: string)
    requires NonEmptyParts(ps)
    ensures Join(ps + [p], '&') == if ps == [] then p else Join(ps, '&') + "&" + p
    ensures ps != [] <==> Join(ps, '&') != ""
    decreases |ps|
  {
    if |ps| == 1 {
      assert ps + [p] == [ps[0], p];
      assert Join([p], '&') == p;
    } else if |ps| > 1 {
      JoinSnoc(ps[1..], p);
      assert (ps + [p])[1..] == ps[1..] + [p];
    }
  }

  lemma KeyPairsStep(key: string, values: seq<string>, j: nat)
    requires j < |values|
    ensures KeyPairs(key, values[..j + 1]) == KeyPairs(key, values[..j]) + [Pair(key, values[j])]
  {
    assert values[..j + 1][..j] == values[..j];
  }

  lemma PairsStep(m: map<string, seq<string>>, ks: seq<string>, i: nat)
    requires forall j :: 0 <= j < |ks| ==> ks[j] in m
    requires i < |ks|
    ensures Pairs(m, ks[..i + 1]) == Pairs(m, ks[..i]) + KeyPairs(ks[i], m[ks[i]])
  {
    assert ks[..i + 1][..i] == ks[..i];
  }

  /** Every pair holds an '=' and no '&'. */
  lemma {:induction false} PairsShape(m: map<string, seq<string>>, ks: seq<string>)
    requires forall i :: 0 <= i < |ks| ==> ks[i] in m
    ensures forall i :: 0 <= i < |Pairs(m, ks)| ==> '=' in Pairs(m, ks)[i] && '&' !in Pairs(m, ks)[i]
    decreases |ks|
  {
    if ks != [] {
      PairsShape(m, ks[..|ks| - 1]);
      KeyPairsShape(ks[|ks| - 1], m[ks[|ks| - 1]]);
    }
  }

  lemma {:induction false} KeyPairsShape(key: string, values: seq<string>)
    ensures forall i :: 0 <= i < |KeyPairs(key, values)| ==> '=' in KeyPairs(key, values)[i] && '&' !in KeyPairs(key, values)[i]
    decreases |values|
  {
    if values != [] { KeyPairsShape(key, values[..|values| - 1]); }
  }

  /** No pairs are written exactly when every listed key has an empty value list. */
  lemma {:induction false} PairsEmpty(m: map<string, seq<string>>, ks: seq<string>)
    requires forall i :: 0 <= i < |ks| ==> ks[i] in m
    ensures Pairs(m, ks) == [] <==> forall i :: 0 <= i < |ks| ==> m[ks[i]] == []
    decreases |ks|
  {
    if ks != [] {
      var init := ks[..|ks| - 1];
      PairsEmpty(m, init);
      assert forall i :: 0 <= i < |init| ==> init[i] == ks[i];
    }
  }

  /** The encoding is empty exactly when no key has a value. */
  lemma EncodedEmpty(m: map<string, seq<string>>)
    ensures Encoded(m) == "" <==> forall k :: k in m ==> m[k] == []
  {
    var ks := SortedKeys(m.Keys);
    var ps := Pairs(m, ks);
    PairsShape(m, ks);
    JoinSnoc(ps, "");
    PairsEmpty(m, ks);
    if ps == [] {
      forall k | k in m ensures m[k] == [] {
        var j :| 0 <= j < |ks| && ks[j] == k;
      }
    }
  }

  /** A url.Values in Go: a map updated in place. */
  class Values {
    var entries: map<string, seq<string>>

    /** url.Values{}: no keys. */
    constructor ()
      ensures entries == map[]
    {
      entries := map[];
    }

    /** Set replaces whatever the key held with the single given value. */
    method Set(key: string, value: string)
      modifies this
      ensures entries == old(entries)[key := [value]]
    {
      entries := entries[key := [value]];
    }

    /** Encode: the pairs of all keys in increasing key order, joined by '&'. */
    method Encode() returns (s: string)
      ensures s == Encoded(entries)
    {
      var m := entries;
      var keys := SortStrings(m.Keys);
      assert forall j :: 0 <= j < |keys| ==> keys[j] in m;
      var buf := "";
      var i := 0;
      while i < |keys|
        invariant 0 <= i <= |keys|
        invariant forall j :: 0 <= j < |keys| ==> keys[j] in m
        invariant buf == Join(Pairs(m, keys[..i]), '&')
      {
        PairsShape(m, keys[..i]);
        buf := WritePairs(buf, Pairs(m, keys[..i]), keys[i], m[keys[i]]);
        PairsStep(m, keys, i);
        i := i + 1;
      }
      assert keys[..i] == keys;
      s := buf;
    }
  }

  /**
   * The inner loop of Encode: one "key=value" pair per value, each preceded
   * by '&' unless the buffer is still empty.
   */
  method WritePairs(buf: string, ghost done: seq<string>, key: string, values: seq<string>) returns (r: string)
    requires NonEmptyParts(done) && buf == Join(done, '&')
    ensures r == Join(done + KeyPairs(key, values), '&')
  {
    r := buf;
    ghost var written := done;
    var j := 0;
    while j < |values|
      invariant 0 <= j <= |values|
      invariant written == done + KeyPairs(key, values[..j])
      invariant NonEmptyParts(written)
      invariant r == Join(written, '&')
    {
      var pair := Pair(key, values[j]);
      r := AppendPair(r, written, pair);
      KeyPairsStep(key, values, j);
      written := written + [pair];
      j := j + 1;
    }
    assert values[..j] == values;
  }

  /** One step of the inner loop: '&' unless the buffer is empty, then the pair. */
  method AppendPair(buf: string, ghost written: seq<string>, pair: string) returns (r: string)
    requires NonEmptyParts(written) && buf == Join(written, '&') && pair != ""
    ensures NonEmptyParts(written + [pair]) && r == Join(written + [pair], '&')
  {
    JoinSnoc(written, pair);
    if |buf| > 0 {
      r := buf + "&" + pair;
    } else {
      r := pair;
    }
  }

  /** sort.Strings over the keys of a map, gathered in the map's unspecified order. */
  method SortStrings(keys: set<string>) returns (ks: seq<string>)
    ensures ks == SortedKeys(keys)
  {
    ks := [];
    var rest := keys;
    while rest != {}
      invariant rest <= keys
      invariant StrictlySorted(ks)
      invariant forall k :: k in ks <==> k in keys - rest
      decreases rest
    {
      var k :| k in rest;
      ks := Insert(ks, k);
      rest := rest - {k};
    }
    SortedKeysUnique(ks, keys);
  }

  /** Insert a new string into a strictly sorted sequence at its place. */
  method Insert(ks: seq<string>, k: string) returns (r: seq<string>)
    requires StrictlySorted(ks) && k !in ks
    ensures StrictlySorted(r)
    ensures forall y :: y in r <==> y in ks || y == k
  {
    var i := 0;
    while i < |ks| && Less(ks[i], k)
      invariant 0 <= i <= |ks|
      invariant forall j :: 0 <= j < i ==> Less(ks[j], k)
    {
      i := i + 1;
    }
    r := ks[..i] + [k] + ks[i..];
    forall a, b | 0 <= a < b < |r| ensures Less(r[a], r[b]) {
      if b == i {
        assert r[a] == ks[a];
      } else if a == i {
        assert r[b] == ks[b - 1];
        LessTotal(ks[i], k);
        if i < b - 1 { LessTransitive(k, ks[i], ks[b - 1]); }
      } else {
        assert r[a] == (if a < i then ks[a] else ks[a - 1]);
        assert r[b] == (if b < i then ks[b] else ks[b - 1]);
        if a < i && b > i {
          assert Less(ks[a], ks[b - 1]) || a == b - 1;
        }
      }
    }
    assert forall y :: y in r <==> y in ks[..i] || y == k || y in ks[i..];
    assert ks == ks[..i] + ks[i..];
  }

  // ---------------------------------------------------------------------
  // Values filled by one Set per parameter
  // ---------------------------------------------------------------------

  /** The map that calling Set(key, value) for each parameter in turn leaves. */
  function ValuesOf(params: seq<(string, string)>): map<string, seq<string>>
    decreases |params|
  {
    if params == [] then map[]
    else ValuesOf(params[..|params| - 1])[params[|params| - 1].0 := [params[|params| - 1].1]]
  }

  function ParamKeys(params: seq<(string, string)>): (ks: seq<string>)
    ensures |ks| == |params| && forall i :: 0 <= i < |params| ==> ks[i] == params[i].0
  {
    seq(|params|, i requires 0 <= i < |params| => params[i].0)
  }

  /** The "key=value" pairs of the parameters, in their order. */
  function ParamPairs(params: seq<(string, string)>): (ps: seq<string>)
    ensures |ps| == |params|
    decreases |params|
  {
    if params == [] then []
    else ParamPairs(params[..|params| - 1]) + [Pair(params[|params| - 1].0, params[|params| - 1].1)]
  }

  lemma {:induction false} ValuesOfKeys(params: seq<(string, string)>)
    ensures forall k :: k in ValuesOf(params) <==> k in ParamKeys(params)
    decreases |params|
  {
    if params != [] {
      var init := params[..|params| - 1];
      ValuesOfKeys(init);
      assert ParamKeys(params) == ParamKeys(init) + [params[|params| - 1].0];
    }
  }

  lemma {:induction false} ValuesOfAt(params: seq<(string, string)>, i: nat)
    requires StrictlySorted(ParamKeys(params))
    requires i < |params|
    ensures params[i].0 in ValuesOf(params) && ValuesOf(params)[params[i].0] == [params[i].1]
    decreases |params|
  {
    var n := |params|;
    if i < n - 1 {
      var init := params[..n - 1];
      assert ParamKeys(init) == ParamKeys(params)[..n - 1];
      assert Less(params[i].0, params[n - 1].0);
      LessIrreflexive(params[i].0);
      ValuesOfAt(init, i);
    }
  }

  lemma {:induction false} PairsOfParams(params: seq<(string, string)>, m: map<string, seq<string>>)
    requires forall i :: 0 <= i < |params| ==> params[i].0 in m && m[params[i].0] == [params[i].1]
    ensures Pairs(m, ParamKeys(params)) == ParamPairs(params)
    decreases |params|
  {
    if params != [] {
      var n := |params|;
      var init := params[..n - 1];
      PairsOfParams(init, m);
      assert ParamKeys(params)[..n - 1] == ParamKeys(init);
      assert KeyPairs(params[n - 1].0, [params[n - 1].1]) == [Pair(params[n - 1].0, params[n - 1].1)];
    }
  }

  /**
   * Setting parameters whose keys are strictly increasing and encoding the
   * result writes exactly their pairs, in that order.
   */
  lemma EncodedParams(params: seq<(string, string)>)
    requires StrictlySorted(ParamKeys(params))
    ensures Encoded(ValuesOf(params)) == Join(ParamPairs(params), '&')
  {
    var m := ValuesOf(params);
    ValuesOfKeys(params);
    SortedKeysUnique(ParamKeys(params), m.Keys);
    forall i | 0 <= i < |params| ensures params[i].0 in m && m[params[i].0] == [params[i].1] {
      ValuesOfAt(params, i);
    }
    PairsOfParams(params, m);
  }

  /** The encoded parameters are empty exactly when there are none. */
  lemma ParamQueryEmpty(params: seq<(string, string)>)
    ensures Join(ParamPairs(params), '&') == "" <==> params == []
  {
    ParamPairsShape(params);
    JoinSnoc(ParamPairs(params), "");
  }

  lemma ParamPairsShape(params: seq<(string, string)>)
    ensures forall i :: 0 <= i < |params| ==> ParamPairs(params)[i] == Pair(params[i].0, params[i].1)
  {
    forall i | 0 <= i < |params| ensures ParamPairs(params)[i] == Pair(params[i].0, params[i].1) {
      ParamPairAt(params, i);
    }
  }

  lemma {:induction false} ParamPairAt(params: seq<(string, string)>, i: nat)
    requires i < |params|
    ensures ParamPairs(params)[i] == Pair(params[i].0, params[i].1)
    decreases |params|
  {
    var n := |params|;
    if i < n - 1 {
      var init := params[..n - 1];
      ParamPairAt(init, i);
      assert init[i] == params[i];
    }
  }

  /**
   * The query string separates back into its pairs at '&', and each pair
   * into its escaped key and value at '='.
   */
  lemma QuerySeparates(params: seq<(string, string)>)
    requires params != []
    ensures Split(Join(ParamPairs(params), '&'), '&') == ParamPairs(params)
    ensures forall i :: 0 <= i < |params| ==>
      Split(ParamPairs(params)[i], '=') == [QueryEscape(params[i].0), QueryEscape(params[i].1)]
  {
    ParamPairsShape(params);
    forall i | 0 <= i < |params| ensures '&' !in ParamPairs(params)[i] {
      assert ParamPairs(params)[i] == Pair(params[i].0, params[i].1);
    }
    SplitJoin(ParamPairs(params), '&');
    forall i | 0 <= i < |params|
      ensures Split(ParamPairs(params)[i], '=') == [QueryEscape(params[i].0), QueryEscape(params[i].1)]
    {
      PairSplits(params[i].0, params[i].1);
    }
  }

  /** A pair separates at its one '=' into the escaped key and value. */
  lemma PairSplits(key: string, value: string)
    ensures Split(Pair(key, value), '=') == [QueryEscape(key), QueryEscape(value)]
  {
    var k, v := QueryEscape(key), QueryEscape(value);
    assert '=' !in k && '=' !in v by {
      assert NoSeparators(k) && NoSeparators(v);
    }
    var pieces := [k, v];
    assert Join(pieces, '=') == k + ['='] + v;
    assert Join(pieces, '=') == Pair(key, value);
    assert forall i :: 0 <= i < |pieces| ==> '=' !in pieces[i];
    SplitJoin(pieces, '=');
  }
}
