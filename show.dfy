/**
 * show.go: the request URLs of GetShowOpt and GetShowEpisodesOpt and how
 * their results come back. The HTTP GET with JSON decoding of the body
 * (Client.get) is a parameter: a function from the URL to the decoded
 * result or the error.
 */
module Show {
  import opened Wrappers
  import opened Strings
  import opened Strconv
  import opened Url

  /** The decoded body of a show request; its fields carry no behaviour here. */
  type FullShow

  /** The decoded body of a show's episodes request. */
  type SimpleEpisodePage

  /** Any error Client.get reports: transport, HTTP status, or decoding. */
  type FetchError

  /** Client.get for one result type. */
  type Fetch<R> = string -> Result<R, FetchError>

  /** The fields of Options the show requests read; None is a nil pointer. */
  datatype Options = Options(country: Option<string>, limit: Option<int>, offset: Option<int>)

  /** GetShowOpt's query parameters, in increasing key order. */
  function ShowParams(o: Options): seq<(string, string)>
  {
    if o.country.Some? then [("market", o.country.value)] else []
  }

  /** GetShowEpisodesOpt's query parameters, in increasing key order. */
  function EpisodesParams(o: Options): seq<(string, string)>
  {
    (if o.limit.Some? then [("limit", Itoa(o.limit.value))] else []) +
    (if o.country.Some? then [("market", o.country.value)] else []) +
    (if o.offset.Some? then [("offset", Itoa(o.offset.value))] else [])
  }

  /** The path, followed by '?' and the encoded parameters when there are any. */
  function WithQuery(path: string, params: seq<(string, string)>): string
  {
    if params == [] then path else path + "?" + Join(ParamPairs(params), '&')
  }

  /** The URL GetShowOpt requests. */
  function ShowURL(baseURL: string, id: string, opt: Option<Options>): string
  {
    var path := baseURL + "shows/" + id;
    if opt.None? then path else WithQuery(path, ShowParams(opt.value))
  }

  /** The URL GetShowEpisodesOpt requests. */
  function EpisodesURL(baseURL: string, id: string, opt: Option<Options>): string
  {
    var path := baseURL + "shows/" + id + "/episodes";
    if opt.None? then path else WithQuery(path, EpisodesParams(opt.value))
  }

  lemma ShowParamsSorted(o: Options)
    ensures StrictlySorted(ParamKeys(ShowParams(o)))
  {
  }

  lemma EpisodesParamsSorted(o: Options)
    ensures StrictlySorted(ParamKeys(EpisodesParams(o)))
  {
    assert Less("limit", "market") && Less("market", "offset") && Less("limit", "offset");
  }

  class Client {
    var baseURL: string

    constructor (baseURL: string)
      ensures this.baseURL == baseURL
    {
      this.baseURL := baseURL;
    }

    /**
     * GetShowOpt: "shows/" + id under the base URL, with market=<country>
     * when the options give a country. The fetch result comes back as it is;
     * on an error the show is nil.
     */
    method GetShowOpt(opt: Option<Options>, id: string, get: Fetch<FullShow>)
      returns (result: Option<FullShow>, err: Option<FetchError>)
      ensures get(ShowURL(baseURL, id, opt)).Ok? ==>
        result == Some(get(ShowURL(baseURL, id, opt)).value) && err == None
      ensures get(ShowURL(baseURL, id, opt)).Err? ==>
        result == None && err == Some(get(ShowURL(baseURL, id, opt)).error)
    {
      var spotifyURL := baseURL + "shows/" + id;
      if opt.Some? {
        var v := new Values();
        if opt.value.country.Some? {
          v.Set("market", opt.value.country.value);
        }
        assert v.entries == ValuesOf(ShowParams(opt.value));
        var params := v.Encode();
        ShowQuery(baseURL, id, opt.value, params);
        if params != "" {
          spotifyURL := spotifyURL + "?" + params;
        }
      }
      assert spotifyURL == ShowURL(baseURL, id, opt);
      match get(spotifyURL)
      case Err(e) =>
        return None, Some(e);
      case Ok(show) =>
        return Some(show), None;
    }

    /** GetShow is GetShowOpt without options. */
    method GetShow(id: string, get: Fetch<FullShow>)
      returns (result: Option<FullShow>, err: Option<FetchError>)
      ensures get(ShowURL(baseURL, id, None)).Ok? ==>
        result == Some(get(ShowURL(baseURL, id, None)).value) && err == None
      ensures get(ShowURL(baseURL, id, None)).Err? ==>
        result == None && err == Some(get(ShowURL(baseURL, id, None)).error)
    {
      result, err := GetShowOpt(None, id, get);
    }

    /**
     * GetShowEpisodesOpt: "shows/" + id + "/episodes" under the base URL,
     * with market, limit and offset each present when its option is set.
     */
    method GetShowEpisodesOpt(opt: Option<Options>, id: string, get: Fetch<SimpleEpisodePage>)
      returns (result: Option<SimpleEpisodePage>, err: Option<FetchError>)
      ensures get(EpisodesURL(baseURL, id, opt)).Ok? ==>
        result == Some(get(EpisodesURL(baseURL, id, opt)).value) && err == None
      ensures get(EpisodesURL(baseURL, id, opt)).Err? ==>
        result == None && err == Some(get(EpisodesURL(baseURL, id, opt)).error)
    {
      var spotifyURL := baseURL + "shows/" + id + "/episodes";
      if opt.Some? {
        var o := opt.value;
        var v := new Values();
        if o.country.Some? {
          v.Set("market", o.country.value);
        }
        if o.limit.Some? {
          v.Set("limit", Itoa(o.limit.value));
        }
        if o.offset.Some? {
          v.Set("offset", Itoa(o.offset.value));
        }
        SetOrder(o, v.entries);
        var params := v.Encode();
        EpisodesQuery(baseURL, id, o, params);
        if params != "" {
          spotifyURL := spotifyURL + "?" + params;
        }
      }
      assert spotifyURL == EpisodesURL(baseURL, id, opt);
      match get(spotifyURL)
      case Err(e) =>
        return None, Some(e);
      case Ok(page) =>
        return Some(page), None;
    }

    /** GetShowEpisodes is GetShowEpisodesOpt without options. */
    method GetShowEpisodes(id: string, get: Fetch<SimpleEpisodePage>)
      returns (result: Option<SimpleEpisodePage>, err: Option<FetchError>)
      ensures get(EpisodesURL(baseURL, id, None)).Ok? ==>
        result == Some(get(EpisodesURL(baseURL, id, None)).value) && err == None
      ensures get(EpisodesURL(baseURL, id, None)).Err? ==>
        result == None && err == Some(get(EpisodesURL(baseURL, id, None)).error)
    {
      result, err := GetShowEpisodesOpt(None, id, get);
    }
  }

  /** The encoding of GetShowOpt's parameters gives ShowURL: '?' and the query only when it is not empty. */
  lemma ShowQuery(baseURL: string, id: string, o: Options, params: string)
    requires params == Encoded(ValuesOf(ShowParams(o)))
    ensures (if params != "" then baseURL + "shows/" + id + "?" + params else baseURL + "shows/" + id)
         == ShowURL(baseURL, id, Some(o))
  {
    ShowParamsSorted(o);
    EncodedParams(ShowParams(o));
    ParamQueryEmpty(ShowParams(o));
  }

  /** The encoding of GetShowEpisodesOpt's parameters gives EpisodesURL. */
  lemma EpisodesQuery(baseURL: string, id: string, o: Options, params: string)
    requires params == Encoded(ValuesOf(EpisodesParams(o)))
    ensures (if params != "" then baseURL + "shows/" + id + "/episodes" + "?" + params
             else baseURL + "shows/" + id + "/episodes")
         == EpisodesURL(baseURL, id, Some(o))
  {
    EpisodesParamsSorted(o);
    EncodedParams(EpisodesParams(o));
    ParamQueryEmpty(EpisodesParams(o));
  }

  /** Setting market, then limit, then offset fills the same map as setting them in key order. */
  lemma SetOrder(o: Options, entries: map<string, seq<string>>)
    requires entries ==
      var m0: map<string, seq<string>> := map[];
      var m1 := if o.country.Some? then m0["market" := [o.country.value]] else m0;
      var m2 := if o.limit.Some? then m1["limit" := [Itoa(o.limit.value)]] else m1;
      if o.offset.Some? then m2["offset" := [Itoa(o.offset.value)]] else m2
    ensures entries == ValuesOf(EpisodesParams(o))
  {
    var l := if o.limit.Some? then [("limit", Itoa(o.limit.value))] else [];
    var c := if o.country.Some? then [("market", o.country.value)] else [];
    var f := if o.offset.Some? then [("offset", Itoa(o.offset.value))] else [];
    assert EpisodesParams(o) == l + c + f;
    ValuesOfAppend([], l);
    ValuesOfAppend(l, c);
    ValuesOfAppend(l + c, f);
    var m0: map<string, seq<string>> := map[];
    var m1 := if o.country.Some? then m0["market" := [o.country.value]] else m0;
    var m2 := if o.limit.Some? then m1["limit" := [Itoa(o.limit.value)]] else m1;
    assert ValuesOf(l + c) == m2 by {
      assert [] + l == l;
      if o.limit.Some? && o.country.Some? {
        assert ValuesOf(l + c) == map["limit" := [Itoa(o.limit.value)], "market" := [o.country.value]];
      }
    }
  }

  lemma ValuesOfAppend(ps: seq<(string, string)>, qs: seq<(string, string)>)
    requires |qs| <= 1
    ensures qs == [] ==> ValuesOf(ps + qs) == ValuesOf(ps)
    ensures |qs| == 1 ==> ValuesOf(ps + qs) == ValuesOf(ps)[qs[0].0 := [qs[0].1]]
  {
    if qs == [] {
      assert ps + qs == ps;
    } else {
      assert (ps + qs)[..|ps|] == ps;
    }
  }

  /** Without options the request goes to the bare show path: no '?' at all is added. */
  lemma NoOptionsNoQuery(baseURL: string, id: string)
    ensures ShowURL(baseURL, id, None) == baseURL + "shows/" + id
    ensures EpisodesURL(baseURL, id, None) == baseURL + "shows/" + id + "/episodes"
  {
  }

  /**
   * A query is appended exactly when some option is set, and then it is '?'
   * followed by a non-empty encoding.
   */
  lemma QueryOnlyWhenSet(baseURL: string, id: string, o: Options)
    ensures var path := baseURL + "shows/" + id + "/episodes";
      var q := Join(ParamPairs(EpisodesParams(o)), '&');
      (o.country.Some? || o.limit.Some? || o.offset.Some? ==>
         q != "" && EpisodesURL(baseURL, id, Some(o)) == path + "?" + q) &&
      (o.country.None? && o.limit.None? && o.offset.None? ==>
         EpisodesURL(baseURL, id, Some(o)) == path)
    ensures var path := baseURL + "shows/" + id;
      var q := Join(ParamPairs(ShowParams(o)), '&');
      (o.country.Some? ==> q != "" && ShowURL(baseURL, id, Some(o)) == path + "?" + q) &&
      (o.country.None? ==> ShowURL(baseURL, id, Some(o)) == path)
  {
    ParamQueryEmpty(EpisodesParams(o));
    ParamQueryEmpty(ShowParams(o));
  }

  /** market appears in GetShowOpt's query exactly when a country is given, with that country. */
  lemma ShowMarketIff(o: Options)
    ensures (exists i :: 0 <= i < |ShowParams(o)| && ShowParams(o)[i].0 == "market") <==> o.country.Some?
    ensures forall i :: 0 <= i < |ShowParams(o)| ==> ShowParams(o)[i] == ("market", o.country.value)
  {
    if o.country.Some? {
      assert ShowParams(o)[0].0 == "market";
    }
  }

  predicate HasKey(params: seq<(string, string)>, key: string)
  {
    exists i :: 0 <= i < |params| && params[i].0 == key
  }

  /**
   * Each of market, limit and offset is in GetShowEpisodesOpt's query exactly
   * when its option is set; limit and offset are written in decimal.
   */
  lemma EpisodesParamsIff(o: Options)
    ensures HasKey(EpisodesParams(o), "market") <==> o.country.Some?
    ensures HasKey(EpisodesParams(o), "limit") <==> o.limit.Some?
    ensures HasKey(EpisodesParams(o), "offset") <==> o.offset.Some?
    ensures forall i :: 0 <= i < |EpisodesParams(o)| ==>
      var (key, value) := EpisodesParams(o)[i];
      (key == "market" && o.country == Some(value)) ||
      (key == "limit" && o.limit.Some? && value == Itoa(o.limit.value)) ||
      (key == "offset" && o.offset.Some? && value == Itoa(o.offset.value))
  {
    var ps := EpisodesParams(o);
    var l := if o.limit.Some? then [("limit", Itoa(o.limit.value))] else [];
    var c := if o.country.Some? then [("market", o.country.value)] else [];
    var f := if o.offset.Some? then [("offset", Itoa(o.offset.value))] else [];
    assert ps == l + c + f;
    if o.limit.Some? { assert ps[0].0 == "limit"; }
    if o.country.Some? { assert ps[|l|].0 == "market"; }
    if o.offset.Some? { assert ps[|l| + |c|].0 == "offset"; }
  }

  /** A decimal numeral needs no escaping: limit=<n> and offset=<n> carry Itoa(n) as it is. */
  lemma DecimalUnescaped(n: int)
    ensures QueryEscape(Itoa(n)) == Itoa(n)
  {
    ItoaCharacters(n);
    assert forall i :: 0 <= i < |Itoa(n)| ==> Unreserved(Itoa(n)[i]);
    EscapeUnreserved(Itoa(n));
  }

  /** One of the pieces is key=value. */
  predicate PiecesHave(pieces: seq<string>, key: string, value: string)
  {
    exists i :: 0 <= i < |pieces| && Split(pieces[i], '=') == [key, value]
  }

  /** One of the query's '&'-separated pieces is key=value, with value as it is spelled in the URL. */
  predicate QueryHas(query: string, key: string, value: string)
  {
    PiecesHave(Split(query, '&'), key, value)
  }

  /** The pieces of an encoded parameter list are exactly its escaped key=value pairs. */
  lemma QueryHasParams(params: seq<(string, string)>, key: string, value: string)
    ensures QueryHas(Join(ParamPairs(params), '&'), key, value) <==>
      exists i :: 0 <= i < |params| && QueryEscape(params[i].0) == key && QueryEscape(params[i].1) == value
  {
    if params == [] {
      EmptyQueryHasNothing(key, value);
    } else {
      QuerySeparates(params);
      PairsHave(ParamPairs(params), params, key, value);
    }
  }

  lemma EmptyQueryHasNothing(key: string, value: string)
    ensures !QueryHas("", key, value)
  {
    assert Split("", '&') == [""];
    assert Split("", '=') == [""];
  }

  lemma PairsHave(pieces: seq<string>, params: seq<(string, string)>, key: string, value: string)
    requires |pieces| == |params|
    requires forall i :: 0 <= i < |params| ==>
      Split(pieces[i], '=') == [QueryEscape(params[i].0), QueryEscape(params[i].1)]
    ensures PiecesHave(pieces, key, value) <==>
      exists i :: 0 <= i < |params| && QueryEscape(params[i].0) == key && QueryEscape(params[i].1) == value
  {
    if PiecesHave(pieces, key, value) {
      var i :| 0 <= i < |pieces| && Split(pieces[i], '=') == [key, value];
      SameTwo(Split(pieces[i], '='), key, value, QueryEscape(params[i].0), QueryEscape(params[i].1));
    }
    if exists i :: 0 <= i < |params| && QueryEscape(params[i].0) == key && QueryEscape(params[i].1) == value {
      var i :| 0 <= i < |params| && QueryEscape(params[i].0) == key && QueryEscape(params[i].1) == value;
      assert Split(pieces[i], '=') == [key, value];
    }
  }

  lemma SameTwo(s: seq<string>, a: string, b: string, c: string, d: string)
    requires s == [a, b] && s == [c, d]
    ensures a == c && b == d
  {
    assert s[0] == a && s[1] == b;
  }

  /** The three parameter names are unreserved, so Encode writes them as they are. */
  lemma KeysUnescaped()
    ensures QueryEscape("market") == "market"
    ensures QueryEscape("limit") == "limit"
    ensures QueryEscape("offset") == "offset"
  {
    MarketUnescaped();
    LimitUnescaped();
    OffsetUnescaped();
  }

  // One literal per lemma: the solver evaluates QueryEscape on each literal it meets.
  lemma MarketUnescaped() ensures QueryEscape("market") == "market" { EscapeUnreserved("market"); }
  lemma LimitUnescaped() ensures QueryEscape("limit") == "limit" { EscapeUnreserved("limit"); }
  lemma OffsetUnescaped() ensures QueryEscape("offset") == "offset" { EscapeUnreserved("offset"); }

  /**
   * GetShowOpt's URL: the path, then '?' and the query when it is not empty;
   * the query holds market=v exactly when a country is given and v is its escape.
   */
  lemma ShowQueryIff(baseURL: string, id: string, o: Options, value: string)
    ensures var query := Join(ParamPairs(ShowParams(o)), '&');
      ShowURL(baseURL, id, Some(o)) ==
        if query == "" then baseURL + "shows/" + id else baseURL + "shows/" + id + "?" + query
    ensures var query := Join(ParamPairs(ShowParams(o)), '&');
      QueryHas(query, "market", value) <==> o.country.Some? && value == QueryEscape(o.country.value)
  {
    ParamQueryEmpty(ShowParams(o));
    QueryHasParams(ShowParams(o), "market", value);
    KeysUnescaped();
    ShowMarketIff(o);
  }

  /**
   * GetShowEpisodesOpt's URL: the path, then '?' and the query when it is not
   * empty; the query holds market, limit and offset exactly when their option
   * is set, the country escaped and the numbers in decimal.
   */
  lemma EpisodesQueryIff(baseURL: string, id: string, o: Options, value: string)
    ensures var query := Join(ParamPairs(EpisodesParams(o)), '&');
      EpisodesURL(baseURL, id, Some(o)) ==
        if query == "" then baseURL + "shows/" + id + "/episodes"
        else baseURL + "shows/" + id + "/episodes" + "?" + query
    ensures var query := Join(ParamPairs(EpisodesParams(o)), '&');
      QueryHas(query, "market", value) <==> o.country.Some? && value == QueryEscape(o.country.value)
    ensures var query := Join(ParamPairs(EpisodesParams(o)), '&');
      QueryHas(query, "limit", value) <==> o.limit.Some? && value == Itoa(o.limit.value)
    ensures var query := Join(ParamPairs(EpisodesParams(o)), '&');
      QueryHas(query, "offset", value) <==> o.offset.Some? && value == Itoa(o.offset.value)
  {
    ParamQueryEmpty(EpisodesParams(o));
    EpisodesMarket(o, value);
    EpisodesLimit(o, value);
    EpisodesOffset(o, value);
  }

  lemma EpisodesMarket(o: Options, value: string)
    ensures QueryHas(Join(ParamPairs(EpisodesParams(o)), '&'), "market", value) <==>
      o.country.Some? && value == QueryEscape(o.country.value)
  {
    KeysUnescaped();
    EpisodesParamsIff(o);
    QueryHasParams(EpisodesParams(o), "market", value);
  }

  lemma EpisodesLimit(o: Options, value: string)
    ensures QueryHas(Join(ParamPairs(EpisodesParams(o)), '&'), "limit", value) <==>
      o.limit.Some? && value == Itoa(o.limit.value)
  {
    KeysUnescaped();
    EpisodesParamsIff(o);
    QueryHasParams(EpisodesParams(o), "limit", value);
    if o.limit.Some? { DecimalUnescaped(o.limit.value); }
  }

  lemma EpisodesOffset(o: Options, value: string)
    ensures QueryHas(Join(ParamPairs(EpisodesParams(o)), '&'), "offset", value) <==>
      o.offset.Some? && value == Itoa(o.offset.value)
  {
    KeysUnescaped();
    EpisodesParamsIff(o);
    QueryHasParams(EpisodesParams(o), "offset", value);
    if o.offset.Some? { DecimalUnescaped(o.offset.value); }
  }

  /** An episodes request with all three options. */
  lemma EpisodesURLExample(baseURL: string, id: string)
    ensures EpisodesURL(baseURL, id, Some(Options(Some("ES"), Some(20), Some(5))))
         == baseURL + "shows/" + id + "/episodes" + "?" + "limit=20&market=ES&offset=5"
  {
    var o := Options(Some("ES"), Some(20), Some(5));
    var q := "limit=20&market=ES&offset=5";
    ExampleParams();
    ExamplePairs();
    ExampleJoin();
    var path := baseURL + "shows/" + id + "/episodes";
    assert WithQuery(path, EpisodesParams(o)) == path + "?" + q;
  }

  lemma ExampleJoin()
    ensures Join(["limit=20", "market=ES", "offset=5"], '&') == "limit=20&market=ES&offset=5"
  {
    assert Join(["offset=5"], '&') == "offset=5";
    assert ["limit=20", "market=ES", "offset=5"][1..] == ["market=ES", "offset=5"];
    assert ["market=ES", "offset=5"][1..] == ["offset=5"];
  }

  lemma ExampleParams()
    ensures EpisodesParams(Options(Some("ES"), Some(20), Some(5))) == [("limit", "20"), ("market", "ES"), ("offset", "5")]
  {
    assert Decimal(2) == "2";
    assert Decimal(20) == Decimal(2) + "0";
    assert Itoa(20) == "20" && Itoa(5) == "5";
  }

  lemma ExamplePairs()
    ensures ParamPairs([("limit", "20"), ("market", "ES"), ("offset", "5")]) == ["limit=20", "market=ES", "offset=5"]
  {
    ThreePairs(("limit", "20"), ("market", "ES"), ("offset", "5"));
    ExamplePairStrings();
  }

  lemma ThreePairs(a: (string, string), b: (string, string), c: (string, string))
    ensures ParamPairs([a, b, c]) == [Pair(a.0, a.1), Pair(b.0, b.1), Pair(c.0, c.1)]
  {
    var ps := [a, b, c];
    assert ps[..1][..0] == [] && ps[..2][..1] == ps[..1] && ps[..2] == ps[..|ps| - 1];
    assert ParamPairs(ps[..1]) == [Pair(a.0, a.1)];
  }

  lemma ExamplePairStrings()
    ensures Pair("limit", "20") == "limit=20"
    ensures Pair("market", "ES") == "market=ES"
    ensures Pair("offset", "5") == "offset=5"
  {
    LimitPair();
    MarketPair();
    OffsetPair();
  }

  lemma LimitPair() ensures Pair("limit", "20") == "limit=20" { LimitUnescaped(); EscapeUnreserved("20"); }
  lemma MarketPair() ensures Pair("market", "ES") == "market=ES" { MarketUnescaped(); EscapeUnreserved("ES"); }
  lemma OffsetPair() ensures Pair("offset", "5") == "offset=5" { OffsetUnescaped(); EscapeUnreserved("5"); }
}
