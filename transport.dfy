/** `_get`: the tag of an API is resolved to its host, the endpoint is appended, and
    the request is made. The network is a parameter of the model (`Upstream`). */
module Transport {
  import opened Json

  const TvlUrl := "https://api.llama.fi"
  const VolumesUrl := TvlUrl
  const FeesUrl := TvlUrl
  const CoinsUrl := "https://coins.llama.fi"
  const StablecoinsUrl := "https://stablecoins.llama.fi"
  const YieldsUrl := "https://yields.llama.fi"
  const AbiUrl := "https://abi-decoder.llama.fi"
  const BridgesUrl := "https://bridges.llama.fi"

  /** The table `BASE_URLS` of `_get`, in its order. */
  const BaseUrls: seq<(string, string)> := [
    ("TVL", TvlUrl),
    ("COINS", CoinsUrl),
    ("STABLECOINS", StablecoinsUrl),
    ("YIELDS", YieldsUrl),
    ("ABI", AbiUrl),
    ("BRIDGES", BridgesUrl),
    ("VOLUMES", VolumesUrl),
    ("FEES", FeesUrl)
  ]

  /** The eight tags `_get` accepts. */
  const ApiTags: set<string> := {"TVL", "COINS", "STABLECOINS", "YIELDS", "ABI", "BRIDGES", "VOLUMES", "FEES"}

  function Lookup(table: seq<(string, string)>, key: string): (r: Option<string>)
    ensures r.Some? <==> exists i :: 0 <= i < |table| && table[i].0 == key
    ensures r.Some? ==> exists i :: 0 <= i < |table| && table[i] == (key, r.value)
  {
    if |table| == 0 then None
    else if table[0].0 == key then Some(table[0].1)
    else
      var r := Lookup(table[1..], key);
      assert forall i :: 0 <= i < |table| - 1 ==> table[1..][i] == table[i + 1];
      r
  }

  /** `BASE_URLS.get(api_tag)`: a host exactly for the eight tags, never an empty one
      (so `if not base_url` rejects exactly the unknown tags). */
  function BaseUrl(tag: string): (r: Option<string>)
    ensures r.Some? <==> tag in ApiTags
    ensures r.Some? ==> |r.value| > 0
  {
    assert forall i :: 0 <= i < |BaseUrls| ==> BaseUrls[i].0 in ApiTags && |BaseUrls[i].1| > 0;
    assert tag in ApiTags ==> exists i :: 0 <= i < |BaseUrls| && BaseUrls[i].0 == tag by {
      if tag == "TVL" { assert BaseUrls[0].0 == tag; }
      else if tag == "COINS" { assert BaseUrls[1].0 == tag; }
      else if tag == "STABLECOINS" { assert BaseUrls[2].0 == tag; }
      else if tag == "YIELDS" { assert BaseUrls[3].0 == tag; }
      else if tag == "ABI" { assert BaseUrls[4].0 == tag; }
      else if tag == "BRIDGES" { assert BaseUrls[5].0 == tag; }
      else if tag == "VOLUMES" { assert BaseUrls[6].0 == tag; }
      else if tag == "FEES" { assert BaseUrls[7].0 == tag; }
    }
    Lookup(BaseUrls, tag)
  }

  /** The host of each tag, read off the table. */
  lemma {:induction false} BaseUrlOf(tag: string)
    ensures BaseUrl(tag) ==
      if tag == "TVL" || tag == "VOLUMES" || tag == "FEES" then Some(TvlUrl)
      else if tag == "COINS" then Some(CoinsUrl)
      else if tag == "STABLECOINS" then Some(StablecoinsUrl)
      else if tag == "YIELDS" then Some(YieldsUrl)
      else if tag == "ABI" then Some(AbiUrl)
      else if tag == "BRIDGES" then Some(BridgesUrl)
      else None
  {
  }

  /** TVL, VOLUMES and FEES share the host of the main API; every other tag has a host of its own. */
  lemma {:induction false} SharedHost()
    ensures BaseUrl("TVL") == BaseUrl("VOLUMES") == BaseUrl("FEES") == Some("https://api.llama.fi")
    ensures forall t, u :: t in ApiTags && u in ApiTags && t != u && BaseUrl(t) == BaseUrl(u) ==>
      t in {"TVL", "VOLUMES", "FEES"} && u in {"TVL", "VOLUMES", "FEES"}
  {
    forall t, u | t in ApiTags && u in ApiTags && t != u && BaseUrl(t) == BaseUrl(u)
      ensures t in {"TVL", "VOLUMES", "FEES"} && u in {"TVL", "VOLUMES", "FEES"}
    {
      BaseUrlOf(t);
      BaseUrlOf(u);
    }
    BaseUrlOf("TVL");
    BaseUrlOf("VOLUMES");
    BaseUrlOf("FEES");
  }

  /** The URL `_get` requests: `base_url + endpoint`, or the ValueError for an unknown tag. */
  function RequestUrl(tag: string, endpoint: string): (r: Result<string>)
    ensures r.Err? <==> tag !in ApiTags
    ensures r.Err? ==> r.error == InvalidApiTag(tag)
    ensures r.Ok? ==> |r.value| > |endpoint| && r.value[|r.value| - |endpoint|..] == endpoint
    ensures r.Ok? ==> r.value[..|r.value| - |endpoint|] == BaseUrl(tag).value
  {
    match BaseUrl(tag)
    case None => Err(InvalidApiTag(tag))
    case Some(base) =>
      var url := base + endpoint;
      assert url[|base|..] == endpoint && url[..|base|] == base;
      Ok(url)
  }

  /** The optional query parameters a caller may pass (`params`), by the keys the client reads. */
  datatype Params = Params(
    excludeTotalDataChart: Option<bool>,
    excludeTotalDataChartBreakdown: Option<bool>,
    dataType: Option<string>,
    extra: seq<(string, string)>)  // any other query parameters, passed through unread

  /** `not params` for a dict that is present: it has no entry at all. */
  predicate IsEmpty(p: Params) {
    p.excludeTotalDataChart.None? && p.excludeTotalDataChartBreakdown.None? && p.dataType.None? && p.extra == []
  }

  /** The provider: the decoded body of a GET of the URL with the query parameters, or
      None when the request times out, fails, returns an error status or a body that is not JSON. */
  type Upstream<N(!new)> = (string, Option<Params>) -> Option<Json<N>>

  /** `self._get(api_tag, endpoint, params)`. An unknown tag fails before the provider is consulted,
      so the result does not depend on it. */
  function Fetch<N(!new)>(up: Upstream<N>, tag: string, endpoint: string, params: Option<Params>): (r: Result<Json<N>>)
    ensures tag !in ApiTags ==> r == Err(InvalidApiTag(tag))
    ensures tag in ApiTags ==>
      var url := BaseUrl(tag).value + endpoint;
      r == (if up(url, params).Some? then Ok(up(url, params).value) else Err(RequestFailed(url)))
  {
    var url :- RequestUrl(tag, endpoint);
    match up(url, params)
    case Some(body) => Ok(body)
    case None => Err(RequestFailed(url))
  }
}
