/** The identifier listings of the client (`get_chains`, `get_protocols`, `get_stablecoins`,
    `get_pools`): each walks a list of assets and keeps a few fields of each, renamed. */
module Mappings {
  import opened Json
  import opened Blocks
  import opened Transport

  /** The fields a listing keeps: (name in the result, name in the response), in display order.
      The result names of every listing below are distinct, so each row is its dict display. */
  type Projection = seq<(string, string)>

  /** `{out: asset[in] for (out, in) in proj}`, written out as a display: the subscripts are
      evaluated left to right, so the first field missing is the one reported. */
  function Project<N(!new)>(asset: Json<N>, proj: Projection): (r: Result<Fields<N>>)
    decreases |proj|
  {
    if |proj| == 0 then Ok([])
    else
      var init :- Project(asset, proj[..|proj| - 1]);
      var v :- Subscript(asset, proj[|proj| - 1].1);
      Ok(init + [(proj[|proj| - 1].0, v)])
  }

  /** A projection succeeds exactly on a dict that has every source field. */
  lemma {:induction false} ProjectOkIff<N(!new)>(asset: Json<N>, proj: Projection)
    requires |proj| > 0
    ensures Project(asset, proj).Ok? <==> asset.Obj? && forall i :: 0 <= i < |proj| ==> proj[i].1 in Keys(asset.fields)
  {
    var init, last := proj[..|proj| - 1], proj[|proj| - 1];
    assert forall i :: 0 <= i < |init| ==> init[i] == proj[i];
    assert Project(asset, proj).Ok? <==> Project(asset, init).Ok? && Subscript(asset, last.1).Ok?;
    if |init| > 0 {
      ProjectOkIff(asset, init);
    }
  }

  /** A projection that succeeds keeps the source fields in order under their new names. */
  lemma {:induction false} ProjectValues<N(!new)>(asset: Json<N>, proj: Projection)
    requires |proj| > 0 && Project(asset, proj).Ok?
    ensures asset.Obj? && |Project(asset, proj).value| == |proj|
    ensures forall i :: 0 <= i < |proj| ==>
      Project(asset, proj).value[i].0 == proj[i].0 && Find(asset.fields, proj[i].1) == Some(Project(asset, proj).value[i].1)
  {
    var init, last := proj[..|proj| - 1], proj[|proj| - 1];
    assert forall i :: 0 <= i < |init| ==> init[i] == proj[i];
    if |init| > 0 {
      ProjectValues(asset, init);
    }
    var v := Subscript(asset, last.1).value;
    assert Project(asset, proj).value == Project(asset, init).value + [(last.0, v)];
  }

  /** A projection succeeds exactly on a dict that has every source field; it then keeps
      them in order under their new names. */
  lemma {:induction false} ProjectOk<N(!new)>(asset: Json<N>, proj: Projection)
    requires |proj| > 0
    ensures Project(asset, proj).Ok? <==> asset.Obj? && forall i :: 0 <= i < |proj| ==> proj[i].1 in Keys(asset.fields)
    ensures Project(asset, proj).Ok? ==>
      |Project(asset, proj).value| == |proj| &&
      forall i :: 0 <= i < |proj| ==> Project(asset, proj).value[i] == (proj[i].0, Find(asset.fields, proj[i].1).value)
  {
    ProjectOkIff(asset, proj);
    if Project(asset, proj).Ok? {
      ProjectValues(asset, proj);
    }
  }

  /** The error of a failing projection: TypeError on a non-dict, otherwise the KeyError of the
      first source field, in display order, that the asset lacks. */
  lemma {:induction false} ProjectError<N(!new)>(asset: Json<N>, proj: Projection, j: nat)
    requires j < |proj| && asset.Obj?
    requires proj[j].1 !in Keys(asset.fields)
    requires forall i :: 0 <= i < j ==> proj[i].1 in Keys(asset.fields)
    ensures Project(asset, proj) == Err(KeyMissing(proj[j].1))
  {
    var init := proj[..|proj| - 1];
    assert forall i :: 0 <= i < |init| ==> init[i] == proj[i];
    if j < |proj| - 1 {
      ProjectError(asset, init, j);
    } else if |init| > 0 {
      ProjectOk(asset, init);
    }
  }

  lemma {:induction false} ProjectNotDict<N(!new)>(asset: Json<N>, proj: Projection)
    requires |proj| > 0 && !asset.Obj?
    ensures Project(asset, proj) == Err(ShapeMismatch("subscript"))
  {
    var init := proj[..|proj| - 1];
    if |init| > 0 {
      ProjectNotDict(asset, init);
    }
  }

  function ProjectFn<N(!new)>(proj: Projection): Json<N> -> Result<Fields<N>> {
    asset => Project(asset, proj)
  }

  /** `results = []; for asset in assets: results.append({...})`. */
  function Listing<N(!new)>(assets: Json<N>, proj: Projection): Result<seq<Fields<N>>> {
    var items :- Iterate(assets);
    MapAll(items, ProjectFn(proj))
  }

  /** One step of the loop of ProjectAll, with the asset's row stated through Project. */
  lemma {:induction false} ListingNext<N(!new)>(items: seq<Json<N>>, proj: Projection, i: nat, results: seq<Fields<N>>)
    requires i < |items| && MapAll(items[..i], ProjectFn(proj)) == Ok(results)
    ensures var y := Project(items[i], proj);
      (y.Ok? ==> MapAll(items[..i + 1], ProjectFn(proj)) == Ok(results + [y.value])) &&
      (y.Err? ==> MapAll(items, ProjectFn(proj)) == Err(y.error))
  {
    MapAllNext(items, ProjectFn(proj), i, results, Project(items[i], proj));
  }

  method ProjectAll<N(!new)>(assets: Json<N>, proj: Projection) returns (r: Result<seq<Fields<N>>>)
    ensures r == Listing(assets, proj)
  {
    var items :- Iterate(assets);
    var results: seq<Fields<N>> := [];
    var i := 0;
    while i < |items|
      invariant 0 <= i <= |items|
      invariant MapAll(items[..i], ProjectFn(proj)) == Ok(results)
    {
      var row := Project(items[i], proj);
      ListingNext(items, proj, i, results);
      if row.Err? {
        return Err(row.error);
      }
      results := results + [row.value];
      i := i + 1;
    }
    assert items[..i] == items;
    return Ok(results);
  }

  /** A listing has one row per asset, in order, each the asset's fields under their new names. */
  lemma {:induction false} ListingRows<N(!new)>(items: seq<Json<N>>, proj: Projection)
    requires |proj| > 0
    ensures Listing(Arr(items), proj).Ok? <==>
      forall i :: 0 <= i < |items| ==> items[i].Obj? && forall p :: 0 <= p < |proj| ==> proj[p].1 in Keys(items[i].fields)
    ensures Listing(Arr(items), proj).Ok? ==>
      |Listing(Arr(items), proj).value| == |items| &&
      forall i :: 0 <= i < |items| ==>
        items[i].Obj? && |Listing(Arr(items), proj).value[i]| == |proj| &&
        forall p :: 0 <= p < |proj| ==> Listing(Arr(items), proj).value[i][p] == (proj[p].0, Find(items[i].fields, proj[p].1).value)
  {
    MapAllOk(items, ProjectFn(proj));
    forall i | 0 <= i < |items| {
      ProjectOk(items[i], proj);
    }
  }

  /** The first asset that cannot be projected decides the error of the listing. */
  lemma {:induction false} ListingError<N(!new)>(items: seq<Json<N>>, proj: Projection, j: nat)
    requires j < |items| && Project(items[j], proj).Err?
    requires forall i :: 0 <= i < j ==> Project(items[i], proj).Ok?
    ensures Listing(Arr(items), proj) == Err(Project(items[j], proj).error)
  {
    MapAllFirstError(items, ProjectFn(proj), j);
  }

  const ChainFields: Projection := [("chain_id", "chainId"), ("name", "name")]
  const ProtocolFields: Projection := [("id", "id"), ("name", "name"), ("slug", "slug")]
  const StablecoinFields: Projection := [("id", "id"), ("name", "name"), ("symbol", "symbol")]
  const PoolFields: Projection := [("id", "pool"), ("chain", "chain"), ("project", "project"), ("symbol", "symbol")]

  /** `get_chains()`: chain ID and name of every entry of `/v2/chains`. */
  function Chains<N(!new)>(up: Upstream<N>): Result<seq<Fields<N>>> {
    var response :- Fetch(up, "TVL", "/v2/chains", None);
    Listing(response, ChainFields)
  }

  /** `get_protocols()`: ID, name and slug of every entry of `/protocols`. */
  function Protocols<N(!new)>(up: Upstream<N>): Result<seq<Fields<N>>> {
    var response :- Fetch(up, "TVL", "/protocols", None);
    Listing(response, ProtocolFields)
  }

  /** `get_stablecoins()`: ID, name and symbol of every entry of `response['peggedAssets']`. */
  function Stablecoins<N(!new)>(up: Upstream<N>): Result<seq<Fields<N>>> {
    var response :- Fetch(up, "STABLECOINS", "/stablecoins", None);
    var assets :- Subscript(response, "peggedAssets");
    Listing(assets, StablecoinFields)
  }

  /** `get_pools()`: pool ID (from `pool`), chain, project and symbol of every entry of `response['data']`. */
  function Pools<N(!new)>(up: Upstream<N>): Result<seq<Fields<N>>> {
    var response :- Fetch(up, "YIELDS", "/pools", None);
    var assets :- Subscript(response, "data");
    Listing(assets, PoolFields)
  }

  method GetChains<N(!new)>(up: Upstream<N>) returns (r: Result<seq<Fields<N>>>)
    ensures r == Chains(up)
  {
    var response :- Fetch(up, "TVL", "/v2/chains", None);
    r := ProjectAll(response, ChainFields);
  }

  method GetProtocols<N(!new)>(up: Upstream<N>) returns (r: Result<seq<Fields<N>>>)
    ensures r == Protocols(up)
  {
    var response :- Fetch(up, "TVL", "/protocols", None);
    r := ProjectAll(response, ProtocolFields);
  }

  method GetStablecoins<N(!new)>(up: Upstream<N>) returns (r: Result<seq<Fields<N>>>)
    ensures r == Stablecoins(up)
  {
    var response :- Fetch(up, "STABLECOINS", "/stablecoins", None);
    var assets :- Subscript(response, "peggedAssets");
    r := ProjectAll(assets, StablecoinFields);
  }

  method GetPools<N(!new)>(up: Upstream<N>) returns (r: Result<seq<Fields<N>>>)
    ensures r == Pools(up)
  {
    var response :- Fetch(up, "YIELDS", "/pools", None);
    var assets :- Subscript(response, "data");
    r := ProjectAll(assets, PoolFields);
  }

  /** A projection of four fields holds those four fields, in order, under their new names. */
  lemma {:induction false} ProjectFour<N(!new)>(asset: Json<N>, proj: Projection)
    requires |proj| == 4 && Project(asset, proj).Ok?
    ensures asset.Obj? && forall p :: 0 <= p < 4 ==> proj[p].1 in Keys(asset.fields)
    ensures |Project(asset, proj).value| == 4
    ensures Project(asset, proj).value[0] == (proj[0].0, Find(asset.fields, proj[0].1).value)
    ensures Project(asset, proj).value[1] == (proj[1].0, Find(asset.fields, proj[1].1).value)
    ensures Project(asset, proj).value[2] == (proj[2].0, Find(asset.fields, proj[2].1).value)
    ensures Project(asset, proj).value[3] == (proj[3].0, Find(asset.fields, proj[3].1).value)
  {
    ProjectValues(asset, proj);
    var r := Project(asset, proj).value;
    var fs := asset.fields;
    forall p | 0 <= p < 4 ensures proj[p].1 in Keys(fs) && r[p] == (proj[p].0, Find(fs, proj[p].1).value) {
      assert Find(fs, proj[p].1) == Some(r[p].1);
    }
  }

  /** One pool: `{'id': asset['pool'], 'chain': ..., 'project': ..., 'symbol': ...}`. */
  lemma {:induction false} PoolRow<N(!new)>(asset: Json<N>)
    requires Project(asset, PoolFields).Ok?
    ensures asset.Obj? && "pool" in Keys(asset.fields) && "chain" in Keys(asset.fields)
    ensures "project" in Keys(asset.fields) && "symbol" in Keys(asset.fields)
    ensures |Project(asset, PoolFields).value| == 4
    ensures Project(asset, PoolFields).value[0] == ("id", Find(asset.fields, "pool").value)
    ensures Project(asset, PoolFields).value[1] == ("chain", Find(asset.fields, "chain").value)
    ensures Project(asset, PoolFields).value[2] == ("project", Find(asset.fields, "project").value)
    ensures Project(asset, PoolFields).value[3] == ("symbol", Find(asset.fields, "symbol").value)
  {
    ProjectFour(asset, PoolFields);
    assert PoolFields[0].1 in Keys(asset.fields) && PoolFields[1].1 in Keys(asset.fields);
    assert PoolFields[2].1 in Keys(asset.fields) && PoolFields[3].1 in Keys(asset.fields);
  }

  /** `get_pools()` has one row per pool of the `data` envelope, in order, each that pool's row. */
  lemma {:induction false} PoolsRows<N(!new)>(up: Upstream<N>, response: Json<N>, items: seq<Json<N>>)
    requires Fetch(up, "YIELDS", "/pools", None) == Ok(response)
    requires Subscript(response, "data") == Ok(Arr(items))
    requires Pools(up).Ok?
    ensures |Pools(up).value| == |items|
    ensures forall i :: 0 <= i < |items| ==>
      Project(items[i], PoolFields).Ok? && Pools(up).value[i] == Project(items[i], PoolFields).value
  {
    assert Pools(up) == Listing(Arr(items), PoolFields);
    MapAllOk(items, ProjectFn(PoolFields));
  }

  /** Without the `data` envelope there is no listing at all: the KeyError of `response['data']`. */
  lemma {:induction false} PoolsWithoutEnvelope<N(!new)>(up: Upstream<N>, response: Json<N>)
    requires Fetch(up, "YIELDS", "/pools", None) == Ok(response)
    requires response.Obj? && "data" !in Keys(response.fields)
    ensures Pools(up) == Err(KeyMissing("data"))
  {
  }

  /** A chain without `chainId` makes `get_chains()` fail with that KeyError, even when the
      later chains are well formed, provided the earlier ones are. */
  lemma {:induction false} ChainsMissingId<N(!new)>(up: Upstream<N>, items: seq<Json<N>>, j: nat)
    requires Fetch(up, "TVL", "/v2/chains", None) == Ok(Arr(items))
    requires j < |items| && items[j].Obj? && "chainId" !in Keys(items[j].fields)
    requires forall i :: 0 <= i < j ==> Project(items[i], ChainFields).Ok?
    ensures Chains(up) == Err(KeyMissing("chainId"))
  {
    ProjectError(items[j], ChainFields, 0);
    ListingError(items, ChainFields, j);
  }
}
