/** The TVL methods of the client. Each either returns the decoded response (`raw=True`)
    or flattens it into records, passes them to `pd.DataFrame` and `_clean_chain_name`.
    The dict displays of these methods have distinct literal keys, so a row is its
    display, entry for entry. */
module Tvl {
  import opened Json
  import opened Blocks
  import opened Names
  import opened Frames
  import opened Transport
  import opened Fanout

  // ---- get_all_protocols_current_tvl ----

  /** `{'chain': chain, 'protocol': protocol, 'tvl': tvl}` for each entry of `chainTvls`. */
  function ChainTvlRows<N(!new)>(slug: Json<N>, entries: Fields<N>): (rows: Table<N>)
    ensures |rows| == |entries|
    ensures forall i :: 0 <= i < |entries| ==> rows[i] == [("chain", Str(entries[i].0)), ("protocol", slug), ("tvl", entries[i].1)]
  {
    seq(|entries|, i requires 0 <= i < |entries| => [("chain", Str(entries[i].0)), ("protocol", slug), ("tvl", entries[i].1)])
  }

  /** Row i of one protocol's block has the columns `chain`, `protocol` and `tvl`, holding the i-th
      chain name, the slug and that chain's tvl. */
  lemma {:induction false} ChainTvlRowsCells<N(!new)>(slug: Json<N>, entries: Fields<N>)
    ensures |ChainTvlRows(slug, entries)| == |entries|
    ensures forall i :: 0 <= i < |entries| ==>
      var row := ChainTvlRows(slug, entries)[i];
      Keys(row) == ["chain", "protocol", "tvl"] && Find(row, "chain") == Some(Str(entries[i].0)) &&
      Find(row, "protocol") == Some(slug) && Find(row, "tvl") == Some(entries[i].1)
  {
    forall i | 0 <= i < |entries|
      ensures var row := ChainTvlRows(slug, entries)[i];
        Keys(row) == ["chain", "protocol", "tvl"] && Find(row, "chain") == Some(Str(entries[i].0)) &&
        Find(row, "protocol") == Some(slug) && Find(row, "tvl") == Some(entries[i].1)
    {
      var row := ChainTvlRows(slug, entries)[i];
      KeysOfThree(row, "chain", "protocol", "tvl");
      FindFirst(row, 1);
      FindFirst(row, 2);
    }
  }

  /** The rows of one protocol: `raw_data.get('slug')` and `raw_data.get('chainTvls', {}).items()`. */
  function ProtocolTvlBlock<N(!new)>(protocol: Json<N>): Result<Table<N>> {
    var slug :- Get(protocol, "slug");
    var chainTvls :- GetOr(protocol, "chainTvls", Obj([]));
    var entries :- Items(chainTvls);
    Ok(ChainTvlRows(slug, entries))
  }

  function ProtocolTvlRows<N(!new)>(response: Json<N>): Result<Table<N>> {
    var protocols :- Iterate(response);
    ConcatMap(protocols, ProtocolTvlBlock)
  }

  /** `get_all_protocols_current_tvl(raw)`. */
  function AllProtocolsCurrentTvl<N(!new)>(up: Upstream<N>, raw: bool): Result<Output<N>> {
    var response :- Fetch(up, "TVL", "/protocols", None);
    if raw then Ok(Raw(response))
    else
      var rows :- ProtocolTvlRows(response);
      Ok(Frame(CleanChainColumn(rows)))
  }

  /** The body of the loop over protocols: the slug, the chain entries, and the inner loop. */
  method ProtocolTvlEntries<N(!new)>(protocol: Json<N>) returns (r: Result<Table<N>>)
    ensures r == ProtocolTvlBlock(protocol)
  {
    var slug :- Get(protocol, "slug");
    var chainTvls := GetOr(protocol, "chainTvls", Obj([])).value;
    var entries :- Items(chainTvls);
    var rows: Table<N> := [];
    var j := 0;
    while j < |entries|
      invariant 0 <= j <= |entries|
      invariant rows == ChainTvlRows(slug, entries[..j])
    {
      assert ChainTvlRows(slug, entries[..j + 1]) ==
        ChainTvlRows(slug, entries[..j]) + [[("chain", Str(entries[j].0)), ("protocol", slug), ("tvl", entries[j].1)]];
      rows := rows + [[("chain", Str(entries[j].0)), ("protocol", slug), ("tvl", entries[j].1)]];
      j := j + 1;
    }
    assert entries[..j] == entries;
    return Ok(rows);
  }

  /** One step of the loop of FlattenProtocolTvls, with the protocol's block stated through ProtocolTvlBlock. */
  lemma {:induction false} ProtocolTvlsNext<N(!new)>(protocols: seq<Json<N>>, i: nat, blocks: seq<Table<N>>)
    requires i < |protocols| && MapAll(protocols[..i], ProtocolTvlBlock) == Ok(blocks)
    ensures var y := ProtocolTvlBlock(protocols[i]);
      (y.Ok? ==> MapAll(protocols[..i + 1], ProtocolTvlBlock) == Ok(blocks + [y.value])) &&
      (y.Ok? ==> Concat(blocks + [y.value]) == Concat(blocks) + y.value) &&
      (y.Err? ==> MapAll(protocols, ProtocolTvlBlock) == Err(y.error))
  {
    ConcatMapNext(protocols, ProtocolTvlBlock, i, blocks, ProtocolTvlBlock(protocols[i]));
  }

  method FlattenProtocolTvls<N(!new)>(response: Json<N>) returns (r: Result<Table<N>>)
    ensures r == ProtocolTvlRows(response)
  {
    var protocols :- Iterate(response);
    var results: Table<N> := [];
    ghost var blocks: seq<Table<N>> := [];
    var i := 0;
    while i < |protocols|
      invariant 0 <= i <= |protocols|
      invariant MapAll(protocols[..i], ProtocolTvlBlock) == Ok(blocks)
      invariant results == Concat(blocks)
    {
      var block := ProtocolTvlEntries(protocols[i]);
      ProtocolTvlsNext(protocols, i, blocks);
      if block.Err? {
        return Err(block.error);
      }
      var b := block.value;
      assert MapAll(protocols[..i + 1], ProtocolTvlBlock) == Ok(blocks + [b]) && Concat(blocks + [b]) == Concat(blocks) + b;
      results := results + b;
      blocks := blocks + [b];
      i := i + 1;
    }
    assert protocols[..i] == protocols;
    return Ok(results);
  }

  /** The number of chains of one protocol (a missing `chainTvls` counts as none). */
  function ChainTvlCount<N(!new)>(protocol: Json<N>): nat {
    if protocol.Obj? && Find(protocol.fields, "chainTvls").Some? && Find(protocol.fields, "chainTvls").value.Obj?
    then |Find(protocol.fields, "chainTvls").value.fields| else 0
  }

  /** One row per (protocol, chain) pair, each with the columns chain, protocol and tvl,
      the chain canonicalised. */
  lemma {:induction false} AllProtocolsCurrentTvlRows<N(!new)>(up: Upstream<N>, response: Json<N>)
    requires Fetch(up, "TVL", "/protocols", None) == Ok(response)
    requires AllProtocolsCurrentTvl(up, false).Ok?
    ensures Iterate(response).Ok? && ProtocolTvlRows(response).Ok?
    ensures
      var rows := AllProtocolsCurrentTvl(up, false).value.table;
      |rows| == Sum(Iterate(response).value, ChainTvlCount) &&
      forall k :: 0 <= k < |rows| ==>
        (Keys(rows[k]) == ["chain", "protocol", "tvl"] &&
         Find(rows[k], "chain").value.Str? && IsCanonical(Find(rows[k], "chain").value.s))
  {
    var protocols := Iterate(response).value;
    var raw := ProtocolTvlRows(response).value;
    assert AllProtocolsCurrentTvl(up, false) == Ok(Frame(CleanChainColumn(raw)));
    ProtocolTvlRowsShape(protocols, raw);
    var rows := CleanChainColumn(raw);
    forall k | 0 <= k < |rows|
      ensures Keys(rows[k]) == ["chain", "protocol", "tvl"]
      ensures Find(rows[k], "chain").value.Str? && IsCanonical(Find(rows[k], "chain").value.s)
    {
      assert Find(raw[k], "chain").Some? && Find(raw[k], "chain").value.Str?;
      CleanChainNameChars(Find(raw[k], "chain").value.s);
    }
  }

  /** The rows of one protocol: one per chain, each with the columns chain, protocol and tvl. */
  lemma {:induction false} ProtocolTvlBlockShape<N(!new)>(protocol: Json<N>)
    requires ProtocolTvlBlock(protocol).Ok?
    ensures |ProtocolTvlBlock(protocol).value| == ChainTvlCount(protocol)
    ensures forall m :: 0 <= m < |ProtocolTvlBlock(protocol).value| ==>
      ChainTvlShape(ProtocolTvlBlock(protocol).value[m])
  {
    var slug := Get(protocol, "slug").value;
    var entries := Items(GetOr(protocol, "chainTvls", Obj([])).value).value;
    var rows := ChainTvlRows(slug, entries);
    assert ProtocolTvlBlock(protocol).value == rows;
    forall m | 0 <= m < |rows| ensures ChainTvlShape(rows[m]) {
      KeysOfThree(rows[m], "chain", "protocol", "tvl");
    }
  }

  /** A row with the columns chain, protocol and tvl and a string in the chain column. */
  predicate ChainTvlShape<N(!new)>(row: Row<N>) {
    Keys(row) == ["chain", "protocol", "tvl"] && Find(row, "chain").Some? && Find(row, "chain").value.Str?
  }

  /** Before canonicalisation: one row per (protocol, chain) pair, each with the columns
      chain, protocol and tvl and a string in the chain column. */
  lemma {:induction false} ProtocolTvlRowsShape<N(!new)>(protocols: seq<Json<N>>, raw: Table<N>)
    requires ConcatMap(protocols, ProtocolTvlBlock) == Ok(raw)
    ensures |raw| == Sum(protocols, ChainTvlCount)
    ensures forall k :: 0 <= k < |raw| ==> ChainTvlShape(raw[k])
  {
    forall j | 0 <= j < |protocols| && ProtocolTvlBlock(protocols[j]).Ok?
      ensures |ProtocolTvlBlock(protocols[j]).value| == ChainTvlCount(protocols[j])
      ensures forall m :: 0 <= m < |ProtocolTvlBlock(protocols[j]).value| ==> ChainTvlShape(ProtocolTvlBlock(protocols[j]).value[m])
    {
      ProtocolTvlBlockShape(protocols[j]);
    }
    ConcatMapLength(protocols, ProtocolTvlBlock, ChainTvlCount);
    ConcatMapAll(protocols, ProtocolTvlBlock, ChainTvlShape);
  }

  // ---- get_protocol_historical_tvl ----

  /** `self._get('TVL', f'/protocol/{protocol}')`. */
  function ProtocolDocument<N(!new)>(up: Upstream<N>, protocol: string): Result<Json<N>> {
    Fetch(up, "TVL", "/protocol/" + protocol, None)
  }

  function ProtocolDocumentFn<N(!new)>(up: Upstream<N>): string -> Result<Json<N>> {
    protocol => ProtocolDocument(up, protocol)
  }

  /** `{'date': entry.get('date'), 'chain': chain, 'protocol': protocol, 'tvl': entry.get('totalLiquidityUSD')}`. */
  function TvlPoint<N(!new)>(chain: string, protocol: string, entry: Json<N>): (r: Result<Row<N>>)
    ensures r.Ok? <==> entry.Obj?
    ensures r.Ok? ==> Keys(r.value) == ["date", "chain", "protocol", "tvl"]
    ensures r.Ok? ==> Find(r.value, "chain") == Some(Str(chain)) && Find(r.value, "protocol") == Some(Str(protocol))
    ensures r.Ok? ==> Find(r.value, "date") == Some(Find(entry.fields, "date").GetOr(Null))
    ensures r.Ok? ==> Find(r.value, "tvl") == Some(Find(entry.fields, "totalLiquidityUSD").GetOr(Null))
  {
    match entry
    case Obj(fs) =>
      var row := [("date", Find(fs, "date").GetOr(Null)), ("chain", Str(chain)), ("protocol", Str(protocol)), ("tvl", Find(fs, "totalLiquidityUSD").GetOr(Null))];
      FindFirst(row, 1);
      FindFirst(row, 2);
      FindFirst(row, 3);
      KeysOfFour(row, "date", "chain", "protocol", "tvl");
      Ok(row)
    case _ => Err(ShapeMismatch("get"))
  }

  function TvlPointFn<N(!new)>(chain: string, protocol: string): Json<N> -> Result<Row<N>> {
    entry => TvlPoint(chain, protocol, entry)
  }

  /** The rows of one chain of a protocol: `chain_data.get("tvl", [])`, one row per entry. */
  function ChainHistory<N(!new)>(protocol: string, chain: (string, Json<N>)): Result<Table<N>> {
    var tvlData :- GetOr(chain.1, "tvl", Arr([]));
    var entries :- Iterate(tvlData);
    MapAll(entries, TvlPointFn(chain.0, protocol))
  }

  function ChainHistoryFn<N(!new)>(protocol: string): ((string, Json<N>)) -> Result<Table<N>> {
    chain => ChainHistory(protocol, chain)
  }

  /** The rows of one protocol: every chain of `data.get("chainTvls", {})`, in order. */
  function ProtocolHistory<N(!new)>(up: Upstream<N>, protocol: string): Result<Table<N>> {
    var data :- ProtocolDocument(up, protocol);
    var chainTvls :- GetOr(data, "chainTvls", Obj([]));
    var chains :- Items(chainTvls);
    ConcatMap(chains, ChainHistoryFn(protocol))
  }

  function ProtocolHistoryFn<N(!new)>(up: Upstream<N>): string -> Result<Table<N>> {
    protocol => ProtocolHistory(up, protocol)
  }

  /** `get_protocol_historical_tvl(protocols, raw)`. */
  function ProtocolHistoricalTvl<N(!new)>(up: Upstream<N>, protocols: Selector, raw: bool): Result<Output<N>> {
    var keys := AsList(protocols);
    if raw then
      var v :- SingleOrCollect(keys, ProtocolDocumentFn(up));
      Ok(Raw(v))
    else
      var rows :- ConcatMap(keys, ProtocolHistoryFn(up));
      Ok(Frame(CleanChainColumn(rows)))
  }

  /** One step of the loop of FlattenChainHistory, with the entry's row stated through TvlPoint. */
  lemma {:induction false} TvlPointsNext<N(!new)>(chain: string, protocol: string, entries: seq<Json<N>>, i: nat, rows: Table<N>)
    requires i < |entries| && MapAll(entries[..i], TvlPointFn(chain, protocol)) == Ok(rows)
    ensures var y := TvlPoint(chain, protocol, entries[i]);
      (y.Ok? ==> MapAll(entries[..i + 1], TvlPointFn(chain, protocol)) == Ok(rows + [y.value])) &&
      (y.Err? ==> MapAll(entries, TvlPointFn(chain, protocol)) == Err(y.error))
  {
    MapAllNext(entries, TvlPointFn(chain, protocol), i, rows, TvlPoint(chain, protocol, entries[i]));
  }

  method FlattenChainHistory<N(!new)>(protocol: string, chain: (string, Json<N>)) returns (r: Result<Table<N>>)
    ensures r == ChainHistory(protocol, chain)
  {
    var tvlData :- GetOr(chain.1, "tvl", Arr([]));
    var entries :- Iterate(tvlData);
    var rows: Table<N> := [];
    var i := 0;
    while i < |entries|
      invariant 0 <= i <= |entries|
      invariant MapAll(entries[..i], TvlPointFn(chain.0, protocol)) == Ok(rows)
    {
      var row := TvlPoint(chain.0, protocol, entries[i]);
      TvlPointsNext(chain.0, protocol, entries, i, rows);
      if row.Err? {
        return Err(row.error);
      }
      rows := rows + [row.value];
      i := i + 1;
    }
    assert entries[..i] == entries;
    return Ok(rows);
  }

  /** One step of the loop of FlattenProtocolHistory, with the chain's block stated through ChainHistory. */
  lemma {:induction false} ChainHistoriesNext<N(!new)>(protocol: string, chains: Fields<N>, i: nat, blocks: seq<Table<N>>)
    requires i < |chains| && MapAll(chains[..i], ChainHistoryFn(protocol)) == Ok(blocks)
    ensures var y := ChainHistory(protocol, chains[i]);
      (y.Ok? ==> MapAll(chains[..i + 1], ChainHistoryFn(protocol)) == Ok(blocks + [y.value])) &&
      (y.Ok? ==> Concat(blocks + [y.value]) == Concat(blocks) + y.value) &&
      (y.Err? ==> MapAll(chains, ChainHistoryFn(protocol)) == Err(y.error))
  {
    ConcatMapNext(chains, ChainHistoryFn(protocol), i, blocks, ChainHistory(protocol, chains[i]));
  }

  method FlattenProtocolHistory<N(!new)>(up: Upstream<N>, protocol: string) returns (r: Result<Table<N>>)
    ensures r == ProtocolHistory(up, protocol)
  {
    var data :- ProtocolDocument(up, protocol);
    var chainTvls :- GetOr(data, "chainTvls", Obj([]));
    var chains :- Items(chainTvls);
    var rows: Table<N> := [];
    ghost var blocks: seq<Table<N>> := [];
    var i := 0;
    while i < |chains|
      invariant 0 <= i <= |chains|
      invariant MapAll(chains[..i], ChainHistoryFn(protocol)) == Ok(blocks)
      invariant rows == Concat(blocks)
    {
      var block := FlattenChainHistory(protocol, chains[i]);
      ChainHistoriesNext(protocol, chains, i, blocks);
      if block.Err? {
        return Err(block.error);
      }
      rows := rows + block.value;
      blocks := blocks + [block.value];
      i := i + 1;
    }
    assert chains[..i] == chains;
    return Ok(rows);
  }

  /** One step of the protocol loop of GetProtocolHistoricalTvl, with the block stated through ProtocolHistory. */
  lemma {:induction false} ProtocolHistoriesNext<N(!new)>(up: Upstream<N>, keys: seq<string>, i: nat, blocks: seq<Table<N>>)
    requires i < |keys| && MapAll(keys[..i], ProtocolHistoryFn(up)) == Ok(blocks)
    ensures var y := ProtocolHistory(up, keys[i]);
      (y.Ok? ==> MapAll(keys[..i + 1], ProtocolHistoryFn(up)) == Ok(blocks + [y.value])) &&
      (y.Ok? ==> Concat(blocks + [y.value]) == Concat(blocks) + y.value) &&
      (y.Err? ==> MapAll(keys, ProtocolHistoryFn(up)) == Err(y.error))
  {
    ConcatMapNext(keys, ProtocolHistoryFn(up), i, blocks, ProtocolHistory(up, keys[i]));
  }

  method GetProtocolHistoricalTvl<N(!new)>(up: Upstream<N>, protocols: Selector, raw: bool) returns (r: Result<Output<N>>)
    ensures r == ProtocolHistoricalTvl(up, protocols, raw)
  {
    var keys := AsList(protocols);
    if raw {
      if |keys| == 1 {
        var v :- ProtocolDocument(up, keys[0]);
        return Ok(Raw(v));
      }
      var results := CollectAll(keys, ProtocolDocumentFn(up));
      if results.Err? {
        return Err(results.error);
      }
      return Ok(Raw(Obj(results.value)));
    }
    var rows: Table<N> := [];
    ghost var blocks: seq<Table<N>> := [];
    var i := 0;
    while i < |keys|
      invariant 0 <= i <= |keys|
      invariant MapAll(keys[..i], ProtocolHistoryFn(up)) == Ok(blocks)
      invariant rows == Concat(blocks)
    {
      var block := FlattenProtocolHistory(up, keys[i]);
      ProtocolHistoriesNext(up, keys, i, blocks);
      if block.Err? {
        return Err(block.error);
      }
      rows := rows + block.value;
      blocks := blocks + [block.value];
      i := i + 1;
    }
    assert keys[..i] == keys;
    return Ok(Frame(CleanChainColumn(rows)));
  }

  /** A row of the historical TVL of `protocol`: the columns date, chain, protocol, tvl,
      a string chain and the protocol it came from. */
  predicate HistoryRowOf<N(!new)>(protocol: string, row: Row<N>) {
    Keys(row) == ["date", "chain", "protocol", "tvl"] &&
    Find(row, "protocol") == Some(Str(protocol)) && Find(row, "chain").Some? && Find(row, "chain").value.Str?
  }

  lemma {:induction false} ChainHistoryPoints<N(!new)>(protocol: string, chain: (string, Json<N>))
    ensures ChainHistory(protocol, chain).Ok? ==>
      forall e :: 0 <= e < |ChainHistory(protocol, chain).value| ==> HistoryRowOf(protocol, ChainHistory(protocol, chain).value[e])
  {
    if ChainHistory(protocol, chain).Ok? {
      var entries := Iterate(GetOr(chain.1, "tvl", Arr([])).value).value;
      MapAllOk(entries, TvlPointFn(chain.0, protocol));
    }
  }

  lemma {:induction false} ProtocolHistoryRows<N(!new)>(up: Upstream<N>, protocol: string)
    ensures ProtocolHistory(up, protocol).Ok? ==>
      forall e :: 0 <= e < |ProtocolHistory(up, protocol).value| ==> HistoryRowOf(protocol, ProtocolHistory(up, protocol).value[e])
  {
    if ProtocolHistory(up, protocol).Ok? {
      var data := ProtocolDocument(up, protocol).value;
      var chains := Items(GetOr(data, "chainTvls", Obj([])).value).value;
      var g := ChainHistoryFn(protocol);
      forall c | 0 <= c < |chains|
        ensures g(chains[c]).Ok? ==> forall e :: 0 <= e < |g(chains[c]).value| ==> HistoryRowOf(protocol, g(chains[c]).value[e])
      {
        ChainHistoryPoints(protocol, chains[c]);
      }
      ConcatMapAll(chains, g, row => HistoryRowOf(protocol, row));
    }
  }

  /** Row n of the block of one protocol is one of its history rows. */
  lemma {:induction false} ProtocolHistoryBlockAt<N(!new)>(up: Upstream<N>, protocol: string, n: nat)
    requires n < Sizes(ProtocolHistoryFn(up))(protocol)
    ensures ProtocolHistoryFn(up)(protocol).Ok? && n < |ProtocolHistoryFn(up)(protocol).value|
    ensures HistoryRowOf(protocol, ProtocolHistoryFn(up)(protocol).value[n])
  {
    ProtocolHistoryRows(up, protocol);
    assert ProtocolHistoryFn(up)(protocol) == ProtocolHistory(up, protocol);
  }

  /** A history row of the block of xs[j] sits after the blocks of xs[..j], and cleaning keeps
      its columns and protocol and canonicalises its chain. */
  lemma {:induction false} CleanHistoryRowsAt<N(!new)>(xs: seq<string>, f: string -> Result<Table<N>>, raw: Table<N>, j: nat, n: nat)
    requires ConcatMap(xs, f) == Ok(raw) && j < |xs|
    requires f(xs[j]).Ok? && n < |f(xs[j]).value| && HistoryRowOf(xs[j], f(xs[j]).value[n])
    ensures
      var rows := CleanChainColumn(raw);
      var k := Sum(xs[..j], Sizes(f)) + n;
      k < |rows| && Keys(rows[k]) == ["date", "chain", "protocol", "tvl"] &&
      Find(rows[k], "protocol") == Some(Str(xs[j])) &&
      Find(rows[k], "chain").value.Str? && IsCanonical(Find(rows[k], "chain").value.s)
  {
    ConcatMapBlockAt(xs, f, j, n);
    CleanHistoryRowAt(raw, Sum(xs[..j], Sizes(f)) + n, xs[j]);
  }

  /** Every row of the historical TVL of protocols names the protocol it came from, in the
      columns date, chain, protocol, tvl, with the chain canonicalised; the rows of
      protocols[j] follow those of the protocols before it. */
  lemma {:induction false} ProtocolHistoricalTvlRows<N(!new)>(up: Upstream<N>, protocols: seq<string>, j: nat, n: nat)
    requires ProtocolHistoricalTvl(up, Many(protocols), false).Ok?
    requires j < |protocols| && n < Sizes(ProtocolHistoryFn(up))(protocols[j])
    ensures
      var rows := ProtocolHistoricalTvl(up, Many(protocols), false).value.table;
      var k := Sum(protocols[..j], Sizes(ProtocolHistoryFn(up))) + n;
      k < |rows| && Keys(rows[k]) == ["date", "chain", "protocol", "tvl"] &&
      Find(rows[k], "protocol") == Some(Str(protocols[j])) &&
      Find(rows[k], "chain").value.Str? && IsCanonical(Find(rows[k], "chain").value.s)
  {
    var raw := ConcatMap(protocols, ProtocolHistoryFn(up)).value;
    assert ProtocolHistoricalTvl(up, Many(protocols), false) == Ok(Frame(CleanChainColumn(raw)));
    ProtocolHistoryCleanAt(up, protocols, raw, j, n);
  }

  /** The same on the concatenated rows, before they are put in a frame. */
  lemma {:induction false} ProtocolHistoryCleanAt<N(!new)>(up: Upstream<N>, protocols: seq<string>, raw: Table<N>, j: nat, n: nat)
    requires ConcatMap(protocols, ProtocolHistoryFn(up)) == Ok(raw)
    requires j < |protocols| && n < Sizes(ProtocolHistoryFn(up))(protocols[j])
    ensures
      var rows := CleanChainColumn(raw);
      var k := Sum(protocols[..j], Sizes(ProtocolHistoryFn(up))) + n;
      k < |rows| && Keys(rows[k]) == ["date", "chain", "protocol", "tvl"] &&
      Find(rows[k], "protocol") == Some(Str(protocols[j])) &&
      Find(rows[k], "chain").value.Str? && IsCanonical(Find(rows[k], "chain").value.s)
  {
    ProtocolHistoryBlockAt(up, protocols[j], n);
    ProtocolHistoryCleanStep(up, protocols, raw, j, n);
  }

  lemma {:induction false} ProtocolHistoryCleanStep<N(!new)>(up: Upstream<N>, protocols: seq<string>, raw: Table<N>, j: nat, n: nat)
    requires ConcatMap(protocols, ProtocolHistoryFn(up)) == Ok(raw) && j < |protocols|
    requires ProtocolHistoryFn(up)(protocols[j]).Ok? && n < |ProtocolHistoryFn(up)(protocols[j]).value|
    requires HistoryRowOf(protocols[j], ProtocolHistoryFn(up)(protocols[j]).value[n])
    ensures
      var rows := CleanChainColumn(raw);
      var k := Sum(protocols[..j], Sizes(ProtocolHistoryFn(up))) + n;
      k < |rows| && Keys(rows[k]) == ["date", "chain", "protocol", "tvl"] &&
      Find(rows[k], "protocol") == Some(Str(protocols[j])) &&
      Find(rows[k], "chain").value.Str? && IsCanonical(Find(rows[k], "chain").value.s)
  {
    CleanHistoryRowsAt(protocols, ProtocolHistoryFn(up), raw, j, n);
  }

  /** Cleaning keeps a history row's columns and protocol and canonicalises its chain. */
  lemma {:induction false} CleanHistoryRowAt<N(!new)>(t: Table<N>, k: nat, protocol: string)
    requires k < |t| && HistoryRowOf(protocol, t[k])
    ensures
      k < |CleanChainColumn(t)| && Keys(CleanChainColumn(t)[k]) == ["date", "chain", "protocol", "tvl"] &&
      Find(CleanChainColumn(t)[k], "protocol") == Some(Str(protocol)) &&
      Find(CleanChainColumn(t)[k], "chain").value.Str? && IsCanonical(Find(CleanChainColumn(t)[k], "chain").value.s)
  {
    CleanRowAt(t, k);
    CleanChainNameChars(Find(t[k], "chain").value.s);
  }

  // ---- get_all_chains_historical_tvl ----

  /** `get_all_chains_historical_tvl(raw)`: the response, or `pd.DataFrame(response)`. */
  function AllChainsHistoricalTvl<N(!new)>(up: Upstream<N>, raw: bool): (r: Result<Output<N>>)
    ensures raw ==> r == (var response :- Fetch(up, "TVL", "/v2/historicalChainTvl", None); Ok(Raw(response)))
    ensures !raw && r.Ok? ==> r.value.Frame? && Fetch(up, "TVL", "/v2/historicalChainTvl", None).Ok?
    ensures !raw && r.Ok? ==>
      (var response := Fetch(up, "TVL", "/v2/historicalChainTvl", None).value;
       response.Arr? && |r.value.table| == |response.items| &&
       forall i :: 0 <= i < |response.items| ==> response.items[i].Obj? && r.value.table[i] == response.items[i].fields)
    ensures !raw && Fetch(up, "TVL", "/v2/historicalChainTvl", None).Ok? ==>
      (var response := Fetch(up, "TVL", "/v2/historicalChainTvl", None).value;
       r.Ok? <==> response.Arr? && forall i :: 0 <= i < |response.items| ==> response.items[i].Obj?)
  {
    var response :- Fetch(up, "TVL", "/v2/historicalChainTvl", None);
    if raw then Ok(Raw(response))
    else
      var t :- RecordsFrame(response);
      Ok(Frame(t))
  }

  // ---- get_chain_historical_tvl ----

  /** `self._get('TVL', f'/v2/historicalChainTvl/{chain}')`. */
  function ChainDocument<N(!new)>(up: Upstream<N>, chain: string): Result<Json<N>> {
    Fetch(up, "TVL", "/v2/historicalChainTvl/" + chain, None)
  }

  function ChainDocumentFn<N(!new)>(up: Upstream<N>): string -> Result<Json<N>> {
    chain => ChainDocument(up, chain)
  }

  /** `entry['chain'] = chain`: the entry, updated in place, becomes the row. */
  function TaggedEntry<N(!new)>(chain: string, entry: Json<N>): (r: Result<Row<N>>)
    ensures r.Ok? <==> entry.Obj?
    ensures r.Ok? ==> Find(r.value, "chain") == Some(Str(chain))
    ensures r.Ok? ==> forall k :: k != "chain" ==> Find(r.value, k) == Find(entry.fields, k)
  {
    var tagged :- SetItem(entry, "chain", Str(chain));
    Ok(tagged.fields)
  }

  function TaggedEntryFn<N(!new)>(chain: string): Json<N> -> Result<Row<N>> {
    entry => TaggedEntry(chain, entry)
  }

  /** `for entry in data: entry['chain'] = chain; results.append(entry)`. */
  function TaggedRows<N(!new)>(chain: string, data: Json<N>): Result<Table<N>> {
    var entries :- Iterate(data);
    MapAll(entries, TaggedEntryFn(chain))
  }

  function ChainHistoryRows<N(!new)>(up: Upstream<N>, chain: string): Result<Table<N>> {
    var data :- ChainDocument(up, chain);
    TaggedRows(chain, data)
  }

  function ChainHistoryRowsFn<N(!new)>(up: Upstream<N>): string -> Result<Table<N>> {
    chain => ChainHistoryRows(up, chain)
  }

  /** `get_chain_historical_tvl(chains, raw)`. */
  function ChainHistoricalTvl<N(!new)>(up: Upstream<N>, chains: Selector, raw: bool): Result<Output<N>> {
    var keys := AsList(chains);
    if raw then
      var v :- SingleOrCollect(keys, ChainDocumentFn(up));
      Ok(Raw(v))
    else
      var rows :- ConcatMap(keys, ChainHistoryRowsFn(up));
      Ok(Frame(CleanChainColumn(rows)))
  }

  /** One step of the entry loop of GetChainHistoricalTvl, with the row stated through TaggedEntry. */
  lemma {:induction false} TaggedEntriesNext<N(!new)>(chain: string, entries: seq<Json<N>>, j: nat, block: Table<N>)
    requires j < |entries| && MapAll(entries[..j], TaggedEntryFn(chain)) == Ok(block)
    ensures var y := TaggedEntry(chain, entries[j]);
      (y.Ok? ==> MapAll(entries[..j + 1], TaggedEntryFn(chain)) == Ok(block + [y.value])) &&
      (y.Err? ==> MapAll(entries, TaggedEntryFn(chain)) == Err(y.error))
  {
    MapAllNext(entries, TaggedEntryFn(chain), j, block, TaggedEntry(chain, entries[j]));
  }

  /** The inner loop of GetChainHistoricalTvl: `for entry in data: entry['chain'] = chain; results.append(entry)`. */
  method TagEntries<N(!new)>(chain: string, entries: seq<Json<N>>) returns (r: Result<Table<N>>)
    ensures r == MapAll(entries, TaggedEntryFn(chain))
  {
    var rows: Table<N> := [];
    var j := 0;
    while j < |entries|
      invariant 0 <= j <= |entries|
      invariant MapAll(entries[..j], TaggedEntryFn(chain)) == Ok(rows)
    {
      var entry := TaggedEntry(chain, entries[j]);
      TaggedEntriesNext(chain, entries, j, rows);
      if entry.Err? {
        return Err(entry.error);
      }
      rows := rows + [entry.value];
      j := j + 1;
    }
    assert entries[..j] == entries;
    return Ok(rows);
  }

  /** One step of the chain loop of GetChainHistoricalTvl, with the block stated through ChainHistoryRows. */
  lemma {:induction false} ChainHistoryRowsNext<N(!new)>(up: Upstream<N>, keys: seq<string>, i: nat, blocks: seq<Table<N>>)
    requires i < |keys| && MapAll(keys[..i], ChainHistoryRowsFn(up)) == Ok(blocks)
    ensures var y := ChainHistoryRows(up, keys[i]);
      (y.Ok? ==> MapAll(keys[..i + 1], ChainHistoryRowsFn(up)) == Ok(blocks + [y.value])) &&
      (y.Ok? ==> Concat(blocks + [y.value]) == Concat(blocks) + y.value) &&
      (y.Err? ==> MapAll(keys, ChainHistoryRowsFn(up)) == Err(y.error))
  {
    ConcatMapNext(keys, ChainHistoryRowsFn(up), i, blocks, ChainHistoryRows(up, keys[i]));
  }

  method GetChainHistoricalTvl<N(!new)>(up: Upstream<N>, chains: Selector, raw: bool) returns (r: Result<Output<N>>)
    ensures r == ChainHistoricalTvl(up, chains, raw)
  {
    var keys := AsList(chains);
    if raw {
      if |keys| == 1 {
        var v :- ChainDocument(up, keys[0]);
        return Ok(Raw(v));
      }
      var results := CollectAll(keys, ChainDocumentFn(up));
      if results.Err? {
        return Err(results.error);
      }
      return Ok(Raw(Obj(results.value)));
    }
    var rows: Table<N> := [];
    ghost var blocks: seq<Table<N>> := [];
    var i := 0;
    while i < |keys|
      invariant 0 <= i <= |keys|
      invariant MapAll(keys[..i], ChainHistoryRowsFn(up)) == Ok(blocks)
      invariant rows == Concat(blocks)
    {
      ChainHistoryRowsNext(up, keys, i, blocks);
      var data := ChainDocument(up, keys[i]);
      if data.Err? {
        assert ChainHistoryRows(up, keys[i]) == Err(data.error);
        return Err(data.error);
      }
      var entriesOf := Iterate(data.value);
      if entriesOf.Err? {
        assert ChainHistoryRows(up, keys[i]) == Err(entriesOf.error);
        return Err(entriesOf.error);
      }
      var block := TagEntries(keys[i], entriesOf.value);
      assert ChainHistoryRows(up, keys[i]) == block;
      if block.Err? {
        return Err(block.error);
      }
      rows := rows + block.value;
      blocks := blocks + [block.value];
      i := i + 1;
    }
    assert keys[..i] == keys;
    return Ok(Frame(CleanChainColumn(rows)));
  }

  /** Entry n of a chain's document becomes row n of its block: the entry's fields with
      `chain` assigned the chain's name. */
  lemma {:induction false} TaggedRowsAt<N(!new)>(chain: string, data: Json<N>, entries: seq<Json<N>>, n: nat)
    requires TaggedRows(chain, data).Ok? && Iterate(data) == Ok(entries) && n < |entries|
    ensures entries[n].Obj? && n < |TaggedRows(chain, data).value|
    ensures TaggedRows(chain, data).value[n] == Put(entries[n].fields, "chain", Str(chain))
  {
    MapAllOkAt(entries, TaggedEntryFn(chain), n);
  }

  /** When the whole loop succeeds, entry n of the document of chains[j] is row n of its block. */
  lemma {:induction false} ChainHistoryBlockAt<N(!new)>(up: Upstream<N>, chains: seq<string>, j: nat, data: Json<N>, entries: seq<Json<N>>, n: nat)
    requires ConcatMap(chains, ChainHistoryRowsFn(up)).Ok?
    requires j < |chains| && ChainDocument(up, chains[j]) == Ok(data)
    requires Iterate(data) == Ok(entries) && n < |entries|
    ensures ChainHistoryRowsFn(up)(chains[j]).Ok? && n < |ChainHistoryRowsFn(up)(chains[j]).value| && entries[n].Obj?
    ensures ChainHistoryRowsFn(up)(chains[j]).value[n] == Put(entries[n].fields, "chain", Str(chains[j]))
  {
    MapAllOkAt(chains, ChainHistoryRowsFn(up), j);
    assert ChainHistoryRowsFn(up)(chains[j]) == TaggedRows(chains[j], data);
    TaggedRowsAt(chains[j], data, entries, n);
  }

  /** The entries of chains[j] come after those of the earlier chains, in order; each is the
      entry's own fields with `chain` assigned the canonical name of chains[j]. */
  lemma {:induction false} ChainHistoricalTvlRowAt<N(!new)>(up: Upstream<N>, chains: seq<string>, j: nat, data: Json<N>, entries: seq<Json<N>>, n: nat)
    requires ChainHistoricalTvl(up, Many(chains), false).Ok?
    requires j < |chains| && ChainDocument(up, chains[j]) == Ok(data)
    requires Iterate(data) == Ok(entries) && n < |entries|
    ensures
      var rows := ChainHistoricalTvl(up, Many(chains), false).value.table;
      var k := Sum(chains[..j], Sizes(ChainHistoryRowsFn(up))) + n;
      entries[n].Obj? && k < |rows| && rows[k] == Put(entries[n].fields, "chain", Str(CleanChainName(chains[j])))
  {
    var raw := ConcatMap(chains, ChainHistoryRowsFn(up)).value;
    assert ChainHistoricalTvl(up, Many(chains), false) == Ok(Frame(CleanChainColumn(raw)));
    ChainHistoryCleanAt(up, chains, raw, j, data, entries, n);
  }

  /** The same on the concatenated rows, before they are put in a frame. */
  lemma {:induction false} ChainHistoryCleanAt<N(!new)>(up: Upstream<N>, chains: seq<string>, raw: Table<N>, j: nat, data: Json<N>, entries: seq<Json<N>>, n: nat)
    requires ConcatMap(chains, ChainHistoryRowsFn(up)) == Ok(raw)
    requires j < |chains| && ChainDocument(up, chains[j]) == Ok(data)
    requires Iterate(data) == Ok(entries) && n < |entries|
    ensures
      var k := Sum(chains[..j], Sizes(ChainHistoryRowsFn(up))) + n;
      entries[n].Obj? && k < |CleanChainColumn(raw)| &&
      CleanChainColumn(raw)[k] == Put(entries[n].fields, "chain", Str(CleanChainName(chains[j])))
  {
    ChainHistoryBlockAt(up, chains, j, data, entries, n);
    ChainHistoryCleanStep(up, chains, raw, j, n, entries[n]);
  }

  lemma {:induction false} ChainHistoryCleanStep<N(!new)>(up: Upstream<N>, chains: seq<string>, raw: Table<N>, j: nat, n: nat, entry: Json<N>)
    requires ConcatMap(chains, ChainHistoryRowsFn(up)) == Ok(raw) && j < |chains|
    requires ChainHistoryRowsFn(up)(chains[j]).Ok? && n < |ChainHistoryRowsFn(up)(chains[j]).value| && entry.Obj?
    requires ChainHistoryRowsFn(up)(chains[j]).value[n] == Put(entry.fields, "chain", Str(chains[j]))
    ensures
      var k := Sum(chains[..j], Sizes(ChainHistoryRowsFn(up))) + n;
      k < |CleanChainColumn(raw)| && CleanChainColumn(raw)[k] == Put(entry.fields, "chain", Str(CleanChainName(chains[j])))
  {
    CleanTaggedRowAt(chains, ChainHistoryRowsFn(up), raw, j, n, chains[j], entry);
  }

  // ---- get_protocol_current_tvl ----

  /** `float(self._get('TVL', f'/tvl/{protocol}'))`; float parsing is the parameter `toFloat`. */
  function CurrentTvl<N(!new)>(up: Upstream<N>, toFloat: Json<N> -> Option<N>, protocol: string): Result<Json<N>> {
    var data :- Fetch(up, "TVL", "/tvl/" + protocol, None);
    match toFloat(data)
    case Some(x) => Ok(Num(x))
    case None => Err(NotANumber)
  }

  function CurrentTvlFn<N(!new)>(up: Upstream<N>, toFloat: Json<N> -> Option<N>): string -> Result<Json<N>> {
    protocol => CurrentTvl(up, toFloat, protocol)
  }

  function CurrentTvlRow<N(!new)>(up: Upstream<N>, toFloat: Json<N> -> Option<N>, protocol: string): Result<Row<N>> {
    var tvl :- CurrentTvl(up, toFloat, protocol);
    Ok([("protocol", Str(protocol)), ("tvl", tvl)])
  }

  function CurrentTvlRowFn<N(!new)>(up: Upstream<N>, toFloat: Json<N> -> Option<N>): string -> Result<Row<N>> {
    protocol => CurrentTvlRow(up, toFloat, protocol)
  }

  /** `get_protocol_current_tvl(protocols, raw)`. */
  function ProtocolCurrentTvl<N(!new)>(up: Upstream<N>, toFloat: Json<N> -> Option<N>, protocols: Selector, raw: bool): Result<Output<N>> {
    var keys := AsList(protocols);
    if raw then
      var v :- SingleOrCollect(keys, CurrentTvlFn(up, toFloat));
      Ok(Raw(v))
    else
      var rows :- MapAll(keys, CurrentTvlRowFn(up, toFloat));
      Ok(Frame(CleanChainColumn(rows)))
  }

  /** One step of the protocol loop of GetProtocolCurrentTvl, with the row stated through CurrentTvlRow. */
  lemma {:induction false} CurrentTvlRowsNext<N(!new)>(up: Upstream<N>, toFloat: Json<N> -> Option<N>, keys: seq<string>, i: nat, rows: Table<N>)
    requires i < |keys| && MapAll(keys[..i], CurrentTvlRowFn(up, toFloat)) == Ok(rows)
    ensures var y := CurrentTvlRow(up, toFloat, keys[i]);
      (y.Ok? ==> MapAll(keys[..i + 1], CurrentTvlRowFn(up, toFloat)) == Ok(rows + [y.value])) &&
      (y.Err? ==> MapAll(keys, CurrentTvlRowFn(up, toFloat)) == Err(y.error))
  {
    MapAllNext(keys, CurrentTvlRowFn(up, toFloat), i, rows, CurrentTvlRow(up, toFloat, keys[i]));
  }

  method GetProtocolCurrentTvl<N(!new)>(up: Upstream<N>, toFloat: Json<N> -> Option<N>, protocols: Selector, raw: bool) returns (r: Result<Output<N>>)
    ensures r == ProtocolCurrentTvl(up, toFloat, protocols, raw)
  {
    var keys := AsList(protocols);
    if raw {
      if |keys| == 1 {
        var v :- CurrentTvl(up, toFloat, keys[0]);
        return Ok(Raw(v));
      }
      var results := CollectAll(keys, CurrentTvlFn(up, toFloat));
      if results.Err? {
        return Err(results.error);
      }
      return Ok(Raw(Obj(results.value)));
    }
    var rows: Table<N> := [];
    var i := 0;
    while i < |keys|
      invariant 0 <= i <= |keys|
      invariant MapAll(keys[..i], CurrentTvlRowFn(up, toFloat)) == Ok(rows)
    {
      var tvl := CurrentTvl(up, toFloat, keys[i]);
      CurrentTvlRowsNext(up, toFloat, keys, i, rows);
      if tvl.Err? {
        return Err(tvl.error);
      }
      rows := rows + [[("protocol", Str(keys[i])), ("tvl", tvl.value)]];
      i := i + 1;
    }
    assert keys[..i] == keys;
    return Ok(Frame(CleanChainColumn(rows)));
  }

  /** Before canonicalisation: one row per requested protocol, none with a chain column. */
  lemma {:induction false} CurrentTvlRowsRaw<N(!new)>(up: Upstream<N>, toFloat: Json<N> -> Option<N>, protocols: seq<string>, rows: Table<N>)
    requires MapAll(protocols, CurrentTvlRowFn(up, toFloat)) == Ok(rows)
    ensures |rows| == |protocols| && !HasColumn(rows, "chain")
    ensures forall i :: 0 <= i < |protocols| ==>
      CurrentTvl(up, toFloat, protocols[i]).Ok? &&
      rows[i] == [("protocol", Str(protocols[i])), ("tvl", CurrentTvl(up, toFloat, protocols[i]).value)]
  {
    var f := CurrentTvlRowFn(up, toFloat);
    MapAllOk(protocols, f);
    forall i | 0 <= i < |rows|
      ensures CurrentTvl(up, toFloat, protocols[i]).Ok?
      ensures rows[i] == [("protocol", Str(protocols[i])), ("tvl", CurrentTvl(up, toFloat, protocols[i]).value)]
      ensures Find(rows[i], "chain").None?
    {
      var row := CurrentTvlRow(up, toFloat, protocols[i]);
      assert f(protocols[i]) == row;
      var tvl := CurrentTvl(up, toFloat, protocols[i]);
      assert row == Ok([("protocol", Str(protocols[i])), ("tvl", tvl.value)]);
      KeysOfTwo(rows[i], "protocol", "tvl");
    }
  }

  /** The frame has one row per requested protocol, repeats included, in order; it has no
      chain column, so canonicalisation leaves it as it is. */
  lemma {:induction false} ProtocolCurrentTvlRows<N(!new)>(up: Upstream<N>, toFloat: Json<N> -> Option<N>, protocols: seq<string>)
    requires ProtocolCurrentTvl(up, toFloat, Many(protocols), false).Ok?
    ensures
      var rows := ProtocolCurrentTvl(up, toFloat, Many(protocols), false).value.table;
      |rows| == |protocols| &&
      forall i :: 0 <= i < |protocols| ==>
        CurrentTvl(up, toFloat, protocols[i]).Ok? &&
        rows[i] == [("protocol", Str(protocols[i])), ("tvl", CurrentTvl(up, toFloat, protocols[i]).value)]
  {
    var rows := MapAll(protocols, CurrentTvlRowFn(up, toFloat)).value;
    assert ProtocolCurrentTvl(up, toFloat, Many(protocols), false) == Ok(Frame(CleanChainColumn(rows)));
    CurrentTvlRowsRaw(up, toFloat, protocols, rows);
  }

  // ---- get_all_chains_current_tvl ----

  /** `{'chain': entry.get('name'), 'tvl': entry.get('tvl')}`. */
  function ChainTvlRow<N(!new)>(entry: Json<N>): (r: Result<Row<N>>)
    ensures r.Ok? <==> entry.Obj?
    ensures r.Ok? ==> r.value == [("chain", Find(entry.fields, "name").GetOr(Null)), ("tvl", Find(entry.fields, "tvl").GetOr(Null))]
    ensures r.Ok? ==> Keys(r.value) == ["chain", "tvl"]
    ensures r.Ok? ==> Find(r.value, "chain") == Some(Find(entry.fields, "name").GetOr(Null))
    ensures r.Ok? ==> Find(r.value, "tvl") == Some(Find(entry.fields, "tvl").GetOr(Null))
  {
    match entry
    case Obj(fs) =>
      var row := [("chain", Find(fs, "name").GetOr(Null)), ("tvl", Find(fs, "tvl").GetOr(Null))];
      FindFirst(row, 1);
      KeysOfTwo(row, "chain", "tvl");
      Ok(row)
    case _ => Err(ShapeMismatch("get"))
  }

  /** `get_all_chains_current_tvl(raw)`. */
  function AllChainsCurrentTvl<N(!new)>(up: Upstream<N>, raw: bool): Result<Output<N>> {
    var response :- Fetch(up, "TVL", "/v2/chains", None);
    if raw then Ok(Raw(response))
    else
      var entries :- Iterate(response);
      var rows :- MapAll(entries, ChainTvlRow);
      Ok(Frame(CleanChainColumn(rows)))
  }

  /** One step of the loop of GetAllChainsCurrentTvl, with the row stated through ChainTvlRow. */
  lemma {:induction false} ChainTvlRowsNext<N(!new)>(entries: seq<Json<N>>, i: nat, rows: Table<N>)
    requires i < |entries| && MapAll(entries[..i], ChainTvlRow) == Ok(rows)
    ensures var y := ChainTvlRow(entries[i]);
      (y.Ok? ==> MapAll(entries[..i + 1], ChainTvlRow) == Ok(rows + [y.value])) &&
      (y.Err? ==> MapAll(entries, ChainTvlRow) == Err(y.error))
  {
    MapAllNext(entries, ChainTvlRow, i, rows, ChainTvlRow(entries[i]));
  }

  method GetAllChainsCurrentTvl<N(!new)>(up: Upstream<N>, raw: bool) returns (r: Result<Output<N>>)
    ensures r == AllChainsCurrentTvl(up, raw)
  {
    var response :- Fetch(up, "TVL", "/v2/chains", None);
    if raw {
      return Ok(Raw(response));
    }
    var entries :- Iterate(response);
    var rows: Table<N> := [];
    var i := 0;
    while i < |entries|
      invariant 0 <= i <= |entries|
      invariant MapAll(entries[..i], ChainTvlRow) == Ok(rows)
    {
      var row := ChainTvlRow(entries[i]);
      ChainTvlRowsNext(entries, i, rows);
      if row.Err? {
        return Err(row.error);
      }
      rows := rows + [row.value];
      i := i + 1;
    }
    assert entries[..i] == entries;
    return Ok(Frame(CleanChainColumn(rows)));
  }

  /** One row per chain entry, in order: the cleaned name (NaN where it is not a string) and the tvl. */
  lemma {:induction false} AllChainsCurrentTvlRows<N(!new)>(up: Upstream<N>, response: Json<N>)
    requires Fetch(up, "TVL", "/v2/chains", None) == Ok(response)
    requires AllChainsCurrentTvl(up, false).Ok?
    ensures Iterate(response).Ok?
    ensures
      var entries := Iterate(response).value;
      var rows := AllChainsCurrentTvl(up, false).value.table;
      |rows| == |entries| &&
      forall i :: 0 <= i < |entries| ==>
        (entries[i].Obj? &&
         rows[i] == [("chain", CleanCell(Find(entries[i].fields, "name").GetOr(Null))), ("tvl", Find(entries[i].fields, "tvl").GetOr(Null))])
  {
    var entries := Iterate(response).value;
    MapAllOk(entries, ChainTvlRow);
    var raw := MapAll(entries, ChainTvlRow).value;
    forall i | 0 <= i < |entries|
      ensures CleanChainColumn(raw)[i] == [("chain", CleanCell(Find(entries[i].fields, "name").GetOr(Null))), ("tvl", Find(entries[i].fields, "tvl").GetOr(Null))]
    {
      var row := raw[i];
      assert row == ChainTvlRow(entries[i]).value;
      KeysOfTwo(row, "chain", "tvl");
      assert Find(row, "chain") == Some(row[0].1);
      var cleaned := CleanChainColumn(raw)[i];
      RowOfTwo(cleaned, "chain", "tvl", CleanCell(row[0].1), row[1].1);
    }
  }
}
