/** The volume and fees methods of the client, for each family (dexs, derivatives, options,
    fees): the overview of all protocols (`get_dex_volume`, `get_perps_volume`,
    `get_options_volume`, `get_fees_revenue`), the fan-out over chains (`get_chain_*`) and
    the fan-out over protocols (`get_protocol_*`). */
module Markets {
  import opened Json
  import opened Blocks
  import opened Names
  import opened Frames
  import opened Transport
  import opened Fanout
  import opened Charts

  // ---- Overview ----

  /** The overview methods: `raw` returns the response; otherwise the selected chart is
      flattened, the aggregate by `pd.DataFrame(chart, columns=['date', col])`. */
  function Overview<N(!new)>(up: Upstream<N>, m: Market, params: Option<Params>, raw: bool): Result<Output<N>> {
    var response :- Fetch(up, Tag(m), "/overview/" + Segment(m), params);
    if raw then Ok(Raw(response))
    else
      var col :- ValueColumn(m, params);
      match Select(ExcludeChart(params), ExcludeBreakdown(params))
      case Aggregate =>
        var chart :- Subscript(response, "totalDataChart");
        var t :- PairsFrame(chart, "date", col);
        Ok(Frame(t))
      case Breakdown =>
        var chart :- Subscript(response, "totalDataChartBreakdown");
        var t :- BreakdownRows(chart, [], col);
        Ok(Frame(t))
  }

  method GetOverview<N(!new)>(up: Upstream<N>, m: Market, params: Option<Params>, raw: bool) returns (r: Result<Output<N>>)
    ensures r == Overview(up, m, params, raw)
  {
    var response :- Fetch(up, Tag(m), "/overview/" + Segment(m), params);
    if raw {
      return Ok(Raw(response));
    }
    var col :- ValueColumn(m, params);
    if Select(ExcludeChart(params), ExcludeBreakdown(params)) == Aggregate {
      var chart :- Subscript(response, "totalDataChart");
      var t :- PairsFrame(chart, "date", col);
      return Ok(Frame(t));
    } else {
      var chart :- Subscript(response, "totalDataChartBreakdown");
      var t :- FlattenBreakdown(chart, [], col);
      return Ok(Frame(t));
    }
  }

  /** In raw mode the overview is the response itself, whatever the flags. */
  lemma {:induction false} OverviewRaw<N(!new)>(up: Upstream<N>, m: Market, params: Option<Params>)
    requires Fetch(up, Tag(m), "/overview/" + Segment(m), params).Ok?
    ensures Overview(up, m, params, true) == Ok(Raw(Fetch(up, Tag(m), "/overview/" + Segment(m), params).value))
  {
  }

  /** Exactly one chart is flattened: with the aggregate selected every row has the columns
      `date` and the value, with the breakdown every row has `date`, `protocol` and the value. */
  lemma {:induction false} OverviewColumns<N(!new)>(up: Upstream<N>, m: Market, params: Option<Params>)
    requires Overview(up, m, params, false).Ok?
    ensures ValueColumn(m, params).Ok? && Overview(up, m, params, false).value.Frame?
    ensures
      var col := ValueColumn(m, params).value;
      var rows := Overview(up, m, params, false).value.table;
      col != "date" && col != "protocol" ==>
        forall k :: 0 <= k < |rows| ==>
          Keys(rows[k]) == if Select(ExcludeChart(params), ExcludeBreakdown(params)) == Aggregate
                           then ["date", col] else ["date", "protocol", col]
  {
    var response := Fetch(up, Tag(m), "/overview/" + Segment(m), params).value;
    var col := ValueColumn(m, params).value;
    match Select(ExcludeChart(params), ExcludeBreakdown(params))
    case Aggregate =>
      var chart := Subscript(response, "totalDataChart").value;
      OverviewAggregate(up, m, params, response, col, chart);
      if col != "date" && col != "protocol" {
        PairsFrameColumns(chart, "date", col);
      }
    case Breakdown =>
      var chart := Subscript(response, "totalDataChartBreakdown").value;
      OverviewBreakdown(up, m, params, response, col, chart);
      if col != "date" && col != "protocol" {
        BreakdownColumns(chart, [], col);
      }
  }

  /** The overview's frame when the aggregate series is selected. */
  lemma {:induction false} OverviewAggregate<N(!new)>(up: Upstream<N>, m: Market, params: Option<Params>, response: Json<N>, col: string, chart: Json<N>)
    requires Fetch(up, Tag(m), "/overview/" + Segment(m), params) == Ok(response)
    requires ValueColumn(m, params) == Ok(col)
    requires Select(ExcludeChart(params), ExcludeBreakdown(params)) == Aggregate
    requires Subscript(response, "totalDataChart") == Ok(chart)
    ensures Overview(up, m, params, false) == (var t :- PairsFrame(chart, "date", col); Ok(Frame(t)))
  {
  }

  /** The overview's frame when the breakdown is selected. */
  lemma {:induction false} OverviewBreakdown<N(!new)>(up: Upstream<N>, m: Market, params: Option<Params>, response: Json<N>, col: string, chart: Json<N>)
    requires Fetch(up, Tag(m), "/overview/" + Segment(m), params) == Ok(response)
    requires ValueColumn(m, params) == Ok(col)
    requires Select(ExcludeChart(params), ExcludeBreakdown(params)) == Breakdown
    requires Subscript(response, "totalDataChartBreakdown") == Ok(chart)
    ensures Overview(up, m, params, false) == (var t :- BreakdownRows(chart, [], col); Ok(Frame(t)))
  {
  }

  /** The documented defaults: with no query parameters at all the overview is the
      aggregate series, one row per pair `[ts, v]` of `totalDataChart`. */
  lemma {:induction false} OverviewDefault<N(!new)>(up: Upstream<N>, m: Market, response: Json<N>, chart: Json<N>)
    requires m != Fees
    requires Fetch(up, Tag(m), "/overview/" + Segment(m), None) == Ok(response)
    requires Subscript(response, "totalDataChart") == Ok(chart)
    ensures Overview(up, m, None, false) ==
      var t :- PairsFrame(chart, "date", "volume"); Ok(Frame(t))
  {
  }

  // ---- The no-data check shared by the fan-out methods ----

  /** `response.get("totalDataChart") is None and response.get("totalDataChartBreakdown") is None`
      raises; building its message reads `params.get('dataType', ...)`, which itself raises
      when params is None. */
  function CheckedResponse<N(!new)>(response: Json<N>, key: string, params: Option<Params>): (r: Result<Json<N>>)
    ensures r.Ok? <==> response.Obj? && (Find(response.fields, "totalDataChart").GetOr(Null) != Null ||
                                        Find(response.fields, "totalDataChartBreakdown").GetOr(Null) != Null)
    ensures r.Ok? ==> r.value == response
    ensures response.Obj? && r.Err? ==> r.error == (if params.None? then ParamsMissing else NoData(key))
  {
    match response
    case Obj(fs) =>
      if Find(fs, "totalDataChart").GetOr(Null).Null? && Find(fs, "totalDataChartBreakdown").GetOr(Null).Null? then
        if params.None? then Err(ParamsMissing) else Err(NoData(key))
      else Ok(response)
    case _ => Err(ShapeMismatch("get"))
  }

  // ---- Fan-out over chains ----

  /** The response for one chain: `_get(tag, f"/overview/{segment}/{chain}", params)` and the check. */
  function ChainResponse<N(!new)>(up: Upstream<N>, m: Market, params: Option<Params>, chain: string): Result<Json<N>> {
    var response :- Fetch(up, Tag(m), "/overview/" + Segment(m) + "/" + chain, params);
    CheckedResponse(response, chain, params)
  }

  function ChainResponseFn<N(!new)>(up: Upstream<N>, m: Market, params: Option<Params>): string -> Result<Json<N>> {
    chain => ChainResponse(up, m, params, chain)
  }

  /** The frame of one checked chain response: the selected chart flattened, tagged with the
      chain (as `df['chain'] = chain` or as a record entry) and passed to `_clean_chain_name`. */
  function ChainFrameOf<N(!new)>(response: Json<N>, m: Market, params: Option<Params>, chain: string): Result<Table<N>> {
    var col :- ValueColumn(m, params);
    match ChainSelect(params)
    case Aggregate =>
      var chart :- Subscript(response, "totalDataChart");
      var t :- PairsFrame(chart, "date", col);
      Ok(CleanChainColumn(SetColumn(t, "chain", Str(chain))))
    case Breakdown =>
      var chart :- Subscript(response, "totalDataChartBreakdown");
      var t :- BreakdownRows(chart, [("chain", Str(chain))], col);
      Ok(CleanChainColumn(t))
  }

  function ChainFrame<N(!new)>(up: Upstream<N>, m: Market, params: Option<Params>, chain: string): Result<Table<N>> {
    var response :- ChainResponse(up, m, params, chain);
    ChainFrameOf(response, m, params, chain)
  }

  function ChainFrameFn<N(!new)>(up: Upstream<N>, m: Market, params: Option<Params>): string -> Result<Table<N>> {
    chain => ChainFrame(up, m, params, chain)
  }

  /** The chain methods: raw collects the responses into a dict; otherwise the frames of the
      chains, in input order (repeats included), go to `pd.concat`, which rejects an empty list. */
  function ChainSummary<N(!new)>(up: Upstream<N>, m: Market, params: Option<Params>, chains: Selector, raw: bool): Result<Output<N>> {
    var keys := AsList(chains);
    if raw then
      var results :- Collect(keys, ChainResponseFn(up, m, params));
      Ok(Raw(Obj(results)))
    else
      var dfs :- MapAll(keys, ChainFrameFn(up, m, params));
      if |dfs| == 0 then Err(NothingToConcatenate) else Ok(Frame(Concat(dfs)))
  }

  method FlattenChain<N(!new)>(response: Json<N>, m: Market, params: Option<Params>, chain: string) returns (r: Result<Table<N>>)
    ensures r == ChainFrameOf(response, m, params, chain)
  {
    var col :- ValueColumn(m, params);
    if ChainSelect(params) == Aggregate {
      var chart :- Subscript(response, "totalDataChart");
      var t :- PairsFrame(chart, "date", col);
      return Ok(CleanChainColumn(SetColumn(t, "chain", Str(chain))));
    } else {
      var chart :- Subscript(response, "totalDataChartBreakdown");
      var t :- FlattenBreakdown(chart, [("chain", Str(chain))], col);
      return Ok(CleanChainColumn(t));
    }
  }

  /** The frame of one chain: its checked response, flattened. */
  method FetchChainFrame<N(!new)>(up: Upstream<N>, m: Market, params: Option<Params>, chain: string) returns (r: Result<Table<N>>)
    ensures r == ChainFrame(up, m, params, chain)
  {
    var response :- ChainResponse(up, m, params, chain);
    r := FlattenChain(response, m, params, chain);
  }

  /** One step of the loop of ChainFrames, with the chain's frame stated through ChainFrame. */
  lemma {:induction false} ChainFramesNext<N(!new)>(up: Upstream<N>, m: Market, params: Option<Params>, keys: seq<string>, i: nat, dfs: seq<Table<N>>)
    requires i < |keys| && MapAll(keys[..i], ChainFrameFn(up, m, params)) == Ok(dfs)
    ensures var y := ChainFrame(up, m, params, keys[i]);
      (y.Ok? ==> MapAll(keys[..i + 1], ChainFrameFn(up, m, params)) == Ok(dfs + [y.value])) &&
      (y.Err? ==> MapAll(keys, ChainFrameFn(up, m, params)) == Err(y.error))
  {
    MapAllNext(keys, ChainFrameFn(up, m, params), i, dfs, ChainFrame(up, m, params, keys[i]));
  }

  /** The chain loop outside raw mode: the frames of the chains, in input order. */
  method ChainFrames<N(!new)>(up: Upstream<N>, m: Market, params: Option<Params>, keys: seq<string>) returns (r: Result<seq<Table<N>>>)
    ensures r == MapAll(keys, ChainFrameFn(up, m, params))
  {
    var dfs: seq<Table<N>> := [];
    var i := 0;
    while i < |keys|
      invariant 0 <= i <= |keys|
      invariant MapAll(keys[..i], ChainFrameFn(up, m, params)) == Ok(dfs)
    {
      var df := FetchChainFrame(up, m, params, keys[i]);
      ChainFramesNext(up, m, params, keys, i, dfs);
      if df.Err? {
        return Err(df.error);
      }
      dfs := dfs + [df.value];
      i := i + 1;
    }
    assert keys[..i] == keys;
    return Ok(dfs);
  }

  /** The chain methods. `raw` does not change inside the loop, so the loop is taken apart
      into the collecting loop of raw mode and the frame loop of the other. */
  method GetChainSummary<N(!new)>(up: Upstream<N>, m: Market, params: Option<Params>, chains: Selector, raw: bool) returns (r: Result<Output<N>>)
    ensures r == ChainSummary(up, m, params, chains, raw)
  {
    var keys := AsList(chains);
    if raw {
      var results :- CollectAll(keys, ChainResponseFn(up, m, params));
      return Ok(Raw(Obj(results)));
    }
    var dfs :- ChainFrames(up, m, params, keys);
    if |dfs| == 0 {
      return Err(NothingToConcatenate);
    }
    return Ok(Frame(Concat(dfs)));
  }

  /** In raw mode the chain methods return a dict (even for one chain) whose keys are the
      distinct chains in first-occurrence order, each mapped to its response. */
  lemma {:induction false} ChainSummaryRaw<N(!new)>(up: Upstream<N>, m: Market, params: Option<Params>, chains: Selector)
    requires ChainSummary(up, m, params, chains, true).Ok?
    ensures ChainSummary(up, m, params, chains, true).value.Raw?
    ensures
      var out := ChainSummary(up, m, params, chains, true).value.json;
      out.Obj? && Keys(out.fields) == Dedup(AsList(chains)) &&
      forall k :: k in AsList(chains) ==>
        ChainResponse(up, m, params, k).Ok? && Find(out.fields, k) == Some(ChainResponse(up, m, params, k).value)
  {
    var keys := AsList(chains);
    var f := ChainResponseFn(up, m, params);
    CollectOk(keys, f);
    var results := Collect(keys, f).value;
    assert ChainSummary(up, m, params, chains, true) == Ok(Raw(Obj(results)));
    forall k | k in keys ensures ChainResponse(up, m, params, k).Ok? && Find(results, k) == Some(ChainResponse(up, m, params, k).value) {
      assert exists i :: 0 <= i < |keys| && keys[i] == k;
      assert f(k) == ChainResponse(up, m, params, k);
    }
  }

  /** Without any chain there is nothing to concatenate. */
  lemma {:induction false} ChainSummaryEmpty<N(!new)>(up: Upstream<N>, m: Market, params: Option<Params>)
    ensures ChainSummary(up, m, params, Many([]), false) == Err(NothingToConcatenate)
    ensures ChainSummary(up, m, params, Many([]), true) == Ok(Raw(Obj([])))
  {
  }

  /** The first chain whose response has neither chart stops the method with "No data",
      in either mode. */
  lemma {:induction false} ChainSummaryNoData<N(!new)>(up: Upstream<N>, m: Market, p: Params, chains: seq<string>, j: nat, response: Json<N>)
    requires j < |chains| && Fetch(up, Tag(m), "/overview/" + Segment(m) + "/" + chains[j], Some(p)) == Ok(response)
    requires response.Obj? && Find(response.fields, "totalDataChart").GetOr(Null) == Null
    requires Find(response.fields, "totalDataChartBreakdown").GetOr(Null) == Null
    requires forall i :: 0 <= i < j ==> ChainFrame(up, m, Some(p), chains[i]).Ok?
    requires forall i :: 0 <= i < j ==> ChainResponse(up, m, Some(p), chains[i]).Ok?
    ensures ChainSummary(up, m, Some(p), Many(chains), false) == Err(NoData(chains[j]))
    ensures ChainSummary(up, m, Some(p), Many(chains), true) == Err(NoData(chains[j]))
  {
    MapAllFirstError(chains, ChainFrameFn(up, m, Some(p)), j);
    CollectFirstError(chains, ChainResponseFn(up, m, Some(p)), j);
  }

  /** The breakdown row of a chain carries the chain entry as given. */
  lemma {:induction false} ChainEntryOfRow<N(!new)>(ts: Json<N>, chain: string, entity: string, col: string, v: Json<N>)
    requires col != "chain"
    ensures Find(EntityRow(ts, [("chain", Str(chain))], entity, col, v), "chain") == Some(Str(chain))
  {
    var ps := [("date", ts)] + [("chain", Str(chain))] + [("protocol", Str(entity)), (col, v)];
    assert ps[..3][..2] == ps[..2];
    assert Record(ps) == Put(Record(ps[..3]), col, v);
    assert Record(ps[..3]) == Put(Record(ps[..2]), "protocol", Str(entity));
  }

  /** Every row of the block of one timestamp of a chain's breakdown names the chain. */
  lemma {:induction false} BreakdownBlockChain<N(!new)>(chain: string, col: string, item: Json<N>)
    requires col != "chain" && BreakdownBlock([("chain", Str(chain))], col, item).Ok?
    ensures forall m :: 0 <= m < |BreakdownBlock([("chain", Str(chain))], col, item).value| ==>
      Find(BreakdownBlock([("chain", Str(chain))], col, item).value[m], "chain") == Some(Str(chain))
  {
    var scope := [("chain", Str(chain))];
    var pair := Unpack2(item).value;
    var rows := EntityRows(pair.0, scope, pair.1.fields, col);
    assert BreakdownBlock(scope, col, item).value == rows;
    forall m | 0 <= m < |rows| ensures Find(rows[m], "chain") == Some(Str(chain)) {
      ChainEntryOfRow(pair.0, chain, pair.1.fields[m].0, col, pair.1.fields[m].1);
    }
  }

  /** Every row of a chain's breakdown names the chain. */
  lemma {:induction false} BreakdownChainTagged<N(!new)>(chart: Json<N>, chain: string, col: string)
    requires col != "chain" && BreakdownRows(chart, [("chain", Str(chain))], col).Ok?
    ensures forall k :: 0 <= k < |BreakdownRows(chart, [("chain", Str(chain))], col).value| ==>
      Find(BreakdownRows(chart, [("chain", Str(chain))], col).value[k], "chain") == Some(Str(chain))
  {
    var scope := [("chain", Str(chain))];
    var items := Iterate(chart).value;
    var f := BreakdownFn(scope, col);
    var p := (row: Row<N>) => Find(row, "chain") == Some(Str(chain));
    forall i, n | 0 <= i < |items| && f(items[i]).Ok? && 0 <= n < |f(items[i]).value|
      ensures p(f(items[i]).value[n])
    {
      BreakdownBlockChain(chain, col, items[i]);
    }
    ConcatMapAll(items, f, p);
    assert BreakdownRows(chart, scope, col) == ConcatMap(items, f);
  }

  /** A table whose every row names the chain names its canonical form once cleaned. */
  lemma {:induction false} TaggedTableCleaned<N(!new)>(t: Table<N>, chain: string)
    requires forall k :: 0 <= k < |t| ==> Find(t[k], "chain") == Some(Str(chain))
    ensures forall k :: 0 <= k < |CleanChainColumn(t)| ==> Find(CleanChainColumn(t)[k], "chain") == Some(Str(CleanChainName(chain)))
  {
  }

  /** Every row of the frame of one chain carries the canonical name of that chain, unless
      the value column is itself called `chain`. */
  lemma {:induction false} ChainFrameTagged<N(!new)>(response: Json<N>, m: Market, params: Option<Params>, chain: string)
    requires ChainFrameOf(response, m, params, chain).Ok?
    requires ValueColumn(m, params).Ok? && ValueColumn(m, params).value != "chain"
    ensures forall k :: 0 <= k < |ChainFrameOf(response, m, params, chain).value| ==>
      Find(ChainFrameOf(response, m, params, chain).value[k], "chain") == Some(Str(CleanChainName(chain)))
  {
    var col := ValueColumn(m, params).value;
    if ChainSelect(params) == Breakdown {
      var chart := Subscript(response, "totalDataChartBreakdown").value;
      var t := BreakdownRows(chart, [("chain", Str(chain))], col).value;
      BreakdownChainTagged(chart, chain, col);
      TaggedTableCleaned(t, chain);
      assert ChainFrameOf(response, m, params, chain) == Ok(CleanChainColumn(t));
    } else {
      var chart := Subscript(response, "totalDataChart").value;
      var t := SetColumn(PairsFrame(chart, "date", col).value, "chain", Str(chain));
      TaggedTableCleaned(t, chain);
      assert ChainFrameOf(response, m, params, chain) == Ok(CleanChainColumn(t));
    }
  }

  /** The frame of the chain methods is the blocks of the chains concatenated in input order:
      row n of the block of chains[j] sits after the rows of the earlier blocks and carries the
      canonical name of chains[j]. */
  lemma {:induction false} ChainSummaryTagged<N(!new)>(up: Upstream<N>, m: Market, params: Option<Params>, chains: seq<string>, rows: Table<N>, j: nat, n: nat)
    requires ChainSummary(up, m, params, Many(chains), false) == Ok(Frame(rows))
    requires ValueColumn(m, params).Ok? && ValueColumn(m, params).value != "chain"
    requires j < |chains| && n < Sizes(ChainFrameFn(up, m, params))(chains[j])
    ensures
      var k := Sum(chains[..j], Sizes(ChainFrameFn(up, m, params))) + n;
      k < |rows| && Find(rows[k], "chain") == Some(Str(CleanChainName(chains[j])))
  {
    assert ConcatMap(chains, ChainFrameFn(up, m, params)) == Ok(rows);
    ChainRowsTagged(up, m, params, chains, rows, j, n);
  }

  /** Every row of the frame fetched for one chain carries its canonical name. */
  lemma {:induction false} ChainBlockTagged<N(!new)>(up: Upstream<N>, m: Market, params: Option<Params>, chain: string)
    requires ValueColumn(m, params).Ok? && ValueColumn(m, params).value != "chain"
    ensures ChainFrameFn(up, m, params)(chain).Ok? ==> forall k :: 0 <= k < |ChainFrameFn(up, m, params)(chain).value| ==>
      Find(ChainFrameFn(up, m, params)(chain).value[k], "chain") == Some(Str(CleanChainName(chain)))
  {
    if ChainFrame(up, m, params, chain).Ok? {
      var response := ChainResponse(up, m, params, chain).value;
      assert ChainFrame(up, m, params, chain) == ChainFrameOf(response, m, params, chain);
      ChainFrameTagged(response, m, params, chain);
    }
  }

  /** The canonical name a chain's rows carry. */
  function ChainTag<N(!new)>(chain: string): Json<N> {
    Str(CleanChainName(chain))
  }

  /** Every row of every frame the chain loop fetches carries the canonical name of its chain. */
  lemma {:induction false} ChainFramesKeyed<N(!new)>(up: Upstream<N>, m: Market, params: Option<Params>)
    requires ValueColumn(m, params).Ok? && ValueColumn(m, params).value != "chain"
    ensures KeyedBlocks(ChainFrameFn(up, m, params), "chain", ChainTag)
  {
    forall chain ensures ChainFrameFn(up, m, params)(chain).Ok? ==> forall k :: 0 <= k < |ChainFrameFn(up, m, params)(chain).value| ==>
      Find(ChainFrameFn(up, m, params)(chain).value[k], "chain") == Some(ChainTag(chain)) {
      ChainBlockTagged(up, m, params, chain);
    }
  }

  /** Row n of the block of chains[j] in the concatenated frames carries the canonical name of chains[j]. */
  lemma {:induction false} ChainRowsTagged<N(!new)>(up: Upstream<N>, m: Market, params: Option<Params>, chains: seq<string>, rows: Table<N>, j: nat, n: nat)
    requires ConcatMap(chains, ChainFrameFn(up, m, params)) == Ok(rows)
    requires ValueColumn(m, params).Ok? && ValueColumn(m, params).value != "chain"
    requires j < |chains| && n < Sizes(ChainFrameFn(up, m, params))(chains[j])
    ensures
      var k := Sum(chains[..j], Sizes(ChainFrameFn(up, m, params))) + n;
      k < |rows| && Find(rows[k], "chain") == Some(Str(CleanChainName(chains[j])))
  {
    ChainFramesKeyed(up, m, params);
    ConcatMapKeyed(chains, ChainFrameFn(up, m, params), rows, "chain", ChainTag, j, n);
  }

  // ---- Fan-out over protocols ----

  /** The response for one protocol: `_get(tag, f"/summary/{segment}/{protocol}", params)` and the check. */
  function ProtocolResponse<N(!new)>(up: Upstream<N>, m: Market, params: Option<Params>, protocol: string): Result<Json<N>> {
    var response :- Fetch(up, Tag(m), "/summary/" + Segment(m) + "/" + protocol, params);
    CheckedResponse(response, protocol, params)
  }

  function ProtocolResponseFn<N(!new)>(up: Upstream<N>, m: Market, params: Option<Params>): string -> Result<Json<N>> {
    protocol => ProtocolResponse(up, m, params, protocol)
  }

  /** The rows of one entry `protocol, data` of the collected responses. */
  function ProtocolBlock<N(!new)>(chart: Chart, col: string, entry: (string, Json<N>)): Result<Table<N>> {
    match chart
    case Aggregate =>
      var data :- Subscript(entry.1, "totalDataChart");
      PointRows(data, entry.0, col)
    case Breakdown =>
      var data :- Subscript(entry.1, "totalDataChartBreakdown");
      TwoLevelRows(data, entry.0, col)
  }

  function ProtocolBlockFn<N(!new)>(chart: Chart, col: string): ((string, Json<N>)) -> Result<Table<N>> {
    entry => ProtocolBlock(chart, col, entry)
  }

  /** The protocol methods: all responses are first collected into a dict (a repeated
      protocol keeps its first position); raw returns it; otherwise the flags are read from
      params (which must then be present) and each entry is flattened in dict order. No
      chain canonicalisation is applied. */
  function ProtocolSummary<N(!new)>(up: Upstream<N>, m: Market, params: Option<Params>, protocols: Selector, raw: bool): Result<Output<N>> {
    var results :- Collect(AsList(protocols), ProtocolResponseFn(up, m, params));
    if raw then Ok(Raw(Obj(results)))
    else
      var col :- ValueColumn(m, params);
      if params.None? then Err(ParamsMissing)
      else
        var chart := Select(ExcludeChart(params), ExcludeBreakdown(params));
        var rows :- ConcatMap(results, ProtocolBlockFn(chart, col));
        Ok(Frame(rows))
  }

  method FlattenProtocol<N(!new)>(chart: Chart, col: string, entry: (string, Json<N>)) returns (r: Result<Table<N>>)
    ensures r == ProtocolBlock(chart, col, entry)
  {
    if chart == Aggregate {
      var data :- Subscript(entry.1, "totalDataChart");
      r := FlattenPoints(data, entry.0, col);
    } else {
      var data :- Subscript(entry.1, "totalDataChartBreakdown");
      r := FlattenTwoLevel(data, entry.0, col);
    }
  }

  /** One step of the loop of FlattenProtocols, with the entry's block stated through ProtocolBlock. */
  lemma {:induction false} ProtocolBlocksNext<N(!new)>(chart: Chart, col: string, results: Fields<N>, j: nat, blocks: seq<Table<N>>)
    requires j < |results| && MapAll(results[..j], ProtocolBlockFn(chart, col)) == Ok(blocks)
    ensures var y := ProtocolBlock(chart, col, results[j]);
      (y.Ok? ==> MapAll(results[..j + 1], ProtocolBlockFn(chart, col)) == Ok(blocks + [y.value])) &&
      (y.Ok? ==> Concat(blocks + [y.value]) == Concat(blocks) + y.value) &&
      (y.Err? ==> MapAll(results, ProtocolBlockFn(chart, col)) == Err(y.error))
  {
    ConcatMapNext(results, ProtocolBlockFn(chart, col), j, blocks, ProtocolBlock(chart, col, results[j]));
  }

  /** The flatten loop of the protocol methods: every collected entry, in dict order. */
  method FlattenProtocols<N(!new)>(chart: Chart, col: string, results: Fields<N>) returns (r: Result<Table<N>>)
    ensures r == ConcatMap(results, ProtocolBlockFn(chart, col))
  {
    var allData: Table<N> := [];
    ghost var blocks: seq<Table<N>> := [];
    var j := 0;
    while j < |results|
      invariant 0 <= j <= |results|
      invariant MapAll(results[..j], ProtocolBlockFn(chart, col)) == Ok(blocks)
      invariant allData == Concat(blocks)
    {
      var block := FlattenProtocol(chart, col, results[j]);
      ProtocolBlocksNext(chart, col, results, j, blocks);
      if block.Err? {
        return Err(block.error);
      }
      var rows := block.value;
      allData := allData + rows;
      blocks := blocks + [rows];
      j := j + 1;
    }
    assert results[..j] == results;
    return Ok(allData);
  }

  method GetProtocolSummary<N(!new)>(up: Upstream<N>, m: Market, params: Option<Params>, protocols: Selector, raw: bool) returns (r: Result<Output<N>>)
    ensures r == ProtocolSummary(up, m, params, protocols, raw)
  {
    var results :- CollectAll(AsList(protocols), ProtocolResponseFn(up, m, params));
    if raw {
      return Ok(Raw(Obj(results)));
    }
    var col :- ValueColumn(m, params);
    if params.None? {
      return Err(ParamsMissing);
    }
    var chart := Select(ExcludeChart(params), ExcludeBreakdown(params));
    var allData :- FlattenProtocols(chart, col, results);
    return Ok(Frame(allData));
  }

  /** The rows of one protocol, fetched and flattened on its own. */
  function ProtocolRows<N(!new)>(up: Upstream<N>, m: Market, params: Option<Params>, chart: Chart, col: string, protocol: string): Result<Table<N>> {
    var response :- ProtocolResponse(up, m, params, protocol);
    ProtocolBlock(chart, col, (protocol, response))
  }

  function ProtocolRowsFn<N(!new)>(up: Upstream<N>, m: Market, params: Option<Params>, chart: Chart, col: string): string -> Result<Table<N>> {
    protocol => ProtocolRows(up, m, params, chart, col, protocol)
  }

  /** A repeated protocol is flattened once, at the position of its first occurrence: the
      frame is the rows of the distinct protocols, in first-occurrence order, laid end to end. */
  lemma {:induction false} ProtocolSummaryBlocks<N(!new)>(up: Upstream<N>, m: Market, p: Params, protocols: Selector)
    requires ProtocolSummary(up, m, Some(p), protocols, false).Ok?
    ensures ValueColumn(m, Some(p)).Ok?
    ensures
      var chart := Select(ExcludeChart(Some(p)), ExcludeBreakdown(Some(p)));
      var g := ProtocolRowsFn(up, m, Some(p), chart, ValueColumn(m, Some(p)).value);
      ProtocolSummary(up, m, Some(p), protocols, false) ==
        (var rows :- ConcatMap(Dedup(AsList(protocols)), g); Ok(Frame(rows)))
  {
    var keys := AsList(protocols);
    var chart := Select(ExcludeChart(Some(p)), ExcludeBreakdown(Some(p)));
    ProtocolSummaryFrame(up, m, Some(p), protocols);
    DistinctProtocolBlocks(up, m, p, keys, chart, ValueColumn(m, Some(p)).value);
  }

  /** A successful frame of the protocol methods is the flattening of the collected entries. */
  lemma {:induction false} ProtocolSummaryFrame<N(!new)>(up: Upstream<N>, m: Market, params: Option<Params>, protocols: Selector)
    requires ProtocolSummary(up, m, params, protocols, false).Ok?
    ensures params.Some? && ValueColumn(m, params).Ok? && Collect(AsList(protocols), ProtocolResponseFn(up, m, params)).Ok?
    ensures
      var results := Collect(AsList(protocols), ProtocolResponseFn(up, m, params)).value;
      var f := ProtocolBlockFn(Select(ExcludeChart(params), ExcludeBreakdown(params)), ValueColumn(m, params).value);
      ConcatMap(results, f).Ok? && ProtocolSummary(up, m, params, protocols, false) == Ok(Frame(ConcatMap(results, f).value))
  {
  }

  /** Flattening the collected entries is flattening the fetch of each distinct protocol. */
  lemma {:induction false} DistinctProtocolBlocks<N(!new)>(up: Upstream<N>, m: Market, p: Params, keys: seq<string>, chart: Chart, col: string)
    requires Collect(keys, ProtocolResponseFn(up, m, Some(p))).Ok?
    ensures MapAll(Collect(keys, ProtocolResponseFn(up, m, Some(p))).value, ProtocolBlockFn(chart, col)) ==
            MapAll(Dedup(keys), ProtocolRowsFn(up, m, Some(p), chart, col))
  {
    var fetch := ProtocolResponseFn(up, m, Some(p));
    CollectEntries(keys, fetch);
    var results := Collect(keys, fetch).value;
    var f := ProtocolBlockFn(chart, col);
    var g := ProtocolRowsFn(up, m, Some(p), chart, col);
    var distinct := Dedup(keys);
    forall i | 0 <= i < |results| ensures f(results[i]) == g(distinct[i]) {
      assert results[i] == (distinct[i], fetch(distinct[i]).value);
    }
    MapAllEquiv(results, f, distinct, g);
  }
}
