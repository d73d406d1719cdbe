/** The chart handling shared by the volume (dexs, derivatives, options) and fees methods:
    which of the two charts of a response is flattened, the name of its value column, and
    the three flatteners: the aggregate series `[[ts, v], ...]`, the one-level breakdown
    `[[ts, {entity: v}], ...]` and the two-level breakdown `[[ts, {chain: {version: v}}], ...]`. */
module Charts {
  import opened Json
  import opened Blocks
  import opened Names
  import opened Frames
  import opened Transport

  datatype Chart = Aggregate | Breakdown

  /** `params.get('excludeTotalDataChart', False) if params else False`. */
  function ExcludeChart(params: Option<Params>): bool {
    params.Some? && params.value.excludeTotalDataChart.GetOr(false)
  }

  /** `params.get('excludeTotalDataChartBreakdown', False) if params else False`. */
  function ExcludeBreakdown(params: Option<Params>): bool {
    params.Some? && params.value.excludeTotalDataChartBreakdown.GetOr(false)
  }

  /** The branches of the overview and protocol methods: `(F, T)` flattens the aggregate
      chart, `(T, F)` the breakdown, and equal flags fall back to the aggregate. */
  function Select(excludeChart: bool, excludeBreakdown: bool): (c: Chart)
    ensures c == Breakdown <==> excludeChart && !excludeBreakdown
  {
    if !excludeChart && excludeBreakdown then Aggregate
    else if excludeChart && !excludeBreakdown then Breakdown
    else Aggregate
  }

  /** The branches of the chain methods, which first test `not params`: absent or empty
      params select the aggregate, and otherwise the choice is that of `Select`. */
  function ChainSelect(params: Option<Params>): (c: Chart)
    ensures c == Select(ExcludeChart(params), ExcludeBreakdown(params))
    ensures params.None? || IsEmpty(params.value) ==> c == Aggregate
  {
    if params.None? || IsEmpty(params.value) || (!ExcludeChart(params) && ExcludeBreakdown(params)) then Aggregate
    else if ExcludeChart(params) && !ExcludeBreakdown(params) then Breakdown
    else Aggregate
  }

  /** The four families of methods that differ only in their path and value column. */
  datatype Market = Dexs | Derivatives | Options | Fees

  /** The path segment: `/overview/dexs`, `/summary/derivatives/{protocol}`, ... */
  function Segment(m: Market): string {
    match m
    case Dexs => "dexs"
    case Derivatives => "derivatives"
    case Options => "options"
    case Fees => "fees"
  }

  /** `'FEES'` for the fees methods and `'VOLUMES'` for the others. */
  function Tag(m: Market): (t: string)
    ensures t in ApiTags
  {
    if m == Fees then "FEES" else "VOLUMES"
  }

  /** The fees tag is used exactly by the fees methods, and every market's tag resolves to the
      host `https://api.llama.fi`. */
  lemma {:induction false} TagHost(m: Market)
    ensures Tag(m) == "FEES" <==> m == Fees
    ensures BaseUrl(Tag(m)) == Some(TvlUrl)
  {
    BaseUrlOf(Tag(m));
  }

  /** The value column: `volume` for the volume methods; for the fees methods the name
      derived from `params.get("dataType", "dailyFees")`, which raises when params is None. */
  function ValueColumn(m: Market, params: Option<Params>): (r: Result<string>)
    ensures m != Fees ==> r == Ok("volume")
    ensures m == Fees ==> (r.Err? <==> params.None?)
    ensures r.Err? ==> r.error == ParamsMissing
    ensures m == Fees && params.Some? && params.value.dataType.Some? ==> r == Ok(ColumnName(params.value.dataType.value))
    ensures m == Fees && params.Some? && params.value.dataType.None? ==> r == Ok("daily_fees")
  {
    if m != Fees then Ok("volume")
    else if params.None? then Err(ParamsMissing)
    else
      match params.value.dataType
      case Some(t) => Ok(ColumnName(t))
      case None => Ok("daily_fees")  // ColumnName("dailyFees"), by DocumentedColumnName
  }

  // ---- The one-level breakdown ----

  /** `{'date': ts, <scope>, 'protocol': entity, col: v}`; the scope is the chain entry of the
      chain methods and empty in the overview methods. */
  function EntityRow<N(!new)>(ts: Json<N>, scope: Fields<N>, entity: string, col: string, v: Json<N>): Row<N> {
    Record([("date", ts)] + scope + [("protocol", Str(entity)), (col, v)])
  }

  function EntityRows<N(!new)>(ts: Json<N>, scope: Fields<N>, entities: Fields<N>, col: string): (rows: Table<N>)
    ensures |rows| == |entities|
    ensures forall m :: 0 <= m < |entities| ==> rows[m] == EntityRow(ts, scope, entities[m].0, col, entities[m].1)
  {
    seq(|entities|, m requires 0 <= m < |entities| => EntityRow(ts, scope, entities[m].0, col, entities[m].1))
  }

  /** The rows of one item `timestamp, protocols = item`. */
  function BreakdownBlock<N(!new)>(scope: Fields<N>, col: string, item: Json<N>): Result<Table<N>> {
    var pair :- Unpack2(item);
    var entities :- Items(pair.1);
    Ok(EntityRows(pair.0, scope, entities, col))
  }

  function BreakdownFn<N(!new)>(scope: Fields<N>, col: string): Json<N> -> Result<Table<N>> {
    item => BreakdownBlock(scope, col, item)
  }

  /** `for item in chart: timestamp, protocols = item; for protocol, v in protocols.items(): records.append(...)`. */
  function BreakdownRows<N(!new)>(chart: Json<N>, scope: Fields<N>, col: string): Result<Table<N>> {
    var items :- Iterate(chart);
    ConcatMap(items, BreakdownFn(scope, col))
  }

  /** The number of entities of one breakdown item. */
  function EntityCount<N(!new)>(item: Json<N>): nat {
    var pair := Unpack2(item);
    if pair.Ok? && pair.value.1.Obj? then |pair.value.1.fields| else 0
  }

  /** The inner loop for one timestamp: one row per entity, in order. */
  method FlattenEntities<N(!new)>(ts: Json<N>, scope: Fields<N>, entities: Fields<N>, col: string) returns (rows: Table<N>)
    ensures rows == EntityRows(ts, scope, entities, col)
  {
    rows := [];
    var j := 0;
    while j < |entities|
      invariant 0 <= j <= |entities|
      invariant rows == EntityRows(ts, scope, entities[..j], col)
    {
      assert EntityRows(ts, scope, entities[..j + 1], col) ==
        EntityRows(ts, scope, entities[..j], col) + [EntityRow(ts, scope, entities[j].0, col, entities[j].1)];
      rows := rows + [EntityRow(ts, scope, entities[j].0, col, entities[j].1)];
      j := j + 1;
    }
    assert entities[..j] == entities;
  }

  /** The body of the outer loop: `timestamp, protocols = item`, then the inner loop. */
  method FlattenBreakdownItem<N(!new)>(scope: Fields<N>, col: string, item: Json<N>) returns (r: Result<Table<N>>)
    ensures r == BreakdownBlock(scope, col, item)
  {
    var pair :- Unpack2(item);
    var entities :- Items(pair.1);
    var rows := FlattenEntities(pair.0, scope, entities, col);
    return Ok(rows);
  }

  /** One step of the outer loop of FlattenBreakdown, with the item's block stated through BreakdownBlock. */
  lemma {:induction false} BreakdownNext<N(!new)>(items: seq<Json<N>>, scope: Fields<N>, col: string, i: nat, blocks: seq<Table<N>>)
    requires i < |items| && MapAll(items[..i], BreakdownFn(scope, col)) == Ok(blocks)
    ensures var y := BreakdownBlock(scope, col, items[i]);
      (y.Ok? ==> MapAll(items[..i + 1], BreakdownFn(scope, col)) == Ok(blocks + [y.value])) &&
      (y.Ok? ==> Concat(blocks + [y.value]) == Concat(blocks) + y.value) &&
      (y.Err? ==> MapAll(items, BreakdownFn(scope, col)) == Err(y.error))
  {
    ConcatMapNext(items, BreakdownFn(scope, col), i, blocks, BreakdownBlock(scope, col, items[i]));
  }

  method FlattenBreakdown<N(!new)>(chart: Json<N>, scope: Fields<N>, col: string) returns (r: Result<Table<N>>)
    ensures r == BreakdownRows(chart, scope, col)
  {
    var items :- Iterate(chart);
    var records: Table<N> := [];
    ghost var blocks: seq<Table<N>> := [];
    var i := 0;
    while i < |items|
      invariant 0 <= i <= |items|
      invariant MapAll(items[..i], BreakdownFn(scope, col)) == Ok(blocks)
      invariant records == Concat(blocks)
    {
      var block := FlattenBreakdownItem(scope, col, items[i]);
      BreakdownNext(items, scope, col, i, blocks);
      if block.Err? {
        return Err(block.error);
      }
      records := records + block.value;
      blocks := blocks + [block.value];
      i := i + 1;
    }
    assert items[..i] == items;
    return Ok(records);
  }

  // ---- The aggregate series of the protocol methods ----

  /** `{"timestamp": ts, "protocol": protocol, col: v}`. */
  function PointRow<N(!new)>(ts: Json<N>, protocol: string, col: string, v: Json<N>): Row<N> {
    Record([("timestamp", ts), ("protocol", Str(protocol)), (col, v)])
  }

  /** The row of one item `timestamp, v`. */
  function Point<N(!new)>(protocol: string, col: string, item: Json<N>): Result<Row<N>> {
    var pair :- Unpack2(item);
    Ok(PointRow(pair.0, protocol, col, pair.1))
  }

  function PointFn<N(!new)>(protocol: string, col: string): Json<N> -> Result<Row<N>> {
    item => Point(protocol, col, item)
  }

  /** `for timestamp, v in chart: all_data.append({...})`. */
  function PointRows<N(!new)>(chart: Json<N>, protocol: string, col: string): Result<Table<N>> {
    var items :- Iterate(chart);
    MapAll(items, PointFn(protocol, col))
  }

  /** One step of the loop of FlattenPoints, with the item's row stated through Point. */
  lemma {:induction false} PointRowsNext<N(!new)>(items: seq<Json<N>>, protocol: string, col: string, i: nat, done: Table<N>)
    requires i < |items| && MapAll(items[..i], PointFn(protocol, col)) == Ok(done)
    ensures var y := Point(protocol, col, items[i]);
      (y.Ok? ==> MapAll(items[..i + 1], PointFn(protocol, col)) == Ok(done + [y.value])) &&
      (y.Err? ==> MapAll(items, PointFn(protocol, col)) == Err(y.error))
  {
    MapAllNext(items, PointFn(protocol, col), i, done, Point(protocol, col, items[i]));
  }

  method FlattenPoints<N(!new)>(chart: Json<N>, protocol: string, col: string) returns (r: Result<Table<N>>)
    ensures r == PointRows(chart, protocol, col)
  {
    var items :- Iterate(chart);
    var records: Table<N> := [];
    var i := 0;
    while i < |items|
      invariant 0 <= i <= |items|
      invariant MapAll(items[..i], PointFn(protocol, col)) == Ok(records)
    {
      var row := Point(protocol, col, items[i]);
      PointRowsNext(items, protocol, col, i, records);
      if row.Err? {
        return Err(row.error);
      }
      records := records + [row.value];
      i := i + 1;
    }
    assert items[..i] == items;
    return Ok(records);
  }

  // ---- The two-level breakdown of the protocol methods ----

  /** `{"timestamp": ts, "chain": chain, "protocol": protocol, "protocol_version": version, col: v}`. */
  function VersionRow<N(!new)>(ts: Json<N>, chain: string, protocol: string, version: string, col: string, v: Json<N>): Row<N> {
    Record([("timestamp", ts), ("chain", Str(chain)), ("protocol", Str(protocol)), ("protocol_version", Str(version)), (col, v)])
  }

  function VersionRows<N(!new)>(ts: Json<N>, chain: string, protocol: string, versions: Fields<N>, col: string): (rows: Table<N>)
    ensures |rows| == |versions|
    ensures forall m :: 0 <= m < |versions| ==> rows[m] == VersionRow(ts, chain, protocol, versions[m].0, col, versions[m].1)
  {
    seq(|versions|, m requires 0 <= m < |versions| => VersionRow(ts, chain, protocol, versions[m].0, col, versions[m].1))
  }

  /** The rows of one chain entry `chain, protocols_data` of one timestamp. */
  function ChainBlock<N(!new)>(ts: Json<N>, protocol: string, col: string, entry: (string, Json<N>)): Result<Table<N>> {
    var versions :- Items(entry.1);
    Ok(VersionRows(ts, entry.0, protocol, versions, col))
  }

  function ChainFn<N(!new)>(ts: Json<N>, protocol: string, col: string): ((string, Json<N>)) -> Result<Table<N>> {
    entry => ChainBlock(ts, protocol, col, entry)
  }

  /** The rows of one item `timestamp, chains`. */
  function TwoLevelBlock<N(!new)>(protocol: string, col: string, item: Json<N>): Result<Table<N>> {
    var pair :- Unpack2(item);
    var chains :- Items(pair.1);
    ConcatMap(chains, ChainFn(pair.0, protocol, col))
  }

  function TwoLevelFn<N(!new)>(protocol: string, col: string): Json<N> -> Result<Table<N>> {
    item => TwoLevelBlock(protocol, col, item)
  }

  /** `for timestamp, chains in chart: for chain, d in chains.items(): for version, v in d.items(): ...`. */
  function TwoLevelRows<N(!new)>(chart: Json<N>, protocol: string, col: string): Result<Table<N>> {
    var items :- Iterate(chart);
    ConcatMap(items, TwoLevelFn(protocol, col))
  }

  /** The innermost loop: one row per version of one chain, in order. */
  method FlattenVersions<N(!new)>(ts: Json<N>, chain: string, protocol: string, versions: Fields<N>, col: string) returns (rows: Table<N>)
    ensures rows == VersionRows(ts, chain, protocol, versions, col)
  {
    rows := [];
    var k := 0;
    while k < |versions|
      invariant 0 <= k <= |versions|
      invariant rows == VersionRows(ts, chain, protocol, versions[..k], col)
    {
      assert VersionRows(ts, chain, protocol, versions[..k + 1], col) ==
        VersionRows(ts, chain, protocol, versions[..k], col) + [VersionRow(ts, chain, protocol, versions[k].0, col, versions[k].1)];
      rows := rows + [VersionRow(ts, chain, protocol, versions[k].0, col, versions[k].1)];
      k := k + 1;
    }
    assert versions[..k] == versions;
  }

  /** One step of the chain loop of FlattenChains, with the chain's block stated through ChainBlock. */
  lemma {:induction false} ChainsNext<N(!new)>(ts: Json<N>, chains: Fields<N>, protocol: string, col: string, j: nat, blocks: seq<Table<N>>)
    requires j < |chains| && MapAll(chains[..j], ChainFn(ts, protocol, col)) == Ok(blocks)
    ensures var y := ChainBlock(ts, protocol, col, chains[j]);
      (y.Ok? ==> MapAll(chains[..j + 1], ChainFn(ts, protocol, col)) == Ok(blocks + [y.value])) &&
      (y.Ok? ==> Concat(blocks + [y.value]) == Concat(blocks) + y.value) &&
      (y.Err? ==> MapAll(chains, ChainFn(ts, protocol, col)) == Err(y.error))
  {
    ConcatMapNext(chains, ChainFn(ts, protocol, col), j, blocks, ChainBlock(ts, protocol, col, chains[j]));
  }

  /** The inner two loops for one timestamp: one row per version of every chain, in order. */
  method FlattenChains<N(!new)>(ts: Json<N>, chains: Fields<N>, protocol: string, col: string) returns (r: Result<Table<N>>)
    ensures r == ConcatMap(chains, ChainFn(ts, protocol, col))
  {
    var records: Table<N> := [];
    ghost var blocks: seq<Table<N>> := [];
    var j := 0;
    while j < |chains|
      invariant 0 <= j <= |chains|
      invariant MapAll(chains[..j], ChainFn(ts, protocol, col)) == Ok(blocks)
      invariant records == Concat(blocks)
    {
      ChainsNext(ts, chains, protocol, col, j, blocks);
      var versionsOf := Items(chains[j].1);
      if versionsOf.Err? {
        return Err(versionsOf.error);
      }
      var block := FlattenVersions(ts, chains[j].0, protocol, versionsOf.value, col);
      records := records + block;
      blocks := blocks + [block];
      j := j + 1;
    }
    assert chains[..j] == chains;
    return Ok(records);
  }

  /** The body of the outer loop: `timestamp, chains = item`, then the inner loops. */
  method FlattenTimestamp<N(!new)>(protocol: string, col: string, item: Json<N>) returns (r: Result<Table<N>>)
    ensures r == TwoLevelBlock(protocol, col, item)
  {
    var pair :- Unpack2(item);
    var chains :- Items(pair.1);
    r := FlattenChains(pair.0, chains, protocol, col);
  }

  /** One step of the outer loop of FlattenTwoLevel, with the item's block stated through TwoLevelBlock. */
  lemma {:induction false} TwoLevelNext<N(!new)>(items: seq<Json<N>>, protocol: string, col: string, i: nat, blocks: seq<Table<N>>)
    requires i < |items| && MapAll(items[..i], TwoLevelFn(protocol, col)) == Ok(blocks)
    ensures var y := TwoLevelBlock(protocol, col, items[i]);
      (y.Ok? ==> MapAll(items[..i + 1], TwoLevelFn(protocol, col)) == Ok(blocks + [y.value])) &&
      (y.Ok? ==> Concat(blocks + [y.value]) == Concat(blocks) + y.value) &&
      (y.Err? ==> MapAll(items, TwoLevelFn(protocol, col)) == Err(y.error))
  {
    ConcatMapNext(items, TwoLevelFn(protocol, col), i, blocks, TwoLevelBlock(protocol, col, items[i]));
  }

  method FlattenTwoLevel<N(!new)>(chart: Json<N>, protocol: string, col: string) returns (r: Result<Table<N>>)
    ensures r == TwoLevelRows(chart, protocol, col)
  {
    var items :- Iterate(chart);
    var records: Table<N> := [];
    ghost var blocks: seq<Table<N>> := [];
    var i := 0;
    while i < |items|
      invariant 0 <= i <= |items|
      invariant MapAll(items[..i], TwoLevelFn(protocol, col)) == Ok(blocks)
      invariant records == Concat(blocks)
    {
      var block := FlattenTimestamp(protocol, col, items[i]);
      TwoLevelNext(items, protocol, col, i, blocks);
      if block.Err? {
        return Err(block.error);
      }
      records := records + block.value;
      blocks := blocks + [block.value];
      i := i + 1;
    }
    assert items[..i] == items;
    return Ok(records);
  }

  // ---- What the flatteners produce ----

  /** The aggregate series of a protocol yields one row per pair, in order, each carrying
      the pair's timestamp and value. */
  lemma {:induction false} PointRowsContents<N(!new)>(chart: Json<N>, protocol: string, col: string)
    requires PointRows(chart, protocol, col).Ok?
    ensures Iterate(chart).Ok?
    ensures |PointRows(chart, protocol, col).value| == |Iterate(chart).value|
    ensures forall i :: 0 <= i < |Iterate(chart).value| ==>
      Unpack2(Iterate(chart).value[i]).Ok? &&
      PointRows(chart, protocol, col).value[i] ==
        PointRow(Unpack2(Iterate(chart).value[i]).value.0, protocol, col, Unpack2(Iterate(chart).value[i]).value.1)
  {
    MapAllOk(Iterate(chart).value, PointFn(protocol, col));
  }

  /** Every block of the one-level breakdown has one row per entity. */
  lemma {:induction false} BreakdownBlockSizes<N(!new)>(items: seq<Json<N>>, scope: Fields<N>, col: string)
    ensures forall i :: 0 <= i < |items| && BreakdownFn(scope, col)(items[i]).Ok? ==>
      |BreakdownFn(scope, col)(items[i]).value| == EntityCount(items[i])
  {
  }

  /** The one-level breakdown has as many rows as there are entities over all timestamps. */
  lemma {:induction false} BreakdownRowCount<N(!new)>(chart: Json<N>, scope: Fields<N>, col: string)
    requires BreakdownRows(chart, scope, col).Ok?
    ensures Iterate(chart).Ok?
    ensures |BreakdownRows(chart, scope, col).value| == Sum(Iterate(chart).value, EntityCount)
  {
    var items := Iterate(chart).value;
    BreakdownBlockSizes(items, scope, col);
    ConcatMapLength(items, BreakdownFn(scope, col), EntityCount);
  }

  /** The rows come grouped by timestamp, in order, and within a group in the insertion
      order of the entities: entity m of item j is the row after all the rows of the
      earlier items, and it carries that item's timestamp. */
  lemma {:induction false} BreakdownRowAt<N(!new)>(chart: Json<N>, scope: Fields<N>, col: string, j: nat, m: nat)
    requires BreakdownRows(chart, scope, col).Ok?
    requires Iterate(chart).Ok? && j < |Iterate(chart).value| && m < EntityCount(Iterate(chart).value[j])
    ensures Unpack2(Iterate(chart).value[j]).Ok? && Unpack2(Iterate(chart).value[j]).value.1.Obj?
    ensures
      var items := Iterate(chart).value;
      var pair := Unpack2(items[j]).value;
      var k := Sum(items[..j], EntityCount) + m;
      k < |BreakdownRows(chart, scope, col).value| &&
      BreakdownRows(chart, scope, col).value[k] == EntityRow(pair.0, scope, pair.1.fields[m].0, col, pair.1.fields[m].1)
  {
    var items := Iterate(chart).value;
    BreakdownBlockSizes(items, scope, col);
    ConcatMapAt(items, BreakdownFn(scope, col), EntityCount, j, m);
  }

  /** The record of a breakdown row is its display, entry for entry, when the keys differ. */
  lemma {:induction false} EntityRowEntries<N(!new)>(ts: Json<N>, scope: Fields<N>, entity: string, col: string, v: Json<N>)
    requires DistinctKeys(scope)
    requires forall i :: 0 <= i < |scope| ==> scope[i].0 != "date" && scope[i].0 != "protocol" && scope[i].0 != col
    requires col != "date" && col != "protocol"
    ensures EntityRow(ts, scope, entity, col, v) == [("date", ts)] + scope + [("protocol", Str(entity)), (col, v)]
    ensures Find(EntityRow(ts, scope, entity, col, v), "date") == Some(ts)
    ensures DistinctKeys(EntityRow(ts, scope, entity, col, v))
  {
    var ps := [("date", ts)] + scope + [("protocol", Str(entity)), (col, v)];
    assert DistinctKeys(ps) by {
      forall a, b | 0 <= a < b < |ps| ensures ps[a].0 != ps[b].0 {
        if 0 < a && b <= |scope| {
          assert ps[a] == scope[a - 1] && ps[b] == scope[b - 1];
        }
      }
    }
    RecordOfDistinctKeys(ps);
  }

  /** The columns of one breakdown row: date, the scope, protocol, the value. */
  lemma {:induction false} EntityRowKeys<N(!new)>(ts: Json<N>, scope: Fields<N>, entity: string, col: string, v: Json<N>)
    requires DistinctKeys(scope)
    requires forall i :: 0 <= i < |scope| ==> scope[i].0 != "date" && scope[i].0 != "protocol" && scope[i].0 != col
    requires col != "date" && col != "protocol"
    ensures Keys(EntityRow(ts, scope, entity, col, v)) == ["date"] + Keys(scope) + ["protocol", col]
  {
    var head, tail := [("date", ts)], [("protocol", Str(entity)), (col, v)];
    EntityRowEntries(ts, scope, entity, col, v);
    assert EntityRow(ts, scope, entity, col, v) == head + scope + tail;
    KeysAppend(head, scope);
    KeysAppend(head + scope, tail);
    KeysOfOne(head, "date");
    KeysOfTwo(tail, "protocol", col);
    assert Keys(head + scope + tail) == ["date"] + Keys(scope) + ["protocol", col];
  }

  /** The cells of one breakdown record: the timestamp under `date`, every entry of the scope,
      the entity under `protocol` and its value under the value column. */
  lemma {:induction false} EntityRowCells<N(!new)>(ts: Json<N>, scope: Fields<N>, entity: string, col: string, v: Json<N>)
    requires DistinctKeys(scope)
    requires forall i :: 0 <= i < |scope| ==> scope[i].0 != "date" && scope[i].0 != "protocol" && scope[i].0 != col
    requires col != "date" && col != "protocol"
    ensures var row := EntityRow(ts, scope, entity, col, v);
      Keys(row) == ["date"] + Keys(scope) + ["protocol", col] &&
      Find(row, "date") == Some(ts) && Find(row, "protocol") == Some(Str(entity)) && Find(row, col) == Some(v) &&
      forall i :: 0 <= i < |scope| ==> Find(row, scope[i].0) == Some(scope[i].1)
  {
    var row := EntityRow(ts, scope, entity, col, v);
    EntityRowEntries(ts, scope, entity, col, v);
    EntityRowKeys(ts, scope, entity, col, v);
    FindDistinct(row);
    assert row[|scope| + 1] == ("protocol", Str(entity)) && row[|scope| + 2] == (col, v);
    forall i | 0 <= i < |scope| ensures Find(row, scope[i].0) == Some(scope[i].1) {
      assert row[i + 1] == scope[i];
    }
  }

  /** Row m of one timestamp's records holds the timestamp, the scope, the m-th entity and its value,
      under the columns `date`, the scope's keys, `protocol` and the value column. */
  lemma {:induction false} EntityRowsCells<N(!new)>(ts: Json<N>, scope: Fields<N>, entities: Fields<N>, col: string)
    requires DistinctKeys(scope)
    requires forall i :: 0 <= i < |scope| ==> scope[i].0 != "date" && scope[i].0 != "protocol" && scope[i].0 != col
    requires col != "date" && col != "protocol"
    ensures |EntityRows(ts, scope, entities, col)| == |entities|
    ensures forall m :: 0 <= m < |entities| ==>
      var row := EntityRows(ts, scope, entities, col)[m];
      Keys(row) == ["date"] + Keys(scope) + ["protocol", col] &&
      Find(row, "date") == Some(ts) && Find(row, "protocol") == Some(Str(entities[m].0)) &&
      Find(row, col) == Some(entities[m].1) &&
      forall i :: 0 <= i < |scope| ==> Find(row, scope[i].0) == Some(scope[i].1)
  {
    forall m | 0 <= m < |entities|
      ensures var row := EntityRows(ts, scope, entities, col)[m];
        Keys(row) == ["date"] + Keys(scope) + ["protocol", col] &&
        Find(row, "date") == Some(ts) && Find(row, "protocol") == Some(Str(entities[m].0)) &&
        Find(row, col) == Some(entities[m].1) &&
        forall i :: 0 <= i < |scope| ==> Find(row, scope[i].0) == Some(scope[i].1)
    {
      EntityRowCells(ts, scope, entities[m].0, col, entities[m].1);
    }
  }

  /** Every row of the block of one timestamp has those columns. */
  lemma {:induction false} BreakdownBlockColumns<N(!new)>(scope: Fields<N>, col: string, item: Json<N>)
    requires DistinctKeys(scope)
    requires forall i :: 0 <= i < |scope| ==> scope[i].0 != "date" && scope[i].0 != "protocol" && scope[i].0 != col
    requires col != "date" && col != "protocol"
    requires BreakdownBlock(scope, col, item).Ok?
    ensures forall m :: 0 <= m < |BreakdownBlock(scope, col, item).value| ==>
      Keys(BreakdownBlock(scope, col, item).value[m]) == ["date"] + Keys(scope) + ["protocol", col]
  {
    var pair := Unpack2(item).value;
    var rows := EntityRows(pair.0, scope, pair.1.fields, col);
    assert BreakdownBlock(scope, col, item).value == rows;
    forall m | 0 <= m < |rows| ensures Keys(rows[m]) == ["date"] + Keys(scope) + ["protocol", col] {
      EntityRowKeys(pair.0, scope, pair.1.fields[m].0, col, pair.1.fields[m].1);
    }
  }

  /** Every row of a breakdown has the same columns: date, the scope, protocol, the value.
      So a frame never mixes rows of the breakdown with rows of the aggregate. */
  lemma {:induction false} BreakdownColumns<N(!new)>(chart: Json<N>, scope: Fields<N>, col: string)
    requires DistinctKeys(scope)
    requires forall i :: 0 <= i < |scope| ==> scope[i].0 != "date" && scope[i].0 != "protocol" && scope[i].0 != col
    requires col != "date" && col != "protocol"
    requires BreakdownRows(chart, scope, col).Ok?
    ensures forall k :: 0 <= k < |BreakdownRows(chart, scope, col).value| ==>
      Keys(BreakdownRows(chart, scope, col).value[k]) == ["date"] + Keys(scope) + ["protocol", col]
  {
    var items := Iterate(chart).value;
    var f := BreakdownFn(scope, col);
    var p := (row: Row<N>) => Keys(row) == ["date"] + Keys(scope) + ["protocol", col];
    forall i, m | 0 <= i < |items| && f(items[i]).Ok? && 0 <= m < |f(items[i]).value|
      ensures p(f(items[i]).value[m])
    {
      BreakdownBlockColumns(scope, col, items[i]);
    }
    ConcatMapAll(items, f, p);
    assert BreakdownRows(chart, scope, col) == ConcatMap(items, f);
  }

  /** The number of versions of one chain entry. */
  function VersionCount<N(!new)>(entry: (string, Json<N>)): nat {
    if entry.1.Obj? then |entry.1.fields| else 0
  }

  /** The number of leaves of one two-level item. */
  function LeafCount<N(!new)>(item: Json<N>): nat {
    var pair := Unpack2(item);
    if pair.Ok? && pair.value.1.Obj? then Sum(pair.value.1.fields, VersionCount) else 0
  }

  lemma {:induction false} TwoLevelBlockSizes<N(!new)>(items: seq<Json<N>>, protocol: string, col: string)
    ensures forall i :: 0 <= i < |items| && TwoLevelFn(protocol, col)(items[i]).Ok? ==>
      |TwoLevelFn(protocol, col)(items[i]).value| == LeafCount(items[i])
  {
    forall i | 0 <= i < |items| && TwoLevelFn(protocol, col)(items[i]).Ok?
      ensures |TwoLevelFn(protocol, col)(items[i]).value| == LeafCount(items[i])
    {
      var pair := Unpack2(items[i]).value;
      ConcatMapLength(pair.1.fields, ChainFn(pair.0, protocol, col), VersionCount);
    }
  }

  /** The two-level breakdown has one row per leaf: the sum over timestamps and chains of
      the number of versions. */
  lemma {:induction false} TwoLevelRowCount<N(!new)>(chart: Json<N>, protocol: string, col: string)
    requires TwoLevelRows(chart, protocol, col).Ok?
    ensures Iterate(chart).Ok?
    ensures |TwoLevelRows(chart, protocol, col).value| == Sum(Iterate(chart).value, LeafCount)
  {
    var items := Iterate(chart).value;
    TwoLevelBlockSizes(items, protocol, col);
    ConcatMapLength(items, TwoLevelFn(protocol, col), LeafCount);
  }

  /** Every block of one timestamp's chains has one row per version. */
  lemma {:induction false} ChainBlockSizes<N(!new)>(chains: Fields<N>, ts: Json<N>, protocol: string, col: string)
    ensures forall i :: 0 <= i < |chains| && ChainFn(ts, protocol, col)(chains[i]).Ok? ==>
      |ChainFn(ts, protocol, col)(chains[i]).value| == VersionCount(chains[i])
  {
  }

  /** Within the block of one timestamp, version m of chain c follows the versions of the earlier chains. */
  lemma {:induction false} ChainsRowAt<N(!new)>(ts: Json<N>, chains: Fields<N>, protocol: string, col: string, c: nat, m: nat)
    requires ConcatMap(chains, ChainFn(ts, protocol, col)).Ok?
    requires c < |chains| && m < VersionCount(chains[c])
    ensures chains[c].1.Obj?
    ensures |ConcatMap(chains, ChainFn(ts, protocol, col)).value| == Sum(chains, VersionCount)
    ensures
      var k := Sum(chains[..c], VersionCount) + m;
      var v := chains[c].1.fields[m];
      k < |ConcatMap(chains, ChainFn(ts, protocol, col)).value| &&
      ConcatMap(chains, ChainFn(ts, protocol, col)).value[k] == VersionRow(ts, chains[c].0, protocol, v.0, col, v.1)
  {
    var g := ChainFn(ts, protocol, col);
    ChainBlockSizes(chains, ts, protocol, col);
    ConcatMapAt(chains, g, VersionCount, c, m);
    ConcatMapLength(chains, g, VersionCount);
    assert g(chains[c]).value == VersionRows(ts, chains[c].0, protocol, chains[c].1.fields, col);
  }

  /** Within the chart, row `inner` of the block of items[j] follows the leaves of the earlier items. */
  lemma {:induction false} TwoLevelItemAt<N(!new)>(items: seq<Json<N>>, protocol: string, col: string, j: nat, inner: nat)
    requires ConcatMap(items, TwoLevelFn(protocol, col)).Ok?
    requires j < |items| && inner < LeafCount(items[j])
    ensures TwoLevelFn(protocol, col)(items[j]).Ok? && |TwoLevelFn(protocol, col)(items[j]).value| == LeafCount(items[j])
    ensures Sum(items[..j], LeafCount) + inner < |ConcatMap(items, TwoLevelFn(protocol, col)).value|
    ensures ConcatMap(items, TwoLevelFn(protocol, col)).value[Sum(items[..j], LeafCount) + inner] ==
      TwoLevelFn(protocol, col)(items[j]).value[inner]
  {
    TwoLevelBlockSizes(items, protocol, col);
    ConcatMapAt(items, TwoLevelFn(protocol, col), LeafCount, j, inner);
  }

  /** Leaf m of chain c of item j is found after the leaves of the earlier items and of the
      earlier chains of item j; it carries the item's timestamp, the chain key as it was sent
      (no canonicalisation on this path), the queried protocol and the version key.
      (`TwoLevelRows(chart, ...)` is this ConcatMap over the items of the chart.) */
  lemma {:induction false} TwoLevelRowAt<N(!new)>(items: seq<Json<N>>, protocol: string, col: string, j: nat,
                         ts: Json<N>, chains: Fields<N>, c: nat, m: nat)
    requires ConcatMap(items, TwoLevelFn(protocol, col)).Ok?
    requires j < |items| && Unpack2(items[j]) == Ok((ts, Obj(chains)))
    requires c < |chains| && m < VersionCount(chains[c])
    ensures chains[c].1.Obj?
    ensures
      var rows := ConcatMap(items, TwoLevelFn(protocol, col)).value;
      var k := Sum(items[..j], LeafCount) + Sum(chains[..c], VersionCount) + m;
      var v := chains[c].1.fields[m];
      k < |rows| && rows[k] == VersionRow(ts, chains[c].0, protocol, v.0, col, v.1)
  {
    var f := TwoLevelFn(protocol, col);
    MapAllOkAt(items, f, j);
    assert f(items[j]) == ConcatMap(chains, ChainFn(ts, protocol, col));
    ChainsRowAt(ts, chains, protocol, col, c, m);
    var inner := Sum(chains[..c], VersionCount) + m;
    assert LeafCount(items[j]) == Sum(chains, VersionCount);
    TwoLevelItemAt(items, protocol, col, j, inner);
    var rows := ConcatMap(items, f).value;
    var block := f(items[j]).value;
    var v := chains[c].1.fields[m];
    assert rows[Sum(items[..j], LeafCount) + inner] == block[inner];
    assert block[inner] == VersionRow(ts, chains[c].0, protocol, v.0, col, v.1);
    var k := Sum(items[..j], LeafCount) + Sum(chains[..c], VersionCount) + m;
    assert k == Sum(items[..j], LeafCount) + inner;
  }

  /** Every row of a two-level breakdown names the queried protocol. */
  lemma {:induction false} TwoLevelProtocol<N(!new)>(chart: Json<N>, protocol: string, col: string)
    requires col != "protocol"
    requires TwoLevelRows(chart, protocol, col).Ok?
    ensures forall k :: 0 <= k < |TwoLevelRows(chart, protocol, col).value| ==>
      Find(TwoLevelRows(chart, protocol, col).value[k], "protocol") == Some(Str(protocol))
  {
    var items := Iterate(chart).value;
    var p := (row: Row<N>) => Find(row, "protocol") == Some(Str(protocol));
    forall i, n | 0 <= i < |items| && TwoLevelFn(protocol, col)(items[i]).Ok? && 0 <= n < |TwoLevelFn(protocol, col)(items[i]).value|
      ensures p(TwoLevelFn(protocol, col)(items[i]).value[n])
    {
      var pair := Unpack2(items[i]).value;
      var g := ChainFn(pair.0, protocol, col);
      forall c, m | 0 <= c < |pair.1.fields| && g(pair.1.fields[c]).Ok? && 0 <= m < |g(pair.1.fields[c]).value|
        ensures p(g(pair.1.fields[c]).value[m])
      {
        var entry := pair.1.fields[c];
        var version := entry.1.fields[m];
        VersionRowProtocol(pair.0, entry.0, protocol, version.0, col, version.1);
      }
      ConcatMapAll(pair.1.fields, g, p);
    }
    ConcatMapAll(items, TwoLevelFn(protocol, col), p);
  }

  lemma {:induction false} VersionRowProtocol<N(!new)>(ts: Json<N>, chain: string, protocol: string, version: string, col: string, v: Json<N>)
    requires col != "protocol"
    ensures Find(VersionRow(ts, chain, protocol, version, col, v), "protocol") == Some(Str(protocol))
  {
    var ps := [("timestamp", ts), ("chain", Str(chain)), ("protocol", Str(protocol)), ("protocol_version", Str(version)), (col, v)];
    assert ps[..4][..3] == ps[..3];
    assert ps[..3][..2] == ps[..2];
    assert Record(ps) == Put(Record(ps[..4]), col, v);
    assert Record(ps[..4]) == Put(Record(ps[..3]), "protocol_version", Str(version));
    assert Record(ps[..3]) == Put(Record(ps[..2]), "protocol", Str(protocol));
  }

  /** The cells of one version record, under the columns `timestamp`, `chain`, `protocol`,
      `protocol_version` and the value column. */
  lemma {:induction false} VersionRowCells<N(!new)>(ts: Json<N>, chain: string, protocol: string, version: string, col: string, v: Json<N>)
    requires col != "timestamp" && col != "chain" && col != "protocol" && col != "protocol_version"
    ensures var row := VersionRow(ts, chain, protocol, version, col, v);
      Keys(row) == ["timestamp", "chain", "protocol", "protocol_version", col] &&
      Find(row, "timestamp") == Some(ts) && Find(row, "chain") == Some(Str(chain)) &&
      Find(row, "protocol") == Some(Str(protocol)) && Find(row, "protocol_version") == Some(Str(version)) &&
      Find(row, col) == Some(v)
  {
    var ps := [("timestamp", ts), ("chain", Str(chain)), ("protocol", Str(protocol)), ("protocol_version", Str(version)), (col, v)];
    assert DistinctKeys(ps);
    RecordOfDistinctKeys(ps);
    assert Keys(ps) == ["timestamp", "chain", "protocol", "protocol_version", col];
    FindFirst(ps, 1);
    FindFirst(ps, 2);
    FindFirst(ps, 3);
    FindFirst(ps, 4);
  }

  /** Row m of one chain's records holds the timestamp, the chain, the protocol, the m-th version and its value. */
  lemma {:induction false} VersionRowsCells<N(!new)>(ts: Json<N>, chain: string, protocol: string, versions: Fields<N>, col: string)
    requires col != "timestamp" && col != "chain" && col != "protocol" && col != "protocol_version"
    ensures |VersionRows(ts, chain, protocol, versions, col)| == |versions|
    ensures forall m :: 0 <= m < |versions| ==>
      var row := VersionRows(ts, chain, protocol, versions, col)[m];
      Keys(row) == ["timestamp", "chain", "protocol", "protocol_version", col] &&
      Find(row, "timestamp") == Some(ts) && Find(row, "chain") == Some(Str(chain)) &&
      Find(row, "protocol") == Some(Str(protocol)) && Find(row, "protocol_version") == Some(Str(versions[m].0)) &&
      Find(row, col) == Some(versions[m].1)
  {
    forall m | 0 <= m < |versions|
      ensures var row := VersionRows(ts, chain, protocol, versions, col)[m];
        Keys(row) == ["timestamp", "chain", "protocol", "protocol_version", col] &&
        Find(row, "timestamp") == Some(ts) && Find(row, "chain") == Some(Str(chain)) &&
        Find(row, "protocol") == Some(Str(protocol)) && Find(row, "protocol_version") == Some(Str(versions[m].0)) &&
        Find(row, col) == Some(versions[m].1)
    {
      VersionRowCells(ts, chain, protocol, versions[m].0, col, versions[m].1);
    }
  }
}
