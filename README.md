# defillama-py response normalisation, modelled in Dafny

`defillama-py` is a thin client for the DefiLlama HTTP APIs. Around each HTTP request sits a set of
deterministic transformations. They turn the nested JSON the provider sends into flat records,
which the client hands to pandas. This project models that logic, and proves what the client
promises about it.

The transformations are:

- resolving an API tag to a base URL;
- canonicalising chain names;
- deriving the value column of the fees endpoints from `dataType`;
- choosing between the aggregate chart and the breakdown chart from the two exclude flags;
- flattening the aggregate, one-level and two-level charts;
- the TVL flatteners;
- the four identifier listings;
- the multi-key fan-out of the chain, protocol and TVL methods.

Modules, one file each, in dependency order:

- `Json` (json.dfy): JSON values with opaque numbers (`Json<N>`), and objects as association lists, so `.items()` keeps insertion order. It also holds the Python operations the client applies to them, each with its own error behaviour:
  - `x[k]`, `x.get(k, d)` and iteration;
  - `a, b = x` and `.items()`;
  - `d[k] = v` and dict displays.
- `Blocks` (blocks.dfy): the shape shared by every append loop. Visit the elements in order, compute a block for each, stop at the first exception, and concatenate (`MapAll`, `ConcatMap`). It has lemmas on lengths, positions and per-element properties.
- `Names` (names.dfy): `_clean_chain_name` on one name, and the `dataType` → column-name expression.
- `Frames` (frames.dfy): DataFrames as sequences of records; `_clean_chain_name` on a frame; the `pd.DataFrame(pairs, columns=[a, b])` and `pd.DataFrame(records)` constructors.
- `Transport` (transport.dfy): the base-URL table and `_get`. The provider is a parameter `Upstream<N>`: the decoded body for a URL and query, or nothing when the request fails.
- `Fanout` (fanout.dfy): the `str | List[str]` argument, and the `results = {}; results[k] = ...` collection, in which repeated keys collapse into one entry.
- `Charts` (charts.dfy): chart selection, value columns, and the three chart flatteners. Each loop-based flattener is a method proved equal to its specification function.
- `Markets` (markets.dfy): the overview, chain and protocol methods of the four market families: dexs, derivatives (perps), options and fees. The four families are textual copies that differ only in tag, path segment and value column, so each shape is one generic member parameterised by `Market`.
- `Tvl` (tvl.dfy): the six TVL methods.
- `Mappings` (mappings.dfy): `get_chains`, `get_protocols`, `get_stablecoins` and `get_pools`.

Every loop of the client is a `method` with a `while` loop and invariants, whose `ensures` ties its result to the specification function that the lemmas are about.

The code is followed where it differs from its documentation or tests:

- `_clean_chain_name` replaces every hyphen or whitespace character by one underscore. A run of them is not collapsed into one.
- The tag table has eight tags.
- Equal exclude flags select the aggregate chart. The code raises no error there.
- `params=None` on a path that calls `params.get` fails with `ParamsMissing`, the AttributeError, rather than being ruled out by a precondition. Those paths are:
  - the fees overview;
  - the chain fees column;
  - the non-raw protocol methods;
  - the "No data" message.

## Model

| member | source | states |
|---|---|---|
| Transport.BaseUrl | src/defillama_py/client.py:43-56 | a host is found exactly for the eight tags, and it is never empty, so `if not base_url` rejects exactly the unknown tags |
| Transport.SharedHost | src/defillama_py/client.py:21-26 | TVL, VOLUMES and FEES resolve to `https://api.llama.fi`; no other two tags share a host |
| Transport.BaseUrlOf | src/defillama_py/client.py:43-54 | the host `BASE_URLS` gives each of the eight tags, and no host for any other tag |
| Transport.RequestUrl | src/defillama_py/client.py:54-58 | an unknown tag fails with the "not a valid API tag" error; otherwise the URL is the tag's base followed by the endpoint |
| Transport.Fetch | src/defillama_py/client.py:39-72 | an unknown tag fails before the provider is consulted, whatever it would answer; otherwise the result is the provider's body for `base + endpoint`, or a request failure naming that URL |
| Names.CleanChainNameChars | src/defillama_py/client.py:81-82 | the length is kept; each character is lower-cased, or becomes `_` when it is a hyphen or whitespace; the result has no hyphen, whitespace or upper-case letter |
| Names.CleanChainNameIdempotent | src/defillama_py/client.py:81-82 | canonicalising twice is canonicalising once |
| Names.CanonicalIffFixed | src/defillama_py/client.py:81-82 | a name is left unchanged exactly when it is already canonical |
| Names.ColumnName | src/defillama_py/client.py:1108-1109 | the fees column name has no upper-case letter |
| Names.ColumnNameOfPrefixed | src/defillama_py/client.py:1108-1109 | `daily` or `total` followed by a rest that mentions neither gives the prefix, `_`, and the rest in lower case |
| Names.DocumentedColumnName | src/defillama_py/client.py:1108-1109 | the documented data types `dailyFees`, `dailyRevenue`, `totalFees` and `totalRevenue` give `daily_fees`, `daily_revenue`, `total_fees` and `total_revenue` |
| Frames.CleanChainColumn | src/defillama_py/client.py:75-84 | rows, columns and every non-chain cell are kept; a chain cell is replaced by its canonical form, and one that is not a string by NaN (which is pandas' result when the column also holds a string); without a chain column the frame is unchanged |
| Frames.CleanChainColumnIdempotent | src/defillama_py/client.py:75-84 | cleaning a frame twice is cleaning it once |
| Frames.CleanRowAt | src/defillama_py/client.py:75-84 | row `k` of the cleaned frame has the columns of row `k`; its chain cell is the cleaned cell and every other cell is kept |
| Frames.CleanTaggedRow | src/defillama_py/client.py:75-84 | a row whose chain was assigned a string is, once cleaned, the same assignment with the canonical name |
| Frames.CleanTaggedRowAt | src/defillama_py/client.py:75-84 | a tagged row of the block of `xs[j]` sits after the blocks of the earlier elements and carries the canonical chain name once the frame is cleaned |
| Frames.SetColumn | src/defillama_py/client.py:660 | `df['chain'] = chain` sets that cell in every row and leaves every other cell alone |
| Frames.PairsFrame | src/defillama_py/client.py:611 | `pd.DataFrame(chart, columns=[a, b])`: null gives the empty frame; a list succeeds exactly when every item is a pair (pandas also pads shorter items; see Left out), with one row per pair, in order, `{a: first, b: second}`; a number, string or boolean fails, and so does a dict, which pandas would accept |
| Frames.PairsFrameColumns | src/defillama_py/client.py:611 | for two different column names, every row of a pairs frame has exactly those two columns, in the order given |
| Frames.RecordsFrame | src/defillama_py/client.py:272 | `pd.DataFrame(records)` succeeds exactly on a list of dicts, with one row per dict, in order, holding its entries |
| Json.Put | src/defillama_py/client.py:307 | after `d[k] = v`, `k` finds `v` and every other key finds what it found before |
| Json.PutKeys | src/defillama_py/client.py:231 | assignment keeps the key order: a present key stays in place, a new key is appended |
| Json.PutAppends | src/defillama_py/client.py:307 | assigning a key the dict does not hold appends its entry at the end |
| Json.PutPresentKeys | src/defillama_py/client.py:229-231 | assigning a key the dict already holds keeps its keys as they are, in order |
| Json.PutPut | src/defillama_py/client.py:229-231 | assigning the same key twice is assigning the second value only |
| Json.Subscript | src/defillama_py/client.py:108-109 | `x[k]` succeeds exactly on a dict holding `k`, with its value; a dict without `k` raises the KeyError for `k` |
| Json.GetOr | src/defillama_py/client.py:195 | `x.get(k, d)` succeeds exactly on a dict: the value when `k` is present, `d` otherwise |
| Json.Unpack2 | src/defillama_py/client.py:616 | unpacking a list succeeds exactly when it has two elements, and yields them in order |
| Json.SetItem | src/defillama_py/client.py:307 | `entry['chain'] = chain` succeeds exactly on a dict; the key then finds the new value and every other key is unchanged |
| Blocks.MapAllOk | src/defillama_py/client.py:190-203 | a loop that appends one result per element succeeds exactly when every element does; it then keeps order and values |
| Blocks.MapAllFirstError | src/defillama_py/client.py:190-203 | a failing loop reports the exception of the first element that fails |
| Blocks.ConcatMapLength | src/defillama_py/client.py:614-618 | the rows of nested append loops number the sum of the block sizes |
| Blocks.ConcatMapAt | src/defillama_py/client.py:614-618 | row `m` of the block of element `j` sits right after the rows of the elements before `j` |
| Blocks.ConcatMapAll | src/defillama_py/client.py:614-618 | a property that every row of every block has, every row of the result has |
| Charts.Select | src/defillama_py/client.py:610-624 | the breakdown is flattened exactly for `(excludeChart, excludeBreakdown) = (T, F)`; `(F, T)` and equal flags give the aggregate |
| Charts.ChainSelect | src/defillama_py/client.py:658-676 | the chain methods' branches, which test `not params` first, select what `Select` selects; absent or empty params give the aggregate |
| Charts.ValueColumn | src/defillama_py/client.py:1108-1109 | `volume` for the volume families; for fees, a ParamsMissing error exactly when params is None, and `daily_fees` when no `dataType` is given |
| Charts.Tag | src/defillama_py/client.py:602 | every market family uses a valid API tag |
| Charts.TagHost | src/defillama_py/client.py:43-52 | the tag is `FEES` exactly for the fees family, and every family's tag resolves to the host `https://api.llama.fi` |
| Charts.EntityRowsCells | src/defillama_py/client.py:617-618 | one record per entity of the map, in insertion order; record m has the columns `date`, the scope's keys, `protocol` and the value column, in that order, holding the timestamp, each scope value, the m-th entity name and its value |
| Charts.FlattenEntities | src/defillama_py/client.py:617-618 | the loop over one entity map returns exactly `EntityRows` |
| Charts.FlattenBreakdownItem | src/defillama_py/client.py:616-618 | unpacking one item and running the inner loop return exactly the block of that timestamp |
| Charts.FlattenBreakdown | src/defillama_py/client.py:614-618 | the nested loop over timestamps and entities returns exactly `BreakdownRows` |
| Charts.BreakdownRowCount | src/defillama_py/client.py:614-618 | the one-level breakdown has as many rows as there are entities over all timestamps |
| Charts.BreakdownRowAt | src/defillama_py/client.py:614-618 | the rows come grouped by timestamp in input order, each group in the insertion order of its entity map; each row is the record of its own timestamp, entity and value |
| Charts.EntityRowEntries | src/defillama_py/client.py:617-618 | with distinct keys a breakdown record is its display, and its `date` is the enclosing timestamp |
| Charts.BreakdownColumns | src/defillama_py/client.py:614-618 | every breakdown row has the same columns: `date`, the scope, `protocol` and the value column |
| Charts.EntityRowKeys | src/defillama_py/client.py:618 | a breakdown record has the columns `date`, the scope's keys, `protocol` and the value column, in that order |
| Charts.BreakdownBlockColumns | src/defillama_py/client.py:616-618 | every row of the block of one timestamp has those columns |
| Charts.BreakdownBlockSizes | src/defillama_py/client.py:614-618 | the block of each timestamp has one row per entity of its map |
| Charts.FlattenPoints | src/defillama_py/client.py:723-728 | the protocol methods' aggregate loop returns exactly `PointRows` |
| Charts.PointRowsContents | src/defillama_py/client.py:723-728 | one row per `[ts, v]` pair, in order, `{timestamp: ts, protocol, col: v}` |
| Charts.VersionRowsCells | src/defillama_py/client.py:734-741 | one record per version of a chain entry, in insertion order; record m has the columns `timestamp`, `chain`, `protocol`, `protocol_version` and the value column, holding the timestamp, the chain, the protocol, the m-th version name and its value |
| Charts.FlattenVersions | src/defillama_py/client.py:734-741 | the innermost loop returns exactly `VersionRows` |
| Charts.FlattenChains | src/defillama_py/client.py:733-741 | the two inner loops of the two-level breakdown, for one timestamp, return the chains' version rows concatenated in order |
| Charts.FlattenTwoLevel | src/defillama_py/client.py:731-741 | the triple loop returns exactly `TwoLevelRows` |
| Charts.FlattenTimestamp | src/defillama_py/client.py:732-741 | unpacking one item and running the inner loops return exactly the block of that timestamp |
| Charts.ChainBlockSizes | src/defillama_py/client.py:733-741 | the block of each chain has one row per version of its map |
| Charts.TwoLevelBlockSizes | src/defillama_py/client.py:731-741 | the block of each timestamp has one row per leaf below it |
| Charts.TwoLevelItemAt | src/defillama_py/client.py:731-741 | row `inner` of the block of item `j` sits right after the leaves of the earlier items |
| Charts.TwoLevelRowCount | src/defillama_py/client.py:731-741 | one row per leaf: the sum over timestamps and chains of the inner map sizes |
| Charts.ChainsRowAt | src/defillama_py/client.py:733-741 | within one timestamp, version `m` of chain `c` follows the versions of the earlier chains, and carries the timestamp, chain, version and value |
| Charts.TwoLevelRowAt | src/defillama_py/client.py:731-741 | leaf `m` of chain `c` of item `j` sits right after the leaves of the earlier items and chains, and carries the enclosing timestamp, chain, version key and the protocol |
| Charts.TwoLevelProtocol | src/defillama_py/client.py:731-741 | every row of a two-level breakdown names the queried protocol |
| Charts.VersionRowProtocol | src/defillama_py/client.py:735-741 | a version row's `protocol` is the queried protocol, whatever the value column is called, unless it is `protocol` |
| Markets.GetOverview | src/defillama_py/client.py:586-624 | the overview method returns exactly `Overview`; its only loop is the breakdown flattener |
| Markets.OverviewRaw | src/defillama_py/client.py:604-605 | in raw mode the overview is the response itself, whatever the flags |
| Markets.OverviewColumns | src/defillama_py/client.py:610-624 | exactly one chart is flattened: all rows have the columns `date, col`, or all have `date, protocol, col`; the two are never mixed |
| Markets.OverviewDefault | src/defillama_py/client.py:607-611 | with no params the volume overview is the aggregate series under the columns `date, volume` |
| Markets.CheckedResponse | src/defillama_py/client.py:652-653 | a response passes exactly when it is a dict in which one of the two charts is not null, and it passes unchanged; a failing dict gives "No data" for the key, or ParamsMissing when params is None |
| Markets.FlattenChain | src/defillama_py/client.py:658-676 | the per-chain frame returned by the loop body is exactly `ChainFrameOf` |
| Markets.FetchChainFrame | src/defillama_py/client.py:650-676 | one pass of the chain loop outside raw mode returns exactly the checked, flattened and cleaned frame of that chain |
| Markets.ChainFrames | src/defillama_py/client.py:650-676 | the chain loop outside raw mode returns the frames of the chains, in input order, or the first failure |
| Markets.BreakdownBlockChain | src/defillama_py/client.py:665-668 | every row of the block of one timestamp of a chain's breakdown names the chain |
| Markets.BreakdownChainTagged | src/defillama_py/client.py:664-669 | every row of a chain's breakdown names the chain |
| Markets.TaggedTableCleaned | src/defillama_py/client.py:661 | a frame whose every row names a chain names its canonical form once cleaned |
| Markets.ChainBlockTagged | src/defillama_py/client.py:658-676 | every row of the frame of one chain carries the canonical name of that chain, in all three branches |
| Markets.ChainFramesKeyed | src/defillama_py/client.py:650-676 | every row of every frame the chain loop builds carries the canonical name of its own chain |
| Markets.ChainRowsTagged | src/defillama_py/client.py:650-681 | row `n` of the frame of `chains[j]`, after the rows of the earlier chains, carries the canonical name of `chains[j]` |
| Markets.GetChainSummary | src/defillama_py/client.py:627-681 | the chain loop returns exactly `ChainSummary`, in both modes |
| Markets.ChainSummaryRaw | src/defillama_py/client.py:655-656 | in raw mode the chain methods return a dict, even for one chain, keyed by the distinct chains in first-occurrence order, each with its checked response |
| Markets.ChainSummaryEmpty | src/defillama_py/client.py:678-681 | with no chain, raw mode gives `{}` and otherwise `pd.concat([])` fails |
| Markets.ChainSummaryNoData | src/defillama_py/client.py:652-653 | the first chain whose response has neither chart stops both modes with "No data" for that chain |
| Markets.ChainEntryOfRow | src/defillama_py/client.py:668 | a chain breakdown record carries the chain as given |
| Markets.ChainFrameTagged | src/defillama_py/client.py:658-676 | every row of one chain's frame carries the canonical name of that chain |
| Markets.ChainSummaryTagged | src/defillama_py/client.py:646-681 | the frames are concatenated in input order, and row `n` of the block of chain `j` carries the canonical name of `chains[j]` |
| Markets.FlattenProtocol | src/defillama_py/client.py:720-748 | the loop body for one collected protocol returns exactly `ProtocolBlock` |
| Markets.FlattenProtocols | src/defillama_py/client.py:718-748 | the flatten loop returns the blocks of the collected entries, in dict order, laid end to end |
| Markets.GetProtocolSummary | src/defillama_py/client.py:684-750 | the collect loop and the flatten loop return exactly `ProtocolSummary` |
| Markets.ProtocolSummaryBlocks | src/defillama_py/client.py:704-750 | a repeated protocol is flattened once, at the position of its first occurrence; the frame is uncleaned per-protocol blocks in that order |
| Markets.DistinctProtocolBlocks | src/defillama_py/client.py:704-748 | flattening the collected dict is flattening the fetch of each distinct protocol in first-occurrence order |
| Fanout.DedupProperties | src/defillama_py/client.py:229-231 | the distinct keys are exactly the input keys, each once |
| Fanout.CollectOk | src/defillama_py/client.py:229-232 | the collected dict exists exactly when every request succeeds; its keys are the distinct keys in first-occurrence order; each key holds its response |
| Fanout.CollectOkIff | src/defillama_py/client.py:229-232 | the collection succeeds exactly when the request of every key does |
| Fanout.CollectKeys | src/defillama_py/client.py:229-231 | the keys of the collected dict are the distinct keys, in first-occurrence order |
| Fanout.CollectFind | src/defillama_py/client.py:229-232 | every requested key finds its own response in the collected dict |
| Fanout.CollectFindKey | src/defillama_py/client.py:229-232 | a repeated key finds its last response, which is the same response because the provider is one fixed snapshot (see Left out) |
| Fanout.CollectEntries | src/defillama_py/client.py:229-232 | entry `i` of the collected dict is the `i`-th distinct key with its response |
| Fanout.CollectFirstError | src/defillama_py/client.py:229-232 | a failing collection reports the error of the first key that fails |
| Fanout.CollectAll | src/defillama_py/client.py:229-232 | the collecting loop returns exactly `Collect` |
| Fanout.SingleOrCollect | src/defillama_py/client.py:225-232 | one key gives its response itself; otherwise a dict keyed by the distinct keys, which exists exactly when every request succeeds |
| Tvl.ChainTvlRowsCells | src/defillama_py/client.py:198-203 | one row per entry of `chainTvls`, in order; row i has the columns `chain`, `protocol`, `tvl`, holding the i-th chain name, the protocol's slug and that chain's tvl |
| Tvl.ProtocolTvlEntries | src/defillama_py/client.py:194-203 | the body of the loop over protocols returns exactly the block of that protocol |
| Tvl.ProtocolTvlBlockShape | src/defillama_py/client.py:194-203 | one protocol gives one row per chain of `chainTvls`, each with the columns `chain, protocol, tvl` |
| Tvl.FlattenProtocolTvls | src/defillama_py/client.py:190-203 | the nested loop returns exactly `ProtocolTvlRows` |
| Tvl.ProtocolTvlRowsShape | src/defillama_py/client.py:191-203 | before cleaning, one row per (protocol, chain) pair, each with the columns `chain, protocol, tvl` and a string chain |
| Tvl.AllProtocolsCurrentTvlRows | src/defillama_py/client.py:186-206 | one row per (protocol, chain) pair, as many as the protocols' chain maps have entries; every row has the columns `chain, protocol, tvl` and a canonical chain |
| Tvl.TvlPoint | src/defillama_py/client.py:245-250 | a history record exists exactly for a dict entry; its columns are `date, chain, protocol, tvl`, with the chain and protocol of the loop and the entry's `date` and `totalLiquidityUSD` |
| Tvl.FlattenChainHistory | src/defillama_py/client.py:241-250 | the loop over one chain's `tvl` list returns exactly `ChainHistory` |
| Tvl.FlattenProtocolHistory | src/defillama_py/client.py:237-250 | the loop over one protocol's chains returns exactly `ProtocolHistory` |
| Tvl.GetProtocolHistoricalTvl | src/defillama_py/client.py:222-253 | the method returns exactly `ProtocolHistoricalTvl`, in both modes |
| Tvl.ChainHistoryPoints | src/defillama_py/client.py:241-250 | every row of one chain's history names the protocol, with the columns `date, chain, protocol, tvl` |
| Tvl.ProtocolHistoryRows | src/defillama_py/client.py:237-250 | every row of one protocol's history names that protocol |
| Tvl.ProtocolHistoryBlockAt | src/defillama_py/client.py:238-250 | row `n` of the block of one protocol is a history row of that protocol |
| Tvl.CleanHistoryRowAt | src/defillama_py/client.py:252-253 | cleaning keeps a history row's columns and protocol and canonicalises its chain |
| Tvl.CleanHistoryRowsAt | src/defillama_py/client.py:237-253 | a history row of the block of `xs[j]` sits after the earlier blocks and, once cleaned, keeps its columns and protocol and has a canonical chain |
| Tvl.ProtocolHistoryCleanAt | src/defillama_py/client.py:237-253 | in the concatenated rows, row `n` of protocol `j` follows the rows of the earlier protocols, names `protocols[j]`, has the four columns and a canonical chain |
| Tvl.ProtocolHistoricalTvlRows | src/defillama_py/client.py:234-253 | the rows of `protocols[j]` follow those of the earlier protocols; each names `protocols[j]`, has the four columns, and has a canonical chain |
| Tvl.AllChainsHistoricalTvl | src/defillama_py/client.py:264-272 | raw mode gives the response; otherwise the frame exists exactly for a list of dicts, with one row per dict holding its entries |
| Tvl.TaggedEntry | src/defillama_py/client.py:306-308 | tagging succeeds exactly on a dict entry; the row's `chain` is the requested chain and every other field is the entry's |
| Tvl.TagEntries | src/defillama_py/client.py:306-308 | the inner loop returns the tagged entries, in order, or the error of the first entry that is not a dict |
| Tvl.GetChainHistoricalTvl | src/defillama_py/client.py:288-311 | the method returns exactly `ChainHistoricalTvl`, in both modes |
| Tvl.TaggedRowsAt | src/defillama_py/client.py:306-308 | entry `n` of a chain's document becomes row `n` of its block: the entry's own fields with `chain` assigned the chain as given |
| Tvl.ChainHistoryBlockAt | src/defillama_py/client.py:304-308 | when the whole loop succeeds, entry `n` of the document of `chains[j]` is row `n` of the block of that chain |
| Tvl.ChainHistoryCleanAt | src/defillama_py/client.py:304-311 | in the concatenated rows, entry `n` of chain `j` sits after the rows of the earlier chains and, once cleaned, is its own fields with `chain` set to the canonical name of `chains[j]` |
| Tvl.ChainHistoricalTvlRowAt | src/defillama_py/client.py:301-311 | entry `n` of chain `j` follows the entries of the earlier chains, keeps its own fields, and carries the canonical name of `chains[j]` |
| Tvl.GetProtocolCurrentTvl | src/defillama_py/client.py:330-355 | the method returns exactly `ProtocolCurrentTvl`, in both modes |
| Tvl.CurrentTvlRowsRaw | src/defillama_py/client.py:346-352 | before cleaning, one row `{protocol, tvl}` per requested protocol, in order, and no chain column |
| Tvl.ProtocolCurrentTvlRows | src/defillama_py/client.py:345-355 | one row `{protocol, tvl}` per requested protocol, repeats included, in order; the frame has no chain column, so cleaning leaves it unchanged |
| Tvl.ChainTvlRow | src/defillama_py/client.py:376-380 | a chain record exists exactly for a dict entry; it has the columns `chain` and `tvl`, holding `entry.get('name')` and `entry.get('tvl')` (null when absent) |
| Tvl.GetAllChainsCurrentTvl | src/defillama_py/client.py:358-383 | the method returns exactly `AllChainsCurrentTvl` |
| Tvl.AllChainsCurrentTvlRows | src/defillama_py/client.py:372-383 | one row per chain entry, in order: the canonical name (NaN for a name that is not a string; see Left out) and the tvl |
| Mappings.ProjectOk | src/defillama_py/client.py:107-111 | a listing record exists exactly for a dict holding every source field; it keeps them in display order under their new names |
| Mappings.ProjectOkIff | src/defillama_py/client.py:107-111 | a projection succeeds exactly on a dict that holds every source field |
| Mappings.ProjectValues | src/defillama_py/client.py:107-111 | a successful projection holds the source fields' values, in display order, under their new names |
| Mappings.ProjectError | src/defillama_py/client.py:107-111 | a dict lacking a source field raises the KeyError of the first such field in display order |
| Mappings.ProjectNotDict | src/defillama_py/client.py:107-111 | an asset that is not a dict raises the TypeError of the first subscript |
| Mappings.ProjectAll | src/defillama_py/client.py:107-111 | the listing loop returns exactly `Listing` |
| Mappings.ListingRows | src/defillama_py/client.py:107-111 | a listing exists exactly when every asset can be projected; it has one row per asset, in order, holding the projected fields |
| Mappings.ListingError | src/defillama_py/client.py:107-111 | the first asset that cannot be projected decides the error |
| Mappings.GetChains | src/defillama_py/client.py:99-113 | `get_chains` returns exactly `Chains`: `chain_id` from `chainId`, and `name` |
| Mappings.GetProtocols | src/defillama_py/client.py:116-131 | `get_protocols` returns exactly `Protocols`: `id`, `name` and `slug` |
| Mappings.GetStablecoins | src/defillama_py/client.py:134-149 | `get_stablecoins` returns exactly `Stablecoins`: `id`, `name` and `symbol` from the `peggedAssets` envelope |
| Mappings.GetPools | src/defillama_py/client.py:152-168 | `get_pools` returns exactly `Pools`: the projection of the `data` envelope |
| Mappings.PoolRow | src/defillama_py/client.py:160-165 | each pool record is `{id: pool, chain, project, symbol}`, taken from the pool's own fields |
| Mappings.PoolsRows | src/defillama_py/client.py:157-168 | `get_pools` has one row per pool of the `data` envelope, in order |
| Mappings.PoolsWithoutEnvelope | src/defillama_py/client.py:157-159 | a response without `data` raises that KeyError |
| Mappings.ChainsMissingId | src/defillama_py/client.py:107-110 | a chain without `chainId` makes `get_chains` fail with that KeyError, provided the earlier chains are well formed |

## Left out

- HTTP transport is a parameter (`Upstream`). The session, the timeout, `raise_for_status`, JSON decoding and the exception remapping of `_get` are not modelled. Every such failure is one `RequestFailed(url)`, and the kind of exception is not distinguished.
- `_get` prints the URL it requests. That output is not modelled.
- The bridge methods are not modelled. They are stubs with no flattening: one `_get` per call, built from the whole list.
- The `src/defillama_py/test.py` scratch script, `setup.py` and the live-network tests are not part of this model.
- Float conversion in `get_protocol_current_tvl` is the parameter `toFloat`. A value it rejects is `NotANumber`. No floating-point arithmetic is modelled, and chart values stay opaque.
- pandas frames are sequences of records: a row holds the keys its record had. Two things are not modelled:
  - column metadata: the union of the columns, the NaN filling of missing cells, the dtypes and the index;
  - the column order of a frame built from records with different keys.
- `CleanChainColumn` is modelled on values, as a function returning the new frame. It does not model the in-place overwrite of `df['chain']`, nor the aliasing of the frame the caller holds.
- `Frames.PairsFrame` requires each item to be a list of exactly two elements. pandas would also accept tuples or other two-element sequences. JSON only produces lists there.
- `Frames.PairsFrame` with `a == b`: pandas keeps two columns with the same name, while the model's record keeps one. For the documented data types the two names differ; a `dataType` whose column name is `date` (the undocumented value `date` itself) would give pandas two `date` columns.
- `Frames.PairsFrame` on a list with an item shorter than two elements: pandas sizes the frame by the longest item and pads the shorter ones with NaN, so `[[1000, 5.0], [2000]]` gives two rows, the second with a NaN value. The model fails on it (`ShapeMismatch`). pandas fails only when the longest item does not have exactly two elements, or an item has no length. The same gap reaches every overview and chain summary built on it (`Markets.OverviewColumns`, `Markets.FetchChainFrame`, `Markets.ChainFrameOf`). The API documents pairs there.
- `Frames.PairsFrame` on a dict: pandas builds a frame from the dict's keys as columns and keeps the two requested ones; the model fails on it (`ShapeMismatch`). The API documents a list of pairs there.
- `Frames.CleanChainColumn`: a chain column all of whose non-null values are numbers, or all booleans, makes pandas' `.str` accessor raise `AttributeError`; the model gives NaN (`Null`) in those cells instead. The model agrees with pandas when the column holds at least one string, where non-strings become NaN. pandas' dtype inference, which decides between the two, is not modelled.
- `Tvl.AllChainsCurrentTvlRows`: inherits the gap above; for `[{"name": 1, "tvl": 2}]` pandas raises in `_clean_chain_name`, while the model returns one row with a NaN chain. The same holds for every method whose frame goes through `_clean_chain_name`.
- The parameter checks that tests/test_client.py:98-112 expects of `get_chain_perps_volume` (a `ValueError` when `params` is missing, or when `excludeTotalDataChart` equals `excludeTotalDataChartBreakdown` with `raw=False`) are not in the client; the model follows the client, which raises nothing there.
- A `pd.DataFrame(records)` whose input is not a list of dicts fails with `ShapeMismatch`. pandas accepts some other shapes, such as a dict of lists. The provider's documented responses are lists of dicts.
- `Names.Lower` lower-cases only ASCII letters. Python's `str.lower` also maps non-ASCII letters, and that Unicode case mapping is not modelled.
- The exclude flags are booleans. A non-boolean value, with Python truthiness, is not modelled. Other query parameters are carried in `extra` and never read.
- `dataType` is an optional string. A present but non-string `dataType`, such as `{"dataType": None}`, on which `.replace` raises `AttributeError` (src/defillama_py/client.py:1108-1109), is not modelled.
- The provider (`Upstream`) is one fixed snapshot: a function of the URL and the parameters. Two requests for the same URL therefore return the same body. A repeated key in the fan-out methods (src/defillama_py/client.py:229-232) makes two requests, and a live server could answer them differently; the model cannot tell apart a client whose `results[k]` keeps the last of two differing responses from one that keeps the first.
- `Tvl.ProtocolCurrentTvl` in raw mode returns the value wrapped as a JSON number, `Num(x)`, where the client returns a Python float.
