/** Data frames as sequences of records (one record per row, its entries in column order),
    and the frame operations the client applies: `_clean_chain_name`, `df[col] = v`,
    `pd.DataFrame(pairs, columns=[a, b])` and `pd.DataFrame(records)`. A cell a row lacks
    is pandas' NaN. A chain cell that is not a string becomes `Null` (NaN), which is what
    `.str.lower()` gives on a column that also holds strings; a column with no string at all,
    on which pandas raises, is outside this model. */
module Frames {
  import opened Json
  import opened Names
  import opened Blocks

  type Row<N(!new)> = Fields<N>
  type Table<N(!new)> = seq<Row<N>>

  /** What a client method returns: the decoded JSON (`raw=True`, or a dict of them) or a frame. */
  datatype Output<N(!new)> = Raw(json: Json<N>) | Frame(table: Table<N>)

  /** `col in df.columns` for a frame built from records: some record has the key. */
  predicate HasColumn<N(!new)>(t: Table<N>, col: string) {
    exists i :: 0 <= i < |t| && Find(t[i], col).Some?
  }

  /** `.str.lower().str.replace(r'[-\s]', '_', regex=True)` on one cell: strings are
      canonicalised, anything else becomes NaN. */
  function CleanCell<N(!new)>(v: Json<N>): (r: Json<N>)
    ensures v.Str? ==> r == Str(CleanChainName(v.s))
    ensures !v.Str? ==> r == Null
  {
    match v
    case Str(s) => Str(CleanChainName(s))
    case _ => Null
  }

  function CleanRow<N(!new)>(row: Row<N>): Row<N> {
    match Find(row, "chain")
    case Some(v) => Put(row, "chain", CleanCell(v))
    case None => row
  }

  /** `_clean_chain_name(df)`: when the frame has a `chain` column, its cells are
      canonicalised; every other cell, the columns and the rows stay as they were. */
  function CleanChainColumn<N(!new)>(t: Table<N>): (r: Table<N>)
    ensures |r| == |t|
    ensures forall i {:trigger r[i]} :: 0 <= i < |t| ==> Keys(r[i]) == Keys(t[i])
    ensures forall i {:trigger r[i]} :: 0 <= i < |t| ==>
      Find(r[i], "chain") == (if Find(t[i], "chain").Some? then Some(CleanCell(Find(t[i], "chain").value)) else None)
    ensures forall i, k {:trigger Find(r[i], k)} :: 0 <= i < |t| && k != "chain" ==> Find(r[i], k) == Find(t[i], k)
    ensures !HasColumn(t, "chain") ==> r == t
  {
    if HasColumn(t, "chain") then
      var r := seq(|t|, i requires 0 <= i < |t| => CleanRow(t[i]));
      assert forall i :: 0 <= i < |t| ==> Keys(r[i]) == Keys(t[i]) by {
        forall i | 0 <= i < |t| ensures Keys(r[i]) == Keys(t[i]) {
          if Find(t[i], "chain").Some? {
            PutKeys(t[i], "chain", CleanCell(Find(t[i], "chain").value));
          }
        }
      }
      r
    else t
  }

  /** Row k after canonicalisation: the same columns, the chain cell cleaned, every other cell kept. */
  lemma {:induction false} CleanRowAt<N(!new)>(t: Table<N>, k: nat)
    requires k < |t|
    ensures k < |CleanChainColumn(t)| && Keys(CleanChainColumn(t)[k]) == Keys(t[k])
    ensures Find(t[k], "chain").Some? ==> Find(CleanChainColumn(t)[k], "chain") == Some(CleanCell(Find(t[k], "chain").value))
    ensures forall key :: key != "chain" ==> Find(CleanChainColumn(t)[k], key) == Find(t[k], key)
  {
  }

  /** A row whose chain cell was set to `Str(chain)` is, after cleaning, the same assignment
      with the canonical name. */
  lemma {:induction false} CleanTaggedRow<N(!new)>(t: Table<N>, k: nat, fs: Fields<N>, chain: string)
    requires k < |t| && t[k] == Put(fs, "chain", Str(chain))
    ensures k < |CleanChainColumn(t)| && CleanChainColumn(t)[k] == Put(fs, "chain", Str(CleanChainName(chain)))
  {
    assert Find(t[k], "chain") == Some(Str(chain));
    assert HasColumn(t, "chain");
    PutPut(fs, "chain", Str(chain), Str(CleanChainName(chain)));
  }

  /** Row n of the block of xs[j], the fields of entry with the chain cell set to `Str(chain)`,
      sits after the blocks of xs[..j] and carries the canonical name once the frame is cleaned. */
  lemma {:induction false} CleanTaggedRowAt<N(!new)>(xs: seq<string>, f: string -> Result<Table<N>>, raw: Table<N>, j: nat, n: nat, chain: string, entry: Json<N>)
    requires ConcatMap(xs, f) == Ok(raw) && j < |xs|
    requires f(xs[j]).Ok? && n < |f(xs[j]).value| && entry.Obj?
    requires f(xs[j]).value[n] == Put(entry.fields, "chain", Str(chain))
    ensures
      var k := Sum(xs[..j], Sizes(f)) + n;
      k < |CleanChainColumn(raw)| && CleanChainColumn(raw)[k] == Put(entry.fields, "chain", Str(CleanChainName(chain)))
  {
    ConcatMapBlockAt(xs, f, j, n);
    CleanTaggedRow(raw, Sum(xs[..j], Sizes(f)) + n, entry.fields, chain);
  }

  /** Canonicalising the chain column a second time changes nothing. */
  lemma {:induction false} CleanChainColumnIdempotent<N(!new)>(t: Table<N>)
    ensures CleanChainColumn(CleanChainColumn(t)) == CleanChainColumn(t)
  {
    var once := CleanChainColumn(t);
    if HasColumn(once, "chain") {
      forall i | 0 <= i < |t| ensures CleanRow(once[i]) == once[i] {
        var c := Find(once[i], "chain");
        if c.Some? {
          var v := Find(t[i], "chain").value;
          if v.Str? {
            CleanChainNameIdempotent(v.s);
          }
          assert CleanCell(c.value) == c.value;
          PutFound(once[i], "chain");
        }
      }
    }
  }

  /** `df[col] = v`: every row gets the cell, later columns keep their place. */
  function SetColumn<N(!new)>(t: Table<N>, col: string, v: Json<N>): (r: Table<N>)
    ensures |r| == |t|
    ensures forall i {:trigger r[i]} :: 0 <= i < |t| ==> Find(r[i], col) == Some(v)
    ensures forall i, k {:trigger Find(r[i], k)} :: 0 <= i < |t| && k != col ==> Find(r[i], k) == Find(t[i], k)
  {
    seq(|t|, i requires 0 <= i < |t| => Put(t[i], col, v))
  }

  /** One row of `pd.DataFrame(data, columns=[a, b])`: the item must be a two-element list. */
  function PairRow<N(!new)>(a: string, b: string, item: Json<N>): (r: Result<Row<N>>)
    ensures r.Ok? <==> item.Arr? && |item.items| == 2
    ensures r.Ok? && a != b ==> r.value == [(a, item.items[0]), (b, item.items[1])]
  {
    if item.Arr? && |item.items| == 2 then
      var row := Record([(a, item.items[0]), (b, item.items[1])]);
      assert a != b ==> row == [(a, item.items[0]), (b, item.items[1])] by {
        if a != b {
          RecordOfDistinctKeys([(a, item.items[0]), (b, item.items[1])]);
        }
      }
      Ok(row)
    else Err(ShapeMismatch("DataFrame"))
  }

  function PairRowFn<N(!new)>(a: string, b: string): Json<N> -> Result<Row<N>> {
    item => PairRow(a, b, item)
  }

  /** `pd.DataFrame(data, columns=[a, b])` for the value of a `totalDataChart` entry:
      None gives an empty frame, a list of pairs one row per pair in order. */
  function PairsFrame<N(!new)>(data: Json<N>, a: string, b: string): (r: Result<Table<N>>)
    ensures data.Null? ==> r == Ok([])
    ensures data.Arr? ==> (r.Ok? <==> forall i :: 0 <= i < |data.items| ==> data.items[i].Arr? && |data.items[i].items| == 2)
    ensures !data.Null? && !data.Arr? ==> r.Err?
    ensures r.Ok? && data.Arr? ==> |r.value| == |data.items|
    ensures r.Ok? && data.Arr? ==> forall i :: 0 <= i < |data.items| ==> r.value[i] == PairRow(a, b, data.items[i]).value
  {
    match data
    case Null => Ok([])
    case Arr(items) =>
      MapAllOk(items, PairRowFn(a, b));
      MapAll(items, PairRowFn(a, b))
    case _ => Err(ShapeMismatch("DataFrame"))
  }
  /** Every row of a pairs frame has exactly the two requested columns, in order. */
  lemma {:induction false} PairsFrameColumns<N(!new)>(data: Json<N>, a: string, b: string)
    requires a != b && PairsFrame(data, a, b).Ok?
    ensures forall k :: 0 <= k < |PairsFrame(data, a, b).value| ==> Keys(PairsFrame(data, a, b).value[k]) == [a, b]
  {
    var rows := PairsFrame(data, a, b).value;
    if data.Arr? {
      forall k | 0 <= k < |rows| ensures Keys(rows[k]) == [a, b] {
        KeysOfTwo(rows[k], a, b);
      }
    }
  }


  function RecordRow<N(!new)>(item: Json<N>): Result<Row<N>> {
    match item
    case Obj(fs) => Ok(fs)
    case _ => Err(ShapeMismatch("DataFrame"))
  }

  /** `pd.DataFrame(records)` for a list of dicts: one row per dict, in order. */
  function RecordsFrame<N(!new)>(data: Json<N>): (r: Result<Table<N>>)
    ensures r.Ok? <==> data.Arr? && forall i :: 0 <= i < |data.items| ==> data.items[i].Obj?
    ensures r.Ok? ==> |r.value| == |data.items|
    ensures r.Ok? ==> forall i :: 0 <= i < |data.items| ==> r.value[i] == data.items[i].fields
  {
    match data
    case Arr(items) =>
      MapAllOk(items, RecordRow);
      MapAll(items, RecordRow)
    case _ => Err(ShapeMismatch("DataFrame"))
  }
}
