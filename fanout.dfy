/** How the client fans a request out over several keys (chains or protocols): a single
    key stands for a one-element list, and the responses are collected into a dict keyed
    by the request key. */
module Fanout {
  import opened Json

  /** The `Union[str, List[str]]` argument; `isinstance(x, str)` turns a string into `[x]`. */
  datatype Selector = One(key: string) | Many(keys: seq<string>)

  function AsList(s: Selector): (r: seq<string>)
    ensures s.One? ==> r == [s.key]
    ensures s.Many? ==> r == s.keys
  {
    match s
    case One(k) => [k]
    case Many(ks) => ks
  }

  /** The keys in the order of their first occurrence. */
  function Dedup(ks: seq<string>): (r: seq<string>)
    decreases |ks|
  {
    if |ks| == 0 then []
    else
      var prev := Dedup(ks[..|ks| - 1]);
      if ks[|ks| - 1] in prev then prev else prev + [ks[|ks| - 1]]
  }

  /** Dedup keeps exactly the keys of its input, each once. */
  lemma {:induction false} DedupProperties(ks: seq<string>)
    ensures forall k :: k in Dedup(ks) <==> k in ks
    ensures forall i, j :: 0 <= i < j < |Dedup(ks)| ==> Dedup(ks)[i] != Dedup(ks)[j]
  {
    if |ks| > 0 {
      var init := ks[..|ks| - 1];
      DedupProperties(init);
      assert ks == init + [ks[|ks| - 1]];
    }
  }

  /** `results = {}; for k in keys: results[k] = f(k)`, where the first `f(k)` that
      raises ends the loop. */
  function Collect<N(!new)>(keys: seq<string>, f: string -> Result<Json<N>>): Result<Fields<N>>
    decreases |keys|
  {
    if |keys| == 0 then Ok([])
    else
      var prev :- Collect(keys[..|keys| - 1], f);
      var v :- f(keys[|keys| - 1]);
      Ok(Put(prev, keys[|keys| - 1], v))
  }

  /** One more step of the collecting loop. */
  lemma {:induction false} CollectStep<N(!new)>(keys: seq<string>, f: string -> Result<Json<N>>, i: nat, done: Fields<N>)
    requires i < |keys| && Collect(keys[..i], f) == Ok(done)
    ensures Collect(keys[..i + 1], f) == (if f(keys[i]).Ok? then Ok(Put(done, keys[i], f(keys[i]).value)) else Err(f(keys[i]).error))
  {
    assert keys[..i + 1][..i] == keys[..i];
  }

  /** Once one key fails, the whole collection fails with its error. */
  lemma {:induction false} CollectStops<N(!new)>(keys: seq<string>, f: string -> Result<Json<N>>, i: nat)
    requires i < |keys| && Collect(keys[..i], f).Ok? && f(keys[i]).Err?
    ensures Collect(keys, f) == Err(f(keys[i]).error)
  {
    if i == |keys| - 1 {
      assert keys[..|keys| - 1] == keys[..i];
    } else {
      var init := keys[..|keys| - 1];
      assert init[..i] == keys[..i] && init[i] == keys[i];
      CollectStops(init, f, i);
    }
  }

  /** The collection succeeds exactly when every key's request does; its entries are the
      distinct keys in the order of their first occurrence, each with its own response
      (a repeated key keeps its first position). */
  lemma {:induction false} CollectOk<N(!new)>(keys: seq<string>, f: string -> Result<Json<N>>)
    ensures Collect(keys, f).Ok? <==> forall i :: 0 <= i < |keys| ==> f(keys[i]).Ok?
    ensures Collect(keys, f).Ok? ==> Keys(Collect(keys, f).value) == Dedup(keys)
    ensures Collect(keys, f).Ok? ==> forall k :: k in keys ==> Find(Collect(keys, f).value, k) == Some(f(k).value)
  {
    CollectOkIff(keys, f);
    if Collect(keys, f).Ok? {
      CollectKeys(keys, f);
      CollectFind(keys, f);
    }
  }

  lemma {:induction false} CollectOkIff<N(!new)>(keys: seq<string>, f: string -> Result<Json<N>>)
    ensures Collect(keys, f).Ok? <==> forall i :: 0 <= i < |keys| ==> f(keys[i]).Ok?
  {
    if |keys| > 0 {
      var init, last := keys[..|keys| - 1], keys[|keys| - 1];
      CollectOkIff(init, f);
      if forall i :: 0 <= i < |keys| ==> f(keys[i]).Ok? {
        forall i | 0 <= i < |init| ensures f(init[i]).Ok? {
          assert init[i] == keys[i];
        }
        assert Collect(init, f).Ok? && f(last).Ok?;
      } else {
        var i :| 0 <= i < |keys| && f(keys[i]).Err?;
        if i < |init| {
          assert init[i] == keys[i];
          assert Collect(init, f).Err?;
        } else {
          assert f(last).Err?;
        }
      }
    }
  }

  lemma {:induction false} CollectKeys<N(!new)>(keys: seq<string>, f: string -> Result<Json<N>>)
    requires Collect(keys, f).Ok?
    ensures Keys(Collect(keys, f).value) == Dedup(keys)
  {
    if |keys| > 0 {
      var init, last := keys[..|keys| - 1], keys[|keys| - 1];
      var prev := Collect(init, f).value;
      CollectKeys(init, f);
      PutKeys(prev, last, f(last).value);
      assert Collect(keys, f).value == Put(prev, last, f(last).value);
      assert Dedup(keys) == if last in Dedup(init) then Dedup(init) else Dedup(init) + [last];
    }
  }

  lemma {:induction false} CollectFind<N(!new)>(keys: seq<string>, f: string -> Result<Json<N>>)
    requires Collect(keys, f).Ok?
    ensures forall k :: k in keys ==> f(k).Ok? && Find(Collect(keys, f).value, k) == Some(f(k).value)
  {
    forall k | k in keys ensures f(k).Ok? && Find(Collect(keys, f).value, k) == Some(f(k).value) {
      CollectFindKey(keys, f, k);
    }
  }

  /** A requested key finds its own response; a repeated key its last one, which is the same. */
  lemma {:induction false} CollectFindKey<N(!new)>(keys: seq<string>, f: string -> Result<Json<N>>, k: string)
    requires Collect(keys, f).Ok? && k in keys
    ensures f(k).Ok? && Find(Collect(keys, f).value, k) == Some(f(k).value)
  {
    var init, last := keys[..|keys| - 1], keys[|keys| - 1];
    assert Collect(init, f).Ok? && f(last).Ok?;
    var prev := Collect(init, f).value;
    assert Collect(keys, f).value == Put(prev, last, f(last).value);
    if k != last {
      assert keys == init + [last];
      assert k in init;
      CollectFindKey(init, f, k);
    }
  }

  /** Entry i of the collected dict is the i-th distinct key with its response. */
  lemma {:induction false} CollectEntries<N(!new)>(keys: seq<string>, f: string -> Result<Json<N>>)
    requires Collect(keys, f).Ok?
    ensures |Collect(keys, f).value| == |Dedup(keys)|
    ensures forall i :: 0 <= i < |Dedup(keys)| ==> f(Dedup(keys)[i]).Ok? && Collect(keys, f).value[i] == (Dedup(keys)[i], f(Dedup(keys)[i]).value)
  {
    CollectOk(keys, f);
    DedupProperties(keys);
    var results := Collect(keys, f).value;
    var distinct := Dedup(keys);
    assert DistinctKeys(results) by {
      forall a, b | 0 <= a < b < |results| ensures results[a].0 != results[b].0 {
        assert Keys(results)[a] == distinct[a] && Keys(results)[b] == distinct[b];
      }
    }
    forall i | 0 <= i < |distinct| ensures results[i] == (distinct[i], f(distinct[i]).value) {
      assert results[i].0 == distinct[i] && distinct[i] in keys;
      FindFirst(results, i);
    }
  }

  /** The error of a failing collection is that of the first key that fails. */
  lemma {:induction false} CollectFirstError<N(!new)>(keys: seq<string>, f: string -> Result<Json<N>>, j: nat)
    requires j < |keys| && f(keys[j]).Err?
    requires forall i :: 0 <= i < j ==> f(keys[i]).Ok?
    ensures Collect(keys, f) == Err(f(keys[j]).error)
  {
    var prefix := keys[..j];
    assert forall i :: 0 <= i < |prefix| ==> prefix[i] == keys[i];
    CollectOk(prefix, f);
    CollectStops(keys, f, j);
  }

  /** The raw result of the TVL fan-out methods: one key gives its response itself,
      any other number of keys the dict of responses. */
  function SingleOrCollect<N(!new)>(keys: seq<string>, f: string -> Result<Json<N>>): (r: Result<Json<N>>)
    ensures |keys| == 1 ==> r == f(keys[0])
    ensures |keys| != 1 && r.Ok? ==> r.value.Obj? && Keys(r.value.fields) == Dedup(keys)
    ensures |keys| != 1 ==> (r.Ok? <==> forall i :: 0 <= i < |keys| ==> f(keys[i]).Ok?)
  {
    if |keys| == 1 then f(keys[0])
    else
      CollectOk(keys, f);
      var results :- Collect(keys, f);
      Ok(Obj(results))
  }

  /** `results = {}; for k in keys: results[k] = fetch(k)`. */
  method CollectAll<N(!new)>(keys: seq<string>, fetch: string -> Result<Json<N>>) returns (r: Result<Fields<N>>)
    ensures r == Collect(keys, fetch)
  {
    var results: Fields<N> := [];
    var i := 0;
    while i < |keys|
      invariant 0 <= i <= |keys|
      invariant Collect(keys[..i], fetch) == Ok(results)
    {
      var v := fetch(keys[i]);
      if v.Err? {
        CollectStops(keys, fetch, i);
        return Err(v.error);
      }
      CollectStep(keys, fetch, i, results);
      results := Put(results, keys[i], v.value);
      i := i + 1;
    }
    assert keys[..i] == keys;
    return Ok(results);
  }
}
