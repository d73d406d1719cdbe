/** JSON values as the provider sends them, and the Python operations the client
    applies to them: subscripting, `.get`, iteration, pair unpacking, `.items()`,
    item assignment and dict displays. Objects are association lists, so the order
    of `.items()` is the order in which the keys were inserted. */
module Json {

  datatype Option<+T> = None | Some(value: T) {
    function GetOr(default: T): T {
      match this
      case Some(v) => v
      case None => default
    }
  }

  /** The exceptions the client raises or lets escape, by kind. */
  datatype Error =
    | InvalidApiTag(tag: string)        // ValueError raised by `_get` for a tag outside its table
    | RequestFailed(url: string)        // timeout, connection failure, HTTP status or a body that is not JSON
    | KeyMissing(key: string)           // KeyError from `x[key]`
    | ShapeMismatch(operation: string)  // TypeError, ValueError or AttributeError: an operation applied to a value of the wrong shape
    | NoData(key: string)               // ValueError "No data available for ..."
    | ParamsMissing                     // AttributeError from `params.get(...)` when `params` is None
    | NothingToConcatenate              // ValueError from `pd.concat([])`
    | NotANumber                        // ValueError or TypeError from `float(x)`

  datatype Result<+T> = Ok(value: T) | Err(error: Error) {
    predicate IsFailure() {
      Err?
    }

    function PropagateFailure<U>(): Result<U>
      requires Err?
    {
      Err(error)
    }

    function Extract(): T
      requires Ok?
    {
      value
    }
  }

  /** A parsed JSON document; numbers stay opaque (`N`). */
  datatype Json<N(!new)> =
    | Null
    | Bool(b: bool)
    | Num(n: N)
    | Str(s: string)
    | Arr(items: seq<Json<N>>)
    | Obj(fields: seq<(string, Json<N>)>)

  /** The entries of a Python dict, in insertion order. */
  type Fields<N(!new)> = seq<(string, Json<N>)>

  function Keys<N(!new)>(fs: Fields<N>): (ks: seq<string>)
    ensures |ks| == |fs|
    ensures forall i {:trigger ks[i]} :: 0 <= i < |fs| ==> ks[i] == fs[i].0
  {
    if |fs| == 0 then [] else [fs[0].0] + Keys(fs[1..])
  }

  predicate DistinctKeys<N(!new)>(fs: Fields<N>) {
    forall i, j :: 0 <= i < j < |fs| ==> fs[i].0 != fs[j].0
  }

  /** `d.get(key)` on the entries of a dict (None when the key is absent). */
  function Find<N(!new)>(fs: Fields<N>, key: string): (r: Option<Json<N>>)
    ensures r.Some? <==> key in Keys(fs)
  {
    if |fs| == 0 then None
    else if fs[0].0 == key then Some(fs[0].1)
    else Find(fs[1..], key)
  }

  /** A key finds the first entry that holds it. */
  lemma {:induction false} FindFirst<N(!new)>(fs: Fields<N>, i: nat)
    requires i < |fs| && forall j :: 0 <= j < i ==> fs[j].0 != fs[i].0
    ensures Find(fs, fs[i].0) == Some(fs[i].1)
  {
    if i > 0 {
      var tail := fs[1..];
      assert forall j :: 0 <= j < i - 1 ==> tail[j] == fs[j + 1];
      FindFirst(tail, i - 1);
      assert fs[0].0 != fs[i].0;
    }
  }

  /** The keys of a one-entry row. */
  lemma {:induction false} KeysOfOne<N(!new)>(row: Fields<N>, a: string)
    requires |row| == 1 && row[0].0 == a
    ensures Keys(row) == [a]
  {
  }

  /** The keys of a two-entry row, read off its entries. */
  lemma {:induction false} KeysOfTwo<N(!new)>(row: Fields<N>, a: string, b: string)
    requires |row| == 2 && row[0].0 == a && row[1].0 == b
    ensures Keys(row) == [a, b]
  {
  }

  /** A row with two different keys is determined by what they find. */
  lemma {:induction false} RowOfTwo<N(!new)>(row: Fields<N>, a: string, b: string, va: Json<N>, vb: Json<N>)
    requires a != b && Keys(row) == [a, b]
    requires Find(row, a) == Some(va) && Find(row, b) == Some(vb)
    ensures row == [(a, va), (b, vb)]
  {
    assert row[0].0 == a && row[1].0 == b;
    assert Find(row, a) == Some(row[0].1);
    assert row[1..][0] == row[1];
    assert Find(row, b) == Some(row[1].1);
  }

  /** The keys of a three-entry row, read off its entries. */
  lemma {:induction false} KeysOfThree<N(!new)>(row: Fields<N>, a: string, b: string, c: string)
    requires |row| == 3 && row[0].0 == a && row[1].0 == b && row[2].0 == c
    ensures Keys(row) == [a, b, c]
  {
  }

  /** The keys of a four-entry row, read off its entries. */
  lemma {:induction false} KeysOfFour<N(!new)>(row: Fields<N>, a: string, b: string, c: string, d: string)
    requires |row| == 4 && row[0].0 == a && row[1].0 == b && row[2].0 == c && row[3].0 == d
    ensures Keys(row) == [a, b, c, d]
  {
  }

  /** The keys of two lists of entries laid end to end. */
  lemma {:induction false} KeysAppend<N(!new)>(a: Fields<N>, b: Fields<N>)
    ensures Keys(a + b) == Keys(a) + Keys(b)
  {
    var ab := a + b;
    forall i | 0 <= i < |ab| ensures Keys(ab)[i] == (Keys(a) + Keys(b))[i] {
      if i < |a| {
        assert ab[i] == a[i];
      } else {
        assert ab[i] == b[i - |a|];
      }
    }
  }

  /** `d[key] = v`: the value of a present key is replaced where it stands, a new key is appended. */
  function Put<N(!new)>(fs: Fields<N>, key: string, v: Json<N>): (r: Fields<N>)
    ensures Find(r, key) == Some(v)
    ensures forall k :: k != key ==> Find(r, k) == Find(fs, k)
  {
    if |fs| == 0 then [(key, v)]
    else if fs[0].0 == key then
      var r := [(key, v)] + fs[1..];
      assert r[1..] == fs[1..];
      r
    else
      var r := [fs[0]] + Put(fs[1..], key, v);
      assert r[1..] == Put(fs[1..], key, v);
      r
  }

  /** Assigning a new key appends its entry. */
  lemma {:induction false} PutAppends<N(!new)>(fs: Fields<N>, key: string, v: Json<N>)
    requires key !in Keys(fs)
    ensures Put(fs, key, v) == fs + [(key, v)]
  {
    if |fs| > 0 {
      var tail := fs[1..];
      assert Keys(fs) == [fs[0].0] + Keys(tail);
      PutAppends(tail, key, v);
      assert fs == [fs[0]] + tail;
    }
  }

  /** Assigning a present key keeps the keys as they are. */
  lemma {:induction false} PutPresentKeys<N(!new)>(fs: Fields<N>, key: string, v: Json<N>)
    requires key in Keys(fs)
    ensures Keys(Put(fs, key, v)) == Keys(fs)
  {
    var r := Put(fs, key, v);
    var tail := fs[1..];
    assert Keys(fs) == [fs[0].0] + Keys(tail);
    if fs[0].0 != key {
      PutPresentKeys(tail, key, v);
      assert r[1..] == Put(tail, key, v);
    } else {
      assert r[1..] == tail;
    }
  }

  /** Assignment keeps the key order: a present key stays where it is, a new one goes last. */
  lemma {:induction false} PutKeys<N(!new)>(fs: Fields<N>, key: string, v: Json<N>)
    ensures Keys(Put(fs, key, v)) == if key in Keys(fs) then Keys(fs) else Keys(fs) + [key]
    ensures key !in Keys(fs) ==> Put(fs, key, v) == fs + [(key, v)]
  {
    if key in Keys(fs) {
      PutPresentKeys(fs, key, v);
    } else {
      PutAppends(fs, key, v);
      KeysAppend(fs, [(key, v)]);
      KeysOfOne([(key, v)], key);
    }
  }

  /** Assigning the same key twice leaves only the second value. */
  lemma {:induction false} PutPut<N(!new)>(fs: Fields<N>, key: string, v: Json<N>, w: Json<N>)
    ensures Put(Put(fs, key, v), key, w) == Put(fs, key, w)
  {
    if |fs| > 0 && fs[0].0 != key {
      PutPut(fs[1..], key, v, w);
      var once := Put(fs, key, v);
      assert once[1..] == Put(fs[1..], key, v);
    }
  }

  /** Assigning a key the value it already has changes nothing. */
  lemma {:induction false} PutFound<N(!new)>(fs: Fields<N>, key: string)
    requires Find(fs, key).Some?
    ensures Put(fs, key, Find(fs, key).value) == fs
  {
    if fs[0].0 != key {
      PutFound(fs[1..], key);
    }
  }

  /** A dict display `{k1: v1, k2: v2, ...}`: each entry is assigned in turn, so a
      repeated key keeps its first position and its last value. */
  function Record<N(!new)>(ps: Fields<N>): Fields<N>
    decreases |ps|
  {
    if |ps| == 0 then []
    else Put(Record(ps[..|ps| - 1]), ps[|ps| - 1].0, ps[|ps| - 1].1)
  }

  /** Dropping the last entry keeps the keys distinct, and the last key is not among the others. */
  lemma {:induction false} DistinctKeysInit<N(!new)>(ps: Fields<N>)
    requires |ps| > 0 && DistinctKeys(ps)
    ensures DistinctKeys(ps[..|ps| - 1])
    ensures ps[|ps| - 1].0 !in Keys(ps[..|ps| - 1])
  {
    var init, last := ps[..|ps| - 1], ps[|ps| - 1];
    forall i, j | 0 <= i < j < |init| ensures init[i].0 != init[j].0 {
      assert init[i] == ps[i] && init[j] == ps[j];
    }
    forall i | 0 <= i < |init| ensures Keys(init)[i] != last.0 {
      assert Keys(init)[i] == ps[i].0;
    }
  }

  /** A display whose keys are all different is exactly its list of entries. */
  lemma {:induction false} RecordOfDistinctKeys<N(!new)>(ps: Fields<N>)
    requires DistinctKeys(ps)
    ensures Record(ps) == ps
  {
    if |ps| > 0 {
      var init, last := ps[..|ps| - 1], ps[|ps| - 1];
      assert init + [last] == ps;
      DistinctKeysInit(ps);
      RecordOfDistinctKeys(init);
      PutKeys(init, last.0, last.1);
    }
  }

  /** In a record whose keys are all different, every key finds its own entry. */
  lemma {:induction false} FindDistinct<N(!new)>(ps: Fields<N>)
    requires DistinctKeys(ps)
    ensures forall i :: 0 <= i < |ps| ==> Find(ps, ps[i].0) == Some(ps[i].1)
  {
    forall i | 0 <= i < |ps| ensures Find(ps, ps[i].0) == Some(ps[i].1) {
      FindFirst(ps, i);
    }
  }

  /** `x[key]`: a dict lookup that raises KeyError for an absent key and TypeError on a non-dict. */
  function Subscript<N(!new)>(x: Json<N>, key: string): (r: Result<Json<N>>)
    ensures r.Ok? <==> x.Obj? && key in Keys(x.fields)
    ensures r.Ok? ==> Find(x.fields, key) == Some(r.value)
    ensures x.Obj? && key !in Keys(x.fields) ==> r == Err(KeyMissing(key))
  {
    match x
    case Obj(fs) =>
      (match Find(fs, key)
       case Some(v) => Ok(v)
       case None => Err(KeyMissing(key)))
    case _ => Err(ShapeMismatch("subscript"))
  }

  /** `x.get(key, default)`: AttributeError on a non-dict; a key present with value null yields null. */
  function GetOr<N(!new)>(x: Json<N>, key: string, default: Json<N>): (r: Result<Json<N>>)
    ensures r.Ok? <==> x.Obj?
    ensures x.Obj? && key !in Keys(x.fields) ==> r == Ok(default)
    ensures x.Obj? && key in Keys(x.fields) ==> r == Ok(Find(x.fields, key).value)
  {
    match x
    case Obj(fs) => Ok(Find(fs, key).GetOr(default))
    case _ => Err(ShapeMismatch("get"))
  }

  /** `x.get(key)`. */
  function Get<N(!new)>(x: Json<N>, key: string): Result<Json<N>> {
    GetOr(x, key, Null)
  }

  /** What `for e in x` visits: a list's items, a dict's keys, a string's characters.
      Null, booleans and numbers are not iterable. */
  function Iterate<N(!new)>(x: Json<N>): Result<seq<Json<N>>> {
    match x
    case Arr(items) => Ok(items)
    case Obj(fs) => Ok(KeyStrings(fs))
    case Str(s) => Ok(CharStrings(s))
    case _ => Err(ShapeMismatch("iterate"))
  }

  /** The keys of a dict, each as a string value. */
  function KeyStrings<N(!new)>(fs: Fields<N>): (r: seq<Json<N>>)
    ensures |r| == |fs|
    ensures forall i {:trigger r[i]} :: 0 <= i < |fs| ==> r[i] == Str(fs[i].0)
  {
    if |fs| == 0 then [] else [Str(fs[0].0)] + KeyStrings(fs[1..])
  }

  /** The characters of a string, each as a one-character string value. */
  function CharStrings<N(!new)>(s: string): (r: seq<Json<N>>)
    ensures |r| == |s|
    ensures forall i {:trigger r[i]} :: 0 <= i < |s| ==> r[i] == Str([s[i]])
  {
    if |s| == 0 then [] else [Str([s[0]])] + CharStrings(s[1..])
  }

  /** `a, b = x`: x must iterate to exactly two elements. */
  function Unpack2<N(!new)>(x: Json<N>): (r: Result<(Json<N>, Json<N>)>)
    ensures x.Arr? ==> (r.Ok? <==> |x.items| == 2)
    ensures x.Arr? && r.Ok? ==> r.value == (x.items[0], x.items[1])
  {
    var elements :- Iterate(x);
    if |elements| == 2 then Ok((elements[0], elements[1])) else Err(ShapeMismatch("unpack"))
  }

  /** `x.items()`: only a dict has them. */
  function Items<N(!new)>(x: Json<N>): Result<Fields<N>> {
    match x
    case Obj(fs) => Ok(fs)
    case _ => Err(ShapeMismatch("items"))
  }

  /** `x[key] = v`: a dict is updated by `Put`; anything else rejects string keys. */
  function SetItem<N(!new)>(x: Json<N>, key: string, v: Json<N>): (r: Result<Json<N>>)
    ensures r.Ok? <==> x.Obj?
    ensures r.Ok? ==> r.value.Obj? && Find(r.value.fields, key) == Some(v)
    ensures r.Ok? ==> forall k :: k != key ==> Find(r.value.fields, k) == Find(x.fields, k)
  {
    match x
    case Obj(fs) => Ok(Obj(Put(fs, key, v)))
    case _ => Err(ShapeMismatch("item assignment"))
  }
}
