/**
 * The response handling the list extractors (backend/extractors/) share:
 * the value of `generate_json` is a JSON value or an exception; in a dict,
 * the list sits under the first key present from a priority list; the loop
 * keeps the dict items, in order, and turns each into a fixed-shape record,
 * and any exception on the way makes the whole result empty.
 */
module Extraction {
  import opened Wrappers
  import opened JsonValues

  /** What `generate_json` gives an extractor: the decoded value, or the exception it raised. */
  type Response = Result<Json>

  /** The position in `keys` of the first key present in `d`. */
  function FirstPresent(d: map<string, Json>, keys: seq<string>): (r: Option<nat>)
    ensures r.Some? ==> r.value < |keys| && keys[r.value] in d
    ensures r.Some? ==> forall j :: 0 <= j < r.value ==> keys[j] !in d
    ensures r.None? ==> forall j :: 0 <= j < |keys| ==> keys[j] !in d
  {
    if keys == [] then None
    else if keys[0] in d then Some(0)
    else match FirstPresent(d, keys[1..])
      case Some(i) => Some(i + 1)
      case None => None
  }

  /**
   * The value the item loop runs over: in a dict, the value under the
   * first key present from `keys`, or `otherwise` when none is; a list
   * itself; `[]` for anything else.
   */
  function Selected(result: Json, keys: seq<string>, otherwise: Json): (v: Json)
    ensures result.JArr? ==> v == result
    ensures !result.JArr? && !result.JObj? ==> v == JArr([])
    ensures result.JObj? && FirstPresent(result.fields, keys).None? ==> v == otherwise
    ensures result.JObj? && FirstPresent(result.fields, keys).Some? ==>
      v == result.fields[keys[FirstPresent(result.fields, keys).value]]
  {
    match result
    case JObj(d) =>
      (match FirstPresent(d, keys)
       case Some(i) => d[keys[i]]
       case None => otherwise)
    case JArr(_) => result
    case _ => JArr([])
  }

  /** The dict items of a list, in order; any other item is skipped. */
  function DictItems(items: seq<Json>): (ds: seq<map<string, Json>>)
    ensures |ds| <= |items|
  {
    if items == [] then []
    else if items[0].JObj? then [items[0].fields] + DictItems(items[1..])
    else DictItems(items[1..])
  }

  /** Skipping keeps the order: the dict items of a concatenation are those of each part. */
  lemma {:induction false} DictItemsConcat(a: seq<Json>, b: seq<Json>)
    ensures DictItems(a + b) == DictItems(a) + DictItems(b)
  {
    if a == [] {
      assert a + b == b;
    } else {
      assert (a + b)[0] == a[0];
      assert (a + b)[1..] == a[1..] + b;
      DictItemsConcat(a[1..], b);
    }
  }

  /** A list of dicts loses nothing: every item is kept, in place. */
  lemma {:induction false} DictItemsAllDicts(items: seq<Json>)
    requires forall k :: 0 <= k < |items| ==> items[k].JObj?
    ensures |DictItems(items)| == |items|
    ensures forall k :: 0 <= k < |items| ==> DictItems(items)[k] == items[k].fields
  {
    if items != [] {
      DictItemsAllDicts(items[1..]);
    }
  }

  /** Every record of a run, or the first exception raised while making them. */
  function MapAll<R>(ds: seq<map<string, Json>>, f: map<string, Json> -> Result<R>): (r: Result<seq<R>>)
    ensures r.Ok? ==> |r.value| == |ds|
  {
    if ds == [] then Ok([])
    else match f(ds[0])
      case Err(e) => Err(e)
      case Ok(x) =>
        (match MapAll(ds[1..], f)
         case Err(e) => Err(e)
         case Ok(xs) => Ok([x] + xs))
  }

  /** The run fails exactly when some item fails; otherwise record `k` is the record of item `k`. */
  lemma {:induction false} MapAllSpec<R>(ds: seq<map<string, Json>>, f: map<string, Json> -> Result<R>)
    ensures MapAll(ds, f).Err? <==> exists k :: 0 <= k < |ds| && f(ds[k]).Err?
    ensures MapAll(ds, f).Ok? ==> forall k :: 0 <= k < |ds| ==> f(ds[k]).Ok? && MapAll(ds, f).value[k] == f(ds[k]).value
  {
    if ds != [] {
      MapAllSpec(ds[1..], f);
      if f(ds[0]).Ok? && MapAll(ds[1..], f).Err? {
        var k :| 0 <= k < |ds[1..]| && f(ds[1..][k]).Err?;
        assert f(ds[k + 1]).Err?;
      }
      if MapAll(ds, f).Ok? {
        forall k | 0 < k < |ds| ensures f(ds[k]).Ok? && MapAll(ds, f).value[k] == f(ds[k]).value {
          assert ds[k] == ds[1..][k - 1];
        }
      }
    }
  }

  /**
   * `for item in value: if isinstance(item, dict): out.append(make(item))`:
   * the records of the dict items, or the exception iterating the value or
   * making a record raised.
   */
  function NormaliseSpec<R>(value: Json, f: map<string, Json> -> Result<R>): Result<seq<R>> {
    match ForItems(value)
    case Err(e) => Err(e)
    case Ok(items) => MapAll(DictItems(items), f)
  }

  /** The records `done` so far in front of the result of the rest of a run. */
  function Prefixed<R>(done: seq<R>, rest: Result<seq<R>>): Result<seq<R>> {
    match rest
    case Err(e) => Err(e)
    case Ok(xs) => Ok(done + xs)
  }

  /** The item loop: dict items are turned into records in order; the first exception ends it. */
  method NormaliseLoop<R>(items: seq<Json>, f: map<string, Json> -> Result<R>) returns (r: Result<seq<R>>)
    ensures r == MapAll(DictItems(items), f)
  {
    var out: seq<R> := [];
    var i := 0;
    assert items[0..] == items;
    PrefixedNothing(MapAll(DictItems(items), f));
    while i < |items|
      invariant 0 <= i <= |items|
      invariant MapAll(DictItems(items), f) == Prefixed(out, MapAll(DictItems(items[i..]), f))
    {
      assert items[i..][1..] == items[i + 1..];
      var item := items[i];
      if item.JObj? {
        var rec := f(item.fields);
        if rec.Err? {
          return Err(rec.error);
        }
        PrefixedMove(out, rec.value, MapAll(DictItems(items[i + 1..]), f));
        out := out + [rec.value];
      }
      i := i + 1;
    }
    assert items[i..] == [];
    assert out + [] == out;
    r := Ok(out);
  }

  lemma PrefixedNothing<R>(rest: Result<seq<R>>)
    ensures Prefixed([], rest) == rest
  {
    if rest.Ok? {
      assert [] + rest.value == rest.value;
    }
  }

  /** Moving one record from the rest of the run to the records made so far. */
  lemma PrefixedMove<R>(done: seq<R>, x: R, rest: Result<seq<R>>)
    ensures Prefixed(done, Prefixed([x], rest)) == Prefixed(done + [x], rest)
  {
    if rest.Ok? {
      assert done + ([x] + rest.value) == (done + [x]) + rest.value;
    }
  }

  /** The method form of `NormaliseSpec`. */
  method Normalise<R>(value: Json, f: map<string, Json> -> Result<R>) returns (r: Result<seq<R>>)
    ensures r == NormaliseSpec(value, f)
  {
    var items := ForItems(value);
    if items.Err? {
      return Err(items.error);
    }
    r := NormaliseLoop(items.value, f);
  }

  // ---------------------------------------------------------------- the whole extraction

  /**
   * The value the loop runs over: in a dict, the value under the first
   * key of `keys` present; a dict with none of them is one item itself
   * when `wrapDict` holds and gives no items otherwise.
   */
  function Listed(result: Json, keys: seq<string>, wrapDict: bool): Json {
    Selected(result, keys, if wrapDict then JArr([result]) else JArr([]))
  }

  /** What a list extractor returns for an answer: every record, or none once anything raised. */
  function Extracted<R>(response: Response, keys: seq<string>, wrapDict: bool, f: map<string, Json> -> Result<R>): seq<R> {
    match response
    case Err(_) => []
    case Ok(result) =>
      (match NormaliseSpec(Listed(result, keys, wrapDict), f)
       case Err(_) => []
       case Ok(rs) => rs)
  }

  /** The body of a list extractor's `try`, with its `except` returning `[]`. */
  method Extract<R>(response: Response, keys: seq<string>, wrapDict: bool, f: map<string, Json> -> Result<R>)
    returns (records: seq<R>)
    ensures records == Extracted(response, keys, wrapDict, f)
  {
    if response.Err? {
      return [];
    }
    var r := Normalise(Listed(response.value, keys, wrapDict), f);
    records := if r.Ok? then r.value else [];
  }

  /**
   * A list answer gives one record per dict item, in order, and nothing
   * at all as soon as one dict item cannot be made into a record.
   */
  lemma ExtractedList<R>(items: seq<Json>, keys: seq<string>, wrapDict: bool, f: map<string, Json> -> Result<R>)
    ensures var ds := DictItems(items);
      var rs := Extracted(Ok(JArr(items)), keys, wrapDict, f);
      && ((exists k :: 0 <= k < |ds| && f(ds[k]).Err?) ==> rs == [])
      && ((forall k :: 0 <= k < |ds| ==> f(ds[k]).Ok?) ==>
            |rs| == |ds| && forall k :: 0 <= k < |ds| ==> rs[k] == f(ds[k]).value)
  {
    MapAllSpec(DictItems(items), f);
  }

  /**
   * A dict answer holding one of `keys`: the items are those of the
   * value under the first such key when it is a list, and there are none
   * when it is anything else.
   */
  lemma ExtractedKeyed<R>(d: map<string, Json>, keys: seq<string>, wrapDict: bool, f: map<string, Json> -> Result<R>)
    requires FirstPresent(d, keys).Some?
    ensures var v := d[keys[FirstPresent(d, keys).value]];
      Extracted(Ok(JObj(d)), keys, wrapDict, f) == if v.JArr? then Extracted(Ok(v), keys, wrapDict, f) else []
  {
    var v := d[keys[FirstPresent(d, keys).value]];
    if !v.JArr? && ForItems(v).Ok? {
      DictItemsNone(ForItems(v).value);
    }
  }

  /** A list without dicts gives no records. */
  lemma {:induction false} DictItemsNone(items: seq<Json>)
    requires forall k :: 0 <= k < |items| ==> !items[k].JObj?
    ensures DictItems(items) == []
  {
    if items != [] {
      DictItemsNone(items[1..]);
    }
  }

  /** A dict answer holding none of `keys` is the one item, or gives nothing, as `wrapDict` says. */
  lemma ExtractedUnkeyed<R>(d: map<string, Json>, keys: seq<string>, wrapDict: bool, f: map<string, Json> -> Result<R>)
    requires FirstPresent(d, keys).None?
    ensures !wrapDict ==> Extracted(Ok(JObj(d)), keys, wrapDict, f) == []
    ensures wrapDict && f(d).Ok? ==> Extracted(Ok(JObj(d)), keys, wrapDict, f) == [f(d).value]
    ensures wrapDict && f(d).Err? ==> Extracted(Ok(JObj(d)), keys, wrapDict, f) == []
  {
    var items := [JObj(d)];
    assert items[1..] == [];
    assert DictItems(items) == [d];
    if wrapDict && f(d).Ok? {
      assert [d][1..] == [];
      assert MapAll([d], f) == Ok([f(d).value] + []);
    }
  }

  /** A failed call, or an answer that is neither a dict nor a list, gives nothing. */
  lemma ExtractedNothing<R>(response: Response, keys: seq<string>, wrapDict: bool, f: map<string, Json> -> Result<R>)
    requires response.Err? || (!response.value.JArr? && !response.value.JObj?)
    ensures Extracted(response, keys, wrapDict, f) == []
  {
  }
}
