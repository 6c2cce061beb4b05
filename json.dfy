/**
 * Decoded JSON documents as `response.json()` returns them, and the
 * Python operations the library applies to them: indexing by a field,
 * iterating, truthiness and the dict comprehension `{v[f]: v for v in xs}`.
 */
module Json {
  import opened Wrappers

  datatype Json =
    | Null
    | Bool(b: bool)
    | Int(i: int)
    | Str(s: string)
    | Arr(items: seq<Json>)
    | Obj(fields: map<string, Json>)

  /** `v[key]`; None where Python raises KeyError (missing key) or TypeError (not an object). */
  function Field(v: Json, key: string): (r: Option<Json>)
    ensures r.Some? <==> v.Obj? && key in v.fields
  {
    if v.Obj? && key in v.fields then Some(v.fields[key]) else None
  }

  /** Python truthiness of a decoded value. */
  predicate Truthy(v: Json) {
    match v
    case Null => false
    case Bool(b) => b
    case Int(i) => i != 0
    case Str(s) => s != ""
    case Arr(items) => items != []
    case Obj(fields) => fields != map[]
  }

  /** `needle` occurs in `s` as a contiguous piece. */
  predicate Substring(needle: string, s: string)
    decreases |s|
  {
    needle <= s || (|s| > 0 && Substring(needle, s[1..]))
  }

  /**
   * Python's `key in v` for a string `key`: a key of an object, an element
   * of a list, a piece of a string; on other values it raises TypeError (None).
   */
  function Contains(v: Json, key: string): (r: Option<bool>)
    ensures r.None? <==> v.Null? || v.Bool? || v.Int?
    ensures v.Obj? ==> r == Some(key in v.fields)
    ensures v.Arr? ==> r == Some(Str(key) in v.items)
    ensures v.Str? ==> r == Some(Substring(key, v.s))
  {
    match v
    case Obj(fields) => Some(key in fields)
    case Arr(items) => Some(Str(key) in items)
    case Str(s) => Some(Substring(key, s))
    case _ => None
  }

  /** Values Python can use as dictionary keys (lists and dicts cannot). */
  predicate Hashable(v: Json) {
    !v.Arr? && !v.Obj?
  }

  /**
   * The elements a comprehension over `v` visits, where every element is
   * then indexed by a field name. Iterating a non-empty object or string
   * yields strings, and indexing a string by a name raises TypeError, so
   * those cases fail (None) like scalars, which are not iterable.
   */
  function Elements(v: Json): (r: Option<seq<Json>>)
    ensures v.Arr? ==> r == Some(v.items)
  {
    match v
    case Arr(items) => Some(items)
    case Obj(fields) => if fields == map[] then Some([]) else None
    case Str(s) => if s == "" then Some([]) else None
    case _ => None
  }

  /** The number a boolean or an integer stands for in Python's arithmetic and comparisons. */
  function Numeric(v: Json): int
    requires v.Bool? || v.Int?
  {
    if v.Bool? then (if v.b then 1 else 0) else v.i
  }

  /** Python's `==` on decoded scalars: booleans and integers compare as numbers, other values by kind and content. */
  predicate PyEquals(x: Json, y: Json) {
    if (x.Bool? || x.Int?) && (y.Bool? || y.Int?) then Numeric(x) == Numeric(y) else x == y
  }

  /**
   * The dictionary key a value is filed under: `True` and `1`, `False` and
   * `0` are one key to a Python dict, kept here as the integer.
   */
  function DictKey(v: Json): Json {
    if v.Bool? then Int(Numeric(v)) else v
  }

  /** Two values are the same dictionary key exactly when Python finds them equal. */
  lemma DictKeyIsPyEquals(x: Json, y: Json)
    ensures DictKey(x) == DictKey(y) <==> PyEquals(x, y)
  {
  }

  /** `item[field]` used as a dictionary key; None where indexing raises or the value is unhashable. */
  function KeyOf(item: Json, field: string): (k: Option<Json>)
    ensures k.Some? <==> item.Obj? && field in item.fields && Hashable(item.fields[field])
    ensures k.Some? ==> k.value == DictKey(item.fields[field])
  {
    if item.Obj? && field in item.fields && Hashable(item.fields[field])
    then Some(DictKey(item.fields[field])) else None
  }

  predicate AllKeyed(items: seq<Json>, field: string) {
    forall i :: 0 <= i < |items| ==> KeyOf(items[i], field).Some?
  }

  /** The set of keys the items carry under `field`. */
  function KeysOf(items: seq<Json>, field: string): set<Json>
    requires AllKeyed(items, field)
  {
    set i | 0 <= i < |items| :: KeyOf(items[i], field).value
  }

  /** No later item carries the same key as item `i`. */
  predicate LastWithKey(items: seq<Json>, field: string, i: int)
    requires AllKeyed(items, field) && 0 <= i < |items|
  {
    forall j :: i < j < |items| ==> KeyOf(items[j], field).value != KeyOf(items[i], field).value
  }

  /** Every item carries its own key. */
  predicate DistinctKeys(items: seq<Json>, field: string)
    requires AllKeyed(items, field)
  {
    forall i, j :: 0 <= i < j < |items| ==> KeyOf(items[i], field).value != KeyOf(items[j], field).value
  }

  /**
   * `{v[field]: v for v in items}`, evaluated left to right, so that a later
   * item overwrites an earlier one with the same key; None where Python raises.
   */
  function KeyBy(items: seq<Json>, field: string): Option<map<Json, Json>>
    decreases |items|
  {
    if |items| == 0 then Some(map[])
    else
      match KeyBy(items[..|items| - 1], field)
      case None => None
      case Some(m) =>
        match KeyOf(items[|items| - 1], field)
        case None => None
        case Some(k) => Some(m[k := items[|items| - 1]])
  }

  /** The comprehension succeeds exactly when every item carries a usable key. */
  lemma {:induction false} KeyByDefined(items: seq<Json>, field: string)
    ensures KeyBy(items, field).Some? <==> AllKeyed(items, field)
    decreases |items|
  {
    if |items| > 0 {
      var init := items[..|items| - 1];
      KeyByDefined(init, field);
      assert forall i :: 0 <= i < |init| ==> init[i] == items[i];
    }
  }

  /** The comprehension over all items is the one over all but the last, updated with the last. */
  lemma KeyBySnoc(items: seq<Json>, field: string)
    requires |items| > 0 && AllKeyed(items, field)
    ensures var init := items[..|items| - 1];
      && AllKeyed(init, field) && KeyBy(init, field).Some? && KeyBy(items, field).Some?
      && KeyBy(items, field).value == KeyBy(init, field).value[KeyOf(items[|items| - 1], field).value := items[|items| - 1]]
  {
    var init := items[..|items| - 1];
    assert forall i :: 0 <= i < |init| ==> init[i] == items[i];
    KeyByDefined(init, field);
  }

  /** The keys of all items are those of all but the last, plus the last one's. */
  lemma KeysOfSnoc(items: seq<Json>, field: string)
    requires |items| > 0 && AllKeyed(items, field)
    ensures var init := items[..|items| - 1];
      AllKeyed(init, field) && KeysOf(items, field) == KeysOf(init, field) + {KeyOf(items[|items| - 1], field).value}
  {
    var n := |items| - 1;
    var init := items[..n];
    assert forall i :: 0 <= i < n ==> init[i] == items[i];
    forall x | x in KeysOf(items, field) ensures x in KeysOf(init, field) + {KeyOf(items[n], field).value} {
      var i :| 0 <= i < |items| && KeyOf(items[i], field).value == x;
      if i < n { assert KeyOf(init[i], field).value == x; }
    }
  }

  /** The keys of the map are exactly the items' keys. */
  lemma {:induction false} KeyByKeys(items: seq<Json>, field: string)
    requires AllKeyed(items, field)
    ensures KeyBy(items, field).Some? && KeyBy(items, field).value.Keys == KeysOf(items, field)
    decreases |items|
  {
    KeyByDefined(items, field);
    if |items| > 0 {
      KeyBySnoc(items, field);
      KeysOfSnoc(items, field);
      KeyByKeys(items[..|items| - 1], field);
    }
  }

  /** Each key maps to the last item carrying it. */
  lemma {:induction false} KeyByLast(items: seq<Json>, field: string)
    requires AllKeyed(items, field)
    ensures KeyBy(items, field).Some?
    ensures forall i :: 0 <= i < |items| && LastWithKey(items, field, i) ==>
              && KeyOf(items[i], field).value in KeyBy(items, field).value
              && KeyBy(items, field).value[KeyOf(items[i], field).value] == items[i]
    decreases |items|
  {
    KeyByDefined(items, field);
    if |items| > 0 {
      var n := |items| - 1;
      var init := items[..n];
      KeyBySnoc(items, field);
      KeyByLast(init, field);
      var m := KeyBy(init, field).value;
      var k := KeyOf(items[n], field).value;
      assert KeyBy(items, field).value == m[k := items[n]];
      forall i | 0 <= i < |items| && LastWithKey(items, field, i)
        ensures && KeyOf(items[i], field).value in KeyBy(items, field).value
                && KeyBy(items, field).value[KeyOf(items[i], field).value] == items[i]
      {
        if i < n {
          LastInInit(items, field, i);
          assert KeyOf(init[i], field).value in m && m[KeyOf(init[i], field).value] == init[i];
        }
      }
    }
  }

  /** An item that is last with its key among all items is so among all but the last, and its key is not the last one's. */
  lemma LastInInit(items: seq<Json>, field: string, i: int)
    requires AllKeyed(items, field) && 0 <= i < |items| - 1 && LastWithKey(items, field, i)
    ensures var init := items[..|items| - 1];
      && AllKeyed(init, field) && init[i] == items[i] && LastWithKey(init, field, i)
      && KeyOf(items[i], field).value != KeyOf(items[|items| - 1], field).value
  {
    var init := items[..|items| - 1];
    assert forall j :: 0 <= j < |init| ==> init[j] == items[j];
  }

  /**
   * The keys of the map are exactly the items' keys, and each key maps to
   * the last item carrying it.
   */
  lemma KeyByContents(items: seq<Json>, field: string)
    requires AllKeyed(items, field)
    ensures KeyBy(items, field).Some?
    ensures KeyBy(items, field).value.Keys == KeysOf(items, field)
    ensures forall i :: 0 <= i < |items| && LastWithKey(items, field, i) ==>
              KeyBy(items, field).value[KeyOf(items[i], field).value] == items[i]
  {
    KeyByKeys(items, field);
    KeyByLast(items, field);
  }

  /** The map never has more entries than there are items, and has exactly as many when keys are distinct. */
  lemma {:induction false} KeyBySize(items: seq<Json>, field: string)
    requires AllKeyed(items, field)
    ensures KeyBy(items, field).Some?
    ensures |KeyBy(items, field).value| <= |items|
    ensures DistinctKeys(items, field) ==> |KeyBy(items, field).value| == |items|
    decreases |items|
  {
    KeyByDefined(items, field);
    if |items| > 0 {
      var n := |items| - 1;
      var init := items[..n];
      assert forall i :: 0 <= i < n ==> init[i] == items[i];
      assert AllKeyed(init, field);
      KeyBySize(init, field);
      var m := KeyBy(init, field).value;
      var k := KeyOf(items[n], field).value;
      if DistinctKeys(items, field) {
        assert DistinctKeys(init, field);
        KeyByKeys(init, field);
        assert k !in m.Keys;
      }
    }
  }

  /** `{v["id"]: v for v in [{"id": True}, {"id": 1}]}` has one entry, holding the second element. */
  lemma BoolAndOneShareAKey(a: Json, b: Json)
    requires a == Obj(map["id" := Bool(true)]) && b == Obj(map["id" := Int(1)])
    ensures KeyBy([a, b], "id") == Some(map[Int(1) := b])
  {
    SingleItem(a, "id");
    assert [a, b][..1] == [a];
    assert KeyOf(b, "id") == Some(Int(1));
    assert KeyBy([a, b], "id") == Some(map[Int(1) := a][Int(1) := b]);
    assert map[Int(1) := a][Int(1) := b] == map[Int(1) := b];
  }

  /** A single keyed item gives a map with exactly that one entry. */
  lemma SingleItem(item: Json, field: string)
    requires KeyOf(item, field).Some?
    ensures KeyBy([item], field) == Some(map[KeyOf(item, field).value := item])
  {
    assert [item][..0] == [];
  }
}
