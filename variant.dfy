/**
 * The untyped telemetry dictionary (`[String: Any]`) and the optional casts
 * the normalisers apply to it.  A value is an integer, a string, a nested
 * dictionary, an array, or anything else.  `IntV` stands for every value the
 * bridged `as? Int` cast accepts, which for a Foundation number includes a
 * whole-valued double and a boolean; `OtherV` stands for what no cast in the
 * core accepts (a fractional number, data, dates).
 */
module Variant {
  import opened Wrappers

  datatype Value =
    | IntV(i: int)
    | StrV(s: string)
    | DictV(d: map<string, Value>)
    | ArrayV(elems: seq<Value>)
    | OtherV

  type Dict = map<string, Value>

  /** `dict[key] as? Int` */
  function IntAt(d: Dict, key: string): (r: Option<int>)
    ensures r.Some? <==> key in d && d[key].IntV?
    ensures r.Some? ==> r.value == d[key].i
  {
    if key in d && d[key].IntV? then Some(d[key].i) else None
  }

  /** `dict[key] as? String` */
  function StringAt(d: Dict, key: string): (r: Option<string>)
    ensures r.Some? <==> key in d && d[key].StrV?
    ensures r.Some? ==> r.value == d[key].s
  {
    if key in d && d[key].StrV? then Some(d[key].s) else None
  }

  /** `dict[key] as? [String: Any]` */
  function DictAt(d: Dict, key: string): (r: Option<Dict>)
    ensures r.Some? <==> key in d && d[key].DictV?
    ensures r.Some? ==> r.value == d[key].d
  {
    if key in d && d[key].DictV? then Some(d[key].d) else None
  }

  /** True when every element of the array is a dictionary. */
  predicate AllDicts(elems: seq<Value>) {
    forall k :: 0 <= k < |elems| ==> elems[k].DictV?
  }

  /**
   * `dict[key] as? [[String: Any]]`: the cast succeeds only when the value is an
   * array whose every element is a dictionary.
   */
  function DictArrayAt(d: Dict, key: string): (r: Option<seq<Dict>>)
    ensures r.Some? <==> key in d && d[key].ArrayV? && AllDicts(d[key].elems)
    ensures r.Some? ==> |r.value| == |d[key].elems|
    ensures r.Some? ==> forall k :: 0 <= k < |r.value| ==> DictV(r.value[k]) == d[key].elems[k]
  {
    if key in d && d[key].ArrayV? && AllDicts(d[key].elems) then
      Some(seq(|d[key].elems|, k requires 0 <= k < |d[key].elems| => d[key].elems[k].d))
    else
      None
  }

  /** `(dict[key] as? Int) == 1`: the "equals Int 1" rule used for flags. */
  predicate IsOneAt(d: Dict, key: string) {
    IntAt(d, key) == Some(1)
  }
}
