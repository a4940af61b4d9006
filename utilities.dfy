/** mermaid_py/utilities.py: first-match search over a list of records
    (decoded JSON objects). */
module Utilities {
  import opened Values

  /** A JSON object as the client sees it: string keys to string values. */
  type Record = map<string, string>

  /** `key in item and item[key] == val` */
  predicate HasKeyVal(item: Record, key: string, val: string)
  {
    key in item && item[key] == val
  }

  /** Index of the first record holding `key` with value `val`, or |items|
      when there is none. */
  function MatchIndex(key: string, val: string, items: seq<Record>): (k: nat)
    ensures k <= |items|
    ensures forall j | 0 <= j < k :: !HasKeyVal(items[j], key, val)
    ensures k < |items| ==> HasKeyVal(items[k], key, val)
    decreases |items|
  {
    if items == [] then 0
    else if HasKeyVal(items[0], key, val) then 0
    else 1 + MatchIndex(key, val, items[1..])
  }

  /** The record `get_dict_by_keyval` returns: the first match, or None. */
  function FirstMatch(key: string, val: string, items: seq<Record>): (r: Option<Record>)
    ensures r.None? <==> forall i | 0 <= i < |items| :: !HasKeyVal(items[i], key, val)
    ensures r.Some? ==> r.value in items && HasKeyVal(r.value, key, val)
    ensures r.Some? ==> r.value == items[MatchIndex(key, val, items)]
  {
    var k := MatchIndex(key, val, items);
    if k < |items| then Some(items[k]) else None
  }

  /** The loop of `get_dict_by_keyval`: scan in order, return the first
      record that has `key` with value `val`; records without `key` are
      skipped. The list is a value, so it cannot be changed. */
  method GetDictByKeyval(key: string, val: string, items: seq<Record>) returns (found: Option<Record>)
    ensures found == FirstMatch(key, val, items)
    ensures found.None? <==> forall i | 0 <= i < |items| :: !HasKeyVal(items[i], key, val)
    ensures found.Some? ==> found.value in items && HasKeyVal(found.value, key, val)
  {
    for i := 0 to |items|
      invariant forall j | 0 <= j < i :: !HasKeyVal(items[j], key, val)
    {
      var item := items[i];
      if key in item && item[key] == val {
        return Some(item);
      }
    }
    return None;
  }
}
