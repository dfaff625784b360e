/**
 * `src/shared/lib/utils.ts`: `updateURLParam`, which writes a query
 * parameter only when its value is truthy, and `truncateText`.
 * A `URLSearchParams` object is modelled by its key/value entries.
 */
module Utils {
  import opened Wrappers
  import Text

  /** The `string | number` value `updateURLParam` accepts. */
  datatype ParamValue = StrVal(s: string) | NumVal(n: Text.Num)

  /** `if (value)`: a non-empty string, or a number other than 0 and NaN. */
  predicate Truthy(v: ParamValue) {
    match v
    case StrVal(s) => s != ""
    case NumVal(n) => Text.Truthy(n)
  }

  /** `value.toString()` for a truthy value. */
  function ValueText(v: ParamValue): (r: string)
    requires Truthy(v)
    ensures v.StrVal? ==> r == v.s
  {
    match v
    case StrVal(s) => s
    case NumVal(n) => Text.IntToText(n.n)
  }

  /** A `URLSearchParams` object: each key holds one value. */
  class SearchParams {
    var entries: map<string, string>

    /** `new URLSearchParams()` */
    constructor ()
      ensures entries == map[]
    {
      entries := map[];
    }

    /** `params.get(key)`, `null` when the key is missing. */
    function Get(key: string): (r: Option<string>)
      reads this
      ensures r.Some? <==> key in entries
      ensures r.Some? ==> r.value == entries[key]
    {
      if key in entries then Some(entries[key]) else None
    }

    /** `params.set(key, value)` replaces any value the key had. */
    method Set(key: string, value: string)
      modifies this
      ensures entries == old(entries)[key := value]
    {
      entries := entries[key := value];
    }
  }

  /** `params.get(key) || fallback`: a missing key and an empty value both give the fallback. */
  function GetOr(entries: map<string, string>, key: string, fallback: string): (r: string)
    ensures key in entries && entries[key] != "" ==> r == entries[key]
    ensures key !in entries || entries[key] == "" ==> r == fallback
  {
    if key in entries && entries[key] != "" then entries[key] else fallback
  }

  /** The entries after `updateURLParam(params, key, value)`. */
  function WithParam(entries: map<string, string>, key: string, value: ParamValue): (r: map<string, string>)
    ensures Truthy(value) ==> key in r && r[key] == ValueText(value)
    ensures !Truthy(value) ==> r == entries
    ensures forall k :: k != key ==> (k in r <==> k in entries)
    ensures forall k :: k in entries && k != key ==> r[k] == entries[k]
  {
    if Truthy(value) then entries[key := ValueText(value)] else entries
  }

  /** `updateURLParam`: sets the key to the value's text iff the value is truthy. */
  method UpdateURLParam(params: SearchParams, key: string, value: ParamValue)
    modifies params
    ensures params.entries == WithParam(old(params.entries), key, value)
  {
    if Truthy(value) {
      params.Set(key, ValueText(value));
    }
  }

  /** Setting a key twice to the same truthy value is the same as setting it once. */
  lemma WithParamIdempotent(entries: map<string, string>, key: string, value: ParamValue)
    ensures WithParam(WithParam(entries, key, value), key, value) == WithParam(entries, key, value)
  {
    if Truthy(value) {
      var once := WithParam(entries, key, value);
      var twice := WithParam(once, key, value);
      assert forall k :: k in twice <==> k in once;
      assert forall k :: k in twice ==> twice[k] == once[k];
      assert twice == once;
    }
  }

  /**
   * `text.slice(0, end)`: a negative end counts back from the length, and
   * the end is clamped to the text.
   */
  function SliceTo(text: string, end: int): (r: string)
    ensures |r| <= |text| && r == text[..|r|]
    ensures 0 <= end <= |text| ==> |r| == end
    ensures end < 0 ==> |r| == if |text| + end < 0 then 0 else |text| + end
  {
    var stop := if end < 0 then (if |text| + end < 0 then 0 else |text| + end)
                else if end > |text| then |text| else end;
    text[..stop]
  }

  /** `truncateText`: the text as it is when it fits, else its first `maxLength` characters and `"..."`. */
  function TruncateText(text: string, maxLength: int): (r: string)
    ensures |text| <= maxLength ==> r == text
    ensures 0 <= maxLength < |text| ==> |r| == maxLength + 3 && r[..maxLength] == text[..maxLength] && r[maxLength..] == "..."
    ensures maxLength < |text| ==> 3 <= |r| <= |text| + 3 && r[..|r| - 3] == text[..|r| - 3] && r[|r| - 3..] == "..."
    ensures maxLength < 0 && -maxLength <= |text| ==> r == text[..|text| + maxLength] + "..."
  {
    if |text| <= maxLength then text else SliceTo(text, maxLength) + "..."
  }

  /** For a non-negative limit, truncating a truncated text changes nothing more. */
  lemma TruncateIdempotent(text: string, maxLength: int)
    requires maxLength >= 0
    ensures TruncateText(TruncateText(text, maxLength), maxLength) == TruncateText(text, maxLength)
  {
    if maxLength < |text| {
      var once := TruncateText(text, maxLength);
      assert SliceTo(once, maxLength) == text[..maxLength];
    }
  }
}
