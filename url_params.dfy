/** Query-string parameters and the two small numeric helpers the invoice
    list shares between server page and client widgets. `URLSearchParams` and
    the object made from its entries are both modelled as a map from name to
    value (one value per name). */
module UrlParams {
  import opened Wrappers
  import Numerals

  type Params = map<string, string>

  /** `searchParams.get(key)`: the value, or `null` when the name is absent. */
  function Get(params: Params, key: string): (r: Option<string>)
    ensures r.Some? <==> key in params
    ensures r.Some? ==> r.value == params[key]
  {
    if key in params then Some(params[key]) else None
  }

  /** `params?.key || fallback`: an absent or empty parameter gives the fallback. */
  function OrDefault(params: Params, key: string, fallback: string): (r: string)
    ensures key in params && params[key] != "" ==> r == params[key]
    ensures key !in params || params[key] == "" ==> r == fallback
  {
    if key in params && params[key] != "" then params[key] else fallback
  }

  /** The bounds and default for items per page: the constants
      `MIN_ITEMS_PER_PAGE`, `ITEMS_PER_PAGE` and `MAX_ITEMS_PER_PAGE`. */
  datatype PageSizeLimits = PageSizeLimits(min: int, default: int, max: int) {
    predicate Valid() {
      1 <= min <= max
    }
  }

  /** `clamp(lo, x, hi)`: x brought into [lo, hi]. */
  function Clamp(lo: int, x: int, hi: int): (r: int)
    ensures lo <= hi ==> lo <= r <= hi
    ensures lo <= x <= hi ==> r == x
    ensures lo <= hi && x < lo ==> r == lo
    ensures lo <= hi && x > hi ==> r == hi
  {
    if x < lo then lo else if x > hi then hi else x
  }

  /** `getSafeNumber(param, fallback)`: the number the parameter spells, or
      the fallback when it is absent or not a number. */
  function GetSafeNumber(param: Option<string>, fallback: int): (r: int)
    ensures param.Some? && Numerals.ParseInt(param.value).Some? ==> r == Numerals.ParseInt(param.value).value
    ensures param.None? || Numerals.ParseInt(param.value).None? ==> r == fallback
  {
    if param.Some? && Numerals.ParseInt(param.value).Some? then Numerals.ParseInt(param.value).value else fallback
  }

  /** A clamped value that is written out as `String(n)` and read back with
      `getSafeNumber` and clamped again is unchanged. */
  lemma ClampedNumberRoundTrip(lo: int, x: int, hi: int, fallback: int)
    requires lo <= hi
    ensures var n := Clamp(lo, x, hi);
      Clamp(lo, GetSafeNumber(Some(Numerals.IntToString(n)), fallback), hi) == n
  {
    Numerals.ParseIntToString(Clamp(lo, x, hi));
  }
}
