/** Small value wrappers shared by the whole model: optional values, results
    with an error, the errors the modelled Python code can raise, and the
    `dict.get(key, default)` lookup. */
module Wrappers {

  datatype Option<+T> = None | Some(value: T)

  datatype Result<+T> = Ok(value: T) | Err(error: Error)

  /** The exceptions the modelled code raises, named after the Python ones. */
  datatype Error =
    | KeyError(key: string)          // direct `d[key]` on a missing key
    | AssertionFailed                // a failing `assert`
    | MissingSheet(sheet: string)    // `pd.read_excel` asked for a sheet the workbook lacks
    | AttributeError(name: string)   // attribute access on `None` or a missing column

  /** `d.get(k, default)`: the value stored under `k`, or `default`. */
  function GetOr<K, V>(d: map<K, V>, k: K, default: V): (v: V)
    ensures k in d ==> v == d[k]
    ensures k !in d ==> v == default
  {
    if k in d then d[k] else default
  }
}
