/** The dictionaries the core passes around: registrar responses, availability
    results and cache entries, and the exceptions the core raises. */
module Values {

  /** A flat JSON value, as found in a registrar response. */
  datatype Json = JNull | JBool(b: bool) | JInt(i: int) | JStr(s: string)

  /** A JSON object, i.e. a Python `dict` with string keys. */
  type Record = map<string, Json>

  /** Python truthiness of a JSON value. */
  predicate Truthy(v: Json)
  {
    match v
    case JNull => false
    case JBool(b) => b
    case JInt(i) => i != 0
    case JStr(s) => s != ""
  }

  /** `response.get("error", False)` is truthy. */
  predicate IsErrorResponse(response: Record)
  {
    "error" in response && Truthy(response["error"])
  }

  /** The exceptions that can end a run of the core. */
  datatype Failure =
    | IndexError                          // `word[idx + 1]` past the end of a one-letter label
    | ApiRequestError(response: Record)   // the registrar answered with an error dictionary

  /** The fully qualified domain `name.tld`: the cache key and what the registrar is asked about. */
  function FullDomain(name: string, tld: string): (d: string)
    ensures |d| == |name| + 1 + |tld|
    ensures d[..|name|] == name && d[|name|] == '.' && d[|name| + 1..] == tld
  {
    name + "." + tld
  }
}
