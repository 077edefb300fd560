/** The part of SwiftyJSON's `JSON` value that the library-listing code relies on. */
module Json {
  import opened Base

  /** A JSON tree. Numbers are integers only (see README, "Left out"). */
  datatype Json =
    | JNull
    | JBool(b: bool)
    | JNumber(n: int)
    | JString(s: string)
    | JArray(items: seq<Json>)
    | JObject(fields: map<string, Json>)

  /** SwiftyJSON's `Type`: two values merge without a type error exactly when they have the same one. */
  predicate SameType(a: Json, b: Json) {
    match (a, b)
    case (JNull, JNull) => true
    case (JBool(_), JBool(_)) => true
    case (JNumber(_), JNumber(_)) => true
    case (JString(_), JString(_)) => true
    case (JArray(_), JArray(_)) => true
    case (JObject(_), JObject(_)) => true
    case _ => false
  }

  /** `json[key]` followed by `.exists()`: a member is found only in an object that has that key. */
  function Lookup(j: Json, key: string): (r: Option<Json>)
    ensures r.Some? <==> j.JObject? && key in j.fields
    ensures r.Some? ==> r.value == j.fields[key]
  {
    if j.JObject? && key in j.fields then Some(j.fields[key]) else None
  }

  /** `json[key]` used as a value: a missing member (or subscripting a non-object) reads as null. */
  function Field(j: Json, key: string): (r: Json)
    ensures Lookup(j, key).None? ==> r == JNull
    ensures Lookup(j, key).Some? ==> r == Lookup(j, key).value
  {
    Lookup(j, key).GetOr(JNull)
  }

  /** `json.string`: the text of a string value, nil for every other type. */
  function StringValue(j: Json): (r: Option<string>)
    ensures r.Some? <==> j.JString?
    ensures r.Some? ==> r.value == j.s
  {
    if j.JString? then Some(j.s) else None
  }

  /** The error `merged(with:)` throws. */
  datatype MergeError = WrongType

  /** The untypechecked merge SwiftyJSON applies to the members of two objects:
      objects merge member by member, arrays concatenate, any other pair keeps the newer value. */
  function MergeLoose(a: Json, b: Json): Json
    decreases b
  {
    if a.JObject? && b.JObject? then
      JObject(map k | k in a.fields.Keys + b.fields.Keys ::
        if k in b.fields then
          (if k in a.fields then MergeLoose(a.fields[k], b.fields[k]) else b.fields[k])
        else a.fields[k])
    else if a.JArray? && b.JArray? then JArray(a.items + b.items)
    else b
  }

  /** `a.merged(with: b)`: the top-level merge checks types and throws when they differ. */
  function Merged(a: Json, b: Json): (r: Result<Json, MergeError>)
    ensures r.Failure? <==> !SameType(a, b)
    ensures a.JArray? && b.JArray? ==> r == Success(JArray(a.items + b.items))
  {
    if SameType(a, b) then Success(MergeLoose(a, b)) else Failure(WrongType)
  }
}
