/**
 The decoded form of a JSON document, as `json_decode($body, true)` hands it to
 the detector: objects become string-keyed PHP arrays, lists become integer-keyed
 PHP arrays, and a body that is not valid JSON decodes to null.
 */
module Json {

  datatype Json =
    | JNull
    | JBool(b: bool)
    | JNum(n: real)
    | JStr(s: string)
    | JList(items: seq<Json>)
    | JObject(fields: map<string, Json>)

  /** PHP's `is_array` on a decoded value: true for JSON objects and lists alike. */
  predicate IsArray(j: Json) {
    j.JList? || j.JObject?
  }

  /**
   PHP's `isset($data[$key])` for a non-numeric string key: the key is present and
   its value is not null. A decoded list only has integer keys, so it never has one.
   */
  predicate IsSet(j: Json, key: string) {
    j.JObject? && key in j.fields && j.fields[key] != JNull
  }
}
