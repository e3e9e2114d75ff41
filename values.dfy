/** Values the model shares: PHP's nullable values and its truthiness of a
    nullable string, JSON documents and PHP arrays, and the outcome of a call
    into a library outside the model. */
module Values {

  /** A PHP nullable value (`?T`): `None` stands for `null`. */
  datatype Option<+T> = None | Some(value: T)

  /** What a call into code outside the model does: return a value or throw. */
  datatype Call<+T> = Returns(value: T) | Throws

  /** A JSON document, as the JSON library reads and writes it. */
  datatype Json =
    | JNull
    | JBool(b: bool)
    | JNumber(literal: string)
    | JString(s: string)
    | JArray(items: seq<Json>)
    | JObject(members: seq<(string, Json)>)

  /** A key of a PHP array. */
  datatype ArrayKey = IntKey(i: int) | StringKey(s: string)

  /** A PHP array: its entries in insertion order. */
  type PhpArray = seq<(ArrayKey, Json)>

  /** PHP's conversion of a `?string` to bool: `null`, `''` and `'0'` are false,
      every other string is true. */
  predicate Truthy(s: Option<string>) {
    s.Some? && s.value != "" && s.value != "0"
  }
}
