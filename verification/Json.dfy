/** Decoded JSON: an object is a finite map, so two objects that differ only in key order are equal. */
module Json {

  datatype Json =
    | Null
    | Bool(flag: bool)
    | Num(number: int)
    | Float(repr: string)   // a number with a fraction or an exponent, NaN or an infinity, as repr() prints it
    | Str(text: string)
    | Arr(items: seq<Json>)
    | Obj(fields: map<string, Json>)

  /** A 128-bit identifier; only equality is ever used. */
  datatype Uuid = Uuid(bits: nat)
}
