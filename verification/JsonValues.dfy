/** Parsed JSON values, as a validator meets them. `Absent` is JavaScript's undefined. */
module JsonValues {
  import opened Sequences

  type Names = s: seq<string> | Distinct(s) witness []

  /** `Infinite` is what an overflowing number literal parses to; `keys` lists the own keys in order. */
  datatype Json =
    | Absent
    | Null
    | Bool(flag: bool)
    | Number(num: real)
    | Infinite
    | Text(text: string)
    | Array(items: seq<Json>)
    | Object(keys: Names, values: map<string, Json>)

  const EMPTY := Object([], map[])

  predicate Has(v: Json, k: string) { v.Object? && k in v.keys }

  /** The value of an own key, undefined when there is none. */
  function Get(v: Json, k: string): Json {
    if Has(v, k) && k in v.values then v.values[k] else Absent
  }

  function Word(v: Json): string { if v.Text? then v.text else "" }

  function Words(items: seq<Json>): (r: seq<string>)
    ensures |r| == |items|
  {
    seq(|items|, i requires 0 <= i < |items| => Word(items[i]))
  }
}
