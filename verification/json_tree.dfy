/** An already-parsed JSON document, and the primitive reads that
    rustc_serialize's JSON `Decoder` offers the mashup's decoders. Turning text
    into this tree is the foreign parser's business and is not modelled. */
module JsonTree {
  import opened Wrappers

  datatype Json =
    | JNull
    | JBool(b: bool)
    | JNumber(n: int)
    | JString(s: string)
    | JArray(items: seq<Json>)
    | JObject(fields: map<string, Json>)

  /** Why a decode failed: a field that is absent, or a value of the wrong kind
      (the name of the kind that was expected). `LengthUnderflow` stands for the
      panic of `0..(len - 1)` on an empty array in the artist decoder. */
  datatype DecodeError =
    | MissingField(field: string)
    | ExpectedType(expected: string)
    | LengthUnderflow

  /** The text parser of the JSON library, as a parameter: `None` when the text
      is not JSON. */
  type Parser = string -> Option<Json>

  /** `read_struct_field`: the value under `name` in an object. The library
      substitutes `null` for an absent field and reports a missing field when the
      reader then fails; every reader used here fails on `null`, so an absent
      field is always reported as missing. */
  function Field(j: Json, name: string): (r: Result<Json, DecodeError>)
    ensures r.Ok? <==> j.JObject? && name in j.fields
    ensures r.Ok? ==> r.value == j.fields[name]
    ensures !j.JObject? ==> r == Err(ExpectedType("Object"))
    ensures j.JObject? && name !in j.fields ==> r == Err(MissingField(name))
  {
    if !j.JObject? then Err(ExpectedType("Object"))
    else if name !in j.fields then Err(MissingField(name))
    else Ok(j.fields[name])
  }

  /** `read_struct_field(name, read_str)`. */
  function StringField(j: Json, name: string): (r: Result<string, DecodeError>)
    ensures r.Ok? <==> Field(j, name).Ok? && Field(j, name).value.JString?
    ensures r.Ok? ==> r.value == j.fields[name].s
    ensures Field(j, name).Err? ==> r == Err(Field(j, name).error)
  {
    var v :- Field(j, name);
    if v.JString? then Ok(v.s) else Err(ExpectedType("String"))
  }

  /** `read_struct_field(name, read_bool)`. */
  function BoolField(j: Json, name: string): (r: Result<bool, DecodeError>)
    ensures r.Ok? <==> Field(j, name).Ok? && Field(j, name).value.JBool?
    ensures r.Ok? ==> r.value == j.fields[name].b
    ensures Field(j, name).Err? ==> r == Err(Field(j, name).error)
  {
    var v :- Field(j, name);
    if v.JBool? then Ok(v.b) else Err(ExpectedType("Boolean"))
  }

  /** `read_struct_field(name, read_seq)`: the elements of an array field. */
  function ArrayField(j: Json, name: string): (r: Result<seq<Json>, DecodeError>)
    ensures r.Ok? <==> Field(j, name).Ok? && Field(j, name).value.JArray?
    ensures r.Ok? ==> r.value == j.fields[name].items
    ensures Field(j, name).Err? ==> r == Err(Field(j, name).error)
  {
    var v :- Field(j, name);
    if v.JArray? then Ok(v.items) else Err(ExpectedType("Array"))
  }

  /** Decoding every element of an array in order with `try!`: the first element
      that fails aborts the whole decode with its error. */
  function DecodeEach<T>(items: seq<Json>, decode: Json -> Result<T, DecodeError>): Result<seq<T>, DecodeError> {
    if |items| == 0 then Ok([])
    else
      var done :- DecodeEach(items[..|items| - 1], decode);
      var last :- decode(items[|items| - 1]);
      Ok(done + [last])
  }

  /** `DecodeEach` succeeds exactly when every element decodes, and then yields
      the decoded elements in order; otherwise it fails with the error of the
      first element that does not decode. */
  lemma {:induction false} DecodeEachMeaning<T>(items: seq<Json>, decode: Json -> Result<T, DecodeError>)
    ensures var r := DecodeEach(items, decode);
      && (r.Ok? <==> forall i :: 0 <= i < |items| ==> decode(items[i]).Ok?)
      && (r.Ok? ==> |r.value| == |items| && forall i :: 0 <= i < |items| ==> r.value[i] == decode(items[i]).value)
      && (r.Err? ==> exists k :: 0 <= k < |items| && decode(items[k]) == Err(r.error)
                                 && forall m :: 0 <= m < k ==> decode(items[m]).Ok?)
  {
    if |items| > 0 {
      var front := items[..|items| - 1];
      DecodeEachMeaning(front, decode);
      assert forall i :: 0 <= i < |front| ==> front[i] == items[i];
    }
  }
}
