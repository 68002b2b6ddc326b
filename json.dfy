/**
 * A model of `serde_json::Value`, the tree every request and response passes
 * through, with the field lookups that serde's derived deserializers perform.
 * Numbers are split the way serde_json keeps them: integers exactly, and
 * floating-point values as reals (rounding is not modelled).
 */
module Json {
  import opened Wrappers

  datatype Json =
    | JNull
    | JBool(b: bool)
    | JInt(i: int)
    | JFloat(f: real)
    | JString(s: string)
    | JArray(items: seq<Json>)
    | JObject(fields: map<string, Json>)

  /** `serde_json::Error`, kept as its description. */
  datatype JsonError = JsonError(description: string)

  function MissingField(name: string): JsonError {
    JsonError("missing field `" + name + "`")
  }

  function InvalidType(expected: string): JsonError {
    JsonError("invalid type: expected " + expected)
  }

  /** A field without a serde default: it must be present. */
  function Required<T>(fields: map<string, Json>, name: string, dec: Json -> Result<T, JsonError>): Result<T, JsonError> {
    if name in fields then dec(fields[name]) else Err(MissingField(name))
  }

  /** An `Option<T>` field: serde reads an absent field and an explicit `null` alike as `None`. */
  function Optional<T>(fields: map<string, Json>, name: string, dec: Json -> Result<T, JsonError>): Result<Option<T>, JsonError> {
    if name !in fields || fields[name] == JNull then Ok(None)
    else
      var v :- dec(fields[name]);
      Ok(Some(v))
  }

  function AsString(j: Json): Result<string, JsonError> {
    if j.JString? then Ok(j.s) else Err(InvalidType("a string"))
  }

  function AsBool(j: Json): Result<bool, JsonError> {
    if j.JBool? then Ok(j.b) else Err(InvalidType("a boolean"))
  }

  function AsObject(j: Json): Result<map<string, Json>, JsonError> {
    if j.JObject? then Ok(j.fields) else Err(InvalidType("a map"))
  }

  /** An `f32` or `f64`: serde_json accepts integers for these too. */
  function AsFloat(j: Json): Result<real, JsonError> {
    if j.JFloat? then Ok(j.f)
    else if j.JInt? then Ok(j.i as real)
    else Err(InvalidType("a floating point number"))
  }

  /** Each element of `s` mapped through `f`. */
  function MapSeq<A, B>(f: A -> B, s: seq<A>): (r: seq<B>)
    ensures |r| == |s|
    ensures forall i :: 0 <= i < |s| ==> r[i] == f(s[i])
  {
    if s == [] then [] else [f(s[0])] + MapSeq(f, s[1..])
  }

  /** Each element of `s` decoded through `dec`; the first failure is the result. */
  function Traverse<A, B>(dec: A -> Result<B, JsonError>, s: seq<A>): (r: Result<seq<B>, JsonError>)
    ensures r.Ok? ==> |r.value| == |s| && forall i :: 0 <= i < |s| ==> dec(s[i]) == Ok(r.value[i])
    ensures r.Err? ==> exists i :: 0 <= i < |s| && dec(s[i]) == Err(r.error)
  {
    if s == [] then Ok([])
    else
      var head :- dec(s[0]);
      var tail :- Traverse(dec, s[1..]);
      assert forall i :: 1 <= i < |s| ==> s[i] == s[1..][i - 1];
      Ok([head] + tail)
  }

  lemma TraverseOne<A, B>(dec: A -> Result<B, JsonError>, x: A)
    requires dec(x).Ok?
    ensures Traverse(dec, [x]) == Ok([dec(x).value])
  {
    assert [x][0] == x && [x][1..] == [];
    assert [dec(x).value] + [] == [dec(x).value];
  }

  /** Decoding undoes encoding element-wise, so it undoes it on sequences. */
  lemma {:induction false} TraverseMapSeq<A, B>(enc: B -> A, dec: A -> Result<B, JsonError>, s: seq<B>)
    requires forall x :: x in s ==> dec(enc(x)) == Ok(x)
    ensures Traverse(dec, MapSeq(enc, s)) == Ok(s)
    decreases |s|
  {
    if s != [] {
      var m := MapSeq(enc, s);
      assert m[0] == enc(s[0]) && s[0] in s;
      assert m[1..] == MapSeq(enc, s[1..]);
      forall x | x in s[1..] ensures dec(enc(x)) == Ok(x) {
        assert x in s;
      }
      TraverseMapSeq(enc, dec, s[1..]);
      assert [s[0]] + s[1..] == s;
    }
  }
}
