/** Encoding and decoding of values at the storage boundary (schema.ts).  Values, validators, codecs
    and JSON itself are arbitrary. */
module Schema {
  import opened Outcomes

  datatype Stringified<T> = Throws | NoText | Text(text: T)
  datatype Validation<V> = Valid(value: V) | Issues(code: nat) | ValidatorThrows(code: nat)

  /** JSON.stringify, JSON.parse and isDeepStrictEqual. */
  datatype Json<!V, !T> = Json(stringify: V -> Stringified<T>, parse: T -> Option<V>, same: (V, V) -> bool)

  /** A Standard Schema, or one with an explicit encoder for the opposite direction. */
  datatype Contract<!V> =
    | Plain(validate: V -> Validation<V>)
    | Codec(validate: V -> Validation<V>, encode: V -> Option<V>)

  datatype SchemaError = Defect(code: nat) | Invalid(code: nat) | NotJson | Lossy | NoRoundTrip | Transforms | BadText

  function ValidateSchema<V>(c: Contract<V>, input: V): Result<V, SchemaError> {
    match c.validate(input)
    case Valid(value) => Success(value)
    case Issues(code) => Failure(Invalid(code))
    case ValidatorThrows(code) => Failure(Defect(code))
  }

  function JsonTextOf<V, T>(j: Json<V, T>, value: V): Result<T, SchemaError> {
    match j.stringify(value)
    case Throws => Failure(NotJson)
    case NoText => Failure(Lossy)
    case Text(text) =>
      var parsed := j.parse(text);
      if parsed.Some? && j.same(parsed.value, value) then Success(text) else Failure(Lossy)
  }

  function DecodeSchema<V, T>(j: Json<V, T>, c: Contract<V>, text: T): Result<V, SchemaError> {
    var parsed := j.parse(text);
    if parsed.None? then Failure(BadText) else ValidateSchema(c, parsed.value)
  }

  function EncodeSchema<V, T>(j: Json<V, T>, c: Contract<V>, value: V): Result<T, SchemaError> {
    match c
    case Codec(_, encode) =>
      var encoded := encode(value);
      if encoded.None? then Failure(Defect(0))
      else
        var text := JsonTextOf(j, encoded.value);
        if text.Failure? then text
        else
          var decoded := DecodeSchema(j, c, text.value);
          if decoded.Failure? then Failure(decoded.error)
          else if !j.same(decoded.value, value) then Failure(NoRoundTrip)
          else text
    case Plain(_) =>
      var validated := ValidateSchema(c, value);
      if validated.Failure? then Failure(validated.error)
      else if !j.same(validated.value, value) then Failure(Transforms)
      else JsonTextOf(j, validated.value)
  }

  // ----- exactly which values cross the boundary

  /** `text` is the JSON of the value, and parses back to a deeply equal one. */
  ghost predicate Survives<V, T>(j: Json<V, T>, value: V, text: T) {
    && j.stringify(value) == Text(text)
    && j.parse(text).Some? && j.same(j.parse(text).value, value)
  }

  /** The text parses, and the validator accepts it with this result. */
  ghost predicate Reads<V, T>(j: Json<V, T>, c: Contract<V>, text: T, value: V) {
    j.parse(text).Some? && c.validate(j.parse(text).value) == Valid(value)
  }

  lemma DecodesExactlyWhen<V, T>(j: Json<V, T>, c: Contract<V>, text: T, value: V)
    ensures DecodeSchema(j, c, text) == Success(value) <==> Reads(j, c, text, value)
    ensures DecodeSchema(j, c, text).Failure? ==>
      && (j.parse(text).None? <==> DecodeSchema(j, c, text).error == BadText)
      && (j.parse(text).Some? ==> !c.validate(j.parse(text).value).Valid?)
  {
  }

  /** A value is encoded as a text exactly if the validator accepts it unchanged and its result
      survives JSON; with an encoder, exactly if what it makes of the value survives JSON and the text
      reads back as the value. */
  lemma EncodesExactlyWhen<V, T>(j: Json<V, T>, c: Contract<V>, value: V, text: T)
    ensures c.Plain? ==>
      (EncodeSchema(j, c, value) == Success(text) <==>
        exists valid :: c.validate(value) == Valid(valid) && j.same(valid, value) && Survives(j, valid, text))
    ensures c.Codec? ==>
      (EncodeSchema(j, c, value) == Success(text) <==>
        && c.encode(value).Some? && Survives(j, c.encode(value).value, text)
        && exists read :: Reads(j, c, text, read) && j.same(read, value))
  {
    if c.Plain? { PlainEncodesExactlyWhen(j, c, value, text); }
    if c.Codec? { CodecEncodesExactlyWhen(j, c, value, text); }
  }

  lemma PlainEncodesExactlyWhen<V, T>(j: Json<V, T>, c: Contract<V>, value: V, text: T)
    requires c.Plain?
    ensures EncodeSchema(j, c, value) == Success(text) <==>
      exists valid :: c.validate(value) == Valid(valid) && j.same(valid, value) && Survives(j, valid, text)
  {
    if EncodeSchema(j, c, value) == Success(text) {
      var valid := c.validate(value).value;
      assert JsonTextOf(j, valid) == Success(text);
      assert c.validate(value) == Valid(valid) && j.same(valid, value) && Survives(j, valid, text);
    } else if c.validate(value).Valid? {
      var valid := c.validate(value).value;
      assert j.same(valid, value) && Survives(j, valid, text) ==> JsonTextOf(j, valid) == Success(text);
    }
  }

  lemma CodecEncodesExactlyWhen<V, T>(j: Json<V, T>, c: Contract<V>, value: V, text: T)
    requires c.Codec?
    ensures EncodeSchema(j, c, value) == Success(text) <==>
      && c.encode(value).Some? && Survives(j, c.encode(value).value, text)
      && exists read :: Reads(j, c, text, read) && j.same(read, value)
  {
    if EncodeSchema(j, c, value) == Success(text) {
      assert c.encode(value).Some?;
      assert JsonTextOf(j, c.encode(value).value) == Success(text);
      assert Survives(j, c.encode(value).value, text);
      var read := DecodeSchema(j, c, text).value;
      assert Reads(j, c, text, read);
      assert j.same(read, value);
    } else if c.encode(value).Some? && Survives(j, c.encode(value).value, text) {
      forall read | Reads(j, c, text, read) ensures !j.same(read, value) {
        assert DecodeSchema(j, c, text) == Success(read);
      }
    }
  }

  // ----- what is assumed of the environment

  /** Deep equality is an equivalence. */
  ghost predicate Equivalence<V(!new)>(same: (V, V) -> bool) {
    && (forall a :: same(a, a))
    && (forall a, b | same(a, b) :: same(b, a))
    && (forall a, b, c | same(a, b) && same(b, c) :: same(a, c))
  }

  /** A validator cannot tell deeply equal inputs apart. */
  ghost predicate Respectful<V(!new)>(same: (V, V) -> bool, validate: V -> Validation<V>) {
    forall a, b | same(a, b) ::
      match validate(a)
      case Valid(value) => validate(b).Valid? && same(value, validate(b).value)
      case _ => !validate(b).Valid?
  }

  // ----- the round trip

  /** Whenever a value is encoded, decoding the text succeeds with a deeply equal value. */
  lemma EncodedValuesDecode<V(!new), T>(j: Json<V, T>, c: Contract<V>, value: V, text: T)
    requires Equivalence(j.same) && Respectful(j.same, c.validate)
    requires EncodeSchema(j, c, value) == Success(text)
    ensures DecodeSchema(j, c, text).Success? && j.same(DecodeSchema(j, c, text).value, value)
  {
    if c.Plain? {
      var validated := c.validate(value).value;
      var parsed := j.parse(text).value;
      assert j.same(parsed, validated) && j.same(validated, value);
      assert j.same(parsed, value);
      var again := c.validate(parsed).value;
      assert j.same(again, validated);
    }
  }

  /** An object has an identity, which deep equality and JSON do not see. */
  datatype Object = Object(identity: nat, content: nat)

  /** JSON of such objects: the text is the content, and parsing makes a new object. */
  function ObjectJson(copied: nat): Json<Object, nat> {
    Json((v: Object) => Text(v.content), (t: nat) => Some(Object(copied, t)), (a: Object, b: Object) => a.content == b.content)
  }

  /** Accepts one object only, by its identity. */
  function Knows(known: Object): Contract<Object> {
    Plain((v: Object) => if v.identity == known.identity then Valid(v) else Issues(7))
  }

  /** Without deep equality being respected the plain round trip fails: a validator that knows one
      object by its identity accepts it, and rejects every copy that JSON makes of it. */
  lemma ValidatorByIdentityBreaksTheRoundTrip(known: Object, copied: nat)
    requires copied != known.identity
    ensures
      var j := ObjectJson(copied);
      var c := Knows(known);
      && Equivalence(j.same) && !Respectful(j.same, c.validate)
      && EncodeSchema(j, c, known) == Success(known.content) && DecodeSchema(j, c, known.content) == Failure(Invalid(7))
  {
    var j := ObjectJson(copied);
    var copy := Object(copied, known.content);
    assert j.same(known, copy) && Knows(known).validate(known).Valid? && !Knows(known).validate(copy).Valid?;
  }

  /** Two values with the same text are deeply equal: a text stands for one value only. */
  lemma TextsTellValuesApart<V(!new), T>(j: Json<V, T>, c: Contract<V>, a: V, b: V, text: T)
    requires Equivalence(j.same) && Respectful(j.same, c.validate)
    requires EncodeSchema(j, c, a) == Success(text) && EncodeSchema(j, c, b) == Success(text)
    ensures j.same(a, b)
  {
    EncodedValuesDecode(j, c, a, text);
    EncodedValuesDecode(j, c, b, text);
    var decoded := DecodeSchema(j, c, text).value;
    assert j.same(a, decoded);
  }
}
