/** The JSON byte layer. The encoder and parser are not modelled byte by byte;
    a codec is a pair of functions between JSON objects and bytes, and the
    only thing assumed of it, where a lemma needs it, is that parsing what was
    serialized gives the object back. */
module Codec {
  import opened Outcomes
  import opened Records

  newtype byte = x: int | 0 <= x < 256

  type Bytes = seq<byte>

  datatype Codec = Codec(serialize: JsonObject -> Bytes, parse: Bytes -> Option<JsonObject>)

  ghost predicate Sound(c: Codec) {
    forall o :: c.parse(c.serialize(o)) == Some(o) && |c.serialize(o)| > 0
  }

  /** `json.Marshal` of a record. */
  function Encode(c: Codec, a: Aml): Bytes {
    c.serialize(ToObject(a))
  }

  /** `json.Unmarshal` into a fresh record: fails exactly when the bytes do
      not parse as a JSON object of strings. */
  function Decode(c: Codec, b: Bytes): Option<Aml> {
    match c.parse(b)
    case None => None
    case Some(o) => Some(FromObject(o))
  }

  /** Decoding what was encoded gives the record back. */
  lemma DecodeEncode(c: Codec, a: Aml)
    requires Sound(c)
    ensures Decode(c, Encode(c, a)) == Some(a)
    ensures |Encode(c, a)| > 0
  {
  }
}
