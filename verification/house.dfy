/** The House record and its stored form. The JSON codec is abstracted: a stored
    value is either the encoding of some House or bytes that do not decode to one. */
module Houses {
  import opened Outcomes

  /** Go's `int` on the 64-bit platforms the contract runs on. */
  newtype Int64 = x: int | -0x8000_0000_0000_0000 <= x < 0x8000_0000_0000_0000

  /** Stored under the field names NagarPalikaID, Owner, Address and Size. */
  datatype House = House(nagarPalikaId: string, owner: string, address: string, size: Int64)

  /** A value in the world state, up to its decoding: `Good(h)` stands for any bytes
      that decode to `h`, `Foreign` for bytes the decoder rejects. */
  datatype Stored = Good(house: House) | Foreign(bytes: seq<bv8>)

  function Decode(v: Stored): Result<House>
  {
    match v
    case Good(h) => Ok(h)
    case Foreign(_) => Err(Undecodable)
  }

  /** Encoding a House and decoding it back yields the same fields. */
  function Encode(h: House): (v: Stored)
    ensures Decode(v) == Ok(h)
  {
    Good(h)
  }

  /** Up to decoding, a value that decodes to `h` is the encoding of `h`. Byte-level
      differences such as field order or unknown fields are below this abstraction. */
  lemma EncodingCanonical(v: Stored, h: House)
    ensures Decode(v) == Ok(h) <==> v == Encode(h)
  {
  }
}
