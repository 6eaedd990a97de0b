/** The shapes the client uses from the JOSE library. The client reads no field of a JSON Web
    Key: it hands downloaded keys to the cacher and returns the cacher's key as it is. The key
    ID is kept because cachers match keys on it. Of a parsed token the client reads only the
    key ID of its first protected header. */
module Jose {

  type Bytes = seq<bv8>

  /** A JSON Web Key (section 4 of RFC 7517), opaque to the client; `material` stands for
      every field other than the key ID. */
  datatype Key = Key(kid: string, material: Bytes)

  /** One protected header of a JSON Web Signature. */
  datatype Header = Header(keyID: string)

  /** A parsed JSON Web Token; a token serialised with several signatures has several
      headers. */
  datatype Token = Token(headers: seq<Header>)
}
