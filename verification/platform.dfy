/** The platform primitives the app calls but does not implement: ed25519 (signing),
    SHA-256, UTF-8 text encoding, js-base64, JSON.stringify, ISO-8601 date text, and the
    floating-point square root and arc tangent. Each is a function value held in a
    `Primitives` record, so every operation of the model is stated for any implementation;
    the properties the app relies on are the predicates below, which the lemmas require. */
module Platform {
  import opened Common

  type Bytes = seq<byte>

  /** A JSON value as JSON.stringify sees it; object members keep their insertion order. */
  datatype Json =
    | JNull
    | JBool(b: bool)
    | JNum(n: real)
    | JStr(s: string)
    | JArr(items: seq<Json>)
    | JObj(members: seq<(string, Json)>)

  datatype Primitives = Primitives(
    /** ed25519.getPublicKey(privateKey) */
    publicKeyOf: Bytes -> Bytes,
    /** ed25519.sign(message, privateKey) */
    sign: (Bytes, Bytes) -> Bytes,
    /** ed25519.verify(signature, message, publicKey); false also where the library throws */
    verify: (Bytes, Bytes, Bytes) -> bool,
    /** sha256(bytes) from @noble/hashes */
    sha256: Bytes -> Bytes,
    /** new TextEncoder().encode(text) */
    utf8: string -> Bytes,
    /** js-base64 encode */
    base64Encode: string -> string,
    /** js-base64 decode; None where it throws */
    base64Decode: string -> Option<string>,
    /** JSON.stringify */
    stringify: Json -> string,
    /** new Date(ms).toISOString() */
    isoString: int -> string,
    /** new Date(text).getTime(); None for NaN */
    parseDate: string -> Option<int>,
    /** Math.sqrt */
    sqrt: real -> real,
    /** Math.atan2(y, x) */
    atan2: (real, real) -> real
  )

  /** What the app relies on: a signature made with a private key verifies against that key's
      public key; keys, signatures and digests have their ed25519 and SHA-256 sizes; base64
      decodes what it encoded and encodes only the empty text as empty; an ISO date text parses
      back to its instant. */
  ghost predicate Sound(p: Primitives)
  {
    && (forall key, msg :: p.verify(p.sign(msg, key), msg, p.publicKeyOf(key)))
    && (forall key :: |p.publicKeyOf(key)| == 32)
    && (forall key, msg :: |p.sign(msg, key)| == 64)
    && (forall msg :: |p.sha256(msg)| == 32)
    && (forall text :: p.base64Decode(p.base64Encode(text)) == Some(text))
    && (forall text :: p.base64Encode(text) == "" <==> text == "")
    && (forall ms :: p.parseDate(p.isoString(ms)) == Some(ms))
  }

  /** The symbolic reading of signatures: a signature made over one message verifies for no
      other message under the signer's public key. */
  ghost predicate Unforgeable(p: Primitives)
  {
    forall key, msg, other :: p.verify(p.sign(msg, key), other, p.publicKeyOf(key)) ==> other == msg
  }

  /** Distinct texts encode to distinct bytes and distinct JSON values print to distinct texts. */
  ghost predicate InjectiveEncodings(p: Primitives)
  {
    && (forall a, b :: p.utf8(a) == p.utf8(b) ==> a == b)
    && (forall a, b :: p.stringify(a) == p.stringify(b) ==> a == b)
  }
}
