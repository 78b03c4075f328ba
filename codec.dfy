/**
  A symbolic model of the JWT library the token handlers call.

  A signed token is a term that remembers the claim set, the algorithm named
  in its header and the private key that signed it. Decoding checks the
  algorithm against the allowed one, the signature against the public key,
  and the `exp` claim against the clock; nothing about the wire format is
  modelled.
*/
module Codec {
  import opened Results

  /** A claim value as stored in a decoded payload: a string, an integer
      timestamp, or JSON null. */
  datatype Value = Null | Str(s: string) | Int(i: int)

  /** A claim set, i.e. the payload dictionary of a token. */
  type Claims = map<string, Value>

  /** Key material is identified by the key pair it belongs to. */
  datatype PrivateKey = PrivateKey(pair: nat)
  datatype PublicKey = PublicKey(pair: nat)

  /** The public key that checks signatures made with `key`. */
  function PublicOf(key: PrivateKey): PublicKey
  {
    PublicKey(key.pair)
  }

  /** A bearer token: either a signed claim set or text that does not parse
      as a token at all. */
  datatype Jwt =
    | Signed(claims: Claims, alg: string, signer: PrivateKey)
    | Malformed(text: string)

  /** The library's `InvalidTokenError` family. */
  datatype DecodeError =
    | DecodeError        // malformed token or malformed `exp`
    | InvalidAlgorithm   // header names an algorithm that is not allowed
    | InvalidSignature   // signed with a key that does not match
    | ExpiredSignature   // `exp` is not after the current time

  const ExpField := "exp"

  /** Python's `dict.get`: a missing key reads as None. */
  function Get(c: Claims, key: string): Value
  {
    if key in c then c[key] else Null
  }

  /** `jwt.encode`: sign a claim set with a private key. */
  function Sign(claims: Claims, key: PrivateKey, alg: string): Jwt
  {
    Signed(claims, alg, key)
  }

  /** `exp` holds at time `now`: absent, or an integer strictly after `now`. */
  predicate Unexpired(claims: Claims, now: int)
  {
    ExpField !in claims || (claims[ExpField].Int? && now < claims[ExpField].i)
  }

  /** `jwt.decode` with a single allowed algorithm: the claim set, or the
      first check that fails. */
  function Decode(token: Jwt, key: PublicKey, alg: string, now: int): (r: Result<Claims, DecodeError>)
    ensures r.Ok? <==>
      token.Signed? && token.alg == alg && key == PublicOf(token.signer) && Unexpired(token.claims, now)
    ensures r.Ok? ==> r.value == token.claims
  {
    match token
    case Malformed(_) => Err(DecodeError)
    case Signed(claims, tokenAlg, signer) =>
      if tokenAlg != alg then Err(InvalidAlgorithm)
      else if key != PublicOf(signer) then Err(InvalidSignature)
      else if ExpField in claims && !claims[ExpField].Int? then Err(DecodeError)
      else if ExpField in claims && claims[ExpField].i <= now then Err(ExpiredSignature)
      else Ok(claims)
  }

  /** Round trip: a token signed with the private half of a key pair decodes,
      under the same algorithm and before its `exp`, to the claims it was
      signed over. */
  lemma SignThenDecode(claims: Claims, key: PrivateKey, alg: string, now: int)
    requires Unexpired(claims, now)
    ensures Decode(Sign(claims, key, alg), PublicOf(key), alg, now) == Ok(claims)
  {
  }

  /** A token is refused once its `exp` has passed, however well it is signed. */
  lemma ExpiredIsRejected(claims: Claims, key: PrivateKey, alg: string, now: int)
    requires ExpField in claims && claims[ExpField].Int? && claims[ExpField].i <= now
    ensures Decode(Sign(claims, key, alg), PublicOf(key), alg, now) == Err(ExpiredSignature)
  {
  }

  /** A token whose header names another algorithm is refused before its
      signature is even looked at. */
  lemma OtherAlgorithmIsRejected(claims: Claims, key: PrivateKey, signedAlg: string, pub: PublicKey, alg: string, now: int)
    requires signedAlg != alg
    ensures Decode(Sign(claims, key, signedAlg), pub, alg, now) == Err(InvalidAlgorithm)
  {
  }
}
