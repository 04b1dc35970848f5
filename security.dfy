/** The password-hashing and token primitives the routes call. Their
    algorithms are not part of this model: they are carried as functions. */
module Security {
  import opened Values
  import opened Errors

  /** The claims a token carries, as decoded. */
  type Claims = map<string, string>

  datatype Crypto = Crypto(
    hash: string -> string,               // hash_password
    verify: (string, string) -> bool,     // verify_password(plain, hashed)
    issue: Claims -> string,              // create_access_token(data=claims)
    decode: string -> Option<Claims>)     // decode_access_token; None when it does not decode

  /** The guard every token-protected route opens with: `if not payload` rejects a
      token that does not decode and one whose payload is empty; otherwise the
      route goes on with `payload.get("sub")`. */
  function TokenSubject(crypto: Crypto, token: string): (r: Result<Option<string>, HttpError>)
    ensures r.Err? <==> crypto.decode(token).None? || crypto.decode(token).value == map[]
    ensures r.Err? ==> r.error == Raise(401, "Invalid token")
    ensures r.Ok? ==>
      var claims := crypto.decode(token).value;
      r.value == if "sub" in claims then Some(claims["sub"]) else None
  {
    match crypto.decode(token)
    case None => Err(Raise(401, "Invalid token"))
    case Some(claims) =>
      if claims == map[] then Err(Raise(401, "Invalid token"))
      else Ok(if "sub" in claims then Some(claims["sub"]) else None)
  }
}
