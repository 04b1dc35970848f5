/** routes/user.py: reading, renaming and re-passwording the account a token names. */
module Users {
  import opened Values
  import opened ObjectIds
  import opened Errors
  import opened Security
  import opened Database
  import Auth

  /** The account a token names, as each route's opening lines resolve it: the token
      guard; `ObjectId(sub)`, which for an absent subject draws a fresh identity that
      no account has and for a text that is no identity raises out of the route; and
      the lookup, which answers 404 when no account has the identity. */
  function Authenticate(users: map<ObjectId, Account>, crypto: Crypto, token: string): (r: Result<ObjectId, HttpError>)
    ensures r.Ok? ==> r.value in users
    ensures TokenSubject(crypto, token).Err? ==> r == Err(Raise(401, "Invalid token"))
    ensures TokenSubject(crypto, token) == Ok(None) ==> r == Err(Raise(404, "User not found"))
    ensures TokenSubject(crypto, token).Ok? && TokenSubject(crypto, token).value.Some? ==>
      var sub := TokenSubject(crypto, token).value.value;
      && (ParseId(sub).None? ==> r == Err(InternalServerError))
      && (ParseId(sub).Some? && ParseId(sub).value !in users ==> r == Err(Raise(404, "User not found")))
      && (ParseId(sub).Some? && ParseId(sub).value in users ==> r == Ok(ParseId(sub).value))
  {
    match TokenSubject(crypto, token)
    case Err(e) => Err(e)
    case Ok(None) => Err(Raise(404, "User not found"))
    case Ok(Some(sub)) =>
      match ParseId(sub)
      case None => Err(InternalServerError)
      case Some(id) => if id in users then Ok(id) else Err(Raise(404, "User not found"))
  }

  /** A token `login` issued resolves to the account that logged in, as long as
      decoding it gives claims that carry the subject that was issued (other
      claims, an expiry say, may be added by the encoder). */
  lemma LoginTokenAuthenticates(users: map<ObjectId, Account>, crypto: Crypto, id: ObjectId)
    requires id in users
    requires
      var decoded := crypto.decode(crypto.issue(Auth.LoginClaims(id, users[id].email)));
      decoded.Some? && "sub" in decoded.value && decoded.value["sub"] == DecimalText(id)
    ensures Authenticate(users, crypto, crypto.issue(Auth.LoginClaims(id, users[id].email))) == Ok(id)
  {
    var decoded := crypto.decode(crypto.issue(Auth.LoginClaims(id, users[id].email)));
    assert decoded.value != map[] by {
      assert "sub" in decoded.value;
    }
    ParseIdText(id);
  }

  /** The body `get_user` answers with: the password is projected away. */
  datatype Profile = Profile(name: string, email: string)

  /** `get_user`. */
  method GetUser(store: Store, crypto: Crypto, token: string) returns (r: Result<Profile, HttpError>)
    ensures Authenticate(store.users, crypto, token).Err? ==> r == Err(Authenticate(store.users, crypto, token).error)
    ensures Authenticate(store.users, crypto, token).Ok? ==>
      var account := store.users[Authenticate(store.users, crypto, token).value];
      r == Ok(Profile(account.name, account.email))
  {
    var user := Authenticate(store.users, crypto, token);
    if user.Err? {
      return Err(user.error);
    }
    var account := store.users[user.value];
    return Ok(Profile(account.name, account.email));
  }

  /** `update_user`: moving to an email another account has is refused; otherwise the
      account's name and email are replaced and its password kept. */
  method UpdateUser(store: Store, crypto: Crypto, token: string, name: string, email: string)
    returns (r: Result<string, HttpError>)
    requires store.Valid()
    modifies store
    ensures store.Valid()
    ensures r.Err? ==> store.users == old(store.users)
    ensures Authenticate(old(store.users), crypto, token).Err? ==> r == Err(Authenticate(old(store.users), crypto, token).error)
    ensures Authenticate(old(store.users), crypto, token).Ok? ==>
      var id := Authenticate(old(store.users), crypto, token).value;
      var account := old(store.users)[id];
      && (email != account.email && EmailTaken(old(store.users), email) ==> r == Err(Raise(400, "Email already in use")))
      && (!(email != account.email && EmailTaken(old(store.users), email)) ==>
            && r == Ok("Profile updated successfully")
            && store.users == old(store.users)[id := Account(name, email, account.password)])
    ensures store.properties == old(store.properties) && store.inquiries == old(store.inquiries)
    ensures store.nextId == old(store.nextId)
    ensures EmailsUnique(old(store.users)) ==> EmailsUnique(store.users)
  {
    var user := Authenticate(store.users, crypto, token);
    if user.Err? {
      return Err(user.error);
    }
    var id := user.value;
    var account := store.users[id];
    if email != account.email {
      var other := FindByEmail(store.users, email);
      if other.Some? {
        return Err(Raise(400, "Email already in use"));
      }
    }
    var updated := Account(name, email, account.password);
    if EmailsUnique(store.users) {
      RewriteKeepsUnique(store.users, id, updated);
    }
    store.UpdateUser(id, updated);
    return Ok("Profile updated successfully");
  }

  /** `change_password`: a wrong current password is refused; otherwise only this
      account's password becomes the new one's hash. */
  method ChangePassword(store: Store, crypto: Crypto, token: string, current: string, replacement: string)
    returns (r: Result<string, HttpError>)
    requires store.Valid()
    modifies store
    ensures store.Valid()
    ensures r.Err? ==> store.users == old(store.users)
    ensures Authenticate(old(store.users), crypto, token).Err? ==> r == Err(Authenticate(old(store.users), crypto, token).error)
    ensures Authenticate(old(store.users), crypto, token).Ok? ==>
      var id := Authenticate(old(store.users), crypto, token).value;
      var account := old(store.users)[id];
      && (!crypto.verify(current, account.password) ==> r == Err(Raise(400, "Current password is incorrect")))
      && (crypto.verify(current, account.password) ==>
            && r == Ok("Password changed successfully")
            && store.users == old(store.users)[id := Account(account.name, account.email, crypto.hash(replacement))])
    ensures store.properties == old(store.properties) && store.inquiries == old(store.inquiries)
    ensures store.nextId == old(store.nextId)
    ensures EmailsUnique(old(store.users)) ==> EmailsUnique(store.users)
  {
    var user := Authenticate(store.users, crypto, token);
    if user.Err? {
      return Err(user.error);
    }
    var id := user.value;
    var account := store.users[id];
    if !crypto.verify(current, account.password) {
      return Err(Raise(400, "Current password is incorrect"));
    }
    var updated := Account(account.name, account.email, crypto.hash(replacement));
    if EmailsUnique(store.users) {
      RewriteKeepsUnique(store.users, id, updated);
    }
    store.UpdateUser(id, updated);
    return Ok("Password changed successfully");
  }
}
