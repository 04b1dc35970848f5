/** routes/auth.py: registering an account and logging in with it. */
module Auth {
  import opened Values
  import opened ObjectIds
  import opened Errors
  import opened Security
  import opened Database

  /** The body `login` answers with. */
  datatype Token = Token(accessToken: string, tokenType: string)

  /** The claims `login` puts in a token: the account's identity as text and its email. */
  function LoginClaims(id: ObjectId, email: string): (c: Claims)
    ensures c.Keys == {"sub", "email"}
    ensures c["sub"] == DecimalText(id) && c["email"] == email
  {
    map["sub" := DecimalText(id), "email" := email]
  }

  /** `register`: a taken email is refused and the store is left as it was;
      otherwise one account is added, holding the password's hash. */
  method Register(store: Store, crypto: Crypto, name: string, email: string, password: string)
    returns (r: Result<string, HttpError>)
    requires store.Valid()
    modifies store
    ensures store.Valid()
    ensures EmailTaken(old(store.users), email) ==>
      && r == Err(Raise(400, "User already exists"))
      && store.users == old(store.users) && store.nextId == old(store.nextId)
    ensures !EmailTaken(old(store.users), email) ==>
      && r == Ok("User registered successfully")
      && old(store.nextId) !in old(store.users)
      && store.users == old(store.users)[old(store.nextId) := Account(name, email, crypto.hash(password))]
    ensures store.properties == old(store.properties) && store.inquiries == old(store.inquiries)
    ensures EmailsUnique(old(store.users)) ==> EmailsUnique(store.users)
  {
    var existing := FindByEmail(store.users, email);
    if existing.Some? {
      return Err(Raise(400, "User already exists"));
    }
    var account := Account(name, email, crypto.hash(password));
    if EmailsUnique(store.users) {
      InsertKeepsUnique(store.users, store.nextId, account);
    }
    var _ := store.InsertUser(account);
    return Ok("User registered successfully");
  }

  /** `login`: an unknown email and a wrong password get the same refusal; a right
      one gets a bearer token naming the account. It changes nothing. */
  method Login(store: Store, crypto: Crypto, email: string, password: string) returns (r: Result<Token, HttpError>)
    ensures !EmailTaken(store.users, email) ==> r == Err(Raise(401, "Invalid credentials"))
    ensures r.Err? ==> r.error == Raise(401, "Invalid credentials")
    ensures r.Ok? ==> exists id :: LoggedInAs(store.users, crypto, email, password, id, r.value)
    ensures EmailsUnique(store.users) ==>
      forall id :: id in store.users && store.users[id].email == email ==>
        (r.Ok? <==> crypto.verify(password, store.users[id].password))
    ensures EmailsUnique(store.users) && r.Ok? ==>
      forall id :: id in store.users && store.users[id].email == email ==>
        r.value == Token(crypto.issue(LoginClaims(id, email)), "bearer")
  {
    var dbUser := FindByEmail(store.users, email);
    if dbUser.None? || !crypto.verify(password, store.users[dbUser.value].password) {
      return Err(Raise(401, "Invalid credentials"));
    }
    var id := dbUser.value;
    var token := crypto.issue(LoginClaims(id, store.users[id].email));
    r := Ok(Token(token, "bearer"));
    assert LoggedInAs(store.users, crypto, email, password, id, r.value);
    if EmailsUnique(store.users) {
      forall other | other in store.users && store.users[other].email == email
        ensures r.value == Token(crypto.issue(LoginClaims(other, email)), "bearer")
      {
        FoundIsOnly(store.users, email, id, other);
      }
    }
  }

  /** `token` is what `login` issues for account `id`, found by `email` and
      accepting `password`. */
  predicate LoggedInAs(users: map<ObjectId, Account>, crypto: Crypto, email: string, password: string, id: ObjectId, token: Token)
  {
    && id in users && users[id].email == email
    && crypto.verify(password, users[id].password)
    && token == Token(crypto.issue(LoginClaims(id, email)), "bearer")
  }
}
