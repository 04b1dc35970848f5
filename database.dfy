/** The three collections the routes share (database.py): accounts, property
    records and the owner inquiries, each keyed by the identity the store
    assigns on `insert_one`. One counter hands out identities for all three, so
    no two stored documents share one. */
module Database {
  import opened Values
  import opened ObjectIds

  /** A document of `user_collection`: the fields `register` writes. */
  datatype Account = Account(name: string, email: string, password: string)

  /** A document of the `User Query` collection, as `contact_owner` writes it. */
  datatype Inquiry = Inquiry(name: string, contactNo: string, message: string, propertyId: string, createdAt: string)

  /** Some account is registered under `email`. */
  predicate EmailTaken(users: map<ObjectId, Account>, email: string)
  {
    exists id :: id in users && users[id].email == email
  }

  /** No two accounts share an email. */
  predicate EmailsUnique(users: map<ObjectId, Account>)
  {
    forall a, b :: a in users && b in users && users[a].email == users[b].email ==> a == b
  }

  /** `find_one({"email": email})` over the accounts: some account with that email,
      or none when there is no such account. */
  method FindByEmail(users: map<ObjectId, Account>, email: string) returns (found: Option<ObjectId>)
    ensures found.Some? ==> found.value in users && users[found.value].email == email
    ensures found.None? <==> !EmailTaken(users, email)
  {
    var unseen := users.Keys;
    while unseen != {}
      invariant unseen <= users.Keys
      invariant forall id :: id in users && id !in unseen ==> users[id].email != email
      decreases |unseen|
    {
      var id :| id in unseen;
      if users[id].email == email {
        return Some(id);
      }
      unseen := unseen - {id};
    }
    return None;
  }

  /** With unique emails, the account found by email is the only one. */
  lemma FoundIsOnly(users: map<ObjectId, Account>, email: string, a: ObjectId, b: ObjectId)
    requires EmailsUnique(users)
    requires a in users && users[a].email == email
    requires b in users && users[b].email == email
    ensures a == b
  {
  }

  /** Adding an account under a fresh identity with an email nobody has keeps emails unique. */
  lemma InsertKeepsUnique(users: map<ObjectId, Account>, id: ObjectId, account: Account)
    requires EmailsUnique(users) && id !in users && !EmailTaken(users, account.email)
    ensures EmailsUnique(users[id := account])
    ensures EmailTaken(users[id := account], account.email)
  {
    var after := users[id := account];
    forall a, b | a in after && b in after && after[a].email == after[b].email
      ensures a == b
    {
      if a != id && b != id {
        assert users[a].email == users[b].email;
      }
    }
    assert after[id].email == account.email;
  }

  /** Rewriting one account keeps emails unique when the new email is its own
      or nobody's. */
  lemma RewriteKeepsUnique(users: map<ObjectId, Account>, id: ObjectId, account: Account)
    requires EmailsUnique(users) && id in users
    requires account.email == users[id].email || !EmailTaken(users, account.email)
    ensures EmailsUnique(users[id := account])
  {
    var after := users[id := account];
    forall a, b | a in after && b in after && after[a].email == after[b].email
      ensures a == b
    {
      if a != id && b != id {
        assert users[a].email == users[b].email;
      }
    }
  }

  class Store {
    var users: map<ObjectId, Account>
    var properties: map<ObjectId, Record>
    var inquiries: map<ObjectId, Inquiry>
    /** The identity the next `insert_one` assigns. */
    var nextId: ObjectId

    /** Every stored identity was handed out before `nextId`. */
    ghost predicate Valid()
      reads this
    {
      && (forall id :: id in users ==> id < nextId)
      && (forall id :: id in properties ==> id < nextId)
      && (forall id :: id in inquiries ==> id < nextId)
    }

    constructor ()
      ensures Valid()
      ensures users == map[] && properties == map[] && inquiries == map[]
    {
      users := map[];
      properties := map[];
      inquiries := map[];
      nextId := 0;
    }

    /** `user_collection.insert_one(account)`. */
    method InsertUser(account: Account) returns (id: ObjectId)
      requires Valid()
      modifies this
      ensures Valid()
      ensures id == old(nextId) && id !in old(users) && nextId == id + 1
      ensures users == old(users)[id := account]
      ensures properties == old(properties) && inquiries == old(inquiries)
    {
      id := nextId;
      users := users[id := account];
      nextId := nextId + 1;
    }

    /** `user_collection.update_one({"_id": id}, {"$set": ...})`, the new fields given whole. */
    method UpdateUser(id: ObjectId, account: Account)
      requires Valid() && id in users
      modifies this
      ensures Valid()
      ensures users == old(users)[id := account]
      ensures properties == old(properties) && inquiries == old(inquiries) && nextId == old(nextId)
    {
      users := users[id := account];
    }

    /** `property_collection.insert_one(record)`. */
    method InsertProperty(record: Record) returns (id: ObjectId)
      requires Valid()
      modifies this
      ensures Valid()
      ensures id == old(nextId) && id !in old(properties) && nextId == id + 1
      ensures properties == old(properties)[id := record]
      ensures users == old(users) && inquiries == old(inquiries)
    {
      id := nextId;
      properties := properties[id := record];
      nextId := nextId + 1;
    }

    /** `user_query_collection.insert_one(inquiry)`. */
    method InsertInquiry(inquiry: Inquiry) returns (id: ObjectId)
      requires Valid()
      modifies this
      ensures Valid()
      ensures id == old(nextId) && id !in old(inquiries) && nextId == id + 1
      ensures inquiries == old(inquiries)[id := inquiry]
      ensures users == old(users) && properties == old(properties)
    {
      id := nextId;
      inquiries := inquiries[id := inquiry];
      nextId := nextId + 1;
    }
  }
}
