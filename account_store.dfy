/** The `User` collection of the document database: the records in insertion
    order (a `findOne` returns the first match) and the source of fresh ids. */
module AccountStore {
  import opened Wrappers
  import opened UserModel

  /** `User.findOne({ email })`: the position of the first record with that email. */
  function FindByEmail(users: seq<User>, email: string): (k: Option<nat>)
    ensures k.Some? ==> k.value < |users| && users[k.value].email == email
    ensures k.Some? ==> forall i :: 0 <= i < k.value ==> users[i].email != email
    ensures k.None? <==> forall i :: 0 <= i < |users| ==> users[i].email != email
  {
    if users == [] then None
    else if users[0].email == email then Some(0)
    else match FindByEmail(users[1..], email)
      case None => None
      case Some(k) => Some(k + 1)
  }

  /** The position of the record with id `id`, if there is one. */
  function FindById(users: seq<User>, id: UserId): (k: Option<nat>)
    ensures k.Some? ==> k.value < |users| && users[k.value].id == id
    ensures k.None? <==> forall i :: 0 <= i < |users| ==> users[i].id != id
  {
    if users == [] then None
    else if users[0].id == id then Some(0)
    else match FindById(users[1..], id)
      case None => None
      case Some(k) => Some(k + 1)
  }

  /** The unique index on `email`. */
  ghost predicate EmailsUnique(users: seq<User>)
  {
    forall i, j :: 0 <= i < j < |users| ==> users[i].email != users[j].email
  }

  /** The primary key `_id`. */
  ghost predicate IdsUnique(users: seq<User>)
  {
    forall i, j :: 0 <= i < j < |users| ==> users[i].id != users[j].id
  }

  /** The one-field overwrites `findByIdAndUpdate` is given by the routes. */
  datatype Change = SetPreferences(preferences: Preferences) | SetPlaid(plaid: PlaidLink)

  function Apply(u: User, c: Change): (v: User)
    ensures v.id == u.id && v.email == u.email && v.password == u.password
    ensures c.SetPreferences? ==> v.preferences == c.preferences && v.plaid == u.plaid
    ensures c.SetPlaid? ==> v.plaid == c.plaid && v.preferences == u.preferences
  {
    match c
    case SetPreferences(p) => u.(preferences := p)
    case SetPlaid(l) => u.(plaid := l)
  }

  /** The collection after `findByIdAndUpdate(id, c)`: the record with that id
      is changed as `c` says, every other record is left as it was. */
  function UpdateById(users: seq<User>, id: UserId, c: Change): (r: seq<User>)
    ensures |r| == |users|
    ensures forall i :: 0 <= i < |users| && users[i].id != id ==> r[i] == users[i]
    ensures forall i :: 0 <= i < |users| && users[i].id == id ==> r[i] == Apply(users[i], c)
  {
    if users == [] then []
    else [if users[0].id == id then Apply(users[0], c) else users[0]] + UpdateById(users[1..], id, c)
  }

  /** An update keeps every record's id and email, hence both unique indexes. */
  lemma {:induction false} UpdateKeepsKeys(users: seq<User>, id: UserId, c: Change)
    requires EmailsUnique(users) && IdsUnique(users)
    ensures EmailsUnique(UpdateById(users, id, c)) && IdsUnique(UpdateById(users, id, c))
    ensures forall e :: FindByEmail(UpdateById(users, id, c), e) == FindByEmail(users, e)
  {
    var r := UpdateById(users, id, c);
    forall e ensures FindByEmail(r, e) == FindByEmail(users, e) {
      EmailLookupIgnoresOtherFields(users, r, e);
    }
  }

  /** Lookup by email depends only on the emails, in order. */
  lemma {:induction false} EmailLookupIgnoresOtherFields(a: seq<User>, b: seq<User>, e: string)
    requires |a| == |b| && forall i :: 0 <= i < |a| ==> a[i].email == b[i].email
    ensures FindByEmail(a, e) == FindByEmail(b, e)
  {
    if a != [] {
      EmailLookupIgnoresOtherFields(a[1..], b[1..], e);
    }
  }

  /** A record appended under a new email is the one later found by that email. */
  lemma {:induction false} FindAppended(users: seq<User>, u: User)
    requires FindByEmail(users, u.email).None?
    ensures FindByEmail(users + [u], u.email) == Some(|users|)
  {
    if users != [] {
      assert (users + [u])[1..] == users[1..] + [u];
      FindAppended(users[1..], u);
    }
  }

  /** The collection, updated in place by the register, preferences and Plaid routes. */
  class UserStore {
    var users: seq<User>
    /** Every stored id is below this; it stands for ObjectId generation. */
    var nextId: UserId

    ghost predicate Valid()
      reads this
    {
      && (forall i :: 0 <= i < |users| ==> users[i].id < nextId)
      && IdsUnique(users)
      && EmailsUnique(users)
    }

    constructor ()
      ensures Valid() && users == []
    {
      users := [];
      nextId := 0;
    }

    /** `new User({ email, password }).save()`: the schema validators and the
        unique email index either accept the new record or reject it unchanged.
        Returns the new record's id. */
    method Save(email: string, password: string) returns (id: Option<UserId>)
      requires Valid()
      modifies this
      ensures Valid()
      ensures id.Some? <==> SchemaValid(NewUser(old(nextId), email, password)) && FindByEmail(old(users), email).None?
      ensures id.Some? ==> id.value == old(nextId) && users == old(users) + [NewUser(id.value, email, password)]
      ensures id.Some? ==> nextId == old(nextId) + 1
      ensures id.None? ==> users == old(users) && nextId == old(nextId)
    {
      var u := NewUser(nextId, email, password);
      if !SchemaValid(u) || FindByEmail(users, email).Some? {
        return None;
      }
      users := users + [u];
      id := Some(nextId);
      nextId := nextId + 1;
    }

    /** `User.findByIdAndUpdate(id, c)`: overwrites one field of the record with
        that id, if there is one; no validator runs. Returns whether one matched. */
    method FindByIdAndUpdate(id: UserId, c: Change) returns (found: bool)
      requires Valid()
      modifies this
      ensures Valid()
      ensures found <==> FindById(old(users), id).Some?
      ensures users == UpdateById(old(users), id, c) && nextId == old(nextId)
      ensures !found ==> users == old(users)
    {
      found := FindById(users, id).Some?;
      UpdateKeepsKeys(users, id, c);
      ghost var was := users;
      users := UpdateById(users, id, c);
      assert forall i :: 0 <= i < |users| ==> users[i].id == was[i].id;
      if !found {
        assert users == was;
      }
    }
  }
}
