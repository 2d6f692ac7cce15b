/** `POST /api/auth/register`: creates an account unless the email is taken. */
module RegisterRoute {
  import opened Wrappers
  import opened Json
  import opened Http
  import opened UserModel
  import opened AccountStore
  import opened Credentials

  const AllFieldsRequired: Response := Response(400, Message("message", "All fields are required"), [])
  const AlreadyExists: Response := Response(400, Message("message", "User already exists"), [])
  const Registered: Response := Response(201, Message("message", "User registered successfully"), [])
  const InternalError: Response := Response(500, Message("message", "Internal Server Error"), [])

  /** The handler. `reachable` is whether the database connection and queries
      succeed; `hash` is `bcrypt.hash(_, 10)`, `None` when it throws. */
  method Post(store: UserStore, req: Request, reachable: bool, hash: string -> Option<string>)
    returns (resp: Response)
    requires store.Valid()
    modifies store
    ensures store.Valid()
    ensures resp in {AllFieldsRequired, AlreadyExists, Registered, InternalError}
    // rejected requests leave the collection untouched
    ensures resp != Registered ==> store.users == old(store.users) && store.nextId == old(store.nextId)
    ensures req.Unparsable? ==> resp == InternalError
    ensures req.Fields? && !Complete(req) ==> resp == AllFieldsRequired
    ensures Complete(req) && !reachable ==> resp == InternalError
    ensures Complete(req) && reachable && FindByEmail(old(store.users), req.email.value).Some? ==> resp == AlreadyExists
    // a new email gets exactly one record, holding the hash and not the password
    ensures resp == Registered <==>
              Complete(req) && reachable && FindByEmail(old(store.users), req.email.value).None? &&
              hash(req.password.value).Some? && hash(req.password.value).value != ""
    ensures resp == Registered ==> store.nextId == old(store.nextId) + 1
    ensures resp == Registered ==>
              store.users == old(store.users) + [NewUser(old(store.nextId), req.email.value, hash(req.password.value).value)]
    // for a new email, a hash that throws or a save the schema rejects is the catch-all 500
    ensures Complete(req) && reachable && FindByEmail(old(store.users), req.email.value).None? && resp != Registered ==>
              resp == InternalError
  {
    if req.Unparsable? {
      return InternalError;
    }
    if !Complete(req) {
      return AllFieldsRequired;
    }
    if !reachable {
      return InternalError;
    }
    var email, password := req.email.value, req.password.value;
    if FindByEmail(store.users, email).Some? {
      return AlreadyExists;
    }
    var hashed := hash(password);
    if hashed.None? {
      return InternalError;
    }
    var id := store.Save(email, hashed.value);
    if id.None? {
      return InternalError;
    }
    resp := Registered;
  }
}
