/** The `{ email, password }` body read by the register and login routes. */
module Credentials {
  import opened Wrappers
  import opened Json

  /** `Unparsable` is a body that `req.json()` rejects or that is JSON `null` (its
      destructuring throws); otherwise the two fields, `None` when absent. */
  datatype Request = Unparsable | Fields(email: Option<string>, password: Option<string>)

  /** Both fields pass the `!email || !password` guard. */
  predicate Complete(req: Request)
  {
    req.Fields? && Given(req.email) && Given(req.password)
  }
}
