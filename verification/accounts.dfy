/** The account directory: the `User` collection, seen through the two
    operations the routes use (find by email, create). */
module Accounts {
  import opened Bcrypt

  /** The store-assigned `_id`. */
  datatype ObjectId = ObjectId(value: nat)

  /** A user document. The password field holds a hash; a plaintext has a
      different type and cannot be stored. */
  datatype Account = Account(id: ObjectId, email: string, password: PasswordHash)

  /** Accounts keyed by email, as `User.findOne({ email })` finds them. */
  type Store = map<string, Account>

  /** Every account is filed under its own email. */
  ghost predicate WellFormed(s: Store)
  {
    forall e :: e in s ==> s[e].email == e
  }

  /** `after` keeps every account of `before`, unchanged. */
  ghost predicate Extends(before: Store, after: Store)
  {
    forall e :: e in before ==> e in after && after[e] == before[e]
  }

  lemma ExtendsTransitive(a: Store, b: Store, c: Store)
    requires Extends(a, b) && Extends(b, c)
    ensures Extends(a, c)
  {
  }
}
