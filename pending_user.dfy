/**
 * The `PendingUser` collection: unverified signups, one document per email,
 * every field required.
 */
module PendingUserModel {

  import opened Primitives

  /** A pending registration. All five fields are required by the schema. */
  datatype PendingUser = PendingUser(
    email: string,
    password: PasswordHash,
    name: string,
    verificationToken: string,
    verificationTokenExpiresAt: int)

  /**
   * Mongoose's `required` validator: a String field must hold a non-empty
   * string. The hash and the expiry date are present by construction.
   */
  predicate HasRequiredFields(p: PendingUser) {
    p.email != "" && p.name != "" && p.verificationToken != ""
  }

  /** The collection, indexed by the unique `email` field. */
  type PendingStore = map<string, PendingUser>

  /** The unique index on `email`: each document sits under its own email. */
  predicate EmailUnique(store: PendingStore) {
    forall e :: e in store ==> store[e].email == e
  }

  /** Every stored document passed validation and the unique index holds. */
  predicate WellFormed(store: PendingStore) {
    EmailUnique(store) && forall e :: e in store ==> HasRequiredFields(store[e])
  }

  datatype SaveError = ValidationError | DuplicateKey

  datatype SaveResult = Saved(store: PendingStore) | Rejected(error: SaveError)

  /**
   * `pendingUser.save()`: validation runs first, then the unique index
   * refuses a second document with the same email.
   */
  function Save(store: PendingStore, p: PendingUser): (r: SaveResult)
    ensures !HasRequiredFields(p) ==> r == Rejected(ValidationError)
    ensures HasRequiredFields(p) && p.email in store ==> r == Rejected(DuplicateKey)
    ensures HasRequiredFields(p) && p.email !in store ==> r.Saved? && r.store == store[p.email := p]
    ensures WellFormed(store) && r.Saved? ==> WellFormed(r.store)
  {
    if !HasRequiredFields(p) then Rejected(ValidationError)
    else if p.email in store then Rejected(DuplicateKey)
    else Saved(store[p.email := p])
  }

  /** The documents a filter `{ email: e }` matches. */
  function WithEmail(store: PendingStore, e: string): set<string> {
    set k | k in store && store[k].email == e
  }

  /**
   * Under the unique index, `{ email: e }` matches at most one document, the
   * one stored under `e`; so `deleteOne({ email })` removes exactly that one
   * and leaves every other document in place.
   */
  lemma DeleteByEmailIsExact(store: PendingStore, e: string)
    requires EmailUnique(store)
    ensures WithEmail(store, e) == if e in store then {e} else {}
    ensures forall k :: k in store - {e} ==> (store - {e})[k] == store[k] && store[k].email != e
  {
  }

  /** Removing a document keeps the collection well formed. */
  lemma DeletePreservesWellFormed(store: PendingStore, e: string)
    requires WellFormed(store)
    ensures WellFormed(store - {e})
  {
  }

  /**
   * `verificationToken` carries no unique index: two well-formed pending
   * documents for different emails may hold the same code, so a lookup by
   * code alone can match either.
   */
  lemma CodeNotUnique(code: string, h: PasswordHash, expiresAt: int)
    requires code != ""
    ensures exists store: PendingStore, a: string, b: string ::
              WellFormed(store) && a in store && b in store && a != b &&
              store[a].verificationToken == code && store[b].verificationToken == code
  {
    var a, b := "a@example.com", "b@example.com";
    var store := map[a := PendingUser(a, h, "A", code, expiresAt),
                     b := PendingUser(b, h, "B", code, expiresAt)];
    assert a != b;
    assert WellFormed(store);
    assert a in store && b in store && store[a].verificationToken == code && store[b].verificationToken == code;
  }
}
