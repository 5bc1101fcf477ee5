/** backend/src/models/Users.ts: the `users` table. Every column but
    `token` and `confirmed` is NOT NULL; the string columns have fixed
    widths; `confirmed` defaults to false; and the email column carries no
    uniqueness constraint. The model assumes a database that refuses a value
    wider than its column (as PostgreSQL does for `VARCHAR(n)`); the dialect
    is configured outside the code modelled here. */
module Users {
  import opened Http

  const NameWidth := 100
  const PasswordWidth := 60
  const EmailWidth := 50
  const TokenWidth := 6

  /** A stored row. */
  datatype User = User(id: nat, name: string, password: string, email: string, token: Option<string>, confirmed: bool)

  /** The row fits its columns. */
  predicate Storable(u: User)
  {
    && |u.name| <= NameWidth
    && |u.password| <= PasswordWidth
    && |u.email| <= EmailWidth
    && (u.token.Some? ==> |u.token.value| <= TokenWidth)
  }

  /** A `User` instance that is not saved yet: any attribute may be unset,
      the primary key included. */
  datatype Draft = Draft(id: Option<nat>, name: Option<string>, password: Option<string>, email: Option<string>,
                         token: Option<string>, confirmed: bool)

  /** The instance a stored row is read back as. */
  function AsDraft(u: User): Draft
  {
    Draft(Some(u.id), Some(u.name), Some(u.password), Some(u.email), u.token, u.confirmed)
  }

  /** The primary key an INSERT of `d` uses: the instance's own when it has
      one, otherwise the next value of the id sequence. */
  function KeyOf(d: Draft, next: nat): nat
  {
    if d.id.Some? then d.id.value else next
  }

  /** `user.save()` on a new instance, the id sequence standing at `next`:
      it fails when a NOT NULL column is unset or a value is wider than its
      column. Whether the key is already taken is the table's business. */
  function Save(d: Draft, next: nat): (r: Option<User>)
    ensures r.Some? <==>
      && d.name.Some? && |d.name.value| <= NameWidth
      && d.password.Some? && |d.password.value| <= PasswordWidth
      && d.email.Some? && |d.email.value| <= EmailWidth
      && (d.token.Some? ==> |d.token.value| <= TokenWidth)
    ensures r.Some? ==> Storable(r.value) && r.value.id == KeyOf(d, next) && AsDraft(r.value) == d.(id := Some(KeyOf(d, next)))
  {
    if d.name.None? || d.password.None? || d.email.None? then None
    else
      var u := User(KeyOf(d, next), d.name.value, d.password.value, d.email.value, d.token, d.confirmed);
      if Storable(u) then Some(u) else None
  }

  /** Every row that fits its columns saves, and reads back as itself. */
  lemma SaveRoundTrip(u: User, next: nat)
    requires Storable(u)
    ensures Save(AsDraft(u), next) == Some(u)
  {
  }
}
