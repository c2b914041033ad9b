/**
  The User record: an immutable value whose string fields may be null, with a
  copy that replaces the password by a fixed sentinel, a constructor that starts
  from that sentinel, an id wither, and the Bean Validation field constraints.
 */
module Users {
  import opened Lang

  /** `id` is absent for a user the server has not created yet; a `None`
      string field is a Java null. */
  datatype User = User(id: Option<Int64>, username: Option<string>, password: Option<string>, name: Option<string>)

  /** User.REDACTED_PASSWORD */
  const RedactedPassword: string := "[password redacted]"

  /** user.withRedactedPassword() */
  function WithRedactedPassword(u: User): (r: User)
    ensures r.password == Some(RedactedPassword)
    ensures r.id == u.id && r.username == u.username && r.name == u.name
  {
    u.(password := Some(RedactedPassword))
  }

  /** User.newWithRedactedPassword(id, username, name) */
  function NewWithRedactedPassword(id: Option<Int64>, username: Option<string>, name: Option<string>): (r: User)
    ensures r.id == id && r.username == username && r.name == name
    ensures forall p :: r == WithRedactedPassword(User(id, username, p, name))
  {
    User(id, username, Some(RedactedPassword), name)
  }

  /** user.withId(id), generated by Lombok's @With */
  function WithId(u: User, id: Option<Int64>): (r: User)
    ensures r.id == id
    ensures r.username == u.username && r.password == u.password && r.name == u.name
  {
    u.(id := id)
  }

  /** @NotBlank: not null and holding a character above U+0020, so String.trim() leaves it non-empty. */
  predicate NotBlank(s: Option<string>) {
    s.Some? && exists i :: 0 <= i < |s.value| && s.value[i] > ' '
  }

  /** @Length(min = m): a null value passes; otherwise at least m characters. */
  predicate MinLength(s: Option<string>, m: nat) {
    s.None? || |s.value| >= m
  }

  /** The constraints on the non-password fields. */
  predicate ValidIdentity(u: User) {
    NotBlank(u.username) && MinLength(u.username, 6) && NotBlank(u.name)
  }

  /** Every field constraint declared on the record. */
  predicate Valid(u: User) {
    ValidIdentity(u) && NotBlank(u.password) && MinLength(u.password, 12)
  }

  /** Redacting an already redacted user changes nothing. */
  lemma RedactionIdempotent(u: User)
    ensures WithRedactedPassword(WithRedactedPassword(u)) == WithRedactedPassword(u)
  {
  }

  /** The sentinel is itself an acceptable password: 19 characters, not blank. */
  lemma SentinelIsValidPassword()
    ensures NotBlank(Some(RedactedPassword)) && MinLength(Some(RedactedPassword), 12)
  {
    assert RedactedPassword[1] == 'p';
  }

  /** A redacted user is valid exactly when its other fields are, whatever the
      password was; in particular redaction keeps a valid user valid. */
  lemma RedactionKeepsConstraints(u: User)
    ensures Valid(WithRedactedPassword(u)) <==> ValidIdentity(u)
    ensures Valid(u) ==> Valid(WithRedactedPassword(u))
  {
    SentinelIsValidPassword();
  }

  /** Setting the id and redacting may be done in either order. */
  lemma RedactionCommutesWithId(u: User, id: Option<Int64>)
    ensures WithId(WithRedactedPassword(u), id) == WithRedactedPassword(WithId(u, id))
  {
  }
}
