/**
  UserApiClient: four operations on the /users resource, each a request shape
  plus a rule from the response status to a result or a failure.
 */
module UserClient {
  import opened Lang
  import opened Decimal
  import opened Users
  import opened Http

  const UsersPath: string := "/users"
  const NewUserHasIdMessage: string := "new user must not have an id"
  const ExistingUserLacksIdMessage: string := "existing user must have an id"

  /** The path template /users/{id} with the id substituted. */
  function UserPath(id: Int64): string {
    UsersPath + "/" + Show(id as int)
  }

  function ListFailedMessage(status: int): string {
    "Received " + Show(status) + " response from /users"
  }

  function CreateFailedMessage(status: int): string {
    "Failed to create user (response code: " + Show(status) + ")"
  }

  function UpdateFailedMessage(status: int): string {
    "Failed to update user (response code: " + Show(status) + ")"
  }

  /** getById(id): only a 200 carrying a user yields that user, untouched;
      every other response yields an empty Optional and nothing is thrown. */
  function GetById(id: Int64, response: Response<Option<User>>): (c: Call<Option<User>>)
    ensures c.request == Some(Request(Get, UserPath(id), None))
    ensures c.outcome.Ok?
    ensures c.outcome.value.Some? <==> IsOk(response.status) && response.entity.Some?
    ensures c.outcome.value.Some? ==> c.outcome.value == response.entity
  {
    var user := if IsOk(response.status) then response.entity else None;
    Call(Some(Request(Get, UserPath(id), None)), Ok(user))
  }

  /** list(): any 2xx yields the decoded users as they came; anything else
      throws an IllegalStateException naming the status. */
  function List(response: Response<seq<User>>): (c: Call<seq<User>>)
    ensures c.request == Some(Request(Get, UsersPath, None))
    ensures c.outcome.Ok? <==> Successful(response.status)
    ensures c.outcome.Ok? ==> c.outcome.value == response.entity
    ensures !c.outcome.Ok? ==> c.outcome == IllegalState(ListFailedMessage(response.status))
  {
    var outcome :=
      if Successful(response.status) then Ok(response.entity)
      else IllegalState(ListFailedMessage(response.status));
    Call(Some(Request(Get, UsersPath, None)), outcome)
  }

  /** create(newUser): a user with an id is refused before any request exists;
      otherwise the user is POSTed as given and only a 201 carrying a user
      succeeds, with that user's password redacted. */
  function Create(newUser: User, response: Response<Option<User>>): (c: Call<User>)
    ensures newUser.id.Some? ==> c == Call(None, InvalidArgument(NewUserHasIdMessage))
    ensures newUser.id.None? ==> c.request == Some(Request(Post, UsersPath, Some(newUser)))
    ensures c.outcome.Ok? <==> newUser.id.None? && IsCreated(response.status) && response.entity.Some?
    ensures c.outcome.Ok? ==> c.outcome.value == WithRedactedPassword(response.entity.value)
    ensures newUser.id.None? && !c.outcome.Ok? ==>
      c.outcome == IllegalState(CreateFailedMessage(response.status))
  {
    if newUser.id.Some? then
      Call(None, InvalidArgument(NewUserHasIdMessage))
    else
      var created := if IsCreated(response.status) then response.entity else None;
      var outcome :=
        match created
        case Some(u) => Ok(WithRedactedPassword(u))
        case None => IllegalState(CreateFailedMessage(response.status));
      Call(Some(Request(Post, UsersPath, Some(newUser))), outcome)
  }

  /** update(existingUser): a user without an id is refused before any request
      exists; otherwise the user is PUT as given to its own path and only a 200
      carrying a user succeeds, with that user's password redacted. */
  function Update(existingUser: User, response: Response<Option<User>>): (c: Call<User>)
    ensures existingUser.id.None? ==> c == Call(None, InvalidArgument(ExistingUserLacksIdMessage))
    ensures existingUser.id.Some? ==>
      c.request == Some(Request(Put, UserPath(existingUser.id.value), Some(existingUser)))
    ensures c.outcome.Ok? <==> existingUser.id.Some? && IsOk(response.status) && response.entity.Some?
    ensures c.outcome.Ok? ==> c.outcome.value == WithRedactedPassword(response.entity.value)
    ensures existingUser.id.Some? && !c.outcome.Ok? ==>
      c.outcome == IllegalState(UpdateFailedMessage(response.status))
  {
    match existingUser.id
    case None => Call(None, InvalidArgument(ExistingUserLacksIdMessage))
    case Some(id) =>
      var updated := if IsOk(response.status) then response.entity else None;
      var outcome :=
        match updated
        case Some(u) => Ok(WithRedactedPassword(u))
        case None => IllegalState(UpdateFailedMessage(response.status));
      Call(Some(Request(Put, UserPath(id), Some(existingUser))), outcome)
  }

  /** Neither create nor update ever hands back a password other than the
      sentinel, whatever the server sent; id, username and name are the
      server's. */
  lemma WritesReturnOnlyRedactedPasswords(u: User, response: Response<Option<User>>)
    ensures Create(u, response).outcome.Ok? ==>
      var r := Create(u, response).outcome.value;
      r.password == Some(RedactedPassword)
      && r.id == response.entity.value.id && r.username == response.entity.value.username
      && r.name == response.entity.value.name
    ensures Update(u, response).outcome.Ok? ==>
      var r := Update(u, response).outcome.value;
      r.password == Some(RedactedPassword)
      && r.id == response.entity.value.id && r.username == response.entity.value.username
      && r.name == response.entity.value.name
  {
  }

  /** A user comes back from getById, create or update only on a status in
      the success bucket. */
  lemma UserResultsOnlyOnSuccess(id: Int64, u: User, response: Response<Option<User>>)
    ensures GetById(id, response).outcome.value.Some? ==> Successful(response.status)
    ensures Create(u, response).outcome.Ok? ==> Successful(response.status)
    ensures Update(u, response).outcome.Ok? ==> Successful(response.status)
  {
  }

  /** A refused precondition does not depend on the server at all: the same
      failure comes back whatever response the server would have given. */
  lemma PreconditionFailuresIgnoreServer(u: User, r1: Response<Option<User>>, r2: Response<Option<User>>)
    ensures u.id.Some? ==> Create(u, r1) == Create(u, r2) && Create(u, r1).request.None?
    ensures u.id.None? ==> Update(u, r1) == Update(u, r2) && Update(u, r1).request.None?
  {
  }

  /** Different ids address different users. */
  lemma UserPathInjective(a: Int64, b: Int64)
    ensures UserPath(a) == UserPath(b) <==> a == b
  {
    if UserPath(a) == UserPath(b) {
      assert UserPath(a) == UsersPath + "/" + Show(a as int) + "";
      assert UserPath(b) == UsersPath + "/" + Show(b as int) + "";
      FramedShowInjective(UsersPath + "/", a as int, b as int, "");
    }
  }

  /** update PUTs to the very path getById reads from for the same id. */
  lemma UpdateTargetsFetchedUser(u: User, id: Int64, r1: Response<Option<User>>, r2: Response<Option<User>>)
    requires u.id == Some(id)
    ensures Update(u, r1).request.value.path == GetById(id, r2).request.value.path
  {
  }

  /** The failure messages carry the status code: two failures with the same
      message came from the same status. */
  lemma FailureMessagesIdentifyStatus(s1: int, s2: int)
    ensures ListFailedMessage(s1) == ListFailedMessage(s2) <==> s1 == s2
    ensures CreateFailedMessage(s1) == CreateFailedMessage(s2) <==> s1 == s2
    ensures UpdateFailedMessage(s1) == UpdateFailedMessage(s2) <==> s1 == s2
  {
    if ListFailedMessage(s1) == ListFailedMessage(s2) {
      FramedShowInjective("Received ", s1, s2, " response from /users");
    }
    if CreateFailedMessage(s1) == CreateFailedMessage(s2) {
      FramedShowInjective("Failed to create user (response code: ", s1, s2, ")");
    }
    if UpdateFailedMessage(s1) == UpdateFailedMessage(s2) {
      FramedShowInjective("Failed to update user (response code: ", s1, s2, ")");
    }
  }

  /** Only 201 creates: a 200 answer to a POST is a failure. */
  lemma CreateRejectsOk(u: User, response: Response<Option<User>>)
    requires u.id.None? && IsOk(response.status)
    ensures Create(u, response).outcome == IllegalState(CreateFailedMessage(200))
  {
  }
}
