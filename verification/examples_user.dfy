/** The concrete exchanges UserApiClient's tests pin down. */
module UserExamples {
  import opened Lang
  import opened Decimal
  import opened Users
  import opened Http
  import opened UserClient

  lemma GetByIdExamples(found: Response<Option<User>>)
    requires found.status == 200 && found.entity == Some(User(Some(42), Some("j_smith"), Some("[password hidden]"), Some("Jane Smith")))
    ensures GetById(42, found).request.value.path == "/users/42"
    ensures GetById(42, found).outcome == Ok(found.entity)
  {
    ShowExamples();
  }

  lemma GetByIdNotFoundExample(missing: Response<Option<User>>)
    requires missing.status == 404
    ensures GetById(84, missing).request == Some(Request(Get, "/users/84", None))
    ensures GetById(84, missing).outcome == Ok(None)
  {
    assert Show(84) == "84";
    assert UserPath(84) == "/users/84";
  }

  lemma ListExamples(response: Response<seq<User>>)
    requires response.status == 500
    ensures List(response).outcome == IllegalState("Received 500 response from /users")
  {
    assert Show(500) == "500";
    assert ListFailedMessage(500) == "Received 500 response from /users";
  }

  lemma CreateExamples(response: Response<Option<User>>)
    requires response.status == 422
    ensures Create(User(None, None, None, None), response).request
         == Some(Request(Post, "/users", Some(User(None, None, None, None))))
    ensures Create(User(None, None, None, None), response).outcome
         == IllegalState("Failed to create user (response code: 422)")
  {
    assert Show(422) == "422";
    assert CreateFailedMessage(422) == "Failed to create user (response code: 422)";
  }

  /** Against a server that stores the posted user under a new id and echoes
      it back redacted, create returns the posted user with that id and the
      sentinel password, whatever password was sent. */
  lemma CreateAgainstEchoingServer(u: User, newId: Int64, response: Response<Option<User>>)
    requires u.id.None?
    requires response.status == 201
    requires response.entity == Some(WithId(WithRedactedPassword(u), Some(newId)))
    ensures Create(u, response).outcome == Ok(WithRedactedPassword(WithId(u, Some(newId))))
  {
    RedactionCommutesWithId(u, Some(newId));
  }
}
