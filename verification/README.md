# HTTP client wrappers: a verified model

This project models the decision logic of two thin HTTP clients and the
record they exchange:

- `MathApiClient.add(a, b)` sends `GET /math/add/{a}/{b}`. It then maps the
  response status to one of three results. A 2xx returns the integer body. A
  4xx throws an invalid-argument failure, "Invalid arguments: " plus the body.
  Any other status throws an illegal-state failure, "Unknown error: " plus the body.
- `UserApiClient` has four operations on `/users`:
  - `getById` returns the user only on 200 and is empty otherwise.
  - `list` returns the users on any 2xx and otherwise fails with
    "Received <status> response from /users".
  - `create` refuses a user that already has an id. Otherwise it POSTs the user
    and succeeds only on 201.
  - `update` refuses a user without an id. Otherwise it PUTs the user to
    `/users/{id}` and succeeds only on 200.
  - A successful `create` or `update` returns the server's user with the
    password replaced by the sentinel `"[password redacted]"`.
- `User` is an immutable record. It offers a redacting copy, a constructor that
  starts from the sentinel, an `id` wither, and Bean Validation constraints on
  its fields.

The transport is replaced by an input value. Each operation takes the
`Response` the server would send to the request it builds. The response holds
the status, the body decoded as the operation's type (`entity`), and the body
read as text (`text`). Each operation returns a `Call`: the request it built,
or `None` when a precondition failed before any request existed, together with
its `Outcome`. The outcome is `Ok(value)`, `InvalidArgument(message)` for
`IllegalArgumentException`, or `IllegalState(message)` for
`IllegalStateException`.

Modules:
- `Lang`: `Option` (a Java null or `Optional`), plus `Int32` and `Int64` for
  Java `int` and `long`.
- `Decimal`: Java's decimal rendering of integers, `Show`. It is used to
  substitute path parameters and to format messages. Its inverse `Parse` is
  there to prove that the rendering is lossless.
- `Users`: models `User.java`.
- `Http`: requests, responses, outcomes, and the status predicates of the
  response-helper library.
- `MathClient` and `UserClient`: model the two client classes.
- `MathExamples` and `UserExamples`: the concrete exchanges fixed by the
  repository's tests.

The response-helper library's predicates are not part of this model. They are
given the following assumed definitions:
- `successful` is 200..299.
- `clientError` is 400..499.
- `ok` is 200.
- `created` is 201.

Status rules that the code fixes:
- `list` succeeds on every 2xx status, because the success-or-throw helper
  it calls tests `successful`.
- `getById` is empty for every status other than 200, 404 included. It never
  throws.
- `update` fails with "Failed to update user (response code: <status>)" on
  every status other than 200.
- A 200 or 201 whose body decodes to null gives an empty `getById` result. It
  makes `create` and `update` fail with the status-code message, because the
  code wraps the decoded entity in `Optional.ofNullable`.

## Model

| member | source | states |
|---|---|---|
| Decimal.NatDigits | src/main/java/com/acme/client/MathApiClient.java:24-25 | the rendering of a natural number is canonical decimal: only digits, no leading zero, and it starts with '0' exactly for zero |
| Decimal.Show | src/main/java/com/acme/client/MathApiClient.java:24-25 | an integer renders as non-empty text made of digits plus a leading '-' exactly when it is negative, so it never contains '/' |
| Decimal.ParseShow | src/main/java/com/acme/client/MathApiClient.java:24-25 | parsing the rendering of any integer gives that integer back |
| Decimal.ShowParse | src/main/java/com/acme/client/MathApiClient.java:24-25 | every string that parses is exactly the rendering of the number it denotes |
| Decimal.ShowInjective | src/main/java/com/acme/client/UserApiClient.java:34-35 | different integers render to different text |
| Users.WithRedactedPassword | src/main/java/com/acme/model/User.java:14-18 | the copy's password is exactly "[password redacted]", and id, username and name are unchanged |
| Users.NewWithRedactedPassword | src/main/java/com/acme/model/User.java:20-22 | the new user equals User(id, username, p, name) redacted, for every password p |
| Users.WithId | src/main/java/com/acme/model/User.java:8 | the wither sets id and leaves username, password and name unchanged |
| Users.RedactionIdempotent | src/main/java/com/acme/model/User.java:16-18 | redacting twice is the same as redacting once |
| Users.SentinelIsValidPassword | src/main/java/com/acme/model/User.java:10-14 | the sentinel meets the password constraints: not blank and at least 12 characters |
| Users.RedactionKeepsConstraints | src/main/java/com/acme/model/User.java:9-18 | a redacted user meets every field constraint if and only if its username and name do, so a valid user stays valid |
| Users.RedactionCommutesWithId | src/main/java/com/acme/model/User.java:8-18 | setting the id and redacting the password commute |
| Http.ClassifyPartition | src/main/java/com/acme/client/MathApiClient.java:29-35 | every status falls in exactly one bucket (2xx success, 4xx client error, anything else), a by-hundreds classification agrees with the range predicates, and 1xx and 3xx statuses fall in the unknown bucket |
| MathClient.AddRequest | src/main/java/com/acme/client/MathApiClient.java:22-27 | add sends a GET with no body |
| MathClient.Add | src/main/java/com/acme/client/MathApiClient.java:21-36 | the request is the GET built from a and b. The outcome is Ok with the body's integer exactly on 2xx, "Invalid arguments: " + body exactly on 4xx, and "Unknown error: " + body exactly on every other status |
| MathClient.AddPathDeterminesOperands | src/main/java/com/acme/client/MathApiClient.java:22-27 | two add requests are equal if and only if both operands are equal, so the path names the operands unambiguously |
| MathClient.AddFollowsClassification | src/main/java/com/acme/client/MathApiClient.java:29-35 | the client's if/else-if chain gives the same outcome as a switch over the status bucket |
| MathClient.AddNoLocalArithmetic | src/main/java/com/acme/client/MathApiClient.java:21-35 | for a given response the outcome is the same for any operands, so the client computes nothing locally and overflow shows only when the server reports it |
| MathExamples.AddExampleSuccess | src/test/java/com/acme/client/OkHttpMathApiClientTest.java:48-65 | add(40, 2) requests /math/add/40/2 and returns 42 when the server answers 200 with 42 |
| MathExamples.AddExampleOverflow | src/test/java/com/acme/client/OkHttpMathApiClientTest.java:67-85 | add(MAX_INT, 1) answered by 400 "overflow" fails with "Invalid arguments: overflow" |
| MathExamples.AddExampleOverflowPath | src/test/java/com/acme/client/OkHttpMathApiClientTest.java:81-84 | add(MAX_INT, 1) requests /math/add/2147483647/1, with the widest int rendered in full |
| MathExamples.AddExampleServerError | src/test/java/com/acme/client/OkHttpMathApiClientTest.java:87-105 | add(2, 2) answered by 500 fails with an illegal-state failure whose message is "Unknown error: " + body |
| UserClient.GetById | src/main/java/com/acme/client/UserApiClient.java:32-43 | getById sends a GET to /users/{id} with no body and never fails. It yields a user exactly when the status is 200 and the body holds one, and that user is returned unredacted |
| UserClient.List | src/main/java/com/acme/client/UserApiClient.java:48-59 | list sends a GET to /users. It succeeds exactly on 2xx with the decoded users in their order, and otherwise fails with "Received <status> response from /users" |
| UserClient.Create | src/main/java/com/acme/client/UserApiClient.java:64-79 | a user with an id fails with an invalid argument before any request. Otherwise the user is POSTed unchanged to /users. The call succeeds exactly on 201 with a body and returns the body's user redacted; every other case fails with "Failed to create user (response code: <status>)" |
| UserClient.Update | src/main/java/com/acme/client/UserApiClient.java:84-101 | a user without an id fails with an invalid argument before any request. Otherwise the user is PUT unchanged to /users/{id}. The call succeeds exactly on 200 with a body and returns the body's user redacted; every other case fails with "Failed to update user (response code: <status>)" |
| UserClient.WritesReturnOnlyRedactedPasswords | src/main/java/com/acme/client/UserApiClient.java:72-100 | a user returned by create or update always has the sentinel password, and takes its id, username and name from the server's user |
| UserClient.UserResultsOnlyOnSuccess | src/main/java/com/acme/client/UserApiClient.java:39-95 | getById yields a user, and create or update succeeds, only when the status is in the 2xx success bucket |
| UserClient.PreconditionFailuresIgnoreServer | src/main/java/com/acme/client/UserApiClient.java:64-92 | when the id precondition fails, no request exists and the result is the same whatever the server would have answered |
| UserClient.UserPathInjective | src/main/java/com/acme/client/UserApiClient.java:33-35 | two /users/{id} paths are equal if and only if the ids are |
| UserClient.UpdateTargetsFetchedUser | src/main/java/com/acme/client/UserApiClient.java:85-92 | update addresses the same path that getById reads for the user's id |
| UserClient.FailureMessagesIdentifyStatus | src/main/java/com/acme/client/UserApiClient.java:56-100 | the list, create and update failure messages are equal if and only if the statuses are, so each message identifies its status code |
| UserClient.CreateRejectsOk | src/main/java/com/acme/client/UserApiClient.java:72-78 | a 200 answer to create is a failure that reports code 200 |
| UserExamples.GetByIdExamples | src/test/java/com/acme/client/OkHttpUserApiClientTest.java:56-81 | getById(42) requests /users/42 and returns the server's user on 200 |
| UserExamples.GetByIdNotFoundExample | src/test/java/com/acme/client/OkHttpUserApiClientTest.java:83-98 | getById(84) sends a GET with no body to /users/84 and is empty on 404 |
| UserExamples.ListExamples | src/test/java/com/acme/client/OkHttpUserApiClientTest.java:133-149 | list answered by 500 fails with "Received 500 response from /users" |
| UserExamples.CreateExamples | src/test/java/com/acme/client/OkHttpUserApiClientTest.java:181-198 | create of an all-null user POSTs that user to /users, and a 422 answer fails with "Failed to create user (response code: 422)" |
| UserExamples.CreateAgainstEchoingServer | src/test/java/com/acme/client/DropwizardUserApiClientTest.java:82-88 | against a server that echoes the posted user redacted under a new id, create returns the posted user with that id and the sentinel password |

## Left out

- Transport: the JAX-RS client, the base URI, URL encoding and timeouts are not modelled. Closing the response and transport failures are not modelled either. Paths are relative to the base URI, and the response is an input.
- JSON decoding: `entity` is the body already decoded, and a body that fails to decode is not modelled. For `add`, a null integer body would fail to unbox; this is not modelled either.
- A 2xx answer to `list` whose JSON body is `null` is not modelled. The list entity is a plain sequence, while the code would return null.
- The response-helper library (`successful`, `clientError`, `ok`, `created`, `apply`, `onSuccessWithResultOrFailureThrow`) is not part of this model. Only the assumed status ranges above are used.
- Bean Validation is enforced by the server, so it is not modelled as enforcement. The constraints are only a predicate, `Valid`, on `User`. Lengths count Unicode characters where Java counts UTF-16 code units.
- A null `User` passed to `create` or `update` raises a NullPointerException in the code. It is not modelled, because model values cannot be null.
- Exception classes and stack traces are not modelled. A failure is the outcome's tag plus its message.
- The test doubles (mock servers, stub resources, JUnit extensions) are not modelled. The one exception is the echoing create behaviour used by `UserExamples.CreateAgainstEchoingServer`.
