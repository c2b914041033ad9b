/** The concrete exchanges MathApiClient's tests pin down. */
module MathExamples {
  import opened Lang
  import opened Decimal
  import opened Http
  import opened MathClient

  lemma AddExampleSuccess()
    ensures AddRequest(40, 2).path == "/math/add/40/2"
    ensures Add(40, 2, Response(200, 42, "42")).outcome == Ok(42)
  {
    ShowExamples();
  }

  lemma AddExampleOverflow(response: Response<Int32>)
    requires response.status == 400 && response.text == "overflow"
    ensures Add(Int32Max, 1, response).outcome == InvalidArgument("Invalid arguments: overflow")
  {
  }

  lemma AddExampleOverflowPath()
    ensures AddRequest(Int32Max, 1).path == "/math/add/2147483647/1"
  {
    ShowInt32Max();
    assert Show(1) == "1";
    assert AddPath(Int32Max, 1) == "/math/add/" + "2147483647" + "/" + "1";
  }

  lemma AddExampleServerError(response: Response<Int32>)
    requires response.status == 500
    ensures Add(2, 2, response).outcome == IllegalState("Unknown error: " + response.text)
  {
  }
}
