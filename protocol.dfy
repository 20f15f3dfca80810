/** How the client reads the backend's chat responses: which of them pass
    its success test, and which error banner each of the others shows. */
module Protocol {
  import opened Wrappers
  import opened Errors
  import opened ChatClient
  import opened Views

  /** The two fields the client reads from a backend JSON body. */
  function PayloadOf(body: map<string, string>): Payload {
    Fields(Get(body, "status"), Get(body, "response"))
  }

  /** A reply chosen from the agent's answer is accepted by the client
      exactly when it is a 200, and the assistant message it then appends
      is the answer's last content; every other reply is a 500 that the
      client shows as the server-error banner. */
  lemma AgentReplyUnderstood(result: InvokeResult)
    requires result.Returned?
    ensures var r := Reply(result);
      && (IsOk(r.code) <==> LastContent(result).Some?)
      && (IsOk(r.code) ==> Accepts(PayloadOf(r.body)) && PayloadOf(r.body).response == LastContent(result))
      && (!IsOk(r.code) ==> Classify(HttpFailure(r.code)) == ServerError)
  {
    StatusClassification(500);
  }

  /** The refusal of an empty message is shown as the invalid-request
      banner; the client never sends one, since it only sends input that
      has a character other than white space. */
  lemma RefusalUnderstood()
    ensures !IsOk(InvalidMessage.code)
    ensures Classify(HttpFailure(InvalidMessage.code)) == InvalidRequest
  {
    StatusClassification(400);
  }

  /** The framework's 500 page for a session whose agent is gone is shown
      as the server-error banner. */
  lemma UnhandledErrorUnderstood()
    ensures !IsOk(UnhandledError.code)
    ensures Classify(HttpFailure(UnhandledError.code)) == ServerError
  {
    StatusClassification(500);
  }

  /** The end view's 404 would be shown as the generic HTTP banner, but the
      client never reads the end request's outcome. */
  lemma NoSessionStatus()
    ensures !IsOk(NoActiveSession.code)
    ensures Classify(HttpFailure(NoActiveSession.code)) == OtherHttpError
  {
    StatusClassification(404);
  }
}
