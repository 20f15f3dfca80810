/** The backend's HTTP views: how `chat` and `end` choose their response
    from the request's message, the agent's answer and the agent table, and
    the trivial `hello`. The agent's `invoke` is foreign: its answer is an
    input of `Chat`. */
module Views {
  import opened Wrappers
  import opened AgentManager

  /** An HTTP response: the status code and the fields of its JSON object
      (all strings here). An unhandled exception becomes the framework's
      500 page, which has no JSON fields. */
  datatype Response = Response(code: nat, body: map<string, string>)

  /** One message of the agent's answer; `content` is `None` when the
      message has no such attribute. */
  datatype AgentMessage = AgentMessage(content: Option<string>)

  /** The outcome of `agent.invoke`: it returned an answer, whose "messages"
      list is `None` when the key is absent, or it raised (the model endpoint
      unreachable, a rejected call), which the framework turns into its 500
      page like any unhandled exception. */
  datatype InvokeResult = Returned(messages: Option<seq<AgentMessage>>) | Raised

  const InvalidMessage := Response(400, map["status" := "error", "response" := "Invalid message."])
  const ServerErrorReply := Response(500, map["status" := "error", "response" := "Server Error"])
  const UnhandledError := Response(500, map[])
  const SessionEnded := Response(200, map["status" := "success", "message" := "Session ended successfully"])
  const NoActiveSession := Response(404, map["status" := "error", "response" := "No active session."])

  /** Python truthiness of an optional string: present and non-empty. */
  predicate Truthy(s: Option<string>) {
    s.Some? && s.value != ""
  }

  /** `hello`: a fixed greeting with the default status. */
  function Hello(): (r: Response)
    ensures r.code == 200 && Get(r.body, "message") == Some("Hello from Django!")
  {
    Response(200, map["message" := "Hello from Django!"])
  }

  /** The content of the answer's last message: present exactly when the
      answer has a non-empty message list whose last message has non-empty
      content, and then that content. */
  function LastContent(result: InvokeResult): (c: Option<string>)
    requires result.Returned?
    ensures c.Some? ==> c.value != ""
    ensures c.Some? ==> result.messages.Some? && result.messages.value != []
    ensures c.Some? ==> result.messages.value[|result.messages.value| - 1].content == c
    ensures (result.messages.Some? && result.messages.value != [] &&
             Truthy(result.messages.value[|result.messages.value| - 1].content)) ==> c.Some?
  {
    match result.messages
    case None => None
    case Some(ms) =>
      if ms == [] then None
      else if Truthy(ms[|ms| - 1].content) then ms[|ms| - 1].content
      else None
  }

  /** The response `chat` gives once the agent has answered: 200 with
      status "success" and a non-empty response equal to the last message's
      content, or, when there is no such content, 500 "Server Error". */
  function Reply(result: InvokeResult): (r: Response)
    requires result.Returned?
    ensures r.code == 200 <==> LastContent(result).Some?
    ensures r.code == 200 ==>
      && Get(r.body, "status") == Some("success")
      && Get(r.body, "response") == LastContent(result)
      && r.body["response"] != ""
    ensures r.code != 200 ==> r == ServerErrorReply
  {
    match LastContent(result)
    case None => ServerErrorReply
    case Some(content) => Response(200, map["status" := "success", "response" := content])
  }

  /** `chat`. A missing or empty message is refused with 400 before the
      agent table or the session is touched. Otherwise the session's agent
      is fetched or created. Without an agent (a session whose key has none)
      the call to `invoke` raises, and with one `invoke` may raise itself;
      either way the framework answers with its 500 page. Otherwise the
      reply is chosen from the agent's answer. */
  method Chat(manager: Manager, session: Session, message: Option<string>,
              freshKey: string, newAgent: Agent, result: InvokeResult) returns (r: Response)
    modifies manager, session
    ensures !Truthy(message) ==>
      r == InvalidMessage && manager.agents == old(manager.agents) && session.key == old(session.key)
    ensures Truthy(message) && !HasKey(old(session.key)) ==>
      && r == (if result.Raised? then UnhandledError else Reply(result))
      && session.key == Some(freshKey)
      && manager.agents == old(manager.agents)[freshKey := newAgent]
    ensures Truthy(message) && HasKey(old(session.key)) ==>
      && manager.agents == old(manager.agents) && session.key == old(session.key)
      && r == (if session.key.value in manager.agents && result.Returned? then Reply(result)
               else UnhandledError)
  {
    if !Truthy(message) {
      return InvalidMessage;
    }
    var agent := manager.GetOrCreateAgent(session, freshKey, newAgent);
    if agent.None? || result.Raised? {
      return UnhandledError;
    }
    r := Reply(result);
  }

  /** As written, a session whose key outlived its agent is stuck: `chat`
      fails with the 500 page, `end` answers 404 without flushing the
      session, so the key survives, and the next `chat` fails again, whatever
      the agent would have answered. */
  method StaleKeyStuck(key: string, message: string, result: InvokeResult)
    returns (first: Response, ended: Response, second: Response)
    requires key != "" && message != ""
    ensures first == UnhandledError && ended == NoActiveSession && second == UnhandledError
  {
    var manager := new Manager();
    var session := new Session.Existing(Some(key));
    first := Chat(manager, session, Some(message), "fresh", Agent(0), result);
    ended := End(manager, session);
    second := Chat(manager, session, Some(message), "fresh", Agent(1), result);
  }

  /** `chat` with `get_or_create_agent` as intended: a truthy message always
      reaches an agent, so unless `invoke` itself raises, the reply is the one
      chosen from the agent's answer and never the 500 page; afterwards the
      session's key has an agent. */
  method ChatFixed(manager: Manager, session: Session, message: Option<string>,
                   freshKey: string, newAgent: Agent, result: InvokeResult) returns (r: Response)
    modifies manager, session
    ensures !Truthy(message) ==>
      r == InvalidMessage && manager.agents == old(manager.agents) && session.key == old(session.key)
    ensures Truthy(message) ==>
      && r == (if result.Raised? then UnhandledError else Reply(result))
      && session.key.Some? && session.key.value in manager.agents
  {
    if !Truthy(message) {
      return InvalidMessage;
    }
    var agent := manager.GetOrCreateAgentFixed(session, freshKey, newAgent);
    if result.Raised? {
      return UnhandledError;
    }
    r := Reply(result);
  }

  /** `end`. When `end_session` reports an agent was removed the session is
      flushed and the answer is success; otherwise the answer is 404 and
      neither the session nor the table changes. */
  method End(manager: Manager, session: Session) returns (r: Response)
    modifies manager, session
    ensures var had := old(session.key).Some? && old(session.key).value in old(manager.agents);
      && (had ==> r == SessionEnded && session.key == None
                  && manager.agents == old(manager.agents) - {old(session.key).value})
      && (!had ==> r == NoActiveSession && session.key == old(session.key)
                   && manager.agents == old(manager.agents))
  {
    var ended := manager.EndSession(session);
    if ended {
      session.Flush();
      r := SessionEnded;
    } else {
      r := NoActiveSession;
    }
  }
}
