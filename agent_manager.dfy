/** The backend's table of conversational agents, one per HTTP session
    (`SESSION_AGENTS`), and the three operations on it. The agent itself
    (a language-model client with its own memory) and the session store
    are foreign; an agent is represented by an opaque identity, and the
    key a new session receives is supplied by the caller. */
module AgentManager {
  import opened Wrappers

  /** An agent built for one session, known only by its identity. */
  datatype Agent = Agent(id: nat)

  /** A key counts as present when it is set and non-empty (`if not
      session_key` treats `None` and "" alike). */
  predicate HasKey(key: Option<string>) {
    key.Some? && key.value != ""
  }

  /** The part of a server-side session the core uses: its key. */
  class Session {
    var key: Option<string>

    /** A request's session before anything has been stored in it. */
    constructor ()
      ensures key == None
    {
      key := None;
    }

    /** A session the client's cookie points to. */
    constructor Existing(key: Option<string>)
      ensures this.key == key
    {
      this.key := key;
    }

    /** `session.create()`: the session store hands out a new key. */
    method Create(freshKey: string)
      modifies this
      ensures key == Some(freshKey)
    {
      key := Some(freshKey);
    }

    /** `session.flush()`: the session's data is deleted and its key unset. */
    method Flush()
      modifies this
      ensures key == None
    {
      key := None;
    }
  }

  /** The process-wide dictionary from session key to agent. */
  class Manager {
    var agents: map<string, Agent>

    /** The table when the server process starts: empty. */
    constructor ()
      ensures agents == map[]
    {
      agents := map[];
    }

    /** `get_agent(session_id)`: a lookup that changes nothing; `None` when
        the session has no agent (never created, ended, or lost). */
    function GetAgent(sessionId: string): (r: Option<Agent>)
      reads this
      ensures r.Some? <==> sessionId in agents
      ensures r.Some? ==> r.value == agents[sessionId]
    {
      Get(agents, sessionId)
    }

    /** `get_or_create_agent(session)`. A session without a key gets a new
        one, a new agent is stored under it (replacing whatever was there)
        and that agent is returned. A session with a key leaves both the
        session and the table alone and gets the lookup, which is `None`
        when no agent is stored under its key. */
    method GetOrCreateAgent(session: Session, freshKey: string, newAgent: Agent) returns (agent: Option<Agent>)
      modifies this, session
      ensures !HasKey(old(session.key)) ==>
        && session.key == Some(freshKey)
        && agents == old(agents)[freshKey := newAgent]
        && agent == Some(newAgent)
      ensures HasKey(old(session.key)) ==>
        && session.key == old(session.key)
        && agents == old(agents)
        && agent == GetAgent(session.key.value)
    {
      if !HasKey(session.key) {
        session.Create(freshKey);
        agents := agents[freshKey := newAgent];
      }
      agent := Get(agents, session.key.value);
    }

    /** `get_or_create_agent` as its documentation intends it, "get the agent
        for this session or create a new one": a session whose key has no
        agent (the table lives in the server's memory and is lost when it
        restarts, while the session is kept by the session store) also gets
        a new agent, stored under the key it already has. An agent is always
        returned, and it is the one stored under the session's key. */
    method GetOrCreateAgentFixed(session: Session, freshKey: string, newAgent: Agent) returns (agent: Agent)
      modifies this, session
      ensures session.key.Some? && session.key.value in agents && agents[session.key.value] == agent
      ensures !HasKey(old(session.key)) ==>
        && session.key == Some(freshKey)
        && agents == old(agents)[freshKey := newAgent]
        && agent == newAgent
      ensures HasKey(old(session.key)) && old(session.key).value in old(agents) ==>
        && session.key == old(session.key)
        && agents == old(agents)
        && agent == old(agents)[session.key.value]
      ensures HasKey(old(session.key)) && old(session.key).value !in old(agents) ==>
        && session.key == old(session.key)
        && agents == old(agents)[session.key.value := newAgent]
        && agent == newAgent
    {
      if !HasKey(session.key) {
        session.Create(freshKey);
        agents := agents[freshKey := newAgent];
        agent := newAgent;
      } else if session.key.value in agents {
        agent := agents[session.key.value];
      } else {
        agents := agents[session.key.value := newAgent];
        agent := newAgent;
      }
    }

    /** `end_session(session)`: true exactly when the session's key had an
        agent; afterwards that key has none and every other entry is as it
        was. A session without an agent is a no-op returning false, so
        ending a session twice returns false the second time. */
    method EndSession(session: Session) returns (ended: bool)
      modifies this
      ensures ended <==> session.key.Some? && session.key.value in old(agents)
      ensures ended ==> agents == old(agents) - {session.key.value}
      ensures !ended ==> agents == old(agents)
      ensures session.key.Some? ==> session.key.value !in agents
    {
      if session.key.Some? && session.key.value in agents {
        agents := agents - {session.key.value};
        ended := true;
      } else {
        ended := false;
      }
    }
  }
}
