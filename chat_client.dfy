/** The client's chat-request state machine: the state `App` keeps
    (transcript, input, session counter, active-session flag, retrieving
    flag) together with the state of the `useSendChat` hook it calls (the
    displayed error and the abort-controller reference), and one method per
    event that changes it: the user typing and submitting, the effect that
    starts a request, each way the request's promise chain can settle, the
    `finally` step, and a reset of the conversation. */
module ChatClient {
  import opened Wrappers
  import opened Strings
  import opened ChatTypes
  import opened Errors

  /** The JSON body of `POST /api/v1/chat/`. */
  datatype ChatBody = ChatBody(message: string, chatSession: nat, mode: string, tone: string)

  /** A request the client puts on the wire. */
  datatype Request = ChatPost(body: ChatBody) | EndPost

  /** A parsed 2xx payload: JSON `null`, on which reading `data.status`
      throws a `TypeError`, or any other value, of which the client reads two
      fields; `None` stands for a field that is absent (as every field of a
      number, string or array is). */
  datatype Payload = Null | Fields(status: Option<string>, response: Option<string>)

  /** The success test on a payload, `data.status === "success" &&
      data.response`: the status is "success" and the response a non-empty
      string. */
  predicate Accepts(p: Payload) {
    p.Fields? && p.status == Some("success") && p.response.Some? && p.response.value != ""
  }

  /** `response.ok`. */
  predicate IsOk(status: nat) {
    200 <= status <= 299
  }

  /** Whether the submit button is enabled: the negation of its `disabled`
      expression. It is enabled exactly when the input holds a character
      other than white space, no request is being retrieved and no error is
      shown. */
  function SubmitEnabled(input: string, isRetrieving: bool, error: Option<ErrorState>): (enabled: bool)
    ensures enabled <==> !Blank(input) && !isRetrieving && error == None
  {
    !(Trim(input) == "" || isRetrieving || error != None)
  }

  /** Where the current request is in its promise chain: none in progress;
      submitted, with the start effect still to run; sent and awaiting its
      outcome; settled by `then`/`catch`, with `finally` still to run. */
  datatype Stage = Idle | Requested | Awaiting | Settled

  class App {
    // Preferences persisted outside the core, read as opaque strings.
    var mode: string
    var tone: string
    // State held by App.
    var messageToSend: string
    var hasActiveSession: bool
    var chatSession: nat
    var messages: seq<Message>
    var isRetrieving: bool
    // State held by useSendChat.
    var error: Option<ErrorState>
    /** Whether `abortControllerRef.current` holds a controller (non-null). */
    var abortRef: bool
    /** Every request issued so far, oldest first. */
    var sent: seq<Request>
    // The promise chain's position, and how many chat requests have been
    // started and how many have completed their `finally` step.
    ghost var stage: Stage
    ghost var started: nat
    ghost var completed: nat

    /** The invariant every event preserves: `isRetrieving` is set exactly
        while a request is in progress; the abort reference is held exactly
        from the start of a request to its `finally`; from submission until
        the outcome no error is shown; a shown error is one of the
        classifier's six; and every request started, except the one in
        flight, has completed: at most one is in flight. */
    ghost predicate Valid()
      reads this
    {
      && (isRetrieving <==> stage != Idle)
      && (abortRef <==> stage == Awaiting || stage == Settled)
      && (stage == Requested || stage == Awaiting ==> error == None)
      && (error.Some? ==> Displayable(error.value))
      && started == completed + (if abortRef then 1 else 0)
    }

    /** Whether the submit button is enabled in this state. */
    predicate CanSubmit()
      reads this
    {
      SubmitEnabled(messageToSend, isRetrieving, error)
    }

    /** The first render: empty input and transcript, session 0, no active
        session, nothing retrieving, no error and no abort controller. */
    constructor (mode: string, tone: string)
      ensures Valid()
      ensures this.mode == mode && this.tone == tone
      ensures messageToSend == "" && !hasActiveSession && chatSession == 0
      ensures messages == [] && !isRetrieving && error == None && !abortRef
      ensures sent == [] && stage == Idle && started == 0
    {
      this.mode, this.tone := mode, tone;
      messageToSend, hasActiveSession, chatSession := "", false, 0;
      messages, isRetrieving := [], false;
      error, abortRef := None, false;
      sent := [];
      stage, started, completed := Idle, 0, 0;
    }

    /** The input's `onChange`: the user edits the text to send. */
    method Type(text: string)
      requires Valid()
      modifies this`messageToSend
      ensures Valid() && messageToSend == text
    {
      messageToSend := text;
    }

    /** The mode drop-down's `onChange`. */
    method SetMode(m: string)
      requires Valid()
      modifies this`mode
      ensures Valid() && mode == m
    {
      mode := m;
    }

    /** The tone drop-down's `onChange`. */
    method SetTone(t: string)
      requires Valid()
      modifies this`tone
      ensures Valid() && tone == t
    {
      tone := t;
    }

    /** The user submits the form. The browser runs `onSubmit` only while the
        submit button is enabled (a disabled default button blocks implicit
        submission too); `onSubmit` then sets `isRetrieving` and marks the
        session active, which stays so until a reset. */
    method Submit() returns (accepted: bool)
      requires Valid()
      modifies this`isRetrieving, this`hasActiveSession, this`stage
      ensures Valid()
      ensures accepted == old(CanSubmit())
      ensures accepted ==> isRetrieving && hasActiveSession && stage == Requested
      ensures !accepted ==> isRetrieving == old(isRetrieving) && stage == old(stage)
      ensures !accepted ==> hasActiveSession == old(hasActiveSession)
    {
      accepted := CanSubmit();
      assert accepted ==> error == None;
      if accepted {
        isRetrieving := true;
        if !hasActiveSession {
          hasActiveSession := true;
        }
        stage := Requested;
      }
    }

    /** The effect that runs once after each change of `isRetrieving` (and on
        mount). Unless `isRetrieving` is set and the input has a character
        other than white space it does nothing. Otherwise it records an abort
        controller, appends the input, untrimmed, as a user message, clears
        the input and the error, and posts the message with the current
        session counter, mode and tone. */
    method Start()
      requires Valid()
      requires stage == Requested || stage == Idle
      modifies this`abortRef, this`messages, this`messageToSend, this`error, this`sent, this`stage, this`started
      ensures Valid()
      ensures old(error).Some? ==> error == old(error)
      ensures old(isRetrieving) && !Blank(old(messageToSend)) ==>
        && messages == old(messages) + [Message(User, old(messageToSend))]
        && messageToSend == "" && error == None && abortRef && stage == Awaiting
        && sent == old(sent) + [ChatPost(ChatBody(old(messageToSend), chatSession, mode, tone))]
      ensures !(old(isRetrieving) && !Blank(old(messageToSend))) ==>
        && messages == old(messages) && messageToSend == old(messageToSend)
        && error == old(error) && abortRef == old(abortRef)
        && sent == old(sent) && stage == old(stage) && started == old(started)
    {
      var blank := Trim(messageToSend) == "";
      assert blank == Blank(messageToSend);
      if !isRetrieving || blank {
        return;
      }
      Send();
    }

    /** The part of the start effect past its guard: records the abort
        controller, appends the user message, clears the input and the
        error, and posts the request. */
    method Send()
      requires Valid() && stage == Requested
      modifies this`abortRef, this`messages, this`messageToSend, this`error, this`sent, this`stage, this`started
      ensures Valid()
      ensures started == old(started) + 1
      ensures messages == old(messages) + [Message(User, old(messageToSend))]
      ensures messageToSend == "" && error == None && abortRef && stage == Awaiting
      ensures sent == old(sent) + [ChatPost(ChatBody(old(messageToSend), chatSession, mode, tone))]
    {
      abortRef := true;
      var content := messageToSend;
      messages := messages + [Message(User, content)];
      messageToSend := "";
      error := None;
      sent := sent + [ChatPost(ChatBody(content, chatSession, mode, tone))];
      stage := Awaiting;
      started := started + 1;
    }

    /** The request answered with a 2xx status and a parsed payload. A
        payload passing the success test appends exactly one assistant
        message with its response and leaves no error. A `null` payload
        makes the success test itself throw a `TypeError`, which is shown
        as the network error. Any other payload appends nothing and shows
        the invalid-response error. */
    method ResolveOk(payload: Payload)
      requires Valid() && stage == Awaiting
      modifies this`messages, this`error, this`stage
      ensures Valid() && stage == Settled
      ensures Accepts(payload) ==>
        messages == old(messages) + [Message(Assistant, payload.response.value)] && error == None
      ensures payload.Null? ==> messages == old(messages) && error == Some(NetworkError)
      ensures payload.Fields? && !Accepts(payload) ==>
        messages == old(messages) && error == Some(InvalidResponse)
    {
      if payload.Null? {
        ResolveNull();
      } else if Accepts(payload) {
        messages := messages + [Message(Assistant, payload.response.value)];
        error := None;
        stage := Settled;
      } else {
        ResolveInvalid();
      }
    }

    /** The 2xx payload was `null`: reading its `status` throws a
        `TypeError`, whose engine-specific message does not matter, since
        every `TypeError` is classified as a network failure. */
    method ResolveNull()
      requires Valid() && stage == Awaiting
      modifies this`error, this`stage
      ensures Valid() && stage == Settled
      ensures error == Some(NetworkError)
    {
      TypeErrorWins("");
      ResolveError(Failure(true, ""));
    }

    /** The 2xx payload failed the success test: `INVALID_RESPONSE` is
        thrown and classified. */
    method ResolveInvalid()
      requires Valid() && stage == Awaiting
      modifies this`error, this`stage
      ensures Valid() && stage == Settled
      ensures error == Some(InvalidResponse)
    {
      InvalidResponseClassification();
      ResolveError(InvalidResponseFailure);
    }

    /** The request answered with a status outside 200-299: `HTTP_<status>`
        is thrown and classified; for every three-digit status the shown
        error is the one the status table gives. */
    method ResolveHttp(status: nat)
      requires Valid() && stage == Awaiting
      requires !IsOk(status)
      modifies this`error, this`stage
      ensures Valid() && stage == Settled
      ensures error == Some(Classify(HttpFailure(status)))
      ensures 100 <= status <= 999 ==> error == Some(StatusError(status))
    {
      if 100 <= status <= 999 {
        StatusClassification(status);
      }
      ResolveError(HttpFailure(status));
    }

    /** The promise chain rejected with an error other than an abort (the
        `TypeError` of an unreachable server, a payload that is not JSON,
        or one of the errors thrown above): the error shown is its
        classification and the transcript is left as it is. */
    method ResolveError(err: Failure)
      requires Valid() && stage == Awaiting
      modifies this`error, this`stage
      ensures Valid() && stage == Settled
      ensures error == Some(Classify(err))
    {
      error := Some(Classify(err));
      stage := Settled;
    }

    /** The request was aborted: the `AbortError` is swallowed, so neither
        the transcript nor the error changes. */
    method ResolveAbort()
      requires Valid() && stage == Awaiting
      modifies this`stage
      ensures Valid() && stage == Settled
    {
      stage := Settled;
    }

    /** `finally`, after every outcome: `isRetrieving` falls back to false
        and the abort reference is cleared. */
    method Finally()
      requires Valid() && stage == Settled
      modifies this`isRetrieving, this`abortRef, this`stage, this`completed
      ensures Valid() && stage == Idle
      ensures !isRetrieving && !abortRef
      ensures completed == old(completed) + 1
    {
      isRetrieving := false;
      abortRef := false;
      stage := Idle;
      completed := completed + 1;
    }

    /** `resetChat`, followed by the effect its change of `chatSession`
        triggers. It posts the end request on every call, whatever
        `hasActiveSession` is, and never looks at that request's outcome;
        it empties the transcript, marks the session inactive, advances the
        session counter by one and clears the error. It leaves the input,
        the preferences, `isRetrieving` and any request in flight alone. */
    method Reset()
      requires Valid()
      modifies this`messages, this`hasActiveSession, this`chatSession, this`error, this`sent
      ensures Valid()
      ensures sent == old(sent) + [EndPost]
      ensures messages == [] && !hasActiveSession && error == None
      ensures chatSession == old(chatSession) + 1
    {
      sent := sent + [EndPost];
      hasActiveSession := false;
      messages := [];
      chatSession := chatSession + 1;
      error := None;
    }
  }
}
