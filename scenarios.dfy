/** The outcome of whole sequences of events of the client's state machine,
    taken in the order the browser delivers them, for any input text, reply
    and preferences. */
module Scenarios {
  import opened Wrappers
  import opened Strings
  import opened ChatTypes
  import opened Errors
  import opened ChatClient

  /** The first render, then `text` typed and submitted: the submission is
      accepted and the start effect is still to run. */
  method SubmitFirst(text: string, mode: string, tone: string) returns (app: App)
    requires !Blank(text)
    ensures fresh(app) && app.Valid() && app.stage == Requested && app.isRetrieving
    ensures app.messages == [] && app.error == None && app.messageToSend == text
    ensures app.mode == mode && app.tone == tone
    ensures app.chatSession == 0 && app.hasActiveSession && app.sent == []
  {
    app := new App(mode, tone);
    app.Type(text);
    var accepted := app.Submit();
  }

  /** The first submission followed by the start effect: the request is in
      flight. */
  method SendFirst(text: string, mode: string, tone: string) returns (app: App)
    requires !Blank(text)
    ensures fresh(app) && app.Valid() && app.stage == Awaiting
    ensures app.messages == [Message(User, text)] && app.error == None
    ensures app.messageToSend == "" && app.chatSession == 0 && app.hasActiveSession
    ensures app.sent == [ChatPost(ChatBody(text, 0, mode, tone))]
  {
    app := SubmitFirst(text, mode, tone);
    app.Start();
  }

  /** A first message answered with a success payload: the transcript is
      the user message followed by the reply, no error is shown and nothing
      is being retrieved. */
  method Exchange(text: string, reply: string, mode: string, tone: string)
    returns (transcript: seq<Message>, shown: Option<ErrorState>, retrieving: bool)
    requires !Blank(text) && reply != ""
    ensures transcript == [Message(User, text), Message(Assistant, reply)]
    ensures shown == None && !retrieving
  {
    var app := SendFirst(text, mode, tone);
    app.ResolveOk(Fields(Some("success"), Some(reply)));
    app.Finally();
    app.Start();
    transcript, shown, retrieving := app.messages, app.error, app.isRetrieving;
  }

  /** A first message answered with a 5xx status: only the user message
      remains and the server-error banner is shown. */
  method FailFirst(text: string, status: nat) returns (app: App)
    requires !Blank(text) && 500 <= status <= 599
    ensures fresh(app) && app.Valid() && app.stage == Idle && !app.isRetrieving
    ensures app.messages == [Message(User, text)] && app.error == Some(ServerError)
  {
    app := SendFirst(text, "", "");
    app.ResolveHttp(status);
    app.Finally();
    app.Start();
  }

  /** After a server error no new text can be submitted until a reset;
      after the reset the transcript is empty and the text is accepted. */
  method ErrorBlocksUntilReset(text: string, status: nat, next: string)
    returns (acceptedWhileError: bool, transcript: seq<Message>, afterReset: bool)
    requires !Blank(text) && 500 <= status <= 599 && !Blank(next)
    ensures !acceptedWhileError && transcript == [] && afterReset
  {
    var app := FailFirst(text, status);
    app.Type(next);
    acceptedWhileError := app.Submit();
    app.Reset();
    transcript := app.messages;
    afterReset := app.Submit();
  }

  /** A reset while the request is in flight neither aborts it nor discards
      its answer: the reply, which answers the previous session's request,
      arrives into the emptied transcript and is its only message. */
  method ResetDuringRequest(text: string, reply: string)
    returns (transcript: seq<Message>, session: nat, requests: seq<Request>)
    requires !Blank(text) && reply != ""
    ensures transcript == [Message(Assistant, reply)]
    ensures session == 1
    ensures requests == [ChatPost(ChatBody(text, 0, "", "")), EndPost]
  {
    var app := SendFirst(text, "", "");
    app.Reset();
    app.ResolveOk(Fields(Some("success"), Some(reply)));
    app.Finally();
    transcript, session, requests := app.messages, app.chatSession, app.sent;
  }

  /** A reset of a conversation that never had a message still posts the
      end request. */
  method ResetWithoutSession() returns (requests: seq<Request>, active: bool)
    ensures requests == [EndPost] && !active
  {
    var app := new App("", "");
    app.Reset();
    requests, active := app.sent, app.hasActiveSession;
  }

  /** Input made only of white space cannot be submitted, and the start
      effect sends nothing for it. */
  method BlankInputIgnored(text: string) returns (accepted: bool, requests: seq<Request>)
    requires Blank(text)
    ensures !accepted && requests == []
  {
    var app := new App("", "");
    app.Type(text);
    accepted := app.Submit();
    app.Start();
    requests := app.sent;
  }
}
