/** The client's error classifier (`getErrorMessage`): a first-match-wins
    decision table from a caught error to a kind and one of six fixed,
    generic messages, so that no exception text or server detail reaches
    the rendered page. */
module Errors {
  import opened Strings

  datatype ErrorKind = Network | Server | Unknown

  /** What the client displays: `{ type, message }`. */
  datatype ErrorState = ErrorState(kind: ErrorKind, message: string)

  /** A caught error as the classifier sees it: whether it is a
      `TypeError` (what `fetch` rejects with when the server cannot be
      reached) and its `message`. */
  datatype Failure = Failure(isTypeError: bool, message: string)

  const ConnectionText := "Unable to connect to the server. Please check your connection and try again."
  const ServerErrorText := "A server error occurred. Please try again later."
  const InvalidRequestText := "Invalid request. Please try again."
  const OtherHttpText := "An error occurred. Please try again."
  const InvalidResponseText := "Received an invalid response from the server. Please try again."
  const UnexpectedText := "An unexpected error occurred. Please try again."

  const NetworkError := ErrorState(Network, ConnectionText)
  const ServerError := ErrorState(Server, ServerErrorText)
  const InvalidRequest := ErrorState(Server, InvalidRequestText)
  const OtherHttpError := ErrorState(Server, OtherHttpText)
  const InvalidResponse := ErrorState(Server, InvalidResponseText)
  const UnexpectedError := ErrorState(Unknown, UnexpectedText)

  /** The six outcomes the classifier can produce, and nothing else. */
  predicate Displayable(e: ErrorState) {
    e == NetworkError || e == ServerError || e == InvalidRequest ||
    e == OtherHttpError || e == InvalidResponse || e == UnexpectedError
  }

  /** The first row of the table: a `TypeError`, or a message naming a
      failed connection as one of the major browsers words it. */
  predicate IsNetworkFailure(f: Failure) {
    f.isTypeError ||
    Contains(f.message, "Failed to fetch") ||
    Contains(f.message, "NetworkError") ||
    Contains(f.message, "Network request failed")
  }

  /** `getErrorMessage(err)`. The kind is `network` exactly for the first
      row, `server` exactly for the HTTP and invalid-response rows, and the
      message is always one of the six fixed texts. */
  function Classify(f: Failure): (e: ErrorState)
    ensures Displayable(e)
    ensures e.kind == Network <==> IsNetworkFailure(f)
    ensures e.kind == Server <==>
      !IsNetworkFailure(f) && (StartsWith(f.message, "HTTP_") || f.message == "INVALID_RESPONSE")
  {
    if IsNetworkFailure(f) then
      NetworkError
    else if StartsWith(f.message, "HTTP_") then
      var statusCode := ReplaceFirst(f.message, "HTTP_", "");
      if statusCode == "500" || StartsWith(statusCode, "5") then
        ServerError
      else if statusCode == "400" || statusCode == "401" || statusCode == "403" then
        InvalidRequest
      else
        OtherHttpError
    else if f.message == "INVALID_RESPONSE" then
      InvalidResponse
    else
      UnexpectedError
  }

  /** The error the client raises for a non-2xx status: `HTTP_<status>`. */
  function HttpFailure(status: nat): (f: Failure)
    ensures !f.isTypeError && StartsWith(f.message, "HTTP_")
  {
    Failure(false, "HTTP_" + DecimalString(status))
  }

  /** The error the client raises for a 2xx answer without a success payload. */
  const InvalidResponseFailure := Failure(false, "INVALID_RESPONSE")

  /** The classification by status number: 5xx is a server error; 400, 401
      and 403 an invalid request; any other status the generic HTTP error. */
  function StatusError(status: nat): (e: ErrorState)
    ensures e.kind == Server
  {
    if 500 <= status <= 599 then ServerError
    else if status == 400 || status == 401 || status == 403 then InvalidRequest
    else OtherHttpError
  }

  /** A `TypeError` is a network failure whatever its message says, even
      when the message looks like an HTTP status: the first row wins. */
  lemma TypeErrorWins(message: string)
    ensures Classify(Failure(true, message)) == NetworkError
  {
  }

  /** A message mentioning any of the three connection phrases is a network
      failure, whatever else it contains. */
  lemma ConnectionPhraseWins(message: string, prefix: string, phrase: string, suffix: string)
    requires phrase == "Failed to fetch" || phrase == "NetworkError" || phrase == "Network request failed"
    requires message == prefix + phrase + suffix
    ensures Classify(Failure(false, message)) == NetworkError
  {
    var i := IndexOf(message, phrase);
    assert message[|prefix|..][..|phrase|] == phrase;
    assert StartsWith(message[|prefix|..], phrase);
    assert i >= 0;
  }

  /** An `HTTP_` message is too short to contain a connection phrase, so it
      reaches the second row; the text after `HTTP_` is the status code. */
  lemma HttpRowReached(code: string)
    requires |code| <= 6
    ensures !IsNetworkFailure(Failure(false, "HTTP_" + code))
    ensures StartsWith("HTTP_" + code, "HTTP_")
    ensures ReplaceFirst("HTTP_" + code, "HTTP_", "") == code
  {
    var m := "HTTP_" + code;
    ContainsTooLong(m, "Failed to fetch");
    ContainsTooLong(m, "NetworkError");
    ContainsTooLong(m, "Network request failed");
    assert m[..5] == "HTTP_";
    ReplacePrefix("HTTP_", code, "");
  }

  /** Once the second row is reached (the message is not a network
      failure), the status code alone picks the message. */
  lemma HttpCodeRule(code: string)
    requires !IsNetworkFailure(Failure(false, "HTTP_" + code))
    ensures Classify(Failure(false, "HTTP_" + code)) ==
      if code == "500" || StartsWith(code, "5") then ServerError
      else if code == "400" || code == "401" || code == "403" then InvalidRequest
      else OtherHttpError
  {
    assert ("HTTP_" + code)[..5] == "HTTP_";
    ReplacePrefix("HTTP_", code, "");
  }

  /** The digit characters are distinct. */
  lemma DigitCharInjective(a: nat, b: nat)
    requires a < 10 && b < 10
    ensures DigitChar(a) == DigitChar(b) <==> a == b
  {
  }

  /** How the status code's text reflects the number, for three digits. */
  lemma {:induction false} ThreeDigitCode(status: nat)
    requires 100 <= status <= 999
    ensures var code := DecimalString(status);
      && (code == "500" || StartsWith(code, "5") <==> 500 <= status <= 599)
      && (code == "400" <==> status == 400)
      && (code == "401" <==> status == 401)
      && (code == "403" <==> status == 403)
  {
    var code := DecimalString(status);
    ThreeDigits(status);
    var h, t, u := status / 100, status / 10 % 10, status % 10;
    assert status == 100 * h + 10 * t + u;
    DigitCharInjective(h, 5);
    DigitCharInjective(h, 4);
    DigitCharInjective(t, 0);
    DigitCharInjective(u, 0);
    DigitCharInjective(u, 1);
    DigitCharInjective(u, 3);
    assert StartsWith(code, "5") <==> h == 5 by {
      assert StartsWith(code, "5") <==> code[0] == '5';
    }
    assert code == "400" <==> status == 400 by {
      assert code == "400" <==> code[0] == '4' && code[1] == '0' && code[2] == '0';
    }
    assert code == "401" <==> status == 401 by {
      assert code == "401" <==> code[0] == '4' && code[1] == '0' && code[2] == '1';
    }
    assert code == "403" <==> status == 403 by {
      assert code == "403" <==> code[0] == '4' && code[1] == '0' && code[2] == '3';
    }
  }

  /** For a three-digit status (every status a browser reports), classifying
      `HTTP_<status>` agrees with the table by status code. */
  lemma {:induction false} StatusClassification(status: nat)
    requires 100 <= status <= 999
    ensures Classify(HttpFailure(status)) == StatusError(status)
  {
    var code := DecimalString(status);
    ThreeDigits(status);
    ThreeDigitCode(status);
    HttpRowReached(code);
    HttpCodeRule(code);
  }

  /** An HTTP message that is not a network failure, and whose code does
      not start with "5" and is not one of the three listed codes, gets the
      generic HTTP message, even when the code is not a number at all
      ("HTTP_abc"). */
  lemma OtherHttpCodes(code: string)
    requires !IsNetworkFailure(Failure(false, "HTTP_" + code))
    requires !StartsWith(code, "5") && code != "400" && code != "401" && code != "403"
    ensures Classify(Failure(false, "HTTP_" + code)) == OtherHttpError
  {
    HttpCodeRule(code);
  }

  /** A string is not contained in one that lacks one of its characters. */
  lemma MissingChar(s: string, p: string, k: nat)
    requires k < |p| && p[k] !in s
    ensures !Contains(s, p)
  {
    if Contains(s, p) {
      ContainsChars(s, p, k);
    }
  }

  /** A message without a lower-case "e", shorter than the longest phrase and
      not starting with "H" (as `INVALID_RESPONSE`) is not a network failure
      and does not start with `HTTP_`. */
  lemma NeitherNetworkNorHttp(m: string)
    requires forall i :: 0 <= i < |m| ==> m[i] != 'e'
    requires 0 < |m| < 22 && m[0] != 'H'
    ensures !IsNetworkFailure(Failure(false, m)) && !StartsWith(m, "HTTP_")
  {
    MissingChar(m, "Failed to fetch", 4);
    MissingChar(m, "NetworkError", 1);
    ContainsTooLong(m, "Network request failed");
  }

  /** `INVALID_RESPONSE` yields the invalid-response message. */
  lemma InvalidResponseClassification()
    ensures Classify(InvalidResponseFailure) == InvalidResponse
  {
    NeitherNetworkNorHttp(InvalidResponseFailure.message);
  }

  /** Everything that is not a network failure, not an `HTTP_` message and not
      exactly `INVALID_RESPONSE` is unknown; in particular a near miss such as
      "invalid_response" or "INVALID_RESPONSE!" is. */
  lemma UnknownOtherwise(f: Failure)
    requires !IsNetworkFailure(f) && !StartsWith(f.message, "HTTP_")
    requires f.message != "INVALID_RESPONSE"
    ensures Classify(f) == UnexpectedError
  {
  }

  /** The displayed text never echoes the error's own message, unless that
      message is itself one of the six fixed texts. */
  lemma NoEcho(f: Failure)
    requires f.message != ConnectionText && f.message != ServerErrorText
    requires f.message != InvalidRequestText && f.message != OtherHttpText
    requires f.message != InvalidResponseText && f.message != UnexpectedText
    ensures Classify(f).message != f.message
  {
  }

  /** Each of the six outcomes is produced by some error, so the table has no
      dead row. */
  lemma EveryOutcomeReachable(e: ErrorState)
    requires Displayable(e)
    ensures exists f :: Classify(f) == e
  {
    if e == NetworkError {
      TypeErrorWins("");
      assert Classify(Failure(true, "")) == e;
    } else if e == ServerError {
      StatusClassification(500);
      assert Classify(HttpFailure(500)) == e;
    } else if e == InvalidRequest {
      StatusClassification(400);
      assert Classify(HttpFailure(400)) == e;
    } else if e == OtherHttpError {
      StatusClassification(404);
      assert Classify(HttpFailure(404)) == e;
    } else if e == InvalidResponse {
      InvalidResponseClassification();
      assert Classify(InvalidResponseFailure) == e;
    } else {
      assert !StartsWith("", "HTTP_");
      assert Classify(Failure(false, "")) == e;
    }
  }
}
