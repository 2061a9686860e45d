/**
 * `GrazieRequestManager`: sending the chat history to the Grazie provider and turning
 * its error text into the notification the user sees.
 */
module Grazie {
  import opened Wrappers
  import opened Text
  import opened Notifications

  /** One entry of the chat history kept by `RequestManager`. */
  datatype ChatMessage = ChatMessage(role: string, content: string)

  const UnavailableMessage: string := "Grazie test generation feature is not available in this build."
  const InvalidTokenMessage: string := "Invalid Token for Grazie provided!"
  const InvalidTokenMarker: string := "invalid: 401"

  /** The history as the `(role, content)` pairs the provider is sent, entry by entry. */
  function MessagePairs(history: seq<ChatMessage>): (r: seq<(string, string)>)
    ensures |r| == |history|
    ensures forall i :: 0 <= i < |history| ==> r[i] == (history[i].role, history[i].content)
    decreases |history|
  {
    if |history| == 0 then []
    else MessagePairs(history[..|history| - 1]) + [(history[|history| - 1].role, history[|history| - 1].content)]
  }

  /**
   * The notification a non-empty request error turns into: an error mentioning
   * `invalid: 401` becomes the invalid-token message, any other error is shown verbatim,
   * and an empty error is no error.
   */
  function ReportedError(requestError: string): (r: Option<string>)
  {
    if requestError == "" then None
    else if Contains(requestError, InvalidTokenMarker) then Some(InvalidTokenMessage)
    else Some(requestError)
  }

  /**
   * A request error is reported exactly when it is non-empty, always with a non-empty
   * message that never repeats the raw `invalid: 401` text: an error mentioning it is
   * replaced by the invalid-token message, any other error is shown as the provider
   * wrote it.
   */
  lemma ReportedErrorExact(requestError: string)
    ensures ReportedError(requestError).Some? <==> requestError != ""
    ensures ReportedError(requestError).Some? ==>
              |ReportedError(requestError).value| > 0 && !Contains(ReportedError(requestError).value, InvalidTokenMarker)
    ensures Contains(requestError, InvalidTokenMarker) ==> ReportedError(requestError) == Some(InvalidTokenMessage)
    ensures requestError != "" && !Contains(requestError, InvalidTokenMarker) ==> ReportedError(requestError) == Some(requestError)
  {
    if Contains(requestError, InvalidTokenMarker) {
      assert requestError != "" by {
        assert InvalidTokenMarker[0] in InvalidTokenMarker;
        ContainedCharsOccur(requestError, InvalidTokenMarker, InvalidTokenMarker[0]);
      }
      MessageLacksMarker();
    }
  }

  /** The invalid-token message does not itself mention `invalid: 401`: it has no colon. */
  lemma MessageLacksMarker()
    ensures !Contains(InvalidTokenMessage, InvalidTokenMarker)
  {
    assert InvalidTokenMarker[7] == ':';
    assert ':' !in InvalidTokenMessage;
    MissingCharNotContained(InvalidTokenMessage, InvalidTokenMarker, ':');
  }

  class GrazieRequestManager {
    const token: string
    var chatHistory: seq<ChatMessage>

    constructor (token: string)
      ensures this.token == token && chatHistory == []
    {
      this.token := token;
      chatHistory := [];
    }

    /** `getMessages`: copy the history into `(role, content)` pairs, in order. */
    method GetMessages() returns (result: seq<(string, string)>)
      ensures result == MessagePairs(chatHistory)
    {
      result := [];
      var i := 0;
      while i < |chatHistory|
        invariant 0 <= i <= |chatHistory|
        invariant result == MessagePairs(chatHistory[..i])
      {
        assert chatHistory[..i + 1][..i] == chatHistory[..i];
        result := result + [(chatHistory[i].role, chatHistory[i].content)];
        i := i + 1;
      }
      assert chatHistory[..i] == chatHistory;
    }

    /**
     * `request`: add the prompt to the history as a user message, then, if the Grazie
     * client is part of the build, send the whole history with the token, report a
     * non-empty request error, and hand the assembler on to `processResponse`; without
     * the client, report that the feature is unavailable and answer `("", null)`.
     * `providerAvailable` stands for the `Class.forName` lookup succeeding, `send` for
     * the client's `request` call.
     */
    method Request<Assembler, Suite>(prompt: string, packageName: string, providerAvailable: bool,
                                     send: (string, seq<(string, string)>) -> (string, Assembler),
                                     processResponse: (Assembler, string) -> (string, Option<Suite>),
                                     llmErrorManager: LLMErrorManager)
      returns (response: (string, Option<Suite>))
      modifies this, llmErrorManager
      ensures chatHistory == old(chatHistory) + [ChatMessage("user", prompt)]
      ensures !providerAvailable ==>
                && response == ("", None)
                && llmErrorManager.notices == old(llmErrorManager.notices) + [Error(UnavailableMessage)]
      ensures providerAvailable ==>
                var requestResult := send(token, MessagePairs(chatHistory));
                && response == processResponse(requestResult.1, packageName)
                && llmErrorManager.notices == old(llmErrorManager.notices)
                     + (match ReportedError(requestResult.0)
                        case None => []
                        case Some(message) => [Error(message)])
    {
      chatHistory := chatHistory + [ChatMessage("user", prompt)];
      var messages := GetMessages();
      if !providerAvailable {
        llmErrorManager.ErrorProcess(UnavailableMessage);
        return ("", None);
      }
      var requestResult := send(token, messages);
      var requestError := requestResult.0;
      var testsAssembler := requestResult.1;
      if |requestError| > 0 {
        if Contains(requestError, InvalidTokenMarker) {
          llmErrorManager.ErrorProcess(InvalidTokenMessage);
        } else {
          llmErrorManager.ErrorProcess(requestError);
        }
      }
      response := processResponse(testsAssembler, packageName);
    }
  }
}
