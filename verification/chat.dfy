/**
 The `/api/chat` endpoint of main.py: the message list handed to the language
 model (a window of the conversation history followed by the user's message)
 and the choice between the model's reply and the mock reply. The call to the
 model itself is outside the program and arrives here as a parameter.
 */
module Chat {
  import opened Outcomes
  import opened Requests
  import opened MockResponses

  /** One entry of the message list sent to the model. */
  datatype Message = Message(role: string, content: string)

  /** How many earlier turns accompany the user's message. */
  const HistoryWindow: nat := 10

  /** Python's `s[-n:]` for `n > 0`: the last `n` elements, or all of them when there are fewer. */
  function LastN<T>(s: seq<T>, n: nat): (r: seq<T>)
    requires n > 0
    ensures |r| == if |s| <= n then |s| else n
    ensures r == s[|s| - |r|..]
  {
    if |s| <= n then s else s[|s| - n..]
  }

  /**
   The message list built by `chat`: the last ten history turns, in order, each
   copied as role and content, and then the user's message.
   */
  method ChatMessages(req: ChatRequest) returns (messages: seq<Message>)
    ensures var h := req.conversationHistory;
      |messages| == (if |h| <= HistoryWindow then |h| else HistoryWindow) + 1
    ensures messages[|messages| - 1] == Message("user", req.message)
    ensures var h := req.conversationHistory;
      forall k :: 0 <= k < |messages| - 1 ==>
        var item := h[|h| - (|messages| - 1) + k];
        messages[k] == Message(item.role, item.content)
  {
    var window := LastN(req.conversationHistory, HistoryWindow);
    messages := [];
    for i := 0 to |window|
      invariant |messages| == i
      invariant forall k :: 0 <= k < i ==> messages[k] == Message(window[k].role, window[k].content)
    {
      messages := messages + [Message(window[i].role, window[i].content)];
    }
    messages := messages + [Message("user", req.message)];
  }

  /** A conversation that fits the window is sent whole: the message list starts with every turn of it. */
  lemma ShortHistorySentWhole(history: seq<HistoryItem>)
    requires |history| <= HistoryWindow
    ensures LastN(history, HistoryWindow) == history
  {
  }

  /** What the call to the language model did, when a client is configured. */
  datatype ModelOutcome =
    | NoClient
    | ModelReplied(text: string)
    | ModelRaised

  datatype ChatResponse = ChatResponse(reply: string, source: string, language: string, disclaimer: bool)

  /**
   `chat`: the model's reply when a client is configured and the call succeeds;
   otherwise (no client, or the call raised) the mock reply, which can itself
   end in a recursion error.
   */
  function ChatEndpoint(req: ChatRequest, model: ModelOutcome): (r: Eval<ChatResponse>)
    ensures model.ModelReplied? ==> r == Returned(ChatResponse(model.text, "claude", req.language, true))
    ensures !model.ModelReplied? ==> (r.Returned? <==> GenerateMockResponse(req).Returned?)
    ensures !model.ModelReplied? && r.Returned? ==>
      r.value == ChatResponse(GenerateMockResponse(req).value, "mock", req.language, true)
  {
    match model
    case ModelReplied(text) => Returned(ChatResponse(text, "claude", req.language, true))
    case _ =>
      match GenerateMockResponse(req)
      case Returned(reply) => Returned(ChatResponse(reply, "mock", req.language, true))
      case RecursionError => RecursionError
  }

  /** Without a working model, a labour message fails: the mock labour reply never returns. */
  lemma LabourChatFailsWithoutModel(req: ChatRequest, model: ModelOutcome)
    requires !model.ModelReplied?
    requires Classify(req.message) == Labour
    ensures ChatEndpoint(req, model) == RecursionError
  {
  }
}
