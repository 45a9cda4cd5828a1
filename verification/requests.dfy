/**
 The request bodies the endpoints accept (the pydantic models of main.py), as
 plain records. Transport-level validation of malformed bodies is not modelled.
 */
module Requests {
  import opened Outcomes

  /** One earlier turn of the conversation, already carrying its role and content. */
  datatype HistoryItem = HistoryItem(role: string, content: string)

  datatype ChatRequest = ChatRequest(
    message: string,
    language: string,
    state: Option<string>,
    caseType: Option<string>,
    conversationHistory: seq<HistoryItem>)

  datatype CourtLookupRequest = CourtLookupRequest(caseNumber: string, state: Option<string>)

  datatype NgoSearchRequest = NgoSearchRequest(state: string, caseType: string)

}
