/**
 `build_context_prompt` of main.py: the preamble sent to the language model,
 made of a language instruction followed by a block of facts about the selected
 state and a block about the selected case type. Unknown ids are skipped silently.
 */
module ContextPrompt {
  import opened Outcomes
  import opened Strings
  import opened LegalData
  import opened Requests

  const LanguageInstructions: map<string, string> := map[
    "hi" := "Respond ENTIRELY in Hindi (Devanagari script).",
    "ta" := "Respond ENTIRELY in Tamil script.",
    "te" := "Respond ENTIRELY in Telugu script.",
    "bn" := "Respond ENTIRELY in Bengali script.",
    "en" := "Respond in clear, simple English."
  ]

  /** The instruction for a language code that has no entry of its own. */
  const FallbackInstruction: string := "Respond in English."

  function LanguageInstruction(lang: string): string {
    if lang in LanguageInstructions then LanguageInstructions[lang] else FallbackInstruction
  }

  /**
   The five supported codes have their own instructions, all different from the
   fallback; every other code, however close, gets the fallback, which is not the
   English instruction.
   */
  lemma LanguageInstructionFallback(lang: string)
    ensures LanguageInstruction(lang) == FallbackInstruction <==> lang !in {"en", "hi", "ta", "te", "bn"}
    ensures LanguageInstruction("en") != FallbackInstruction
  {
  }

  /** The pieces of the state facts block, literal text and interpolated fields in order. */
  function StateBlockPieces(s: StateProfile): seq<string> {
    ["\nSTATE CONTEXT — ", s.name,
     ":\n- High Court: ", s.highCourt,
     "\n- Rent Act: ", s.rentAct,
     "\n- Legal Aid: ", s.legalAidAuthority, " | Helpline: ", s.legalAidPhone,
     "\n- Free legal aid income limit: ₹", GroupedDecimal(s.incomeLimitLegalAid),
     "/year\n- Consumer Forum: ", s.consumerForum, "\n"]
  }

  /** The facts block for a state; the income limit is printed with thousands separators. */
  function StateBlock(s: StateProfile): string {
    Join(StateBlockPieces(s), "")
  }

  /** The pieces of the case-type facts block; the acts are joined with ", ". */
  function CaseTypeBlockPieces(ct: CaseType): seq<string> {
    ["\nCASE TYPE CONTEXT — ", ct.name,
     ":\n- Primary Laws: ", Join(ct.primaryActs, ", "),
     "\n- Average resolution: ", DecimalString(ct.avgResolutionDays),
     " days\n- Success rate: ", DecimalString(ct.successRatePercent), "%\n"]
  }

  function CaseTypeBlock(ct: CaseType): string {
    Join(CaseTypeBlockPieces(ct), "")
  }

  /** The optional blocks in the order they are collected. */
  function ContextParts(states: map<string, StateProfile>, caseTypes: map<string, CaseType>,
                        state: Option<string>, caseType: Option<string>): seq<string> {
    (if KnownId(state, states) then [StateBlock(states[state.value])] else [])
    + (if KnownId(caseType, caseTypes) then [CaseTypeBlock(caseTypes[caseType.value])] else [])
  }

  /**
   `build_context_prompt` over the given state and case-type tables. The prompt
   opens with the language instruction and a blank line; the state block follows
   for a known state, and the case-type block closes the prompt for a known case
   type. With neither id known, nothing follows the instruction; the length
   leaves room for nothing but these pieces, so a block appears only for a
   known id.
   */
  function ContextPromptIn(states: map<string, StateProfile>, caseTypes: map<string, CaseType>,
                           req: ChatRequest): (r: string)
    ensures IsPrefix(LanguageInstruction(req.language) + "\n\n", r)
    ensures KnownId(req.state, states) ==>
      IsPrefix(LanguageInstruction(req.language) + "\n\n" + StateBlock(states[req.state.value]), r)
    ensures KnownId(req.caseType, caseTypes) ==> EndsWith(r, CaseTypeBlock(caseTypes[req.caseType.value]))
    ensures !KnownId(req.state, states) && !KnownId(req.caseType, caseTypes) ==>
      r == LanguageInstruction(req.language) + "\n\n"
    ensures |r| == |LanguageInstruction(req.language)| + 2
      + (if KnownId(req.state, states) then |StateBlock(states[req.state.value])| else 0)
      + (if KnownId(req.caseType, caseTypes) then |CaseTypeBlock(caseTypes[req.caseType.value])| else 0)
  {
    var parts := ContextParts(states, caseTypes, req.state, req.caseType);
    var r := LanguageInstruction(req.language) + "\n\n" + Join(parts, "");
    assert |parts| == 2 ==> parts[1..] == [parts[1]];
    assert KnownId(req.state, states) ==> IsPrefix(StateBlock(states[req.state.value]), Join(parts, ""));
    r
  }

  /** `build_context_prompt` on the repository's tables. */
  function BuildContextPrompt(req: ChatRequest): string {
    ContextPromptIn(States, CaseTypes, req)
  }

  /** An unknown or empty id is dropped as if it had not been given. */
  lemma PromptIgnoresUnknownIds(states: map<string, StateProfile>, caseTypes: map<string, CaseType>,
                                req: ChatRequest)
    ensures !KnownId(req.state, states) ==>
      ContextPromptIn(states, caseTypes, req) == ContextPromptIn(states, caseTypes, req.(state := None))
    ensures !KnownId(req.caseType, caseTypes) ==>
      ContextPromptIn(states, caseTypes, req) == ContextPromptIn(states, caseTypes, req.(caseType := None))
  {
  }

  /** Every state's income limit of 300000 is printed as "300,000". */
  lemma IncomeLimitRendering()
    ensures GroupedDecimal(300000) == "300,000"
  {
    assert DecimalString(300000) == "300000";
  }

  /** A state block names the state's rent act and its grouped income limit. */
  lemma StateBlockCites(s: StateProfile)
    ensures Contains(StateBlock(s), s.rentAct)
    ensures Contains(StateBlock(s), GroupedDecimal(s.incomeLimitLegalAid))
  {
    JoinContainsItems(StateBlockPieces(s), "", 5);
    JoinContainsItems(StateBlockPieces(s), "", 11);
  }

  /** A case-type block cites every primary act. */
  lemma CaseTypeBlockCites(ct: CaseType, k: nat)
    requires k < |ct.primaryActs|
    ensures Contains(CaseTypeBlock(ct), ct.primaryActs[k])
  {
    JoinContainsItems(CaseTypeBlockPieces(ct), "", 3);
    JoinContainsItems(ct.primaryActs, ", ", k);
    ContainsTransitive(CaseTypeBlock(ct), Join(ct.primaryActs, ", "), ct.primaryActs[k]);
  }

  /** A state with the 300000 limit shows it as "300,000". */
  lemma StateBlockIncomeLimit(s: StateProfile)
    requires s.incomeLimitLegalAid == 300000
    ensures Contains(StateBlock(s), "300,000")
  {
    StateBlockCites(s);
    IncomeLimitRendering();
  }

  /** For a known state the prompt contains that state's block. */
  lemma PromptContainsStateBlock(states: map<string, StateProfile>, caseTypes: map<string, CaseType>,
                                 req: ChatRequest)
    requires KnownId(req.state, states)
    ensures Contains(ContextPromptIn(states, caseTypes, req), StateBlock(states[req.state.value]))
  {
    var block := StateBlock(states[req.state.value]);
    var r := ContextPromptIn(states, caseTypes, req);
    var lead := LanguageInstruction(req.language) + "\n\n";
    PrefixContained(lead + block, r);
    SplicedContains(lead, block, "");
    assert lead + block + "" == lead + block;
    ContainsTransitive(r, lead + block, block);
  }

  /** For a known state the prompt cites its rent act and its grouped income limit. */
  lemma PromptCitesStateFacts(states: map<string, StateProfile>, caseTypes: map<string, CaseType>,
                              req: ChatRequest)
    requires KnownId(req.state, states)
    ensures Contains(ContextPromptIn(states, caseTypes, req), states[req.state.value].rentAct)
    ensures Contains(ContextPromptIn(states, caseTypes, req),
      GroupedDecimal(states[req.state.value].incomeLimitLegalAid))
  {
    var s := states[req.state.value];
    var r := ContextPromptIn(states, caseTypes, req);
    PromptContainsStateBlock(states, caseTypes, req);
    StateBlockCites(s);
    ContainsTransitive(r, StateBlock(s), s.rentAct);
    ContainsTransitive(r, StateBlock(s), GroupedDecimal(s.incomeLimitLegalAid));
  }

  /** With the repository's states, a known state's prompt shows the income limit as "300,000". */
  lemma PromptShowsIncomeLimit(caseTypes: map<string, CaseType>, req: ChatRequest)
    requires KnownState(req.state)
    ensures Contains(ContextPromptIn(States, caseTypes, req), "300,000")
  {
    IncomeLimitUniform(req.state.value);
    IncomeLimitRendering();
    PromptCitesStateFacts(States, caseTypes, req);
  }

  /** For a known case type the prompt cites every one of its primary acts. */
  lemma PromptCitesEveryAct(states: map<string, StateProfile>, caseTypes: map<string, CaseType>,
                            req: ChatRequest, k: nat)
    requires KnownId(req.caseType, caseTypes) && k < |caseTypes[req.caseType.value].primaryActs|
    ensures Contains(ContextPromptIn(states, caseTypes, req), caseTypes[req.caseType.value].primaryActs[k])
  {
    var ct := caseTypes[req.caseType.value];
    var r := ContextPromptIn(states, caseTypes, req);
    CaseTypeBlockCites(ct, k);
    SuffixContained(r, CaseTypeBlock(ct));
    ContainsTransitive(r, CaseTypeBlock(ct), ct.primaryActs[k]);
  }
}
