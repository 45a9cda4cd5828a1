# JUSTIA backend core, modelled in Dafny

JUSTIA is a FastAPI service that gives Indian citizens legal *information*
(not advice). It answers in several languages: English, Hindi, Tamil, Telugu
and Bengali. Its deterministic part, modelled here, has four pieces.

- **Mock response engine.** A keyword classifier reads the lower-cased chat
  message and picks a topic: rental, labour, consumer, domestic violence, or
  the welcome text. A per-topic renderer then picks the template for the
  requested language.
- **Context prompt.** This is the text sent to the language model. It holds
  a language instruction, then an optional block for the state and an
  optional block for the case type.
- **Reference lookups.**
  - An NGO search: an OR-filter over the NGO directory, with the national
    legal services authority (NALSA) appended and the list cut to five.
  - A mock court-case lookup: a case-insensitive substring match.
  - The combined legal information for a case type and a state.
  - The document checklist.
- **Chat endpoint.** It builds the message list (the last ten history turns,
  then the user's message) and falls back to the mock engine when the model
  is unavailable.

The constant tables are immutable maps and sequences in `LegalData`:

- the six states;
- the four case types, with their steps, documents and forums;
- the welcome and ask-state templates;
- the NGO directory;
- the two mock court records.

Unknown ids give `Lookup.NotFound`, which stands for the HTTP 404.

The operations that read a table are defined over the table they read: the
state and case-type tables (`LegalInfoIn`, `DocumentsIn`, `ContextPromptIn`,
`RentalReplyIn`) or the mock court records (`CourtLookupIn`). `GetLegalInfo`, `GetDocuments`,
`CourtLookup`, `BuildContextPrompt` and `RentalReply` apply them to the
repository's tables. Facts about particular
entries are stated separately, for example `DelhiRentalCitesRentAct` and
`MockTableNumbering`.

Modules, one file each:

| module | file |
|---|---|
| `Outcomes` (Option, Lookup, Eval) | outcomes.dfy |
| `Strings` (substring test, ASCII case, join, decimal and `{:,}` rendering) | strings.dfy |
| `LegalData` (tables) | legal_data.dfy |
| `Requests` (request bodies) | requests.dfy |
| `Templates` (the rental, labour, consumer and domestic-violence reply texts) | templates.dfy |
| `MockResponses` | mock_responses.dfy |
| `ContextPrompt` | context_prompt.dfy |
| `Lookups` | lookups.dfy |
| `Chat` | chat.dfy |

**A defect reproduced rather than repaired.** `get_labour_response`,
`get_consumer_response` and `get_dv_response` pass a call to themselves as
the default argument of `dict.get`. Python evaluates that argument before the
lookup, so each call recurses until RecursionError, whatever the language.
`GetWithSelfDefault` models the evaluation with an explicit stack depth, and
`SelfDefaultNeverReturns` proves that it never returns. As a result,
`GenerateMockResponse` returns a reply only for rental messages and messages
with no keyword.

**NALSA is not always included.** The comment at main.py:365 says the
national legal services authority is always included, but the `[:5]` cut
drops it when five table NGOs match, as in any Maharashtra search. The model
follows the code (`MaharashtraSearchDropsNalsa`).

## Model

| member | source | states |
|---|---|---|
| `MockResponses.Classify` | main.py:416-433 | The topic's keywords occur in the lower-cased message, and no topic checked earlier (rental, labour, consumer, domestic violence, in that order) has a keyword there. With no hit the topic is Welcome. |
| `MockResponses.ClassifyIsFirstHit` | main.py:419-433 | The priority rule determines the topic: any topic meeting it is the one chosen, so the first hit wins. |
| `MockResponses.ClassifyIgnoresCase` | main.py:416 | Changing the ASCII case of the message (ASCII lower-casing or upper-casing) does not change the topic. |
| `MockResponses.ShortMessageIsWelcome` | main.py:419-433 | A message shorter than three characters contains no keyword and gets the welcome topic. |
| `MockResponses.KeywordSelects` | main.py:419-430 | A message containing a topic's keyword, in any ASCII case, hits that topic's list. |
| `MockResponses.RentBeatsSalary` | main.py:416-423 | A message with "RENT" in capitals and "salary" is rental: case is ignored and rental is checked before labour. |
| `MockResponses.ParentIsRental` | main.py:419-420 | "parent" selects rental, because "rent" is a substring. |
| `MockResponses.RentalLanguageFallback` | main.py:442-477 | A language other than en and hi gets exactly the English rental text. |
| `MockResponses.RentalEndsWithDisclaimer` | main.py:459-477 | Both rental texts end with their language's "legal information, not legal advice" line. |
| `MockResponses.RentalStateClauseIffKnown` | main.py:437-440 | For a known state id, the reply contains the "{name} Specific Law: {rent act}" clause. The reply differs from the stateless one exactly when the id is a known, non-empty key. |
| `MockResponses.WelcomeLanguages` | main.py:432-433 | A language with a welcome text gets its own text; any other gets the English welcome. |
| `MockResponses.SelfDefaultNeverReturns` | main.py:480-509 | Evaluating `templates.get(lang, render("en"))` with the self-call as default ends in RecursionError for every table, language and stack depth. |
| `MockResponses.LabourReply` | main.py:480-509 | `get_labour_response` raises RecursionError for every state and language. |
| `MockResponses.ConsumerReply` | main.py:512-537 | `get_consumer_response` raises RecursionError for every state and language. |
| `MockResponses.DomesticViolenceReply` | main.py:540-569 | `get_dv_response` raises RecursionError for every language. |
| `MockResponses.MentionsAnyAppend` | main.py:419-430 | Python's `any(w in msg for w in a + b)` holds exactly when it holds for `a` or for `b`. |
| `MockResponses.AllKeywordsHitIffSomeTopicHits` | main.py:419-433 | The combined keyword list hits exactly when one of the four topic lists hits. |
| `MockResponses.GenerateMockResponse` | main.py:411-433 | A rental hit yields the rental reply. No keyword at all yields the welcome reply. A reply is returned exactly in those two cases; every other message raises RecursionError. |
| `ContextPrompt.LanguageInstructionFallback` | main.py:117-123 | "Respond in English." is given exactly for codes outside en, hi, ta, te, bn, and it differs from the en instruction. |
| `ContextPrompt.ContextPromptIn` | main.py:94-125 | The prompt starts with the language instruction and a blank line. A known state puts its block right after that. A known case type puts its block at the end. With neither, the prompt is just the instruction and the blank line. Its length is exactly that of the instruction, the blank line and the blocks of the known ids, so nothing else appears and a block appears only for a known id. |
| `ContextPrompt.PromptIgnoresUnknownIds` | main.py:97-108 | An unknown or empty state or case-type id gives the same prompt as no id. |
| `ContextPrompt.IncomeLimitRendering` | main.py:104 | `f"{300000:,}"` renders as "300,000". |
| `ContextPrompt.StateBlockCites` | main.py:99-106 | The state block contains the state's rent act and its grouped income limit. |
| `ContextPrompt.CaseTypeBlockCites` | main.py:110-115 | The case-type block contains every primary act. |
| `ContextPrompt.StateBlockIncomeLimit` | main.py:104 | A state with the 300000 limit has "300,000" in its block. |
| `ContextPrompt.PromptContainsStateBlock` | main.py:97-125 | For a known state, the prompt contains that state's block. |
| `ContextPrompt.PromptCitesStateFacts` | main.py:97-125 | For a known state, the prompt cites its rent act and its grouped income limit. |
| `ContextPrompt.PromptShowsIncomeLimit` | main.py:104 | With the repository's states, a known state's prompt shows "300,000". |
| `ContextPrompt.PromptCitesEveryAct` | main.py:108-125 | For a known case type, the prompt cites every primary act of that type. |
| `Lookups.FindNgos` | main.py:356-382 | The result lists the qualifying table NGOs in table order, then NALSA, cut to five. The total counts the list before the cut. State and case type are echoed. |
| `Lookups.MatchingNgosMembership` | main.py:358-363 | An NGO is matched exactly when it is in the table and serves the state or handles the case type (or lists "all"). |
| `Lookups.NgoSearchShape` | main.py:358-382 | The result has one to five entries. Each is NALSA or a qualifying table NGO. NALSA is shown exactly when fewer than five table NGOs qualify. |
| `Lookups.NalsaNotInTable` | main.py:366-375 | The appended NALSA record is not one of the table's entries. |
| `Lookups.AllQualifyKeepsTable` | main.py:358-363 | When every entry qualifies, the match list is the whole table. |
| `Lookups.MaharashtraSearchDropsNalsa` | main.py:365-378 | Every table NGO serves Maharashtra, so a Maharashtra search returns the five table entries and cuts NALSA. |
| `Lookups.Take` | main.py:378 | `s[:n]` has `min(|s|, n)` elements and is a prefix of `s`. |
| `Lookups.FirstMatchingCase` | main.py:337-338 | The index returned matches and no earlier record matches. No index means no record matches. |
| `Lookups.CourtLookupIn` | main.py:327-352 | A record is found exactly when some record's upper-cased number contains the upper-cased query, and it is the first such record. Otherwise the reply echoes the query and suggests eCourts. A found record carries the demonstration disclaimer. The source is "eCourts (mock)" either way. |
| `Lookups.FirstMatchFound` | main.py:337-344 | Conversely, the first matching record is the one returned. |
| `Lookups.UpperFixesUpperCase` | main.py:338 | A number with no lower-case letters is its own upper-case form. |
| `Lookups.MockTableNumbering` | legal_data.py:396-432 | The mock records are CC/1234/2024 and then WC/456/2024. |
| `Lookups.LowerCaseQueryFindsConsumerCase` | main.py:337-344 | "cc/1234/2024" finds CC/1234/2024. |
| `Lookups.PartialQueryFindsConsumerCase` | main.py:337-344 | "1234" finds CC/1234/2024. |
| `Lookups.EmptyQueryFindsFirstCase` | main.py:337-344 | The empty query finds the first record. |
| `Lookups.Query456Numbers` | main.py:338 | "456" is absent from CC/1234/2024 and present in WC/456/2024. |
| `Lookups.Query999Numbers` | main.py:338 | "999" is absent from both numbers. |
| `Lookups.WageCaseQuery` | main.py:337-344 | "456" passes over the first record and finds WC/456/2024. |
| `Lookups.MissingCaseQuery` | main.py:346-352 | "999" finds nothing. |
| `Lookups.LegalInfoIn` | main.py:282-323 | An unknown case type is reported before the state. The result is found exactly when both ids are keys, and carries the case type's id, name, primary acts, documents, steps, success rate, average resolution days and forums, and the state's name, High Court, legal aid authority, helpline, legal aid URL, consumer forum and income limit, with the fixed disclaimer, sources and date. The relevant act is present exactly for rental_deposit, and is then the state's rent act. |
| `Lookups.LegalInfoForums` | main.py:304 | The forums are the amount bands when they are present and non-empty, else the jurisdiction table. |
| `Lookups.ForumsReported` | main.py:304 | On the repository's tables, forums are reported exactly for rental_deposit and consumer_complaint. |
| `Lookups.DelhiRentalCitesRentAct` | main.py:312 | Delhi's rental information names the Delhi Rent Control Act, 1958. |
| `Lookups.UnknownCaseTypeReportedFirst` | main.py:287-290 | With both ids unknown, the case-type error is the one returned. |
| `Lookups.DocumentsIn` | main.py:386-394 | A checklist is found exactly for a known case type, and lists that type's required documents with the fixed tip. Otherwise the detail is "Case type not found". |
| `Lookups.DocumentsAgreeWithLegalInfo` | main.py:386-394 | For a known state, the checklist and the legal information agree on whether the case type exists and on its documents. |
| `Chat.LastN` | main.py:172 | For a positive `n`, `s[-n:]` (here `s[-10:]`) has `min(|s|, 10)` elements and is a suffix of `s`. |
| `Chat.ChatMessages` | main.py:171-174 | The message list is the last `min(|h|, 10)` history turns, in order, copied as role and content, followed by the user's message. |
| `Chat.ShortHistorySentWhole` | main.py:172 | A history of at most ten turns is sent whole. |
| `Chat.ChatEndpoint` | main.py:162-209 | A model reply is returned with source "claude". Otherwise the mock reply is returned with source "mock", and the endpoint fails exactly when the mock engine does. |
| `Chat.LabourChatFailsWithoutModel` | main.py:198-202 | Without a working model, a labour message fails with RecursionError. |
| `Strings.ContainsIffOccurs` | main.py:419 | The scanning substring test agrees with "some start index matches", in both directions. |
| `Strings.OccursAtContains` | main.py:338 | A witness position proves containment. |
| `Strings.AbsentCharExcludes` | main.py:338 | A needle with a character the haystack lacks is not contained. |
| `Strings.SplicedContains` | main.py:440 | A piece spliced between two strings is contained in the result. |
| `Strings.ContainsTransitive` | main.py:338 | Containment is transitive. |
| `Strings.PrefixContained` | main.py:338 | A prefix is contained. |
| `Strings.SuffixContained` | main.py:419 | A suffix is contained. |
| `Strings.SuffixEndsWith` | main.py:459 | `s + t` ends with `t`. |
| `Strings.LongerNeverContained` | main.py:419 | A needle longer than the haystack is not contained. |
| `Strings.LowerAppend` | main.py:416 | Lower-casing distributes over concatenation. |
| `Strings.CaseMappingIdempotent` | main.py:416 | Lower-casing and upper-casing are idempotent. |
| `Strings.JoinContainsItems` | main.py:112 | `sep.join(items)` contains every item. |
| `Strings.DecimalString` | main.py:113-114 | `str(n)` is a non-empty string of digits with no leading zero. |
| `Strings.DecimalStringRoundTrip` | main.py:113-114 | Reading the decimal rendering back gives `n`. |
| `Strings.StripCommasAppend` | main.py:104 | Removing commas distributes over concatenation. |
| `Strings.StripCommasOfDigits` | main.py:104 | A digit string has no commas to remove. |
| `Strings.GroupDigitsOnlyAddsCommas` | main.py:104 | Grouping a digit string only inserts commas. |
| `Strings.GroupedDecimalDenotes` | main.py:104 | `f"{n:,}"` without its commas is `str(n)` and denotes `n`. |
| `LegalData.StateTableFacts` | legal_data.py:7-86 | The state ids are exactly maharashtra, delhi, karnataka, tamil_nadu, telangana and west_bengal. Delhi's rent act is the Delhi Rent Control Act, 1958, and Maharashtra's is the Maharashtra Rent Control Act, 1999. |
| `LegalData.IncomeLimitUniform` | legal_data.py:19 | Every state's legal-aid income limit is 300000. |
| `LegalData.CaseTypeTableFacts` | legal_data.py:89-324 | The case-type ids are exactly rental_deposit, labour_wage, consumer_complaint and domestic_violence. |
| `LegalData.StepsConsecutive` | legal_data.py:120-320 | Every case type numbers its steps 1, 2, … in list order. |
| `LegalData.ForumTables` | legal_data.py:105-232 | Only rental_deposit has amount bands, and only consumer_complaint has a jurisdiction table. |
| `LegalData.MockResponseLanguages` | legal_data.py:328-343 | The welcome and ask-state templates each cover exactly en, hi, ta, te and bn. |
| `LegalData.NgoTableFacts` | legal_data.py:346-392 | The NGO table has five entries, all free, none listing "all" as a state or focus. |
| `LegalData.CourtCaseTableFacts` | legal_data.py:396-432 | The two mock records are numbered CC/1234/2024 and WC/456/2024 and are distinct. |
| `MockResponses.RentalReplyIn` | main.py:436-477 | The rental reply: the template for "en" or "hi", the English one for any other code, with the "Specific Law" clause naming the state's rent act spliced in for a known state. Its properties are stated by `RentalLanguageFallback`, `RentalEndsWithDisclaimer` and `RentalStateClauseIffKnown`. |
| `MockResponses.WelcomeReply` | main.py:433 | The welcome template for the language, the English one for a code without a template. `WelcomeLanguages` states which codes have their own text. |
| `MockResponses.GetWithSelfDefault` | main.py:509 | `templates.get(lang, <self-call for "en">)` with the default evaluated first, given a remaining stack depth; depth 0 is the RecursionError. `SelfDefaultNeverReturns` proves it never returns. |
| `ContextPrompt.LanguageInstruction` | main.py:117-123 | The instruction for one of the five codes, and "Respond in English." for any other. `LanguageInstructionFallback` states when the fallback is used. |
| `Lookups.ForumsOf` | main.py:304 | Python's `or` on the two optional tables: the amount bands when present and non-empty, the jurisdiction table otherwise. `LegalInfoForums` states the rule. |
| `Lookups.MatchingNgos` | main.py:358-363 | The table NGOs, in table order, whose states or focus match the request or contain "all". `MatchingNgosMembership` states the filter in both directions. |
| `LegalData.KnownId` | main.py:97 | `x and x in table`: the id is given, non-empty and a key. |
| `Strings.Contains` | main.py:419 | Python's substring test `needle in haystack`. `ContainsIffOccurs` equates it with a matching start index. |
| `Strings.Lower` | main.py:416 | `str.lower` on ASCII letters: same length, each character mapped by the ASCII lower-case mapping. |
| `Strings.Upper` | main.py:338 | `str.upper` on ASCII letters: same length, each character mapped by the ASCII upper-case mapping. |
| `Strings.Join` | main.py:112 | `sep.join(items)`. `JoinContainsItems` states that every item appears in the result. |
| `Strings.GroupedDecimal` | main.py:104 | The `{:,}` rendering of a natural number. `GroupedDecimalDenotes` states that without its commas it is the decimal string and denotes the number. |
| `MockResponses.RentalStateClause` | main.py:437-440 | The "Specific Law" clause naming the state and its rent act for a known, non-empty state id, and the empty string otherwise. `RentalStateClauseIffKnown` states that the reply changes exactly for a known id. |
| `MockResponses.MentionsAny` | main.py:420-429 | `any(w in msg for w in words)`: some listed word is a substring of the message. `MentionsAnyAppend` and `KeywordSelects` state its properties. |
| `ContextPrompt.StateBlock` | main.py:99-106 | The state facts block: name, High Court, rent act, legal aid authority and helpline, grouped income limit and consumer forum. `StateBlockCites` states that it contains the rent act and the grouped limit. |
| `ContextPrompt.CaseTypeBlock` | main.py:110-115 | The case-type facts block: name, the primary acts joined with ", ", average resolution days and success rate. `CaseTypeBlockCites` states that it contains every primary act. |
| `ContextPrompt.ContextParts` | main.py:95-115 | The collected blocks: the state block for a known state, then the case-type block for a known case type. `ContextPromptIn` and `PromptIgnoresUnknownIds` state the resulting prompt. |
| `Lookups.StateMatch` | main.py:360 | The NGO lists the state or "all" among its states. |
| `Lookups.TypeMatch` | main.py:361 | The NGO lists the case type or "all" among its focus areas. |
| `Lookups.NgoQualifies` | main.py:360-362 | State match or type match. `MatchingNgosMembership` states that exactly the qualifying table entries are matched. |
| `Lookups.CaseNumberMatches` | main.py:338 | The upper-cased query is a substring of the record's upper-cased number. `CourtLookupIn` and `FirstMatchingCase` state that the first such record is found. |
| `Lookups.CaseNotFoundMessage` | main.py:349 | The not-found message echoing the query. `CourtLookupIn` states that it is returned exactly when no record matches. |

## Left out

- FastAPI routing, CORS, pydantic validation and the HTTP 404 plumbing. A 404 is the `NotFound` value.
- The call to the Anthropic model in `chat` and `chat_stream`. It is a network call, and `ChatEndpoint` takes its outcome as a parameter. The fixed system prompt sent with it is not modelled.
- `chat_stream` (server-sent events and `asyncio.sleep`). It is asynchronous I/O, and `asyncio` is never imported in main.py, so its mock path would fail on its first sleep.
- History items missing a "role" or "content" key, which make `chat` raise KeyError at main.py:173. A `HistoryItem` always carries both.
- `time.sleep` in `court_lookup` and the `response_time_ms` timings. They affect timing only.
- `get_stats`. It uses `random.randint`, `datetime.now()` and a float.
- `root`, `health`, `get_states` and `get_case_types`. They are listings and metadata with no logic beyond copying table fields.
- `MockResponses.ClassifyIgnoresCase`: holds for the ASCII case mapping only. Python's `str.upper` maps some non-ASCII letters to ASCII ones ("ı" to "I", "ſ" to "S"), so upper-casing such a message can complete a keyword and change the topic. Lower-casing has no such effect on any keyword.
- The `print` of the model error in `chat` (main.py:199). It is console output only.
- The request defaults of main.py:80-83 (`language` "en", no state, no case type, empty history). A `ChatRequest` always carries every field, so a caller supplies the defaults explicitly.
- `Strings.Lower`: Python's Unicode `str.lower`/`str.upper` is modelled for ASCII letters only. Every keyword is lower-case ASCII or in a script without case.
- The reply templates are kept verbatim, but only their head/clause/tail structure and closing lines are reasoned about. The ask-state template is in the table, and main.py never reads it.
- `Lookups.GetLegalInfo`, `Lookups.GetDocuments`, `Lookups.CourtLookup`, `ContextPrompt.BuildContextPrompt`, `MockResponses.RentalReply`: these carry no contract of their own. Their properties are stated on the table-parameterised functions they apply to the repository's tables.
