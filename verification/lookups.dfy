/**
 The reference-data endpoints of main.py: NGO search, mock court-case lookup,
 the combined legal information for a case type and state, and the document
 checklist. Unknown ids give `NotFound` (the HTTP 404) instead of an exception.
 */
module Lookups {
  import opened Outcomes
  import opened Strings
  import opened LegalData
  import opened Requests

  // ---------------------------------------------------------------------------
  // NGO search (`find_ngos`)

  predicate StateMatch(ngo: Ngo, state: string) {
    state in ngo.states || "all" in ngo.states
  }

  predicate TypeMatch(ngo: Ngo, caseType: string) {
    caseType in ngo.focus || "all" in ngo.focus
  }

  /** An NGO qualifies when it serves the state OR handles the case type. */
  predicate NgoQualifies(ngo: Ngo, state: string, caseType: string) {
    StateMatch(ngo, state) || TypeMatch(ngo, caseType)
  }

  /** Reference definition: the qualifying entries of `table`, in table order. */
  function MatchingNgos(table: seq<Ngo>, state: string, caseType: string): seq<Ngo>
    decreases |table|
  {
    if |table| == 0 then []
    else
      var last := table[|table| - 1];
      MatchingNgos(table[..|table| - 1], state, caseType)
      + (if NgoQualifies(last, state, caseType) then [last] else [])
  }

  /** The national entry appended to every search result. */
  const Nalsa: Ngo := Ngo(
    "NALSA (National Legal Services Authority)",
    ["all"],
    ["all"],
    "15100",
    "nalsa@nic.in",
    "https://nalsa.gov.in",
    true,
    Some("Free legal aid for income below ₹3 lakh/year"))

  const MaxNgoResults: nat := 5

  datatype NgoSearchResult = NgoSearchResult(
    ngos: seq<Ngo>,
    totalFound: nat,
    state: string,
    caseType: string)

  /** Python's `s[:n]`. */
  function Take<T>(s: seq<T>, n: nat): (r: seq<T>)
    ensures |r| == if |s| <= n then |s| else n
    ensures r == s[..|r|]
  {
    if |s| <= n then s else s[..n]
  }

  /** Exactly the qualifying entries of the table are matched, whatever their position. */
  lemma {:induction false} MatchingNgosMembership(table: seq<Ngo>, state: string, caseType: string, ngo: Ngo)
    ensures ngo in MatchingNgos(table, state, caseType) <==> ngo in table && NgoQualifies(ngo, state, caseType)
    decreases |table|
  {
    if |table| > 0 {
      var init := table[..|table| - 1];
      MatchingNgosMembership(init, state, caseType, ngo);
      assert table == init + [table[|table| - 1]];
    }
  }

  lemma NalsaNotInTable()
    ensures Nalsa !in NgoTable
  {
    assert forall i :: 0 <= i < |NgoTable| ==> NgoTable[i].name != Nalsa.name;
  }

  /**
   `find_ngos`: the qualifying table entries in table order, then the national
   entry, cut to the first five; `totalFound` counts the list before the cut.
   */
  method FindNgos(req: NgoSearchRequest) returns (r: NgoSearchResult)
    ensures r.totalFound == |MatchingNgos(NgoTable, req.state, req.caseType)| + 1
    ensures r.ngos == Take(MatchingNgos(NgoTable, req.state, req.caseType) + [Nalsa], MaxNgoResults)
    ensures r.state == req.state && r.caseType == req.caseType
  {
    var matches: seq<Ngo> := [];
    for i := 0 to |NgoTable|
      invariant matches == MatchingNgos(NgoTable[..i], req.state, req.caseType)
    {
      var ngo := NgoTable[i];
      var stateMatch := req.state in ngo.states || "all" in ngo.states;
      var typeMatch := req.caseType in ngo.focus || "all" in ngo.focus;
      assert NgoTable[..i + 1][..i] == NgoTable[..i];
      if stateMatch || typeMatch {
        matches := matches + [ngo];
      }
    }
    assert NgoTable[..|NgoTable|] == NgoTable;
    matches := matches + [Nalsa];
    r := NgoSearchResult(Take(matches, MaxNgoResults), |matches|, req.state, req.caseType);
  }

  /**
   What a search returns: at most five entries, at least one, each either NALSA or
   a qualifying table entry; NALSA is among them exactly when fewer than five table
   entries qualify.
   */
  lemma NgoSearchShape(state: string, caseType: string)
    ensures var matched := MatchingNgos(NgoTable, state, caseType);
      var shown := Take(matched + [Nalsa], MaxNgoResults);
      && 1 <= |shown| <= MaxNgoResults
      && (forall n :: n in shown ==> n == Nalsa || (n in NgoTable && NgoQualifies(n, state, caseType)))
      && (Nalsa in shown <==> |matched| < MaxNgoResults)
  {
    var matched := MatchingNgos(NgoTable, state, caseType);
    var shown := Take(matched + [Nalsa], MaxNgoResults);
    NalsaNotInTable();
    MatchingNgosMembership(NgoTable, state, caseType, Nalsa);
    forall n | n in shown
      ensures n == Nalsa || (n in NgoTable && NgoQualifies(n, state, caseType))
    {
      MatchingNgosMembership(NgoTable, state, caseType, n);
    }
    if |matched| < MaxNgoResults {
      assert shown[|matched|] == Nalsa;
    } else {
      assert shown == matched[..MaxNgoResults];
    }
  }

  /** Every table entry serves Maharashtra, so a Maharashtra search returns the whole table and no NALSA. */
  lemma MaharashtraSearchDropsNalsa(caseType: string)
    ensures MatchingNgos(NgoTable, "maharashtra", caseType) == NgoTable
    ensures Nalsa !in Take(MatchingNgos(NgoTable, "maharashtra", caseType) + [Nalsa], MaxNgoResults)
  {
    assert forall i :: 0 <= i < |NgoTable| ==> "maharashtra" in NgoTable[i].states;
    AllQualifyKeepsTable(NgoTable, "maharashtra", caseType);
    NgoSearchShape("maharashtra", caseType);
  }

  lemma {:induction false} AllQualifyKeepsTable(table: seq<Ngo>, state: string, caseType: string)
    requires forall i :: 0 <= i < |table| ==> NgoQualifies(table[i], state, caseType)
    ensures MatchingNgos(table, state, caseType) == table
    decreases |table|
  {
    if |table| > 0 {
      AllQualifyKeepsTable(table[..|table| - 1], state, caseType);
    }
  }

  // ---------------------------------------------------------------------------
  // Court case lookup (`court_lookup`)

  /** The upper-cased query is a substring of the upper-cased case number. */
  predicate CaseNumberMatches(query: string, c: CourtCase) {
    Contains(Upper(c.caseNumber), Upper(query))
  }

  /** The index of the first record whose number matches, scanning in list order. */
  function FirstMatchingCase(query: string, cases: seq<CourtCase>): (r: Option<nat>)
    ensures r.Some? ==> r.value < |cases| && CaseNumberMatches(query, cases[r.value])
    ensures r.Some? ==> forall j :: 0 <= j < r.value ==> !CaseNumberMatches(query, cases[j])
    ensures r.None? ==> forall j :: 0 <= j < |cases| ==> !CaseNumberMatches(query, cases[j])
    decreases |cases|
  {
    if |cases| == 0 then None
    else if CaseNumberMatches(query, cases[0]) then Some(0)
    else
      match FirstMatchingCase(query, cases[1..])
      case None => None
      case Some(k) => Some(k + 1)
  }

  datatype CourtLookupResult =
    | CaseFound(record: CourtCase, source: string, disclaimer: string)
    | CaseNotFound(message: string, suggestion: string, source: string)

  const CourtSource: string := "eCourts (mock)"
  const CourtDisclaimer: string := "Case data is for demonstration. For live data, visit ecourts.gov.in"
  const CourtSuggestion: string := "Visit https://ecourts.gov.in for live case status."

  /** The not-found message echoing the query. */
  function CaseNotFoundMessage(query: string): string {
    "Case " + query + " not found in our demo database."
  }

  /**
   `court_lookup` over the given records: the first record whose number contains
   the query, both upper-cased; otherwise a not-found reply echoing the query
   with a suggestion.
   */
  function CourtLookupIn(cases: seq<CourtCase>, req: CourtLookupRequest): (r: CourtLookupResult)
    ensures r.CaseFound? <==> exists i :: 0 <= i < |cases| && CaseNumberMatches(req.caseNumber, cases[i])
    ensures r.CaseFound? ==> exists i :: (0 <= i < |cases| && r.record == cases[i]
      && CaseNumberMatches(req.caseNumber, cases[i])
      && forall j :: 0 <= j < i ==> !CaseNumberMatches(req.caseNumber, cases[j]))
    ensures r.CaseNotFound? ==> r.message == CaseNotFoundMessage(req.caseNumber) && r.suggestion == CourtSuggestion
    ensures r.CaseFound? ==> r.disclaimer == CourtDisclaimer
    ensures r.source == CourtSource
  {
    match FirstMatchingCase(req.caseNumber, cases)
    case Some(i) => CaseFound(cases[i], CourtSource, CourtDisclaimer)
    case None => CaseNotFound(CaseNotFoundMessage(req.caseNumber), CourtSuggestion, CourtSource)
  }

  /** `court_lookup` on the repository's mock records. */
  function CourtLookup(req: CourtLookupRequest): CourtLookupResult {
    CourtLookupIn(MockCourtCases, req)
  }

  /** The first record matching a query is the one found. */
  lemma FirstMatchFound(cases: seq<CourtCase>, req: CourtLookupRequest, i: nat)
    requires i < |cases| && CaseNumberMatches(req.caseNumber, cases[i])
    requires forall j :: 0 <= j < i ==> !CaseNumberMatches(req.caseNumber, cases[j])
    ensures CourtLookupIn(cases, req).CaseFound? && CourtLookupIn(cases, req).record == cases[i]
  {
    var r := CourtLookupIn(cases, req);
    var k :| 0 <= k < |cases| && r.record == cases[k]
      && CaseNumberMatches(req.caseNumber, cases[k])
      && forall j :: 0 <= j < k ==> !CaseNumberMatches(req.caseNumber, cases[j]);
  }

  /** A string without lower-case ASCII letters is its own upper-case form. */
  lemma UpperFixesUpperCase(s: string)
    requires forall i :: 0 <= i < |s| ==> !('a' <= s[i] <= 'z')
    ensures Upper(s) == s
  {
  }

  /** Records numbered like the mock table: the consumer case first, then the wage case. */
  predicate NumberedLikeMockTable(cases: seq<CourtCase>) {
    |cases| == 2 && cases[0].caseNumber == "CC/1234/2024" && cases[1].caseNumber == "WC/456/2024"
  }

  lemma MockTableNumbering()
    ensures NumberedLikeMockTable(MockCourtCases)
  {
    CourtCaseTableFacts();
  }

  /** A lower-case query finds the consumer case. */
  lemma LowerCaseQueryFindsConsumerCase(cases: seq<CourtCase>, req: CourtLookupRequest)
    requires NumberedLikeMockTable(cases) && req.caseNumber == "cc/1234/2024"
    ensures CourtLookupIn(cases, req).CaseFound? && CourtLookupIn(cases, req).record == cases[0]
  {
    var number := cases[0].caseNumber;
    UpperFixesUpperCase(number);
    assert Upper(req.caseNumber) == number;
    PrefixContained(number, number);
    FirstMatchFound(cases, req, 0);
  }

  /** A partial number finds the consumer case. */
  lemma PartialQueryFindsConsumerCase(cases: seq<CourtCase>, req: CourtLookupRequest)
    requires NumberedLikeMockTable(cases) && req.caseNumber == "1234"
    ensures CourtLookupIn(cases, req).CaseFound? && CourtLookupIn(cases, req).record == cases[0]
  {
    var number := cases[0].caseNumber;
    UpperFixesUpperCase(number);
    UpperFixesUpperCase(req.caseNumber);
    assert number[3..7] == req.caseNumber;
    OccursAtContains(number, req.caseNumber, 3);
    FirstMatchFound(cases, req, 0);
  }

  /** The empty query matches every record, so it finds the first one. */
  lemma EmptyQueryFindsFirstCase(cases: seq<CourtCase>, req: CourtLookupRequest)
    requires |cases| > 0 && req.caseNumber == ""
    ensures CourtLookupIn(cases, req).CaseFound? && CourtLookupIn(cases, req).record == cases[0]
  {
    PrefixContained(Upper(req.caseNumber), Upper(cases[0].caseNumber));
    FirstMatchFound(cases, req, 0);
  }

  /** "456" is absent from the consumer case's number and present in the wage case's. */
  lemma Query456Numbers(first: string, second: string, query: string)
    requires first == "CC/1234/2024" && second == "WC/456/2024" && query == "456"
    ensures !Contains(Upper(first), Upper(query)) && Contains(Upper(second), Upper(query))
  {
    UpperFixesUpperCase(first);
    UpperFixesUpperCase(second);
    UpperFixesUpperCase(query);
    AbsentCharExcludes(first, query, '5');
    assert second[3..6] == query;
    OccursAtContains(second, query, 3);
  }

  /** "999" is absent from both mock numbers. */
  lemma Query999Numbers(first: string, second: string, query: string)
    requires first == "CC/1234/2024" && second == "WC/456/2024" && query == "999"
    ensures !Contains(Upper(first), Upper(query)) && !Contains(Upper(second), Upper(query))
  {
    UpperFixesUpperCase(first);
    UpperFixesUpperCase(second);
    UpperFixesUpperCase(query);
    AbsentCharExcludes(first, query, '9');
    AbsentCharExcludes(second, query, '9');
  }

  /** "456" is not in the consumer case's number, so the wage case is found. */
  lemma WageCaseQuery(cases: seq<CourtCase>, req: CourtLookupRequest)
    requires NumberedLikeMockTable(cases) && req.caseNumber == "456"
    ensures CourtLookupIn(cases, req).CaseFound? && CourtLookupIn(cases, req).record == cases[1]
  {
    Query456Numbers(cases[0].caseNumber, cases[1].caseNumber, req.caseNumber);
    FirstMatchFound(cases, req, 1);
  }

  /** "999" occurs in neither number, so nothing is found. */
  lemma MissingCaseQuery(cases: seq<CourtCase>, req: CourtLookupRequest)
    requires NumberedLikeMockTable(cases) && req.caseNumber == "999"
    ensures CourtLookupIn(cases, req).CaseNotFound?
  {
    Query999Numbers(cases[0].caseNumber, cases[1].caseNumber, req.caseNumber);
  }

  // ---------------------------------------------------------------------------
  // Legal information (`get_legal_info`) and document checklist (`get_documents`)

  datatype CaseTypeInfo = CaseTypeInfo(
    id: string,
    name: string,
    primaryActs: seq<string>,
    requiredDocuments: seq<string>,
    steps: seq<ProcedureStep>,
    successRatePercent: nat,
    avgResolutionDays: nat,
    forums: Option<Forums>)

  datatype StateInfo = StateInfo(
    name: string,
    highCourt: string,
    legalAidAuthority: string,
    legalAidPhone: string,
    legalAidUrl: string,
    relevantAct: Option<string>,
    consumerForum: string,
    incomeLimitLegalAid: nat)

  datatype LegalInfo = LegalInfo(
    caseType: CaseTypeInfo,
    state: StateInfo,
    disclaimer: string,
    sources: seq<string>,
    lastUpdated: string)

  /** Python's `ct.get("forums_by_amount") or ct.get("jurisdiction")`: an empty table counts as missing. */
  function ForumsOf(ct: CaseType): Option<Forums> {
    if ct.forumsByAmount.Some? && |ct.forumsByAmount.value| > 0 then ct.forumsByAmount else ct.jurisdiction
  }

  /**
   `get_legal_info` over the given case-type and state tables. The case type is
   checked before the state; the rent act is reported only for rental deposits;
   the forums come from the amount bands or, failing those, the jurisdiction table.
   */
  function LegalInfoIn(caseTypes: map<string, CaseType>, states: map<string, StateProfile>,
                       caseType: string, state: string): (r: Lookup<LegalInfo>)
    ensures caseType !in caseTypes ==> r == NotFound("Case type '" + caseType + "' not found")
    ensures caseType in caseTypes && state !in states ==> r == NotFound("State '" + state + "' not found")
    ensures r.Found? <==> caseType in caseTypes && state in states
    ensures r.Found? ==> r.value.caseType.id == caseType && r.value.caseType.name == caseTypes[caseType].name
    ensures r.Found? ==> r.value.caseType.requiredDocuments == caseTypes[caseType].requiredDocuments
    ensures r.Found? ==> r.value.caseType.steps == caseTypes[caseType].steps
    ensures r.Found? ==> (r.value.state.name == states[state].name
      && r.value.state.legalAidPhone == states[state].legalAidPhone)
    ensures r.Found? ==> (r.value.state.relevantAct.Some? <==> caseType == "rental_deposit")
    ensures r.Found? && caseType == "rental_deposit" ==> r.value.state.relevantAct == Some(states[state].rentAct)
    ensures r.Found? ==> (r.value.caseType.primaryActs == caseTypes[caseType].primaryActs
      && r.value.caseType.successRatePercent == caseTypes[caseType].successRatePercent
      && r.value.caseType.avgResolutionDays == caseTypes[caseType].avgResolutionDays
      && r.value.caseType.forums == ForumsOf(caseTypes[caseType]))
    ensures r.Found? ==> (r.value.state.highCourt == states[state].highCourt
      && r.value.state.legalAidAuthority == states[state].legalAidAuthority
      && r.value.state.legalAidUrl == states[state].legalAidUrl
      && r.value.state.consumerForum == states[state].consumerForum
      && r.value.state.incomeLimitLegalAid == states[state].incomeLimitLegalAid)
    ensures r.Found? ==> (r.value.disclaimer == LegalInfoDisclaimer && r.value.sources == LegalInfoSources
      && r.value.lastUpdated == LastUpdated)
  {
    if caseType !in caseTypes then NotFound("Case type '" + caseType + "' not found")
    else if state !in states then NotFound("State '" + state + "' not found")
    else
      var ct := caseTypes[caseType];
      var st := states[state];
      Found(LegalInfo(
        CaseTypeInfo(caseType, ct.name, ct.primaryActs, ct.requiredDocuments, ct.steps,
          ct.successRatePercent, ct.avgResolutionDays, ForumsOf(ct)),
        StateInfo(st.name, st.highCourt, st.legalAidAuthority, st.legalAidPhone, st.legalAidUrl,
          if caseType == "rental_deposit" then Some(st.rentAct) else None,
          st.consumerForum, st.incomeLimitLegalAid),
        LegalInfoDisclaimer,
        LegalInfoSources,
        LastUpdated))
  }

  /** `get_legal_info` on the repository's tables. */
  function GetLegalInfo(caseType: string, state: string): Lookup<LegalInfo> {
    LegalInfoIn(CaseTypes, States, caseType, state)
  }

  /**
   The forums reported are the amount bands when the case type has a non-empty
   band table, and its jurisdiction table otherwise.
   */
  lemma LegalInfoForums(caseTypes: map<string, CaseType>, states: map<string, StateProfile>,
                        caseType: string, state: string)
    requires caseType in caseTypes && state in states
    ensures var bands := caseTypes[caseType].forumsByAmount;
      var forums := LegalInfoIn(caseTypes, states, caseType, state).value.caseType.forums;
      && (bands.Some? && bands.value != [] ==> forums == bands)
      && (bands.None? || bands.value == [] ==> forums == caseTypes[caseType].jurisdiction)
  {
  }

  /**
   On the repository's tables only rental deposits (the amount bands) and consumer
   complaints (the jurisdiction table) report forums.
   */
  lemma ForumsReported(caseType: string, state: string)
    requires caseType in CaseTypes && state in States
    ensures GetLegalInfo(caseType, state).value.caseType.forums.Some? <==>
      caseType == "rental_deposit" || caseType == "consumer_complaint"
  {
    ForumTables(caseType);
  }

  /** Delhi's rental information cites the Delhi Rent Control Act, whatever the case-type table holds. */
  lemma DelhiRentalCitesRentAct(caseTypes: map<string, CaseType>)
    requires "rental_deposit" in caseTypes
    ensures LegalInfoIn(caseTypes, States, "rental_deposit", "delhi").Found?
    ensures LegalInfoIn(caseTypes, States, "rental_deposit", "delhi").value.state.relevantAct
      == Some("Delhi Rent Control Act, 1958")
  {
    StateTableFacts();
  }

  /** An unknown case type is reported before an unknown state. */
  lemma UnknownCaseTypeReportedFirst(caseTypes: map<string, CaseType>, states: map<string, StateProfile>,
                                     caseType: string, state: string)
    requires caseType !in caseTypes && state !in states
    ensures LegalInfoIn(caseTypes, states, caseType, state) == NotFound("Case type '" + caseType + "' not found")
  {
  }

  const LegalInfoDisclaimer: string := "This information is sourced from India Code and official government websites. It is legal information, not legal advice."
  const LegalInfoSources: seq<string> := ["https://indiacode.nic.in", "https://ecourts.gov.in", "https://nalsa.gov.in"]
  const LastUpdated: string := "2025-01-01"
  datatype DocumentChecklist = DocumentChecklist(caseType: string, documents: seq<string>, tip: string)

  const DocumentTip: string :=
    "Collect ALL documents before approaching any forum. Missing documents = delayed resolution."

  /** `get_documents` over the given case-type table: the required documents of a known case type. */
  function DocumentsIn(caseTypes: map<string, CaseType>, caseType: string): (r: Lookup<DocumentChecklist>)
    ensures r.Found? <==> caseType in caseTypes
    ensures r.NotFound? ==> r.detail == "Case type not found"
    ensures r.Found? ==> r.value.caseType == caseType && r.value.documents == caseTypes[caseType].requiredDocuments
    ensures r.Found? ==> r.value.tip == DocumentTip
  {
    if caseType !in caseTypes then NotFound("Case type not found")
    else Found(DocumentChecklist(caseType, caseTypes[caseType].requiredDocuments, DocumentTip))
  }

  /** `get_documents` on the repository's case-type table. */
  function GetDocuments(caseType: string): Lookup<DocumentChecklist> {
    DocumentsIn(CaseTypes, caseType)
  }

  /** For a known state, the checklist and the legal information agree on whether the case type exists and on its documents. */
  lemma DocumentsAgreeWithLegalInfo(caseTypes: map<string, CaseType>, states: map<string, StateProfile>,
                                    caseType: string, state: string)
    requires state in states
    ensures DocumentsIn(caseTypes, caseType).Found? <==> LegalInfoIn(caseTypes, states, caseType, state).Found?
    ensures DocumentsIn(caseTypes, caseType).Found? ==>
      DocumentsIn(caseTypes, caseType).value.documents
      == LegalInfoIn(caseTypes, states, caseType, state).value.caseType.requiredDocuments
  {
  }
}
