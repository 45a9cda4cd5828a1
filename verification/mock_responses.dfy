/**
 The mock response engine of main.py: a keyword classifier over the lower-cased
 message picks a topic, and a per-topic renderer picks the template for the
 requested language.

 The labour, consumer and domestic-violence renderers pass a call to themselves
 as the default argument of `dict.get`. Python evaluates that argument before
 `get` runs, so each of them recurses until the interpreter raises
 RecursionError, whatever the language; the model reproduces that.
 */
module MockResponses {
  import opened Outcomes
  import opened Strings
  import opened LegalData
  import opened Requests
  import opened Templates

  datatype Topic = Rental | Labour | Consumer | DomesticViolence | Welcome

  const RentalKeywords: seq<string> :=
    ["deposit", "rent", "landlord", "tenant", "किराया", "வாடகை", "అద్దె", "ভাড়া"]

  const LabourKeywords: seq<string> :=
    ["salary", "wage", "job", "employer", "labour", "वेतन", "ஊதியம்", "జీతం", "মজুরি"]

  const ConsumerKeywords: seq<string> :=
    ["consumer", "product", "refund", "defect", "ecommerce", "उत्पाद", "பொருள்"]

  const DomesticViolenceKeywords: seq<string> :=
    ["violence", "domestic", "husband", "wife", "घरेलू", "வன்முறை"]

  /** The keywords that select a topic; the welcome topic is the fall-through and has none. */
  function Keywords(t: Topic): seq<string> {
    match t
    case Rental => RentalKeywords
    case Labour => LabourKeywords
    case Consumer => ConsumerKeywords
    case DomesticViolence => DomesticViolenceKeywords
    case Welcome => []
  }

  /** The position of a topic in the order the keyword lists are checked. */
  function Priority(t: Topic): nat {
    match t
    case Rental => 0
    case Labour => 1
    case Consumer => 2
    case DomesticViolence => 3
    case Welcome => 4
  }

  /** Python's `any(w in msg for w in words)`. */
  predicate MentionsAny(msg: string, words: seq<string>) {
    exists i | 0 <= i < |words| :: Contains(msg, words[i])
  }

  /** A topic's keyword list hits the message. */
  predicate Hits(msg: string, t: Topic) {
    MentionsAny(msg, Keywords(t))
  }

  /**
   Topic detection. The chosen topic's keywords occur in the lower-cased message
   and no topic checked before it has a keyword there; with no hit at all the
   topic is Welcome.
   */
  function Classify(message: string): (t: Topic)
    ensures t != Welcome ==> Hits(Lower(message), t)
    ensures forall u :: Priority(u) < Priority(t) ==> !Hits(Lower(message), u)
  {
    var msg := Lower(message);
    if MentionsAny(msg, RentalKeywords) then Rental
    else if MentionsAny(msg, LabourKeywords) then Labour
    else if MentionsAny(msg, ConsumerKeywords) then Consumer
    else if MentionsAny(msg, DomesticViolenceKeywords) then DomesticViolence
    else Welcome
  }

  /** The priority rule determines the topic: any topic meeting it is the one chosen. */
  lemma ClassifyIsFirstHit(message: string, t: Topic)
    requires t != Welcome ==> Hits(Lower(message), t)
    requires forall u :: Priority(u) < Priority(t) ==> !Hits(Lower(message), u)
    ensures Classify(message) == t
  {
    var c := Classify(message);
    if Priority(c) < Priority(t) {
      assert !Hits(Lower(message), c);
    }
  }

  /** Detection ignores ASCII letter case. */
  lemma ClassifyIgnoresCase(message: string)
    ensures Classify(Lower(message)) == Classify(message)
    ensures Classify(Upper(message)) == Classify(message)
  {
    CaseMappingIdempotent(message);
    assert Lower(Upper(message)) == Lower(message);
  }

  /** No keyword is shorter than three characters, so shorter messages get the welcome reply. */
  lemma ShortMessageIsWelcome(message: string)
    requires |message| < 3
    ensures Classify(message) == Welcome
  {
    var msg := Lower(message);
    forall t: Topic, i | 0 <= i < |Keywords(t)|
      ensures !Contains(msg, Keywords(t)[i])
    {
      LongerNeverContained(msg, Keywords(t)[i]);
    }
  }

  /** A message containing a keyword of a topic, in any ASCII case, hits that topic's list. */
  lemma KeywordSelects(prefix: string, word: string, suffix: string, t: Topic)
    requires Lower(word) in Keywords(t)
    ensures Hits(Lower(prefix + word + suffix), t)
  {
    LowerAppend(prefix + word, suffix);
    LowerAppend(prefix, word);
    SplicedContains(Lower(prefix), Lower(word), Lower(suffix));
  }

  /** Rental is checked first and case is ignored: "RENT" beats the labour keyword "salary". */
  lemma RentBeatsSalary()
    ensures Classify("My " + "RENT" + " and my salary are both late") == Rental
  {
    assert Lower("RENT") == "rent";
    KeywordSelects("My ", "RENT", " and my salary are both late", Rental);
  }

  /** Matching is by substring, so "parent" is a rental message. */
  lemma ParentIsRental()
    ensures Classify("pa" + "rent") == Rental
  {
    assert Lower("rent") == "rent";
    KeywordSelects("pa", "rent", "", Rental);
    assert "pa" + "rent" + "" == "pa" + "rent";
  }

  // ---------------------------------------------------------------------------
  // Renderers

  const SpecificLawOpen: string := "\n\n**"
  const SpecificLawLabel: string := " Specific Law:** "

  /** The clause naming the state's rent act; empty unless the state id is a known key of `states`. */
  function RentalStateClause(states: map<string, StateProfile>, state: Option<string>): string {
    if KnownId(state, states)
    then SpecificLawOpen + states[state.value].name + SpecificLawLabel + states[state.value].rentAct
    else ""
  }

  /**
   `get_rental_response` over the given state table: English and Hindi templates
   with the state clause spliced in, English for any other language.
   */
  function RentalReplyIn(states: map<string, StateProfile>, state: Option<string>, lang: string): string {
    var info := RentalStateClause(states, state);
    var responses := map["en" := RentalEnHead + info + RentalEnTail, "hi" := RentalHiHead + info + RentalHiTail];
    if lang in responses then responses[lang] else responses["en"]
  }

  /** `get_rental_response` on the repository's states. */
  function RentalReply(state: Option<string>, lang: string): string {
    RentalReplyIn(States, state, lang)
  }

  /** Only English and Hindi have rental templates; every other language gets the English text. */
  lemma RentalLanguageFallback(states: map<string, StateProfile>, state: Option<string>, lang: string)
    requires lang != "en" && lang != "hi"
    ensures RentalReplyIn(states, state, lang) == RentalReplyIn(states, state, "en")
  {
  }

  /** The rental reply is the template of the chosen language with the state clause spliced in. */
  lemma RentalReplyShape(states: map<string, StateProfile>, state: Option<string>, lang: string)
    ensures RentalReplyIn(states, state, lang) ==
      if lang == "hi" then RentalHiHead + RentalStateClause(states, state) + RentalHiTail
      else RentalEnHead + RentalStateClause(states, state) + RentalEnTail
  {
  }

  /** Splicing a clause into a template keeps the template's closing line at the end. */
  lemma SplicedEndsWith(head: string, clause: string, body: string, closing: string)
    ensures EndsWith(head + clause + (body + closing), closing)
  {
    assert head + clause + (body + closing) == (head + clause + body) + closing;
    SuffixEndsWith(head + clause + body, closing);
  }

  /** A clause spliced between a head and a tail is contained in the result, and so is its last part; the result grows by the clause's length. */
  lemma SplicedClause(head: string, lead: string, last: string, tail: string)
    ensures Contains(head + (lead + last) + tail, lead + last)
    ensures Contains(head + (lead + last) + tail, last)
    ensures |head + (lead + last) + tail| == |head + tail| + |lead| + |last|
  {
    SplicedContains(head, lead + last, tail);
    SplicedContains(head + lead, last, tail);
    assert head + lead + last + tail == head + (lead + last) + tail;
  }

  /** Both rental templates close with the information-not-advice line of their language. */
  lemma RentalEndsWithDisclaimer(states: map<string, StateProfile>, state: Option<string>, lang: string)
    ensures EndsWith(RentalReplyIn(states, state, lang),
      if lang == "hi" then RentalHiDisclaimer else RentalEnDisclaimer)
  {
    RentalReplyShape(states, state, lang);
    var clause := RentalStateClause(states, state);
    if lang == "hi" {
      SplicedEndsWith(RentalHiHead, clause, RentalHiTailBody, RentalHiDisclaimer);
    } else {
      SplicedEndsWith(RentalEnHead, clause, RentalEnTailBody, RentalEnDisclaimer);
    }
  }

  /**
   The state clause appears exactly for a known state id: the reply then names the
   state's rent act and differs from the reply without a state; for an unknown or
   empty id it is the reply without a state.
   */
  lemma RentalStateClauseIffKnown(states: map<string, StateProfile>, state: Option<string>, lang: string)
    ensures KnownId(state, states) ==>
      Contains(RentalReplyIn(states, state, lang),
        SpecificLawOpen + states[state.value].name + SpecificLawLabel + states[state.value].rentAct)
    ensures KnownId(state, states) ==> Contains(RentalReplyIn(states, state, lang), states[state.value].rentAct)
    ensures KnownId(state, states) <==> RentalReplyIn(states, state, lang) != RentalReplyIn(states, None, lang)
  {
    RentalReplyShape(states, state, lang);
    RentalReplyShape(states, None, lang);
    var head := if lang == "hi" then RentalHiHead else RentalEnHead;
    var tail := if lang == "hi" then RentalHiTail else RentalEnTail;
    if KnownId(state, states) {
      var s := states[state.value];
      SplicedClause(head, SpecificLawOpen + s.name + SpecificLawLabel, s.rentAct, tail);
    }
  }

  /** `MOCK_RESPONSES["welcome"].get(lang, MOCK_RESPONSES["welcome"]["en"])`. */
  function WelcomeReply(lang: string): string {
    var welcome := MockResponses["welcome"];
    if lang in welcome then welcome[lang] else welcome["en"]
  }

  /** A supported language gets its own welcome text; any other gets the English one. */
  lemma WelcomeLanguages(lang: string)
    ensures lang in {"en", "hi", "ta", "te", "bn"} ==> WelcomeReply(lang) == MockResponses["welcome"][lang]
    ensures lang !in {"en", "hi", "ta", "te", "bn"} ==> WelcomeReply(lang) == WelcomeReply("en")
    ensures WelcomeReply("hi") != WelcomeReply("en")
  {
    MockResponseLanguages();
  }

  /** The interpreter's default recursion limit: the frames available to a call. */
  const RecursionLimit: nat := 1000

  /**
   Evaluates `templates.get(lang, render("en"))` inside a renderer `render` whose
   default argument is a call to itself. The argument is evaluated first, so the
   call nests another call with language "en" before the dictionary is consulted;
   `depth` counts the frames left before RecursionError is raised.
   */
  function GetWithSelfDefault(templates: map<string, string>, lang: string, depth: nat): Eval<string>
    decreases depth
  {
    if depth == 0 then RecursionError
    else
      match GetWithSelfDefault(templates, "en", depth - 1)
      case RecursionError => RecursionError
      case Returned(fallback) => Returned(if lang in templates then templates[lang] else fallback)
  }

  /** With any finite stack, any template table and any language, the call never returns. */
  lemma {:induction false} SelfDefaultNeverReturns(templates: map<string, string>, lang: string, depth: nat)
    ensures GetWithSelfDefault(templates, lang, depth) == RecursionError
    decreases depth
  {
    if depth > 0 {
      SelfDefaultNeverReturns(templates, "en", depth - 1);
    }
  }

  /** `get_labour_response`: raises RecursionError for every state and language. */
  function LabourReply(state: Option<string>, lang: string): (r: Eval<string>)
    ensures r == RecursionError
  {
    SelfDefaultNeverReturns(LabourTemplates, lang, RecursionLimit);
    GetWithSelfDefault(LabourTemplates, lang, RecursionLimit)
  }

  /** `get_consumer_response`: raises RecursionError for every state and language. */
  function ConsumerReply(state: Option<string>, lang: string): (r: Eval<string>)
    ensures r == RecursionError
  {
    SelfDefaultNeverReturns(ConsumerTemplates, lang, RecursionLimit);
    GetWithSelfDefault(ConsumerTemplates, lang, RecursionLimit)
  }

  /** `get_dv_response`: raises RecursionError for every language. */
  function DomesticViolenceReply(lang: string): (r: Eval<string>)
    ensures r == RecursionError
  {
    SelfDefaultNeverReturns(DomesticViolenceTemplates, lang, RecursionLimit);
    GetWithSelfDefault(DomesticViolenceTemplates, lang, RecursionLimit)
  }

  /** All keywords of the four topics. */
  const AllKeywords: seq<string> :=
    RentalKeywords + LabourKeywords + ConsumerKeywords + DomesticViolenceKeywords

  /** A list concatenation is hit exactly when one of its parts is. */
  lemma MentionsAnyAppend(msg: string, a: seq<string>, b: seq<string>)
    ensures MentionsAny(msg, a + b) <==> MentionsAny(msg, a) || MentionsAny(msg, b)
  {
    if MentionsAny(msg, a) {
      var i :| 0 <= i < |a| && Contains(msg, a[i]);
      assert (a + b)[i] == a[i];
    }
    if MentionsAny(msg, b) {
      var i :| 0 <= i < |b| && Contains(msg, b[i]);
      assert (a + b)[|a| + i] == b[i];
    }
    if MentionsAny(msg, a + b) {
      var i :| 0 <= i < |a + b| && Contains(msg, (a + b)[i]);
      if i >= |a| {
        assert b[i - |a|] == (a + b)[i];
      } else {
        assert a[i] == (a + b)[i];
      }
    }
  }

  /** The combined keyword list hits exactly when one of the four topic lists hits. */
  lemma AllKeywordsHitIffSomeTopicHits(msg: string)
    ensures MentionsAny(msg, AllKeywords) <==>
      MentionsAny(msg, RentalKeywords) || MentionsAny(msg, LabourKeywords)
      || MentionsAny(msg, ConsumerKeywords) || MentionsAny(msg, DomesticViolenceKeywords)
  {
    MentionsAnyAppend(msg, RentalKeywords + LabourKeywords + ConsumerKeywords, DomesticViolenceKeywords);
    MentionsAnyAppend(msg, RentalKeywords + LabourKeywords, ConsumerKeywords);
    MentionsAnyAppend(msg, RentalKeywords, LabourKeywords);
  }

  /**
   `generate_mock_response`. A reply comes back only for a rental message or a
   message with no keyword at all; every labour, consumer or domestic-violence
   message raises RecursionError.
   */
  function GenerateMockResponse(req: ChatRequest): (r: Eval<string>)
    ensures MentionsAny(Lower(req.message), RentalKeywords) ==>
      r == Returned(RentalReply(req.state, req.language))
    ensures !MentionsAny(Lower(req.message), AllKeywords) ==>
      r == Returned(WelcomeReply(req.language))
    ensures r.Returned? <==>
      MentionsAny(Lower(req.message), RentalKeywords) || !MentionsAny(Lower(req.message), AllKeywords)
  {
    AllKeywordsHitIffSomeTopicHits(Lower(req.message));
    match Classify(req.message)
    case Rental => Returned(RentalReply(req.state, req.language))
    case Labour => LabourReply(req.state, req.language)
    case Consumer => ConsumerReply(req.state, req.language)
    case DomesticViolence => DomesticViolenceReply(req.language)
    case Welcome => Returned(WelcomeReply(req.language))
  }
}
