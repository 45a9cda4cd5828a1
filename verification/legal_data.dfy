/**
 The constant reference tables the server reads: state profiles, case types with
 their procedures, the canned chat templates, the NGO directory and the mock court
 records. Every table is immutable; dictionaries keyed by id are maps, and the
 lists whose order the lookups depend on are sequences.
 */
module LegalData {
  import opened Outcomes

  /** One Indian state or union territory, keyed by its id in `States`. */
  datatype StateProfile = StateProfile(
    name: string,
    capital: string,
    highCourt: string,
    legalAidAuthority: string,
    legalAidPhone: string,
    legalAidUrl: string,
    rentAct: string,
    consumerForum: string,
    labourCommissioner: string,
    policeComplaintUrl: string,
    incomeLimitLegalAid: nat)

  /** One step of a case type's procedure; `diy` says no lawyer is needed. */
  datatype ProcedureStep = ProcedureStep(
    step: nat,
    title: string,
    description: string,
    timeline: string,
    cost: string,
    diy: bool)

  datatype DepositRules = DepositRules(
    residentialMaxMonths: nat,
    commercialMaxMonths: nat,
    returnDays: nat,
    interestRatePercent: nat)

  /** An ordered dictionary from a claim-amount band to the forum that hears it. */
  type Forums = seq<(string, string)>

  /** A category of dispute. The optional fields are keys only some entries carry. */
  datatype CaseType = CaseType(
    name: string,
    icon: string,
    primaryActs: seq<string>,
    depositRules: Option<DepositRules>,
    limitationPeriodYears: Option<nat>,
    forumsByAmount: Option<Forums>,
    keyRights: Option<seq<string>>,
    jurisdiction: Option<Forums>,
    immediateResources: Option<seq<string>>,
    requiredDocuments: seq<string>,
    steps: seq<ProcedureStep>,
    successRatePercent: nat,
    avgResolutionDays: nat)

  /** A legal-aid organisation; `"all"` in `focus` or `states` is a wildcard. */
  datatype Ngo = Ngo(
    name: string,
    focus: seq<string>,
    states: seq<string>,
    phone: string,
    email: string,
    url: string,
    free: bool,
    note: Option<string>)

  datatype OrderEvent = OrderEvent(date: string, order: string)

  datatype CourtCase = CourtCase(
    caseNumber: string,
    court: string,
    petitioner: string,
    respondent: string,
    caseType: string,
    filedDate: string,
    lastHearing: string,
    nextHearing: string,
    status: string,
    stage: string,
    judge: string,
    orders: seq<OrderEvent>)

  const States: map<string, StateProfile> := map[
    "maharashtra" := StateProfile(
      "Maharashtra",
      "Mumbai",
      "Bombay High Court",
      "Maharashtra State Legal Services Authority (MSLSA)",
      "1800-22-6000",
      "https://mslsa.gov.in",
      "Maharashtra Rent Control Act, 1999",
      "Maharashtra State Consumer Disputes Redressal Commission",
      "Commissioner of Labour, Maharashtra",
      "https://mahapolice.gov.in",
      300000),
    "delhi" := StateProfile(
      "Delhi",
      "New Delhi",
      "Delhi High Court",
      "Delhi State Legal Services Authority (DSLSA)",
      "1800-11-4000",
      "https://dslsa.org",
      "Delhi Rent Control Act, 1958",
      "Delhi State Consumer Disputes Redressal Commission",
      "Commissioner of Labour, Delhi",
      "https://delhipolice.gov.in",
      300000),
    "karnataka" := StateProfile(
      "Karnataka",
      "Bengaluru",
      "Karnataka High Court",
      "Karnataka State Legal Services Authority (KSLSA)",
      "1800-425-1445",
      "https://kslsa.kar.nic.in",
      "Karnataka Rent Act, 1999",
      "Karnataka State Consumer Disputes Redressal Commission",
      "Commissioner of Labour, Karnataka",
      "https://ksp.gov.in",
      300000),
    "tamil_nadu" := StateProfile(
      "Tamil Nadu",
      "Chennai",
      "Madras High Court",
      "Tamil Nadu State Legal Services Authority (TNSLSA)",
      "1800-425-2077",
      "https://tnslsa.gov.in",
      "Tamil Nadu Regulation of Rights and Responsibilities of Landlords and Tenants Act, 2017",
      "Tamil Nadu State Consumer Disputes Redressal Commission",
      "Commissioner of Labour, Tamil Nadu",
      "https://www.tnpolice.gov.in",
      300000),
    "telangana" := StateProfile(
      "Telangana",
      "Hyderabad",
      "Telangana High Court",
      "Telangana State Legal Services Authority (TSLSA)",
      "1800-420-2020",
      "https://tslsa.telangana.gov.in",
      "Andhra Pradesh Buildings (Lease, Rent and Eviction) Control Act, 1960 (as applicable)",
      "Telangana State Consumer Disputes Redressal Commission",
      "Commissioner of Labour, Telangana",
      "https://www.tspolice.gov.in",
      300000),
    "west_bengal" := StateProfile(
      "West Bengal",
      "Kolkata",
      "Calcutta High Court",
      "West Bengal State Legal Services Authority (WBSLSA)",
      "1800-345-7440",
      "https://wbslsa.org",
      "West Bengal Premises Tenancy Act, 1997",
      "West Bengal State Consumer Disputes Redressal Commission",
      "Commissioner of Labour, West Bengal",
      "https://wbpolice.gov.in",
      300000)
  ]

  const CaseTypes: map<string, CaseType> := map[
    "rental_deposit" := CaseType(
      "Rental Deposit Dispute",
      "🏠",
      [
        "Model Tenancy Act, 2021 (Central)",
        "Transfer of Property Act, 1882 — Section 105",
        "Indian Contract Act, 1872"
      ],
      Some(DepositRules(2, 6, 30, 15)),
      Some(3),
      Some([
        ("under_20_lakh", "Consumer Disputes Redressal Commission (CDRC)"),
        ("under_1_crore", "District Consumer Commission"),
        ("above_1_crore", "State Consumer Commission / Civil Court")
      ]),
      None,
      None,
      None,
      [
        "Rent agreement / lease deed (original + copy)",
        "Deposit payment receipt or bank transfer proof",
        "Vacating notice served to landlord (with proof of delivery)",
        "Photos/video of property condition at move-out",
        "All written communication (WhatsApp screenshots, emails, SMSes)",
        "Any inventory list signed at move-in",
        "Identity proof (Aadhaar / PAN)",
        "Address proof of current residence"
      ],
      [
        ProcedureStep(1, "Send Legal Notice", "Send a formal legal notice via registered post / speed post to landlord demanding return within 15 days. Keep proof of delivery (tracking receipt). This is mandatory before filing any case.", "Day 1–3", "₹50–200 (postal charges)", true),
        ProcedureStep(2, "Wait for Response", "Give 15 days for landlord to respond or return deposit. Document all communication attempts (call logs, messages).", "Day 3–18", "₹0", true),
        ProcedureStep(3, "File Consumer Complaint (Recommended)", "File at your local District Consumer Disputes Redressal Commission (CDRC) if deposit ≤ ₹50 lakhs. No lawyer required. Attach all documents.", "Day 18–25", "₹200–2000 filing fee", true),
        ProcedureStep(4, "Attend Hearing", "Appear for hearing with original documents. Bring 3 copies of everything. Commission typically decides within 90 days.", "30–90 days after filing", "₹0–500 (travel + copies)", true),
        ProcedureStep(5, "Enforcement of Order", "If landlord doesn\'t comply with commission order, apply for execution of decree in the same court.", "Post-order", "₹500–2000", false)
      ],
      74,
      95),
    "labour_wage" := CaseType(
      "Labour / Wage Dispute",
      "👷",
      [
        "Payment of Wages Act, 1936",
        "Minimum Wages Act, 1948",
        "Industrial Disputes Act, 1947",
        "Code on Wages, 2019"
      ],
      None,
      None,
      None,
      Some([
        "Wages must be paid by 7th of next month (for 1000+ employees) or 10th",
        "Minimum wage varies by state and industry category",
        "Wrongful termination requires 30-day notice or pay in lieu",
        "Gratuity payable after 5 years of continuous service",
        "PF deduction of 12% employer + 12% employee mandatory for eligible establishments"
      ]),
      None,
      None,
      [
        "Employment letter / offer letter",
        "Salary slips for last 3–6 months",
        "Bank statements showing salary credits",
        "Termination letter (if terminated)",
        "PF account number / UAN",
        "Identity proof (Aadhaar / PAN)",
        "Any written communication with employer"
      ],
      [
        ProcedureStep(1, "File Complaint with Labour Inspector", "Visit your local Labour Commissioner\'s office and file a written complaint. This is free and often resolves quickly.", "Immediate", "₹0", true),
        ProcedureStep(2, "Conciliation by Labour Officer", "Labour officer calls both parties for conciliation. Most cases settle here within 45 days.", "15–45 days", "₹0", true),
        ProcedureStep(3, "Labour Court (if unresolved)", "If conciliation fails, case goes to Labour Court. You can represent yourself or use free legal aid.", "3–12 months", "₹500–5000", false)
      ],
      68,
      120),
    "consumer_complaint" := CaseType(
      "Consumer Complaint",
      "🛒",
      [
        "Consumer Protection Act, 2019",
        "Consumer Protection (E-Commerce) Rules, 2020"
      ],
      None,
      None,
      None,
      None,
      Some([
        ("district_commission", "Up to ₹50 lakhs"),
        ("state_commission", "₹50 lakhs to ₹2 crores"),
        ("national_commission", "Above ₹2 crores")
      ]),
      None,
      [
        "Bill / invoice of purchase",
        "Warranty / guarantee card",
        "Proof of payment (UPI, bank statement, receipt)",
        "Correspondence with seller/company (emails, chats)",
        "Photos of defective product",
        "Expert opinion (if product defect)",
        "Medical bills (if personal injury caused)"
      ],
      [
        ProcedureStep(1, "Send Written Complaint to Company", "Send formal written complaint to company\'s grievance officer. By law they must respond within 30 days.", "Day 1", "₹0", true),
        ProcedureStep(2, "File Online on e-Daakhil Portal", "File consumer complaint at edaakhil.nic.in — government\'s online consumer portal. No physical visit needed.", "Day 30+", "₹200–5000 (based on claim)", true),
        ProcedureStep(3, "Attend Commission Hearing", "Appear for hearing with all original documents. Consumer commissions are consumer-friendly — you don\'t need a lawyer.", "60–120 days", "Minimal", true)
      ],
      71,
      90),
    "domestic_violence" := CaseType(
      "Domestic Violence",
      "🛡\U{FE0F}",
      [
        "Protection of Women from Domestic Violence Act, 2005",
        "IPC Section 498A (Cruelty by husband / in-laws)",
        "IPC Section 304B (Dowry death)",
        "Dowry Prohibition Act, 1961"
      ],
      None,
      None,
      None,
      None,
      None,
      Some([
        "National Women Helpline: 181",
        "Police Emergency: 100",
        "NCW Helpline: 7827170170",
        "iCall: 9152987821"
      ]),
      [
        "Medical reports (injuries, treatment)",
        "Photos of injuries (dated)",
        "Written account of incidents with dates",
        "Witness names and contact details",
        "Marriage certificate",
        "Any prior complaints filed"
      ],
      [
        ProcedureStep(1, "Contact Protection Officer", "Every district has a Protection Officer appointed under DV Act. They are free to contact and help you file Domestic Incident Report (DIR).", "Immediate", "₹0", true),
        ProcedureStep(2, "File Complaint at Police Station", "File FIR at nearest police station or Women\'s Cell. Police must register your complaint — refusal is illegal.", "Immediate", "₹0", true),
        ProcedureStep(3, "Apply for Protection Order", "Apply to Magistrate\'s court for Protection Order, Residence Order, Custody Order, and Monetary Relief under DV Act.", "Within 3 days (emergency) to 60 days", "₹0 (with legal aid)", false)
      ],
      62,
      180)
  ]

  const MockResponses: map<string, map<string, string>> := map[
    "welcome" := map[
      "en" := "Hello! I\'m JUSTIA, your AI legal assistant for India. 🙏\n\nI can help you understand your legal rights in simple language — without expensive lawyers.\n\n**What legal issue are you facing today?**",
      "hi" := "नमस्ते! मैं JUSTIA हूँ — आपका AI कानूनी सहायक। 🙏\n\nमैं आपको सरल भाषा में आपके कानूनी अधिकार समझाने में मदद कर सकता हूँ।\n\n**आज आपकी क्या समस्या है?**",
      "ta" := "வணக்கம்! நான் JUSTIA — உங்கள் AI சட்ட உதவியாளர். 🙏\n\nநான் உங்கள் சட்ட உரிமைகளை எளிய மொழியில் விளக்க உதவுவேன்.\n\n**இன்று உங்கள் சட்ட சிக்கல் என்ன?**",
      "te" := "నమస్కారం! నేను JUSTIA — మీ AI న్యాయ సహాయకుడు. 🙏\n\nనేను మీ న్యాయ హక్కులను సరళమైన భాషలో వివరిస్తాను.\n\n**ఈరోజు మీ సమస్య ఏమిటి?**",
      "bn" := "নমস্কার! আমি JUSTIA — আপনার AI আইনি সহকারী। 🙏\n\nআমি আপনার আইনি অধিকার সহজ ভাষায় বুঝতে সাহায্য করব।\n\n**আজ আপনার সমস্যা কী?**"
    ],
    "ask_state" := map[
      "en" := "I can help with that. To give you **state-specific** legal information (laws and procedures vary by state), **which state are you in?**",
      "hi" := "मैं इसमें मदद कर सकता हूँ। आपको **राज्य-विशिष्ट** कानूनी जानकारी देने के लिए — **आप किस राज्य में हैं?**",
      "ta" := "நான் இதில் உதவ முடியும். உங்களுக்கு **மாநில-குறிப்பிட்ட** சட்ட தகவல் கொடுக்க — **நீங்கள் எந்த மாநிலத்தில் இருக்கிறீர்கள்?**",
      "te" := "నేను దానికి సహాయం చేయగలను. **రాష్ట్ర-నిర్దిష్ట** న్యాయ సమాచారం ఇవ్వడానికి — **మీరు ఏ రాష్ట్రంలో ఉన్నారు?**",
      "bn" := "আমি এতে সাহায্য করতে পারি। আপনাকে **রাজ্য-নির্দিষ্ট** আইনি তথ্য দিতে — **আপনি কোন রাজ্যে আছেন?**"
    ]
  ]

  const NgoTable: seq<Ngo> := [
    Ngo(
      "Lawyers Collective",
      [
        "domestic_violence",
        "labour_wage",
        "human_rights"
      ],
      [
        "maharashtra",
        "delhi",
        "karnataka"
      ],
      "022-23510068",
      "info@lawyerscollective.org",
      "https://lawyerscollective.org",
      true,
      None),
    Ngo(
      "iJustice",
      [
        "rental_deposit",
        "consumer_complaint",
        "labour_wage"
      ],
      [
        "maharashtra",
        "gujarat",
        "rajasthan"
      ],
      "079-26921706",
      "connect@ijustice.in",
      "https://ijustice.in",
      true,
      None),
    Ngo(
      "Human Rights Law Network (HRLN)",
      [
        "domestic_violence",
        "human_rights",
        "labour_wage"
      ],
      [
        "delhi",
        "maharashtra",
        "west_bengal",
        "tamil_nadu"
      ],
      "011-24374503",
      "contact@hrln.org",
      "https://hrln.org",
      true,
      None),
    Ngo(
      "Majlis Legal Centre",
      [
        "domestic_violence",
        "family_law"
      ],
      [
        "maharashtra"
      ],
      "022-23027696",
      "majlislegal@gmail.com",
      "https://majlislegal.org",
      true,
      None),
    Ngo(
      "SEWA (Self Employed Women\'s Association)",
      [
        "labour_wage",
        "domestic_violence"
      ],
      [
        "gujarat",
        "rajasthan",
        "delhi",
        "maharashtra"
      ],
      "079-25506444",
      "mail@sewa.org",
      "https://sewa.org",
      true,
      None)
  ]

  const MockCourtCases: seq<CourtCase> := [
    CourtCase(
      "CC/1234/2024",
      "District Consumer Commission, Mumbai",
      "Ramesh Kumar",
      "Anil Sharma (Landlord)",
      "Consumer Complaint",
      "2024-03-15",
      "2024-11-20",
      "2025-02-10",
      "Pending",
      "Arguments",
      "Hon. Justice S.R. Patil",
      [
        OrderEvent("2024-04-01", "Notice issued to respondent"),
        OrderEvent("2024-06-15", "Written statement filed by respondent"),
        OrderEvent("2024-09-10", "Evidence stage completed")
      ]),
    CourtCase(
      "WC/456/2024",
      "Labour Court, Bengaluru",
      "Priya Nair",
      "XYZ Pvt. Ltd.",
      "Wage Dispute",
      "2024-01-20",
      "2024-10-15",
      "2025-01-25",
      "Pending",
      "Conciliation",
      "Labour Court Presiding Officer",
      [
        OrderEvent("2024-02-10", "Notice issued to employer"),
        OrderEvent("2024-05-20", "Conciliation failed — referred to court")
      ])
  ]

  /** Python's `id and id in table`: the id is present, non-empty and a key of the table. */
  predicate KnownId<T>(id: Option<string>, table: map<string, T>) {
    id.Some? && id.value != "" && id.value in table
  }

  /** Python's `state and state in STATES`. */
  predicate KnownState(state: Option<string>) {
    KnownId(state, States)
  }

  // ---------------------------------------------------------------------------
  // Facts about the tables.

  /** The supported states are exactly these six, with the rent acts the replies cite. */
  lemma StateTableFacts()
    ensures States.Keys == {"maharashtra", "delhi", "karnataka", "tamil_nadu", "telangana", "west_bengal"}
    ensures States["delhi"].rentAct == "Delhi Rent Control Act, 1958"
    ensures States["maharashtra"].rentAct == "Maharashtra Rent Control Act, 1999"
  {
  }

  /** Every state offers free legal aid below the same income limit of 300000 rupees a year. */
  lemma IncomeLimitUniform(id: string)
    requires id in States
    ensures States[id].incomeLimitLegalAid == 300000
  {
  }

  /** The supported case types are exactly these four. */
  lemma CaseTypeTableFacts()
    ensures CaseTypes.Keys == {"rental_deposit", "labour_wage", "consumer_complaint", "domestic_violence"}
  {
  }

  /** Procedure steps are numbered 1, 2, ... in list order. */
  ghost predicate StepsNumberedInOrder(steps: seq<ProcedureStep>) {
    forall i :: 0 <= i < |steps| ==> steps[i].step == i + 1
  }

  lemma StepsConsecutive(id: string)
    requires id in CaseTypes
    ensures StepsNumberedInOrder(CaseTypes[id].steps)
  {
  }

  /** Only rental_deposit has amount bands and only consumer_complaint has a jurisdiction table. */
  lemma ForumTables(id: string)
    requires id in CaseTypes
    ensures CaseTypes[id].forumsByAmount.Some? <==> id == "rental_deposit"
    ensures CaseTypes[id].jurisdiction.Some? <==> id == "consumer_complaint"
  {
  }

  /** The welcome and ask-state templates cover the same five languages. */
  lemma MockResponseLanguages()
    ensures MockResponses.Keys == {"welcome", "ask_state"}
    ensures MockResponses["welcome"].Keys == {"en", "hi", "ta", "te", "bn"}
    ensures MockResponses["ask_state"].Keys == {"en", "hi", "ta", "te", "bn"}
  {
  }

  /** The NGO directory has five free organisations and no wildcard entry. */
  lemma NgoTableFacts()
    ensures |NgoTable| == 5
    ensures forall i :: 0 <= i < |NgoTable| ==> NgoTable[i].free
    ensures forall i :: 0 <= i < |NgoTable| ==> "all" !in NgoTable[i].states && "all" !in NgoTable[i].focus
  {
  }

  /** The two mock court records have distinct numbers, searched in this order. */
  lemma CourtCaseTableFacts()
    ensures |MockCourtCases| == 2
    ensures MockCourtCases[0].caseNumber == "CC/1234/2024"
    ensures MockCourtCases[1].caseNumber == "WC/456/2024"
    ensures MockCourtCases[0].caseNumber != MockCourtCases[1].caseNumber
  {
  }
}
