/**
 The pre-written reply templates of the mock response engine (main.py), per
 language. The rental templates are split around the place where the state
 clause is spliced in.
 */
module Templates {

  const RentalEnHead: string :=
    "🏠 **Rental Deposit — Your Rights**\n\nUnder the **Model Tenancy Act, 2021**, your landlord MUST:\n• Return your deposit within **30 days** of you vacating\n• Pay **15% annual interest** for every month of delay\n• Not deduct for normal wear and tear"

  const RentalEnTail: string := RentalEnTailBody + RentalEnDisclaimer

  const RentalEnTailBody: string :=
    "\n\n**📁 Documents to collect immediately:**\n• Rent agreement (original)\n• Deposit payment proof (bank transfer / receipt)\n• Move-out notice (with delivery proof)\n• Photos of property condition\n\n**🗺\U{FE0F} Your next step:**\nSend a **registered post legal notice** to your landlord demanding return within 15 days. Keep the tracking receipt.\n\n"

  const RentalHiHead: string :=
    "🏠 **किराया जमा — आपके अधिकार**\n\n**मॉडल टेनेंसी एक्ट, 2021** के अनुसार मकान मालिक को:\n• घर खाली करने के **30 दिन** के अंदर जमा वापस करना होगा\n• देरी पर **15% वार्षिक ब्याज** देना होगा"

  const RentalHiTail: string := RentalHiTailBody + RentalHiDisclaimer

  const RentalHiTailBody: string :=
    "\n\n**📁 तुरंत इकट्ठा करें:**\n• किराया समझौता (मूल)\n• जमा भुगतान का प्रमाण\n• घर खाली करने की सूचना\n\n**🗺\U{FE0F} अगला कदम:**\n**रजिस्टर्ड डाक** से मकान मालिक को 15 दिन का नोटिस भेजें।\n\n"

  /** The closing "information, not advice" line of the English and Hindi rental replies. */
  const RentalEnDisclaimer: string :=
    "⚠\U{FE0F} *This is legal information, not legal advice. Consult a licensed advocate for binding counsel.*"

  const RentalHiDisclaimer: string :=
    "⚠\U{FE0F} *यह कानूनी जानकारी है, कानूनी सलाह नहीं। बाध्यकारी परामर्श के लिए वकील से मिलें।*"

  const LabourTemplates: map<string, string> := map[
    "en" := "👷 **Labour / Wage Dispute — Your Rights**\n\nUnder the **Payment of Wages Act, 1936** and **Code on Wages, 2019**:\n• Wages must be paid by **7th of next month** (for companies with 1000+ employees)\n• Employer cannot deduct wages without written reason\n• Wrongful termination requires **30-day notice** or equivalent pay\n\n**📁 Documents needed:**\n• Offer letter / appointment letter\n• Salary slips (last 3 months)\n• Bank statements showing salary credits\n• Termination letter (if applicable)\n\n**🗺\U{FE0F} First step (FREE):**\nFile a complaint with your **District Labour Commissioner** — it\'s free and often resolves in 45 days without going to court.\n\n⚠\U{FE0F} *This is legal information, not legal advice.*",
    "hi" := "👷 **श्रम / वेतन विवाद — आपके अधिकार**\n\n**वेतन भुगतान अधिनियम, 1936** के अनुसार:\n• वेतन अगले महीने की 7 तारीख तक देना अनिवार्य है\n• बिना कारण वेतन काटना अवैध है\n\n**🗺\U{FE0F} पहला कदम (मुफ्त):**\nअपने **जिला श्रम आयुक्त** कार्यालय में शिकायत दर्ज करें — यह मुफ्त है।\n\n⚠\U{FE0F} *यह कानूनी जानकारी है, कानूनी सलाह नहीं।*"
  ]

  const ConsumerTemplates: map<string, string> := map[
    "en" := "🛒 **Consumer Complaint — Your Rights**\n\nUnder the **Consumer Protection Act, 2019**:\n• You can file a complaint for defective products, poor service, or unfair trade practices\n• Online filing available at **edaakhil.nic.in** (no need to visit office)\n• Companies must respond to complaints within **30 days** by law\n\n**Jurisdiction:**\n• Up to ₹50 lakhs → District Consumer Commission\n• ₹50 lakhs – ₹2 crores → State Commission\n• Above ₹2 crores → National Commission (NCDRC)\n\n**🗺\U{FE0F} File online today:**\nVisit **edaakhil.nic.in** — India\'s consumer complaint portal\n\n⚠\U{FE0F} *This is legal information, not legal advice.*",
    "ta" := "🛒 **நுகர்வோர் புகார் — உங்கள் உரிமைகள்**\n\n**நுகர்வோர் பாதுகாப்பு சட்டம், 2019** படி:\n• குறைபாடுள்ள பொருட்கள் / மோசமான சேவைக்கு புகார் தாக்கல் செய்யலாம்\n• **edaakhil.nic.in** இல் ஆன்லைனில் தாக்கல் செய்யலாம்\n\n⚠\U{FE0F} *இது சட்ட தகவல், சட்ட ஆலோசனை அல்ல.*"
  ]

  const DomesticViolenceTemplates: map<string, string> := map[
    "en" := "🛡\U{FE0F} **Domestic Violence — Immediate Help**\n\n**Emergency numbers — call NOW if you are in danger:**\n• **Police Emergency: 100**\n• **Women\'s Helpline: 181** (24/7, free, confidential)\n• **NCW Helpline: 7827170170**\n\nUnder the **Protection of Women from Domestic Violence Act, 2005**, you have the right to:\n• A Protection Order (stops abuser from contacting you)\n• A Residence Order (right to stay in shared home)\n• Monetary Relief\n• Custody of children\n\n**Your first step:**\nContact your district\'s **Protection Officer** — this service is completely FREE.\n\n⚠\U{FE0F} *This is legal information. If you are in immediate danger, please call 100 immediately.*",
    "hi" := "🛡\U{FE0F} **घरेलू हिंसा — तत्काल सहायता**\n\n**अभी कॉल करें:**\n• **पुलिस: 100**\n• **महिला हेल्पलाइन: 181** (24/7, मुफ्त)\n• **NCW: 7827170170**\n\n**घरेलू हिंसा अधिनियम, 2005** के तहत आपको सुरक्षा आदेश, निवास अधिकार और आर्थिक राहत मिल सकती है।\n\n⚠\U{FE0F} *खतरे में हों तो तुरंत 100 पर कॉल करें।*"
  ]
}
