/** The requirement resolver: from a finished answer map to the list of
    documents the applicant must bring (client/src/lib/rules-engine.ts).
    Each branch builds a local list by successive pushes and de-duplicates
    it at the end. Here every push section is a method, specified by a
    predicate that says, document by document, under which answers that
    section pushes it; each branch is specified by a predicate that says,
    document by document, under which answers it is listed. */
module RulesEngine {
  import opened Answers
  import opened Lists
  import opened ItemIds
  import opened QuestionsData

  /** A generic rule: when every `cond` entry equals the answer, `add` is
      appended. */
  datatype Rule = Rule(cond: map<string, string>, add: seq<Item>, description: Option<string>)

  /** The generic rule table, empty in this revision (rules-engine.ts:11). */
  const RULES: seq<Rule> := []

  /** `Object.entries(rule.cond).every(([k, v]) => answers[k] === v)` */
  predicate Matches(rule: Rule, a: Answer) {
    forall key :: key in rule.cond ==> Is(a, key, rule.cond[key])
  }

  const GuardianReasons: set<string> :=
    {"adult_guardian", "conservatee", "assisted_person", "voluntary_guardian"}

  /** The reasons a proxy for a cardholder aged 15 or over may give when
      the cardholder cannot come in (rules-engine.ts:163-165). */
  const HardshipReasons: set<string> :=
    {"over_75", "disabled", "hospitalized", "facility_resident", "care_certified",
     "pregnant", "study_abroad", "student", "hikikomori"}

  /** The hardship reasons that have a notice of their own. */
  const NoticeReasons: set<string> :=
    {"hospitalized", "facility_resident", "care_certified", "hikikomori"}

  /** Every notice token getProxySpecialNotice can return. */
  const ProxyNotices: set<string> := {"minor_guardian"} + NoticeReasons

  /** The card issuance documents that concern a proxy only. */
  predicate ProxyOnlyDocument(x: Item) {
    match x
    case NotificationCardProxy75Over | NotificationCardProxyOther | NoNotificationWarning
       | ApplicantIdentityDocument | ProxyIdentityDocumentOther | ProxyIdentityDocumentGuardian
       | HospitalizedCert | DisabledCert | FacilityCert | CareCert | PregnantCert
       | StudyAbroadCert | StudentCert | HikikomoriCert => true
    case _ => false
  }

  // ---------------------------------------------------------------------
  // Conditions the card issuance branch tests

  /** A proxy for a cardholder aged 15 or over whose guardianship reason is
      "other" (rules-engine.ts:98 and 161). */
  predicate ProxyOther(a: Answer) {
    Is(a, "visitor_type", "proxy") && Is(a, "applicant_age", "15_over")
    && Is(a, "guardian_reason_15_over", "other")
  }

  /** A guardianship reason is given (rules-engine.ts:136-137 and 201-202). */
  predicate UnderGuardianship(a: Answer) {
    Truthy(a, "guardian_reason_15_over") && a["guardian_reason_15_over"] in GuardianReasons
  }

  /** A proxy for a cardholder aged 15 or over under guardianship
      (rules-engine.ts:200-202). */
  predicate ProxyGuardian(a: Answer) {
    Is(a, "visitor_type", "proxy") && Is(a, "applicant_age", "15_over") && UnderGuardianship(a)
  }

  /** A proxy without the notification card, for a cardholder not under 15
      and not under guardianship (rules-engine.ts:133-137). */
  predicate NoNotificationProxy(a: Answer) {
    Is(a, "notification_card", "no") && Is(a, "visitor_type", "proxy")
    && !Is(a, "applicant_age", "under_15") && !UnderGuardianship(a)
  }

  /** The early return of rules-engine.ts:143-146: such a proxy cannot
      collect the card without the confirmed inquiry response. */
  predicate RefusedProxy(a: Answer) {
    NoNotificationProxy(a) && !Is(a, "inquiry_response_confirmed", "true")
  }

  /** The cardholder comes in with an accompanying representative. */
  predicate SelfWithProxy(a: Answer) {
    Is(a, "visitor_type", "self") && Is(a, "self_detail_type", "with_proxy")
  }

  /** `answers.return_documents.split(',').includes(token)` under the
      truthiness guard of rules-engine.ts:122. */
  predicate ReturnsToken(a: Answer, token: string) {
    Truthy(a, "return_documents") && token in Split(a["return_documents"], ',')
  }

  /** A proxy who was not turned away and gave `reason` as the hardship
      (rules-engine.ts:161-195). */
  predicate HardshipProven(a: Answer, reason: string) {
    ProxyOther(a) && !RefusedProxy(a) && Is(a, "specific_reason", reason)
  }

  /** A guardianship to prove: a proxy for a cardholder aged 15 or over
      under that guardianship (lines 200-221), or a cardholder accompanied
      for that reason (lines 239-254). */
  predicate GuardianshipProven(a: Answer, reason: string) {
    (Is(a, "visitor_type", "proxy") && Is(a, "applicant_age", "15_over")
     && Is(a, "guardian_reason_15_over", reason))
    || (SelfWithProxy(a) && Is(a, "self_proxy_reason", reason))
  }

  // ---------------------------------------------------------------------
  // What each section of the card issuance branch pushes

  /** The certificate the switch of lines 170-195 pushes for a hardship reason. */
  predicate HardshipCertFor(reason: string, x: Item) {
    match x
    case HospitalizedCert => reason == "hospitalized"
    case DisabledCert => reason == "disabled"
    case FacilityCert => reason == "facility_resident"
    case CareCert => reason == "care_certified"
    case PregnantCert => reason == "pregnant"
    case StudyAbroadCert => reason == "study_abroad"
    case StudentCert => reason == "student"
    case HikikomoriCert => reason == "hikikomori"
    case _ => false
  }

  /** The certificate the switches of lines 208-221 and 240-253 push for a
      guardianship reason. */
  predicate GuardianCertFor(reason: string, x: Item) {
    match x
    case AdultGuardianCert => reason == "adult_guardian"
    case ConservateeCert => reason == "conservatee"
    case AssistedPersonCert => reason == "assisted_person"
    case VoluntaryGuardianCert => reason == "voluntary_guardian"
    case _ => false
  }

  /** Section 1 (lines 95-113). */
  ghost predicate NotificationCardPushes(a: Answer, x: Item) {
    Is(a, "notification_card", "yes")
    && ((x.NotificationCard? && !ProxyOther(a))
        || (x.NotificationCardProxy75Over? && ProxyOther(a) && Is(a, "specific_reason", "over_75"))
        || (x.NotificationCardProxyOther? && ProxyOther(a) && !Is(a, "specific_reason", "over_75"))
        || (x.IdentityDocumentWithNotification? && Is(a, "visitor_type", "self")))
  }

  /** Section 2 (lines 115-119). */
  ghost predicate CurrentCardPushes(a: Answer, x: Item) {
    x.CurrentMynumberCardWithFee? && IsOneOf(a, "issuance_type", {"renewal", "other_reissue"})
  }

  /** Section 3 (lines 121-130). */
  ghost predicate ReturnedCardPushes(a: Answer, x: Item) {
    (x.BasicResidentCard? && ReturnsToken(a, "basic_resident_card"))
    || (x.MynumberNotificationCard? && ReturnsToken(a, "mynumber_notification"))
  }

  /** Section 4 (lines 132-153). */
  ghost predicate NoNotificationPushes(a: Answer, x: Item) {
    (NoNotificationProxy(a) && Is(a, "inquiry_response_confirmed", "true")
     && (x.InquiryResponse? || x.IdentityDocumentWithNotification?))
    || (x.NoNotificationWarning? && RefusedProxy(a))
    || (x.IdentityDocumentNoNotification?
        && Is(a, "notification_card", "no") && Is(a, "visitor_type", "self"))
  }

  /** Section 5 (lines 155-231). */
  ghost predicate ProxyPushes(a: Answer, x: Item) {
    Is(a, "visitor_type", "proxy")
    && (x.ApplicantIdentityDocument?
        || (ProxyOther(a)
            && (x.ProxyIdentityDocumentOther?
                || (IsOneOf(a, "specific_reason", HardshipReasons)
                    && HardshipCertFor(a["specific_reason"], x))))
        || (ProxyGuardian(a)
            && (x.ProxyIdentityDocumentGuardian?
                || GuardianCertFor(a["guardian_reason_15_over"], x)))
        || (Is(a, "applicant_age", "under_15")
            && (x.ProxyIdentityDocumentGuardian?
                || (x.FamilyRegisterUnder15? && Is(a, "cohabitation_status", "not_cohabiting")
                    && Is(a, "koseki_location", "other")))))
  }

  /** Section 6 (lines 233-260). */
  ghost predicate AccompaniedPushes(a: Answer, x: Item) {
    SelfWithProxy(a)
    && (x.ProxyAccompanyingId?
        || (Truthy(a, "self_proxy_reason") && GuardianCertFor(a["self_proxy_reason"], x))
        || (x.FamilyRegisterUnder15? && Is(a, "self_proxy_reason", "under_15")
            && Is(a, "self_cohabitation", "not_cohabiting") && Is(a, "self_domicile", "other")))
  }

  /** Section 8 (lines 262-265). */
  ghost predicate InquiryPushes(a: Answer, x: Item) {
    x.InquiryResponse? && Is(a, "issuance_inquiry_response_check", "applicable")
  }

  // ---------------------------------------------------------------------
  // The exact list each section appends, in push order

  /** Section 1 (lines 95-113), in push order. */
  function NotificationCardList(a: Answer): seq<Item> {
    if !Is(a, "notification_card", "yes") then []
    else
      (if ProxyOther(a) then
         (if Is(a, "specific_reason", "over_75") then [NotificationCardProxy75Over]
          else [NotificationCardProxyOther])
       else [NotificationCard])
      + (if Is(a, "visitor_type", "self") then [IdentityDocumentWithNotification] else [])
  }

  /** Section 2 (lines 115-119). */
  function CurrentCardList(a: Answer): seq<Item> {
    if Is(a, "issuance_type", "renewal") || Is(a, "issuance_type", "other_reissue") then
      [CurrentMynumberCardWithFee]
    else []
  }

  /** Section 3 (lines 121-130), in push order. */
  function ReturnedCardList(a: Answer): seq<Item> {
    (if ReturnsToken(a, "basic_resident_card") then [BasicResidentCard] else [])
    + (if ReturnsToken(a, "mynumber_notification") then [MynumberNotificationCard] else [])
  }

  /** Section 4 (lines 132-153), in push order. */
  function NoNotificationList(a: Answer): seq<Item> {
    if !Is(a, "notification_card", "no") then []
    else if Is(a, "visitor_type", "proxy") && !Is(a, "applicant_age", "under_15") then
      if UnderGuardianship(a) then []
      else if Is(a, "inquiry_response_confirmed", "true") then
        [InquiryResponse, IdentityDocumentWithNotification]
      else [NoNotificationWarning]
    else if Is(a, "visitor_type", "self") then [IdentityDocumentNoNotification]
    else []
  }

  /** The switch of lines 170-195. */
  function HardshipCertList(reason: string): seq<Item> {
    match reason
    case "hospitalized" => [HospitalizedCert]
    case "disabled" => [DisabledCert]
    case "facility_resident" => [FacilityCert]
    case "care_certified" => [CareCert]
    case "pregnant" => [PregnantCert]
    case "study_abroad" => [StudyAbroadCert]
    case "student" => [StudentCert]
    case "hikikomori" => [HikikomoriCert]
    case _ => []
  }

  /** The switches of lines 208-221 and 240-253. */
  function GuardianCertList(reason: string): seq<Item> {
    match reason
    case "adult_guardian" => [AdultGuardianCert]
    case "conservatee" => [ConservateeCert]
    case "assisted_person" => [AssistedPersonCert]
    case "voluntary_guardian" => [VoluntaryGuardianCert]
    case _ => []
  }

  /** Lines 161-199: a proxy giving "other", with the certificate of a
      listed hardship. */
  function ProxyOtherList(a: Answer): seq<Item> {
    [ProxyIdentityDocumentOther]
    + (if IsOneOf(a, "specific_reason", HardshipReasons) then HardshipCertList(a["specific_reason"])
       else [])
  }

  /** Lines 200-221: a proxy for a cardholder under guardianship. */
  function ProxyGuardianList(a: Answer): seq<Item>
    requires ProxyGuardian(a)
  {
    [ProxyIdentityDocumentGuardian] + GuardianCertList(a["guardian_reason_15_over"])
  }

  /** Lines 222-230: a proxy for a minor. */
  function MinorProxyList(a: Answer): seq<Item> {
    [ProxyIdentityDocumentGuardian]
    + (if Is(a, "cohabitation_status", "not_cohabiting") && Is(a, "koseki_location", "other") then
         [FamilyRegisterUnder15]
       else [])
  }

  /** Section 5 (lines 155-231), in push order. */
  function ProxyList(a: Answer): seq<Item> {
    if !Is(a, "visitor_type", "proxy") then []
    else if ProxyOther(a) then [ApplicantIdentityDocument] + ProxyOtherList(a)
    else if ProxyGuardian(a) then [ApplicantIdentityDocument] + ProxyGuardianList(a)
    else if Is(a, "applicant_age", "under_15") then [ApplicantIdentityDocument] + MinorProxyList(a)
    else [ApplicantIdentityDocument]
  }

  /** Section 6 (lines 233-260), in push order. */
  function AccompaniedList(a: Answer): seq<Item> {
    if !SelfWithProxy(a) then []
    else
      [ProxyAccompanyingId]
      + (if Truthy(a, "self_proxy_reason") then GuardianCertList(a["self_proxy_reason"]) else [])
      + (if Is(a, "self_proxy_reason", "under_15") && Is(a, "self_cohabitation", "not_cohabiting")
            && Is(a, "self_domicile", "other") then [FamilyRegisterUnder15]
         else [])
  }

  /** Section 8 (lines 262-265). */
  function InquiryList(a: Answer): seq<Item> {
    if Is(a, "issuance_inquiry_response_check", "applicable") then [InquiryResponse] else []
  }

  /** Sections 1 to 4, in push order. */
  function EarlyList(a: Answer): seq<Item> {
    NotificationCardList(a) + CurrentCardList(a) + ReturnedCardList(a) + NoNotificationList(a)
  }

  /** Sections 5, 6 and 8, in push order. */
  function LateList(a: Answer): seq<Item> {
    ProxyList(a) + AccompaniedList(a) + InquiryList(a)
  }

  /** What resolveIssuanceItems returns: the early sections alone after
      the early return, else every push with later repeats dropped. */
  function IssuanceList(a: Answer): seq<Item> {
    if RefusedProxy(a) then EarlyList(a) else Distinct(EarlyList(a) + LateList(a))
  }

  /** Sections 1 to 4, which run for every applicant. */
  ghost predicate EarlyPushes(a: Answer, x: Item) {
    NotificationCardPushes(a, x) || CurrentCardPushes(a, x) || ReturnedCardPushes(a, x)
    || NoNotificationPushes(a, x)
  }

  /** Sections 5 to 8, which the refused proxy never reaches. */
  ghost predicate LatePushes(a: Answer, x: Item) {
    ProxyPushes(a, x) || AccompaniedPushes(a, x) || InquiryPushes(a, x)
  }

  /** What the card issuance branch lists, document by document. */
  ghost predicate IssuanceNeeds(a: Answer, x: Item) {
    match x
    case NotificationCard => Is(a, "notification_card", "yes") && !ProxyOther(a)
    case NotificationCardProxy75Over =>
      Is(a, "notification_card", "yes") && ProxyOther(a) && Is(a, "specific_reason", "over_75")
    case NotificationCardProxyOther =>
      Is(a, "notification_card", "yes") && ProxyOther(a) && !Is(a, "specific_reason", "over_75")
    case IdentityDocumentWithNotification =>
      (Is(a, "notification_card", "yes") && Is(a, "visitor_type", "self"))
      || (NoNotificationProxy(a) && Is(a, "inquiry_response_confirmed", "true"))
    case CurrentMynumberCardWithFee => IsOneOf(a, "issuance_type", {"renewal", "other_reissue"})
    case BasicResidentCard => ReturnsToken(a, "basic_resident_card")
    case MynumberNotificationCard => ReturnsToken(a, "mynumber_notification")
    case InquiryResponse =>
      (NoNotificationProxy(a) && Is(a, "inquiry_response_confirmed", "true"))
      || (Is(a, "issuance_inquiry_response_check", "applicable") && !RefusedProxy(a))
    case NoNotificationWarning => RefusedProxy(a)
    case IdentityDocumentNoNotification =>
      Is(a, "notification_card", "no") && Is(a, "visitor_type", "self")
    case ApplicantIdentityDocument => Is(a, "visitor_type", "proxy") && !RefusedProxy(a)
    case ProxyIdentityDocumentOther => ProxyOther(a) && !RefusedProxy(a)
    case HospitalizedCert => HardshipProven(a, "hospitalized")
    case DisabledCert => HardshipProven(a, "disabled")
    case FacilityCert => HardshipProven(a, "facility_resident")
    case CareCert => HardshipProven(a, "care_certified")
    case PregnantCert => HardshipProven(a, "pregnant")
    case StudyAbroadCert => HardshipProven(a, "study_abroad")
    case StudentCert => HardshipProven(a, "student")
    case HikikomoriCert => HardshipProven(a, "hikikomori")
    case ProxyIdentityDocumentGuardian =>
      ProxyGuardian(a) || (Is(a, "visitor_type", "proxy") && Is(a, "applicant_age", "under_15"))
    case AdultGuardianCert => GuardianshipProven(a, "adult_guardian")
    case ConservateeCert => GuardianshipProven(a, "conservatee")
    case AssistedPersonCert => GuardianshipProven(a, "assisted_person")
    case VoluntaryGuardianCert => GuardianshipProven(a, "voluntary_guardian")
    case FamilyRegisterUnder15 =>
      (Is(a, "visitor_type", "proxy") && Is(a, "applicant_age", "under_15")
       && Is(a, "cohabitation_status", "not_cohabiting") && Is(a, "koseki_location", "other"))
      || (SelfWithProxy(a) && Is(a, "self_proxy_reason", "under_15")
          && Is(a, "self_cohabitation", "not_cohabiting") && Is(a, "self_domicile", "other"))
    case ProxyAccompanyingId => SelfWithProxy(a)
    case _ => false
  }

  /** The notification card in its three forms, pushed by section 1. */
  predicate NotificationDocument(x: Item) {
    match x
    case NotificationCard | NotificationCardProxy75Over | NotificationCardProxyOther => true
    case _ => false
  }

  /** The identity documents and the warning sections 1, 4 and 8 push. */
  predicate IdentityDocument(x: Item) {
    match x
    case IdentityDocumentWithNotification | InquiryResponse | NoNotificationWarning
       | IdentityDocumentNoNotification => true
    case _ => false
  }

  /** The cards sections 2 and 3 ask to have handed in. */
  predicate CardDocument(x: Item) {
    match x
    case CurrentMynumberCardWithFee | BasicResidentCard | MynumberNotificationCard => true
    case _ => false
  }

  /** The proxy's own documents and the hardship certificates of section 5. */
  predicate HardshipDocument(x: Item) {
    match x
    case ApplicantIdentityDocument | ProxyIdentityDocumentOther | HospitalizedCert | DisabledCert
       | FacilityCert | CareCert | PregnantCert | StudyAbroadCert | StudentCert | HikikomoriCert => true
    case _ => false
  }

  /** The guardianship and under-15 documents of sections 5 and 6. */
  predicate GuardianDocument(x: Item) {
    match x
    case ProxyIdentityDocumentGuardian | AdultGuardianCert | ConservateeCert | AssistedPersonCert
       | VoluntaryGuardianCert | FamilyRegisterUnder15 | ProxyAccompanyingId => true
    case _ => false
  }

  /** The sections together list what the branch needs: the refused proxy
      stops after section 4, and none of the guardianship or under-15
      documents concerns a refused proxy. */
  lemma SectionsMeetNeeds(a: Answer, x: Item)
    ensures IssuanceNeeds(a, x) <==> EarlyPushes(a, x) || (!RefusedProxy(a) && LatePushes(a, x))
  {
    if NotificationDocument(x) {
      NotificationSectionsMeetNeeds(a, x);
    } else if IdentityDocument(x) {
      IdentitySectionsMeetNeeds(a, x);
    } else if CardDocument(x) {
      CardSectionsMeetNeeds(a, x);
    } else if HardshipDocument(x) {
      HardshipSectionMeetsNeeds(a, x);
    } else if GuardianDocument(x) {
      GuardianSectionsMeetNeeds(a, x);
    } else {
      OtherItemsNotNeeded(a, x);
      OtherItemsNotPushedLate(a, x);
    }
  }

  lemma OtherItemsNotNeeded(a: Answer, x: Item)
    requires !NotificationDocument(x) && !IdentityDocument(x) && !CardDocument(x)
    requires !HardshipDocument(x)
    requires !GuardianDocument(x)
    ensures !IssuanceNeeds(a, x) && !EarlyPushes(a, x)
  {
  }

  lemma OtherItemsNotPushedLate(a: Answer, x: Item)
    requires !NotificationDocument(x) && !IdentityDocument(x) && !CardDocument(x)
    requires !HardshipDocument(x)
    requires !GuardianDocument(x)
    ensures !LatePushes(a, x)
  {
  }

  lemma NotificationSectionsMeetNeeds(a: Answer, x: Item)
    requires NotificationDocument(x)
    ensures IssuanceNeeds(a, x) <==> EarlyPushes(a, x) || (!RefusedProxy(a) && LatePushes(a, x))
  {
  }

  lemma IdentitySectionsMeetNeeds(a: Answer, x: Item)
    requires IdentityDocument(x)
    ensures IssuanceNeeds(a, x) <==> EarlyPushes(a, x) || (!RefusedProxy(a) && LatePushes(a, x))
  {
  }

  lemma CardSectionsMeetNeeds(a: Answer, x: Item)
    requires CardDocument(x)
    ensures IssuanceNeeds(a, x) <==> EarlyPushes(a, x) || (!RefusedProxy(a) && LatePushes(a, x))
  {
  }

  lemma HardshipSectionMeetsNeeds(a: Answer, x: Item)
    requires HardshipDocument(x)
    ensures IssuanceNeeds(a, x) <==> EarlyPushes(a, x) || (!RefusedProxy(a) && LatePushes(a, x))
  {
  }

  lemma GuardianSectionsMeetNeeds(a: Answer, x: Item)
    requires GuardianDocument(x)
    ensures IssuanceNeeds(a, x) <==> EarlyPushes(a, x) || (!RefusedProxy(a) && LatePushes(a, x))
  {
  }

  // ---------------------------------------------------------------------
  // The card issuance branch, section by section

  method PushNotificationCard(items: seq<Item>, a: Answer) returns (items': seq<Item>)
    ensures items' == items + NotificationCardList(a)
    ensures |items'| >= |items| && items'[..|items|] == items
    ensures forall x :: x in items' <==> x in items || NotificationCardPushes(a, x)
    ensures !Is(a, "notification_card", "yes") ==> items' == items
    ensures Is(a, "notification_card", "yes") ==>
      |items'| > |items|
      && items'[|items|] in {NotificationCard, NotificationCardProxy75Over, NotificationCardProxyOther}
    ensures Is(a, "notification_card", "yes") && Is(a, "visitor_type", "self") ==>
      items' == items + [NotificationCard, IdentityDocumentWithNotification]
  {
    items' := items;
    if Is(a, "notification_card", "yes") {
      if Is(a, "visitor_type", "proxy") && Is(a, "applicant_age", "15_over")
         && Is(a, "guardian_reason_15_over", "other") {
        if Is(a, "specific_reason", "over_75") {
          items' := items' + [NotificationCardProxy75Over];
        } else {
          items' := items' + [NotificationCardProxyOther];
        }
      } else {
        items' := items' + [NotificationCard];
      }
      if Is(a, "visitor_type", "self") {
        items' := items' + [IdentityDocumentWithNotification];
      }
    }
  }

  method PushCurrentCard(items: seq<Item>, a: Answer) returns (items': seq<Item>)
    ensures items' == items + CurrentCardList(a)
    ensures |items'| >= |items| && items'[..|items|] == items
    ensures forall x :: x in items' <==> x in items || CurrentCardPushes(a, x)
    ensures NoDup(items) && CurrentMynumberCardWithFee !in items ==> NoDup(items')
  {
    items' := items;
    if Is(a, "issuance_type", "renewal") || Is(a, "issuance_type", "other_reissue") {
      items' := items' + [CurrentMynumberCardWithFee];
    }
  }

  method PushReturnedCards(items: seq<Item>, a: Answer) returns (items': seq<Item>)
    ensures items' == items + ReturnedCardList(a)
    ensures |items'| >= |items| && items'[..|items|] == items
    ensures forall x :: x in items' <==> x in items || ReturnedCardPushes(a, x)
    ensures NoDup(items) && BasicResidentCard !in items && MynumberNotificationCard !in items ==> NoDup(items')
  {
    items' := items;
    if Truthy(a, "return_documents") {
      var documents := Split(a["return_documents"], ',');
      if "basic_resident_card" in documents {
        items' := items' + [BasicResidentCard];
      }
      if "mynumber_notification" in documents {
        items' := items' + [MynumberNotificationCard];
      }
    }
  }

  /** Section 4; `refused` reports the early return of line 146. */
  method PushNoNotification(items: seq<Item>, a: Answer) returns (items': seq<Item>, refused: bool)
    ensures items' == items + NoNotificationList(a)
    ensures refused == RefusedProxy(a)
    ensures refused ==> items' == items + [NoNotificationWarning]
    ensures refused && NoDup(items) && NoNotificationWarning !in items ==> NoDup(items')
    ensures |items'| >= |items| && items'[..|items|] == items
    ensures forall x :: x in items' <==> x in items || NoNotificationPushes(a, x)
  {
    items' := items;
    refused := false;
    if Is(a, "notification_card", "no") {
      if Is(a, "visitor_type", "proxy") && !Is(a, "applicant_age", "under_15") {
        if Truthy(a, "guardian_reason_15_over") && a["guardian_reason_15_over"] in GuardianReasons {
        } else if Is(a, "inquiry_response_confirmed", "true") {
          items' := items' + [InquiryResponse];
          items' := items' + [IdentityDocumentWithNotification];
        } else {
          items' := items' + [NoNotificationWarning];
          refused := true;
        }
      } else if Is(a, "visitor_type", "self") {
        items' := items' + [IdentityDocumentNoNotification];
      }
    }
  }

  /** The switch of lines 170-195. */
  method PushHardshipCert(items: seq<Item>, reason: string) returns (items': seq<Item>)
    ensures items' == items + HardshipCertList(reason)
    ensures |items'| >= |items| && items'[..|items|] == items
    ensures forall x :: x in items' <==> x in items || HardshipCertFor(reason, x)
  {
    items' := items;
    match reason {
      case "hospitalized" => items' := items' + [HospitalizedCert];
      case "disabled" => items' := items' + [DisabledCert];
      case "facility_resident" => items' := items' + [FacilityCert];
      case "care_certified" => items' := items' + [CareCert];
      case "pregnant" => items' := items' + [PregnantCert];
      case "study_abroad" => items' := items' + [StudyAbroadCert];
      case "student" => items' := items' + [StudentCert];
      case "hikikomori" => items' := items' + [HikikomoriCert];
      case _ =>
    }
  }

  /** The switches of lines 208-221 and 240-253. */
  method PushGuardianCert(items: seq<Item>, reason: string) returns (items': seq<Item>)
    ensures items' == items + GuardianCertList(reason)
    ensures |items'| >= |items| && items'[..|items|] == items
    ensures forall x :: x in items' <==> x in items || GuardianCertFor(reason, x)
  {
    items' := items;
    match reason {
      case "adult_guardian" => items' := items' + [AdultGuardianCert];
      case "conservatee" => items' := items' + [ConservateeCert];
      case "assisted_person" => items' := items' + [AssistedPersonCert];
      case "voluntary_guardian" => items' := items' + [VoluntaryGuardianCert];
      case _ =>
    }
  }

  /** Lines 161-199. */
  method PushProxyOther(items: seq<Item>, a: Answer) returns (items': seq<Item>)
    requires ProxyOther(a)
    ensures items' == items + ProxyOtherList(a)
    ensures forall x :: x in items' <==> (x in items || x.ProxyIdentityDocumentOther?
      || (IsOneOf(a, "specific_reason", HardshipReasons) && HardshipCertFor(a["specific_reason"], x)))
  {
    if IsOneOf(a, "specific_reason", HardshipReasons) {
      items' := items + [ProxyIdentityDocumentOther];
      items' := PushHardshipCert(items', a["specific_reason"]);
    } else {
      items' := items + [ProxyIdentityDocumentOther];
    }
  }

  /** Lines 200-221. */
  method PushProxyGuardian(items: seq<Item>, a: Answer) returns (items': seq<Item>)
    requires ProxyGuardian(a)
    ensures items' == items + ProxyGuardianList(a)
    ensures forall x :: x in items' <==> (x in items || x.ProxyIdentityDocumentGuardian?
      || GuardianCertFor(a["guardian_reason_15_over"], x))
  {
    items' := items + [ProxyIdentityDocumentGuardian];
    items' := PushGuardianCert(items', a["guardian_reason_15_over"]);
  }

  /** Lines 222-230. */
  method PushMinorProxy(items: seq<Item>, a: Answer) returns (items': seq<Item>)
    ensures items' == items + MinorProxyList(a)
    ensures forall x :: x in items' <==> (x in items || x.ProxyIdentityDocumentGuardian?
      || (x.FamilyRegisterUnder15? && Is(a, "cohabitation_status", "not_cohabiting")
          && Is(a, "koseki_location", "other")))
  {
    items' := items + [ProxyIdentityDocumentGuardian];
    if Is(a, "cohabitation_status", "not_cohabiting") && Is(a, "koseki_location", "other") {
      items' := items' + [FamilyRegisterUnder15];
    }
  }

  /** Section 5 (lines 155-231). */
  method PushProxyItems(items: seq<Item>, a: Answer) returns (items': seq<Item>)
    ensures items' == items + ProxyList(a)
    ensures |items'| >= |items| && items'[..|items|] == items
    ensures forall x :: x in items' <==> x in items || ProxyPushes(a, x)
  {
    items' := items;
    if Is(a, "visitor_type", "proxy") {
      items' := items' + [ApplicantIdentityDocument];
      if Is(a, "applicant_age", "15_over") && Is(a, "guardian_reason_15_over", "other") {
        items' := PushProxyOther(items', a);
        AppendAssoc(items, [ApplicantIdentityDocument], ProxyOtherList(a));
      } else if Is(a, "applicant_age", "15_over") && Truthy(a, "guardian_reason_15_over")
                && a["guardian_reason_15_over"] in GuardianReasons {
        items' := PushProxyGuardian(items', a);
        AppendAssoc(items, [ApplicantIdentityDocument], ProxyGuardianList(a));
      } else if Is(a, "applicant_age", "under_15") {
        items' := PushMinorProxy(items', a);
        AppendAssoc(items, [ApplicantIdentityDocument], MinorProxyList(a));
      }
    }
  }

  method PushAccompanied(items: seq<Item>, a: Answer) returns (items': seq<Item>)
    ensures items' == items + AccompaniedList(a)
    ensures |items'| >= |items| && items'[..|items|] == items
    ensures forall x :: x in items' <==> x in items || AccompaniedPushes(a, x)
  {
    items' := items;
    if Is(a, "visitor_type", "self") && Is(a, "self_detail_type", "with_proxy") {
      items' := items' + [ProxyAccompanyingId];
      if Truthy(a, "self_proxy_reason") {
        items' := PushGuardianCert(items', a["self_proxy_reason"]);
      }
      if Is(a, "self_proxy_reason", "under_15") && Is(a, "self_cohabitation", "not_cohabiting")
         && Is(a, "self_domicile", "other") {
        items' := items' + [FamilyRegisterUnder15];
      }
    }
  }

  method PushInquiry(items: seq<Item>, a: Answer) returns (items': seq<Item>)
    ensures items' == items + InquiryList(a)
    ensures |items'| >= |items| && items'[..|items|] == items
    ensures forall x :: x in items' <==> x in items || InquiryPushes(a, x)
  {
    items' := items;
    if Is(a, "issuance_inquiry_response_check", "applicable") {
      items' := items' + [InquiryResponse];
    }
  }

  /** Sections 1 to 4 (lines 93-153), from the empty list. */
  method PushEarlySections(a: Answer) returns (items: seq<Item>, refused: bool)
    ensures items == EarlyList(a)
    ensures refused == RefusedProxy(a)
    ensures forall x :: x in items <==> EarlyPushes(a, x)
    ensures refused ==> NoDup(items) && |items| >= 1 && items[|items| - 1] == NoNotificationWarning
  {
    var first := PushNotificationCard([], a);
    assert first == NotificationCardList(a);
    var second := PushCurrentCard(first, a);
    var third := PushReturnedCards(second, a);
    items, refused := PushNoNotification(third, a);
    if refused {
      assert first == [];
      assert NoDup(third) && NoNotificationWarning !in third;
    }
  }

  /** Sections 5 to 8 (lines 155-265). */
  method PushLateSections(items: seq<Item>, a: Answer) returns (items': seq<Item>)
    ensures items' == items + LateList(a)
    ensures |items'| >= |items| && items'[..|items|] == items
    ensures forall x :: x in items' <==> x in items || LatePushes(a, x)
  {
    var proxy := PushProxyItems(items, a);
    var accompanied := PushAccompanied(proxy, a);
    items' := PushInquiry(accompanied, a);
    AppendAssoc(items, ProxyList(a), AccompaniedList(a));
    AppendAssoc(items, ProxyList(a) + AccompaniedList(a), InquiryList(a));
  }

  /** resolveIssuanceItems (rules-engine.ts:92-268). */
  method ResolveIssuanceItems(a: Answer) returns (r: seq<Item>)
    ensures r == IssuanceList(a)
    ensures NoDup(r)
    ensures forall x :: x in r <==> IssuanceNeeds(a, x)
    ensures Is(a, "notification_card", "yes") ==>
      |r| >= 1 && r[0] in {NotificationCard, NotificationCardProxy75Over, NotificationCardProxyOther}
    ensures Is(a, "notification_card", "yes") && Is(a, "visitor_type", "self") ==>
      |r| >= 2 && r[..2] == [NotificationCard, IdentityDocumentWithNotification]
    ensures RefusedProxy(a) ==> |r| >= 1 && r[|r| - 1] == NoNotificationWarning
  {
    var items, refused := PushEarlySections(a);
    if Is(a, "notification_card", "yes") {
      IssuanceListStart(a);
      if Is(a, "visitor_type", "self") {
        IssuanceListSelfStart(a);
      }
    }
    if refused {
      IssuanceMembers(a, items, items);
      return items;
    }
    var early := items;
    items := PushLateSections(items, a);
    IssuanceMembers(a, early, items);
    r := Dedup(items);
  }

  /** Section 1 comes first: the list starts with the notification card,
      followed by its identity document for the cardholder. */
  lemma EarlyListStart(a: Answer)
    requires Is(a, "notification_card", "yes")
    ensures |EarlyList(a)| >= 1
      && EarlyList(a)[0] in {NotificationCard, NotificationCardProxy75Over, NotificationCardProxyOther}
    ensures Is(a, "visitor_type", "self") ==>
      |EarlyList(a)| >= 2 && EarlyList(a)[..2] == [NotificationCard, IdentityDocumentWithNotification]
  {
    var first := NotificationCardList(a);
    var rest := CurrentCardList(a) + ReturnedCardList(a) + NoNotificationList(a);
    assert EarlyList(a) == first + rest;
    PrefixOfConcat(first, rest);
  }

  /** The early return only concerns a visitor without the notification card. */
  lemma HolderIsNotRefused(a: Answer)
    requires Is(a, "notification_card", "yes")
    ensures !RefusedProxy(a)
  {
  }

  /** De-duplication keeps the notification card first. */
  lemma IssuanceListStart(a: Answer)
    requires Is(a, "notification_card", "yes")
    ensures |IssuanceList(a)| >= 1
      && IssuanceList(a)[0] in {NotificationCard, NotificationCardProxy75Over, NotificationCardProxyOther}
  {
    HolderIsNotRefused(a);
    var early := EarlyList(a);
    var d := Distinct(early + LateList(a));
    assert IssuanceList(a) == d;
    EarlyListStart(a);
    DistinctKeepsPrefixOfConcat(early, LateList(a), 1);
    assert d[0] == d[..1][0] == early[..1][0] == early[0];
  }

  /** For the cardholder, de-duplication keeps the notification card first
      and its identity document second. */
  lemma IssuanceListSelfStart(a: Answer)
    requires Is(a, "notification_card", "yes") && Is(a, "visitor_type", "self")
    ensures |IssuanceList(a)| >= 2
      && IssuanceList(a)[..2] == [NotificationCard, IdentityDocumentWithNotification]
  {
    HolderIsNotRefused(a);
    var early := EarlyList(a);
    var d := Distinct(early + LateList(a));
    assert IssuanceList(a) == d;
    EarlyListStart(a);
    DistinctKeepsPrefixOfConcat(early, LateList(a), 2);
  }

  /** The early pushes, followed by the late ones unless the proxy was
      turned away, are the documents the branch needs. */
  lemma IssuanceMembers(a: Answer, early: seq<Item>, all: seq<Item>)
    requires forall x :: x in early <==> EarlyPushes(a, x)
    requires RefusedProxy(a) ==> all == early
    requires !RefusedProxy(a) ==> forall x :: x in all <==> x in early || LatePushes(a, x)
    ensures forall x :: x in all <==> IssuanceNeeds(a, x)
    ensures forall x :: x in Distinct(all) <==> IssuanceNeeds(a, x)
  {
    forall x
      ensures x in all <==> IssuanceNeeds(a, x)
    {
      SectionsMeetNeeds(a, x);
    }
  }

  // ---------------------------------------------------------------------
  // What the card issuance list promises

  /** Without the early return, each document is listed once, where the
      sections first push it: the list follows the order of first push. */
  lemma IssuanceListInPushOrder(a: Answer)
    requires !RefusedProxy(a)
    ensures forall i, j :: 0 <= i < j < |IssuanceList(a)| ==>
      FirstIndex(EarlyList(a) + LateList(a), IssuanceList(a)[i])
      < FirstIndex(EarlyList(a) + LateList(a), IssuanceList(a)[j])
  {
    DistinctInFirstOccurrenceOrder(EarlyList(a) + LateList(a));
  }

  /** The list keeps the order of the pushes: a cardholder renewing
      without the notification card and handing back only the basic
      resident card is asked for the current card, then the returned card,
      then another identity document. */
  lemma SelfRenewalOrder(a: Answer)
    requires Is(a, "notification_card", "no") && Is(a, "visitor_type", "self")
    requires Is(a, "issuance_type", "renewal") && !Is(a, "self_detail_type", "with_proxy")
    requires ReturnsToken(a, "basic_resident_card") && !ReturnsToken(a, "mynumber_notification")
    requires !Is(a, "issuance_inquiry_response_check", "applicable")
    ensures IssuanceList(a) == [CurrentMynumberCardWithFee, BasicResidentCard, IdentityDocumentNoNotification]
  {
    assert EarlyList(a) == [CurrentMynumberCardWithFee, BasicResidentCard, IdentityDocumentNoNotification];
    assert LateList(a) == [];
    assert EarlyList(a) + LateList(a) == EarlyList(a);
    DistinctOfNoDup(EarlyList(a));
  }

  /** A refused proxy is told only to hand in cards: the warning, the
      current card and the returned cards, and nothing of the proxy's. */
  lemma RefusedProxyListsOnlyCards(a: Answer, x: Item)
    requires RefusedProxy(a)
    ensures IssuanceNeeds(a, x) <==>
      x == NoNotificationWarning || CurrentCardPushes(a, x) || ReturnedCardPushes(a, x)
  {
    SectionsMeetNeeds(a, x);
  }

  /** A proxy who is not turned away always brings the cardholder's
      identity document; for a minor also the guardian's document, and the
      family register exactly when the minor lives apart and is registered
      elsewhere. */
  lemma ProxyDocumentsListed(a: Answer)
    requires Is(a, "visitor_type", "proxy") && !RefusedProxy(a)
    ensures IssuanceNeeds(a, ApplicantIdentityDocument)
    ensures Is(a, "applicant_age", "under_15") ==> IssuanceNeeds(a, ProxyIdentityDocumentGuardian)
    ensures IssuanceNeeds(a, FamilyRegisterUnder15) <==>
      (Is(a, "applicant_age", "under_15") && Is(a, "cohabitation_status", "not_cohabiting")
       && Is(a, "koseki_location", "other"))
  {
  }

  /** A cardholder who comes in person is never asked for a proxy's document. */
  lemma SelfVisitorNeedsNoProxyDocument(a: Answer, x: Item)
    requires Is(a, "visitor_type", "self") && ProxyOnlyDocument(x)
    ensures !IssuanceNeeds(a, x)
  {
  }

  /** A returned card's token is found in the answer exactly when it is one
      of its comma-separated entries, compared whole, so that neither
      "basic_resident_card_copy" nor a token inside another entry counts. */
  lemma ReturnsTokenExactly(a: Answer, tokens: seq<string>, token: string)
    requires |tokens| >= 1 && forall i :: 0 <= i < |tokens| ==> ',' !in tokens[i]
    requires Truthy(a, "return_documents") && a["return_documents"] == Join(tokens, ',')
    ensures ReturnsToken(a, token) <==> token in tokens
  {
    SplitJoin(tokens, ',');
  }

  // ---------------------------------------------------------------------
  // The electronic certificate branch

  /** The document the switch of lines 280-315 pushes for a proxy's reason. */
  predicate CertReasonDocument(a: Answer, reason: string, x: Item) {
    (x.CertAdultGuardianCert? && reason == "adult_guardian")
    || (x.CertConservateeCert? && reason == "conservatee")
    || (x.CertAssistedPersonCert? && reason == "assisted_person")
    || (x.CertVoluntaryGuardianCert? && reason == "voluntary_guardian")
    || (x.CertFamilyRegisterUnder15? && reason == "under_15" && Is(a, "cert_cohabitation_status", "not_cohabiting") && Is(a, "cert_koseki_location", "other"))
    || (x.CertInquiryResponseVoluntary? && reason == "voluntary_proxy" && Is(a, "cert_type", "issuance"))
    || (x.CertInquiryResponseRenewal? && reason == "voluntary_proxy" && Is(a, "cert_type", "renewal"))
    || (x.PowerOfAttorney? && reason == "same_household")
  }

  /** The documents a certificate proxy's reason can call for. */
  predicate CertReasonItem(x: Item) {
    match x
    case CertAdultGuardianCert | CertConservateeCert | CertAssistedPersonCert | CertVoluntaryGuardianCert
       | CertFamilyRegisterUnder15 | CertInquiryResponseVoluntary | CertInquiryResponseRenewal
       | PowerOfAttorney => true
    case _ => false
  }

  /** What the electronic certificate branch lists, document by document:
      always the card, and for a proxy the proxy's photo identity document
      and what the proxy's reason calls for. */
  ghost predicate CertificateNeeds(a: Answer, x: Item) {
    x.MynumberCardCertificate?
    || (Is(a, "cert_visitor_type", "proxy")
        && (x.ProxyIdentityDocumentPhoto?
            || (Truthy(a, "cert_proxy_reason") && CertReasonDocument(a, a["cert_proxy_reason"], x))))
  }

  /** The inquiry response the voluntary proxy's case of lines 300-307
      calls for: the one matching the kind of certificate, if any. */
  function CertInquiryList(a: Answer): seq<Item> {
    if Is(a, "cert_type", "issuance") then [CertInquiryResponseVoluntary]
    else if Is(a, "cert_type", "renewal") then [CertInquiryResponseRenewal]
    else []
  }

  /** The guardianship certificate the switch of lines 280-315 calls for;
      nothing for any other reason. */
  function CertGuardianList(reason: string): seq<Item> {
    match reason
    case "adult_guardian" => [CertAdultGuardianCert]
    case "conservatee" => [CertConservateeCert]
    case "assisted_person" => [CertAssistedPersonCert]
    case "voluntary_guardian" => [CertVoluntaryGuardianCert]
    case _ => []
  }

  /** What the switch of lines 280-315 appends for a proxy's reason;
      nothing for a reason it does not list. */
  function CertReasonList(a: Answer, reason: string): seq<Item> {
    match reason
    case "under_15" =>
      if Is(a, "cert_cohabitation_status", "not_cohabiting") && Is(a, "cert_koseki_location", "other")
      then [CertFamilyRegisterUnder15] else []
    case "voluntary_proxy" => CertInquiryList(a)
    case "same_household" => [PowerOfAttorney]
    case _ => CertGuardianList(reason)
  }

  /** The voluntary proxy's case of lines 300-307: the inquiry response
      matching the kind of certificate. */
  method PushCertInquiryResponse(items: seq<Item>, a: Answer) returns (items': seq<Item>)
    ensures items' == items + CertInquiryList(a)
    ensures |items| <= |items'| <= |items| + 1 && items'[..|items|] == items
    ensures forall x :: x in items' <==> x in items || CertReasonDocument(a, "voluntary_proxy", x)
    ensures |items'| > |items| ==> CertReasonItem(items'[|items|])
  {
    items' := items;
    if Is(a, "cert_type", "issuance") {
      items' := items' + [CertInquiryResponseVoluntary];
    }
    if Is(a, "cert_type", "renewal") {
      items' := items' + [CertInquiryResponseRenewal];
    }
  }

  /** The guardianship cases of the switch of lines 280-315. */
  method PushCertGuardianCert(items: seq<Item>, reason: string) returns (items': seq<Item>)
    ensures items' == items + CertGuardianList(reason)
    ensures |items| <= |items'| <= |items| + 1 && items'[..|items|] == items
    ensures forall x :: x in items' <==> (x in items ||
      (x.CertAdultGuardianCert? && reason == "adult_guardian")
      || (x.CertConservateeCert? && reason == "conservatee")
      || (x.CertAssistedPersonCert? && reason == "assisted_person")
      || (x.CertVoluntaryGuardianCert? && reason == "voluntary_guardian"))
    ensures |items'| > |items| ==> CertReasonItem(items'[|items|])
  {
    items' := items;
    match reason {
      case "adult_guardian" => items' := items' + [CertAdultGuardianCert];
      case "conservatee" => items' := items' + [CertConservateeCert];
      case "assisted_person" => items' := items' + [CertAssistedPersonCert];
      case "voluntary_guardian" => items' := items' + [CertVoluntaryGuardianCert];
      case _ =>
    }
  }

  /** The switch of lines 280-315: at most one document. */
  method PushCertReasonDocument(items: seq<Item>, a: Answer, reason: string) returns (items': seq<Item>)
    ensures items' == items + CertReasonList(a, reason)
    ensures |items| <= |items'| <= |items| + 1 && items'[..|items|] == items
    ensures forall x :: x in items' <==> x in items || CertReasonDocument(a, reason, x)
    ensures |items'| > |items| ==> CertReasonItem(items'[|items|])
  {
    items' := items;
    match reason {
      case "under_15" =>
        if Is(a, "cert_cohabitation_status", "not_cohabiting") && Is(a, "cert_koseki_location", "other") {
          items' := items' + [CertFamilyRegisterUnder15];
        }
      case "voluntary_proxy" => items' := PushCertInquiryResponse(items', a);
      case "same_household" => items' := items' + [PowerOfAttorney];
      case _ => items' := PushCertGuardianCert(items', reason);
    }
  }

  /** The card, the proxy's document and at most one reason document are
      pairwise different. */
  lemma CertListDistinct(items: seq<Item>)
    requires 2 <= |items| <= 3 && items[0] == MynumberCardCertificate
    requires items[1] == ProxyIdentityDocumentPhoto
    requires |items| == 3 ==> CertReasonItem(items[2])
    ensures NoDup(items)
  {
  }

  /** resolveCertificateItems (rules-engine.ts:270-320). */
  method ResolveCertificateItems(a: Answer) returns (r: seq<Item>)
    ensures NoDup(r)
    ensures forall x :: x in r <==> CertificateNeeds(a, x)
    ensures |r| >= 1 && r[0] == MynumberCardCertificate
    ensures Is(a, "cert_visitor_type", "proxy") ==> |r| >= 2 && r[1] == ProxyIdentityDocumentPhoto
    ensures !Is(a, "cert_visitor_type", "proxy") ==> r == [MynumberCardCertificate]
    ensures |r| <= 3
  {
    var items := [MynumberCardCertificate];
    if Is(a, "cert_visitor_type", "proxy") {
      items := items + [ProxyIdentityDocumentPhoto];
      if Truthy(a, "cert_proxy_reason") {
        items := PushCertReasonDocument(items, a, a["cert_proxy_reason"]);
      }
      CertListDistinct(items);
    }
    forall x
      ensures x in items <==> CertificateNeeds(a, x)
    {
    }
    DistinctOfNoDup(items);
    r := Dedup(items);
  }

  /** A proxy from the same household brings a power of attorney and no
      guardianship certificate. */
  lemma SameHouseholdProxyNeedsPowerOfAttorney(a: Answer)
    requires Is(a, "cert_visitor_type", "proxy") && Is(a, "cert_proxy_reason", "same_household")
    ensures CertificateNeeds(a, PowerOfAttorney)
    ensures !CertificateNeeds(a, CertAdultGuardianCert) && !CertificateNeeds(a, CertConservateeCert)
    ensures !CertificateNeeds(a, CertAssistedPersonCert) && !CertificateNeeds(a, CertVoluntaryGuardianCert)
  {
  }

  // ---------------------------------------------------------------------
  // The PIN change branch

  /** The document the switch of lines 341-362 pushes for a proxy's reason. */
  predicate PinReasonDocument(a: Answer, reason: string, x: Item) {
    (x.PinAdultGuardianCert? && reason == "adult_guardian")
    || (x.PinConservateeCert? && reason == "conservatee")
    || (x.PinAssistedPersonCert? && reason == "assisted_person")
    || (x.PinVoluntaryGuardianCert? && reason == "voluntary_guardian")
    || (x.PinInquiryResponseWithInstructions? && reason == "voluntary_proxy")
    || (x.PinFamilyRegisterUnder15? && reason == "under_15" && Is(a, "pin_cohabitation_status", "not_cohabiting") && Is(a, "pin_koseki_location", "other"))
  }

  /** The documents a PIN change proxy's reason can call for. */
  predicate PinReasonItem(x: Item) {
    match x
    case PinAdultGuardianCert | PinConservateeCert | PinAssistedPersonCert | PinVoluntaryGuardianCert
       | PinInquiryResponseWithInstructions | PinFamilyRegisterUnder15 => true
    case _ => false
  }

  /** What the PIN change branch lists for a proxy, document by document. */
  ghost predicate PinProxyNeeds(a: Answer, x: Item) {
    x.PinApplicantMynumberCard? || x.PinProxyIdentityOptions?
    || (Truthy(a, "pin_proxy_reason") && PinReasonDocument(a, a["pin_proxy_reason"], x))
  }

  /** The guardianship certificate the switch of lines 341-362 calls for;
      nothing for any other reason. */
  function PinGuardianList(reason: string): seq<Item> {
    match reason
    case "adult_guardian" => [PinAdultGuardianCert]
    case "conservatee" => [PinConservateeCert]
    case "assisted_person" => [PinAssistedPersonCert]
    case "voluntary_guardian" => [PinVoluntaryGuardianCert]
    case _ => []
  }

  /** What the switch of lines 341-362 appends for a proxy's reason;
      nothing for a reason it does not list. */
  function PinReasonList(a: Answer, reason: string): seq<Item> {
    match reason
    case "voluntary_proxy" => [PinInquiryResponseWithInstructions]
    case "under_15" =>
      if Is(a, "pin_cohabitation_status", "not_cohabiting") && Is(a, "pin_koseki_location", "other")
      then [PinFamilyRegisterUnder15] else []
    case _ => PinGuardianList(reason)
  }

  /** The guardianship cases of the switch of lines 341-362. */
  method PushPinGuardianCert(items: seq<Item>, reason: string) returns (items': seq<Item>)
    ensures items' == items + PinGuardianList(reason)
    ensures |items| <= |items'| <= |items| + 1 && items'[..|items|] == items
    ensures forall x :: x in items' <==> (x in items ||
      (x.PinAdultGuardianCert? && reason == "adult_guardian")
      || (x.PinConservateeCert? && reason == "conservatee")
      || (x.PinAssistedPersonCert? && reason == "assisted_person")
      || (x.PinVoluntaryGuardianCert? && reason == "voluntary_guardian"))
    ensures |items'| > |items| ==> PinReasonItem(items'[|items|])
  {
    items' := items;
    match reason {
      case "adult_guardian" => items' := items' + [PinAdultGuardianCert];
      case "conservatee" => items' := items' + [PinConservateeCert];
      case "assisted_person" => items' := items' + [PinAssistedPersonCert];
      case "voluntary_guardian" => items' := items' + [PinVoluntaryGuardianCert];
      case _ =>
    }
  }

  /** The switch of lines 341-362: at most one document. */
  method PushPinReasonDocument(items: seq<Item>, a: Answer, reason: string) returns (items': seq<Item>)
    ensures items' == items + PinReasonList(a, reason)
    ensures |items| <= |items'| <= |items| + 1 && items'[..|items|] == items
    ensures forall x :: x in items' <==> x in items || PinReasonDocument(a, reason, x)
    ensures |items'| > |items| ==> PinReasonItem(items'[|items|])
  {
    items' := items;
    match reason {
      case "voluntary_proxy" => items' := items' + [PinInquiryResponseWithInstructions];
      case "under_15" =>
        if Is(a, "pin_cohabitation_status", "not_cohabiting") && Is(a, "pin_koseki_location", "other") {
          items' := items' + [PinFamilyRegisterUnder15];
        }
      case _ => items' := PushPinGuardianCert(items', reason);
    }
  }

  /** The two proxy documents and at most one reason document are
      pairwise different. */
  lemma PinListDistinct(items: seq<Item>)
    requires 2 <= |items| <= 3 && items[0] == PinApplicantMynumberCard
    requires items[1] == PinProxyIdentityOptions
    requires |items| == 3 ==> PinReasonItem(items[2])
    ensures NoDup(items)
  {
  }

  /** The proxy's pushes of lines 334-363: the applicant's card, the
      proxy's identity document and what the proxy's reason calls for. */
  method PinProxyDocuments(a: Answer) returns (items: seq<Item>)
    ensures NoDup(items) && 2 <= |items| <= 3
    ensures items[..2] == [PinApplicantMynumberCard, PinProxyIdentityOptions]
    ensures forall x :: x in items <==> PinProxyNeeds(a, x)
  {
    items := [PinApplicantMynumberCard];
    items := items + [PinProxyIdentityOptions];
    if Truthy(a, "pin_proxy_reason") {
      items := PushPinReasonDocument(items, a, a["pin_proxy_reason"]);
    }
    PinListDistinct(items);
  }

  /** resolvePinChangeItems (rules-engine.ts:323-369). */
  method ResolvePinChangeItems(a: Answer) returns (r: seq<Item>)
    ensures Is(a, "pin_visitor_type", "self") ==> r == [MynumberCard, IdentityDocumentAB]
    ensures Is(a, "pin_visitor_type", "proxy") ==>
      NoDup(r) && 2 <= |r| <= 3 && r[..2] == [PinApplicantMynumberCard, PinProxyIdentityOptions]
      && forall x :: x in r <==> PinProxyNeeds(a, x)
    ensures !Is(a, "pin_visitor_type", "self") && !Is(a, "pin_visitor_type", "proxy") ==> r == []
  {
    var items := [];
    if Is(a, "pin_visitor_type", "self") {
      items := items + [MynumberCard];
      items := items + [IdentityDocumentAB];
      DistinctOfNoDup(items);
      r := Dedup(items);
      return;
    }
    if Is(a, "pin_visitor_type", "proxy") {
      items := PinProxyDocuments(a);
      DistinctOfNoDup(items);
      r := Dedup(items);
      return;
    }
    DistinctOfNoDup(items);
    r := Dedup(items);
  }

  // ---------------------------------------------------------------------
  // The generic rules and the dispatcher

  /** What the loop of lines 37-45 has pushed after the given rules. */
  function RulePushes(rules: seq<Rule>, a: Answer): (pushed: seq<Item>)
    ensures forall x :: x in pushed <==>
      exists i :: 0 <= i < |rules| && Matches(rules[i], a) && x in rules[i].add
  {
    if |rules| == 0 then []
    else
      var init := rules[..|rules| - 1];
      var last := rules[|rules| - 1];
      assert forall i :: 0 <= i < |init| ==> init[i] == rules[i];
      RulePushes(init, a) + (if Matches(last, a) then last.add else [])
  }

  /** The rule loop of lines 35-47: every matching rule adds its documents,
      and the result is de-duplicated. */
  method ApplyRules(rules: seq<Rule>, a: Answer) returns (r: seq<Item>)
    ensures r == Distinct(RulePushes(rules, a))
    ensures NoDup(r)
    ensures forall x :: x in r <==>
      exists i :: 0 <= i < |rules| && Matches(rules[i], a) && x in rules[i].add
  {
    var requiredItems := [];
    for i := 0 to |rules|
      invariant requiredItems == RulePushes(rules[..i], a)
    {
      assert rules[..i + 1][..i] == rules[..i];
      if Matches(rules[i], a) {
        requiredItems := requiredItems + rules[i].add;
      }
    }
    assert rules[..|rules|] == rules;
    r := Dedup(requiredItems);
  }

  /** resolveItems (rules-engine.ts:13-48): nothing when an application
      method was chosen, else the branch of the procedure. */
  method ResolveItems(a: Answer) returns (r: seq<Item>)
    ensures NoDup(r)
    ensures Truthy(a, "application_method") ==> r == []
    ensures !Truthy(a, "application_method") && Is(a, "procedure", "card_issuance") ==>
      r == IssuanceList(a) && forall x :: x in r <==> IssuanceNeeds(a, x)
    ensures !Truthy(a, "application_method") && Is(a, "procedure", "digital_cert") ==>
      (forall x :: x in r <==> CertificateNeeds(a, x))
      && 1 <= |r| <= 3 && r[0] == MynumberCardCertificate
      && (Is(a, "cert_visitor_type", "proxy") ==> |r| >= 2 && r[1] == ProxyIdentityDocumentPhoto)
      && (!Is(a, "cert_visitor_type", "proxy") ==> r == [MynumberCardCertificate])
    ensures !Truthy(a, "application_method") && Is(a, "procedure", "pin_change") ==>
      (Is(a, "pin_visitor_type", "self") ==> r == [MynumberCard, IdentityDocumentAB])
      && (Is(a, "pin_visitor_type", "proxy") ==>
            2 <= |r| <= 3 && r[..2] == [PinApplicantMynumberCard, PinProxyIdentityOptions]
            && forall x :: x in r <==> PinProxyNeeds(a, x))
      && (!Is(a, "pin_visitor_type", "self") && !Is(a, "pin_visitor_type", "proxy") ==> r == [])
    ensures (!Truthy(a, "application_method")
             && !IsOneOf(a, "procedure", {"card_issuance", "digital_cert", "pin_change"})) ==> r == []
  {
    if Truthy(a, "application_method") {
      return [];
    }
    if Is(a, "procedure", "card_issuance") {
      r := ResolveIssuanceItems(a);
      return;
    }
    if Is(a, "procedure", "digital_cert") {
      r := ResolveCertificateItems(a);
      return;
    }
    if Is(a, "procedure", "pin_change") {
      r := ResolvePinChangeItems(a);
      return;
    }
    r := ApplyRules(RULES, a);
  }

  // ---------------------------------------------------------------------
  // The special notice and the catalog lookup

  /** getProxySpecialNotice (rules-engine.ts:51-90). */
  function GetProxySpecialNotice(a: Answer): (notice: Option<string>)
    ensures notice.Some? ==> notice.value in ProxyNotices
    ensures notice.Some? ==> Is(a, "procedure", "card_issuance") && Is(a, "visitor_type", "proxy")
  {
    if !Is(a, "procedure", "card_issuance") || !Is(a, "visitor_type", "proxy") then None
    else if Is(a, "applicant_age", "under_15") then Some("minor_guardian")
    else if Is(a, "applicant_age", "15_over") then
      if IsOneOf(a, "guardian_reason_15_over", GuardianReasons) then Some("minor_guardian")
      else if Is(a, "guardian_reason_15_over", "other") then
        match ValueOrEmpty(a, "specific_reason")
        case "hospitalized" => Some("hospitalized")
        case "facility_resident" => Some("facility_resident")
        case "care_certified" => Some("care_certified")
        case "hikikomori" => Some("hikikomori")
        case _ => None
      else None
    else None
  }

  /** The guardian notice goes exactly to a proxy for a minor or for a
      cardholder aged 15 or over under guardianship. */
  lemma MinorGuardianNoticeIff(a: Answer)
    ensures GetProxySpecialNotice(a) == Some("minor_guardian") <==>
      (Is(a, "procedure", "card_issuance") && Is(a, "visitor_type", "proxy")
       && (Is(a, "applicant_age", "under_15")
           || (Is(a, "applicant_age", "15_over") && IsOneOf(a, "guardian_reason_15_over", GuardianReasons))))
  {
  }

  /** A hardship notice goes exactly to a proxy giving that reason. */
  lemma HardshipNoticeIff(a: Answer, reason: string)
    requires reason in NoticeReasons
    ensures GetProxySpecialNotice(a) == Some(reason) <==>
      (Is(a, "procedure", "card_issuance") && ProxyOther(a) && Is(a, "specific_reason", reason))
  {
  }

  /** The guardian notice comes with the guardian's identity document. */
  lemma GuardianNoticeListsGuardianDocument(a: Answer)
    ensures GetProxySpecialNotice(a) == Some("minor_guardian") ==>
      IssuanceNeeds(a, ProxyIdentityDocumentGuardian)
  {
    MinorGuardianNoticeIff(a);
  }

  /** A hardship notice comes with the certificate the list pushes for
      that reason, unless the proxy is turned away for want of the
      notification card. */
  lemma HardshipNoticeListsCertificate(a: Answer, reason: string, cert: Item)
    requires reason in NoticeReasons && HardshipCertFor(reason, cert)
    ensures GetProxySpecialNotice(a) == Some(reason) && !RefusedProxy(a) ==> IssuanceNeeds(a, cert)
  {
    HardshipNoticeIff(a, reason);
  }

  /** getItemDetails (rules-engine.ts:371-373). */
  function GetItemDetails(itemKey: string): (item: Option<RequiredItem>)
    ensures item.Some? <==> itemKey in ITEMS
    ensures item.Some? ==> item.value == ITEMS[itemKey]
  {
    if itemKey in ITEMS then Some(ITEMS[itemKey]) else None
  }

  /** The catalog has an entry for the notification card. */
  lemma CatalogHasNotificationCard()
    ensures GetItemDetails(Key(NotificationCard)).Some?
  {
  }

  /** The identity document listed beside the notification card has no
      catalog entry, so its lookup gives nothing. */
  lemma CatalogLacksIdentityDocument()
    ensures GetItemDetails(Key(IdentityDocumentWithNotification)).None?
  {
  }
}
