/** The document identifiers the requirement resolver lists. The source
    pushes them as string literals; they form a closed set, modelled here as
    an enumeration whose Key is the literal. */
module ItemIds {

  datatype Item =
    // card issuance
    NotificationCard
    | NotificationCardProxy75Over
    | NotificationCardProxyOther
    | IdentityDocumentWithNotification
    | CurrentMynumberCardWithFee
    | BasicResidentCard
    | MynumberNotificationCard
    | InquiryResponse
    | NoNotificationWarning
    | IdentityDocumentNoNotification
    | ApplicantIdentityDocument
    | ProxyIdentityDocumentOther
    | ProxyIdentityDocumentGuardian
    | FamilyRegisterUnder15
    | ProxyAccompanyingId
    | HospitalizedCert
    | DisabledCert
    | FacilityCert
    | CareCert
    | PregnantCert
    | StudyAbroadCert
    | StudentCert
    | HikikomoriCert
    | AdultGuardianCert
    | ConservateeCert
    | AssistedPersonCert
    | VoluntaryGuardianCert
    // electronic certificate
    | MynumberCardCertificate
    | ProxyIdentityDocumentPhoto
    | CertFamilyRegisterUnder15
    | CertInquiryResponseVoluntary
    | CertInquiryResponseRenewal
    | PowerOfAttorney
    | CertAdultGuardianCert
    | CertConservateeCert
    | CertAssistedPersonCert
    | CertVoluntaryGuardianCert
    // PIN change / reset
    | MynumberCard
    | IdentityDocumentAB
    | PinApplicantMynumberCard
    | PinProxyIdentityOptions
    | PinInquiryResponseWithInstructions
    | PinFamilyRegisterUnder15
    | PinAdultGuardianCert
    | PinConservateeCert
    | PinAssistedPersonCert
    | PinVoluntaryGuardianCert

  /** The identifier string the source pushes for `item`. */
  function Key(item: Item): string {
    match item
    case NotificationCard => "notification_card"
    case NotificationCardProxy75Over => "notification_card_proxy_75_over"
    case NotificationCardProxyOther => "notification_card_proxy_other"
    case IdentityDocumentWithNotification => "identity_document_with_notification"
    case CurrentMynumberCardWithFee => "current_mynumber_card_with_fee"
    case BasicResidentCard => "basic_resident_card"
    case MynumberNotificationCard => "mynumber_notification_card"
    case InquiryResponse => "inquiry_response"
    case NoNotificationWarning => "no_notification_warning"
    case IdentityDocumentNoNotification => "identity_document_no_notification"
    case ApplicantIdentityDocument => "applicant_identity_document"
    case ProxyIdentityDocumentOther => "proxy_identity_document_other"
    case ProxyIdentityDocumentGuardian => "proxy_identity_document_guardian"
    case FamilyRegisterUnder15 => "family_register_under_15"
    case ProxyAccompanyingId => "proxy_accompanying_id"
    case HospitalizedCert => "hospitalized_cert"
    case DisabledCert => "disabled_cert"
    case FacilityCert => "facility_cert"
    case CareCert => "care_cert"
    case PregnantCert => "pregnant_cert"
    case StudyAbroadCert => "study_abroad_cert"
    case StudentCert => "student_cert"
    case HikikomoriCert => "hikikomori_cert"
    case AdultGuardianCert => "adult_guardian_cert"
    case ConservateeCert => "conservatee_cert"
    case AssistedPersonCert => "assisted_person_cert"
    case VoluntaryGuardianCert => "voluntary_guardian_cert"
    case MynumberCardCertificate => "mynumber_card_certificate"
    case ProxyIdentityDocumentPhoto => "proxy_identity_document_photo"
    case CertFamilyRegisterUnder15 => "cert_family_register_under_15"
    case CertInquiryResponseVoluntary => "cert_inquiry_response_voluntary"
    case CertInquiryResponseRenewal => "cert_inquiry_response_renewal"
    case PowerOfAttorney => "power_of_attorney"
    case CertAdultGuardianCert => "cert_adult_guardian_cert"
    case CertConservateeCert => "cert_conservatee_cert"
    case CertAssistedPersonCert => "cert_assisted_person_cert"
    case CertVoluntaryGuardianCert => "cert_voluntary_guardian_cert"
    case MynumberCard => "mynumber_card"
    case IdentityDocumentAB => "identity_document_ab"
    case PinApplicantMynumberCard => "pin_applicant_mynumber_card"
    case PinProxyIdentityOptions => "pin_proxy_identity_options"
    case PinInquiryResponseWithInstructions => "pin_inquiry_response_with_instructions"
    case PinFamilyRegisterUnder15 => "pin_family_register_under_15"
    case PinAdultGuardianCert => "pin_adult_guardian_cert"
    case PinConservateeCert => "pin_conservatee_cert"
    case PinAssistedPersonCert => "pin_assisted_person_cert"
    case PinVoluntaryGuardianCert => "pin_voluntary_guardian_cert"
  }
}
