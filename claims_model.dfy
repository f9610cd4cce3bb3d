/**
 * The claim records the Kentucky Medicaid 837I processor works on: one
 * row of the joined claims/patients/providers/payers/subscribers query,
 * with its service lines, and the severity-tagged diagnostics the
 * validator produces.
 *
 * Numbers that the database hands over (claim and charge amounts, units,
 * line numbers) are kept as the text Python's `str()` gives them.
 * Columns that may be NULL and whose NULL the code treats specially are
 * `Option<string>`; every other column is a plain string.
 */
module ClaimsModel {
  import opened Text

  /** ErrorLevel: the severity of a diagnostic. */
  datatype Level = Info | Warning | Error

  /** The message of a diagnostic: which finding it is, with the values the
      code interpolates into it. `MessageText` gives the exact wording. */
  datatype Message =
    | BadTransactionType(code: string)
    | BadFilingIndicator(code: string)
    | BadEntityQualifier(code: string)
    | BadAcceptAssignment(code: string)
    | BadBenefitsCert(code: string)
    | BadReleaseInfo(code: string)
    | BadQualifier(lineNumber: string, qualifier: string)
    | PrincipalProcedureNotice
    | OtherProcedureNotice
    | HcpcsNotice
    | SubscriberCheckNotice

  /** The text of a message, word for word as the processor writes it. */
  function MessageText(m: Message): string {
    match m
    case BadTransactionType(code) =>
      "Invalid transaction type code: " + code + ". KY Medicaid only accepts 'CH' or 'RP'."
    case BadFilingIndicator(code) =>
      "Invalid claim filing indicator code: " + code + ". KY Medicaid only accepts 'MC'."
    case BadEntityQualifier(code) =>
      "Invalid entity type qualifier: " + code + ". KY Medicaid requires '1' (Person)."
    case BadAcceptAssignment(code) =>
      "Invalid provider accept assignment code: " + code + ". KY Medicaid only accepts 'A'."
    case BadBenefitsCert(code) =>
      "Invalid benefits assignment cert indicator: " + code + ". KY Medicaid only accepts 'Y'."
    case BadReleaseInfo(code) =>
      "Invalid release of information code: " + code + ". KY Medicaid only accepts 'Y'."
    case BadQualifier(lineNumber, qualifier) =>
      "Service line " + lineNumber + ": Invalid procedure code qualifier: " + qualifier + ". KY Medicaid requires 'HC'."
    case PrincipalProcedureNotice =>
      "HI Segment: KY Medicaid only uses HI01-2 when HI01-1 equals BR. If BP is used, value in HI01-2 won't be processed."
    case OtherProcedureNotice =>
      "HI Segment: KY Medicaid only uses HI01-2 when HI01-1 equals BQ. If BO is used, value in HI01-2 won't be processed."
    case HcpcsNotice =>
      "HI Segment: KY Medicaid prefers HCPCS codes at detail level (SV202-2) with SV202-1='HC'. " +
      "If HCPCS codes are in HI segment, claim won't fail compliance but may not process correctly."
    case SubscriberCheckNotice =>
      "Subscriber information validation: Should check SBR01 value based on number of other payers"
  }

  /** ValidationError: one finding about one claim. The creation
      timestamp is not modelled. */
  datatype Diagnostic = Diagnostic(claimId: string, level: Level, message: Message, field: Option<string>)

  /** A row of `service_lines`. */
  datatype ServiceLine = ServiceLine(
    lineNumber: string,
    revenueCode: string,
    procedureCodeQualifier: string,
    procedureCode: string,
    chargeAmount: string,
    units: string,
    serviceDate: Option<string>)

  /** The provider columns of the join (`prov.*`). */
  datatype Provider = Provider(
    npi: string,
    orgName: Option<string>,
    firstName: string,
    lastName: string,
    taxonomyCode: string,
    addressLine1: string,
    city: string,
    state: string,
    zipCode: string)

  /** The patient columns of the join (`p.*`). */
  datatype Patient = Patient(
    firstName: string,
    lastName: string,
    gender: string,
    dob: Option<string>,
    addressLine1: string,
    city: string,
    state: string,
    zipCode: string)

  /** The subscriber columns of the join (`s.*`). */
  datatype Subscriber = Subscriber(
    insuredFirstName: string,
    insuredLastName: string,
    insuredId: string,
    relationshipCode: string,
    groupNumber: Option<string>)

  /** One institutional claim with everything the encoder reads. */
  datatype Claim = Claim(
    claimId: string,
    transactionTypeCode: string,
    claimFilingIndicatorCode: string,
    entityTypeQualifier: string,
    providerAcceptAssignmentCode: string,
    benefitsAssignmentCertIndicator: string,
    releaseInfoCode: string,
    claimControlNumber: string,
    patientControlNumber: string,
    claimAmount: string,
    placeOfServiceCode: string,
    claimFrequencyTypeCode: string,
    patientStatusCode: string,
    admissionDate: Option<string>,
    dischargeDate: Option<string>,
    statementFromDate: Option<string>,
    statementToDate: Option<string>,
    principalDiagnosisCode: string,
    secondaryDiagnosisCodes: Option<string>,
    referringProviderNpi: Option<string>,
    attendingProviderNpi: Option<string>,
    patient: Patient,
    provider: Provider,
    subscriber: Subscriber,
    serviceLines: seq<ServiceLine>)

  /** Number of diagnostics of level `l`. */
  function CountLevel(ds: seq<Diagnostic>, l: Level): nat
  {
    if |ds| == 0 then 0
    else (if ds[0].level == l then 1 else 0) + CountLevel(ds[1..], l)
  }

  lemma {:induction false} CountLevelConcat(a: seq<Diagnostic>, b: seq<Diagnostic>, l: Level)
    ensures CountLevel(a + b, l) == CountLevel(a, l) + CountLevel(b, l)
  {
    if |a| == 0 {
      assert a + b == b;
    } else {
      assert (a + b)[1..] == a[1..] + b;
      CountLevelConcat(a[1..], b, l);
    }
  }

  lemma {:induction false} CountLevelNone(ds: seq<Diagnostic>, l: Level)
    requires forall k :: 0 <= k < |ds| ==> ds[k].level != l
    ensures CountLevel(ds, l) == 0
  {
    if |ds| > 0 {
      CountLevelNone(ds[1..], l);
    }
  }
}
