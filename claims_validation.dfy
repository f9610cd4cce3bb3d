/**
 * The Kentucky Medicaid compliance checks (`validate_claims`) and the
 * subscriber pass (`validate_subscriber_info`).
 *
 * Six equality or membership rules each yield one ERROR when they fail;
 * every service line whose procedure code qualifier is not `HC` yields a
 * WARNING; three fixed advisory notices follow for every claim. A claim
 * is kept exactly when none of its own diagnostics is an ERROR.
 */
module ClaimsValidation {
  import opened Text
  import opened ClaimsModel

  /** The transaction type codes KY Medicaid processes (BHT06). */
  const AcceptedTransactionTypes: seq<string> := ["CH", "RP"]

  // ---------------------------------------------------------------------
  // The diagnostics, one function per finding

  function TransactionTypeError(c: Claim): Diagnostic {
    Diagnostic(c.claimId, Error,
      BadTransactionType(c.transactionTypeCode),
      Some("transaction_type_code"))
  }

  function FilingIndicatorError(c: Claim): Diagnostic {
    Diagnostic(c.claimId, Error,
      BadFilingIndicator(c.claimFilingIndicatorCode),
      Some("claim_filing_indicator_code"))
  }

  function EntityQualifierError(c: Claim): Diagnostic {
    Diagnostic(c.claimId, Error,
      BadEntityQualifier(c.entityTypeQualifier),
      Some("entity_type_qualifier"))
  }

  function AcceptAssignmentError(c: Claim): Diagnostic {
    Diagnostic(c.claimId, Error,
      BadAcceptAssignment(c.providerAcceptAssignmentCode),
      Some("provider_accept_assignment_code"))
  }

  function BenefitsCertError(c: Claim): Diagnostic {
    Diagnostic(c.claimId, Error,
      BadBenefitsCert(c.benefitsAssignmentCertIndicator),
      Some("benefits_assignment_cert_indicator"))
  }

  function ReleaseInfoError(c: Claim): Diagnostic {
    Diagnostic(c.claimId, Error,
      BadReleaseInfo(c.releaseInfoCode),
      Some("release_info_code"))
  }

  function QualifierWarning(claimId: string, line: ServiceLine): Diagnostic {
    Diagnostic(claimId, Warning,
      BadQualifier(line.lineNumber, line.procedureCodeQualifier),
      Some("procedure_code_qualifier"))
  }

  /** The three advisory notices every claim receives, whatever its data. */
  function FixedNotices(claimId: string): seq<Diagnostic> {
    [ Diagnostic(claimId, Info,
        PrincipalProcedureNotice,
        Some("HI_segment_principal_procedure")),
      Diagnostic(claimId, Info,
        OtherProcedureNotice,
        Some("HI_segment_other_procedure")),
      Diagnostic(claimId, Warning,
        HcpcsNotice,
        Some("HI_segment_HCPCS")) ]
  }

  function SubscriberNotice(claimId: string): Diagnostic {
    Diagnostic(claimId, Info,
      SubscriberCheckNotice,
      Some("SBR01"))
  }

  // ---------------------------------------------------------------------
  // What one claim produces

  /** The diagnostic of one rule: `[d]` when the rule failed. */
  function Rule(failed: bool, d: Diagnostic): seq<Diagnostic> {
    if failed then [d] else []
  }

  /** The ERRORs of the six rules, in rule order. */
  function RuleErrors(c: Claim): seq<Diagnostic> {
    Rule(c.transactionTypeCode !in AcceptedTransactionTypes, TransactionTypeError(c)) +
    Rule(c.claimFilingIndicatorCode != "MC", FilingIndicatorError(c)) +
    Rule(c.entityTypeQualifier != "1", EntityQualifierError(c)) +
    Rule(c.providerAcceptAssignmentCode != "A", AcceptAssignmentError(c)) +
    Rule(c.benefitsAssignmentCertIndicator != "Y", BenefitsCertError(c)) +
    Rule(c.releaseInfoCode != "Y", ReleaseInfoError(c))
  }

  /** One WARNING per service line whose qualifier is not `HC`. */
  function LineWarnings(claimId: string, lines: seq<ServiceLine>): seq<Diagnostic> {
    if |lines| == 0 then []
    else
      var last := lines[|lines| - 1];
      LineWarnings(claimId, lines[..|lines| - 1]) +
      (if last.procedureCodeQualifier != "HC" then [QualifierWarning(claimId, last)] else [])
  }

  /** `claim_errors` of one claim after all its checks. */
  function ClaimDiagnostics(c: Claim): seq<Diagnostic> {
    RuleErrors(c) + LineWarnings(c.claimId, c.serviceLines) + FixedNotices(c.claimId)
  }

  /** The code's keep test: `any(e.level == ErrorLevel.ERROR ...)`. */
  predicate HasError(ds: seq<Diagnostic>) {
    exists k :: 0 <= k < |ds| && ds[k].level == Error
  }

  /** `valid_claims` after the claims in `claims`. */
  function KeptClaims(claims: seq<Claim>): seq<Claim> {
    if |claims| == 0 then []
    else
      var last := claims[|claims| - 1];
      KeptClaims(claims[..|claims| - 1]) + (if HasError(ClaimDiagnostics(last)) then [] else [last])
  }

  /** `validation_results` after the claims in `claims`. */
  function AllDiagnostics(claims: seq<Claim>): seq<Diagnostic> {
    if |claims| == 0 then []
    else AllDiagnostics(claims[..|claims| - 1]) + ClaimDiagnostics(claims[|claims| - 1])
  }

  // ---------------------------------------------------------------------
  // The two passes as the code runs them

  /** The six rule checks at the head of validate_claims' loop body: the
      three code checks, then the three CLM07-CLM09 indicator checks. */
  method CheckRules(claim: Claim) returns (claimErrors: seq<Diagnostic>)
    ensures claimErrors == RuleErrors(claim)
  {
    claimErrors := CheckCodes(claim);
    claimErrors := CheckIndicators(claim, claimErrors);
  }

  /** Transaction type, claim filing indicator and entity type qualifier. */
  method CheckCodes(claim: Claim) returns (claimErrors: seq<Diagnostic>)
    ensures claimErrors ==
              Rule(claim.transactionTypeCode !in AcceptedTransactionTypes, TransactionTypeError(claim)) +
              Rule(claim.claimFilingIndicatorCode != "MC", FilingIndicatorError(claim)) +
              Rule(claim.entityTypeQualifier != "1", EntityQualifierError(claim))
  {
    claimErrors := [];
    if claim.transactionTypeCode !in AcceptedTransactionTypes {
      claimErrors := claimErrors + [TransactionTypeError(claim)];
    }
    assert claimErrors == Rule(claim.transactionTypeCode !in AcceptedTransactionTypes, TransactionTypeError(claim));
    ghost var before2 := claimErrors;
    if claim.claimFilingIndicatorCode != "MC" {
      claimErrors := claimErrors + [FilingIndicatorError(claim)];
    }
    assert claimErrors == before2 + Rule(claim.claimFilingIndicatorCode != "MC", FilingIndicatorError(claim));
    ghost var before3 := claimErrors;
    if claim.entityTypeQualifier != "1" {
      claimErrors := claimErrors + [EntityQualifierError(claim)];
    }
    assert claimErrors == before3 + Rule(claim.entityTypeQualifier != "1", EntityQualifierError(claim));
  }

  /** Accept assignment, benefits assignment certification and release of
      information, appended to the errors found so far. */
  method CheckIndicators(claim: Claim, errors: seq<Diagnostic>) returns (claimErrors: seq<Diagnostic>)
    ensures claimErrors ==
              errors +
              Rule(claim.providerAcceptAssignmentCode != "A", AcceptAssignmentError(claim)) +
              Rule(claim.benefitsAssignmentCertIndicator != "Y", BenefitsCertError(claim)) +
              Rule(claim.releaseInfoCode != "Y", ReleaseInfoError(claim))
  {
    claimErrors := errors;
    if claim.providerAcceptAssignmentCode != "A" {
      claimErrors := claimErrors + [AcceptAssignmentError(claim)];
    }
    assert claimErrors == errors + Rule(claim.providerAcceptAssignmentCode != "A", AcceptAssignmentError(claim));
    ghost var before5 := claimErrors;
    if claim.benefitsAssignmentCertIndicator != "Y" {
      claimErrors := claimErrors + [BenefitsCertError(claim)];
    }
    assert claimErrors == before5 + Rule(claim.benefitsAssignmentCertIndicator != "Y", BenefitsCertError(claim));
    ghost var before6 := claimErrors;
    if claim.releaseInfoCode != "Y" {
      claimErrors := claimErrors + [ReleaseInfoError(claim)];
    }
    assert claimErrors == before6 + Rule(claim.releaseInfoCode != "Y", ReleaseInfoError(claim));
  }

  /** The body of validate_claims' loop for one claim: its `claim_errors`. */
  method CheckClaim(claim: Claim) returns (claimErrors: seq<Diagnostic>)
    ensures claimErrors == ClaimDiagnostics(claim)
  {
    claimErrors := CheckRules(claim);
    ghost var rules := RuleErrors(claim);
    assert claimErrors == rules;
    var lines := claim.serviceLines;
    assert LineWarnings(claim.claimId, lines[..0]) == [];
    assert claimErrors == rules + [];
    for j := 0 to |lines|
      invariant claimErrors == rules + LineWarnings(claim.claimId, lines[..j])
    {
      ghost var warned := LineWarnings(claim.claimId, lines[..j]);
      assert lines[..j + 1][..j] == lines[..j];
      if lines[j].procedureCodeQualifier != "HC" {
        var w := QualifierWarning(claim.claimId, lines[j]);
        claimErrors := claimErrors + [w];
        assert LineWarnings(claim.claimId, lines[..j + 1]) == warned + [w];
        AppendAssoc(rules, warned, [w]);
      } else {
        assert LineWarnings(claim.claimId, lines[..j + 1]) == warned + [];
      }
    }
    assert lines[..|lines|] == lines;
    claimErrors := claimErrors + FixedNotices(claim.claimId);
  }

  /** validate_claims: the kept claims and every claim's diagnostics. */
  method ValidateClaims(claims: seq<Claim>) returns (validClaims: seq<Claim>, results: seq<Diagnostic>)
    ensures validClaims == KeptClaims(claims)
    ensures results == AllDiagnostics(claims)
  {
    validClaims, results := [], [];
    for i := 0 to |claims|
      invariant validClaims == KeptClaims(claims[..i])
      invariant results == AllDiagnostics(claims[..i])
    {
      var claim := claims[i];
      var claimErrors := CheckClaim(claim);
      results := results + claimErrors;
      if !HasError(claimErrors) {
        validClaims := validClaims + [claim];
      }
      assert claims[..i + 1][..i] == claims[..i];
    }
    assert claims[..|claims|] == claims;
  }

  /** validate_subscriber_info: one SBR01 notice per claim it is given. */
  method ValidateSubscriberInfo(claims: seq<Claim>) returns (results: seq<Diagnostic>)
    ensures |results| == |claims|
    ensures forall k :: 0 <= k < |claims| ==> results[k] == SubscriberNotice(claims[k].claimId)
  {
    results := [];
    for i := 0 to |claims|
      invariant |results| == i
      invariant forall k :: 0 <= k < i ==> results[k] == SubscriberNotice(claims[k].claimId)
    {
      results := results + [SubscriberNotice(claims[i].claimId)];
    }
  }

  // ---------------------------------------------------------------------
  // An independent statement of the six rules

  /** The claim meets all six Kentucky Medicaid rules. */
  predicate PassesRules(c: Claim) {
    && (c.transactionTypeCode == "CH" || c.transactionTypeCode == "RP")
    && c.claimFilingIndicatorCode == "MC"
    && c.entityTypeQualifier == "1"
    && c.providerAcceptAssignmentCode == "A"
    && c.benefitsAssignmentCertIndicator == "Y"
    && c.releaseInfoCode == "Y"
  }

  function FieldIf(failed: bool, name: string): seq<Option<string>> {
    if failed then [Some(name)] else []
  }

  /** The field names of the failed rules, in rule order. */
  function FailedFields(c: Claim): seq<Option<string>> {
    FieldIf(!(c.transactionTypeCode == "CH" || c.transactionTypeCode == "RP"), "transaction_type_code") +
    FieldIf(c.claimFilingIndicatorCode != "MC", "claim_filing_indicator_code") +
    FieldIf(c.entityTypeQualifier != "1", "entity_type_qualifier") +
    FieldIf(c.providerAcceptAssignmentCode != "A", "provider_accept_assignment_code") +
    FieldIf(c.benefitsAssignmentCertIndicator != "Y", "benefits_assignment_cert_indicator") +
    FieldIf(c.releaseInfoCode != "Y", "release_info_code")
  }

  predicate AllAt(ds: seq<Diagnostic>, l: Level) {
    forall k :: 0 <= k < |ds| ==> ds[k].level == l
  }

  /** The field of every diagnostic of level `l`, in order. */
  function FieldsAt(ds: seq<Diagnostic>, l: Level): seq<Option<string>> {
    if |ds| == 0 then []
    else (if ds[0].level == l then [ds[0].field] else []) + FieldsAt(ds[1..], l)
  }

  function NonHcLines(lines: seq<ServiceLine>): nat {
    if |lines| == 0 then 0
    else NonHcLines(lines[..|lines| - 1]) + (if lines[|lines| - 1].procedureCodeQualifier != "HC" then 1 else 0)
  }

  /** The passing claims, filtered front to back. */
  function PassingClaims(claims: seq<Claim>): seq<Claim> {
    if |claims| == 0 then []
    else (if PassesRules(claims[0]) then [claims[0]] else []) + PassingClaims(claims[1..])
  }

  // ---------------------------------------------------------------------
  // Lemmas about one claim

  lemma {:induction false} LineWarningsAreWarnings(claimId: string, lines: seq<ServiceLine>)
    ensures forall k :: 0 <= k < |LineWarnings(claimId, lines)| ==> LineWarnings(claimId, lines)[k].level == Warning
  {
    if |lines| > 0 {
      LineWarningsAreWarnings(claimId, lines[..|lines| - 1]);
    }
  }

  lemma {:induction false} LineWarningsCount(claimId: string, lines: seq<ServiceLine>)
    ensures CountLevel(LineWarnings(claimId, lines), Warning) == NonHcLines(lines)
  {
    if |lines| > 0 {
      var init := lines[..|lines| - 1];
      var last := lines[|lines| - 1];
      LineWarningsCount(claimId, init);
      var tail := if last.procedureCodeQualifier != "HC" then [QualifierWarning(claimId, last)] else [];
      assert LineWarnings(claimId, lines) == LineWarnings(claimId, init) + tail;
      CountLevelConcat(LineWarnings(claimId, init), tail, Warning);
      SingleCount(tail, Warning);
    }
  }

  lemma SingleCount(e: seq<Diagnostic>, l: Level)
    requires |e| <= 1 && (|e| == 1 ==> e[0].level == l)
    ensures CountLevel(e, l) == |e|
  {
    if |e| == 1 {
      assert e[1..] == [];
    }
  }

  /** There is one field per diagnostic of the level. */
  lemma {:induction false} FieldsAtLength(ds: seq<Diagnostic>, l: Level)
    ensures |FieldsAt(ds, l)| == CountLevel(ds, l)
  {
    if |ds| > 0 {
      FieldsAtLength(ds[1..], l);
    }
  }

  lemma {:induction false} LineWarningsFields(claimId: string, lines: seq<ServiceLine>)
    ensures FieldsAt(LineWarnings(claimId, lines), Error) == []
  {
    LineWarningsAreWarnings(claimId, lines);
    NoLevelNoFields(LineWarnings(claimId, lines), Error);
  }

  lemma {:induction false} NoLevelNoFields(ds: seq<Diagnostic>, l: Level)
    requires forall k :: 0 <= k < |ds| ==> ds[k].level != l
    ensures FieldsAt(ds, l) == []
  {
    if |ds| > 0 {
      NoLevelNoFields(ds[1..], l);
    }
  }

  lemma {:induction false} FieldsAtConcat(a: seq<Diagnostic>, b: seq<Diagnostic>, l: Level)
    ensures FieldsAt(a + b, l) == FieldsAt(a, l) + FieldsAt(b, l)
  {
    if |a| > 0 {
      assert (a + b)[1..] == a[1..] + b;
      FieldsAtConcat(a[1..], b, l);
    } else {
      assert a + b == b;
    }
  }

  /** The six rule results of a claim, one variable each. */
  lemma {:induction false} RuleParts(c: Claim) returns (r1: seq<Diagnostic>, r2: seq<Diagnostic>, r3: seq<Diagnostic>,
                                     r4: seq<Diagnostic>, r5: seq<Diagnostic>, r6: seq<Diagnostic>)
    ensures RuleErrors(c) == r1 + r2 + r3 + r4 + r5 + r6
    ensures AllAt(r1, Error) && AllAt(r2, Error) && AllAt(r3, Error)
    ensures AllAt(r4, Error) && AllAt(r5, Error) && AllAt(r6, Error)
    ensures FieldsAt(r1, Error) == FieldIf(!(c.transactionTypeCode == "CH" || c.transactionTypeCode == "RP"), "transaction_type_code")
    ensures FieldsAt(r2, Error) == FieldIf(c.claimFilingIndicatorCode != "MC", "claim_filing_indicator_code")
    ensures FieldsAt(r3, Error) == FieldIf(c.entityTypeQualifier != "1", "entity_type_qualifier")
    ensures FieldsAt(r4, Error) == FieldIf(c.providerAcceptAssignmentCode != "A", "provider_accept_assignment_code")
    ensures FieldsAt(r5, Error) == FieldIf(c.benefitsAssignmentCertIndicator != "Y", "benefits_assignment_cert_indicator")
    ensures FieldsAt(r6, Error) == FieldIf(c.releaseInfoCode != "Y", "release_info_code")
    ensures CountLevel(r1, Error) == |r1| <= 1 && CountLevel(r2, Error) == |r2| <= 1
    ensures CountLevel(r3, Error) == |r3| <= 1 && CountLevel(r4, Error) == |r4| <= 1
    ensures CountLevel(r5, Error) == |r5| <= 1 && CountLevel(r6, Error) == |r6| <= 1
  {
    r1 := Rule(c.transactionTypeCode !in AcceptedTransactionTypes, TransactionTypeError(c));
    r2 := Rule(c.claimFilingIndicatorCode != "MC", FilingIndicatorError(c));
    r3 := Rule(c.entityTypeQualifier != "1", EntityQualifierError(c));
    r4 := Rule(c.providerAcceptAssignmentCode != "A", AcceptAssignmentError(c));
    r5 := Rule(c.benefitsAssignmentCertIndicator != "Y", BenefitsCertError(c));
    r6 := Rule(c.releaseInfoCode != "Y", ReleaseInfoError(c));
    AcceptedTypes(c.transactionTypeCode);
    RuleShape(c.transactionTypeCode !in AcceptedTransactionTypes, TransactionTypeError(c), "transaction_type_code");
    RuleShape(c.claimFilingIndicatorCode != "MC", FilingIndicatorError(c), "claim_filing_indicator_code");
    RuleShape(c.entityTypeQualifier != "1", EntityQualifierError(c), "entity_type_qualifier");
    RuleShape(c.providerAcceptAssignmentCode != "A", AcceptAssignmentError(c), "provider_accept_assignment_code");
    RuleShape(c.benefitsAssignmentCertIndicator != "Y", BenefitsCertError(c), "benefits_assignment_cert_indicator");
    RuleShape(c.releaseInfoCode != "Y", ReleaseInfoError(c), "release_info_code");
  }

  lemma AcceptedTypes(code: string)
    ensures code in AcceptedTransactionTypes <==> code == "CH" || code == "RP"
  {
  }

  /** Every rule diagnostic is an ERROR, and there is one per failed rule,
      carrying that rule's field name. */
  lemma RuleErrorsShape(c: Claim)
    ensures AllAt(RuleErrors(c), Error)
    ensures FieldsAt(RuleErrors(c), Error) == FailedFields(c)
    ensures CountLevel(RuleErrors(c), Error) == |FailedFields(c)| <= 6
  {
    var r1, r2, r3, r4, r5, r6 := RuleParts(c);
    var a2, a3, a4, a5 := r1 + r2, r1 + r2 + r3, r1 + r2 + r3 + r4, r1 + r2 + r3 + r4 + r5;
    ShapeConcat(r1, r2);
    ShapeConcat(a2, r3);
    ShapeConcat(a3, r4);
    ShapeConcat(a4, r5);
    ShapeConcat(a5, r6);
    FieldsAtLength(RuleErrors(c), Error);
  }

  /** A claim has no rule ERROR exactly when it passes all six rules. */
  lemma RuleErrorsEmpty(c: Claim)
    ensures |RuleErrors(c)| == 0 <==> PassesRules(c)
  {
  }

  lemma RuleShape(failed: bool, d: Diagnostic, name: string)
    requires d.level == Error && d.field == Some(name)
    ensures AllAt(Rule(failed, d), Error)
    ensures CountLevel(Rule(failed, d), Error) == |Rule(failed, d)| <= 1
    ensures FieldsAt(Rule(failed, d), Error) == FieldIf(failed, name)
  {
    if failed {
      assert [d][1..] == [];
    }
  }

  lemma AppendAssoc(a: seq<Diagnostic>, b: seq<Diagnostic>, c: seq<Diagnostic>)
    ensures (a + b) + c == a + (b + c)
  {
  }

  lemma ShapeConcat(a: seq<Diagnostic>, b: seq<Diagnostic>)
    ensures AllAt(a, Error) && AllAt(b, Error) ==> AllAt(a + b, Error)
    ensures FieldsAt(a + b, Error) == FieldsAt(a, Error) + FieldsAt(b, Error)
    ensures CountLevel(a + b, Error) == CountLevel(a, Error) + CountLevel(b, Error)
  {
    FieldsAtConcat(a, b, Error);
    CountLevelConcat(a, b, Error);
  }

  // ---------------------------------------------------------------------
  // What one claim's diagnostics say

  lemma {:induction false} HasErrorCount(ds: seq<Diagnostic>)
    ensures HasError(ds) <==> CountLevel(ds, Error) > 0
  {
    if |ds| > 0 {
      HasErrorCount(ds[1..]);
      if HasError(ds) && ds[0].level != Error {
        var k :| 0 <= k < |ds| && ds[k].level == Error;
        assert ds[1..][k - 1].level == Error;
      }
      if HasError(ds[1..]) {
        var k :| 0 <= k < |ds[1..]| && ds[1..][k].level == Error;
        assert ds[k + 1].level == Error;
      }
    }
  }

  lemma FixedNoticesCounts(claimId: string)
    ensures CountLevel(FixedNotices(claimId), Error) == 0
    ensures CountLevel(FixedNotices(claimId), Warning) == 1
    ensures CountLevel(FixedNotices(claimId), Info) == 2
    ensures FieldsAt(FixedNotices(claimId), Error) == []
  {
    var f := FixedNotices(claimId);
    var d0, d1, d2 := f[0], f[1], f[2];
    assert f == [d0] + ([d1] + [d2]);
    forall l: Level
      ensures CountLevel(f, l) == CountLevel([d0], l) + CountLevel([d1], l) + CountLevel([d2], l)
    {
      CountLevelConcat([d0], [d1] + [d2], l);
      CountLevelConcat([d1], [d2], l);
    }
    FieldsAtConcat([d0], [d1] + [d2], Error);
    FieldsAtConcat([d1], [d2], Error);
    assert [d0][1..] == [] && [d1][1..] == [] && [d2][1..] == [];
  }

  lemma RuleErrorsLevels(c: Claim)
    ensures CountLevel(RuleErrors(c), Warning) == 0
    ensures CountLevel(RuleErrors(c), Info) == 0
  {
    RuleErrorsShape(c);
    CountLevelNone(RuleErrors(c), Warning);
    CountLevelNone(RuleErrors(c), Info);
  }

  lemma LineWarningsLevels(claimId: string, lines: seq<ServiceLine>)
    ensures CountLevel(LineWarnings(claimId, lines), Error) == 0
    ensures CountLevel(LineWarnings(claimId, lines), Info) == 0
  {
    LineWarningsAreWarnings(claimId, lines);
    CountLevelNone(LineWarnings(claimId, lines), Error);
    CountLevelNone(LineWarnings(claimId, lines), Info);
  }

  /** A claim's diagnostics: one ERROR per failed rule, one WARNING per
      non-HC service line plus the fixed HCPCS one, and the two INFO
      notices. */
  lemma ClaimCounts(c: Claim)
    ensures CountLevel(ClaimDiagnostics(c), Error) == |FailedFields(c)| <= 6
    ensures CountLevel(ClaimDiagnostics(c), Warning) == NonHcLines(c.serviceLines) + 1
    ensures CountLevel(ClaimDiagnostics(c), Info) == 2
  {
    var r, w, f := RuleErrors(c), LineWarnings(c.claimId, c.serviceLines), FixedNotices(c.claimId);
    RuleErrorsShape(c);
    RuleErrorsLevels(c);
    LineWarningsLevels(c.claimId, c.serviceLines);
    LineWarningsCount(c.claimId, c.serviceLines);
    FixedNoticesCounts(c.claimId);
    CountLevelConcat(r, w, Error);
    CountLevelConcat(r + w, f, Error);
    CountLevelConcat(r, w, Warning);
    CountLevelConcat(r + w, f, Warning);
    CountLevelConcat(r, w, Info);
    CountLevelConcat(r + w, f, Info);
  }

  /** The ERRORs of a claim name exactly the fields of its failed rules,
      in rule order. */
  lemma ClaimErrorFields(c: Claim)
    ensures FieldsAt(ClaimDiagnostics(c), Error) == FailedFields(c)
  {
    var r, w, f := RuleErrors(c), LineWarnings(c.claimId, c.serviceLines), FixedNotices(c.claimId);
    RuleErrorsShape(c);
    LineWarningsFields(c.claimId, c.serviceLines);
    FixedNoticesCounts(c.claimId);
    FieldsAtConcat(r, w, Error);
    FieldsAtConcat(r + w, f, Error);
  }

  /** The code keeps a claim exactly when it passes all six rules: the
      WARNINGs and INFOs never reject a claim. */
  lemma KeepIffPasses(c: Claim)
    ensures !HasError(ClaimDiagnostics(c)) <==> PassesRules(c)
  {
    ClaimCounts(c);
    HasErrorCount(ClaimDiagnostics(c));
    FailedFieldsEmpty(c);
  }

  lemma FailedFieldsEmpty(c: Claim)
    ensures |FailedFields(c)| == 0 <==> PassesRules(c)
  {
  }

  // ---------------------------------------------------------------------
  // What the whole pass says

  lemma {:induction false} PassingClaimsSnoc(claims: seq<Claim>, x: Claim)
    ensures PassingClaims(claims + [x]) == PassingClaims(claims) + (if PassesRules(x) then [x] else [])
  {
    if |claims| == 0 {
      assert claims + [x] == [x];
      assert [x][1..] == [];
    } else {
      assert (claims + [x])[1..] == claims[1..] + [x];
      PassingClaimsSnoc(claims[1..], x);
    }
  }

  /** The kept claims are the passing ones, in input order. */
  lemma {:induction false} KeptArePassing(claims: seq<Claim>)
    ensures KeptClaims(claims) == PassingClaims(claims)
  {
    if |claims| > 0 {
      var init, last := claims[..|claims| - 1], claims[|claims| - 1];
      assert init + [last] == claims;
      var rejected := HasError(ClaimDiagnostics(last));
      assert KeptClaims(claims) == KeptClaims(init) + (if rejected then [] else [last]);
      KeptArePassing(init);
      KeepIffPasses(last);
      assert rejected == !PassesRules(last);
      PassingClaimsSnoc(init, last);
    }
  }

  lemma {:induction false} PassingIsSubsequence(claims: seq<Claim>)
    ensures IsSubsequence(PassingClaims(claims), claims)
    ensures forall x :: x in PassingClaims(claims) <==> x in claims && PassesRules(x)
  {
    if |claims| > 0 {
      var head, rest := claims[0], claims[1..];
      PassingIsSubsequence(rest);
      assert claims == [head] + rest;
      var p := PassingClaims(claims);
      if PassesRules(head) {
        assert p == [head] + PassingClaims(rest);
        assert p[1..] == PassingClaims(rest);
      } else {
        assert p == PassingClaims(rest);
      }
      forall x
        ensures x in p <==> x in claims && PassesRules(x)
      {
        assert x in claims <==> x == head || x in rest;
      }
    }
  }

  /** validate_claims keeps, in input order, exactly the claims that pass
      all six rules. */
  lemma ValidClaimsCharacterized(claims: seq<Claim>)
    ensures IsSubsequence(KeptClaims(claims), claims)
    ensures forall x :: x in KeptClaims(claims) <==> x in claims && PassesRules(x)
  {
    KeptArePassing(claims);
    PassingIsSubsequence(claims);
  }

  lemma {:induction false} CountLevelAll(ds: seq<Diagnostic>, l: Level)
    requires AllAt(ds, l)
    ensures CountLevel(ds, l) == |ds|
  {
    if |ds| > 0 {
      CountLevelAll(ds[1..], l);
    }
  }

  /** Every claim contributes exactly two INFO notices to validation_results. */
  lemma {:induction false} AllDiagnosticsInfo(claims: seq<Claim>)
    ensures CountLevel(AllDiagnostics(claims), Info) == 2 * |claims|
  {
    if |claims| > 0 {
      var init, last := claims[..|claims| - 1], claims[|claims| - 1];
      AllDiagnosticsInfo(init);
      ClaimCounts(last);
      CountLevelConcat(AllDiagnostics(init), ClaimDiagnostics(last), Info);
    }
  }

  /** The run's log (validate_claims' results extended by the subscriber
      notices for the kept claims) holds two INFOs per input claim and one
      per kept claim, and the subscriber pass adds no ERROR. */
  lemma LogCounts(claims: seq<Claim>, notices: seq<Diagnostic>)
    requires |notices| == |KeptClaims(claims)|
    requires forall k :: 0 <= k < |notices| ==> notices[k] == SubscriberNotice(KeptClaims(claims)[k].claimId)
    ensures CountLevel(AllDiagnostics(claims) + notices, Info) == 2 * |claims| + |KeptClaims(claims)|
    ensures CountLevel(AllDiagnostics(claims) + notices, Error) == CountLevel(AllDiagnostics(claims), Error)
  {
    assert AllAt(notices, Info);
    AllDiagnosticsInfo(claims);
    CountLevelAll(notices, Info);
    CountLevelNone(notices, Error);
    CountLevelConcat(AllDiagnostics(claims), notices, Info);
    CountLevelConcat(AllDiagnostics(claims), notices, Error);
  }
}
