/**
 * generate_837i_file: the valid claims are cut into batches, and each
 * batch is written as one 837I document: the envelope and header, the
 * loops of every claim with a hierarchical-id counter shared by the batch,
 * the SE/GE/IEA trailers with the `[COUNT]` placeholder in SE01, and
 * finally the placeholder replaced by the number of `~` in the file.
 *
 * The file is modelled as the buffer of segments the code writes, its
 * text, and the patch pass over that text. What each batch draws from
 * `random.randint` and reads from the clock is an input (`BatchDraws`);
 * the envelope written is computed from it.
 */
module ClaimsEncoder {
  import opened Text
  import opened ClaimsModel
  import opened ClaimsFormat
  import opened ClaimsSegments

  const OutputDir: string := "output_837i_files"

  /** One file written: its path and its final contents. */
  datatype OutputFile = OutputFile(path: string, content: string)

  /** `os.path.join(OUTPUT_DIR, f"837I_KY_MEDICAID_{now_date}_{batch_num+1}.txt")`. */
  function FilePath(date: string, number: nat): string {
    OutputDir + "/" + "837I_KY_MEDICAID_" + date + "_" + NatToString(number) + ".txt"
  }

  /** The batches `range(0, len(claims), batch_size)` produces; a negative
      size gives an empty range. */
  function BatchesOf(claims: seq<Claim>, batchSize: int): seq<seq<Claim>> {
    if batchSize > 0 then Batches(claims, batchSize) else []
  }

  /** The text `SE*[COUNT]` the patch looks for, and what replaces it. */
  function CountPattern(): string { "SE*" + CountPlaceholder }

  lemma PatternFacts()
    ensures |CountPattern()| == 10 && CountPattern()[3] == '['
    ensures forall j :: 0 <= j < 3 ==> CountPattern()[j] != '\n'
    ensures CountChar(CountPattern(), '~') == 0
  {
    var head: string := "SE*";
    assert CountPattern() == head + CountPlaceholder;
    assert head[0] == 'S' && head[1] == 'E' && head[2] == '*';
    assert CountPlaceholder[0] == '[';
    assert forall j :: 0 <= j < |head| ==> head[j] != '~';
    assert forall j :: 0 <= j < |CountPlaceholder| ==> CountPlaceholder[j] != '~';
    CountCharAbsent(head, '~');
    CountCharAbsent(CountPlaceholder, '~');
    CountCharConcat(head, CountPlaceholder, '~');
  }

  /** The SE segment once its count is filled in. */
  function SeCounted(env: Envelope, count: nat): Segment {
    Segment("SE", [NatToString(count), env.numbers.st])
  }

  /** The patch pass: count every `~` of the text, then replace each
      `SE*[COUNT]` by `SE*` and that count. */
  function Patch(raw: string): string {
    ReplaceAll(raw, CountPattern(), "SE*" + NatToString(CountChar(raw, '~')))
  }

  /** The final contents of the file of one batch. */
  function BatchDocument(batch: seq<Claim>, env: Envelope): string
    requires |batch| > 0
  {
    Patch(RawDocument(batch, env))
  }

  // ---------------------------------------------------------------------
  // The SE01 patch

  /** What follows the placeholder in the raw file: the rest of SE, then
      GE and IEA. */
  function TrailerText(env: Envelope): string {
    SeRest(env) + Line(GeSegment(env)) + Render(IeaSegment(env)) + "~"
  }

  /** SE after its count: SE02 and the terminator. */
  function SeRest(env: Envelope): string { "*" + env.numbers.st + "~\n" }

  lemma SeLines(env: Envelope, n: nat)
    ensures Line(SeSegment(env)) == CountPattern() + SeRest(env)
    ensures Line(SeCounted(env, n)) == ("SE*" + NatToString(n)) + SeRest(env)
  {
    assert Elements([env.numbers.st]) == "*" + env.numbers.st;
    assert Elements([CountPlaceholder, env.numbers.st]) == "*" + CountPlaceholder + ("*" + env.numbers.st);
    assert Elements([NatToString(n), env.numbers.st]) == "*" + NatToString(n) + ("*" + env.numbers.st);
  }

  /** The trailers hold three terminators and no `[`. */
  lemma TrailerFacts(env: Envelope)
    requires AllDigits(env.numbers.st) && AllDigits(env.numbers.gs) && AllDigits(env.numbers.isa)
    ensures CountChar(TrailerText(env), '~') == 3
    ensures '[' !in TrailerText(env)
  {
    TrailerTerminators(env);
    TrailerNoBracket(env);
  }

  lemma TrailerTerminators(env: Envelope)
    requires AllDigits(env.numbers.st) && AllDigits(env.numbers.gs) && AllDigits(env.numbers.isa)
    ensures CountChar(TrailerText(env), '~') == 3
  {
    var ge, iea := GeSegment(env), IeaSegment(env);
    DigitsFree(env.numbers.st, '~');
    DigitsFree(env.numbers.gs, '~');
    DigitsFree(env.numbers.isa, '~');
    RenderFree(ge, '~');
    RenderFree(iea, '~');
    var a, b, c := SeRest(env), Line(ge), Render(iea);
    CountCharAbsent(env.numbers.st, '~');
    CountCharConcat("*", env.numbers.st, '~');
    CountCharConcat("*" + env.numbers.st, "~\n", '~');
    assert CountChar("~\n", '~') == 1;
    CountCharAbsent(Render(ge), '~');
    CountCharConcat(Render(ge), "~\n", '~');
    CountCharAbsent(c, '~');
    CountCharConcat(a, b, '~');
    CountCharConcat(a + b, c, '~');
    CountCharConcat(a + b + c, "~", '~');
  }

  lemma TrailerNoBracket(env: Envelope)
    requires AllDigits(env.numbers.st) && AllDigits(env.numbers.gs) && AllDigits(env.numbers.isa)
    ensures '[' !in TrailerText(env)
  {
    DigitsFree(env.numbers.st, '[');
    DigitsFree(env.numbers.gs, '[');
    DigitsFree(env.numbers.isa, '[');
    RenderFree(GeSegment(env), '[');
    RenderFree(IeaSegment(env), '[');
  }

  lemma Regroup<T>(l: seq<T>, p: seq<T>, s: seq<T>, g: seq<T>, r: seq<T>, t: seq<T>)
    ensures ((l + ((p + s) + g)) + r) + t == l + (p + (((s + g) + r) + t))
  {
  }

  /** The raw file around the placeholder, and the file the patch means to
      produce. */
  lemma DocumentSplit(pre: seq<Segment>, env: Envelope, n: nat)
    ensures Lines(pre + [SeSegment(env), GeSegment(env)]) + Render(IeaSegment(env)) + "~"
            == Lines(pre) + (CountPattern() + TrailerText(env))
    ensures Lines(pre + [SeCounted(env, n), GeSegment(env)]) + Render(IeaSegment(env)) + "~"
            == Lines(pre) + (("SE*" + NatToString(n)) + TrailerText(env))
  {
    var ge, iea := GeSegment(env), IeaSegment(env);
    SeLines(env, n);
    assert Lines([ge]) == Line(ge);
    var se := SeSegment(env);
    assert Lines([se, ge]) == Line(se) + Line(ge) by {
      assert [se, ge][1..] == [ge];
    }
    LinesConcat(pre, [se, ge]);
    Regroup(Lines(pre), CountPattern(), SeRest(env), Line(ge), Render(iea), "~");
    var sc := SeCounted(env, n);
    assert Lines([sc, ge]) == Line(sc) + Line(ge) by {
      assert [sc, ge][1..] == [ge];
    }
    LinesConcat(pre, [sc, ge]);
    Regroup(Lines(pre), "SE*" + NatToString(n), SeRest(env), Line(ge), Render(iea), "~");
  }

  /** No `SE*[COUNT]` starts inside text that has no `[` and ends with a
      line break. */
  lemma NoEarlyPattern(l: string, rest: string)
    requires '[' !in l && |l| >= 1 && l[|l| - 1] == '\n'
    ensures forall i :: 0 <= i < |l| ==> !OccursAt(l + rest, CountPattern(), i)
  {
    var pat := CountPattern();
    PatternFacts();
    forall i | 0 <= i < |l| ensures !OccursAt(l + rest, pat, i) {
      var t := l + rest;
      if i + |pat| <= |t| {
        if i + 3 < |l| {
          assert t[i + 3] == l[i + 3] != '[' == pat[3];
          assert t[i..i + |pat|][3] != pat[3];
        } else {
          var j := |l| - 1 - i;
          assert t[i + j] == l[|l| - 1] == '\n' != pat[j];
          assert t[i..i + |pat|][j] != pat[j];
        }
      }
    }
  }

  /** The patch on text of that shape: the one placeholder is replaced and
      the rest is left alone. */
  lemma PatchText(l: string, after: string)
    requires '[' !in l && |l| >= 1 && l[|l| - 1] == '\n' && '[' !in after
    ensures Patch(l + (CountPattern() + after))
            == l + (("SE*" + NatToString(CountChar(l + (CountPattern() + after), '~'))) + after)
  {
    var pat := CountPattern();
    NoEarlyPattern(l, pat + after);
    PatternFacts();
    MissingCharNoOccurrence(after, pat, '[');
    ReplaceOnce(l, pat, after, "SE*" + NatToString(CountChar(l + (pat + after), '~')));
  }

  /** The terminators of the raw file: one per segment before SE, and
      three in the trailers. */
  lemma RawTerminators(pre: seq<Segment>, env: Envelope)
    requires SegmentsFree(pre, '~')
    requires AllDigits(env.numbers.st) && AllDigits(env.numbers.gs) && AllDigits(env.numbers.isa)
    ensures CountChar(Lines(pre) + (CountPattern() + TrailerText(env)), '~') == |pre| + 3
  {
    var l, pat, after := Lines(pre), CountPattern(), TrailerText(env);
    TrailerFacts(env);
    LinesTerminators(pre);
    CountCharConcat(l, pat + after, '~');
    CountCharConcat(pat, after, '~');
    PatternFacts();
  }

  /** The patch, on any batch whose segments hold no `~` and no `[`: SE01
      becomes the number of segments in the file, ISA to IEA, and nothing
      else changes. */
  lemma PatchCount(pre: seq<Segment>, env: Envelope)
    requires |pre| > 0 && SegmentsFree(pre, '~') && SegmentsFree(pre, '[')
    requires AllDigits(env.numbers.st) && AllDigits(env.numbers.gs) && AllDigits(env.numbers.isa)
    ensures CountChar(Lines(pre + [SeSegment(env), GeSegment(env)]) + Render(IeaSegment(env)) + "~", '~') == |pre| + 3
    ensures Patch(Lines(pre + [SeSegment(env), GeSegment(env)]) + Render(IeaSegment(env)) + "~")
            == Lines(pre + [SeCounted(env, |pre| + 3), GeSegment(env)]) + Render(IeaSegment(env)) + "~"
  {
    DocumentSplit(pre, env, |pre| + 3);
    RawTerminators(pre, env);
    TrailerFacts(env);
    LinesNoChar(pre, '[');
    LinesEnd(pre);
    PatchText(Lines(pre), TrailerText(env));
  }

  /** The segments of the file, ISA to IEA, with SE01 filled in. */
  function DocumentSegments(batch: seq<Claim>, env: Envelope, count: nat): seq<Segment>
    requires |batch| > 0
  {
    PrefixSegments(batch, env) + [SeCounted(env, count), GeSegment(env), IeaSegment(env)]
  }

  /** The segments of the transaction set, ST to SE, which X12 counts in
      SE01. */
  function TransactionSegments(batch: seq<Claim>, env: Envelope, count: nat): seq<Segment>
    requires |batch| > 0
  {
    PrefixSegments(batch, env)[2..] + [SeCounted(env, count)]
  }

  /** A batch file when no value of its claims holds `~` or `[`: every
      segment of the batch in order, SE01 set to the number of segments
      in the whole file, ISA through IEA. */
  lemma BatchDocumentShape(batch: seq<Claim>, env: Envelope)
    requires |batch| > 0 && EnvelopeDigits(env)
    requires forall j :: 0 <= j < |batch| ==> ClaimFree(batch[j], '~')
    requires forall j :: 0 <= j < |batch| ==> ClaimFree(batch[j], '[')
    ensures var count := |PrefixSegments(batch, env)| + 3;
            BatchDocument(batch, env)
            == Lines(PrefixSegments(batch, env) + [SeCounted(env, count), GeSegment(env)])
               + Render(IeaSegment(env)) + "~"
  {
    BatchFree(batch, env);
    PatchCount(PrefixSegments(batch, env), env);
  }

  /** That count is the number of segments of the file: ten, and those of
      the claims. */
  lemma DocumentCount(batch: seq<Claim>, env: Envelope, count: nat)
    requires |batch| > 0
    ensures |DocumentSegments(batch, env, count)| == |PrefixSegments(batch, env)| + 3 == 10 + CountFrom(batch, 0)
  {
    DocumentSegmentCount(batch, env);
  }

  /** A file as generate_837i_file writes it, when no claim value holds `~`
      or `[`: the batch's segments up to the last claim, then SE with the
      segment count and the drawn ST02, GE with GS06 and IEA with ISA13
      (which `EnvelopeOfShape` shows are 4, 9 and 9 digits). */
  lemma GeneratedDocument(batch: seq<Claim>, d: BatchDraws)
    requires |batch| > 0 && ValidDraws(d)
    requires forall j :: 0 <= j < |batch| ==> ClaimFree(batch[j], '~')
    requires forall j :: 0 <= j < |batch| ==> ClaimFree(batch[j], '[')
    ensures var env := EnvelopeOf(d);
            BatchDocument(batch, env)
            == Lines(PrefixSegments(batch, env)) + TrailersWritten(env, 10 + CountFrom(batch, 0))
  {
    var env := EnvelopeOf(d);
    EnvelopeOfShape(d);
    DigitsDocument(batch, env);
    PrefixCount(batch, env);
  }

  /** SE with its count, GE and IEA, as the text of the file ends. */
  function TrailersWritten(env: Envelope, count: nat): string {
    ("SE*" + NatToString(count) + "*" + env.numbers.st + "~\n")
    + ("GE*1*" + env.numbers.gs + "~\n")
    + ("IEA*1*" + env.numbers.isa + "~")
  }

  lemma DigitsDocument(batch: seq<Claim>, env: Envelope)
    requires |batch| > 0 && EnvelopeDigits(env)
    requires forall j :: 0 <= j < |batch| ==> ClaimFree(batch[j], '~')
    requires forall j :: 0 <= j < |batch| ==> ClaimFree(batch[j], '[')
    ensures BatchDocument(batch, env)
            == Lines(PrefixSegments(batch, env)) + TrailersWritten(env, |PrefixSegments(batch, env)| + 3)
  {
    var pre := PrefixSegments(batch, env);
    var count := |pre| + 3;
    assert BatchDocument(batch, env) == Lines(pre) + TrailersWritten(env, count) by {
      BatchDocumentShape(batch, env);
      DocumentSplit(pre, env, count);
      TrailerSpelled(env, count);
    }
  }

  /** The segments before SE, and the three trailers: the file's count. */
  lemma PrefixCount(batch: seq<Claim>, env: Envelope)
    requires |batch| > 0
    ensures |PrefixSegments(batch, env)| + 3 == 10 + CountFrom(batch, 0)
  {
    DocumentSegmentCount(batch, env);
  }

  lemma TrailerSpelled(env: Envelope, n: nat)
    ensures ("SE*" + NatToString(n)) + TrailerText(env) == TrailersWritten(env, n)
  {
    var st, gs, isa := env.numbers.st, env.numbers.gs, env.numbers.isa;
    assert Elements([gs]) == "*" + gs;
    assert ["1", gs][1..] == [gs];
    assert Line(GeSegment(env)) == "GE*1*" + gs + "~\n";
    assert Elements([isa]) == "*" + isa;
    assert ["1", isa][1..] == [isa];
    assert Render(IeaSegment(env)) == "IEA*1*" + isa;
    RegroupTrailer("SE*" + NatToString(n), SeRest(env), Line(GeSegment(env)), Render(IeaSegment(env)), "~");
  }

  lemma RegroupTrailer<T>(h: seq<T>, a: seq<T>, b: seq<T>, c: seq<T>, t: seq<T>)
    ensures h + (a + b + c + t) == (h + a) + b + (c + t)
  {
  }

  lemma BatchFree(batch: seq<Claim>, env: Envelope)
    requires |batch| > 0 && EnvelopeDigits(env)
    requires forall j :: 0 <= j < |batch| ==> ClaimFree(batch[j], '~')
    requires forall j :: 0 <= j < |batch| ==> ClaimFree(batch[j], '[')
    ensures SegmentsFree(PrefixSegments(batch, env), '~') && SegmentsFree(PrefixSegments(batch, env), '[')
  {
    MarkerForeign('~');
    MarkerForeign('[');
    PrefixFree(batch, env, '~');
    PrefixFree(batch, env, '[');
  }

  /** SE01 as written counts ISA, GS, GE and IEA besides the ST..SE
      segments: four more than the transaction set holds. */
  lemma CountIncludesEnvelope(batch: seq<Claim>, env: Envelope)
    requires |batch| > 0
    ensures var count := |PrefixSegments(batch, env)| + 3;
            && |TransactionSegments(batch, env, count)| == 6 + CountFrom(batch, 0)
            && count == |TransactionSegments(batch, env, count)| + 4
  {
    DocumentSegmentCount(batch, env);
  }

  // ---------------------------------------------------------------------
  // Writing, step by step

  /** The HI segment: ABK and the principal code, then the secondary
      codes when the field is set. */
  method WriteHi(c: Claim) returns (hi: Segment)
    ensures hi == HiSegment(c)
  {
    var elements := ["ABK:" + c.principalDiagnosisCode];
    if Truthy(c.secondaryDiagnosisCodes) {
      var secondaryCodes := Split(c.secondaryDiagnosisCodes.value, ',');
      var abf := WriteSecondaryCodes(secondaryCodes);
      elements := elements + abf;
    }
    hi := Segment("HI", elements);
  }

  /** `for i, code in enumerate(secondary_codes)`: `ABF:` and the stripped
      code while `i < 8`. */
  method WriteSecondaryCodes(secondaryCodes: seq<string>) returns (elements: seq<string>)
    ensures elements == AbfElements(StripEach(secondaryCodes), 0)
  {
    ghost var codes := StripEach(secondaryCodes);
    elements := [];
    for i := 0 to |secondaryCodes|
      invariant elements + AbfElements(codes, i) == AbfElements(codes, 0)
    {
      ghost var rest := AbfElements(codes, i + 1);
      if i < 8 {
        var code := Strip(secondaryCodes[i]);
        assert code == codes[i];
        assert AbfElements(codes, i) == ["ABF:" + code] + rest;
        assert (elements + ["ABF:" + code]) + rest == elements + (["ABF:" + code] + rest);
        elements := elements + ["ABF:" + code];
      } else {
        assert AbfElements(codes, i) == rest;
      }
    }
    assert elements + [] == elements;
  }

  /** Loop 2400: LX, SV2 and DTP*472 for each service line, in order. */
  method WriteServiceLines(lines: seq<ServiceLine>) returns (segs: seq<Segment>)
    ensures segs == ServiceLinesSegments(lines)
  {
    segs := [];
    for j := 0 to |lines|
      invariant segs == ServiceLinesSegments(lines[..j])
    {
      var line := lines[j];
      segs := segs + [ Segment("LX", [line.lineNumber]),
                       Segment("SV2", [line.revenueCode, line.procedureCodeQualifier + ":" + line.procedureCode,
                                       line.chargeAmount, "UN", line.units]),
                       Dated("DTP", ["472", "D8"], [line.serviceDate], []) ];
      assert lines[..j + 1][..j] == lines[..j];
    }
    assert lines[..|lines|] == lines;
  }

  /** The loops of one claim. `hierarchicalId` is the counter on entry; the
      counter on exit is two more. */
  method WriteClaim(c: Claim, hierarchicalId: nat) returns (segs: seq<Segment>, next: nat)
    ensures segs == ClaimSegments(c, hierarchicalId)
    ensures next == hierarchicalId + 2
  {
    var id := hierarchicalId;
    segs := [Hl(id, None, "20", "1")];
    var providerId := id;
    id := id + 1;
    segs := segs + [ BillingProviderName(c.provider),
                     Segment("N3", [c.provider.addressLine1]),
                     Segment("N4", [c.provider.city, c.provider.state, c.provider.zipCode]),
                     Segment("PRV", ["BI", "PXC", c.provider.taxonomyCode]) ];
    ghost var provider := segs;
    assert provider == BillingProviderLoop(c, hierarchicalId);
    segs := segs + [Hl(id, Some(providerId), "22", "0")];
    id := id + 1;
    segs := segs + [ Segment("SBR", ["P", c.subscriber.relationshipCode, OptText(c.subscriber.groupNumber),
                                     "", "", "", "", c.claimFilingIndicatorCode]),
                     Segment("NM1", ["IL", c.entityTypeQualifier, c.subscriber.insuredLastName,
                                     c.subscriber.insuredFirstName, "", "", "", "MI", c.subscriber.insuredId]),
                     Segment("N3", [c.patient.addressLine1]),
                     Segment("N4", [c.patient.city, c.patient.state, c.patient.zipCode]),
                     Dated("DMG", ["D8"], [c.patient.dob], [c.patient.gender]),
                     Segment("NM1", ["PR", "2", "KYMEDICAID", "", "", "", "", "PI", "KYMEDICAID"]) ];
    assert segs == provider + SubscriberLoop(c, hierarchicalId);
    var tail := WriteClaimTail(c);
    segs := segs + tail;
    next := id;
  }

  /** Loop 2300, the service lines, and the optional referring and
      attending provider segments. */
  method WriteClaimTail(c: Claim) returns (segs: seq<Segment>)
    ensures segs == ClaimTail(c)
  {
    var hi := WriteHi(c);
    segs := [ Segment("CLM", [c.patientControlNumber, c.claimAmount, "", "", "", "",
                              c.providerAcceptAssignmentCode, c.benefitsAssignmentCertIndicator, c.releaseInfoCode]),
              Segment("CL1", [c.placeOfServiceCode, c.claimFrequencyTypeCode, c.patientStatusCode]),
              Dated("DTP", ["435", "D8"], [c.admissionDate], []),
              Dated("DTP", ["096", "D8"], [c.dischargeDate], []),
              Dated("DTP", ["434", "RD8"], [c.statementFromDate, c.statementToDate], []),
              hi ];
    ghost var info := segs;
    var lineSegs := WriteServiceLines(c.serviceLines);
    var providers: seq<Segment> := [];
    if Truthy(c.referringProviderNpi) {
      providers := providers + [Segment("NM1", ["DN", "1", "REFERRING", "PROVIDER", "", "", "", "XX", c.referringProviderNpi.value])];
    }
    assert providers == ReferringSegments(c);
    if Truthy(c.attendingProviderNpi) {
      providers := providers + [ Segment("NM1", ["71", "1", "ATTENDING", "PROVIDER", "", "", "", "XX", c.attendingProviderNpi.value]),
                                 Segment("PRV", ["AT", "PXC", c.provider.taxonomyCode]) ];
    }
    assert providers == ReferringSegments(c) + AttendingSegments(c);
    segs := segs + (lineSegs + providers);
  }

  /** The file of one batch: header, every claim, the trailers, then the
      count patch. */
  method WriteBatch(batch: seq<Claim>, env: Envelope) returns (content: string)
    requires |batch| > 0
    ensures content == BatchDocument(batch, env)
  {
    var segs := HeaderSegments(env, batch[0]);
    var body := WriteClaims(batch);
    segs := segs + body;
    segs := segs + [SeSegment(env), GeSegment(env)];
    var raw := Lines(segs) + Render(IeaSegment(env)) + "~";
    var segmentCount := CountChar(raw, '~');
    content := ReplaceAll(raw, "SE*" + CountPlaceholder, "SE*" + NatToString(segmentCount));
  }

  /** `for claim in batch`, with the hierarchical-id counter starting at 1
      and advanced by each claim. */
  method WriteClaims(batch: seq<Claim>) returns (segs: seq<Segment>)
    ensures segs == BodySegments(batch)
  {
    segs := [];
    var hierarchicalId := 1;
    for k := 0 to |batch|
      invariant hierarchicalId == 2 * k + 1
      invariant segs + BodyFrom(batch, k) == BodySegments(batch)
    {
      var claimSegs;
      claimSegs, hierarchicalId := WriteClaim(batch[k], hierarchicalId);
      ConcatAssoc(segs, claimSegs, BodyFrom(batch, k + 1));
      segs := segs + claimSegs;
    }
    assert segs + [] == segs;
  }

  /** The file of the batch numbered `number` (from 1). */
  function BatchFile(batch: seq<Claim>, env: Envelope, number: nat): OutputFile
    requires |batch| > 0
  {
    OutputFile(FilePath(env.date, number), BatchDocument(batch, env))
  }

  /** generate_837i_file: nothing for no claims; otherwise one file per
      batch, numbered from 1, each written with the envelope of its batch's
      draws. */
  method Generate837IFile(claims: seq<Claim>, batchSize: int, draws: seq<BatchDraws>) returns (files: seq<OutputFile>)
    requires |claims| == 0 || batchSize != 0
    requires |draws| >= |BatchesOf(claims, batchSize)|
    requires forall k :: 0 <= k < |draws| ==> ValidDraws(draws[k])
    ensures |claims| == 0 ==> files == []
    ensures |files| == |BatchesOf(claims, batchSize)|
    ensures forall k :: 0 <= k < |files| ==>
              && |BatchesOf(claims, batchSize)[k]| > 0
              && files[k] == OutputFile(FilePath(Envelopes(draws)[k].date, k + 1),
                                        BatchDocument(BatchesOf(claims, batchSize)[k], Envelopes(draws)[k]))
  {
    if |claims| == 0 {
      return [];
    }
    var batches := if batchSize > 0 then Batches(claims, batchSize) else [];
    if batchSize > 0 {
      BatchesSizes(claims, batchSize);
    }
    files := WriteFiles(batches, draws);
  }

  /** `for batch_num, batch in enumerate(batches)`: the batch's control
      numbers and clock reading, then its file, in order. */
  method WriteFiles(batches: seq<seq<Claim>>, draws: seq<BatchDraws>) returns (files: seq<OutputFile>)
    requires |draws| >= |batches|
    requires forall k :: 0 <= k < |draws| ==> ValidDraws(draws[k])
    requires forall k :: 0 <= k < |batches| ==> |batches[k]| > 0
    ensures |files| == |batches|
    ensures forall k :: 0 <= k < |batches| ==> files[k] == BatchFile(batches[k], Envelopes(draws)[k], k + 1)
  {
    ghost var envs := Envelopes(draws);
    files := [];
    for batchNum := 0 to |batches|
      invariant |files| == batchNum
      invariant forall k :: 0 <= k < batchNum ==> files[k] == BatchFile(batches[k], envs[k], k + 1)
    {
      var d := draws[batchNum];
      var numbers := GenerateControlNumbers(d.isaDraw, d.gsDraw, d.stDraw);
      var nowDate, nowTime := ClockDate(d.now), ClockTime(d.now);
      var env := Envelope(numbers, nowDate, nowTime);
      assert env == envs[batchNum];
      var filePath := FilePath(nowDate, batchNum + 1);
      var content := WriteBatch(batches[batchNum], env);
      FilesStep(files, OutputFile(filePath, content), batches, envs, batchNum);
      files := files + [OutputFile(filePath, content)];
    }
  }

  /** The files so far, and one more. */
  lemma FilesStep(prev: seq<OutputFile>, file: OutputFile, batches: seq<seq<Claim>>, envs: seq<Envelope>, n: nat)
    requires |prev| == n < |batches| <= |envs|
    requires forall k :: 0 <= k < |batches| ==> |batches[k]| > 0
    requires forall k :: 0 <= k < n ==> prev[k] == BatchFile(batches[k], envs[k], k + 1)
    requires file == BatchFile(batches[n], envs[n], n + 1)
    ensures forall k :: 0 <= k < n + 1 ==> (prev + [file])[k] == BatchFile(batches[k], envs[k], k + 1)
  {
  }
}
