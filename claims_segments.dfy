/**
 * The X12 837I document the encoder writes for one batch, as a sequence
 * of segments. A segment is its tag and its elements; its text is the tag
 * followed by `*` and each element, and every segment the code writes is
 * ended by `~` and a line break, except the final IEA, which has no line
 * break. Composite elements (`ABK:code`, `HC:proc`) are single elements
 * holding the `:` the code writes.
 */
module ClaimsSegments {
  import opened Text
  import opened ClaimsModel
  import opened ClaimsFormat

  const SenderId: string := "KYSUBMITTER"
  const ReceiverId: string := "KYMEDICAID"
  const IsaControlVersion: string := "00501"
  const GsVersion: string := "005010X223A2"
  /** The SE01 placeholder written before the count is known. */
  const CountPlaceholder: string := "[COUNT]"

  /** A segment: its tag and elements, or an HL segment, kept with its
      numeric hierarchical id and parent id (none at the top level), or a
      segment with one date element (DMG, DTP), kept with the raw column
      values the element is formatted from. */
  datatype Segment =
    | Segment(tag: string, elements: seq<string>)
    | Hl(id: nat, parent: Option<nat>, levelCode: string, childCode: string)
    | Dated(tag: string, lead: seq<string>, dates: seq<Option<string>>, trail: seq<string>)

  function Tag(s: Segment): string {
    match s
    case Segment(tag, _) => tag
    case Hl(_, _, _, _) => "HL"
    case Dated(tag, _, _, _) => tag
  }

  /** The element texts; HL01 and HL02 are the decimal ids. */
  function ElementsOf(s: Segment): seq<string> {
    match s
    case Segment(_, elements) => elements
    case Hl(id, parent, levelCode, childCode) =>
      [NatToString(id), if parent.Some? then NatToString(parent.value) else "", levelCode, childCode]
    case Dated(_, lead, dates, trail) => lead + [FormatDates(dates)] + trail
  }

  /** A date element: one formatted date (D8), or a range of them joined
      by '-' (RD8). */
  function FormatDates(dates: seq<Option<string>>): string {
    if |dates| == 0 then ""
    else if |dates| == 1 then FormatDate(dates[0])
    else FormatDate(dates[0]) + "-" + FormatDates(dates[1..])
  }

  /** The per-batch values the code writes into the envelope: the control
      numbers and the `now_date` / `now_time` strings. */
  datatype Envelope = Envelope(numbers: ControlNumbers, date: string, time: string)

  /** The envelope of one batch, from its draws and clock reading. */
  function EnvelopeOf(d: BatchDraws): Envelope
    requires ValidDraws(d)
  {
    Envelope(GenerateControlNumbers(d.isaDraw, d.gsDraw, d.stDraw), ClockDate(d.now), ClockTime(d.now))
  }

  /** The envelopes of a run of batches, one per draw, in order. */
  function Envelopes(draws: seq<BatchDraws>): (envs: seq<Envelope>)
    requires forall k :: 0 <= k < |draws| ==> ValidDraws(draws[k])
    ensures |envs| == |draws|
    ensures forall k :: 0 <= k < |draws| ==> envs[k] == EnvelopeOf(draws[k])
  {
    seq(|draws|, k requires 0 <= k < |draws| => EnvelopeOf(draws[k]))
  }

  /** ISA13 and GS06 are 9 digits and ST02 is 4, each the value drawn; the
      date and time are the clock's 8 and 4 digits. */
  lemma EnvelopeOfShape(d: BatchDraws)
    requires ValidDraws(d)
    ensures var env := EnvelopeOf(d);
            && EnvelopeDigits(env)
            && |env.numbers.isa| == 9 && |env.numbers.gs| == 9 && |env.numbers.st| == 4
            && DecimalValue(env.numbers.isa) == d.isaDraw && DecimalValue(env.numbers.gs) == d.gsDraw
            && DecimalValue(env.numbers.st) == d.stDraw
            && |env.date| == 8 && ParseCompactDate(env.date) == Some(d.now.date)
            && |env.time| == 4 && AllDigits(env.time[..2]) && AllDigits(env.time[2..])
            && DecimalValue(env.time[..2]) == d.now.hour && DecimalValue(env.time[2..]) == d.now.minute
  {
    ClockDateReadsBack(d.now);
    ClockTimeValues(d.now);
  }

  // ---------------------------------------------------------------------
  // Text of segments

  function Elements(es: seq<string>): string {
    if |es| == 0 then "" else "*" + es[0] + Elements(es[1..])
  }

  function Render(s: Segment): string {
    Tag(s) + Elements(ElementsOf(s))
  }

  /** A segment as written in the body: terminator and line break. */
  function Line(s: Segment): string {
    Render(s) + "~\n"
  }

  function Lines(segs: seq<Segment>): string {
    if |segs| == 0 then "" else Line(segs[0]) + Lines(segs[1..])
  }

  lemma {:induction false} LinesConcat(a: seq<Segment>, b: seq<Segment>)
    ensures Lines(a + b) == Lines(a) + Lines(b)
  {
    if |a| == 0 {
      assert a + b == b;
    } else {
      assert (a + b)[1..] == a[1..] + b;
      LinesConcat(a[1..], b);
    }
  }

  /** `s.ljust(w)`. */
  function LeftJustify(s: string, w: nat): (r: string)
    ensures |r| == if |s| < w then w else |s|
    ensures r[..|s|] == s
  {
    if |s| < w then s + Repeat(' ', w - |s|) else s
  }

  // ---------------------------------------------------------------------
  // Envelope and header (one per batch)

  function IsaSegment(env: Envelope): Segment {
    Segment("ISA", ["00", "          ", "00", "          ",
                    "ZZ", LeftJustify(SenderId, 15), "ZZ", LeftJustify(ReceiverId, 15),
                    env.date, env.time, "^", IsaControlVersion, env.numbers.isa, "0", "P", ":"])
  }

  function GsSegment(env: Envelope): Segment {
    Segment("GS", ["HC", SenderId, ReceiverId, env.date, env.time, env.numbers.gs, "X", GsVersion])
  }

  function StSegment(env: Envelope): Segment {
    Segment("ST", ["837", env.numbers.st, GsVersion])
  }

  /** BHT takes the reference number and the transaction type of the
      batch's first claim. */
  function BhtSegment(env: Envelope, first: Claim): Segment {
    Segment("BHT", ["0019", "00", first.claimControlNumber, env.date, env.time, first.transactionTypeCode])
  }

  /** ISA, GS, ST, BHT, and the 1000A submitter and 1000B receiver loops. */
  function HeaderSegments(env: Envelope, first: Claim): seq<Segment> {
    [ IsaSegment(env), GsSegment(env), StSegment(env), BhtSegment(env, first),
      SubmitterName(), SubmitterContact(), ReceiverName() ]
  }

  function SubmitterName(): Segment {
    Segment("NM1", ["41", "2", SenderId, "", "", "", "", "46", "KYSUBMIT"])
  }

  function SubmitterContact(): Segment {
    Segment("PER", ["IC", "SUBMITTER CONTACT", "TE", "8005551234"])
  }

  function ReceiverName(): Segment {
    Segment("NM1", ["40", "2", "KYMEDICAID", "", "", "", "", "46", "KYMEDICAID"])
  }

  /** SE with the placeholder count, then GE; the IEA comes last. */
  function SeSegment(env: Envelope): Segment { Segment("SE", [CountPlaceholder, env.numbers.st]) }
  function GeSegment(env: Envelope): Segment { Segment("GE", ["1", env.numbers.gs]) }
  function IeaSegment(env: Envelope): Segment { Segment("IEA", ["1", env.numbers.isa]) }

  // ---------------------------------------------------------------------
  // One claim

  function OptText(o: Option<string>): string {
    if Truthy(o) then o.value else ""
  }

  /** NM1*85: the organisation name when there is one, else last and first
      name of the person. */
  function BillingProviderName(p: Provider): Segment {
    if Truthy(p.orgName) then
      Segment("NM1", ["85", "2", p.orgName.value, "", "", "", "", "XX", p.npi])
    else
      Segment("NM1", ["85", "1", p.lastName, p.firstName, "", "", "", "", "XX", p.npi])
  }

  /** Loop 2000A: billing provider level, name, address and taxonomy. */
  function BillingProviderLoop(c: Claim, hid: nat): seq<Segment> {
    [ Hl(hid, None, "20", "1"),
      BillingProviderName(c.provider),
      Segment("N3", [c.provider.addressLine1]),
      Segment("N4", [c.provider.city, c.provider.state, c.provider.zipCode]),
      Segment("PRV", ["BI", "PXC", c.provider.taxonomyCode]) ]
  }

  /** Loops 2000B, 2010BA and 2010BB: subscriber level, SBR, name, the
      patient's address and demographics, and the payer. */
  function SubscriberLoop(c: Claim, hid: nat): seq<Segment> {
    [ Hl(hid + 1, Some(hid), "22", "0"),
      Segment("SBR", ["P", c.subscriber.relationshipCode, OptText(c.subscriber.groupNumber),
                      "", "", "", "", c.claimFilingIndicatorCode]),
      Segment("NM1", ["IL", c.entityTypeQualifier, c.subscriber.insuredLastName, c.subscriber.insuredFirstName,
                      "", "", "", "MI", c.subscriber.insuredId]),
      Segment("N3", [c.patient.addressLine1]),
      Segment("N4", [c.patient.city, c.patient.state, c.patient.zipCode]),
      Dated("DMG", ["D8"], [c.patient.dob], [c.patient.gender]),
      Segment("NM1", ["PR", "2", "KYMEDICAID", "", "", "", "", "PI", "KYMEDICAID"]) ]
  }

  /** The ABF elements: the first eight comma-separated secondary codes,
      each stripped, in order; none when the field is empty or NULL. */
  function SecondaryCodes(codes: Option<string>): seq<string> {
    if Truthy(codes) then AbfElements(StripEach(Split(codes.value, ',')), 0) else []
  }

  function StripEach(pieces: seq<string>): (r: seq<string>)
    ensures |r| == |pieces|
    ensures forall k :: 0 <= k < |pieces| ==> r[k] == Strip(pieces[k])
  {
    if |pieces| == 0 then [] else [Strip(pieces[0])] + StripEach(pieces[1..])
  }

  /** The loop over the codes from position `i`: `ABF:` and the code while
      the position is below 8. */
  function AbfElements(codes: seq<string>, i: nat): seq<string>
    requires i <= |codes|
    decreases |codes| - i
  {
    if i == |codes| then []
    else (if i < 8 then ["ABF:" + codes[i]] else []) + AbfElements(codes, i + 1)
  }

  function HiSegment(c: Claim): Segment {
    Segment("HI", ["ABK:" + c.principalDiagnosisCode] + SecondaryCodes(c.secondaryDiagnosisCodes))
  }

  /** Loop 2300: CLM, CL1, the admission, discharge and statement dates,
      and the diagnoses. */
  function ClaimInformation(c: Claim): seq<Segment> {
    [ Segment("CLM", [c.patientControlNumber, c.claimAmount, "", "", "", "",
                      c.providerAcceptAssignmentCode, c.benefitsAssignmentCertIndicator, c.releaseInfoCode]),
      Segment("CL1", [c.placeOfServiceCode, c.claimFrequencyTypeCode, c.patientStatusCode]),
      Dated("DTP", ["435", "D8"], [c.admissionDate], []),
      Dated("DTP", ["096", "D8"], [c.dischargeDate], []),
      Dated("DTP", ["434", "RD8"], [c.statementFromDate, c.statementToDate], []),
      HiSegment(c) ]
  }

  /** Loop 2400 for one line: LX, SV2 and the service date. */
  function ServiceLineSegments(l: ServiceLine): seq<Segment> {
    [ Segment("LX", [l.lineNumber]),
      Segment("SV2", [l.revenueCode, l.procedureCodeQualifier + ":" + l.procedureCode, l.chargeAmount, "UN", l.units]),
      Dated("DTP", ["472", "D8"], [l.serviceDate], []) ]
  }

  function ServiceLinesSegments(lines: seq<ServiceLine>): seq<Segment> {
    if |lines| == 0 then []
    else ServiceLinesSegments(lines[..|lines| - 1]) + ServiceLineSegments(lines[|lines| - 1])
  }

  function ReferringSegments(c: Claim): seq<Segment> {
    if Truthy(c.referringProviderNpi) then
      [Segment("NM1", ["DN", "1", "REFERRING", "PROVIDER", "", "", "", "XX", c.referringProviderNpi.value])]
    else []
  }

  function AttendingSegments(c: Claim): seq<Segment> {
    if Truthy(c.attendingProviderNpi) then
      [ Segment("NM1", ["71", "1", "ATTENDING", "PROVIDER", "", "", "", "XX", c.attendingProviderNpi.value]),
        Segment("PRV", ["AT", "PXC", c.provider.taxonomyCode]) ]
    else []
  }

  /** Everything one claim writes, its hierarchical ids starting at `hid`. */
  function ClaimSegments(c: Claim, hid: nat): seq<Segment> {
    BillingProviderLoop(c, hid) + SubscriberLoop(c, hid) + ClaimTail(c)
  }

  /** Everything after the subscriber loop: the claim, its lines and the
      referring and attending providers. */
  function ClaimTail(c: Claim): seq<Segment> {
    ClaimInformation(c) + (ServiceLinesSegments(c.serviceLines) + (ReferringSegments(c) + AttendingSegments(c)))
  }

  /** The claims of a batch, in order, the k-th (from 0) starting at id
      2k+1. */
  function BodySegments(batch: seq<Claim>): seq<Segment> {
    BodyFrom(batch, 0)
  }

  /** Claims k, k+1, ... of the batch. */
  function BodyFrom(batch: seq<Claim>, k: nat): seq<Segment>
    requires k <= |batch|
    decreases |batch| - k
  {
    if k == |batch| then [] else ClaimSegments(batch[k], 2 * k + 1) + BodyFrom(batch, k + 1)
  }

  /** All segments before SE. */
  function PrefixSegments(batch: seq<Claim>, env: Envelope): seq<Segment>
    requires |batch| > 0
  {
    HeaderSegments(env, batch[0]) + BodySegments(batch)
  }

  /** The file as written, before the SE01 patch. */
  function RawDocument(batch: seq<Claim>, env: Envelope): string
    requires |batch| > 0
  {
    Lines(PrefixSegments(batch, env) + [SeSegment(env), GeSegment(env)]) + Render(IeaSegment(env)) + "~"
  }

  // ---------------------------------------------------------------------
  // How many segments

  function ClaimSegmentCount(c: Claim): nat {
    18 + 3 * |c.serviceLines| +
    (if Truthy(c.referringProviderNpi) then 1 else 0) +
    (if Truthy(c.attendingProviderNpi) then 2 else 0)
  }

  /** The segments claims k, k+1, ... of the batch write. */
  function CountFrom(batch: seq<Claim>, k: nat): nat
    requires k <= |batch|
    decreases |batch| - k
  {
    if k == |batch| then 0 else ClaimSegmentCount(batch[k]) + CountFrom(batch, k + 1)
  }

  lemma {:induction false} ServiceLinesCount(lines: seq<ServiceLine>)
    ensures |ServiceLinesSegments(lines)| == 3 * |lines|
  {
    if |lines| > 0 {
      ServiceLinesCount(lines[..|lines| - 1]);
    }
  }

  /** A claim writes 18 fixed segments, three per service line, one for a
      referring and two for an attending provider. */
  lemma ClaimSegmentsCount(c: Claim, hid: nat)
    ensures |ClaimSegments(c, hid)| == ClaimSegmentCount(c)
  {
    ServiceLinesCount(c.serviceLines);
  }

  lemma {:induction false} BodyFromCount(batch: seq<Claim>, k: nat)
    requires k <= |batch|
    ensures |BodyFrom(batch, k)| == CountFrom(batch, k)
    decreases |batch| - k
  {
    if k < |batch| {
      ClaimSegmentsCount(batch[k], 2 * k + 1);
      BodyFromCount(batch, k + 1);
    }
  }

  /** Seven header segments, the claims, then SE, GE and IEA: ten plus the
      claims' segments. */
  lemma DocumentSegmentCount(batch: seq<Claim>, env: Envelope)
    requires |batch| > 0
    ensures |PrefixSegments(batch, env) + [SeSegment(env), GeSegment(env), IeaSegment(env)]| ==
            10 + CountFrom(batch, 0)
  {
    BodyFromCount(batch, 0);
  }

  // ---------------------------------------------------------------------
  // Hierarchical ids

  /** (id, parent) of every HL segment, in order. */
  function HlPairs(segs: seq<Segment>): seq<(nat, Option<nat>)> {
    if |segs| == 0 then []
    else (if segs[0].Hl? then [(segs[0].id, segs[0].parent)] else []) + HlPairs(segs[1..])
  }

  /** The HL pairs claims k, k+1, ... of n are meant to have: claim j
      has (2j+1, none) and (2j+2, 2j+1). */
  function ExpectedHl(n: nat, k: nat): seq<(nat, Option<nat>)>
    requires k <= n
    decreases n - k
  {
    if k == n then [] else ClaimHl(2 * k + 1) + ExpectedHl(n, k + 1)
  }

  /** The HL pairs of the claim whose provider level has id `hid`. */
  function ClaimHl(hid: nat): seq<(nat, Option<nat>)> {
    [(hid, None), (hid + 1, Some(hid))]
  }

  lemma {:induction false} HlPairsConcat(a: seq<Segment>, b: seq<Segment>)
    ensures HlPairs(a + b) == HlPairs(a) + HlPairs(b)
  {
    if |a| == 0 {
      assert a + b == b;
    } else {
      var h := if a[0].Hl? then [(a[0].id, a[0].parent)] else [];
      assert (a + b)[0] == a[0];
      assert (a + b)[1..] == a[1..] + b;
      HlPairsConcat(a[1..], b);
      calc {
        HlPairs(a + b);
        h + HlPairs(a[1..] + b);
        h + (HlPairs(a[1..]) + HlPairs(b));
        { AssocPairs(h, HlPairs(a[1..]), HlPairs(b)); }
        HlPairs(a) + HlPairs(b);
      }
    }
  }

  lemma AssocPairs(x: seq<(nat, Option<nat>)>, y: seq<(nat, Option<nat>)>, z: seq<(nat, Option<nat>)>)
    ensures x + (y + z) == (x + y) + z
  {
  }

  lemma {:induction false} NoHl(segs: seq<Segment>)
    requires forall k :: 0 <= k < |segs| ==> !segs[k].Hl?
    ensures HlPairs(segs) == []
  {
    if |segs| > 0 {
      NoHl(segs[1..]);
    }
  }

  lemma {:induction false} ServiceLinesNoHl(lines: seq<ServiceLine>)
    ensures HlPairs(ServiceLinesSegments(lines)) == []
  {
    if |lines| > 0 {
      ServiceLinesNoHl(lines[..|lines| - 1]);
      NoHl(ServiceLineSegments(lines[|lines| - 1]));
      HlPairsConcat(ServiceLinesSegments(lines[..|lines| - 1]), ServiceLineSegments(lines[|lines| - 1]));
    }
  }

  lemma ProviderLoopHl(c: Claim, hid: nat)
    ensures HlPairs(BillingProviderLoop(c, hid)) == [(hid, None)]
  {
    var segs := BillingProviderLoop(c, hid);
    NoHl(segs[1..]);
  }

  lemma SubscriberLoopHl(c: Claim, hid: nat)
    ensures HlPairs(SubscriberLoop(c, hid)) == [(hid + 1, Some(hid))]
  {
    var segs := SubscriberLoop(c, hid);
    NoHl(segs[1..]);
  }

  lemma ClaimTailNoHl(c: Claim)
    ensures HlPairs(ClaimTail(c)) == []
  {
    var d, e, f, g := ClaimInformation(c), ServiceLinesSegments(c.serviceLines), ReferringSegments(c), AttendingSegments(c);
    NoHl(d);
    ServiceLinesNoHl(c.serviceLines);
    NoHl(f);
    NoHl(g);
    HlPairsConcat(f, g);
    HlPairsConcat(e, f + g);
    HlPairsConcat(d, e + (f + g));
    assert ClaimTail(c) == d + (e + (f + g));
  }

  lemma ThreePieces(a: seq<Segment>, b: seq<Segment>, t: seq<Segment>, hid: nat)
    requires HlPairs(a) == [(hid, None)]
    requires HlPairs(b) == [(hid + 1, Some(hid))]
    requires HlPairs(t) == []
    ensures HlPairs(a + b + t) == ClaimHl(hid)
  {
    HlPairsConcat(a, b);
    HlPairsConcat(a + b, t);
  }

  /** One claim carries exactly two HL segments: its billing provider at
      `hid` with no parent, and its subscriber at `hid + 1` under it. */
  lemma ClaimHlPairs(c: Claim, hid: nat)
    ensures HlPairs(ClaimSegments(c, hid)) == ClaimHl(hid)
  {
    ProviderLoopHl(c, hid);
    SubscriberLoopHl(c, hid);
    ClaimTailNoHl(c);
    ThreePieces(BillingProviderLoop(c, hid), SubscriberLoop(c, hid), ClaimTail(c), hid);
  }

  lemma {:induction false} BodyFromHl(batch: seq<Claim>, k: nat)
    requires k <= |batch|
    ensures HlPairs(BodyFrom(batch, k)) == ExpectedHl(|batch|, k)
    decreases |batch| - k
  {
    if k < |batch| {
      ClaimHlPairs(batch[k], 2 * k + 1);
      HlPairsConcat(ClaimSegments(batch[k], 2 * k + 1), BodyFrom(batch, k + 1));
      BodyFromHl(batch, k + 1);
    }
  }

  /** The pairs of claims k.. are (2k+1, none), (2k+2, 2k+1), ...: the
      i-th is id 2k+i+1, with no parent when i is even and the id before
      it when i is odd. */
  lemma {:induction false} ExpectedHlValues(n: nat, k: nat)
    requires k <= n
    ensures |ExpectedHl(n, k)| == 2 * (n - k)
    ensures forall i :: 0 <= i < 2 * (n - k) ==>
              ExpectedHl(n, k)[i] == (2 * k + i + 1, if i % 2 == 0 then None else Some(2 * k + i))
    decreases n - k
  {
    if k < n {
      ExpectedHlValues(n, k + 1);
      var rest := ExpectedHl(n, k + 1);
      var p := ExpectedHl(n, k);
      assert p == ClaimHl(2 * k + 1) + rest;
      forall i | 0 <= i < 2 * (n - k)
        ensures p[i] == (2 * k + i + 1, if i % 2 == 0 then None else Some(2 * k + i))
      {
        if i >= 2 {
          assert p[i] == rest[i - 2];
        }
      }
    }
  }

  /** Within a batch the claims' HL segments carry ids 1, 2, ..., in order
      (so unique and increasing), two per claim; an odd id is a billing
      provider level with no parent, an even id a subscriber level whose
      parent is the id before it. */
  lemma BodyHlPairs(batch: seq<Claim>)
    ensures |HlPairs(BodySegments(batch))| == 2 * |batch|
    ensures forall i :: 0 <= i < 2 * |batch| ==>
              HlPairs(BodySegments(batch))[i] == (i + 1, if i % 2 == 0 then None else Some(i))
  {
    BodyFromHl(batch, 0);
    ExpectedHlValues(|batch|, 0);
  }

  // ---------------------------------------------------------------------
  // The HI segment

  lemma {:induction false} AbfElementsShape(codes: seq<string>, i: nat)
    requires i <= |codes|
    ensures |AbfElements(codes, i)| == (if |codes| <= 8 then |codes| - i else if i <= 8 then 8 - i else 0)
    ensures forall k :: 0 <= k < |AbfElements(codes, i)| ==> AbfElements(codes, i)[k] == "ABF:" + codes[i + k]
    decreases |codes| - i
  {
    if i < |codes| {
      AbfElementsShape(codes, i + 1);
      var rest := AbfElements(codes, i + 1);
      var r := AbfElements(codes, i);
      if i < 8 {
        assert r == ["ABF:" + codes[i]] + rest;
        forall k | 0 <= k < |r| ensures r[k] == "ABF:" + codes[i + k] {
          if k > 0 {
            assert r[k] == rest[k - 1];
          }
        }
      } else {
        assert r == rest;
      }
    }
  }

  /** HI is `ABK:` and the principal code, then `ABF:` and each of the
      first eight stripped comma-separated secondary codes in order, and
      no ABF element when the field is empty or NULL. */
  lemma HiSegmentShape(c: Claim)
    ensures HiSegment(c).Segment? && HiSegment(c).tag == "HI"
    ensures HiSegment(c).elements[0] == "ABK:" + c.principalDiagnosisCode
    ensures !Truthy(c.secondaryDiagnosisCodes) ==> |HiSegment(c).elements| == 1
    ensures Truthy(c.secondaryDiagnosisCodes) ==>
              var pieces := Split(c.secondaryDiagnosisCodes.value, ',');
              && |HiSegment(c).elements| == 1 + (if |pieces| <= 8 then |pieces| else 8)
              && forall k :: 1 <= k < |HiSegment(c).elements| ==>
                   HiSegment(c).elements[k] == "ABF:" + Strip(pieces[k - 1])
  {
    if Truthy(c.secondaryDiagnosisCodes) {
      var pieces := Split(c.secondaryDiagnosisCodes.value, ',');
      var codes := StripEach(pieces);
      AbfElementsShape(codes, 0);
      var es := HiSegment(c).elements;
      assert es == ["ABK:" + c.principalDiagnosisCode] + AbfElements(codes, 0);
      var abf := AbfElements(codes, 0);
      forall k | 1 <= k < |es| ensures es[k] == "ABF:" + Strip(pieces[k - 1]) {
        ConsIndex("ABK:" + c.principalDiagnosisCode, abf, k);
        assert codes[k - 1] == Strip(pieces[k - 1]);
      }
    }
  }

  lemma ConsIndex<T>(x: T, a: seq<T>, k: nat)
    requires 1 <= k <= |a|
    ensures ([x] + a)[k] == a[k - 1]
  {
  }

  // ---------------------------------------------------------------------
  // Characters inside the data

  /** The two characters whose absence from the data the SE01 patch
      relies on: the segment terminator and the first character of the
      placeholder. */
  predicate Marker(ch: char) { ch == '~' || ch == '[' }

  /** What the freeness lemmas need of such a character: it sorts after
      every letter and digit, and it is not the ISA repetition separator.
      Both markers qualify. */
  predicate Foreign(ch: char) { 'Z' < ch && ch != '^' }

  lemma MarkerForeign(ch: char)
    requires Marker(ch)
    ensures Foreign(ch)
  {
  }

  /** `ch` occurs in no element of the list. */
  predicate TextsFree(es: seq<string>, ch: char) {
    forall j :: 0 <= j < |es| ==> ch !in es[j]
  }

  /** `ch` occurs in none of the texts the segment is written from: its
      tag, its text elements and its raw dates (HL ids are numbers). */
  predicate SegmentFree(s: Segment, ch: char) {
    match s
    case Segment(tag, elements) => ch !in tag && TextsFree(elements, ch)
    case Hl(_, _, levelCode, childCode) => ch !in levelCode && ch !in childCode
    case Dated(tag, lead, dates, trail) =>
      ch !in tag && TextsFree(lead, ch) && TextsFree(trail, ch) &&
      forall k :: 0 <= k < |dates| ==> OptFree(dates[k], ch)
  }

  predicate SegmentsFree(segs: seq<Segment>, ch: char) {
    forall k :: 0 <= k < |segs| ==> SegmentFree(segs[k], ch)
  }

  predicate OptFree(o: Option<string>, ch: char) {
    o.Some? ==> ch !in o.value
  }

  predicate LineFree(l: ServiceLine, ch: char) {
    && ch !in l.lineNumber && ch !in l.revenueCode && ch !in l.procedureCodeQualifier
    && ch !in l.procedureCode && ch !in l.chargeAmount && ch !in l.units && OptFree(l.serviceDate, ch)
  }

  /** `ch` occurs in none of the claim values the encoder writes. */
  predicate ClaimFree(c: Claim, ch: char) {
    && ch !in c.transactionTypeCode && ch !in c.claimFilingIndicatorCode && ch !in c.entityTypeQualifier
    && ch !in c.providerAcceptAssignmentCode && ch !in c.benefitsAssignmentCertIndicator && ch !in c.releaseInfoCode
    && ch !in c.claimControlNumber && ch !in c.patientControlNumber && ch !in c.claimAmount
    && ch !in c.placeOfServiceCode && ch !in c.claimFrequencyTypeCode && ch !in c.patientStatusCode
    && OptFree(c.admissionDate, ch) && OptFree(c.dischargeDate, ch)
    && OptFree(c.statementFromDate, ch) && OptFree(c.statementToDate, ch)
    && ch !in c.principalDiagnosisCode && OptFree(c.secondaryDiagnosisCodes, ch)
    && OptFree(c.referringProviderNpi, ch) && OptFree(c.attendingProviderNpi, ch)
    && ch !in c.patient.gender && OptFree(c.patient.dob, ch)
    && ch !in c.patient.addressLine1 && ch !in c.patient.city && ch !in c.patient.state && ch !in c.patient.zipCode
    && ch !in c.provider.npi && OptFree(c.provider.orgName, ch) && ch !in c.provider.firstName
    && ch !in c.provider.lastName && ch !in c.provider.taxonomyCode && ch !in c.provider.addressLine1
    && ch !in c.provider.city && ch !in c.provider.state && ch !in c.provider.zipCode
    && ch !in c.subscriber.insuredFirstName && ch !in c.subscriber.insuredLastName && ch !in c.subscriber.insuredId
    && ch !in c.subscriber.relationshipCode && OptFree(c.subscriber.groupNumber, ch)
    && forall k :: 0 <= k < |c.serviceLines| ==> LineFree(c.serviceLines[k], ch)
  }

  /** The envelope as the code produces it: decimal control numbers and
      the `%Y%m%d` / `%H%M` clock readings. */
  predicate EnvelopeDigits(env: Envelope) {
    && AllDigits(env.numbers.isa) && AllDigits(env.numbers.gs) && AllDigits(env.numbers.st)
    && AllDigits(env.date) && AllDigits(env.time)
  }

  lemma SegmentsFreeConcat(a: seq<Segment>, b: seq<Segment>, ch: char)
    requires SegmentsFree(a, ch) && SegmentsFree(b, ch)
    ensures SegmentsFree(a + b, ch)
  {
    forall k | 0 <= k < |a + b| ensures SegmentFree((a + b)[k], ch) {
      if k >= |a| {
        assert (a + b)[k] == b[k - |a|];
      }
    }
  }

  lemma DigitsFree(s: string, ch: char)
    requires AllDigits(s) && Foreign(ch)
    ensures ch !in s
  {
    assert !IsDigit(ch);
  }

  /** The date element holds only digits, `-` and characters of the raw
      values. */
  lemma {:induction false} FormatDatesFree(dates: seq<Option<string>>, ch: char)
    requires Foreign(ch) && forall k :: 0 <= k < |dates| ==> OptFree(dates[k], ch)
    ensures ch !in FormatDates(dates)
  {
    if |dates| > 0 {
      FormatDateFree(dates[0], ch);
      if |dates| > 1 {
        FormatDatesFree(dates[1..], ch);
      }
    }
  }

  lemma FormatDateFree(date: Option<string>, ch: char)
    requires Foreign(ch) && OptFree(date, ch)
    ensures ch !in FormatDate(date)
  {
    var r := FormatDate(date);
    if Truthy(date) && ParseIsoDate(date.value).Some? {
      DigitsFree(r, ch);
    }
  }

  /** What a free segment renders to: no `ch` in its tag or in any of its
      element texts. */
  lemma SegmentFreeElements(s: Segment, ch: char)
    requires Foreign(ch) && SegmentFree(s, ch)
    ensures ch !in Tag(s) && TextsFree(ElementsOf(s), ch)
  {
    match s
    case Segment(_, _) =>
    case Hl(id, parent, _, _) =>
      DigitsFree(NatToString(id), ch);
      if parent.Some? {
        DigitsFree(NatToString(parent.value), ch);
      }
    case Dated(_, lead, dates, trail) =>
      FormatDatesFree(dates, ch);
      var es := ElementsOf(s);
      assert es == lead + [FormatDates(dates)] + trail;
      forall j | 0 <= j < |es| ensures ch !in es[j] {
        if j < |lead| {
          assert es[j] == lead[j];
        } else if j > |lead| {
          assert es[j] == trail[j - |lead| - 1];
        }
      }
  }

  /** The pieces of a split are pieces of the text. */
  lemma {:induction false} SplitFree(s: string, sep: char, ch: char)
    requires ch !in s
    ensures TextsFree(Split(s, sep), ch)
    decreases |s|
  {
    var i := IndexOf(s, sep);
    if i < |s| {
      SplitFree(s[i + 1..], sep, ch);
      var r := Split(s, sep);
      assert r == [s[..i]] + Split(s[i + 1..], sep);
      forall j | 0 <= j < |r| ensures ch !in r[j] {
        if j > 0 {
          assert r[j] == Split(s[i + 1..], sep)[j - 1];
        }
      }
    }
  }

  lemma {:induction false} AbfFree(codes: seq<string>, i: nat, ch: char)
    requires i <= |codes| && Foreign(ch) && TextsFree(codes, ch)
    ensures TextsFree(AbfElements(codes, i), ch)
    decreases |codes| - i
  {
    if i < |codes| {
      AbfFree(codes, i + 1, ch);
      var r := AbfElements(codes, i);
      var rest := AbfElements(codes, i + 1);
      if i < 8 {
        assert r == ["ABF:" + codes[i]] + rest;
        forall j | 0 <= j < |r| ensures ch !in r[j] {
          if j > 0 {
            assert r[j] == rest[j - 1];
          }
        }
      }
    }
  }

  lemma HiFree(c: Claim, ch: char)
    requires Foreign(ch) && ClaimFree(c, ch)
    ensures SegmentFree(HiSegment(c), ch)
  {
    var codes := c.secondaryDiagnosisCodes;
    if Truthy(codes) {
      var pieces := Split(codes.value, ',');
      SplitFree(codes.value, ',', ch);
      var stripped := StripEach(pieces);
      forall j | 0 <= j < |stripped| ensures ch !in stripped[j] {
        assert stripped[j] == Strip(pieces[j]);
        assert ch !in pieces[j];
      }
      AbfFree(stripped, 0, ch);
      var es := HiSegment(c).elements;
      assert es == ["ABK:" + c.principalDiagnosisCode] + AbfElements(stripped, 0);
      forall j | 1 <= j < |es| ensures ch !in es[j] {
        ConsIndex("ABK:" + c.principalDiagnosisCode, AbfElements(stripped, 0), j);
      }
    }
  }

  lemma ProviderLoopFree(c: Claim, hid: nat, ch: char)
    requires Foreign(ch) && ClaimFree(c, ch)
    ensures SegmentsFree(BillingProviderLoop(c, hid), ch)
  {
  }

  lemma SubscriberLoopFree(c: Claim, hid: nat, ch: char)
    requires Foreign(ch) && ClaimFree(c, ch)
    ensures SegmentsFree(SubscriberLoop(c, hid), ch)
  {
  }

  lemma ClaimInformationFree(c: Claim, ch: char)
    requires Foreign(ch) && ClaimFree(c, ch)
    ensures SegmentsFree(ClaimInformation(c), ch)
  {
    HiFree(c, ch);
  }

  lemma {:induction false} ServiceLinesFree(lines: seq<ServiceLine>, ch: char)
    requires Foreign(ch) && forall k :: 0 <= k < |lines| ==> LineFree(lines[k], ch)
    ensures SegmentsFree(ServiceLinesSegments(lines), ch)
  {
    if |lines| > 0 {
      var l := lines[|lines| - 1];
      ServiceLinesFree(lines[..|lines| - 1], ch);
      SegmentsFreeConcat(ServiceLinesSegments(lines[..|lines| - 1]), ServiceLineSegments(l), ch);
    }
  }

  lemma ProvidersFree(c: Claim, ch: char)
    requires Foreign(ch) && ClaimFree(c, ch)
    ensures SegmentsFree(ReferringSegments(c) + AttendingSegments(c), ch)
  {
    SegmentsFreeConcat(ReferringSegments(c), AttendingSegments(c), ch);
  }

  /** Nothing a claim writes contains `ch` when its values do not. */
  lemma ClaimSegmentsFree(c: Claim, hid: nat, ch: char)
    requires Foreign(ch) && ClaimFree(c, ch)
    ensures SegmentsFree(ClaimSegments(c, hid), ch)
  {
    var a, b := BillingProviderLoop(c, hid), SubscriberLoop(c, hid);
    var d, e, f := ClaimInformation(c), ServiceLinesSegments(c.serviceLines), ReferringSegments(c) + AttendingSegments(c);
    ProviderLoopFree(c, hid, ch);
    SubscriberLoopFree(c, hid, ch);
    ClaimInformationFree(c, ch);
    ServiceLinesFree(c.serviceLines, ch);
    ProvidersFree(c, ch);
    SegmentsFreeConcat(e, f, ch);
    SegmentsFreeConcat(d, e + f, ch);
    SegmentsFreeConcat(a, b, ch);
    SegmentsFreeConcat(a + b, d + (e + f), ch);
  }

  lemma {:induction false} BodyFromFree(batch: seq<Claim>, k: nat, ch: char)
    requires k <= |batch| && Foreign(ch)
    requires forall j :: 0 <= j < |batch| ==> ClaimFree(batch[j], ch)
    ensures SegmentsFree(BodyFrom(batch, k), ch)
    decreases |batch| - k
  {
    if k < |batch| {
      ClaimSegmentsFree(batch[k], 2 * k + 1, ch);
      BodyFromFree(batch, k + 1, ch);
      SegmentsFreeConcat(ClaimSegments(batch[k], 2 * k + 1), BodyFrom(batch, k + 1), ch);
    }
  }

  lemma IsaFree(env: Envelope, ch: char)
    requires Foreign(ch) && EnvelopeDigits(env)
    ensures SegmentFree(IsaSegment(env), ch)
  {
    DigitsFree(env.numbers.isa, ch);
    DigitsFree(env.date, ch);
    DigitsFree(env.time, ch);
    assert LeftJustify(SenderId, 15) == SenderId + Repeat(' ', 4);
    assert LeftJustify(ReceiverId, 15) == ReceiverId + Repeat(' ', 5);
  }

  lemma SubmitterFree(ch: char)
    requires Foreign(ch)
    ensures SegmentFree(SubmitterName(), ch)
    ensures SegmentFree(SubmitterContact(), ch)
    ensures SegmentFree(ReceiverName(), ch)
  {
  }

  lemma HeaderFree(env: Envelope, first: Claim, ch: char)
    requires Foreign(ch) && EnvelopeDigits(env) && ClaimFree(first, ch)
    ensures SegmentsFree(HeaderSegments(env, first), ch)
  {
    IsaFree(env, ch);
    SubmitterFree(ch);
    DigitsFree(env.numbers.gs, ch);
    DigitsFree(env.numbers.st, ch);
    DigitsFree(env.date, ch);
    DigitsFree(env.time, ch);
    assert SegmentFree(GsSegment(env), ch);
    assert SegmentFree(StSegment(env), ch);
    assert SegmentFree(BhtSegment(env, first), ch);
  }

  /** Header and claims: none contains `ch` when no claim value does. */
  lemma PrefixFree(batch: seq<Claim>, env: Envelope, ch: char)
    requires |batch| > 0 && Foreign(ch) && EnvelopeDigits(env)
    requires forall j :: 0 <= j < |batch| ==> ClaimFree(batch[j], ch)
    ensures SegmentsFree(PrefixSegments(batch, env), ch)
  {
    HeaderFree(env, batch[0], ch);
    BodyFromFree(batch, 0, ch);
    SegmentsFreeConcat(HeaderSegments(env, batch[0]), BodySegments(batch), ch);
  }

  // ---------------------------------------------------------------------
  // What the text of free segments contains

  lemma {:induction false} ElementsNoChar(es: seq<string>, ch: char)
    requires ch != '*' && TextsFree(es, ch)
    ensures ch !in Elements(es)
  {
    if |es| > 0 {
      assert TextsFree(es[1..], ch) by {
        forall j | 0 <= j < |es[1..]| ensures ch !in es[1..][j] {
          assert es[1..][j] == es[j + 1];
        }
      }
      ElementsNoChar(es[1..], ch);
      assert ch !in es[0];
    }
  }

  /** A free segment renders to text without `ch`. */
  lemma RenderFree(s: Segment, ch: char)
    requires Foreign(ch) && SegmentFree(s, ch)
    ensures ch !in Render(s)
  {
    SegmentFreeElements(s, ch);
    ElementsNoChar(ElementsOf(s), ch);
  }

  /** Each written segment ends with exactly one terminator. */
  lemma {:induction false} LinesTerminators(segs: seq<Segment>)
    requires SegmentsFree(segs, '~')
    ensures CountChar(Lines(segs), '~') == |segs|
  {
    if |segs| > 0 {
      var r := Render(segs[0]);
      RenderFree(segs[0], '~');
      CountCharAbsent(r, '~');
      CountCharConcat(r, "~\n", '~');
      assert CountChar("~\n", '~') == 1;
      assert SegmentsFree(segs[1..], '~') by {
        forall k | 0 <= k < |segs[1..]| ensures SegmentFree(segs[1..][k], '~') {
          assert segs[1..][k] == segs[k + 1];
        }
      }
      LinesTerminators(segs[1..]);
      CountCharConcat(Line(segs[0]), Lines(segs[1..]), '~');
    }
  }

  /** A character no segment holds does not appear in their text, other
      than the terminator and the line break. */
  lemma {:induction false} LinesNoChar(segs: seq<Segment>, ch: char)
    requires Foreign(ch) && ch != '~' && SegmentsFree(segs, ch)
    ensures ch !in Lines(segs)
  {
    if |segs| > 0 {
      RenderFree(segs[0], ch);
      assert SegmentsFree(segs[1..], ch) by {
        forall k | 0 <= k < |segs[1..]| ensures SegmentFree(segs[1..][k], ch) {
          assert segs[1..][k] == segs[k + 1];
        }
      }
      LinesNoChar(segs[1..], ch);
    }
  }

  /** Written segments end with a line break. */
  lemma {:induction false} LinesEnd(segs: seq<Segment>)
    requires |segs| > 0
    ensures |Lines(segs)| >= 2 && Lines(segs)[|Lines(segs)| - 1] == '\n'
  {
    if |segs| > 1 {
      LinesEnd(segs[1..]);
    }
  }
}
