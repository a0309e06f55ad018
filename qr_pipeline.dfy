/**
 * The QR stage of Aadhaar verification: the detector cascade that locates a QR payload
 * (pyzbar on the original image, pyzbar on the grayscale image, then four OpenCV attempts),
 * the parsing of the payload as Aadhaar XML or by regular expressions, and the cross-check
 * of the parsed number and name against the user's profile.
 *
 * Every function takes the audit list as it stands before the call (`prior`) and returns the
 * list as it stands afterwards; the list only ever grows.
 */
module QrPipeline {
  import opened Wrappers
  import opened PyStr
  import opened Patterns
  import opened VerificationTypes

  /** A payload is accepted only when it is longer than this many characters. */
  const MinPayloadLength: nat := 50

  /** The least name similarity that passes. */
  const NameThreshold: real := 0.65

  const QrConfidence: real := 95.0

  /** The payload of a decoded symbol that `_parse_qr_objects` accepts, if it does. */
  function Accepted(sym: Symbol): (r: Option<string>)
    ensures r.Some? <==> sym.symbolType == "QRCODE" && sym.data.Some? && |sym.data.value| > MinPayloadLength
    ensures r.Some? ==> r == sym.data
  {
    if sym.symbolType == "QRCODE" && sym.data.Some? && |sym.data.value| > MinPayloadLength then sym.data else None
  }

  /** The payload of the first accepted symbol of `symbols`, if any is accepted. */
  function FirstAccepted(symbols: seq<Symbol>): (r: Option<string>)
    ensures r.Some? ==>
              exists k :: 0 <= k < |symbols| && Accepted(symbols[k]) == r
                          && forall j :: 0 <= j < k ==> Accepted(symbols[j]).None?
    ensures r.None? <==> forall k :: 0 <= k < |symbols| ==> Accepted(symbols[k]).None?
    decreases |symbols|
  {
    if symbols == [] then None
    else
      assert forall k :: 1 <= k < |symbols| ==> symbols[k] == symbols[1..][k - 1];
      if Accepted(symbols[0]).Some? then Accepted(symbols[0]) else FirstAccepted(symbols[1..])
  }

  /** `_parse_qr_objects`: the payload of the first accepted symbol; symbols whose data cannot be decoded are logged and skipped. */
  function ParseQrObjects(prior: seq<Step>, symbols: seq<Symbol>): (r: Traced<Option<string>>)
    ensures prior <= r.trail
    ensures r.value == FirstAccepted(symbols)
    decreases |symbols|
  {
    if symbols == [] then Traced(None, prior)
    else
      var sym := symbols[0];
      var rest := symbols[1..];
      if sym.symbolType != "QRCODE" then ParseQrObjects(prior, rest)
      else match sym.data
        case None => ParseQrObjects(prior + [QrDataExtractionError], rest)
        case Some(d) =>
          if |d| > MinPayloadLength then Traced(Some(d), prior + [QrDataExtracted(|d|)])
          else ParseQrObjects(prior, rest)
  }

  /** The payload one pyzbar decoding yields: nothing when it raised, otherwise its first accepted symbol's. */
  function DecodedPayload(d: Decoding): Option<string> {
    if d.Decoded? then FirstAccepted(d.symbols) else None
  }

  /**
   * One pyzbar attempt of the cascade: nothing when it raises (logged as `error`) or decodes
   * no symbol, otherwise the parsed payload, logged as a success of `variant`.
   */
  function PyzbarAttempt(prior: seq<Step>, decoding: Decoding, variant: string, error: Step): (r: Traced<Option<string>>)
    ensures prior <= r.trail
    ensures r.value == DecodedPayload(decoding)
    ensures r.value.Some? ==> |r.value.value| > MinPayloadLength
  {
    match decoding
    case DecodeRaised => Traced(None, prior + [error])
    case Decoded(symbols) =>
      if symbols == [] then Traced(None, prior)
      else
        var p := ParseQrObjects(prior, symbols);
        if p.value.Some? then Traced(p.value, p.trail + [PyzbarSuccess(variant)]) else p
  }

  /** The pyzbar part of the cascade: the original image, then the grayscale image if that found nothing. */
  function PyzbarPayload(prior: seq<Step>, scan: Scan): (r: Traced<Option<string>>)
    ensures prior <= r.trail
    ensures r.value == if DecodedPayload(scan.pyzbarDirect).Some? then DecodedPayload(scan.pyzbarDirect)
                       else DecodedPayload(scan.pyzbarGrayscale)
    ensures r.value.Some? ==> |r.value.value| > MinPayloadLength
  {
    var direct := PyzbarAttempt(prior, scan.pyzbarDirect, "direct_image", PyzbarError);
    if direct.value.Some? then direct
    else PyzbarAttempt(direct.trail, scan.pyzbarGrayscale, "grayscale_image", PyzbarGrayscaleError)
  }

  /** The OpenCV attempts in the order `_extract_qr_with_opencv` makes them, with the name it logs for each. */
  function DetectorAttempts(run: DetectorRun): seq<(string, Detection)> {
    [("opencv_qr_detector_direct", run.direct),
     ("opencv_qr_detector_grayscale", run.grayscale),
     ("opencv_qr_detector_enhanced", run.enhanced),
     ("opencv_qr_detector_upscaled", run.upscaled)]
  }

  /** A detection the OpenCV stage accepts: non-empty text longer than the minimum. */
  predicate Detects(d: Detection) {
    d.Detected? && |d.data| > MinPayloadLength
  }

  /** Every attempt before the `k`-th returned text that was not accepted. */
  predicate RejectedBefore(attempts: seq<(string, Detection)>, k: int)
    requires k <= |attempts|
  {
    forall j :: 0 <= j < k ==> attempts[j].1.Detected? && !Detects(attempts[j].1)
  }

  /**
   * The text the OpenCV attempts yield: that of the first accepted attempt, unless an attempt
   * raises before it.
   */
  function FirstDetection(attempts: seq<(string, Detection)>): (r: Option<string>)
    ensures r.Some? ==>
              exists k :: 0 <= k < |attempts| && attempts[k].1 == Detected(r.value) && Detects(attempts[k].1)
                          && RejectedBefore(attempts, k)
    ensures forall k :: 0 <= k < |attempts| && Detects(attempts[k].1) && RejectedBefore(attempts, k) ==>
              r == Some(attempts[k].1.data)
    ensures forall k :: 0 <= k < |attempts| && attempts[k].1.DetectRaised? && RejectedBefore(attempts, k) ==> r.None?
    ensures (forall k :: 0 <= k < |attempts| ==> !Detects(attempts[k].1)) ==> r.None?
    decreases |attempts|
  {
    if attempts == [] then None
    else
      var rest := attempts[1..];
      assert forall k :: 1 <= k < |attempts| ==> attempts[k] == rest[k - 1];
      assert forall k :: 1 <= k <= |attempts| ==> (RejectedBefore(attempts, k) <==> RejectedBefore(attempts, 1) && RejectedBefore(rest, k - 1));
      match attempts[0].1
      case DetectRaised => None
      case Detected(d) => if |d| > MinPayloadLength then Some(d) else FirstDetection(rest)
  }

  /**
   * The remaining OpenCV attempts: the first accepted text wins; an attempt that raises ends
   * the stage with nothing; when none is accepted, `no_qr_found` is logged.
   */
  function DetectFrom(prior: seq<Step>, attempts: seq<(string, Detection)>): (r: Traced<Option<string>>)
    ensures prior <= r.trail
    ensures r.value == FirstDetection(attempts)
    decreases |attempts|
  {
    if attempts == [] then Traced(None, prior + [OpencvNoQrFound])
    else
      var rest := attempts[1..];
      match attempts[0].1
      case DetectRaised => Traced(None, prior + [OpencvError])
      case Detected(d) =>
        if |d| > MinPayloadLength then Traced(Some(d), prior + [OpencvSuccess(attempts[0].0)])
        else DetectFrom(prior, rest)
  }

  /** `_extract_qr_with_opencv`. */
  function OpencvPayload(prior: seq<Step>, run: DetectorRun): (r: Traced<Option<string>>)
    ensures prior <= r.trail
    ensures r.value == FirstDetection(DetectorAttempts(run))
    ensures r.value.Some? ==> |r.value.value| > MinPayloadLength
  {
    DetectFrom(prior, DetectorAttempts(run))
  }

  /** The whole cascade of `_extract_and_verify_aadhaar_qr`, up to the point where a payload is known or not. */
  function LocatePayload(prior: seq<Step>, scan: Scan): (r: Traced<Option<string>>)
    ensures prior <= r.trail
    ensures r.value == if scan.pyzbarInstalled && DecodedPayload(scan.pyzbarDirect).Some? then DecodedPayload(scan.pyzbarDirect)
                       else if scan.pyzbarInstalled && DecodedPayload(scan.pyzbarGrayscale).Some? then DecodedPayload(scan.pyzbarGrayscale)
                       else FirstDetection(DetectorAttempts(scan.detector))
    ensures r.value.Some? ==> |r.value.value| > MinPayloadLength
  {
    var z := if scan.pyzbarInstalled then PyzbarPayload(prior + [TryingPyzbar], scan)
             else Traced(None, prior + [PyzbarNotAvailable]);
    if z.value.Some? then z
    else OpencvPayload(z.trail + [TryingOpencvDetector], scan.detector)
  }

  /** The fields `_parse_aadhaar_qr` extracts; `address` is present only on the XML path. */
  datatype ParsedQr = ParsedQr(aadhaarNumber: string, name: string, dob: string, gender: string,
                               address: Option<string>, fromXml: bool)

  /** `root.get(key, '')`. */
  function Attr(attrs: map<string, string>, key: string): string {
    if key in attrs then attrs[key] else ""
  }

  /**
   * `_parse_aadhaar_qr`: the attributes of the XML root when the payload parses, otherwise
   * the four case-insensitive regular expressions, each giving `""` when it does not match.
   */
  function ParseAadhaarQr(payload: string, parseXml: string -> Option<map<string, string>>): (r: ParsedQr)
    ensures r.fromXml <==> parseXml(payload).Some?
    ensures r.fromXml ==> r.aadhaarNumber == Attr(parseXml(payload).value, "uid")
                          && r.name == Attr(parseXml(payload).value, "name")
                          && r.address == Some(Attr(parseXml(payload).value, "co") + ", " + Attr(parseXml(payload).value, "loc"))
    ensures !r.fromXml ==> r.address.None?
                           && (r.aadhaarNumber == "" || (|r.aadhaarNumber| == 12 && forall k :: 0 <= k < 12 ==> IsDigit(r.aadhaarNumber[k])))
                           && '"' !in r.name && '"' !in r.dob && '"' !in r.gender
    ensures !r.fromXml ==> r.aadhaarNumber == SearchUid(payload).GetOr("")
                           && r.name == SearchQuoted(payload, "name").GetOr("")
                           && r.dob == SearchQuoted(payload, "dob").GetOr("")
                           && r.gender == SearchQuoted(payload, "gender").GetOr("")
    ensures !r.fromXml ==> (r.aadhaarNumber == "" <==> forall p :: 0 <= p <= |payload| ==> UidAt(payload, p).None?)
  {
    match parseXml(payload)
    case Some(attrs) =>
      ParsedQr(Attr(attrs, "uid"), Attr(attrs, "name"), Attr(attrs, "dob"), Attr(attrs, "gender"),
               Some(Attr(attrs, "co") + ", " + Attr(attrs, "loc")), true)
    case None =>
      ParsedQr(SearchUid(payload).GetOr(""), SearchQuoted(payload, "name").GetOr(""),
               SearchQuoted(payload, "dob").GetOr(""), SearchQuoted(payload, "gender").GetOr(""),
               None, false)
  }

  /** What the QR stage hands back: `{}` (go on to OCR) or a finished result. */
  datatype QrOutcome = Fallback | Decided(verdict: Verdict)

  /** The result when the QR number differs from the profile's. */
  function NumberMismatch(trail: seq<Step>): Verdict {
    NotVerified().(reason := Some("Aadhaar number mismatch"), securityAlert := Some(true), auditTrail := Some(trail))
  }

  /** The result when the names are not similar enough. */
  function NameMismatch(trail: seq<Step>): Verdict {
    NotVerified().(reason := Some("Name mismatch"), securityAlert := Some(true), auditTrail := Some(trail))
  }

  /** The result when both checks pass. */
  function QrVerified(trail: seq<Step>): Verdict {
    Verdict(true, Some(QrConfidence), None, NoError, None, Some("QR_CODE_VALIDATION"),
            ["aadhaar_number", "name"], None, None, None, None, Some(trail))
  }

  /** The name similarity as the agent computes it: on the lower-cased, stripped names. */
  function NameScore(similarity: (string, string) -> real, userName: string, documentName: string): real {
    similarity(Strip(Lower(userName)), Strip(Lower(documentName)))
  }

  /** The name check, once the numbers are known to match. */
  function NameCheck(prior: seq<Step>, documentName: string, similarity: (string, string) -> real, userName: string): (r: Traced<QrOutcome>)
    ensures prior <= r.trail
    ensures r.value.Decided? && r.value.verdict.auditTrail == Some(r.trail)
  {
    var passed := prior + [AadhaarVerificationPassed];
    var score := NameScore(similarity, userName, documentName);
    var checking := passed + [NameVerificationChecking(userName, documentName)];
    if score < NameThreshold then
      var failed := checking + [NameVerificationFailed];
      Traced(Decided(NameMismatch(failed)), failed)
    else
      var passed := checking + [NameVerificationPassed];
      Traced(Decided(QrVerified(passed)), passed)
  }

  /** The security checks on a parsed payload: the number first, then the name. */
  function CrossCheck(prior: seq<Step>, parsed: ParsedQr, similarity: (string, string) -> real,
                      userAadhaar: string, userName: string): (r: Traced<QrOutcome>)
    ensures prior <= r.trail
    ensures r.value.Decided? ==> r.value.verdict.auditTrail == Some(r.trail)
  {
    if parsed.aadhaarNumber == "" then Traced(Fallback, prior + [QrParsingFailed])
    else
      var parsedStep := prior + [QrParsingSuccess(LastChars(parsed.aadhaarNumber, 4), parsed.name)];
      if parsed.aadhaarNumber != userAadhaar then
        var failed := parsedStep + [AadhaarVerificationFailed(LastChars(userAadhaar, 4), LastChars(parsed.aadhaarNumber, 4))];
        Traced(Decided(NumberMismatch(failed)), failed)
      else
        NameCheck(parsedStep, parsed.name, similarity, userName)
  }

  /** `_extract_and_verify_aadhaar_qr`. */
  function QrStage(prior: seq<Step>, scan: Scan, libs: Libraries, userAadhaar: string, userName: string): (r: Traced<QrOutcome>)
    ensures prior + [QrExtractionAttempt] <= r.trail
    ensures r.value.Decided? ==> r.value.verdict.auditTrail == Some(r.trail)
  {
    var located := LocatePayload(prior + [QrExtractionAttempt], scan);
    match located.value
    case None => Traced(Fallback, located.trail + [QrExtractionFailed])
    case Some(payload) =>
      CrossCheck(located.trail + [QrExtractionSuccess(|payload|)], ParseAadhaarQr(payload, libs.parseXml),
                 libs.similarity, userAadhaar, userName)
  }

  /** The direct pyzbar decoding found an accepted symbol. */
  predicate DirectHit(scan: Scan) {
    scan.pyzbarInstalled && scan.pyzbarDirect.Decoded?
    && exists k :: 0 <= k < |scan.pyzbarDirect.symbols| && Accepted(scan.pyzbarDirect.symbols[k]).Some?
  }

  /**
   * Once pyzbar finds a payload in the original image, neither the grayscale decoding nor
   * any OpenCV attempt is made: what they would give changes neither the payload nor the
   * audit list.
   */
  lemma DirectHitSkipsLaterMethods(prior: seq<Step>, scan: Scan, grayscale: Decoding, detector: DetectorRun)
    requires DirectHit(scan)
    ensures LocatePayload(prior, scan.(pyzbarGrayscale := grayscale, detector := detector)) == LocatePayload(prior, scan)
    ensures LocatePayload(prior, scan).value.Some?
  {
    var symbols := scan.pyzbarDirect.symbols;
    var p := ParseQrObjects(prior + [TryingPyzbar], symbols);
    assert p.value.Some?;
  }

  /** Once any pyzbar decoding finds a payload, no OpenCV attempt is made. */
  lemma PyzbarHitSkipsDetector(prior: seq<Step>, scan: Scan, detector: DetectorRun)
    requires scan.pyzbarInstalled && PyzbarPayload(prior + [TryingPyzbar], scan).value.Some?
    ensures LocatePayload(prior, scan.(detector := detector)) == LocatePayload(prior, scan)
  {
  }

  /** An OpenCV attempt that is accepted ends the stage: the later attempts do not matter. */
  lemma DetectorHitSkipsLaterAttempts(prior: seq<Step>, attempts: seq<(string, Detection)>, k: nat, later: seq<(string, Detection)>)
    requires k < |attempts| && Detects(attempts[k].1)
    requires forall j :: 0 <= j < k ==> attempts[j].1.Detected? && !Detects(attempts[j].1)
    ensures DetectFrom(prior, attempts[..k + 1] + later) == DetectFrom(prior, attempts)
    ensures DetectFrom(prior, attempts).value == Some(attempts[k].1.data)
  {
    if k == 0 {
      assert (attempts[..1] + later)[0] == attempts[0];
    } else {
      var xs := attempts[..k + 1] + later;
      assert xs[0] == attempts[0];
      assert xs[1..] == attempts[1..][..k] + later;
      DetectorHitSkipsLaterAttempts(prior, attempts[1..], k - 1, later);
    }
  }

  /** A pyzbar decoding that yields an accepted symbol. */
  predicate PyzbarFinds(d: Decoding) {
    d.Decoded? && exists k :: 0 <= k < |d.symbols| && Accepted(d.symbols[k]).Some?
  }

  /**
   * When no method of the cascade yields an accepted payload, the QR stage gives back `{}`
   * (OCR fallback) after logging `failed_all_methods`.
   */
  lemma AllMethodsFailFallsBack(prior: seq<Step>, scan: Scan, libs: Libraries, userAadhaar: string, userName: string)
    requires !PyzbarFinds(scan.pyzbarDirect) && !PyzbarFinds(scan.pyzbarGrayscale)
    requires forall k :: 0 <= k < 4 ==> !Detects(DetectorAttempts(scan.detector)[k].1)
    ensures QrStage(prior, scan, libs, userAadhaar, userName).value == Fallback
    ensures QrStage(prior, scan, libs, userAadhaar, userName).trail[|QrStage(prior, scan, libs, userAadhaar, userName).trail| - 1] == QrExtractionFailed
  {
    var t0 := prior + [QrExtractionAttempt];
    if scan.pyzbarInstalled {
      var d := PyzbarAttempt(t0 + [TryingPyzbar], scan.pyzbarDirect, "direct_image", PyzbarError);
      assert d.value.None?;
      var g := PyzbarAttempt(d.trail, scan.pyzbarGrayscale, "grayscale_image", PyzbarGrayscaleError);
      assert g.value.None?;
    }
    assert LocatePayload(t0, scan).value.None?;
  }

  /**
   * The outcome of the security checks: `{}` exactly when no number was parsed; a result
   * otherwise, verified exactly when the numbers are equal and the names similar enough,
   * raising a security alert whenever it is not verified, and carrying the audit list.
   */
  lemma CrossCheckOutcome(prior: seq<Step>, parsed: ParsedQr, similarity: (string, string) -> real,
                          userAadhaar: string, userName: string)
    ensures var r := CrossCheck(prior, parsed, similarity, userAadhaar, userName);
            && (r.value == Fallback <==> parsed.aadhaarNumber == "")
            && (r.value.Decided? ==>
                  && r.value.verdict.auditTrail == Some(r.trail)
                  && (r.value.verdict.verified <==>
                        parsed.aadhaarNumber == userAadhaar && NameScore(similarity, userName, parsed.name) >= NameThreshold)
                  && (!r.value.verdict.verified ==> r.value.verdict.securityAlert == Some(true))
                  && (r.value.verdict.verified ==>
                        r.value.verdict.confidence == Some(QrConfidence)
                        && r.value.verdict.matchedFields == ["aadhaar_number", "name"]))
  {
  }

  /**
   * A number that differs from the profile's is rejected as a mismatch before any name is
   * compared: exactly two steps are logged, and the similarity function is not consulted.
   */
  lemma NumberMismatchSkipsNameCheck(prior: seq<Step>, parsed: ParsedQr, similarity: (string, string) -> real,
                                     other: (string, string) -> real, userAadhaar: string, userName: string)
    requires parsed.aadhaarNumber != "" && parsed.aadhaarNumber != userAadhaar
    ensures var r := CrossCheck(prior, parsed, similarity, userAadhaar, userName);
            && r == CrossCheck(prior, parsed, other, userAadhaar, userName)
            && r.value == Decided(NumberMismatch(r.trail))
            && |r.trail| == |prior| + 2
            && r.trail[|r.trail| - 1].AadhaarVerificationFailed?
  {
  }

  /**
   * With a similarity that rates equal strings 1.0 (as `SequenceMatcher.ratio` does), a QR
   * card whose number matches the profile and whose name equals the profile name up to
   * case and surrounding whitespace is verified.
   */
  lemma EqualNamesPass(prior: seq<Step>, parsed: ParsedQr, similarity: (string, string) -> real,
                       userAadhaar: string, userName: string)
    requires forall x :: similarity(x, x) == 1.0
    requires parsed.aadhaarNumber != "" && parsed.aadhaarNumber == userAadhaar
    requires Strip(Lower(userName)) == Strip(Lower(parsed.name))
    ensures CrossCheck(prior, parsed, similarity, userAadhaar, userName).value.Decided?
    ensures CrossCheck(prior, parsed, similarity, userAadhaar, userName).value.verdict.verified
  {
    assert NameScore(similarity, userName, parsed.name) == 1.0;
  }

  /**
   * The QR stage decides only when the cascade located a payload and a number was parsed
   * from it; in every other case it falls back to OCR.
   */
  lemma QrStageDecidesOnlyOnParsedNumber(prior: seq<Step>, scan: Scan, libs: Libraries, userAadhaar: string, userName: string)
    ensures var located := LocatePayload(prior + [QrExtractionAttempt], scan);
            QrStage(prior, scan, libs, userAadhaar, userName).value.Decided? <==>
              located.value.Some? && ParseAadhaarQr(located.value.value, libs.parseXml).aadhaarNumber != ""
  {
    var located := LocatePayload(prior + [QrExtractionAttempt], scan);
    if located.value.Some? {
      var payload := located.value.value;
      CrossCheckOutcome(located.trail + [QrExtractionSuccess(|payload|)], ParseAadhaarQr(payload, libs.parseXml),
                        libs.similarity, userAadhaar, userName);
    }
  }

  /** The QR stage reads nothing of the OCR inputs: whether Pillow opens the image, and what Tesseract reads. */
  lemma QrStageIgnoresOcrInputs(prior: seq<Step>, scan: Scan, libs: Libraries, userAadhaar: string, userName: string,
                                pillowReadable: bool, recognize: string -> Recognition)
    ensures QrStage(prior, scan.(pillowReadable := pillowReadable, recognize := recognize), libs, userAadhaar, userName)
            == QrStage(prior, scan, libs, userAadhaar, userName)
  {
    var other := scan.(pillowReadable := pillowReadable, recognize := recognize);
    assert LocatePayload(prior + [QrExtractionAttempt], other) == LocatePayload(prior + [QrExtractionAttempt], scan);
  }

  /** The QR stage verifies only when the number parsed from the located payload equals the profile number. */
  lemma QrVerifiedMeansNumberMatches(prior: seq<Step>, scan: Scan, libs: Libraries, userAadhaar: string, userName: string)
    ensures var r := QrStage(prior, scan, libs, userAadhaar, userName).value;
            var located := LocatePayload(prior + [QrExtractionAttempt], scan);
            r.Decided? && r.verdict.verified ==>
              located.value.Some? && ParseAadhaarQr(located.value.value, libs.parseXml).aadhaarNumber == userAadhaar
  {
    var located := LocatePayload(prior + [QrExtractionAttempt], scan);
    if located.value.Some? {
      var payload := located.value.value;
      CrossCheckOutcome(located.trail + [QrExtractionSuccess(|payload|)], ParseAadhaarQr(payload, libs.parseXml),
                        libs.similarity, userAadhaar, userName);
    }
  }
}
