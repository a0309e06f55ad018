/**
 * The document verification agent: whole-document verification of Aadhaar cards and caste
 * certificates, the agent object that performs it step by step on its audit list, and the
 * entry point that picks the verification for a document type.
 */
module Agent {
  import opened Wrappers
  import opened PyStr
  import opened Patterns
  import opened VerificationTypes
  import Qr = QrPipeline
  import Ocr = OcrPipeline

  /** The profile fields of the logged-in user that verification reads. */
  datatype UserProfile = UserProfile(aadhaarNumber: Option<string>, fullName: string, address: Option<string>)

  /** `verify_aadhaar_card` with a fresh audit list: QR first, the OCR fallback when the QR stage gives `{}`. */
  function AadhaarCard(scan: Scan, libs: Libraries, userAadhaar: string, userName: string): (r: Traced<Verdict>)
    ensures r.value.auditTrail == Some(r.trail)
    ensures !scan.cvReadable ==> r.value.error == Message("Unable to read image file") && r.trail == []
    ensures scan.cvReadable ==> [QrExtractionAttempt] <= r.trail
  {
    if !scan.cvReadable then
      Traced(NotVerified().(error := Message("Unable to read image file"), auditTrail := Some([])), [])
    else
      var q := Qr.QrStage([], scan, libs, userAadhaar, userName);
      match q.value
      case Decided(v) => Traced(v, q.trail)
      case Fallback =>
        var o := Ocr.OcrStage(q.trail, scan, userAadhaar, userName);
        match o.value
        case Returned(v) => Traced(v, o.trail)
        case Raised =>
          Traced(NotVerified().(error := CaughtException("Verification failed: "), auditTrail := Some(o.trail)), o.trail)
  }

  /**
   * An Aadhaar card is verified only when a number read from the document equals the profile
   * number: either the number parsed from the located QR payload, or the number OCR found
   * first in some language.
   */
  lemma AadhaarVerifiedOnlyOnMatchingNumber(scan: Scan, libs: Libraries, userAadhaar: string, userName: string)
    ensures AadhaarCard(scan, libs, userAadhaar, userName).value.verified ==>
              || (var located := Qr.LocatePayload([QrExtractionAttempt], scan);
                  located.value.Some? && Qr.ParseAadhaarQr(located.value.value, libs.parseXml).aadhaarNumber == userAadhaar)
              || (exists k :: 0 <= k < |Ocr.AadhaarLanguages|
                              && Ocr.HitIn(scan.recognize(Ocr.AadhaarLanguages[k]), userName).Some?
                              && Ocr.HitIn(scan.recognize(Ocr.AadhaarLanguages[k]), userName).value.number == userAadhaar)
  {
    var r := AadhaarCard(scan, libs, userAadhaar, userName);
    if scan.cvReadable {
      var q := Qr.QrStage([], scan, libs, userAadhaar, userName);
      if q.value.Decided? {
        assert r.value == q.value.verdict;
        assert [] + [QrExtractionAttempt] == [QrExtractionAttempt];
        Qr.QrVerifiedMeansNumberMatches([], scan, libs, userAadhaar, userName);
      } else {
        var o := Ocr.OcrStage(q.trail, scan, userAadhaar, userName);
        assert r.value.verified ==> o.value.Returned? && o.value.verdict.verified;
        Ocr.OcrVerifiedMeansNumberMatches(q.trail, scan, userAadhaar, userName);
      }
    }
  }

  /** When the QR stage decides, OCR is never consulted: what it would read changes nothing. */
  lemma QrDecisionSkipsOcr(scan: Scan, libs: Libraries, userAadhaar: string, userName: string,
                           pillowReadable: bool, recognize: string -> Recognition)
    requires scan.cvReadable && Qr.QrStage([], scan, libs, userAadhaar, userName).value.Decided?
    ensures AadhaarCard(scan.(pillowReadable := pillowReadable, recognize := recognize), libs, userAadhaar, userName)
            == AadhaarCard(scan, libs, userAadhaar, userName)
  {
    var other := scan.(pillowReadable := pillowReadable, recognize := recognize);
    var q := Qr.QrStage([], scan, libs, userAadhaar, userName);
    Qr.QrStageIgnoresOcrInputs([], scan, libs, userAadhaar, userName, pillowReadable, recognize);
    assert AadhaarCard(scan, libs, userAadhaar, userName) == Traced(q.value.verdict, q.trail);
    assert AadhaarCard(other, libs, userAadhaar, userName) == Traced(q.value.verdict, q.trail);
  }

  /** The result of the QR shortcut for caste certificates. */
  function CasteQrValidated(trail: seq<Step>): Verdict {
    Verdict(true, Some(85.0), None, NoError, None, Some("QR_VALIDATION"), [], None, None, None, None, Some(trail))
  }

  /**
   * `verify_caste_certificate` with a fresh audit list: a non-empty QR payload goes to the
   * mock registry call, which validates it when it is long enough; otherwise the keyword OCR.
   */
  function CasteCertificate(scan: Scan, userName: string, state: Option<string>): (r: Traced<Verdict>)
    ensures r.value.auditTrail == Some(r.trail)
    ensures r.trail == [] || r.trail == [MockApiSetuCall("caste_certificate")]
  {
    var qr := Ocr.CasteQrCode(scan);
    var api := if qr.Some? && qr.value != "" then Ocr.MockApiSetu([], qr.value, "caste_certificate") else Traced(false, []);
    if api.value then Traced(CasteQrValidated(api.trail), api.trail)
    else
      match Ocr.CasteOcr(api.trail, scan, userName, state)
      case Returned(v) => Traced(v, api.trail)
      case Raised => Traced(NotVerified().(error := CaughtException(""), auditTrail := Some(api.trail)), api.trail)
  }

  /**
   * A caste certificate is validated through its QR code exactly when the first QR symbol's
   * data is longer than fifty characters; it then carries confidence 85.
   */
  lemma CasteQrValidation(scan: Scan, userName: string, state: Option<string>)
    ensures var r := CasteCertificate(scan, userName, state).value;
            var qr := Ocr.CasteQrCode(scan);
            && (r.verificationMethod == Some("QR_VALIDATION") <==> qr.Some? && |qr.value| > 50)
            && (r.verificationMethod == Some("QR_VALIDATION") ==> r.verified && r.confidence == Some(85.0))
  {
  }

  /**
   * Without a QR payload longer than fifty characters, a caste certificate is judged by the
   * keyword OCR in the language of the user's state: it is verified exactly when at least
   * three keywords and a name variation occur in the lower-cased text. An image that Pillow
   * cannot open, or a Tesseract error, gives an unverified result carrying the exception.
   */
  lemma CasteOcrPath(scan: Scan, userName: string, state: Option<string>)
    requires !(Ocr.CasteQrCode(scan).Some? && |Ocr.CasteQrCode(scan).value| > 50)
    ensures var r := CasteCertificate(scan, userName, state);
            var lang := Ocr.CasteLanguage(state);
            && (!scan.pillowReadable || scan.recognize(lang).OcrRaised? ==>
                  !r.value.verified && r.value.error == CaughtException(""))
            && (scan.pillowReadable && scan.recognize(lang).OcrText? ==>
                  var text := scan.recognize(lang).text;
                  && r.value == Ocr.CasteKeywordVerdict(text, userName, lang, r.trail)
                  && r.value.languageUsed == Some(lang)
                  && (r.value.verified <==>
                        Ocr.CountContained(Lower(text), Ocr.EnglishCasteKeywords + Ocr.HindiCasteKeywords) >= 3
                        && Ocr.NameFound(Lower(text), userName)))
  {
  }

  /**
   * The state the dispatcher derives from an address: the text after the last comma, with
   * surrounding whitespace removed; none when the address is absent or empty.
   */
  function CasteState(address: Option<string>): (state: Option<string>)
    ensures state.Some? <==> address.Some? && address.value != ""
    ensures state.Some? ==>
              exists k :: 0 <= k <= |address.value| && ',' !in address.value[k..]
                          && (k == 0 || address.value[k - 1] == ',')
                          && state.value == Strip(address.value[k..])
  {
    if address.Some? && address.value != "" then
      var parts := SplitOn(address.value, ',');
      LastPartIsSuffix(address.value, ',');
      Some(Strip(parts[|parts| - 1]))
    else None
  }

  /** The agent, holding the audit list `verification_steps` of the verification in progress. */
  class DocumentVerificationAgent {
    var steps: seq<Step>
    const libs: Libraries

    constructor(libs: Libraries)
      ensures steps == [] && this.libs == libs
    {
      steps := [];
      this.libs := libs;
    }

    /** `_parse_qr_objects`. */
    method ParseQrObjects(symbols: seq<Symbol>) returns (payload: Option<string>)
      modifies this
      ensures Traced(payload, steps) == Qr.ParseQrObjects(old(steps), symbols)
    {
      var i := 0;
      while i < |symbols|
        invariant 0 <= i <= |symbols|
        invariant Qr.ParseQrObjects(old(steps), symbols) == Qr.ParseQrObjects(steps, symbols[i..])
      {
        assert symbols[i..][0] == symbols[i] && symbols[i..][1..] == symbols[i + 1..];
        var symbol := symbols[i];
        if symbol.symbolType == "QRCODE" {
          match symbol.data {
            case None =>
              steps := steps + [QrDataExtractionError];
            case Some(data) =>
              if |data| > Qr.MinPayloadLength {
                steps := steps + [QrDataExtracted(|data|)];
                return Some(data);
              }
          }
        }
        i := i + 1;
      }
      return None;
    }

    /** `_extract_qr_with_opencv`: the four detector attempts in order. */
    method ExtractQrWithOpencv(run: DetectorRun) returns (payload: Option<string>)
      modifies this
      ensures Traced(payload, steps) == Qr.OpencvPayload(old(steps), run)
    {
      var attempts := Qr.DetectorAttempts(run);
      var i := 0;
      while i < |attempts|
        invariant 0 <= i <= |attempts|
        invariant Qr.DetectFrom(old(steps), attempts) == Qr.DetectFrom(steps, attempts[i..])
      {
        assert attempts[i..][0] == attempts[i] && attempts[i..][1..] == attempts[i + 1..];
        var (variant, detection) := attempts[i];
        match detection {
          case DetectRaised =>
            steps := steps + [OpencvError];
            return None;
          case Detected(data) =>
            if |data| > Qr.MinPayloadLength {
              steps := steps + [OpencvSuccess(variant)];
              return Some(data);
            }
        }
        i := i + 1;
      }
      steps := steps + [OpencvNoQrFound];
      return None;
    }

    /** One pyzbar decoding of `_extract_and_verify_aadhaar_qr`, logged as `variant` or `error`. */
    method DecodeWithPyzbar(decoding: Decoding, variant: string, error: Step) returns (payload: Option<string>)
      modifies this
      ensures Traced(payload, steps) == Qr.PyzbarAttempt(old(steps), decoding, variant, error)
    {
      payload := None;
      match decoding
      case DecodeRaised =>
        steps := steps + [error];
      case Decoded(symbols) =>
        if symbols != [] {
          payload := ParseQrObjects(symbols);
          if payload.Some? {
            steps := steps + [PyzbarSuccess(variant)];
          }
        }
    }

    /** `_extract_and_verify_aadhaar_qr`. */
    method ExtractAndVerifyAadhaarQr(scan: Scan, userAadhaar: string, userName: string) returns (outcome: Qr.QrOutcome)
      modifies this
      ensures Traced(outcome, steps) == Qr.QrStage(old(steps), scan, libs, userAadhaar, userName)
    {
      steps := steps + [QrExtractionAttempt];
      ghost var started := steps;
      var payload: Option<string> := None;
      if scan.pyzbarInstalled {
        steps := steps + [TryingPyzbar];
        payload := DecodeWithPyzbar(scan.pyzbarDirect, "direct_image", PyzbarError);
        if payload.None? {
          payload := DecodeWithPyzbar(scan.pyzbarGrayscale, "grayscale_image", PyzbarGrayscaleError);
        }
      } else {
        steps := steps + [PyzbarNotAvailable];
      }
      assert Traced(payload, steps) == if scan.pyzbarInstalled then Qr.PyzbarPayload(started + [TryingPyzbar], scan)
                                       else Traced(None, started + [PyzbarNotAvailable]);
      if payload.None? {
        steps := steps + [TryingOpencvDetector];
        payload := ExtractQrWithOpencv(scan.detector);
      }
      assert Traced(payload, steps) == Qr.LocatePayload(started, scan);
      if payload.None? {
        steps := steps + [QrExtractionFailed];
        return Qr.Fallback;
      }
      var data := payload.value;
      steps := steps + [QrExtractionSuccess(|data|)];
      var extracted := Qr.ParseAadhaarQr(data, libs.parseXml);
      outcome := CheckExtractedIdentity(extracted, userAadhaar, userName);
    }

    /** The parsing check and the two security checks of `_extract_and_verify_aadhaar_qr`. */
    method CheckExtractedIdentity(extracted: Qr.ParsedQr, userAadhaar: string, userName: string) returns (outcome: Qr.QrOutcome)
      modifies this
      ensures Traced(outcome, steps) == Qr.CrossCheck(old(steps), extracted, libs.similarity, userAadhaar, userName)
    {
      if extracted.aadhaarNumber == "" {
        steps := steps + [QrParsingFailed];
        return Qr.Fallback;
      }
      steps := steps + [QrParsingSuccess(LastChars(extracted.aadhaarNumber, 4), extracted.name)];
      if extracted.aadhaarNumber != userAadhaar {
        steps := steps + [AadhaarVerificationFailed(LastChars(userAadhaar, 4), LastChars(extracted.aadhaarNumber, 4))];
        return Qr.Decided(Qr.NumberMismatch(steps));
      }
      steps := steps + [AadhaarVerificationPassed];
      var nameScore := libs.similarity(Strip(Lower(userName)), Strip(Lower(extracted.name)));
      steps := steps + [NameVerificationChecking(userName, extracted.name)];
      if nameScore < Qr.NameThreshold {
        steps := steps + [NameVerificationFailed];
        return Qr.Decided(Qr.NameMismatch(steps));
      }
      steps := steps + [NameVerificationPassed];
      return Qr.Decided(Qr.QrVerified(steps));
    }

    /** `_verify_aadhaar_multilang_ocr`; `Raised` when the image cannot be opened. */
    method VerifyAadhaarMultilangOcr(scan: Scan, userAadhaar: string, userName: string) returns (result: Completion)
      modifies this
      ensures Traced(result, steps) == Ocr.OcrStage(old(steps), scan, userAadhaar, userName)
    {
      steps := steps + [MultilangOcrFallback];
      if !scan.pillowReadable {
        return Raised;
      }
      var languages := Ocr.AadhaarLanguages;
      ghost var started := steps;
      ghost var hit := Ocr.HitFinder(userName);
      var found: Option<Ocr.OcrHit> := None;
      var i := 0;
      while i < |languages|
        invariant 0 <= i <= |languages|
        invariant found.None?
        invariant Ocr.ScanLanguages(started, languages, scan.recognize, hit)
                  == Ocr.ScanLanguages(steps, languages[i..], scan.recognize, hit)
      {
        assert languages[i..][0] == languages[i] && languages[i..][1..] == languages[i + 1..];
        Ocr.ScanLanguagesStep(steps, languages[i..], scan.recognize, hit);
        var lang := languages[i];
        match scan.recognize(lang) {
          case OcrRaised =>
            steps := steps + [OcrAttemptError(lang)];
          case OcrText(text) =>
            steps := steps + [OcrAttempt(lang, |text|)];
            var numbers := FirstGroupedNumber(text);
            if numbers.Some? {
              found := Some(Ocr.OcrHit(RemoveChar(numbers.value, ' '), Contains(Lower(text), Lower(userName))));
              assert found == hit(scan.recognize(lang));
              break;
            }
        }
        i := i + 1;
      }
      assert found.None? ==> languages[i..] == [];
      assert Ocr.ScanLanguages(started, languages, scan.recognize, hit) == Traced(found, steps);
      return Returned(Ocr.OcrVerdict(found, userAadhaar, steps));
    }

    /** `verify_aadhaar_card`: resets the audit list, then QR first and OCR as the fallback. */
    method VerifyAadhaarCard(scan: Scan, userAadhaar: string, userName: string) returns (result: Verdict)
      modifies this
      ensures Traced(result, steps) == AadhaarCard(scan, libs, userAadhaar, userName)
    {
      steps := [];
      if !scan.cvReadable {
        return NotVerified().(error := Message("Unable to read image file"), auditTrail := Some(steps));
      }
      var qrResult := ExtractAndVerifyAadhaarQr(scan, userAadhaar, userName);
      if qrResult.Decided? {
        return qrResult.verdict;
      }
      var ocrResult := VerifyAadhaarMultilangOcr(scan, userAadhaar, userName);
      match ocrResult
      case Returned(v) =>
        result := v;
      case Raised =>
        result := NotVerified().(error := CaughtException("Verification failed: "), auditTrail := Some(steps));
    }

    /** `_mock_api_setu_verify`. */
    method MockApiSetuVerify(payload: string, docType: string) returns (verified: bool)
      modifies this
      ensures Traced(verified, steps) == Ocr.MockApiSetu(old(steps), payload, docType)
    {
      steps := steps + [MockApiSetuCall(docType)];
      verified := |payload| > 50;
    }

    /** `verify_caste_certificate`: resets the audit list, tries the QR shortcut, then the keyword OCR. */
    method VerifyCasteCertificate(scan: Scan, userName: string, state: Option<string>) returns (result: Verdict)
      modifies this
      ensures Traced(result, steps) == CasteCertificate(scan, userName, state)
    {
      steps := [];
      var qrData := Ocr.CasteQrCode(scan);
      if qrData.Some? && qrData.value != "" {
        var apiVerified := MockApiSetuVerify(qrData.value, "caste_certificate");
        if apiVerified {
          return CasteQrValidated(steps);
        }
      }
      match Ocr.CasteOcr(steps, scan, userName, state)
      case Returned(v) =>
        result := v;
      case Raised =>
        result := NotVerified().(error := CaughtException(""), auditTrail := Some(steps));
    }
  }

  /**
   * `verify_document_with_ocr`: Aadhaar cards need an Aadhaar number in the profile; caste
   * certificates get the state from the address; income certificates and FIR copies use the
   * basic OCR; every other type is unsupported.
   */
  method VerifyDocumentWithOcr(agent: DocumentVerificationAgent, scan: Scan, documentType: string, user: UserProfile)
    returns (result: Verdict)
    modifies agent
    ensures documentType == "aadhaar" && (user.aadhaarNumber.None? || user.aadhaarNumber.value == "") ==>
              result == NotVerified().(error := Message("User Aadhaar number not registered in profile"))
              && agent.steps == old(agent.steps)
    ensures documentType == "aadhaar" && user.aadhaarNumber.Some? && user.aadhaarNumber.value != "" ==>
              Traced(result, agent.steps) == AadhaarCard(scan, agent.libs, user.aadhaarNumber.value, user.fullName)
    ensures documentType == "caste_certificate" ==>
              Traced(result, agent.steps) == CasteCertificate(scan, user.fullName, CasteState(user.address))
    ensures documentType == "income_certificate" || documentType == "fir_copy" ==>
              result == Ocr.BasicOcr(scan, documentType, user.fullName) && agent.steps == old(agent.steps)
    ensures documentType !in {"aadhaar", "caste_certificate", "income_certificate", "fir_copy"} ==>
              result == NotVerified().(error := Message("Unsupported document type: " + documentType))
              && agent.steps == old(agent.steps)
  {
    if documentType == "aadhaar" {
      if user.aadhaarNumber.None? || user.aadhaarNumber.value == "" {
        return NotVerified().(error := Message("User Aadhaar number not registered in profile"));
      }
      result := agent.VerifyAadhaarCard(scan, user.aadhaarNumber.value, user.fullName);
    } else if documentType == "caste_certificate" {
      var state := CasteState(user.address);
      result := agent.VerifyCasteCertificate(scan, user.fullName, state);
    } else if documentType in ["income_certificate", "fir_copy"] {
      result := Ocr.BasicOcr(scan, documentType, user.fullName);
    } else {
      result := NotVerified().(error := Message("Unsupported document type: " + documentType));
    }
  }
}
