/**
 * What the document verification agent consumes and produces: the outcomes of the image,
 * QR and OCR libraries for one uploaded file, the library functions it treats as black
 * boxes, the entries of its audit list and the result dictionaries it returns.
 */
module VerificationTypes {
  import opened Wrappers

  /**
   * One entry of the agent's audit list `verification_steps`. Timestamps, exception texts
   * and the rounded similarity score are not kept.
   */
  datatype Step =
    | QrExtractionAttempt                       // QR_EXTRACTION_ATTEMPT, started
    | TryingPyzbar                              // TRYING_PYZBAR
    | PyzbarSuccess(variant: string)            // PYZBAR_SUCCESS, direct_image / grayscale_image
    | PyzbarError                               // PYZBAR_ERROR
    | PyzbarGrayscaleError                      // PYZBAR_GRAYSCALE_ERROR
    | PyzbarNotAvailable                        // PYZBAR_NOT_AVAILABLE
    | QrDataExtracted(dataLength: nat)          // QR_DATA_EXTRACTED
    | QrDataExtractionError                     // QR_DATA_EXTRACTION, error
    | TryingOpencvDetector                      // TRYING_OPENCV_DETECTOR
    | OpencvSuccess(variant: string)            // QR_EXTRACTION_OPENCV, success
    | OpencvNoQrFound                           // QR_EXTRACTION_OPENCV, no_qr_found
    | OpencvError                               // QR_EXTRACTION_OPENCV, error
    | QrExtractionFailed                        // QR_EXTRACTION, failed_all_methods
    | QrExtractionSuccess(dataLength: nat)      // QR_EXTRACTION, success
    | QrParsingFailed                           // QR_PARSING, failed
    | QrParsingSuccess(numberEnding: string, name: string)
    | AadhaarVerificationFailed(expectedEnding: string, foundEnding: string)
    | AadhaarVerificationPassed
    | NameVerificationChecking(userName: string, documentName: string)
    | NameVerificationFailed
    | NameVerificationPassed
    | MultilangOcrFallback                      // MULTILANG_OCR_FALLBACK
    | OcrAttempt(language: string, textLength: nat)
    | OcrAttemptError(language: string)
    | MockApiSetuCall(docType: string)          // MOCK_API_SETU_CALL

  /** The `error` entry of a result: absent, a fixed message, or the text of a caught exception after a prefix. */
  datatype ErrorInfo = NoError | Message(text: string) | CaughtException(prefix: string)

  /**
   * A result dictionary. `None` stands for a key the dictionary does not have; free-text
   * entries (details, warnings, suggestions, notes) and echoed data are not kept.
   */
  datatype Verdict = Verdict(
    verified: bool,
    confidence: Option<real>,
    reason: Option<string>,
    error: ErrorInfo,
    securityAlert: Option<bool>,
    verificationMethod: Option<string>,
    matchedFields: seq<string>,
    nameMatched: Option<bool>,
    keywordsMatched: Option<nat>,
    totalKeywords: Option<nat>,
    languageUsed: Option<string>,
    auditTrail: Option<seq<Step>>)

  /** `{"verified": False}`, the dictionary the other results are built from. */
  function NotVerified(): Verdict {
    Verdict(false, None, None, NoError, None, None, [], None, None, None, None, None)
  }

  /** A symbol decoded by pyzbar: its type and its payload as UTF-8 text (`None`: decoding raised). */
  datatype Symbol = Symbol(symbolType: string, data: Option<string>)

  /** The outcome of one `pyzbar.decode` call (including the image conversion before it). */
  datatype Decoding = DecodeRaised | Decoded(symbols: seq<Symbol>)

  /** The text of one `QRCodeDetector.detectAndDecode` call (`""` when nothing was found). */
  datatype Detection = DetectRaised | Detected(data: string)

  /** The four OpenCV attempts: original, grayscale, contrast-enhanced and upscaled image. */
  datatype DetectorRun = DetectorRun(direct: Detection, grayscale: Detection, enhanced: Detection, upscaled: Detection)

  /** The outcome of one `pytesseract.image_to_string` call. */
  datatype Recognition = OcrRaised | OcrText(text: string)

  /** What the image, QR and OCR libraries make of one uploaded file. */
  datatype Scan = Scan(
    cvReadable: bool,              // cv2.imread returned an image
    pyzbarInstalled: bool,         // the pyzbar import succeeded
    pyzbarDirect: Decoding,        // pyzbar on the original image
    pyzbarGrayscale: Decoding,     // pyzbar on the grayscale image
    detector: DetectorRun,         // the OpenCV detector attempts
    pillowReadable: bool,          // Image.open succeeded
    recognize: string -> Recognition)  // Tesseract, per language string

  /** Library functions the agent uses as black boxes. */
  datatype Libraries = Libraries(
    parseXml: string -> Option<map<string, string>>,  // attributes of ET.fromstring's root; None when it raises
    similarity: (string, string) -> real)             // SequenceMatcher(None, a, b).ratio()

  /** A value together with the audit list as it stands afterwards. */
  datatype Traced<T> = Traced(value: T, trail: seq<Step>)

  /** How a call that can raise ends. */
  datatype Completion = Returned(verdict: Verdict) | Raised
}
