/**
 * The OCR paths of the verification agent: the multilingual Aadhaar fallback, the keyword
 * check of caste certificates (with its QR shortcut through the mock registry call) and the
 * basic keyword check of income certificates and FIR copies.
 */
module OcrPipeline {
  import opened Wrappers
  import opened PyStr
  import opened Patterns
  import opened VerificationTypes

  /** The languages the Aadhaar fallback tries, in order. */
  const AadhaarLanguages: seq<string> := ["eng+hin", "eng", "hin", "eng+tam", "eng+tel"]

  /** The language Tesseract uses when none is given. */
  const DefaultLanguage: string := "eng"

  /** What one OCR attempt of the Aadhaar fallback yields: the candidate number and whether the user's name appears. */
  datatype OcrHit = OcrHit(number: string, nameFound: bool)

  /**
   * The hit in one recognition: the first grouped twelve-digit number with its spaces
   * removed, and whether the lower-cased user name occurs in the lower-cased text.
   */
  function HitIn(rec: Recognition, userName: string): (h: Option<OcrHit>)
    ensures h.Some? <==> rec.OcrText? && FirstGroupedNumber(rec.text).Some?
    ensures h.Some? ==> h.value.number == RemoveChar(FirstGroupedNumber(rec.text).value, ' ')
                        && (h.value.nameFound <==> Contains(Lower(rec.text), Lower(userName)))
  {
    match rec
    case OcrRaised => None
    case OcrText(text) =>
      match FirstGroupedNumber(text)
      case None => None
      case Some(m) => Some(OcrHit(RemoveChar(m, ' '), Contains(Lower(text), Lower(userName))))
  }

  /** `HitIn` for a fixed user name, as the function value the language loop is given. */
  function HitFinder(userName: string): Recognition -> Option<OcrHit> {
    rec => HitIn(rec, userName)
  }

  /**
   * The language loop of `_verify_aadhaar_multilang_ocr`: each language is logged as an
   * attempt (or an error, and skipped); the first one whose text holds a number ends the loop.
   */
  function ScanLanguages(prior: seq<Step>, langs: seq<string>, recognize: string -> Recognition, hit: Recognition -> Option<OcrHit>): (r: Traced<Option<OcrHit>>)
    ensures prior <= r.trail
    decreases |langs|
  {
    if langs == [] then Traced(None, prior)
    else
      match recognize(langs[0])
      case OcrRaised => ScanLanguages(prior + [OcrAttemptError(langs[0])], langs[1..], recognize, hit)
      case OcrText(text) =>
        var logged := prior + [OcrAttempt(langs[0], |text|)];
        var h := hit(recognize(langs[0]));
        if h.Some? then Traced(h, logged) else ScanLanguages(logged, langs[1..], recognize, hit)
  }

  /**
   * The language loop stops at the first language whose recognition holds a number, and
   * finds nothing only when no language's does.
   */
  lemma {:induction false} ScanLanguagesFindsFirstHit(prior: seq<Step>, langs: seq<string>, recognize: string -> Recognition, hit: Recognition -> Option<OcrHit>)
    requires hit(OcrRaised).None?
    ensures var r := ScanLanguages(prior, langs, recognize, hit);
            && (r.value.Some? ==>
                  exists k :: 0 <= k < |langs| && hit(recognize(langs[k])) == r.value
                              && forall j :: 0 <= j < k ==> hit(recognize(langs[j])).None?)
            && (r.value.None? ==> forall k :: 0 <= k < |langs| ==> hit(recognize(langs[k])).None?)
    decreases |langs|
  {
    if langs != [] {
      var rest := langs[1..];
      var first := recognize(langs[0]);
      if hit(first).Some? {
        assert ScanLanguages(prior, langs, recognize, hit).value == hit(first);
      } else {
        var next := match first
          case OcrRaised => prior + [OcrAttemptError(langs[0])]
          case OcrText(text) => prior + [OcrAttempt(langs[0], |text|)];
        var r := ScanLanguages(next, rest, recognize, hit);
        assert ScanLanguages(prior, langs, recognize, hit) == r;
        ScanLanguagesFindsFirstHit(next, rest, recognize, hit);
        if r.value.Some? {
          var k :| 0 <= k < |rest| && hit(recognize(rest[k])) == r.value
                   && forall j :: 0 <= j < k ==> hit(recognize(rest[j])).None?;
          assert langs[k + 1] == rest[k];
          forall j | 0 <= j < k + 1
            ensures hit(recognize(langs[j])).None?
          {
            if j > 0 {
              assert langs[j] == rest[j - 1];
            }
          }
        } else {
          forall k | 0 <= k < |langs|
            ensures hit(recognize(langs[k])).None?
          {
            if k > 0 {
              assert langs[k] == rest[k - 1];
            }
          }
        }
      }
    }
  }

  /** One turn of the language loop. */
  lemma ScanLanguagesStep(prior: seq<Step>, langs: seq<string>, recognize: string -> Recognition, hit: Recognition -> Option<OcrHit>)
    requires langs != [] && hit(OcrRaised).None?
    ensures recognize(langs[0]).OcrRaised? ==>
              ScanLanguages(prior, langs, recognize, hit)
              == ScanLanguages(prior + [OcrAttemptError(langs[0])], langs[1..], recognize, hit)
    ensures recognize(langs[0]).OcrText? && hit(recognize(langs[0])).None? ==>
              ScanLanguages(prior, langs, recognize, hit)
              == ScanLanguages(prior + [OcrAttempt(langs[0], |recognize(langs[0]).text|)], langs[1..], recognize, hit)
    ensures hit(recognize(langs[0])).Some? ==>
              ScanLanguages(prior, langs, recognize, hit)
              == Traced(hit(recognize(langs[0])), prior + [OcrAttempt(langs[0], |recognize(langs[0]).text|)])
  {
  }

  /** The result of the Aadhaar fallback for what the language loop found. */
  function OcrVerdict(found: Option<OcrHit>, userAadhaar: string, trail: seq<Step>): (v: Verdict)
    ensures v.verificationMethod == Some("MULTILANG_OCR") && v.auditTrail == Some(trail)
    ensures v.verified <==> found.Some? && found.value.number != "" && found.value.number == userAadhaar
    ensures v.verified ==> v.confidence == Some(if found.value.nameFound then 65.0 else 50.0)
    ensures v.securityAlert == Some(true) <==>
              found.Some? && found.value.number != "" && found.value.number != userAadhaar
    ensures v.verified ==> v.reason.None? && v.securityAlert.None? && v.nameMatched == Some(found.value.nameFound)
    ensures found.Some? && found.value.number != "" && found.value.number != userAadhaar ==>
              v.reason == Some("Aadhaar number mismatch")
    ensures !(found.Some? && found.value.number != "") ==>
              v.securityAlert.None? && v.reason == Some("Unable to extract Aadhaar number from image")
  {
    var base := NotVerified().(verificationMethod := Some("MULTILANG_OCR"), auditTrail := Some(trail));
    if found.Some? && found.value.number != "" then
      if found.value.number == userAadhaar then
        base.(verified := true, confidence := Some(if found.value.nameFound then 65.0 else 50.0),
              nameMatched := Some(found.value.nameFound))
      else
        base.(reason := Some("Aadhaar number mismatch"), securityAlert := Some(true))
    else
      base.(reason := Some("Unable to extract Aadhaar number from image"))
  }

  /**
   * `_verify_aadhaar_multilang_ocr`: logs the fallback, then raises if the image cannot be
   * opened; otherwise runs the language loop and judges what it found.
   */
  function OcrStage(prior: seq<Step>, scan: Scan, userAadhaar: string, userName: string): (r: Traced<Completion>)
    ensures prior + [MultilangOcrFallback] <= r.trail
    ensures r.value.Returned? ==> r.value.verdict.auditTrail == Some(r.trail)
  {
    var started := prior + [MultilangOcrFallback];
    if !scan.pillowReadable then Traced(Raised, started)
    else
      var s := ScanLanguages(started, AadhaarLanguages, scan.recognize, HitFinder(userName));
      Traced(Returned(OcrVerdict(s.value, userAadhaar, s.trail)), s.trail)
  }

  /**
   * A number found by OCR is never empty: the first grouped match starts with a digit, and
   * removing its spaces keeps that digit.
   */
  lemma OcrNumberNonEmpty(rec: Recognition, userName: string)
    requires HitIn(rec, userName).Some?
    ensures HitIn(rec, userName).value.number != ""
  {
    GroupedNumberCandidate(rec.text);
  }

  /**
   * When some language yields a number, the fallback never reports "unable to extract": it
   * either verifies or raises a security alert.
   */
  lemma {:induction false} OcrFindsNumberDecides(prior: seq<Step>, scan: Scan, userAadhaar: string, userName: string, k: nat)
    requires scan.pillowReadable && k < |AadhaarLanguages|
    requires HitIn(scan.recognize(AadhaarLanguages[k]), userName).Some?
    ensures OcrStage(prior, scan, userAadhaar, userName).value.Returned?
    ensures var v := OcrStage(prior, scan, userAadhaar, userName).value.verdict;
            v.verified || v.securityAlert == Some(true)
  {
    var s := ScanLanguages(prior + [MultilangOcrFallback], AadhaarLanguages, scan.recognize, HitFinder(userName));
    ScanLanguagesFindsFirstHit(prior + [MultilangOcrFallback], AadhaarLanguages, scan.recognize, HitFinder(userName));
    assert s.value.Some?;
    var j :| 0 <= j < |AadhaarLanguages| && HitIn(scan.recognize(AadhaarLanguages[j]), userName) == s.value;
    OcrNumberNonEmpty(scan.recognize(AadhaarLanguages[j]), userName);
  }

  /**
   * The OCR fallback verifies only when the first number found, in some language, equals
   * the profile number.
   */
  lemma OcrVerifiedMeansNumberMatches(prior: seq<Step>, scan: Scan, userAadhaar: string, userName: string)
    ensures var r := OcrStage(prior, scan, userAadhaar, userName).value;
            r.Returned? && r.verdict.verified ==>
              exists k :: 0 <= k < |AadhaarLanguages| && HitIn(scan.recognize(AadhaarLanguages[k]), userName).Some?
                          && HitIn(scan.recognize(AadhaarLanguages[k]), userName).value.number == userAadhaar
  {
    if scan.pillowReadable {
      var hit := HitFinder(userName);
      var s := ScanLanguages(prior + [MultilangOcrFallback], AadhaarLanguages, scan.recognize, hit);
      ScanLanguagesFindsFirstHit(prior + [MultilangOcrFallback], AadhaarLanguages, scan.recognize, hit);
      if s.value.Some? {
        var k :| 0 <= k < |AadhaarLanguages| && hit(scan.recognize(AadhaarLanguages[k])) == s.value;
        assert HitIn(scan.recognize(AadhaarLanguages[k]), userName) == s.value;
      }
    }
  }

  // ---------------------------------------------------------------------------------------
  // Caste certificates

  /** The Tesseract language for each state whose script is not Devanagari. */
  const StateLanguages: map<string, string> := map[
    "tamil nadu" := "eng+tam",
    "telangana" := "eng+tel",
    "andhra pradesh" := "eng+tel",
    "karnataka" := "eng+kan",
    "kerala" := "eng+mal",
    "maharashtra" := "eng+mar",
    "gujarat" := "eng+guj",
    "punjab" := "eng+pan",
    "west bengal" := "eng+ben"]

  /** The language used when the state is absent or not listed. */
  const CasteDefaultLanguage: string := "eng+hin"

  /** The OCR language for a caste certificate: looked up by the lower-cased state. */
  function CasteLanguage(state: Option<string>): (lang: string)
    ensures state.Some? && Lower(state.value) in StateLanguages ==> lang == StateLanguages[Lower(state.value)]
    ensures (state.None? || Lower(state.value) !in StateLanguages) ==> lang == CasteDefaultLanguage
  {
    var key := if state.Some? && state.value != "" then Lower(state.value) else "";
    if key in StateLanguages then StateLanguages[key] else CasteDefaultLanguage
  }

  const EnglishCasteKeywords: seq<string> :=
    ["caste", "certificate", "scheduled caste", "scheduled tribe", "sc", "st", "government"]

  /** "jati", "praman", "anusuchit" and "sarkar" in Devanagari. */
  const HindiCasteKeywords: seq<string> := [
    "जाति",
    "प्रमाण",
    "अनुसूचित",
    "सरकार"]

  /** The number of keywords that occur in `text` (`sum(1 for kw in keywords if kw in text)`). */
  function CountContained(text: string, keywords: seq<string>): (n: nat)
    ensures n <= |keywords|
    decreases |keywords|
  {
    if keywords == [] then 0
    else
      var last := |keywords| - 1;
      CountContained(text, keywords[..last]) + (if Contains(text, keywords[last]) then 1 else 0)
  }

  /** The positions of the keywords that occur in `text`. */
  function MatchedIndices(text: string, keywords: seq<string>): set<nat> {
    set i: nat | i < |keywords| && Contains(text, keywords[i])
  }

  /** The count is the number of keyword positions whose keyword occurs in the text. */
  lemma {:induction false} CountContainedIsMatchCount(text: string, keywords: seq<string>)
    ensures CountContained(text, keywords) == |MatchedIndices(text, keywords)|
    decreases |keywords|
  {
    if keywords != [] {
      var last := |keywords| - 1;
      var init := keywords[..last];
      CountContainedIsMatchCount(text, init);
      assert forall i :: 0 <= i < last ==> init[i] == keywords[i];
      if Contains(text, keywords[last]) {
        assert MatchedIndices(text, keywords) == MatchedIndices(text, init) + {last};
      } else {
        assert MatchedIndices(text, keywords) == MatchedIndices(text, init);
      }
    }
  }

  /** The lower-cased name, its first word and its last word, without the empty ones. */
  function NameVariations(userName: string): (vs: seq<string>)
    ensures forall k :: 0 <= k < |vs| ==> vs[k] != []
    ensures Lower(userName) != [] ==> Lower(userName) in vs
    ensures var words := Words(userName);
            words != [] ==> Lower(words[0]) in vs && Lower(words[|words| - 1]) in vs
    ensures var words := Words(userName);
            forall v :: v in vs ==>
              v == Lower(userName) || (words != [] && (v == Lower(words[0]) || v == Lower(words[|words| - 1])))
  {
    var words := Words(userName);
    var candidates := NameCandidates(userName, words);
    var vs := Nonempty(candidates);
    assert words != [] ==> Lower(words[0]) in vs && Lower(words[|words| - 1]) in vs by {
      if words != [] {
        assert candidates[1] == Lower(words[0]) && candidates[2] == Lower(words[|words| - 1]);
      }
    }
    assert forall v :: v in vs ==>
             v == Lower(userName) || (words != [] && (v == Lower(words[0]) || v == Lower(words[|words| - 1])));
    vs
  }

  /** The three entries of `name_variations` for a name split into `words`, the first and last word empty when there are none. */
  function NameCandidates(userName: string, words: seq<string>): (c: seq<string>)
    requires forall k :: 0 <= k < |words| ==> words[k] != []
    ensures |c| == 3 && c[0] == Lower(userName)
    ensures words == [] ==> c[1] == [] && c[2] == []
    ensures words != [] ==> c[1] == Lower(words[0]) && c[1] != []
    ensures words != [] ==> c[2] == Lower(words[|words| - 1]) && c[2] != []
  {
    if words == [] then [Lower(userName), "", ""]
    else
      var first := Lower(words[0]);
      var last := Lower(words[|words| - 1]);
      assert |first| == |words[0]| > 0 && |last| == |words[|words| - 1]| > 0;
      [Lower(userName), first, last]
  }

  function Nonempty(xs: seq<string>): (ys: seq<string>)
    ensures forall k :: 0 <= k < |ys| ==> ys[k] != []
    ensures forall x :: x in xs && x != [] ==> x in ys
    ensures forall y :: y in ys ==> y in xs
    decreases |xs|
  {
    if xs == [] then []
    else (if xs[0] == [] then [] else [xs[0]]) + Nonempty(xs[1..])
  }

  /** Some name variation occurs in the lower-cased text. */
  predicate NameFound(textLower: string, userName: string) {
    exists v :: v in NameVariations(userName) && Contains(textLower, v)
  }

  /** The keyword confidence of a caste certificate, in percent of the English keyword count. */
  function CasteConfidence(matches: nat): real {
    matches as real / |EnglishCasteKeywords| as real * 100.0
  }

  /** The judgement of `_verify_caste_multilang_ocr` on recognized text. */
  function CasteKeywordVerdict(text: string, userName: string, lang: string, trail: seq<Step>): (v: Verdict)
    ensures v.auditTrail == Some(trail) && v.languageUsed == Some(lang)
    ensures var matches := CountContained(Lower(text), EnglishCasteKeywords + HindiCasteKeywords);
            && (v.verified <==> matches >= 3 && NameFound(Lower(text), userName))
            && (v.verified ==> v.confidence == Some(if matches >= 6 then 75.0 else CasteConfidence(matches)))
            && (!v.verified ==> v.confidence == Some(CasteConfidence(matches)))
            && (v.verified ==> v.verificationMethod == Some("MULTILANG_OCR_KEYWORD_MATCH"))
  {
    var textLower := Lower(text);
    var matches := CountContained(textLower, EnglishCasteKeywords + HindiCasteKeywords);
    var confidence := CasteConfidence(matches);
    var nameFound := NameFound(textLower, userName);
    ThresholdIsThreeKeywords(matches);
    if confidence >= 30.0 && nameFound then
      Verdict(true, Some(if confidence < 75.0 then confidence else 75.0), None, NoError, None,
              Some("MULTILANG_OCR_KEYWORD_MATCH"), [], Some(nameFound), Some(matches), None, Some(lang), Some(trail))
    else
      NotVerified().(reason := Some(if !nameFound then "Insufficient evidence" else "Document type unclear"),
                     confidence := Some(confidence), nameMatched := Some(nameFound),
                     languageUsed := Some(lang), auditTrail := Some(trail))
  }

  /** Thirty percent of seven keywords is reached at three matches; the 75 cap at six. */
  lemma ThresholdIsThreeKeywords(matches: nat)
    ensures CasteConfidence(matches) >= 30.0 <==> matches >= 3
    ensures CasteConfidence(matches) < 75.0 <==> matches < 6
  {
  }

  /**
   * `_verify_caste_multilang_ocr`: raises when the image cannot be opened; a recognition
   * error becomes a result with the error; otherwise the keyword judgement.
   */
  function CasteOcr(prior: seq<Step>, scan: Scan, userName: string, state: Option<string>): (r: Completion)
    ensures r.Returned? <==> scan.pillowReadable
    ensures r.Returned? ==> r.verdict.auditTrail == Some(prior)
    ensures scan.pillowReadable && scan.recognize(CasteLanguage(state)).OcrRaised? ==>
              r == Returned(NotVerified().(error := CaughtException(""), auditTrail := Some(prior)))
    ensures scan.pillowReadable && scan.recognize(CasteLanguage(state)).OcrText? ==>
              var text := scan.recognize(CasteLanguage(state)).text;
              && r.verdict == CasteKeywordVerdict(text, userName, CasteLanguage(state), prior)
              && r.verdict.languageUsed == Some(CasteLanguage(state))
              && (r.verdict.verified <==>
                    CountContained(Lower(text), EnglishCasteKeywords + HindiCasteKeywords) >= 3
                    && NameFound(Lower(text), userName))
  {
    if !scan.pillowReadable then Raised
    else
      var lang := CasteLanguage(state);
      match scan.recognize(lang)
      case OcrRaised => Returned(NotVerified().(error := CaughtException(""), auditTrail := Some(prior)))
      case OcrText(text) => Returned(CasteKeywordVerdict(text, userName, lang, prior))
  }

  /** `_extract_qr_code`'s loop: the data of the first QR symbol, whether or not it can be decoded. */
  function FirstQrData(symbols: seq<Symbol>): (r: Option<string>)
    ensures r.Some? ==> exists k :: 0 <= k < |symbols| && symbols[k].symbolType == "QRCODE" && symbols[k].data == r
                                    && forall j :: 0 <= j < k ==> symbols[j].symbolType != "QRCODE"
    ensures forall k :: (0 <= k < |symbols| && symbols[k].symbolType == "QRCODE"
                         && forall j :: 0 <= j < k ==> symbols[j].symbolType != "QRCODE") ==> r == symbols[k].data
    ensures (forall k :: 0 <= k < |symbols| ==> symbols[k].symbolType != "QRCODE") ==> r.None?
    decreases |symbols|
  {
    if symbols == [] then None
    else if symbols[0].symbolType == "QRCODE" then symbols[0].data
    else
      var r := FirstQrData(symbols[1..]);
      assert forall k :: 1 <= k < |symbols| ==> symbols[k] == symbols[1..][k - 1];
      r
  }

  /**
   * `_extract_qr_code`: nothing when pyzbar is missing, the image could not be read, or
   * decoding raises; otherwise the first QR symbol's data, with no length check.
   */
  function CasteQrCode(scan: Scan): (r: Option<string>)
    ensures r.Some? ==> scan.pyzbarInstalled && scan.cvReadable && scan.pyzbarDirect.Decoded?
    ensures scan.pyzbarInstalled && scan.cvReadable && scan.pyzbarDirect.Decoded? ==>
              r == FirstQrData(scan.pyzbarDirect.symbols)
  {
    if !scan.pyzbarInstalled || !scan.cvReadable then None
    else match scan.pyzbarDirect
      case DecodeRaised => None
      case Decoded(symbols) => FirstQrData(symbols)
  }

  /** `_mock_api_setu_verify`: logs the call; validates any payload longer than fifty characters. */
  function MockApiSetu(prior: seq<Step>, payload: string, docType: string): (r: Traced<bool>)
    ensures r.trail == prior + [MockApiSetuCall(docType)]
    ensures r.value <==> |payload| > 50
  {
    Traced(|payload| > 50, prior + [MockApiSetuCall(docType)])
  }

  // ---------------------------------------------------------------------------------------
  // Income certificates and FIR copies

  const IncomeKeywords: seq<string> :=
    ["income", "certificate", "annual income", "government", "revenue", "district", "magistrate", "financial year"]

  const FirKeywords: seq<string> :=
    ["fir", "first information report", "police station", "complaint", "case", "section", "ipc", "accused"]

  /** The keywords required for a document type; none for any other type. */
  function KeywordsFor(documentType: string): (kws: seq<string>)
    ensures documentType != "income_certificate" && documentType != "fir_copy" ==> kws == []
    ensures documentType == "income_certificate" ==> |kws| == 8
    ensures documentType == "fir_copy" ==> |kws| == 8
  {
    if documentType == "income_certificate" then IncomeKeywords
    else if documentType == "fir_copy" then FirKeywords
    else []
  }

  /** Forty percent of a non-empty keyword list is reached when five times the matches reach twice the total. */
  lemma FortyPercent(matches: nat, total: nat)
    requires total > 0
    ensures matches as real / total as real * 100.0 >= 40.0 <==> 5 * matches >= 2 * total
  {
    var t := total as real;
    var share := matches as real / t;
    assert share * t == matches as real;
    assert (share * 100.0 - 40.0) * t == 100.0 * matches as real - 40.0 * t;
    ProductSign(share * 100.0 - 40.0, t);
  }

  /** Multiplying by a positive number keeps the sign. */
  lemma ProductSign(x: real, t: real)
    requires t > 0.0
    ensures x * t >= 0.0 <==> x >= 0.0
  {
    if x < 0.0 {
      assert x * t < 0.0;
    }
  }

  /** The basic keyword judgement on recognized text. */
  function BasicKeywordVerdict(text: string, documentType: string, userName: string): (v: Verdict)
    ensures var kws := KeywordsFor(documentType);
            var matches := CountContained(Lower(text), kws);
            && v.keywordsMatched == Some(matches) && v.totalKeywords == Some(|kws|)
            && (v.verified <==> |kws| > 0 && 5 * matches >= 2 * |kws| && Contains(Lower(text), Lower(userName)))
            && (|kws| > 0 ==> v.confidence == Some(matches as real / |kws| as real * 100.0))
            && (|kws| == 0 ==> v.confidence == Some(0.0))
  {
    var textLower := Lower(text);
    var kws := KeywordsFor(documentType);
    var matches := CountContained(textLower, kws);
    var total := |kws|;
    var confidence: real := if total > 0 then matches as real / total as real * 100.0 else 0.0;
    var nameFound := Contains(textLower, Lower(userName));
    assert total > 0 ==> (confidence >= 40.0 <==> 5 * matches >= 2 * total) by {
      if total > 0 { FortyPercent(matches, total); }
    }
    Verdict(confidence >= 40.0 && nameFound, Some(confidence), None, NoError, None, Some("BASIC_OCR"), [],
            Some(nameFound), Some(matches), Some(total), None, None)
  }

  /**
   * `_verify_document_basic_ocr`: the share of required keywords found in the text, in
   * percent (zero when there are none), and a verdict that needs forty percent and the name;
   * an image that cannot be opened or read gives an error with confidence zero.
   */
  function BasicOcr(scan: Scan, documentType: string, userName: string): (v: Verdict)
    ensures !scan.pillowReadable || scan.recognize(DefaultLanguage).OcrRaised? ==>
              !v.verified && v.error == CaughtException("") && v.confidence == Some(0.0)
    ensures scan.pillowReadable && scan.recognize(DefaultLanguage).OcrText? ==>
              v == BasicKeywordVerdict(scan.recognize(DefaultLanguage).text, documentType, userName)
  {
    if !scan.pillowReadable then NotVerified().(error := CaughtException(""), confidence := Some(0.0))
    else match scan.recognize(DefaultLanguage)
      case OcrRaised => NotVerified().(error := CaughtException(""), confidence := Some(0.0))
      case OcrText(text) => BasicKeywordVerdict(text, documentType, userName)
  }
}
