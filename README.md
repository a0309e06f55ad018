# FairClaim backend core, modelled in Dafny

FairClaim is a case-management backend for compensation claims under the SC/ST
(Prevention of Atrocities) Act. This project models three parts of it.

**The document verification agent** (`DocumentVerificationAgent` in
`backend/app/services/services.py`):

- **Aadhaar cards** are verified QR-first. A cascade of decoders looks for a QR payload of
  more than 50 characters. The cascade runs:
  - pyzbar on the original image;
  - pyzbar on the grayscale image;
  - four OpenCV detector attempts.

  The payload is parsed as Aadhaar XML, or else by regular expressions. The parsed number
  must equal the profile's Aadhaar number. Then the parsed name must be at least 0.65
  similar to the profile name.
- **Fallback to OCR.** When the QR stage returns `{}` (nothing located, or no number
  parsed), the agent falls back to multilingual OCR. OCR tries five Tesseract languages in
  order and takes the first grouped twelve-digit number it finds.
- **Caste certificates** have two paths:
  - a QR shortcut through a mock registry call, which validates any payload longer than 50
    characters;
  - otherwise, a keyword count in a language chosen from the user's state.
- **Income certificates and FIR copies** get a basic keyword check.
- **The dispatcher** `verify_document_with_ocr` picks one of these by document type.
- **The audit list.** Every step is appended to the agent's audit list
  `verification_steps`. The list is reset at the start of each Aadhaar and caste
  verification.

The agent is a `class` whose `steps` field is that list. Each of its methods is proved
equal, result and new list together, to a pure function over the list as it was
(`QrPipeline`, `OcrPipeline`, `Agent`). The properties are lemmas about those functions:

- which decoder wins: the first payload found, in cascade order;
- that later decoders are skipped;
- that a verified Aadhaar card always carries a number read from the document that equals
  the profile number;
- the keyword thresholds.

The images, OCR engine, XML parser and string-similarity function are inputs.

**The case endpoints** (`backend/app/routers/cases.py`) and **the grievance endpoints**
(`backend/app/routers/grievances.py`) are methods on a `Database` object. It holds the two
tables as maps from id to row (`Records`, `CaseRoutes`, `GrievanceRoutes`). The models
cover:

- the role and ownership checks;
- the 404/403 order of each endpoint;
- the partial updates, as a loop over the fields of the update schema;
- the document list that only grows;
- the cascade that deletes a case's grievances;
- `resolved_at`, which is stamped once and never overwritten;
- filtered, paged listing with SQLite's OFFSET/LIMIT semantics.

**The two role styles are modelled as written.**

- The case endpoints lower-case the role's value (`get_user_role`). An enumerated
  `UserRole.OFFICIAL` therefore acts as "official".
- The grievance endpoints compare `current_user.role` itself with "VICTIM", "OFFICER" and
  "ADMIN". A member of the plain `UserRole` enum never equals a string, so only a role held
  as text can pass those comparisons.
- As a result, a user with an enumerated role passes none of the grievance role tests:
  - they may view and list every grievance, victims included (`EnumeratedRolesAsWritten`,
    `EnumeratedRolesListEverything`);
  - they may update or delete none.
- The grievance list selects an officer's cases by assigned officer name. Viewing, filing
  and updating grievances select them by `assigned_officer_user_id`.

Python string operations are modelled in `PyStr` and regular expressions in `Patterns`:
`lower`, `strip`, `split`, `in`, `replace` and `[-4:]`, plus the three regular
expressions.

## Model

| member | source | states |
|---|---|---|
| Agent.DocumentVerificationAgent.constructor | backend/app/services/services.py:83-84 | a new agent starts with an empty audit list |
| Agent.DocumentVerificationAgent.ParseQrObjects | backend/app/services/services.py:326-349 | the loop over decoded symbols returns the same payload and leaves the same audit list as `QrPipeline.ParseQrObjects` |
| QrPipeline.ParseQrObjects | backend/app/services/services.py:326-349 | the payload is `FirstAccepted` of the symbols, and the audit list only grows |
| QrPipeline.FirstAccepted | backend/app/services/services.py:330-349 | the payload is that of the first QRCODE symbol whose data decodes and is longer than 50 characters; every earlier symbol is rejected; there is none exactly when no symbol qualifies |
| QrPipeline.Accepted | backend/app/services/services.py:332-335 | a symbol is accepted iff it is a QRCODE whose data decodes to more than 50 characters, and then its payload is that data |
| Agent.DocumentVerificationAgent.ExtractQrWithOpencv | backend/app/services/services.py:351-426 | the four detector attempts in order give the same payload and audit list as `QrPipeline.OpencvPayload` |
| QrPipeline.DetectFrom | backend/app/services/services.py:359-426 | the remaining attempts yield `FirstDetection` of them, and the audit list only grows |
| QrPipeline.FirstDetection | backend/app/services/services.py:359-426 | a text comes from an accepted attempt after which every earlier attempt returned text and was rejected; the first such accepted attempt always gives its text; an attempt that raises before any is accepted gives nothing; with no accepted attempt there is nothing |
| QrPipeline.OpencvPayload | backend/app/services/services.py:351-426 | the payload is `FirstDetection` of the four attempts in order (original, grayscale, enhanced, upscaled), so the first accepted one; any payload is longer than 50 characters |
| QrPipeline.DetectorHitSkipsLaterAttempts | backend/app/services/services.py:363-410 | once an attempt is accepted, the attempts after it do not affect the result |
| Agent.DocumentVerificationAgent.DecodeWithPyzbar | backend/app/services/services.py:164-196 | one pyzbar decoding (original or grayscale) gives the same payload and audit list as `QrPipeline.PyzbarAttempt` |
| QrPipeline.PyzbarAttempt | backend/app/services/services.py:164-196 | the payload is nothing for a raised decoding and otherwise `FirstAccepted` of its symbols; any payload is longer than 50 characters; the audit list only grows |
| QrPipeline.PyzbarPayload | backend/app/services/services.py:158-196 | the payload is the original image's first accepted symbol if it has one, and otherwise the grayscale image's; any payload is longer than 50 characters |
| QrPipeline.LocatePayload | backend/app/services/services.py:149-209 | the whole cascade returns the first payload found in this order: pyzbar on the original image, pyzbar on the grayscale image (both only when pyzbar is installed), then the first accepted OpenCV attempt; the audit list only grows |
| QrPipeline.DirectHitSkipsLaterMethods | backend/app/services/services.py:164-209 | if pyzbar accepts a symbol of the original image, the grayscale decoding and the OpenCV attempts cannot change the payload or the audit list |
| QrPipeline.PyzbarHitSkipsDetector | backend/app/services/services.py:203-209 | once pyzbar finds a payload, the OpenCV detector is never consulted |
| QrPipeline.AllMethodsFailFallsBack | backend/app/services/services.py:211-219 | if no decoder yields an accepted payload, the QR stage returns `{}` (the OCR fallback) after logging `failed_all_methods` |
| QrPipeline.ParseAadhaarQr | backend/app/services/services.py:428-462 | a payload that parses as XML gives the root's uid, name and "co, loc" address; otherwise there is no address and each field is the leftmost regular-expression capture (`SearchUid`, `SearchQuoted`) or empty; the number is empty exactly when `uid="<12 digits>"` occurs nowhere, and is otherwise twelve digits |
| Patterns.SearchUid | backend/app/services/services.py:450-451 | `None` exactly when `uid="<12 digits>"` (case-insensitive) matches at no position; otherwise the twelve digits captured at the leftmost matching position |
| Patterns.UidFromIsLeftmost | backend/app/services/services.py:450-451 | no position before the one found matches, and when nothing is found no position matches at all |
| Patterns.SearchQuoted | backend/app/services/services.py:450-454 | `None` exactly when `key="…"` (case-insensitive, non-empty value) matches at no position; otherwise the non-empty, quote-free value captured at the leftmost matching position |
| Patterns.QuotedFromIsLeftmost | backend/app/services/services.py:450-454 | no position before the one found matches, and when nothing is found no position matches at all |
| Patterns.GroupedNumberAt | backend/app/services/services.py:497 | a match of `\b\d{4}\s*\d{4}\s*\d{4}\b` at a position is at least twelve characters long and starts and ends with four digits |
| Patterns.GroupedNumberAtIsMatch | backend/app/services/services.py:497 | what the scanner finds at a position is a boundary, four digits, whitespace, four digits, whitespace, four digits and a boundary; every such match is found, and ends where the scanner says |
| Patterns.GroupedMatchIsFound | backend/app/services/services.py:497 | a match with its second and third digit groups at any given positions is found by the scanner, which ends it after the third group |
| Patterns.GroupedNumberFrom | backend/app/services/services.py:497-498 | the position found lies at or after the starting point, and the pattern matches there |
| Patterns.GroupedNumberFromIsLeftmost | backend/app/services/services.py:497-501 | no position before the one found matches, and when nothing is found no position matches at all, so `findall(...)[0]` is the leftmost match |
| Patterns.GroupedNumberCandidate | backend/app/services/services.py:497-501 | a match starts with a digit, so removing its spaces leaves a non-empty number |
| QrPipeline.CrossCheck | backend/app/services/services.py:231-324 | the security checks keep extending the audit list, and every result they return carries that list |
| QrPipeline.NameCheck | backend/app/services/services.py:274-308 | the name check always decides, and the result carries the audit list |
| QrPipeline.CrossCheckOutcome | backend/app/services/services.py:231-324 | `{}` iff no number was parsed; otherwise verified iff the numbers are equal and the similarity of the lower-cased, stripped names is at least 0.65; a failure raises a security alert; a success has confidence 95 and matched fields number and name |
| QrPipeline.NumberMismatchSkipsNameCheck | backend/app/services/services.py:247-265 | a different number is a mismatch after exactly two logged steps, whatever the similarity function |
| QrPipeline.EqualNamesPass | backend/app/services/services.py:274-308 | with a similarity that rates equal strings 1.0, a matching number and a name equal up to case and surrounding space verify |
| QrPipeline.QrStage | backend/app/services/services.py:126-324 | `_extract_and_verify_aadhaar_qr` starts the audit list with the extraction attempt, and a decided result carries the whole list |
| QrPipeline.QrStageDecidesOnlyOnParsedNumber | backend/app/services/services.py:211-238 | the QR stage decides iff a payload was located and a number parsed from it; otherwise it falls back |
| QrPipeline.QrVerifiedMeansNumberMatches | backend/app/services/services.py:247-324 | the QR stage verifies only when the number parsed from the located payload equals the profile number |
| Agent.DocumentVerificationAgent.ExtractAndVerifyAadhaarQr | backend/app/services/services.py:126-324 | the imperative QR stage gives the same outcome and audit list as `QrPipeline.QrStage` |
| Agent.DocumentVerificationAgent.CheckExtractedIdentity | backend/app/services/services.py:231-324 | the parsing check and the two security checks give the same outcome and audit list as `QrPipeline.CrossCheck` |
| OcrPipeline.HitIn | backend/app/services/services.py:489-506 | a recognition yields a hit iff its text holds a grouped number; the hit's number is the first match with spaces removed, and its name flag says whether the lower-cased name occurs in the lower-cased text |
| OcrPipeline.ScanLanguages | backend/app/services/services.py:487-514 | the language loop only extends the audit list |
| OcrPipeline.ScanLanguagesFindsFirstHit | backend/app/services/services.py:487-514 | the loop returns the hit of the first language that has one, and nothing only when no language has one |
| OcrPipeline.ScanLanguagesStep | backend/app/services/services.py:487-514 | one turn of the loop: a raised recognition logs an error and moves on; text without a number logs an attempt and moves on; a number logs an attempt and stops |
| OcrPipeline.OcrVerdict | backend/app/services/services.py:516-545 | verified iff a non-empty number was found and equals the profile number, with confidence 65 with the name and 50 without, and no reason or alert; a different number gives "Aadhaar number mismatch" with a security alert; no number gives "Unable to extract Aadhaar number from image" with no `security_alert` key |
| OcrPipeline.OcrStage | backend/app/services/services.py:464-545 | the fallback logs itself first, and a returned result carries the audit list |
| OcrPipeline.OcrNumberNonEmpty | backend/app/services/services.py:497-501 | a number found by OCR is never empty |
| OcrPipeline.OcrFindsNumberDecides | backend/app/services/services.py:487-536 | if any language yields a number, the fallback either verifies or raises a security alert, never "unable to extract" |
| OcrPipeline.OcrVerifiedMeansNumberMatches | backend/app/services/services.py:487-527 | the OCR fallback verifies only when the first number found in some language equals the profile number |
| Agent.DocumentVerificationAgent.VerifyAadhaarMultilangOcr | backend/app/services/services.py:464-545 | the imperative language loop gives the same result and audit list as `OcrPipeline.OcrStage` |
| Agent.AadhaarCard | backend/app/services/services.py:86-124 | `verify_aadhaar_card` on a fresh audit list: an unreadable image gives "Unable to read image file" with an empty list; otherwise the list starts with the QR attempt; every result carries its list |
| Agent.AadhaarVerifiedOnlyOnMatchingNumber | backend/app/services/services.py:86-124 | an Aadhaar card is verified only if the number parsed from the QR payload, or the first OCR number in some language, equals the profile number |
| Agent.QrDecisionSkipsOcr | backend/app/services/services.py:111-117 | when the QR stage decides, whatever OCR would read changes nothing |
| QrPipeline.QrStageIgnoresOcrInputs | backend/app/services/services.py:126-324 | the QR stage is the same whatever Pillow and Tesseract would do with the image |
| Agent.DocumentVerificationAgent.VerifyAadhaarCard | backend/app/services/services.py:86-124 | resets the audit list; its result and new list are those of `Agent.AadhaarCard` |
| OcrPipeline.FirstQrData | backend/app/services/services.py:594-596 | the data of the first QRCODE symbol, with no length check, whenever there is one; nothing when there is none |
| OcrPipeline.CasteQrCode | backend/app/services/services.py:587-600 | `_extract_qr_code` yields data only when pyzbar is installed, the image was read and decoding did not raise, and then it is the first QRCODE symbol's data (`FirstQrData`) |
| OcrPipeline.MockApiSetu | backend/app/services/services.py:678-697 | the mock registry call logs one step and validates iff the payload is longer than 50 characters |
| Agent.DocumentVerificationAgent.MockApiSetuVerify | backend/app/services/services.py:678-697 | the method appends the same step and returns the same verdict as `OcrPipeline.MockApiSetu` |
| OcrPipeline.CasteLanguage | backend/app/services/services.py:613-625 | the lower-cased state picks its language from the nine-state table; an absent or unlisted state picks "eng+hin" |
| OcrPipeline.CountContained | backend/app/services/services.py:637 | the match count never exceeds the number of keywords |
| OcrPipeline.CountContainedIsMatchCount | backend/app/services/services.py:637 | the count is the number of keyword positions whose keyword occurs in the text |
| OcrPipeline.NameVariations | backend/app/services/services.py:641-647 | the variations are non-empty; they include the lower-cased full name when it is non-empty and the lower-cased first and last words when there are words, and nothing else |
| OcrPipeline.ThresholdIsThreeKeywords | backend/app/services/services.py:638-652 | 30% of the seven English keywords is reached exactly at three matches, and the 75 cap exactly at six |
| OcrPipeline.CasteKeywordVerdict | backend/app/services/services.py:629-669 | verified iff at least three of the eleven keywords occur and some name variation occurs; confidence is capped at 75 when verified; the language used and the audit list are reported |
| OcrPipeline.CasteOcr | backend/app/services/services.py:602-676 | a result iff the image opens; a Tesseract error gives an unverified result with the exception; otherwise the text is read in `CasteLanguage(state)`, reported as the language used, and the result is verified iff at least three keywords and a name variation occur (`CasteKeywordVerdict`) |
| Agent.CasteCertificate | backend/app/services/services.py:547-585 | `verify_caste_certificate` on a fresh audit list: the list is empty or the single mock-registry step, and every result carries it |
| Agent.CasteQrValidation | backend/app/services/services.py:561-575 | the QR shortcut is taken iff the first QR symbol's data is longer than 50 characters, and then verifies with confidence 85 |
| Agent.CasteOcrPath | backend/app/services/services.py:547-585 | without a QR payload longer than 50 characters, the certificate is the keyword OCR verdict on the text read in the state's language: verified iff at least three keywords and a name variation occur; an image Pillow cannot open, or a Tesseract error, gives an unverified result with the exception |
| Agent.DocumentVerificationAgent.VerifyCasteCertificate | backend/app/services/services.py:547-585 | resets the audit list; its result and new list are those of `Agent.CasteCertificate` |
| Agent.CasteState | backend/app/services/services.py:887-892 | a state is derived iff the address is non-empty; it is the stripped text after the last comma |
| OcrPipeline.KeywordsFor | backend/app/services/services.py:929-940 | eight keywords each for income certificates and FIR copies, none for any other type |
| OcrPipeline.FortyPercent | backend/app/services/services.py:944-947 | with a positive keyword count, 40% is reached iff five times the matches reach twice the total |
| OcrPipeline.BasicKeywordVerdict | backend/app/services/services.py:940-958 | verified iff there are keywords, at least 40% of them occur, and the lower-cased name occurs; the match and keyword counts are reported; the confidence is `matches / total * 100` with keywords and 0 without |
| OcrPipeline.BasicOcr | backend/app/services/services.py:918-965 | an image that cannot be opened or read gives an error with confidence 0; otherwise the keyword verdict on the text in the default language |
| Agent.VerifyDocumentWithOcr | backend/app/services/services.py:854-915 | "aadhaar" without a profile number is refused and the audit list is untouched; "aadhaar" otherwise is `Agent.AadhaarCard`; "caste_certificate" is `Agent.CasteCertificate` with the state from the address; income and FIR copies are the basic OCR; any other type is unsupported |
| PyStr.Lower | backend/app/services/services.py:275-276 | lower-casing keeps the length and maps each character by itself |
| PyStr.LowerIdempotent | backend/app/services/services.py:275-276 | lower-casing twice is lower-casing once |
| PyStr.ContainsIffOccurs | backend/app/services/services.py:504 | `needle in hay` holds iff the needle occurs at some position of the haystack |
| PyStr.Strip | backend/app/services/services.py:275-276 | `strip()` leaves a result no longer than its input, with no whitespace at either end |
| PyStr.StripIsSlice | backend/app/services/services.py:892 | the stripped text is a contiguous slice of the input, and only whitespace is removed around it |
| PyStr.Words | backend/app/services/services.py:643-644 | `split()` yields non-empty words without whitespace, and no words exactly when the text is all whitespace |
| PyStr.WordsAreMaximalRuns | backend/app/services/services.py:643-644 | the text is the words of `split()` in order, with whitespace before, between and after them and at least one whitespace character between two words, so the words are its maximal non-whitespace runs |
| PyStr.SplitOn | backend/app/services/services.py:890 | `split(',')` yields at least one part, and no part contains the separator |
| PyStr.SplitJoin | backend/app/services/services.py:890 | joining the parts of a split with the separator gives back the original text |
| PyStr.LastPartIsSuffix | backend/app/services/services.py:890-892 | the last part of a split is the suffix after the last separator |
| PyStr.RemoveChar | backend/app/services/services.py:501 | `replace(' ', '')` removes every space and keeps every other character as many times as it occurred; a text without a space is unchanged |
| PyStr.RemoveCharAppend | backend/app/services/services.py:501 | removing spaces works piece by piece, so the kept characters stay in their order |
| PyStr.LastChars | backend/app/services/services.py:243 | `[-4:]` is the suffix of length at most four |
| Records.Database.constructor | backend/app/models.py:38-122 | the store starts empty and consistent |
| Records.Paginate | backend/app/routers/cases.py:101-103 | OFFSET/LIMIT with SQLite semantics: at most `limit` rows; each row is the row at `skip` plus its index; a negative offset starts at the first row; a full window has exactly `limit` rows |
| Records.PagesTileRows | backend/app/routers/cases.py:101-103 | with a positive page size, pages 1 to n read in turn give the rows in order, each exactly once |
| Records.NonPositivePageIsFirstPage | backend/app/routers/grievances.py:151-153 | a page number of zero or below shows the first page |
| Records.PageIsDrawnFromRows | backend/app/routers/grievances.py:151-153 | every row on a page is a row of the filtered list |
| Records.KeptInOrder | backend/app/routers/cases.py:78-103 | the filter keeps exactly the ids of the ordered list that pass, never more than the list holds, and no id twice when the list names each id once |
| Records.KeptInOrderAppend | backend/app/routers/cases.py:78-103 | filtering works piece by piece, so the kept ids stay in the order of the query |
| Records.KeptInOrderCounts | backend/app/routers/cases.py:100-103 | when the list names each id once, the filter keeps one entry per passing id of the list |
| CaseRoutes.UserRoleName | backend/app/routers/cases.py:17-20 | an enumerated role gives its value, and a textual role keeps its length |
| CaseRoutes.RoleNameIsLowerCase | backend/app/routers/cases.py:17-20 | the role name has no upper-case letter, and a textual role keeps every character that is not one |
| CaseRoutes.RoleNameIgnoresCase | backend/app/routers/cases.py:17-20 | textual roles that differ only in case act as the same role |
| CaseRoutes.EnumeratedCaseManagers | backend/app/routers/cases.py:33-37 | of the enumerated roles, OFFICIAL may manage cases and VICTIM may not |
| CaseRoutes.NewCase | backend/app/routers/cases.py:40-54 | a new case has status PENDING, the stage's value and the creator's id, with no documents, officer or remarks |
| CaseRoutes.CreateCase | backend/app/routers/cases.py:28-65 | roles other than admin, official and officer get 403 and nothing changes, the id counter included; otherwise the new row is stored under a fresh id and the store stays consistent |
| CaseRoutes.GetCase | backend/app/routers/cases.py:113-141 | 404 iff the case is missing; Ok iff it exists and the role's access test passes, and then the value is the stored case; every other failure is 403 |
| CaseRoutes.VictimViewsOnlyOwnCases | backend/app/routers/cases.py:127-132 | a victim is shown only a case whose victim phone or e-mail is theirs |
| CaseRoutes.UpdatedCase | backend/app/routers/cases.py:162-178 | every field the request sets takes its new value, the status as its enumeration value; every other field is unchanged; a null status fails the commit |
| CaseRoutes.UpdateCaseIdempotent | backend/app/routers/cases.py:162-167 | applying the same update twice equals applying it once |
| CaseRoutes.ApplyCaseUpdate | backend/app/routers/cases.py:162-167 | the loop over the set fields, in schema order, stages exactly the row `UpdatedCase` describes, noting a null status |
| CaseRoutes.UpdateCase | backend/app/routers/cases.py:144-178 | 403 before 404; otherwise the loop over the set fields yields `UpdatedCase`, or 500 for a null status; only that case row changes, and the store stays consistent |
| CaseRoutes.AppendDocuments | backend/app/routers/cases.py:217-219 | the new list is the stored list, or an empty one, followed by the new paths, so nothing is lost |
| CaseRoutes.AppendDocumentsTwice | backend/app/routers/cases.py:217-219 | two uploads in a row equal one upload of both batches |
| CaseRoutes.UploadCaseDocuments | backend/app/routers/cases.py:181-229 | 404 before the access test; on success only that case's document list changes, by appending |
| CaseRoutes.GrievancesWithoutCase | backend/app/models.py:75 | the cascade keeps exactly the grievances of other cases, unchanged |
| CaseRoutes.DeleteCase | backend/app/routers/cases.py:232-258 | 403 before 404; on success the case and exactly its grievances are removed, and the store stays consistent |
| CaseRoutes.ListedCases | backend/app/routers/cases.py:78-99 | an id is listed iff it is in the ordered ids, stored, and the case passes the role test and every given filter; the ids keep the query order (`KeptInOrder`) and are distinct when the ordered ids are |
| CaseRoutes.ListCases | backend/app/routers/cases.py:68-110 | the items are page `page` of the listed cases at `page_size` per page (`skip = (page - 1) * page_size`); the total counts the listed cases, which is the number of stored cases the user may list when the ordered ids name every stored case once; the page holds at most `page_size` ids, all of listed cases |
| GrievanceRoutes.EnumeratedRolesAsWritten | backend/app/routers/grievances.py:29-44 | a user with an enumerated role passes every access test for filing and viewing, and fails the update and delete role tests |
| GrievanceRoutes.NewGrievance | backend/app/routers/grievances.py:57-68 | a new grievance is OPEN, carries the case, the creator and the classifier's priority, and is unresolved |
| GrievanceRoutes.CreateGrievance | backend/app/routers/grievances.py:18-88 | 404 for a missing case comes before the access test (403); on success the row is stored under a fresh id; on failure nothing changes |
| GrievanceRoutes.GetGrievance | backend/app/routers/grievances.py:162-187 | 404 iff the grievance is missing; 403 when its case exists but fails the access test; 500 when its case is missing and the role is "VICTIM" or "OFFICER"; no other failure; otherwise Ok with the stored row |
| GrievanceRoutes.GetGrievanceNeverFailsWhenValid | backend/app/routers/grievances.py:171-185 | in a consistent store, viewing never fails with 500 |
| GrievanceRoutes.UpdatedGrievance | backend/app/routers/grievances.py:225-244 | the fields the request sets take their new values; `resolved_at` is kept once set, and otherwise becomes the current time iff the new status is RESOLVED or CLOSED; a null status fails the commit |
| GrievanceRoutes.ResolvedAtNeverOverwritten | backend/app/routers/grievances.py:229-231 | once stamped, `resolved_at` keeps its value through any later updates |
| GrievanceRoutes.ResolvedAtIsFirstClosing | backend/app/routers/grievances.py:229-231 | along a history of updates, `resolved_at` is the time of the first update to RESOLVED or CLOSED, and empty if there was none |
| GrievanceRoutes.ApplyGrievanceUpdate | backend/app/routers/grievances.py:225-233 | the loop over the set fields, in schema order, stages exactly the row `UpdatedGrievance` describes, stamping an empty `resolved_at` on RESOLVED or CLOSED |
| GrievanceRoutes.UpdateGrievance | backend/app/routers/grievances.py:189-244 | 404, then 403 unless "ADMIN" or "OFFICER", then an officer gets 500 for a missing case and 403 if not involved; past those gates a null status fails the commit with 500 and anything else gives the row `UpdatedGrievance` computes; only that row changes |
| GrievanceRoutes.DeleteGrievance | backend/app/routers/grievances.py:246-269 | the "ADMIN" test comes before the existence test; on success exactly that grievance is removed |
| GrievanceRoutes.ListedGrievances | backend/app/routers/grievances.py:121-149 | an id is listed iff it is in the ordered ids, stored, its case is listed for the role, and the grievance passes every given filter (a case id of 0 filters nothing); the ids keep the query order (`KeptInOrder`) and are distinct when the ordered ids are |
| GrievanceRoutes.ListGrievances | backend/app/routers/grievances.py:110-160 | the items are page `page` of the listed grievances at `page_size` per page (`skip = (page - 1) * page_size`); the total counts the listed grievances, which is the number of stored grievances the user may list when the ordered ids name every stored grievance once; the page holds at most `page_size` ids, all of listed ones |
| GrievanceRoutes.EnumeratedRolesListEverything | backend/app/routers/grievances.py:122-142 | with no filter, a user with an enumerated role lists every stored grievance |

## Left out

- Images, Tesseract, pyzbar, OpenCV and the XML parser are not modelled. What they return
  per call is an input (`Scan`, `Libraries`). Image preprocessing (grayscale, CLAHE,
  upscaling) is only the name of the attempt it feeds.
- `_fuzzy_match` (`SequenceMatcher.ratio`) is an uninterpreted similarity function.
  `EqualNamesPass` assumes only that it rates equal strings 1.0.
- The audit entries keep only the step, its status and the numbers the model uses.
  Timestamps, exception texts, `round(...)` of scores and the free-text keys are not
  modelled. These keys include `details`, `note`, `warning`, `suggestion`,
  `extracted_data`, `languages_tried` and `extracted_text_preview`.
- The result dictionaries share the live audit list. A later reset of `verification_steps`
  rebinds it and a later append extends it. The model copies the list into each result
  instead, so it does not capture that aliasing.
- PyStr.Lower: only ASCII letters are lower-cased, and Unicode case mapping is not modelled.
  The Devanagari caste keywords are unaffected by lower-casing either way.
- PyStr.IsDigit and PyStr.IsWordChar: `\d` and the word characters behind `\b` are
  restricted to ASCII, whereas Python's `re` also accepts other Unicode digits and letters.
  Whitespace (`\s`, `split()`, `strip()`) is Python's full `isspace` set.
- Agent.VerifyDocumentWithOcr: the outer `except` that adds `security_alert` is not
  modelled, because every call in its body already handles its own exceptions.
- The Aadhaar agent's own `except` is modelled only for `Image.open` failing in the OCR
  fallback. That is the one call there that can raise.
- The default Tesseract language of `_verify_document_basic_ocr` is taken to be "eng".
- The NLP priority classifier is not part of this model. `CreateGrievance` takes the
  priority as a parameter.
- JWT authentication is not part of this model. The current user is a parameter.
- SMS notifications are not part of this model.
- File saving (`FileHandler`) is not part of this model. `UploadCaseDocuments` takes the
  stored paths as a parameter.
- The generated case and grievance numbers are not modelled, because they come from the
  clock.
- `ORDER BY created_at DESC` is a parameter of the list functions (`order`: the stored ids
  in that order). CaseRoutes.ListCases and GrievanceRoutes.ListGrievances do not state
  that the page follows creation time. Their total equals the SQL `COUNT` only when `order`
  names every stored id once, which is stated as a condition, not assumed.
- OcrPipeline.CasteConfidence and OcrPipeline.BasicKeywordVerdict compute the keyword
  percentages `matches / 7 * 100` and `matches / total * 100` as exact reals. Python
  computes them as floats, so a reported confidence such as 3/7 * 100 can differ in its
  last digits. The thresholds (30, 40 and the cap of 75) decide the same way for every
  match count, as `ThresholdIsThreeKeywords` and `FortyPercent` state.
- `uploaded_documents` is the decoded list. Its JSON encoding is not modelled.
- Database failures other than the NOT NULL status column (500 on commit) are not modelled.
- CaseRoutes.CreateCase and GrievanceRoutes.CreateGrievance allocate ids from a counter
  that only grows. SQLite may reuse the largest freed rowid, which is not modelled.
- The columns the endpoints neither test nor change are not modelled: the incident
  details, bank details, contact fields, escalation and timestamps other than
  `resolved_at`.
- HTTP routing, status codes on success (201, 204), response schemas and request
  validation are not modelled.
