# WebSecura security scanner: verified model

WebSecura scans a website and reports ten security checks. A Flask
backend (`Backend/app.py`) takes a URL, normalises it and runs the scanner
(`Backend/scanner/security_scanner.py`). The scanner fetches the page once,
reads the response headers and builds one record per check: HTTPS, HSTS,
X-Content-Type-Options, X-Frame-Options, server disclosure, SSL/TLS, XSS,
CSP, cookies and clickjacking. A request that fails gives a single
"Website Accessibility" record instead. The frontend (`Frontend/script.js`)
summarises the records, derives a risk tier and draws one card per record
in a results overlay. The page scripts also validate the contact form and
the search input.

The model has seven modules:

- `Wrappers` holds the `Option` type.
- `Text` holds the string operations both languages rely on:
  - prefix and substring tests;
  - ASCII `lower`/`upper`/`title`;
  - Python's `strip` and JavaScript's `trim`, each with its own whitespace set;
  - `join`;
  - JavaScript's UTF-16 `length`.
- `Scanner` holds the check records and the assembly done by `scan_website`:
  - The header map, the result of the initial fetch, whether an XSS pattern
    matched, and the outcome of the TLS handshake are all inputs.
  - Each check is a function that states its verdict, severity and details.
  - Where the source builds a list step by step, a method does the same and
    is proved equal to that function.
- `App` holds the two Flask handlers as functions from the parsed JSON body
  to a status code and a payload.
- `Report` holds the frontend's summary, risk tier and cards:
  - A `Page` class holds the document's elements, the search button's
    state, the input value and the alerts raised.
  - Its methods are the overlay's creation and removal, and
    `performSecurityScan`.
- `Forms` holds contact-form validation and the email regex, with a
  character-level characterisation of the regex.
- `Search` holds the search-button handlers of the two page scripts.

## Model

| member | source | states |
|---|---|---|
| Text.Lower | Backend/scanner/security_scanner.py:81 | `str.lower()` on ASCII keeps the length |
| Text.Upper | Backend/scanner/security_scanner.py:120 | `str.upper()` on ASCII keeps the length |
| Text.LowerConcat | Backend/scanner/security_scanner.py:81 | lower-casing distributes over concatenation |
| Text.LowerKeepsPrefix | Backend/scanner/security_scanner.py:81 | a lower-case prefix survives lower-casing |
| Text.TrimStart | Backend/app.py:54 | drops exactly a leading run of spaces; the result does not start with one |
| Text.TrimEnd | Backend/app.py:54 | drops exactly a trailing run of spaces; the result does not end with one |
| Text.Trim | Backend/app.py:54 | empty exactly when the input is all spaces, and otherwise has no space at either end |
| Text.TrimFixed | Backend/app.py:54 | text with no space at either end is its own strip |
| Text.TrimStartRun | Frontend/script.js:468 | stripping the start of spaces followed by text gives that text |
| Text.TrimEndRun | Frontend/script.js:468 | stripping the end of text followed by spaces gives that text |
| Text.TrimPadded | Frontend/script.js:468 | text padded with spaces on both sides trims back to itself |
| Text.JoinShort | Backend/scanner/security_scanner.py:144 | `sep.join` of one part is the part; of two, the parts around the separator |
| Text.Utf16Length | Frontend/script.js:468 | JavaScript `length` lies between the number of characters and twice that |
| Text.Title | Backend/app.py:90 | `str.title()` keeps the length |
| Text.TitleAfter | Backend/app.py:90 | the title-casing scan keeps the length |
| Text.TitleAfterLetter | Backend/app.py:90 | lower-case letters after a letter stay unchanged |
| Text.TitleOfLowerWord | Backend/app.py:90 | the title of a lower-case word capitalises only its first letter |
| Scanner.Header | Backend/scanner/security_scanner.py:96 | `get(lower) or get(canonical)`: empty exactly when both are missing or empty, otherwise the lower-case key's value when it is non-empty |
| Scanner.CheckHttps | Backend/scanner/security_scanner.py:79-89 | passes iff the lower-cased URL starts with `https://`; fails with severity high |
| Scanner.HstsRecord | Backend/scanner/security_scanner.py:95-103 | passes iff HSTS is present; fails with severity medium and the no-HSTS message; on a pass the details show the value |
| Scanner.ContentTypeRecord | Backend/scanner/security_scanner.py:105-113 | passes iff the value contains `nosniff` in any case; severity is medium iff the header is absent and none otherwise, so a present header without `nosniff` fails with severity none |
| Scanner.FrameOptionsRecord | Backend/scanner/security_scanner.py:115-123 | passes iff the upper-cased value is DENY or SAMEORIGIN; severity is medium iff the header is absent and none otherwise |
| Scanner.CheckSecurityHeaders | Backend/scanner/security_scanner.py:91-125 | builds the HSTS, X-Content-Type-Options and X-Frame-Options records in that order |
| Scanner.Disclosures | Backend/scanner/security_scanner.py:129-136 | the disclosure list is empty iff neither Server nor X-Powered-By is present; it has at most two items |
| Scanner.ServerInfoRecord | Backend/scanner/security_scanner.py:127-146 | passes iff nothing is disclosed; fails with severity low |
| Scanner.CheckServerInfo | Backend/scanner/security_scanner.py:127-146 | appending Server, then X-Powered-By, gives the server-information record |
| Scanner.ServerInfoDetails | Backend/scanner/security_scanner.py:132-144 | the exact details for each disclosure case: Server before X-Powered-By, joined by ", " |
| Scanner.CheckSsl | Backend/scanner/security_scanner.py:148-185 | a URL without a case-sensitive `https://` fails with severity high and "Website does not use HTTPS"; otherwise passes iff the handshake succeeded |
| Scanner.XssRecord | Backend/scanner/security_scanner.py:187-217 | passes iff the header contains `1` and no pattern matched; severity high on a match, else medium without `1`, else none; the pattern warning follows the header part |
| Scanner.CheckXssProtection | Backend/scanner/security_scanner.py:187-217 | the appended detail list, joined by the vertical-bar separator, gives the XSS record |
| Scanner.CheckCsp | Backend/scanner/security_scanner.py:219-229 | passes iff CSP is present; fails with severity medium |
| Scanner.MissingFlagsMembers | Backend/scanner/security_scanner.py:244-249 | a flag is reported missing iff it is in the list and is not a case-sensitive substring of the cookie |
| Scanner.SecureFlagsReportedInOrder | Backend/scanner/security_scanner.py:244-249 | missing flags are listed in the order Secure, HttpOnly, SameSite |
| Scanner.CookieRecord | Backend/scanner/security_scanner.py:231-259 | no Set-Cookie means a pass with the no-cookies texts; otherwise passes iff all three flags occur; fails with severity medium, and the details list the missing flags joined by ", " |
| Scanner.CheckCookieSecurity | Backend/scanner/security_scanner.py:231-259 | the loop over the flags gives the cookie record; its invariant is that the list holds the missing flags seen so far |
| Scanner.ClickjackingRecord | Backend/scanner/security_scanner.py:261-286 | passes iff X-Frame-Options is valid or the lower-cased CSP contains `frame-ancestors`; details never empty; fails with severity medium |
| Scanner.CheckClickjacking | Backend/scanner/security_scanner.py:261-286 | the appended detail list gives the clickjacking record |
| Scanner.ClickjackingDetails | Backend/scanner/security_scanner.py:272-284 | the exact details in each of the five cases |
| Scanner.AccessFailure | Backend/scanner/security_scanner.py:68-75 | "Website Accessibility", not passed, severity high; the details are the fixed prefix followed by the error text |
| Scanner.ScanReport | Backend/scanner/security_scanner.py:33-77 | a failed request gives exactly the access-failure record; a successful one gives as many records as there are checks |
| Scanner.ScanWebsite | Backend/scanner/security_scanner.py:33-77 | appending each check's records in turn yields the scan report |
| Scanner.AppendedInOrder | Backend/scanner/security_scanner.py:44-66 | appending the records one by one to an empty list gives their concatenation |
| Scanner.AssembledAt | Backend/scanner/security_scanner.py:44-66 | the assembled list has ten records, each at its index |
| Scanner.AssembledChecks | Backend/scanner/security_scanner.py:44-66 | records that each report their check keep the order of the checks |
| Scanner.AssembledConsistent | Backend/scanner/security_scanner.py:44-66 | every assembled record is consistent and has details |
| Scanner.AssembledSilentFailures | Backend/scanner/security_scanner.py:106-123 | a failure with severity none can sit only at indices 2 and 3 |
| Scanner.RecordsWellFormed | Backend/scanner/security_scanner.py:79-286 | every check's record is consistent and has details |
| Scanner.RecordsLoud | Backend/scanner/security_scanner.py:79-286 | every check's record other than X-Content-Type-Options and X-Frame-Options fails with a severity other than none |
| Scanner.FetchedRecordsAt | Backend/scanner/security_scanner.py:44-66 | each record of a successful scan is the matching check's record |
| Scanner.FetchedChecks | Backend/scanner/security_scanner.py:44-66 | a successful scan lists the ten checks in order: HTTPS, HSTS, X-Content-Type-Options, X-Frame-Options, Server Information, SSL/TLS, XSS, CSP, Cookie, Clickjacking |
| Scanner.FetchedConsistent | Backend/scanner/security_scanner.py:79-286 | in a successful scan, a passed record has severity none and every record has details |
| Scanner.FetchedSilentFailures | Backend/scanner/security_scanner.py:105-123 | in a successful scan, only X-Content-Type-Options and X-Frame-Options can fail with severity none |
| Scanner.ScanShape | Backend/scanner/security_scanner.py:33-77 | ten records in check order, or one failed high-severity accessibility record; passed implies severity none everywhere |
| Scanner.ScanVerdicts | Backend/scanner/security_scanner.py:44-66 | each record of a successful scan passes iff its rule holds |
| Scanner.ScanSilentFailures | Backend/scanner/security_scanner.py:105-123 | a failure with severity none needs a successful fetch and index 2 or 3 |
| Scanner.SilentContentTypeFailure | Backend/scanner/security_scanner.py:105-113 | an X-Content-Type-Options value of `sniff` fails with severity none |
| Scanner.SslHandshakeImpliesHttps | Backend/scanner/security_scanner.py:148-157 | a URL that reaches the handshake also passes the HTTPS check |
| Scanner.UpperCaseSchemeSplitsVerdicts | Backend/scanner/security_scanner.py:81-157 | `HTTPS://host` passes the HTTPS check but fails SSL/TLS with severity high |
| App.PyIn | Backend/app.py:48 | Python `in`: raises exactly for null, booleans and numbers; for an object, tests the keys |
| App.NormalizeUrl | Backend/app.py:54-58 | the stripped URL is kept iff it starts with `http://` or `https://`, otherwise `https://` is put in front; the result always has one of the two schemes |
| App.StartsWithConcat | Backend/app.py:57-58 | a prefixed string starts with its prefix |
| App.NormalizeIdempotent | Backend/app.py:54-58 | normalising twice is normalising once |
| App.BlankUrlBecomesScheme | Backend/app.py:54-58 | a blank URL becomes `https://` and is not rejected |
| App.HttpSchemeKept | Backend/app.py:57-58 | an existing `http://` is kept, not upgraded |
| App.UpperCaseSchemePrefixed | Backend/app.py:57-58 | the test is case-sensitive: `HTTP://x` becomes `https://HTTP://x` |
| App.HandleScan | Backend/app.py:42-77 | 400 "URL is required" iff the body is falsy or has no `url`; 200 iff the body is an object with a string `url` and the scanner returns, with the normalised URL and the unchanged scanner output; a scanner that raises gives 500 with "Scan failed: " and the exception's text; every other body gives 500 |
| App.FirstMissing | Backend/app.py:86-92 | the first field in order that is missing or falsy, or none when all are present |
| App.HandleContact | Backend/app.py:79-112 | 200 iff the body is an object with every required field present and truthy; 400 iff it is an object with some field missing or falsy, and then the message names the first such field, title-cased; 500 iff the body is not an object; no other code |
| App.RequiredFieldMessage | Backend/app.py:86-92 | the field titles are Name, Email, Subject, Message |
| Report.PassedCount | Frontend/script.js:204 | at most the total; equals it iff every record passed; zero iff none passed |
| Report.PassedCountConcat | Frontend/script.js:204 | counting distributes over concatenation |
| Report.Summarize | Frontend/script.js:203-205 | total is the number of records; passed plus failed is the total; failed is zero iff all passed |
| Report.RiskTier | Frontend/script.js:207-222 | Secure iff nothing failed; High Risk iff something failed and `2*failed >= total`; Needs Attention otherwise |
| Report.OverallTier | Frontend/script.js:203-222 | Secure iff every record passed, an empty list included; High Risk iff some failed and failures are at least half |
| Report.HalfFailedIsHighRisk | Frontend/script.js:212-216 | one failure out of two checks is High Risk |
| Report.FailureKeepsHighRisk | Frontend/script.js:203-216 | a further failed check keeps a High Risk list High Risk |
| Report.ResultCard | Frontend/script.js:312-357 | status reads Passed iff the record passed; badge iff failed with a severity that is present, non-empty and not `none`; details block iff the details are non-empty |
| Report.Cards | Frontend/script.js:304-306 | one card per record, in record order |
| Report.View | Frontend/script.js:256-310 | the header's total is the number of cards; the tier is Secure iff every card reads Passed |
| Report.ScannerBadge | Frontend/script.js:318-321 | a scanner record gets a badge iff it failed with severity other than none |
| Report.AccessFailureIsHighRisk | Frontend/script.js:203-222 | a failed request is summarised as one of one failed, High Risk |
| Report.CountId | Frontend/script.js:198 | the number of elements with an id is at most the number of elements |
| Report.CountIdConcat | Frontend/script.js:232 | counting by id distributes over appending |
| Report.OthersConcat | Frontend/script.js:232 | filtering out an id distributes over appending |
| Report.IndexOfId | Frontend/script.js:198 | `getElementById` finds the first element with the id, or none |
| Report.RemoveFirst | Frontend/script.js:197-201 | removing the found element leaves one fewer with the id and the other elements unchanged, or the body unchanged when there is none |
| Report.RemoveAtIndex | Frontend/script.js:198-201 | removing at the found position is that removal |
| Report.ScanFailure | Frontend/script.js:162-183 | a rejected request reports its error; a non-ok status reports the status and the response text; an ok response whose body does not parse reports the JSON error; a refused scan reports the server's `error` when it is non-empty and "Scan failed" otherwise |
| Report.Page.constructor | Frontend/script.js:577-586 | the page as the start-up code finds it, before any overlay exists: no results overlay, so at most one; the button is enabled, the input empty and no alert raised |
| Report.Page.CreateResultsOverlay | Frontend/script.js:196-254 | any earlier overlay is removed and the new one appended; afterwards exactly one exists and the other elements are unchanged |
| Report.Page.CloseResults | Frontend/script.js:359-367 | removes the overlay; afterwards there is none; does nothing when there was none |
| Report.Page.PerformSecurityScan | Frontend/script.js:139-189 | on every path the button gets its original content back and is enabled; results appear and the input is cleared only for an ok response whose status is `success`; every other path raises one alert |
| Forms.Occurrences | Frontend/script.js:492 | the count is zero iff the character never occurs |
| Forms.OccurrencesConcat | Frontend/script.js:492 | counting distributes over concatenation |
| Forms.OccursOnceAt | Frontend/script.js:492 | a character at `i` occurs once iff no other position holds it |
| Forms.IndexOf | Frontend/script.js:492 | the first position holding the character, or the length |
| Forms.RegexSplitShape | Frontend/script.js:491-494 | a match has no whitespace, one `@` with text before it, and an interior dot after it |
| Forms.ShapeRegexSplit | Frontend/script.js:491-494 | an address of that shape has a match |
| Forms.EmailCharacterisation | Frontend/script.js:491-494 | the regex matches iff: no whitespace, exactly one `@`, non-empty local part, and a `.` that is neither first nor last in the domain |
| Forms.LetterPlain | Frontend/script.js:492 | a lower-case letter is in `[^\s@]` |
| Forms.EmailExamples | script.js:260-263 | `a@b.c` is accepted; `a@b@c.d` and `a@.bc` are refused |
| Forms.ValidateContactForm | Frontend/script.js:466-489 | accepts iff all four rules hold; otherwise reports exactly the first broken rule, in the order name, email, subject, message |
| Forms.PaddedNameRefused | script.js:237 | the name is measured after trimming: `"  a  "` is refused |
| Forms.BlankSubjectAccepted | script.js:247 | the subject is only tested for being non-empty, so `" "` passes |
| Search.Candidate | script.js:110 | the candidate starts with `http`; it is the input iff the input starts with `http`, and otherwise `https://` followed by the input |
| Search.FrontendSearch | Frontend/script.js:102-119 | refused as empty iff the input is all spaces; a scan starts iff the trimmed input's candidate parses, and it receives the trimmed input |
| Search.SiteSearch | script.js:101-118 | refused as empty iff the input is the empty string; the placeholder iff the candidate parses |
| Search.BlankInput | script.js:102-106 | whitespace-only input is refused by the frontend but passes the site script's emptiness check |
| Search.HostNamedHttp | Frontend/script.js:111 | a host whose name starts with `http` reaches the parser without a scheme |

## Left out

- **Network and TLS.** The scanner's `requests` session, its retries and the
  initial `get` are not modelled. Neither are the socket and TLS handshake of
  the SSL/TLS check and the frontend's `fetch`. Their outcomes are inputs:
  `Scanner.Fetch`, `Scanner.Handshake` and `Report.FetchOutcome`. Whether
  the scanner raises an exception other than the `RequestException` it
  catches is the input `App.ScanRun`.
- **The XSS regex search.** Whether the page body matched is the input
  `potentialXss`. The third pattern in the list is never used, because
  only the first two are searched.
- **Header lookup.** `requests` exposes headers as a case-insensitive
  dictionary. The model uses an exact-key map read with the two spellings
  the code names.
- **Case mapping.** `lower`, `upper` and `title` are modelled on ASCII
  letters only.
- **The URL parser.** WHATWG URL parsing (`new URL`) is the parameter
  `parses`.
- **Timestamps.** `scan_time` and the contact `timestamp` come from the
  clock and are not in the payloads. The page's rendering of the scan time
  is not modelled.
- **Flask and the exception text.**
  - Flask routing, CORS, static files and `jsonify` are not modelled.
  - Neither is the parsing of the request body: the handlers take the
    parsed JSON value.
  - Apart from a scanner that raises (`App.ScanRun`), the 500 payloads
    carry only the fixed message prefix, not the text of the exception.
- **The TLS version string.** Only a successful handshake's protocol name
  is kept. The certificate is not inspected.
- **Page chrome.** These are not modelled:
  - HTML templates, CSS classes and icons;
  - the 100 ms show animation, and the 300 ms delay before
    `closeResults` removes the overlay (the model removes it at once);
  - the click and Escape listeners, and the alert texts (alerts are the
    `Report.Failure` causes);
  - the matrix rain, the menu and the form's error and success timers.
- **Report.Page.PerformSecurityScan:**
  - does not model the spinner being visible during the request, only the
    state before and after it;
  - does not model the request's URL: the outcome stands for the response
    to it;
  - relies on the browser's named access to the `websiteUrl` element when
    it clears the input;
  - runs as one atomic step. The source suspends at its three `await`s,
    and meanwhile the overlay's Escape, click and close handlers and the
    300 ms removal timer can change the body. Its contract on `elements`
    holds only for a scan nobody interacts with. Its contract on the
    button (the original content restored) also assumes that no second
    call overlaps it. The start-up code (Frontend/script.js:577-586) runs
    `initSearchFunctionality` at once and again on `DOMContentLoaded`. When
    the search elements already exist at the first run, the click handler
    is registered twice. One click then starts two calls, and the second
    one saves the spinner as the button's original content. If the first
    response arrives first, the button ends up enabled but still showing
    "Scanning...". The page's HTML is not part of this model, so whether
    the elements exist at the first run is not known;
  - assumes the response body is well typed: `results` is always a list
    of records. A `success` body without a `results` array makes
    `createResultsOverlay` throw after it has removed the old overlay. The
    user then gets an alert, no new overlay appears and the input is not
    cleared. The model cannot express that outcome.
- **Rendering is not escaped.** Backend strings are put into the page
  unescaped; the model claims nothing about escaping.
- **Frontend normalisation.** The frontend does not prepend a scheme to
  the URL it sends. The trimmed input goes to the backend, which normalises
  it. The `http` prefix test only builds the text handed to the URL
  parser.
- **Absent features.** Scan history, export and session storage are not
  in these files.
