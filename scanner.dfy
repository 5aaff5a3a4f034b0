/**
 * The header-check rules of the security scanner (Backend/scanner/security_scanner.py).
 *
 * Each check turns the response headers of one GET request (and sometimes the
 * URL) into one record `{check, description, passed, details, severity}`;
 * `ScanWebsite` fixes the order of the records. The network is not modelled:
 * whether the GET succeeded, whether the page body matched the XSS patterns
 * and how the TLS handshake ended are inputs.
 */
module Scanner {
  import opened Text

  datatype Severity = None | Low | Medium | High {
    /** The string the backend puts in the record. */
    function Name(): string
    {
      match this
      case None => "none"
      case Low => "low"
      case Medium => "medium"
      case High => "high"
    }
  }

  /** The eleven checks a record can report on. */
  datatype Check =
    | HttpsCheck | HstsCheck | ContentTypeCheck | FrameOptionsCheck | ServerInfoCheck | SslCheck
    | XssCheck | CspCheck | CookieCheck | ClickjackingCheck | AccessibilityCheck
  {
    /** The record's `check` string. */
    function Name(): string
    {
      match this
      case HttpsCheck => "HTTPS Encryption"
      case HstsCheck => "HTTP Strict Transport Security (HSTS)"
      case ContentTypeCheck => "X-Content-Type-Options"
      case FrameOptionsCheck => "X-Frame-Options"
      case ServerInfoCheck => "Server Information Disclosure"
      case SslCheck => "SSL/TLS Configuration"
      case XssCheck => "XSS Protection"
      case CspCheck => "Content Security Policy (CSP)"
      case CookieCheck => "Cookie Security"
      case ClickjackingCheck => "Clickjacking Protection"
      case AccessibilityCheck => "Website Accessibility"
    }
  }

  datatype CheckResult = CheckResult(
    check: Check,
    description: string,
    passed: bool,
    details: string,
    severity: Severity)

  // The fixed descriptions and messages of the records.

  const HttpsDescription := "Ensures data transmission is encrypted using HTTPS protocol"
  const HttpsDetails := "Website uses HTTPS encryption \U{2713}"
  const NoHttpsDetails := "Website does not use HTTPS - data transmission is not encrypted \U{26A0}\U{FE0F}"
  const HstsDescription := "Forces browsers to use HTTPS connections only"
  const NoHstsDetails := "No HSTS header found - browsers may connect via HTTP"
  const ContentTypeDescription := "Prevents MIME type sniffing attacks"
  const NoContentTypeDetails := "No X-Content-Type-Options header found"
  const FrameOptionsDescription := "Prevents clickjacking attacks by controlling iframe embedding"
  const NoFrameOptionsDetails := "No X-Frame-Options header found"
  const ServerInfoDescription := "Checks if server details are hidden from potential attackers"
  const ServerHiddenDetails := "No server information exposed \U{2713}"
  const ServerExposedPrefix := "Server information exposed: "
  const SslDescription := "Validates SSL certificate and TLS configuration"
  const SslNoHttpsDetails := "Website does not use HTTPS"
  const SslValidPrefix := "Valid SSL certificate found \U{2713} | TLS Version: "
  const SslIssuePrefix := "SSL/TLS configuration issue: "
  const XssDescription := "Checks for Cross-Site Scripting protection mechanisms"
  const NoXssHeaderDetails := "No X-XSS-Protection header found"
  const XssPatternsDetails := "Potential XSS patterns detected in content"
  const CspDescription := "Prevents XSS attacks by controlling resource loading"
  const CspDetails := "CSP Header found \U{2713}"
  const NoCspDetails := "No Content Security Policy header found"
  const NoCookiesDescription := "Checks for secure cookie attributes"
  const CookieDescription := "Checks for secure cookie attributes (Secure, HttpOnly, SameSite)"
  const NoCookiesDetails := "No cookies set by the server"
  const CookiesSecureDetails := "All security flags present \U{2713}"
  const MissingFlagsPrefix := "Missing security flags: "
  const ClickjackingDescription := "Prevents the website from being embedded in malicious frames"
  const FrameAncestorsDetails := "CSP frame-ancestors directive found"
  const NoClickjackingDetails := "No clickjacking protection found"
  const AccessibilityDescription := "Check if the website is accessible and responding"
  const AccessFailedPrefix := "Failed to access website: "

  // Header names, as looked up first in lower case and then in canonical case.

  const HstsKey := "strict-transport-security"
  const HstsName := "Strict-Transport-Security"
  const ContentTypeKey := "x-content-type-options"
  const ContentTypeName := "X-Content-Type-Options"
  const FrameOptionsKey := "x-frame-options"
  const FrameOptionsName := "X-Frame-Options"
  const ServerKey := "server"
  const ServerName := "Server"
  const PoweredByKey := "x-powered-by"
  const PoweredByName := "X-Powered-By"
  const XssKey := "x-xss-protection"
  const XssName := "X-XSS-Protection"
  const CspKey := "content-security-policy"
  const CspName := "Content-Security-Policy"
  const SetCookieKey := "set-cookie"
  const SetCookieName := "Set-Cookie"

  // The labels that put a header's value into a record's details.

  const HstsLabel := "HSTS Header: "
  const ContentTypeLabel := "X-Content-Type-Options: "
  const FrameOptionsLabel := "X-Frame-Options: "
  const ServerLabel := "Server: "
  const PoweredByLabel := "X-Powered-By: "
  const XssLabel := "X-XSS-Protection: "

  const NoSniffToken := "nosniff"
  const FrameAncestorsToken := "frame-ancestors"
  /** The X-Frame-Options values that protect, compared after upper-casing. */
  const ValidFrameOptions: seq<string> := ["DENY", "SAMEORIGIN"]

  /** Response headers as the scanner receives them. */
  type Headers = map<string, string>

  /** Outcome of the initial GET request. */
  datatype Fetch =
    | Fetched(headers: Headers, potentialXss: bool)
    | RequestFailed(reason: string)

  /** Outcome of the TLS handshake made by the SSL/TLS check. */
  datatype Handshake =
    | Established(protocol: string)
    | HandshakeFailed(reason: string)

  /**
   * `headers.get(lower) or headers.get(canonical)`, as every check reads it.
   * Every use then tests the value for truthiness, so an empty value and a
   * missing header are the same: both give "".
   */
  function Header(h: Headers, lower: string, canonical: string): (v: string)
    ensures v == "" <==> (lower !in h || h[lower] == "") && (canonical !in h || h[canonical] == "")
    ensures lower in h && h[lower] != "" ==> v == h[lower]
    ensures v != "" ==> (lower in h && v == h[lower]) || (canonical in h && v == h[canonical])
  {
    if lower in h && h[lower] != "" then h[lower]
    else if canonical in h then h[canonical]
    else ""
  }

  function Hsts(h: Headers): string { Header(h, HstsKey, HstsName) }
  function ContentTypeOptions(h: Headers): string { Header(h, ContentTypeKey, ContentTypeName) }
  function FrameOptions(h: Headers): string { Header(h, FrameOptionsKey, FrameOptionsName) }
  function ServerHeader(h: Headers): string { Header(h, ServerKey, ServerName) }
  function PoweredBy(h: Headers): string { Header(h, PoweredByKey, PoweredByName) }
  function XssHeader(h: Headers): string { Header(h, XssKey, XssName) }
  function Csp(h: Headers): string { Header(h, CspKey, CspName) }
  function SetCookie(h: Headers): string { Header(h, SetCookieKey, SetCookieName) }

  // The condition under which each check passes, stated on the inputs.

  predicate UsesHttps(url: string) { StartsWith(Lower(url), HttpsScheme) }
  predicate HasHsts(h: Headers) { Hsts(h) != "" }
  predicate NoSniff(h: Headers) { ContentTypeOptions(h) != "" && Contains(Lower(ContentTypeOptions(h)), NoSniffToken) }
  predicate FrameOptionsValid(h: Headers) { FrameOptions(h) != "" && Upper(FrameOptions(h)) in ValidFrameOptions }
  predicate ServerHidden(h: Headers) { ServerHeader(h) == "" && PoweredBy(h) == "" }
  predicate TlsVerified(url: string, tls: Handshake) { StartsWith(url, HttpsScheme) && tls.Established? }
  predicate XssProtected(h: Headers, potentialXss: bool) { Contains(XssHeader(h), "1") && !potentialXss }
  predicate HasCsp(h: Headers) { Csp(h) != "" }
  predicate FrameAncestors(h: Headers) { Csp(h) != "" && Contains(Lower(Csp(h)), FrameAncestorsToken) }
  predicate ClickjackingProtected(h: Headers) { FrameOptionsValid(h) || FrameAncestors(h) }

  /** The cookie attributes the cookie check looks for, in the order it reports them. */
  const SecureFlag := "Secure"
  const HttpOnlyFlag := "HttpOnly"
  const SameSiteFlag := "SameSite"
  const SecureFlags: seq<string> := [SecureFlag, HttpOnlyFlag, SameSiteFlag]

  predicate CookiesSecure(h: Headers)
  {
    SetCookie(h) == "" || forall f :: f in SecureFlags ==> Contains(SetCookie(h), f)
  }

  /** The checks of a scan whose request succeeded, in the order of their records. */
  const CheckOrder: seq<Check> := [
    HttpsCheck, HstsCheck, ContentTypeCheck, FrameOptionsCheck, ServerInfoCheck,
    SslCheck, XssCheck, CspCheck, CookieCheck, ClickjackingCheck]

  /** A record whose `passed` is true carries severity none. */
  predicate Consistent(r: CheckResult)
  {
    r.passed ==> r.severity == None
  }

  /** A consistent record with details to show. */
  predicate WellFormed(r: CheckResult)
  {
    Consistent(r) && r.details != ""
  }

  /** A failed record carries a severity other than none. */
  predicate Loud(r: CheckResult)
  {
    !r.passed ==> r.severity != None
  }

  /** `_check_https`: the scheme test on the lower-cased URL. */
  function CheckHttps(url: string): (r: CheckResult)
    ensures r.check == HttpsCheck && Consistent(r) && r.details != ""
    ensures r.passed <==> UsesHttps(url)
    ensures !r.passed ==> r.severity == High
  {
    var isHttps := StartsWith(Lower(url), HttpsScheme);
    CheckResult(
      HttpsCheck,
      HttpsDescription,
      isHttps,
      if isHttps then HttpsDetails else NoHttpsDetails,
      if !isHttps then High else None)
  }

  /** The HSTS record of `_check_security_headers`: passes when the header is present. */
  function HstsRecord(h: Headers): (r: CheckResult)
    ensures r.check == HstsCheck && Consistent(r) && r.details != ""
    ensures r.passed <==> HasHsts(h)
    ensures !r.passed ==> r.severity == Medium && r.details == NoHstsDetails
    ensures r.passed ==> r.details == HstsLabel + Hsts(h)
  {
    if HasHsts(h) then CheckResult(HstsCheck, HstsDescription, true, HstsLabel + Hsts(h), None)
    else CheckResult(HstsCheck, HstsDescription, false, NoHstsDetails, Medium)
  }

  /**
   * The X-Content-Type-Options record of `_check_security_headers`. Its
   * severity records only whether the header is present, so a header without
   * `nosniff` fails with severity none.
   */
  function ContentTypeRecord(h: Headers): (r: CheckResult)
    ensures r.check == ContentTypeCheck && Consistent(r) && r.details != ""
    ensures r.passed <==> NoSniff(h)
    ensures r.severity == if ContentTypeOptions(h) == "" then Medium else None
    ensures ContentTypeOptions(h) == "" ==> r.details == NoContentTypeDetails
  {
    var value := ContentTypeOptions(h);
    if value == "" then CheckResult(ContentTypeCheck, ContentTypeDescription, false, NoContentTypeDetails, Medium)
    else CheckResult(ContentTypeCheck, ContentTypeDescription, NoSniff(h), ContentTypeLabel + value, None)
  }

  /**
   * The X-Frame-Options record of `_check_security_headers`. As with
   * X-Content-Type-Options, a present value other than DENY or SAMEORIGIN
   * fails with severity none.
   */
  function FrameOptionsRecord(h: Headers): (r: CheckResult)
    ensures r.check == FrameOptionsCheck && Consistent(r) && r.details != ""
    ensures r.passed <==> FrameOptionsValid(h)
    ensures r.severity == if FrameOptions(h) == "" then Medium else None
    ensures FrameOptions(h) == "" ==> r.details == NoFrameOptionsDetails
  {
    var value := FrameOptions(h);
    if value == "" then CheckResult(FrameOptionsCheck, FrameOptionsDescription, false, NoFrameOptionsDetails, Medium)
    else CheckResult(FrameOptionsCheck, FrameOptionsDescription, FrameOptionsValid(h), FrameOptionsLabel + value, None)
  }

  /** `_check_security_headers`: the HSTS, X-Content-Type-Options and X-Frame-Options records, in order. */
  method CheckSecurityHeaders(h: Headers) returns (checks: seq<CheckResult>)
    ensures checks == [HstsRecord(h), ContentTypeRecord(h), FrameOptionsRecord(h)]
  {
    checks := [];

    var hsts := Hsts(h);
    checks := checks + [CheckResult(
      HstsCheck,
      HstsDescription,
      hsts != "",
      if hsts != "" then HstsLabel + hsts else NoHstsDetails,
      if hsts == "" then Medium else None)];

    var xcto := ContentTypeOptions(h);
    checks := checks + [CheckResult(
      ContentTypeCheck,
      ContentTypeDescription,
      xcto != "" && Contains(Lower(xcto), NoSniffToken),
      if xcto != "" then ContentTypeLabel + xcto else NoContentTypeDetails,
      if xcto == "" then Medium else None)];

    var xfo := FrameOptions(h);
    checks := checks + [CheckResult(
      FrameOptionsCheck,
      FrameOptionsDescription,
      xfo != "" && Upper(xfo) in ValidFrameOptions,
      if xfo != "" then FrameOptionsLabel + xfo else NoFrameOptionsDetails,
      if xfo == "" then Medium else None)];
  }

  /** The disclosures the server-information check reports: Server, then X-Powered-By. */
  function Disclosures(h: Headers): (items: seq<string>)
    ensures items == [] <==> ServerHidden(h)
    ensures |items| <= 2
  {
    (if ServerHeader(h) != "" then [ServerLabel + ServerHeader(h)] else [])
    + (if PoweredBy(h) != "" then [PoweredByLabel + PoweredBy(h)] else [])
  }

  /** The record of `_check_server_info`: fails with severity low when anything is disclosed. */
  function ServerInfoRecord(h: Headers): (r: CheckResult)
    ensures r.check == ServerInfoCheck && Consistent(r) && r.details != ""
    ensures r.passed <==> ServerHidden(h)
    ensures !r.passed ==> r.severity == Low
    ensures r.passed ==> r.details == ServerHiddenDetails
  {
    if ServerHidden(h) then CheckResult(ServerInfoCheck, ServerInfoDescription, true, ServerHiddenDetails, None)
    else CheckResult(ServerInfoCheck, ServerInfoDescription, false,
                     ServerExposedPrefix + Join(Disclosures(h), ", "), Low)
  }

  /** `_check_server_info`: collects what Server and X-Powered-By disclose. */
  method CheckServerInfo(h: Headers) returns (r: CheckResult)
    ensures r == ServerInfoRecord(h)
  {
    var server := ServerHeader(h);
    var poweredBy := PoweredBy(h);

    var exposed: seq<string> := [];
    if server != "" {
      exposed := exposed + [ServerLabel + server];
    }
    if poweredBy != "" {
      exposed := exposed + [PoweredByLabel + poweredBy];
    }

    var isSecure := |exposed| == 0;
    r := CheckResult(
      ServerInfoCheck,
      ServerInfoDescription,
      isSecure,
      if isSecure then ServerHiddenDetails else ServerExposedPrefix + Join(exposed, ", "),
      if !isSecure then Low else None);
  }

  /** The disclosure details name Server before X-Powered-By, separated by ", ". */
  lemma ServerInfoDetails(h: Headers)
    ensures ServerHeader(h) != "" && PoweredBy(h) != "" ==>
      ServerInfoRecord(h).details
      == ServerExposedPrefix + ServerLabel + ServerHeader(h) + ", " + PoweredByLabel + PoweredBy(h)
    ensures ServerHeader(h) != "" && PoweredBy(h) == "" ==>
      ServerInfoRecord(h).details == ServerExposedPrefix + ServerLabel + ServerHeader(h)
    ensures ServerHeader(h) == "" && PoweredBy(h) != "" ==>
      ServerInfoRecord(h).details == ServerExposedPrefix + PoweredByLabel + PoweredBy(h)
  {
    var server, poweredBy := ServerLabel + ServerHeader(h), PoweredByLabel + PoweredBy(h);
    JoinShort(server, poweredBy, ", ");
    JoinShort(poweredBy, server, ", ");
    if ServerHeader(h) != "" && PoweredBy(h) != "" {
      assert Disclosures(h) == [server, poweredBy];
    }
  }

  /**
   * `_check_ssl_config`. A URL that does not start with `https://` (compared
   * case-sensitively, unlike `CheckHttps`) fails at once; otherwise the
   * outcome of the handshake decides.
   */
  function CheckSsl(url: string, tls: Handshake): (r: CheckResult)
    ensures r.check == SslCheck && Consistent(r) && r.details != ""
    ensures r.passed <==> TlsVerified(url, tls)
    ensures !r.passed ==> r.severity == High
    ensures !StartsWith(url, HttpsScheme) ==> r.details == SslNoHttpsDetails
  {
    if !StartsWith(url, HttpsScheme) then
      CheckResult(SslCheck, SslDescription, false, SslNoHttpsDetails, High)
    else
      match tls
      case Established(protocol) =>
        CheckResult(SslCheck, SslDescription, true, SslValidPrefix + protocol, None)
      case HandshakeFailed(reason) =>
        CheckResult(SslCheck, SslDescription, false, SslIssuePrefix + reason, High)
  }

  /** The first part of the XSS details: the header's value, or its absence. */
  function XssHeaderPart(h: Headers): string
  {
    if XssHeader(h) != "" then XssLabel + XssHeader(h) else NoXssHeaderDetails
  }

  /**
   * The record of `_check_xss_protection`. `potentialXss` says whether the page
   * body matched one of the first two patterns (the third is never used). A
   * match outranks a missing header in the severity.
   */
  function XssRecord(h: Headers, potentialXss: bool): (r: CheckResult)
    ensures r.check == XssCheck && Consistent(r) && r.details != ""
    ensures r.passed <==> XssProtected(h, potentialXss)
    ensures r.severity == if potentialXss then High
                          else if !Contains(XssHeader(h), "1") then Medium
                          else None
    ensures r.details == if potentialXss then XssHeaderPart(h) + " | " + XssPatternsDetails else XssHeaderPart(h)
  {
    CheckResult(
      XssCheck,
      XssDescription,
      XssProtected(h, potentialXss),
      if potentialXss then XssHeaderPart(h) + " | " + XssPatternsDetails else XssHeaderPart(h),
      if potentialXss then High else if !Contains(XssHeader(h), "1") then Medium else None)
  }

  /** `_check_xss_protection`: joins the header part and the pattern warning with " | ". */
  method CheckXssProtection(h: Headers, potentialXss: bool) returns (r: CheckResult)
    ensures r == XssRecord(h, potentialXss)
  {
    var xssProtection := XssHeader(h);
    var hasProtection := xssProtection != "" && Contains(xssProtection, "1");

    var details: seq<string> := [];
    if xssProtection != "" {
      details := details + [XssLabel + xssProtection];
    } else {
      details := details + [NoXssHeaderDetails];
    }
    if potentialXss {
      details := details + [XssPatternsDetails];
    }

    JoinShort(details[0], XssPatternsDetails, " | ");
    if potentialXss {
      assert details == [details[0], XssPatternsDetails];
    } else {
      assert details == [details[0]];
    }
    r := CheckResult(
      XssCheck,
      XssDescription,
      hasProtection && !potentialXss,
      Join(details, " | "),
      if potentialXss then High else if !hasProtection then Medium else None);
  }

  /** `_check_csp`: passes when a Content-Security-Policy header is present. */
  function CheckCsp(h: Headers): (r: CheckResult)
    ensures r.check == CspCheck && Consistent(r) && r.details != ""
    ensures r.passed <==> HasCsp(h)
    ensures !r.passed ==> r.severity == Medium
  {
    var csp := Csp(h);
    CheckResult(
      CspCheck,
      CspDescription,
      csp != "",
      if csp != "" then CspDetails else NoCspDetails,
      if csp == "" then Medium else None)
  }

  /** The flags of `flags`, in their order, that do not occur in `cookie`. */
  function MissingFlags(cookie: string, flags: seq<string>): seq<string>
  {
    if flags == [] then []
    else
      var last := flags[|flags| - 1];
      MissingFlags(cookie, flags[..|flags| - 1]) + (if Contains(cookie, last) then [] else [last])
  }

  /** A flag is reported missing exactly when it is one of `flags` and absent from the cookie. */
  lemma {:induction false} MissingFlagsMembers(cookie: string, flags: seq<string>)
    ensures forall f :: f in MissingFlags(cookie, flags) <==> f in flags && !Contains(cookie, f)
  {
    if flags != [] {
      var init := flags[..|flags| - 1];
      MissingFlagsMembers(cookie, init);
      assert flags == init + [flags[|flags| - 1]];
    }
  }

  /** The cookie check lists Secure, then HttpOnly, then SameSite. */
  lemma SecureFlagsReportedInOrder(cookie: string)
    ensures MissingFlags(cookie, SecureFlags) ==
      (if Contains(cookie, SecureFlag) then [] else [SecureFlag])
      + (if Contains(cookie, HttpOnlyFlag) then [] else [HttpOnlyFlag])
      + (if Contains(cookie, SameSiteFlag) then [] else [SameSiteFlag])
  {
    var one, two := SecureFlags[..1], SecureFlags[..2];
    assert one[..0] == [] && two[..1] == one && SecureFlags[..2] == two;
    assert MissingFlags(cookie, one) == (if Contains(cookie, SecureFlag) then [] else [SecureFlag]);
    assert MissingFlags(cookie, two) == MissingFlags(cookie, one)
      + (if Contains(cookie, HttpOnlyFlag) then [] else [HttpOnlyFlag]);
  }

  /**
   * The record of `_check_cookie_security`: with no Set-Cookie header it
   * passes; otherwise it passes exactly when no flag of `SecureFlags` is
   * missing, and lists the missing ones.
   */
  function CookieRecord(h: Headers): (r: CheckResult)
    ensures r.check == CookieCheck && Consistent(r) && r.details != ""
    ensures r.passed <==> CookiesSecure(h)
    ensures !r.passed ==> r.severity == Medium
    ensures SetCookie(h) == "" ==> r.description == NoCookiesDescription && r.details == NoCookiesDetails
    ensures SetCookie(h) != "" && !r.passed ==>
      r.details == MissingFlagsPrefix + Join(MissingFlags(SetCookie(h), SecureFlags), ", ")
  {
    var cookie := SetCookie(h);
    var missing := MissingFlags(cookie, SecureFlags);
    MissingFlagsMembers(cookie, SecureFlags);
    assert missing != [] ==> missing[0] in missing;
    if cookie == "" then CheckResult(CookieCheck, NoCookiesDescription, true, NoCookiesDetails, None)
    else if missing == [] then CheckResult(CookieCheck, CookieDescription, true, CookiesSecureDetails, None)
    else CheckResult(CookieCheck, CookieDescription, false, MissingFlagsPrefix + Join(missing, ", "), Medium)
  }

  /** `_check_cookie_security`: looks for each flag of `SecureFlags` in turn, case-sensitively. */
  method CheckCookieSecurity(h: Headers) returns (r: CheckResult)
    ensures r == CookieRecord(h)
  {
    var setCookie := SetCookie(h);

    if setCookie == "" {
      return CheckResult(CookieCheck, NoCookiesDescription, true, NoCookiesDetails, None);
    }

    var missing: seq<string> := [];
    for i := 0 to |SecureFlags|
      invariant missing == MissingFlags(setCookie, SecureFlags[..i])
    {
      var flag := SecureFlags[i];
      assert SecureFlags[..i + 1] == SecureFlags[..i] + [flag];
      if !Contains(setCookie, flag) {
        missing := missing + [flag];
      }
    }
    assert SecureFlags[..|SecureFlags|] == SecureFlags;

    var isSecure := |missing| == 0;
    r := CheckResult(
      CookieCheck,
      CookieDescription,
      isSecure,
      if isSecure then CookiesSecureDetails else MissingFlagsPrefix + Join(missing, ", "),
      if !isSecure then Medium else None);
  }

  /**
   * The record of `_check_clickjacking`: protected by a valid X-Frame-Options
   * value or by a CSP that mentions `frame-ancestors` in any case.
   */
  function ClickjackingRecord(h: Headers): (r: CheckResult)
    ensures r.check == ClickjackingCheck && Consistent(r) && r.details != ""
    ensures r.passed <==> ClickjackingProtected(h)
    ensures !r.passed ==> r.severity == Medium
  {
    var xfoPart := if FrameOptions(h) != "" then [FrameOptionsLabel + FrameOptions(h)] else [];
    var parts :=
      if FrameAncestors(h) then xfoPart + [FrameAncestorsDetails]
      else if FrameOptionsValid(h) then xfoPart
      else xfoPart + [NoClickjackingDetails];
    assert parts[0] != "";
    CheckResult(
      ClickjackingCheck,
      ClickjackingDescription,
      ClickjackingProtected(h),
      Join(parts, " | "),
      if ClickjackingProtected(h) then None else Medium)
  }

  /** `_check_clickjacking`: collects the header value, the CSP directive and the verdict. */
  method CheckClickjacking(h: Headers) returns (r: CheckResult)
    ensures r == ClickjackingRecord(h)
  {
    var frameOptions := FrameOptions(h);
    var csp := Csp(h);

    var cspProtection := csp != "" && Contains(Lower(csp), FrameAncestorsToken);
    var xfoProtection := frameOptions != "" && Upper(frameOptions) in ValidFrameOptions;
    var hasProtection := xfoProtection || cspProtection;

    var details: seq<string> := [];
    if frameOptions != "" {
      details := details + [FrameOptionsLabel + frameOptions];
    }
    if cspProtection {
      details := details + [FrameAncestorsDetails];
    }
    if !hasProtection {
      details := details + [NoClickjackingDetails];
    }

    r := CheckResult(
      ClickjackingCheck,
      ClickjackingDescription,
      hasProtection,
      Join(details, " | "),
      if !hasProtection then Medium else None);
  }

  /**
   * The clickjacking details: the header value first when there is one, then
   * the CSP directive when it protects, else the missing-protection message.
   */
  lemma ClickjackingDetails(h: Headers)
    ensures var d, xfo := ClickjackingRecord(h).details, FrameOptionsLabel + FrameOptions(h);
      && (FrameOptions(h) != "" && FrameAncestors(h) ==> d == xfo + " | " + FrameAncestorsDetails)
      && (FrameOptions(h) != "" && !FrameAncestors(h) && FrameOptionsValid(h) ==> d == xfo)
      && (FrameOptions(h) != "" && !ClickjackingProtected(h) ==> d == xfo + " | " + NoClickjackingDetails)
      && (FrameOptions(h) == "" && FrameAncestors(h) ==> d == FrameAncestorsDetails)
      && (FrameOptions(h) == "" && !FrameAncestors(h) ==> d == NoClickjackingDetails)
  {
    var xfo := FrameOptionsLabel + FrameOptions(h);
    JoinShort(xfo, FrameAncestorsDetails, " | ");
    JoinShort(xfo, NoClickjackingDetails, " | ");
    JoinShort(FrameAncestorsDetails, xfo, " | ");
    JoinShort(NoClickjackingDetails, xfo, " | ");
  }

  /** The single record `scan_website` returns when the initial request raises. */
  function AccessFailure(reason: string): (r: CheckResult)
    ensures r.check == AccessibilityCheck && !r.passed && r.severity == High
    ensures StartsWith(r.details, AccessFailedPrefix) && r.details[|AccessFailedPrefix|..] == reason
  {
    CheckResult(AccessibilityCheck, AccessibilityDescription, false, AccessFailedPrefix + reason, High)
  }

  /**
   * What `scan_website` returns: the records of the ten checks in the order it
   * appends them, or the access failure alone when the request raised.
   */
  function ScanReport(url: string, fetch: Fetch, tls: Handshake): (rs: seq<CheckResult>)
    ensures fetch.RequestFailed? ==> rs == [AccessFailure(fetch.reason)]
    ensures fetch.Fetched? ==> |rs| == |CheckOrder|
  {
    match fetch
    case RequestFailed(reason) => [AccessFailure(reason)]
    case Fetched(h, potentialXss) =>
      [CheckHttps(url)]
      + [HstsRecord(h), ContentTypeRecord(h), FrameOptionsRecord(h)]
      + [ServerInfoRecord(h), CheckSsl(url, tls), XssRecord(h, potentialXss), CheckCsp(h),
         CookieRecord(h), ClickjackingRecord(h)]
  }

  /** `scan_website`: appends each check's records in turn; a failed request yields one record. */
  method ScanWebsite(url: string, fetch: Fetch, tls: Handshake) returns (results: seq<CheckResult>)
    ensures results == ScanReport(url, fetch, tls)
  {
    results := [];
    match fetch {
      case RequestFailed(reason) =>
        results := results + [AccessFailure(reason)];
      case Fetched(headers, potentialXss) =>
        // 1. HTTPS
        var https := CheckHttps(url);
        results := results + [https];
        // 2. Security headers
        var securityHeaders := CheckSecurityHeaders(headers);
        results := results + securityHeaders;
        // 3. Server information disclosure
        var serverInfo := CheckServerInfo(headers);
        results := results + [serverInfo];
        // 4. SSL/TLS configuration
        var ssl := CheckSsl(url, tls);
        results := results + [ssl];
        // 5. XSS protection
        var xss := CheckXssProtection(headers, potentialXss);
        results := results + [xss];
        // 6. Content Security Policy
        var csp := CheckCsp(headers);
        results := results + [csp];
        // 7. Cookie security
        var cookies := CheckCookieSecurity(headers);
        results := results + [cookies];
        // 8. Clickjacking protection
        var clickjacking := CheckClickjacking(headers);
        results := results + [clickjacking];
        AppendedInOrder(https, securityHeaders, serverInfo, ssl, xss, csp, cookies, clickjacking);
    }
  }

  /** Appending the records one by one to an empty list lays them out as `ScanReport` does. */
  lemma AppendedInOrder(https: CheckResult, headers: seq<CheckResult>, serverInfo: CheckResult, ssl: CheckResult,
                        xss: CheckResult, csp: CheckResult, cookies: CheckResult, clickjacking: CheckResult)
    ensures [] + [https] + headers + [serverInfo] + [ssl] + [xss] + [csp] + [cookies] + [clickjacking]
         == [https] + headers + [serverInfo, ssl, xss, csp, cookies, clickjacking]
  {
  }

  /** Ten records laid out the way `ScanReport` lays out a successful scan, each at its index. */
  lemma AssembledAt(
    rs: seq<CheckResult>, r0: CheckResult, r1: CheckResult, r2: CheckResult, r3: CheckResult, r4: CheckResult,
    r5: CheckResult, r6: CheckResult, r7: CheckResult, r8: CheckResult, r9: CheckResult)
    requires rs == [r0] + [r1, r2, r3] + [r4, r5, r6, r7, r8, r9]
    ensures |rs| == 10
    ensures rs[0] == r0 && rs[1] == r1 && rs[2] == r2 && rs[3] == r3 && rs[4] == r4
    ensures rs[5] == r5 && rs[6] == r6 && rs[7] == r7 && rs[8] == r8 && rs[9] == r9
  {
  }

  /** Ten records laid out that way, each reporting its check of `CheckOrder`, keep that order. */
  lemma AssembledChecks(
    rs: seq<CheckResult>, r0: CheckResult, r1: CheckResult, r2: CheckResult, r3: CheckResult, r4: CheckResult,
    r5: CheckResult, r6: CheckResult, r7: CheckResult, r8: CheckResult, r9: CheckResult)
    requires rs == [r0] + [r1, r2, r3] + [r4, r5, r6, r7, r8, r9]
    requires r0.check == HttpsCheck && r1.check == HstsCheck && r2.check == ContentTypeCheck
    requires r3.check == FrameOptionsCheck && r4.check == ServerInfoCheck && r5.check == SslCheck
    requires r6.check == XssCheck && r7.check == CspCheck && r8.check == CookieCheck
    requires r9.check == ClickjackingCheck
    ensures |rs| == |CheckOrder| && forall i :: 0 <= i < |rs| ==> rs[i].check == CheckOrder[i]
  {
    AssembledAt(rs, r0, r1, r2, r3, r4, r5, r6, r7, r8, r9);
  }

  /** Ten records laid out that way that are each well formed are well formed at every index. */
  lemma AssembledConsistent(
    rs: seq<CheckResult>, r0: CheckResult, r1: CheckResult, r2: CheckResult, r3: CheckResult, r4: CheckResult,
    r5: CheckResult, r6: CheckResult, r7: CheckResult, r8: CheckResult, r9: CheckResult)
    requires rs == [r0] + [r1, r2, r3] + [r4, r5, r6, r7, r8, r9]
    requires WellFormed(r0) && WellFormed(r1) && WellFormed(r2) && WellFormed(r3) && WellFormed(r4)
    requires WellFormed(r5) && WellFormed(r6) && WellFormed(r7) && WellFormed(r8) && WellFormed(r9)
    ensures forall i :: 0 <= i < |rs| ==> WellFormed(rs[i])
  {
    AssembledAt(rs, r0, r1, r2, r3, r4, r5, r6, r7, r8, r9);
  }

  /**
   * Ten records laid out that way fail with severity none only at indices 2
   * and 3 when no other record does.
   */
  lemma AssembledSilentFailures(
    rs: seq<CheckResult>, r0: CheckResult, r1: CheckResult, r2: CheckResult, r3: CheckResult, r4: CheckResult,
    r5: CheckResult, r6: CheckResult, r7: CheckResult, r8: CheckResult, r9: CheckResult)
    requires rs == [r0] + [r1, r2, r3] + [r4, r5, r6, r7, r8, r9]
    requires Loud(r0) && Loud(r1) && Loud(r4) && Loud(r5)
    requires Loud(r6) && Loud(r7) && Loud(r8) && Loud(r9)
    ensures forall i :: 0 <= i < |rs| && !rs[i].passed && rs[i].severity == None ==> i == 2 || i == 3
  {
    AssembledAt(rs, r0, r1, r2, r3, r4, r5, r6, r7, r8, r9);
  }

  /** Every check's record is well formed. */
  lemma RecordsWellFormed(url: string, h: Headers, potentialXss: bool, tls: Handshake)
    ensures WellFormed(CheckHttps(url)) && WellFormed(HstsRecord(h)) && WellFormed(ContentTypeRecord(h))
    ensures WellFormed(FrameOptionsRecord(h)) && WellFormed(ServerInfoRecord(h)) && WellFormed(CheckSsl(url, tls))
    ensures WellFormed(XssRecord(h, potentialXss)) && WellFormed(CheckCsp(h)) && WellFormed(CookieRecord(h))
    ensures WellFormed(ClickjackingRecord(h))
  {
  }

  /** Every check's record except the X-Content-Type-Options and X-Frame-Options ones fails loudly. */
  lemma RecordsLoud(url: string, h: Headers, potentialXss: bool, tls: Handshake)
    ensures Loud(CheckHttps(url)) && Loud(HstsRecord(h)) && Loud(ServerInfoRecord(h)) && Loud(CheckSsl(url, tls))
    ensures Loud(XssRecord(h, potentialXss)) && Loud(CheckCsp(h)) && Loud(CookieRecord(h))
    ensures Loud(ClickjackingRecord(h))
  {
  }

  /** The records of a successful scan are the ten checks' records, at the indices of `CheckOrder`. */
  lemma FetchedRecordsAt(url: string, h: Headers, potentialXss: bool, tls: Handshake)
    ensures var rs := ScanReport(url, Fetched(h, potentialXss), tls);
      && rs[0] == CheckHttps(url) && rs[1] == HstsRecord(h) && rs[2] == ContentTypeRecord(h)
      && rs[3] == FrameOptionsRecord(h) && rs[4] == ServerInfoRecord(h) && rs[5] == CheckSsl(url, tls)
      && rs[6] == XssRecord(h, potentialXss) && rs[7] == CheckCsp(h) && rs[8] == CookieRecord(h)
      && rs[9] == ClickjackingRecord(h)
  {
    AssembledAt(ScanReport(url, Fetched(h, potentialXss), tls),
      CheckHttps(url), HstsRecord(h), ContentTypeRecord(h), FrameOptionsRecord(h), ServerInfoRecord(h),
      CheckSsl(url, tls), XssRecord(h, potentialXss), CheckCsp(h), CookieRecord(h), ClickjackingRecord(h));
  }

  /** A successful scan reports the checks of `CheckOrder`, in that order. */
  lemma FetchedChecks(url: string, h: Headers, potentialXss: bool, tls: Handshake)
    ensures var rs := ScanReport(url, Fetched(h, potentialXss), tls);
      |rs| == |CheckOrder| && forall i :: 0 <= i < |rs| ==> rs[i].check == CheckOrder[i]
  {
    AssembledChecks(ScanReport(url, Fetched(h, potentialXss), tls),
      CheckHttps(url), HstsRecord(h), ContentTypeRecord(h), FrameOptionsRecord(h), ServerInfoRecord(h),
      CheckSsl(url, tls), XssRecord(h, potentialXss), CheckCsp(h), CookieRecord(h), ClickjackingRecord(h));
  }

  /** Every record of a successful scan is consistent and has details. */
  lemma FetchedConsistent(url: string, h: Headers, potentialXss: bool, tls: Handshake)
    ensures var rs := ScanReport(url, Fetched(h, potentialXss), tls);
      forall i :: 0 <= i < |rs| ==> WellFormed(rs[i])
  {
    RecordsWellFormed(url, h, potentialXss, tls);
    AssembledConsistent(ScanReport(url, Fetched(h, potentialXss), tls),
      CheckHttps(url), HstsRecord(h), ContentTypeRecord(h), FrameOptionsRecord(h), ServerInfoRecord(h),
      CheckSsl(url, tls), XssRecord(h, potentialXss), CheckCsp(h), CookieRecord(h), ClickjackingRecord(h));
  }

  /** In a successful scan only the records at indices 2 and 3 can fail with severity none. */
  lemma FetchedSilentFailures(url: string, h: Headers, potentialXss: bool, tls: Handshake)
    ensures var rs := ScanReport(url, Fetched(h, potentialXss), tls);
      forall i :: 0 <= i < |rs| && !rs[i].passed && rs[i].severity == None ==> i == 2 || i == 3
  {
    RecordsLoud(url, h, potentialXss, tls);
    AssembledSilentFailures(ScanReport(url, Fetched(h, potentialXss), tls),
      CheckHttps(url), HstsRecord(h), ContentTypeRecord(h), FrameOptionsRecord(h), ServerInfoRecord(h),
      CheckSsl(url, tls), XssRecord(h, potentialXss), CheckCsp(h), CookieRecord(h), ClickjackingRecord(h));
  }

  /**
   * A successful scan reports the ten checks of `CheckOrder`; a failed request
   * reports "Website Accessibility" alone, failed with severity high. Either way
   * a passed record carries severity none and every record has details.
   */
  lemma ScanShape(url: string, fetch: Fetch, tls: Handshake)
    ensures var rs := ScanReport(url, fetch, tls);
      && (fetch.Fetched? ==> |rs| == |CheckOrder| && forall i :: 0 <= i < |rs| ==> rs[i].check == CheckOrder[i])
      && (fetch.RequestFailed? ==> |rs| == 1 && rs[0].check == AccessibilityCheck && !rs[0].passed
                                   && rs[0].severity == High)
      && (forall i :: 0 <= i < |rs| ==> WellFormed(rs[i]))
  {
    if fetch.Fetched? {
      FetchedChecks(url, fetch.headers, fetch.potentialXss, tls);
      FetchedConsistent(url, fetch.headers, fetch.potentialXss, tls);
    }
  }

  /** Each record of a successful scan passes exactly when its rule holds of the inputs. */
  lemma ScanVerdicts(url: string, h: Headers, potentialXss: bool, tls: Handshake)
    ensures var rs := ScanReport(url, Fetched(h, potentialXss), tls);
      && (rs[0].passed <==> UsesHttps(url))
      && (rs[1].passed <==> HasHsts(h))
      && (rs[2].passed <==> NoSniff(h))
      && (rs[3].passed <==> FrameOptionsValid(h))
      && (rs[4].passed <==> ServerHidden(h))
      && (rs[5].passed <==> TlsVerified(url, tls))
      && (rs[6].passed <==> XssProtected(h, potentialXss))
      && (rs[7].passed <==> HasCsp(h))
      && (rs[8].passed <==> CookiesSecure(h))
      && (rs[9].passed <==> ClickjackingProtected(h))
  {
    FetchedRecordsAt(url, h, potentialXss, tls);
  }

  /**
   * Failing with severity none happens only to the X-Content-Type-Options and
   * X-Frame-Options records, whose severity records absence rather than validity.
   */
  lemma ScanSilentFailures(url: string, fetch: Fetch, tls: Handshake)
    ensures var rs := ScanReport(url, fetch, tls);
      forall i :: 0 <= i < |rs| && !rs[i].passed && rs[i].severity == None ==> fetch.Fetched? && (i == 2 || i == 3)
  {
    if fetch.Fetched? {
      FetchedSilentFailures(url, fetch.headers, fetch.potentialXss, tls);
    }
  }

  /** An X-Content-Type-Options header without `nosniff` fails with severity none. */
  lemma SilentContentTypeFailure()
    ensures var r := ContentTypeRecord(map["X-Content-Type-Options" := "sniff"]);
      !r.passed && r.severity == None
  {
    var h := map["X-Content-Type-Options" := "sniff"];
    assert ContentTypeOptions(h) == "sniff";
    assert Lower("sniff") == "sniff";
    assert !Contains("sniff", NoSniffToken);
  }

  /**
   * Whenever the SSL/TLS check gets as far as the handshake, the HTTPS check
   * has passed: a case-sensitive `https://` prefix is also a prefix after
   * lower-casing.
   */
  lemma SslHandshakeImpliesHttps(url: string)
    requires StartsWith(url, HttpsScheme)
    ensures UsesHttps(url)
  {
    LowerKeepsPrefix(url, HttpsScheme);
  }

  /**
   * The converse fails: an upper-case scheme passes the HTTPS check and takes
   * the SSL/TLS check's high-severity failure, whatever the handshake.
   */
  lemma UpperCaseSchemeSplitsVerdicts(host: string, tls: Handshake)
    ensures CheckHttps("HTTPS://" + host).passed
    ensures !CheckSsl("HTTPS://" + host, tls).passed && CheckSsl("HTTPS://" + host, tls).severity == High
  {
    var url := "HTTPS://" + host;
    LowerConcat("HTTPS://", host);
    assert Lower("HTTPS://") == HttpsScheme;
    assert url[..8] == "HTTPS://";
  }
}
