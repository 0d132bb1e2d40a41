/** The URL risk scorer of the URL analyzer component: input normalisation,
    the whitelist check, six scoring rules evaluated in a fixed order, the
    mapping of the score to a risk tier, the fallback for hosts no rule flags,
    and the assembly of the analysis record with its canned advice. The two
    random draws of the component are parameters. */
module UrlAnalyzer {
  import opened Wrappers
  import opened Text

  // ---------------------------------------------------------------------------
  // Data model

  /** Risk tiers, from least to most severe. */
  datatype Tier = Safe | Low | Medium | High | Critical

  /** The position of a tier in the order safe < low < medium < high < critical. */
  function Rank(t: Tier): nat {
    match t
    case Safe => 0
    case Low => 1
    case Medium => 2
    case High => 3
    case Critical => 4
  }

  /** The name the component shows and switches on. */
  function TierName(t: Tier): string {
    match t
    case Safe => "safe"
    case Low => "low"
    case Medium => "medium"
    case High => "high"
    case Critical => "critical"
  }

  datatype Severity = Info | Warning | Error

  /** One entry of the list of detected threats, named by what raised it: one
      of the six scoring rules, the whitelist, or the fallback for hosts no
      rule flags. Its type, severity and description follow from that
      (`Title`, `SeverityOf`, `Description`). */
  datatype Finding =
    | KnownMalicious
    | SuspiciousTld
    | UrlShortener
    | SpoofingAttempt
    | ComplexStructure
    | BrandImpersonation(brand: string)
    | VerifiedSafeDomain
    | NoMajorThreats

  datatype DomainInfo = DomainInfo(registrar: string, created: string, country: string, ssl: bool)

  /** The record the scorer returns and the component displays. */
  datatype ThreatAnalysis = ThreatAnalysis(
    url: string,
    domain: string,
    level: Tier,
    score: int,
    threats: seq<Finding>,
    domainInfo: DomainInfo,
    consequences: seq<string>,
    recommendations: seq<string>)

  // ---------------------------------------------------------------------------
  // Rule configuration

  const SafeDomains: seq<string> := [
    "google.com", "youtube.com", "facebook.com", "amazon.com", "microsoft.com",
    "apple.com", "twitter.com", "instagram.com", "linkedin.com", "github.com",
    "stackoverflow.com", "wikipedia.org", "reddit.com", "netflix.com"]

  const MaliciousPatterns: seq<string> := [
    "phishing-test.com", "fake-bank.net", "scam-alert.org", "malware-test.com",
    "suspicious-link.biz", "fraud-site.info", "hacker-trap.co", "virus-download.exe"]

  const SuspiciousTlds: seq<string> := [".tk", ".ml", ".ga", ".cf", ".bit", ".onion"]

  const UrlShorteners: seq<string> := ["bit.ly", "tinyurl.com", "t.co", "goo.gl", "ow.ly"]

  /** Checked in this order; only the first impersonated brand is reported. */
  const CommonBrands: seq<string> := ["google", "amazon", "paypal", "microsoft", "apple", "facebook"]

  // ---------------------------------------------------------------------------
  // Input normalisation

  const DefaultScheme: string := "https://"

  /** The text handed to the URL parser: the input itself when it starts with
      "http", otherwise the input behind the default secure scheme. Either way
      it starts with "http" and ends with the input. */
  function FullUrl(input: string): (u: string)
    ensures StartsWith(u, "http")
    ensures EndsWith(u, input)
  {
    if StartsWith(input, "http") then input else DefaultScheme + input
  }

  datatype NormaliseError =
    | BlankInput    // the "Invalid Input" toast: nothing to analyze
    | MalformedUrl  // the URL parser threw: the "Analysis Error" toast

  /** What the scorer is given: the full URL and the lower-cased host name. */
  datatype Target = Target(fullUrl: string, domain: string)

  /** The checks the analyze handler makes before scoring. `hostOf` stands for
      the browser's URL parser: the host name of a URL, or None where the
      parser throws. A blank input is refused before the parser is consulted. */
  function Normalise(input: string, hostOf: string -> Option<string>): (r: Result<Target, NormaliseError>)
    ensures r == Err(BlankInput) <==> IsBlank(input)
    ensures r == Err(MalformedUrl) <==> !IsBlank(input) && hostOf(FullUrl(input)).None?
    ensures r.Ok? ==> StartsWith(r.value.fullUrl, "http") && EndsWith(r.value.fullUrl, input)
    ensures r.Ok? ==> forall i :: 0 <= i < |r.value.domain| ==> !IsAsciiUpper(r.value.domain[i])
    ensures !IsBlank(input) && hostOf(FullUrl(input)).Some? ==>
      r == Ok(Target(FullUrl(input), AsciiLower(hostOf(FullUrl(input)).value)))
  {
    if IsBlank(input) then Err(BlankInput)
    else
      var fullUrl := FullUrl(input);
      match hostOf(fullUrl)
      case None => Err(MalformedUrl)
      case Some(host) => Ok(Target(fullUrl, AsciiLower(host)))
  }

  // ---------------------------------------------------------------------------
  // The rules

  /** The whitelist: the host contains one of the safe domains. */
  predicate IsWhitelisted(domain: string) {
    exists safe | safe in SafeDomains :: Contains(domain, safe)
  }

  predicate IsKnownMalicious(domain: string) {
    exists pattern | pattern in MaliciousPatterns :: Contains(domain, pattern)
  }

  predicate HasSuspiciousTld(domain: string) {
    exists tld | tld in SuspiciousTlds :: EndsWith(domain, tld)
  }

  predicate IsShortened(domain: string) {
    exists shortener | shortener in UrlShorteners :: Contains(domain, shortener)
  }

  /** An internationalised-label prefix or three digits in a row. */
  predicate LooksSpoofed(domain: string) {
    Contains(domain, "xn--") || HasDigitRun(domain)
  }

  /** More than 20 characters or more than three dot-separated labels. */
  predicate IsComplex(domain: string) {
    |domain| > 20 || |Split(domain, '.')| > 3
  }

  /** The host names the brand without containing the brand's own ".com" domain. */
  predicate Impersonates(domain: string, brand: string) {
    Contains(domain, brand) && !Contains(domain, brand + ".com")
  }

  /** The first brand of `brands` that the host impersonates, if any. */
  function FirstImpersonated(domain: string, brands: seq<string>): (r: Option<string>)
    ensures r.None? <==> forall i :: 0 <= i < |brands| ==> !Impersonates(domain, brands[i])
    ensures r.Some? ==> exists i :: 0 <= i < |brands| && brands[i] == r.value && Impersonates(domain, brands[i])
    decreases |brands|
  {
    if brands == [] then None
    else if Impersonates(domain, brands[0]) then Some(brands[0])
    else
      var r := FirstImpersonated(domain, brands[1..]);
      assert r.Some? ==> exists i :: 1 <= i < |brands| && brands[i] == r.value && Impersonates(domain, brands[i]) by {
        if r.Some? {
          var i :| 0 <= i < |brands[1..]| && brands[1..][i] == r.value && Impersonates(domain, brands[1..][i]);
          assert brands[i + 1] == brands[1..][i];
        }
      }
      r
  }

  /** A brand the host impersonates, before which no brand is impersonated,
      is the one reported. */
  lemma {:induction false} FirstImpersonatedAt(domain: string, brands: seq<string>, k: nat)
    requires k < |brands| && Impersonates(domain, brands[k])
    requires forall j :: 0 <= j < k ==> !Impersonates(domain, brands[j])
    ensures FirstImpersonated(domain, brands) == Some(brands[k])
    decreases k
  {
    if k > 0 {
      assert !Impersonates(domain, brands[0]);
      assert forall j :: 0 <= j < k - 1 ==> brands[1..][j] == brands[j + 1];
      FirstImpersonatedAt(domain, brands[1..], k - 1);
    }
  }

  /** The findings the scoring rules raise, as opposed to the two informational ones. */
  predicate IsRuleFinding(f: Finding) {
    !f.VerifiedSafeDomain? && !f.NoMajorThreats?
  }

  /** The evaluation order of the rules; the informational findings come last. */
  function Position(f: Finding): nat {
    match f
    case KnownMalicious => 0
    case SuspiciousTld => 1
    case UrlShortener => 2
    case SpoofingAttempt => 3
    case ComplexStructure => 4
    case BrandImpersonation(_) => 5
    case VerifiedSafeDomain => 6
    case NoMajorThreats => 6
  }

  /** The points a rule adds to the score when it fires. */
  function Points(f: Finding): int {
    match f
    case KnownMalicious => 80
    case SuspiciousTld => 30
    case UrlShortener => 25
    case SpoofingAttempt => 20
    case ComplexStructure => 15
    case BrandImpersonation(_) => 40
    case VerifiedSafeDomain => 0
    case NoMajorThreats => 0
  }

  /** The type shown for a finding. */
  function Title(f: Finding): string {
    match f
    case KnownMalicious => "Known Malicious Domain"
    case SuspiciousTld => "Suspicious Top-Level Domain"
    case UrlShortener => "URL Shortener Detected"
    case SpoofingAttempt => "Domain Spoofing Attempt"
    case ComplexStructure => "Complex Domain Structure"
    case BrandImpersonation(_) => "Brand Impersonation"
    case VerifiedSafeDomain => "Verified Safe Domain"
    case NoMajorThreats => "No Major Threats Detected"
  }

  /** The severity of a finding. */
  function SeverityOf(f: Finding): Severity {
    match f
    case KnownMalicious => Error
    case BrandImpersonation(_) => Error
    case VerifiedSafeDomain => Info
    case NoMajorThreats => Info
    case _ => Warning
  }

  /** The description of a finding; that of a brand impersonation names the brand. */
  function Description(f: Finding): string {
    match f
    case KnownMalicious =>
      "This domain is flagged in our threat intelligence database as malicious"
    case SuspiciousTld =>
      "Domain uses a TLD commonly associated with malicious activities"
    case UrlShortener =>
      "Shortened URLs can hide the actual destination and may lead to malicious sites"
    case SpoofingAttempt =>
      "Domain contains suspicious characters that may mimic legitimate websites"
    case ComplexStructure =>
      "Unusually complex domain structure often used in phishing attacks"
    case BrandImpersonation(brand) =>
      "Domain appears to impersonate " + brand + " which is commonly used in phishing"
    case VerifiedSafeDomain =>
      "This is a well-known legitimate website with strong security measures"
    case NoMajorThreats =>
      "Initial scan shows no obvious malicious indicators, but remain cautious"
  }

  /** `findings` followed by `f` when its rule fires. */
  function When(findings: seq<Finding>, fires: bool, f: Finding): seq<Finding> {
    if fires then findings + [f] else findings
  }

  /** The outcome of the rule checks on one host: one flag per pattern rule,
      and the brand the brand rule settles on, if any. */
  datatype RuleChecks = RuleChecks(
    malicious: bool,
    suspiciousTld: bool,
    shortened: bool,
    spoofed: bool,
    complex: bool,
    brand: Option<string>)

  /** The rule checks of `domain`. */
  function ChecksOf(domain: string): RuleChecks {
    RuleChecks(IsKnownMalicious(domain), HasSuspiciousTld(domain), IsShortened(domain),
               LooksSpoofed(domain), IsComplex(domain), FirstImpersonated(domain, CommonBrands))
  }

  /** The findings of the five pattern rules, in evaluation order. */
  function PatternFindings(c: RuleChecks): seq<Finding> {
    var findings := When([], c.malicious, KnownMalicious);
    var findings := When(findings, c.suspiciousTld, SuspiciousTld);
    var findings := When(findings, c.shortened, UrlShortener);
    var findings := When(findings, c.spoofed, SpoofingAttempt);
    When(findings, c.complex, ComplexStructure)
  }

  /** `findings` followed by the brand impersonation finding for `brand`, if any. */
  function WithBrand(findings: seq<Finding>, brand: Option<string>): seq<Finding> {
    match brand
    case None => findings
    case Some(b) => findings + [BrandImpersonation(b)]
  }

  /** The findings of the rules that fire, in evaluation order. */
  function FindingsOf(c: RuleChecks): seq<Finding> {
    WithBrand(PatternFindings(c), c.brand)
  }

  /** The findings of the rules that fire on a host that is not whitelisted. */
  function FiredFindings(domain: string): seq<Finding> {
    FindingsOf(ChecksOf(domain))
  }

  /** The sum of the points of `findings`. */
  function RawScore(findings: seq<Finding>): int
    decreases |findings|
  {
    if findings == [] then 0 else RawScore(findings[..|findings| - 1]) + Points(Last(findings))
  }

  /** One more finding adds its points. */
  lemma ScoreAppend(findings: seq<Finding>, f: Finding)
    ensures RawScore(findings + [f]) == RawScore(findings) + Points(f)
  {
    assert (findings + [f])[..|findings|] == findings;
  }

  // ---------------------------------------------------------------------------
  // Tiers, the fallback and the result record

  /** The tier of a score, thresholds checked from the highest down. */
  function TierOf(score: int): Tier {
    if score >= 70 then Critical
    else if score >= 50 then High
    else if score >= 30 then Medium
    else if score >= 10 then Low
    else Safe
  }

  /** The tier of the baseline score given when no rule fires. */
  function FallbackTier(score: int): Tier {
    if score > 20 then Low else Safe
  }

  function Min(a: int, b: int): int {
    if a <= b then a else b
  }

  const WhitelistConsequences: seq<string> := ["No significant risks detected"]

  const WhitelistRecommendations: seq<string> :=
    ["Safe to browse", "Always verify URLs in address bar", "Keep browsers updated"]

  const SafeConsequences: seq<string> := ["Minimal risks for normal browsing"]

  const SafeRecommendations: seq<string> :=
    ["Verify URLs before clicking", "Keep security software updated", "Use strong passwords"]

  const RiskConsequences: seq<string> := [
    "Personal information theft", "Financial credential compromise", "Malware installation",
    "Identity theft", "Account takeover", "Data breach exposure"]

  const RiskRecommendations: seq<string> := [
    "DO NOT enter personal information", "DO NOT download any files",
    "Close this website immediately", "Run antivirus scan if visited",
    "Report to cybersecurity authorities", "Use official websites only"]

  /** The record returned for a whitelisted host; `draw` is the random score in [0, 20). */
  function WhitelistResult(fullUrl: string, domain: string, draw: int): ThreatAnalysis {
    ThreatAnalysis(
      fullUrl, domain, Safe, draw, [VerifiedSafeDomain],
      DomainInfo("Verified Registry", "2008-09-15", "United States", true),
      WhitelistConsequences, WhitelistRecommendations)
  }

  /** The record returned for any other host, from its tier, its uncapped
      score and its findings. */
  function Compose(fullUrl: string, domain: string, level: Tier, raw: int, threats: seq<Finding>): ThreatAnalysis {
    var critical := level == Critical;
    ThreatAnalysis(
      fullUrl, domain, level, Min(raw, 100), threats,
      DomainInfo(
        if critical then "Unknown/Suspicious" else "Standard Registry",
        if critical then "2024-12-01" else "2019-03-15",
        if critical then "Unknown" else "Various",
        raw < 40),
      if level == Safe then SafeConsequences else RiskConsequences,
      if level == Safe then SafeRecommendations else RiskRecommendations)
  }

  /** `Math.floor(Math.random() * 20)`: the score drawn for a whitelisted host. */
  predicate SafeDrawInRange(draw: int) {
    0 <= draw < 20
  }

  /** `Math.floor(Math.random() * 25)`: the draw behind the baseline score of a
      host no rule flags. */
  predicate BaselineDrawInRange(draw: int) {
    0 <= draw < 25
  }

  /** The analysis record, given whether the host is whitelisted and the
      outcome of the rule checks: the whitelist short-circuits; otherwise the
      points of the fired rules are summed and their findings listed, or,
      when none fired, the baseline score `baselineDraw + 5` is used.
      `safeDraw` and `baselineDraw` are the two random draws. */
  function Outcome(fullUrl: string, domain: string, whitelisted: bool, checks: RuleChecks,
                   safeDraw: int, baselineDraw: int): ThreatAnalysis {
    if whitelisted then WhitelistResult(fullUrl, domain, safeDraw)
    else
      var fired := FindingsOf(checks);
      if fired == [] then
        var baseline := baselineDraw + 5;
        Compose(fullUrl, domain, FallbackTier(baseline), baseline, [NoMajorThreats])
      else
        Compose(fullUrl, domain, TierOf(RawScore(fired)), RawScore(fired), fired)
  }

  /** The analysis of a host. */
  function Assess(fullUrl: string, domain: string, safeDraw: int, baselineDraw: int): ThreatAnalysis {
    Outcome(fullUrl, domain, IsWhitelisted(domain), ChecksOf(domain), safeDraw, baselineDraw)
  }

  // ---------------------------------------------------------------------------
  // The scoring engine, step by step

  /** One pattern rule of the engine: when its check holds, the rule adds its
      points to the score and pushes its finding. */
  method ApplyRule(fires: bool, f: Finding, riskScore0: int, threats0: seq<Finding>)
    returns (riskScore: int, threats: seq<Finding>)
    requires riskScore0 == RawScore(threats0)
    ensures threats == When(threats0, fires, f)
    ensures riskScore == RawScore(threats)
  {
    riskScore, threats := riskScore0, threats0;
    if fires {
      ScoreAppend(threats, f);
      riskScore := riskScore + Points(f);
      threats := threats + [f];
    }
  }

  /** The five pattern rules of the engine, given the outcome of each check,
      applied in order. */
  method ScorePatterns(malicious: bool, suspiciousTld: bool, shortened: bool, spoofed: bool, complex: bool)
    returns (riskScore: int, threats: seq<Finding>)
    ensures threats == PatternFindings(RuleChecks(malicious, suspiciousTld, shortened, spoofed, complex, None))
    ensures riskScore == RawScore(threats)
  {
    riskScore, threats := 0, [];
    riskScore, threats := ApplyRule(malicious, KnownMalicious, riskScore, threats);
    riskScore, threats := ApplyRule(suspiciousTld, SuspiciousTld, riskScore, threats);
    riskScore, threats := ApplyRule(shortened, UrlShortener, riskScore, threats);
    riskScore, threats := ApplyRule(spoofed, SpoofingAttempt, riskScore, threats);
    riskScore, threats := ApplyRule(complex, ComplexStructure, riskScore, threats);
  }

  /** The brand search of the engine: the brands in order, stopping at the
      first one the host impersonates, which adds 40 points and its finding. */
  method ScoreBrands(domain: string, riskScore0: int, threats0: seq<Finding>) returns (riskScore: int, threats: seq<Finding>)
    requires riskScore0 == RawScore(threats0)
    ensures threats == WithBrand(threats0, FirstImpersonated(domain, CommonBrands))
    ensures riskScore == RawScore(threats)
  {
    riskScore, threats := riskScore0, threats0;
    var i := 0;
    while i < |CommonBrands|
      invariant 0 <= i <= |CommonBrands|
      invariant forall j :: 0 <= j < i ==> !Impersonates(domain, CommonBrands[j])
      invariant riskScore == riskScore0 && threats == threats0
    {
      var brand := CommonBrands[i];
      if Contains(domain, brand) && !Contains(domain, brand + ".com") {
        FirstImpersonatedAt(domain, CommonBrands, i);
        ScoreAppend(threats, BrandImpersonation(brand));
        riskScore := riskScore + 40;
        threats := threats + [BrandImpersonation(brand)];
        return;
      }
      i := i + 1;
    }
  }

  /** The threat-detection engine as the component runs it: the whitelist
      check, the pattern rules and the brand search updating a score and a
      findings list, the tier of the score, and the fallback when nothing
      was found. It computes `Assess`. */
  method DetectThreats(fullUrl: string, domain: string, safeDraw: int, baselineDraw: int) returns (a: ThreatAnalysis)
    requires SafeDrawInRange(safeDraw) && BaselineDrawInRange(baselineDraw)
    ensures a == Assess(fullUrl, domain, safeDraw, baselineDraw)
  {
    if IsWhitelisted(domain) {
      return WhitelistResult(fullUrl, domain, safeDraw);
    }
    var riskScore, threats := ScorePatterns(
      IsKnownMalicious(domain),
      HasSuspiciousTld(domain),
      IsShortened(domain),
      Contains(domain, "xn--") || HasDigitRun(domain),
      |domain| > 20 || |Split(domain, '.')| > 3);
    riskScore, threats := ScoreBrands(domain, riskScore, threats);
    assert threats == FiredFindings(domain);

    var riskLevel := TierOf(riskScore);
    if |threats| == 0 {
      threats := [NoMajorThreats];
      riskScore := baselineDraw + 5;
      riskLevel := if riskScore > 20 then Low else Safe;
    }
    a := Compose(fullUrl, domain, riskLevel, riskScore, threats);
  }

  // ---------------------------------------------------------------------------
  // Badge variant and icon of a tier

  datatype BadgeVariant = SuccessBadge | SecondaryBadge | WarningBadge | DestructiveBadge

  /** The badge variant for a tier name; unknown names get the secondary variant. */
  function RiskBadge(level: string): BadgeVariant {
    if level == "safe" then SuccessBadge
    else if level == "low" then SecondaryBadge
    else if level == "medium" then WarningBadge
    else if level == "high" then DestructiveBadge
    else if level == "critical" then DestructiveBadge
    else SecondaryBadge
  }

  datatype RiskIconKind = CheckCircleIcon | ShieldIcon | AlertTriangleIcon | XCircleIcon

  /** The icon for a tier name; unknown names get the shield. */
  function RiskIcon(level: string): RiskIconKind {
    if level == "safe" then CheckCircleIcon
    else if level == "low" then ShieldIcon
    else if level == "medium" then AlertTriangleIcon
    else if level == "high" then XCircleIcon
    else if level == "critical" then XCircleIcon
    else ShieldIcon
  }

  // ---------------------------------------------------------------------------
  // The component's state

  /** The notifications the component raises. */
  datatype Toast =
    | InvalidInput
    | AnalysisComplete(threatCount: nat, level: Tier)
    | AnalysisError

  /** The analyzer component: the text in the input box, the busy flag, the
      last analysis shown and the notifications raised so far. */
  class UrlAnalyzerPanel {
    var url: string
    var isAnalyzing: bool
    var analysis: Option<ThreatAnalysis>
    var toasts: seq<Toast>

    constructor ()
      ensures url == [] && !isAnalyzing && analysis == None && toasts == []
    {
      url := [];
      isAnalyzing := false;
      analysis := None;
      toasts := [];
    }

    /** Typing in the input box, or pressing a demonstration button. */
    method SetUrl(text: string)
      modifies this
      ensures url == text
      ensures isAnalyzing == old(isAnalyzing) && analysis == old(analysis) && toasts == old(toasts)
    {
      url := text;
    }

    /** The analyze handler: refuses a blank input, reports a URL the parser
      rejects, and otherwise shows the analysis of the host. A refused or
      failed request leaves the previous analysis on screen. */
    method AnalyzeUrl(hostOf: string -> Option<string>, safeDraw: int, baselineDraw: int)
      requires SafeDrawInRange(safeDraw) && BaselineDrawInRange(baselineDraw)
      modifies this
      ensures unchanged(this`url)
      ensures Normalise(old(url), hostOf) == Err(BlankInput) ==>
        && unchanged(this`isAnalyzing, this`analysis)
        && toasts == old(toasts) + [InvalidInput]
      ensures Normalise(old(url), hostOf) == Err(MalformedUrl) ==>
        && !isAnalyzing && unchanged(this`analysis)
        && toasts == old(toasts) + [AnalysisError]
      ensures Normalise(old(url), hostOf).Ok? ==>
        var target := Normalise(old(url), hostOf).value;
        var a := Assess(target.fullUrl, target.domain, safeDraw, baselineDraw);
        && !isAnalyzing && analysis == Some(a)
        && toasts == old(toasts) + [AnalysisComplete(|a.threats|, a.level)]
    {
      var normalised := Normalise(url, hostOf);
      if normalised == Err(BlankInput) {
        toasts := toasts + [InvalidInput];
        return;
      }
      isAnalyzing := true;
      match normalised {
        case Err(_) =>
          isAnalyzing := false;
          toasts := toasts + [AnalysisError];
        case Ok(target) =>
          var a := DetectThreats(target.fullUrl, target.domain, safeDraw, baselineDraw);
          analysis := Some(a);
          isAnalyzing := false;
          toasts := toasts + [AnalysisComplete(|a.threats|, a.level)];
      }
    }
  }
}
