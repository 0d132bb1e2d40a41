/** What the URL risk scorer promises, proved about the model in UrlAnalyzer:
    the input rules, the whitelist short-circuit, the order and points of the
    rules, the tiers, the cap, the fallback, the advice, and the outcome for
    the demonstration hosts. */
module UrlAnalyzerProperties {
  import opened Wrappers
  import opened Text
  import opened UrlAnalyzer

  // ---------------------------------------------------------------------------
  // Input normalisation

  /** The default scheme is added exactly when the input does not already start
      with "http"; adding it once is enough. */
  lemma FullUrlPrefix(input: string)
    ensures FullUrl(input) == input <==> StartsWith(input, "http")
    ensures !StartsWith(input, "http") ==> FullUrl(input) == DefaultScheme + input
    ensures FullUrl(FullUrl(input)) == FullUrl(input)
  {
    if !StartsWith(input, "http") {
      assert |FullUrl(input)| == |input| + 8;
    }
  }

  /** A blank input is refused whatever the URL parser would have said. */
  lemma BlankRefusedBeforeParsing(input: string, hostOf: string -> Option<string>, otherHostOf: string -> Option<string>)
    requires IsBlank(input)
    ensures Normalise(input, hostOf) == Normalise(input, otherHostOf) == Err(BlankInput)
  {
  }

  // ---------------------------------------------------------------------------
  // Order of the rules

  /** Findings listed in strictly increasing rule position. */
  predicate InRuleOrder(findings: seq<Finding>) {
    forall i, j :: 0 <= i < j < |findings| ==> Position(findings[i]) < Position(findings[j])
  }

  /** Every finding comes from a rule placed before position `p`. */
  predicate AllBefore(findings: seq<Finding>, p: int) {
    forall i :: 0 <= i < |findings| ==> Position(findings[i]) < p
  }

  lemma WhenKeepsOrder(findings: seq<Finding>, fires: bool, f: Finding)
    requires InRuleOrder(findings) && AllBefore(findings, Position(f))
    ensures InRuleOrder(When(findings, fires, f)) && AllBefore(When(findings, fires, f), Position(f) + 1)
  {
    if fires {
      var r := findings + [f];
      assert forall i :: 0 <= i < |findings| ==> r[i] == findings[i];
    }
  }

  /** The findings appear in evaluation order, one per rule: in particular
      the brand finding appears at most once, after the five pattern
      findings, and neither informational finding appears. */
  lemma FindingsInRuleOrder(c: RuleChecks)
    ensures InRuleOrder(FindingsOf(c)) && AllBefore(FindingsOf(c), 6)
    ensures |FindingsOf(c)| <= 6
    ensures forall i, j :: 0 <= i < j < |FindingsOf(c)| ==>
      !(FindingsOf(c)[i].BrandImpersonation? && FindingsOf(c)[j].BrandImpersonation?)
    ensures forall i :: 0 <= i < |FindingsOf(c)| ==> IsRuleFinding(FindingsOf(c)[i])
  {
    PatternsInRuleOrder(c);
    var patterns := PatternFindings(c);
    match c.brand {
      case None =>
      case Some(brand) =>
        WhenKeepsOrder(patterns, true, BrandImpersonation(brand));
    }
    DistinctPositionsBound(FindingsOf(c));
  }

  lemma PatternsInRuleOrder(c: RuleChecks)
    ensures InRuleOrder(PatternFindings(c)) && AllBefore(PatternFindings(c), 5)
  {
    var s0: seq<Finding> := [];
    var s1 := When(s0, c.malicious, KnownMalicious);
    WhenKeepsOrder(s0, c.malicious, KnownMalicious);
    var s2 := When(s1, c.suspiciousTld, SuspiciousTld);
    WhenKeepsOrder(s1, c.suspiciousTld, SuspiciousTld);
    var s3 := When(s2, c.shortened, UrlShortener);
    WhenKeepsOrder(s2, c.shortened, UrlShortener);
    var s4 := When(s3, c.spoofed, SpoofingAttempt);
    WhenKeepsOrder(s3, c.spoofed, SpoofingAttempt);
    WhenKeepsOrder(s4, c.complex, ComplexStructure);
  }

  /** Findings in strictly increasing position below 6 number at most six. */
  lemma DistinctPositionsBound(findings: seq<Finding>)
    requires InRuleOrder(findings) && AllBefore(findings, 6)
    ensures |findings| <= 6
  {
    if |findings| > 6 {
      RisingPositions(findings, 6);
    }
  }

  lemma {:induction false} RisingPositions(findings: seq<Finding>, k: nat)
    requires InRuleOrder(findings) && k < |findings|
    ensures Position(findings[k]) >= k
    decreases k
  {
    if k > 0 {
      RisingPositions(findings, k - 1);
    }
  }

  lemma WhenMembership(findings: seq<Finding>, fires: bool, f: Finding, g: Finding)
    ensures g in When(findings, fires, f) <==> g in findings || (fires && g == f)
  {
  }

  /** A finding is among the pattern findings exactly when it belongs to a
      pattern rule whose check holds. */
  lemma PatternMembership(c: RuleChecks, g: Finding)
    ensures g in PatternFindings(c) <==>
      || (g == KnownMalicious && c.malicious)
      || (g == SuspiciousTld && c.suspiciousTld)
      || (g == UrlShortener && c.shortened)
      || (g == SpoofingAttempt && c.spoofed)
      || (g == ComplexStructure && c.complex)
  {
    var s0: seq<Finding> := [];
    var s1 := When(s0, c.malicious, KnownMalicious);
    WhenMembership(s0, c.malicious, KnownMalicious, g);
    var s2 := When(s1, c.suspiciousTld, SuspiciousTld);
    WhenMembership(s1, c.suspiciousTld, SuspiciousTld, g);
    var s3 := When(s2, c.shortened, UrlShortener);
    WhenMembership(s2, c.shortened, UrlShortener, g);
    var s4 := When(s3, c.spoofed, SpoofingAttempt);
    WhenMembership(s3, c.spoofed, SpoofingAttempt, g);
    WhenMembership(s4, c.complex, ComplexStructure, g);
  }

  /** Each pattern rule contributes its finding exactly when its check holds,
      and the brand rule exactly when it settled on a brand. */
  lemma FindingIffCheck(c: RuleChecks)
    ensures KnownMalicious in FindingsOf(c) <==> c.malicious
    ensures SuspiciousTld in FindingsOf(c) <==> c.suspiciousTld
    ensures UrlShortener in FindingsOf(c) <==> c.shortened
    ensures SpoofingAttempt in FindingsOf(c) <==> c.spoofed
    ensures ComplexStructure in FindingsOf(c) <==> c.complex
    ensures forall brand :: BrandImpersonation(brand) in FindingsOf(c) <==> c.brand == Some(brand)
  {
    PatternMembership(c, KnownMalicious);
    PatternMembership(c, SuspiciousTld);
    PatternMembership(c, UrlShortener);
    PatternMembership(c, SpoofingAttempt);
    PatternMembership(c, ComplexStructure);
    forall brand ensures BrandImpersonation(brand) in FindingsOf(c) <==> c.brand == Some(brand) {
      PatternMembership(c, BrandImpersonation(brand));
    }
  }

  /** The brand reported for a host is the first brand in list order that it
      impersonates. */
  lemma ReportedBrandIsFirst(domain: string, k: nat)
    requires k < |CommonBrands| && Impersonates(domain, CommonBrands[k])
    requires forall j :: 0 <= j < k ==> !Impersonates(domain, CommonBrands[j])
    ensures BrandImpersonation(CommonBrands[k]) in FiredFindings(domain)
    ensures forall brand :: BrandImpersonation(brand) in FiredFindings(domain) ==> brand == CommonBrands[k]
  {
    FirstImpersonatedAt(domain, CommonBrands, k);
    FindingIffCheck(ChecksOf(domain));
  }

  // ---------------------------------------------------------------------------
  // The score

  lemma ScoreWhen(findings: seq<Finding>, fires: bool, f: Finding)
    ensures RawScore(When(findings, fires, f)) == RawScore(findings) + (if fires then Points(f) else 0)
  {
    if fires {
      ScoreAppend(findings, f);
    }
  }

  /** The points a rule adds: `points` when it fires. */
  function Bonus(fires: bool, points: int): int {
    if fires then points else 0
  }

  /** The uncapped score is the sum of the fixed points of the rules that
      fire: 80, 30, 25, 20, 15, and 40 for the brand rule. */
  lemma ScoreOfChecks(c: RuleChecks)
    ensures RawScore(FindingsOf(c)) ==
      Bonus(c.malicious, 80) + Bonus(c.suspiciousTld, 30) + Bonus(c.shortened, 25)
      + Bonus(c.spoofed, 20) + Bonus(c.complex, 15) + Bonus(c.brand.Some?, 40)
  {
    var patterns := PatternFindings(c);
    ScoreOfPatterns(c);
    match c.brand {
      case None =>
      case Some(brand) =>
        ScoreAppend(patterns, BrandImpersonation(brand));
    }
  }

  /** The five pattern rules add 80, 30, 25, 20 and 15 points when they fire. */
  lemma ScoreOfPatterns(c: RuleChecks)
    ensures RawScore(PatternFindings(c)) ==
      Bonus(c.malicious, 80) + Bonus(c.suspiciousTld, 30) + Bonus(c.shortened, 25)
      + Bonus(c.spoofed, 20) + Bonus(c.complex, 15)
  {
    var s0: seq<Finding> := [];
    var s1 := When(s0, c.malicious, KnownMalicious);
    ScoreWhen(s0, c.malicious, KnownMalicious);
    var s2 := When(s1, c.suspiciousTld, SuspiciousTld);
    ScoreWhen(s1, c.suspiciousTld, SuspiciousTld);
    var s3 := When(s2, c.shortened, UrlShortener);
    ScoreWhen(s2, c.shortened, UrlShortener);
    var s4 := When(s3, c.spoofed, SpoofingAttempt);
    ScoreWhen(s3, c.spoofed, SpoofingAttempt);
    ScoreWhen(s4, c.complex, ComplexStructure);
  }

  /** No rule fires exactly when the uncapped score is 0; otherwise it lies
      between 15 and 210. */
  lemma ScoreBounds(c: RuleChecks)
    ensures FindingsOf(c) == [] <==> RawScore(FindingsOf(c)) == 0
    ensures FindingsOf(c) != [] ==> 15 <= RawScore(FindingsOf(c)) <= 210
  {
    ScoreOfChecks(c);
    if c.malicious || c.suspiciousTld || c.shortened || c.spoofed || c.complex || c.brand.Some? {
      FindingIffCheck(c);
      if c.brand.Some? {
        assert BrandImpersonation(c.brand.value) in FindingsOf(c);
      }
    } else {
      assert PatternFindings(c) == [];
    }
  }

  /** Tiers grow with the score. */
  lemma TierMonotone(low: int, high: int)
    requires low <= high
    ensures Rank(TierOf(low)) <= Rank(TierOf(high))
  {
  }

  // ---------------------------------------------------------------------------
  // The analysis record

  /** A whitelisted host is safe with the single informational finding and
      the drawn score in [0, 20), whatever the rule checks and the second
      draw would have said. */
  lemma WhitelistShortCircuit(fullUrl: string, domain: string, checks: RuleChecks, otherChecks: RuleChecks,
                              safeDraw: int, baselineDraw: int, otherDraw: int)
    requires SafeDrawInRange(safeDraw)
    ensures var a := Outcome(fullUrl, domain, true, checks, safeDraw, baselineDraw);
      && a.level == Safe && a.threats == [VerifiedSafeDomain] && SeverityOf(a.threats[0]) == Info
      && 0 <= a.score < 20 && a.domainInfo.ssl
      && a.consequences == WhitelistConsequences && a.recommendations == WhitelistRecommendations
      && |a.consequences| == 1 && |a.recommendations| == 3
      && a == Outcome(fullUrl, domain, true, otherChecks, safeDraw, otherDraw)
  {
  }

  /** When no rule fires on a host that is not whitelisted: the single
      informational finding, a score in [5, 30), and tier low exactly when the
      score exceeds 20 (a cut different from the one of the main tiers). */
  lemma FallbackOutcome(fullUrl: string, domain: string, checks: RuleChecks, safeDraw: int, baselineDraw: int)
    requires FindingsOf(checks) == [] && BaselineDrawInRange(baselineDraw)
    ensures var a := Outcome(fullUrl, domain, false, checks, safeDraw, baselineDraw);
      && a.threats == [NoMajorThreats] && SeverityOf(a.threats[0]) == Info
      && 5 <= a.score < 30
      && (a.level == Low <==> a.score > 20)
      && (a.level == Safe <==> a.score <= 20)
  {
  }

  /** The fallback cut and the main thresholds disagree on the scores 10 to 20. */
  lemma FallbackCutDiffers(score: int)
    requires 10 <= score <= 20
    ensures FallbackTier(score) == Safe && TierOf(score) == Low
  {
  }

  /** When some rule fires on a host that is not whitelisted: its findings in
      order, a tier of at least low computed on the uncapped score, and the
      reported score capped at 100. */
  lemma RuleOutcome(fullUrl: string, domain: string, checks: RuleChecks, safeDraw: int, baselineDraw: int)
    requires FindingsOf(checks) != []
    ensures var a := Outcome(fullUrl, domain, false, checks, safeDraw, baselineDraw);
      var raw := RawScore(FindingsOf(checks));
      && a.threats == FindingsOf(checks)
      && a.level == TierOf(raw) && Rank(a.level) >= 1
      && 15 <= a.score <= 100 && (raw <= 100 ==> a.score == raw) && (raw > 100 ==> a.score == 100)
  {
    ScoreBounds(checks);
  }

  /** The reported score never exceeds 100, nor falls below 0. */
  lemma ScoreCapped(fullUrl: string, domain: string, safeDraw: int, baselineDraw: int)
    requires SafeDrawInRange(safeDraw) && BaselineDrawInRange(baselineDraw)
    ensures 0 <= Assess(fullUrl, domain, safeDraw, baselineDraw).score <= 100
  {
    var checks := ChecksOf(domain);
    if FindingsOf(checks) != [] {
      RuleOutcome(fullUrl, domain, checks, safeDraw, baselineDraw);
    }
  }

  /** The advice follows the tier: one consequence and three recommendations
      for a safe host that is not whitelisted, the same six of each for any
      other tier; the domain details take their "unknown" values exactly on
      the critical tier, and SSL is reported exactly below 40 uncapped points. */
  lemma AdviceByTier(fullUrl: string, domain: string, checks: RuleChecks, safeDraw: int, baselineDraw: int)
    ensures var a := Outcome(fullUrl, domain, false, checks, safeDraw, baselineDraw);
      var fired := FindingsOf(checks);
      var raw := if fired == [] then baselineDraw + 5 else RawScore(fired);
      && (a.level == Safe ==> a.consequences == SafeConsequences && a.recommendations == SafeRecommendations)
      && (a.level != Safe ==> a.consequences == RiskConsequences && a.recommendations == RiskRecommendations)
      && (a.level == Safe ==> |a.consequences| == 1 && |a.recommendations| == 3)
      && (a.level != Safe ==> |a.consequences| == 6 && |a.recommendations| == 6)
      && (a.domainInfo.registrar == "Unknown/Suspicious" <==> a.level == Critical)
      && (a.domainInfo.country == "Unknown" <==> a.level == Critical)
      && (a.domainInfo.created == "2024-12-01" <==> a.level == Critical)
      && (a.domainInfo.ssl <==> raw < 40)
  {
    assert |"Standard Registry"| != |"Unknown/Suspicious"|;
    assert "Various"[0] != "Unknown"[0];
  }

  // ---------------------------------------------------------------------------
  // Substring consequences

  /** Any host ending in "t.com" contains "t.co" and so counts as shortened. */
  lemma EndsInTComIsShortened(domain: string)
    requires EndsWith(domain, "t.com")
    ensures IsShortened(domain)
  {
    SuffixContained(domain, "t.com");
    assert OccursAt("t.com", "t.co", 0);
    ContainsTransitive(domain, "t.com", "t.co");
    assert "t.co" in UrlShorteners;
  }

  /** A whitelisted name wins over a listed malicious one in the same host. */
  lemma WhitelistBeatsBlocklist(fullUrl: string, domain: string, safeDraw: int, baselineDraw: int)
    requires IsWhitelisted(domain) && IsKnownMalicious(domain)
    ensures var a := Assess(fullUrl, domain, safeDraw, baselineDraw);
      a.level == Safe && a.threats == [VerifiedSafeDomain] && a.score == safeDraw
  {
  }

  /** Such hosts exist: "google.com.fake-bank.net" names the safe domain
      "google.com" and the malicious pattern "fake-bank.net", and is safe. */
  lemma LookalikeHostIsSafe(fullUrl: string, safeDraw: int, baselineDraw: int)
    ensures IsWhitelisted("google.com.fake-bank.net") && IsKnownMalicious("google.com.fake-bank.net")
    ensures Assess(fullUrl, "google.com.fake-bank.net", safeDraw, baselineDraw).level == Safe
  {
    var d := "google.com.fake-bank.net";
    assert OccursAt(d, "google.com", 0);
    assert "google.com" in SafeDomains;
    assert OccursAt(d, "fake-bank.net", 11);
    assert "fake-bank.net" in MaliciousPatterns;
    WhitelistBeatsBlocklist(fullUrl, d, safeDraw, baselineDraw);
  }

  /** The description of a brand finding names the brand. */
  lemma BrandDescriptionNamesBrand(brand: string)
    ensures Contains(Description(BrandImpersonation(brand)), brand)
  {
    var prefix := "Domain appears to impersonate ";
    var d := Description(BrandImpersonation(brand));
    assert d == prefix + brand + " which is commonly used in phishing";
    assert |prefix| == 30;
    assert d[30..30 + |brand|] == brand;
    assert OccursAt(d, brand, 30);
  }

  /** The error findings are exactly the rule findings worth 40 points or more. */
  lemma ErrorsAreHeavy(f: Finding)
    ensures SeverityOf(f) == Error <==> IsRuleFinding(f) && Points(f) >= 40
    ensures SeverityOf(f) == Info <==> !IsRuleFinding(f)
  {
  }

  /** The badge and the icon of a tier agree: the destructive badge goes with
      the cross icon, on the high and critical tiers only. */
  lemma BadgeMatchesIcon(t: Tier)
    ensures RiskBadge(TierName(t)) == DestructiveBadge <==> RiskIcon(TierName(t)) == XCircleIcon
    ensures RiskBadge(TierName(t)) == DestructiveBadge <==> Rank(t) >= 3
    ensures RiskBadge(TierName(t)) == SuccessBadge <==> t == Safe
  {
    match t {
      case Safe =>
      case Low => assert "low" != "safe";
      case Medium => assert "medium" != "safe" && "medium" != "low";
      case High => assert "high"[0] != "safe"[0] && "high" != "low" && "high" != "medium";
      case Critical =>
        assert "critical" != "safe" && "critical" != "low" && "critical" != "medium" && "critical" != "high";
    }
  }
}
