/** The outcome of the scorer on the hosts of the component's demonstration
    buttons: "google.com" is whitelisted; "suspicious-link.biz",
    "phishing-test.com" and "malware-test.com" are all on the malicious list,
    and the last two also contain the shortener "t.co". */
module UrlDemoHosts {
  import opened Wrappers
  import opened Text
  import opened UrlAnalyzer

  // ---------------------------------------------------------------------------
  // Facts that settle one check each

  /** A host that is itself a listed malicious pattern is known malicious. */
  lemma ListedMalicious(d: string)
    requires d in MaliciousPatterns
    ensures IsKnownMalicious(d)
  {
    assert OccursAt(d, d, 0);
  }

  /** A host holding "t.co" at index `i` counts as shortened. */
  lemma ShortenerAt(d: string, i: nat)
    requires OccursAt(d, "t.co", i)
    ensures IsShortened(d)
  {
    assert "t.co" in UrlShorteners;
  }

  /** A host whose last letter ends none of the suspicious top-level domains
      does not have one. */
  lemma NoSuspiciousEnding(d: string)
    requires d != [] && d[|d| - 1] !in "klaftn"
    ensures !HasSuspiciousTld(d)
  {
    forall tld | tld in SuspiciousTlds ensures !EndsWith(d, tld) {
      LastCharDiffers(d, tld);
    }
  }

  /** A host without an 'x' and without digits is not spoofed. */
  lemma NotSpoofedWithout(d: string)
    requires 'x' !in d && forall c :: c in d ==> !IsAsciiDigit(c)
    ensures !LooksSpoofed(d)
  {
    if Contains(d, "xn--") {
      assert 'x' in "xn--";
      ContainedChars(d, "xn--");
    }
    forall i | 0 <= i <= |d| - 3 ensures !DigitRunAt(d, i) {
      assert d[i] in d;
    }
  }

  /** A host of at most 20 characters made of two labels is not complex. */
  lemma NotComplexAt(d: string, stem: string, tail: string)
    requires d == stem + ['.'] + tail && '.' !in stem && '.' !in tail && |d| <= 20
    ensures !IsComplex(d)
  {
    SplitAround(stem, '.', tail);
    SplitWithoutSeparator(stem, '.');
    SplitWithoutSeparator(tail, '.');
  }

  // ---------------------------------------------------------------------------
  // Outcomes by rule checks

  /** A host that is not whitelisted and matches the malicious list only
      scores 80 and is critical. */
  lemma MaliciousOnlyIsCritical(fullUrl: string, domain: string, safeDraw: int, baselineDraw: int)
    requires !IsWhitelisted(domain) && ChecksOf(domain) == RuleChecks(true, false, false, false, false, None)
    ensures FiredFindings(domain) == [KnownMalicious]
    ensures var a := Assess(fullUrl, domain, safeDraw, baselineDraw);
      a.level == Critical && a.score == 80 && a.threats == [KnownMalicious]
  {
    var c := ChecksOf(domain);
    assert FindingsOf(c) == [KnownMalicious];
    ScoreAppend([], KnownMalicious);
  }

  /** A host that is not whitelisted, matches the malicious list and counts
      as shortened, and nothing else, scores 105, reported as 100, and is
      critical. */
  lemma MaliciousShortenedIsCritical(fullUrl: string, domain: string, safeDraw: int, baselineDraw: int)
    requires !IsWhitelisted(domain) && ChecksOf(domain) == RuleChecks(true, false, true, false, false, None)
    ensures FiredFindings(domain) == [KnownMalicious, UrlShortener]
    ensures RawScore(FiredFindings(domain)) == 105
    ensures var a := Assess(fullUrl, domain, safeDraw, baselineDraw);
      a.level == Critical && a.score == 100 && a.threats == [KnownMalicious, UrlShortener]
  {
    var c := ChecksOf(domain);
    assert FindingsOf(c) == [KnownMalicious, UrlShortener];
    ScoreAppend([], KnownMalicious);
    ScoreAppend([KnownMalicious], UrlShortener);
  }

  // ---------------------------------------------------------------------------
  // "google.com"

  /** "google.com" is whitelisted, so it is safe whatever the draws. */
  lemma GoogleIsSafe(fullUrl: string, safeDraw: int, baselineDraw: int)
    requires SafeDrawInRange(safeDraw)
    ensures var a := Assess(fullUrl, "google.com", safeDraw, baselineDraw);
      a.level == Safe && a.threats == [VerifiedSafeDomain] && a.score == safeDraw
  {
    assert OccursAt("google.com", "google.com", 0);
    assert "google.com" in SafeDomains;
  }

  // ---------------------------------------------------------------------------
  // "suspicious-link.biz"

  /** A host without the letters g, y, f, a, m and t contains none of the first seven safe domains. */
  lemma SuspiciousLinkNotFrontSafe(d: string)
    requires 'g' !in d && 'y' !in d && 'f' !in d && 'a' !in d && 'm' !in d && 't' !in d
    ensures forall i :: 0 <= i < 7 ==> !Contains(d, SafeDomains[i])
  {
    forall i | 0 <= i < 7 ensures !Contains(d, SafeDomains[i]) {
      if Contains(d, SafeDomains[i]) {
        ContainedChars(d, SafeDomains[i]);
      }
    }
  }

  /** A host without the letters t, e, g, w and r contains none of the last seven safe domains. */
  lemma SuspiciousLinkNotBackSafe(d: string)
    requires 't' !in d && 'e' !in d && 'g' !in d && 'w' !in d && 'r' !in d
    ensures forall i :: 7 <= i < 14 ==> !Contains(d, SafeDomains[i])
  {
    forall i | 7 <= i < 14 ensures !Contains(d, SafeDomains[i]) {
      if Contains(d, SafeDomains[i]) {
        ContainedChars(d, SafeDomains[i]);
      }
    }
  }

  /** A host without the letters g, y, f, a, m, t, e, w and r contains none of the safe domains. */
  lemma SuspiciousLinkLettersNotWhitelisted(d: string)
    requires 'g' !in d && 'y' !in d && 'f' !in d && 'a' !in d && 'm' !in d && 't' !in d && 'e' !in d && 'w' !in d && 'r' !in d
    ensures !IsWhitelisted(d)
  {
    SuspiciousLinkNotFrontSafe(d);
    SuspiciousLinkNotBackSafe(d);
    assert |SafeDomains| == 14;
  }

  /** A host without the letters g, a, m and f impersonates none of the brands. */
  lemma SuspiciousLinkLettersNoBrand(d: string)
    requires 'g' !in d && 'a' !in d && 'm' !in d && 'f' !in d
    ensures FirstImpersonated(d, CommonBrands) == None
  {
    MissingChar(d, "google", 'g');
    MissingChar(d, "amazon", 'a');
    MissingChar(d, "paypal", 'a');
    MissingChar(d, "microsoft", 'm');
    MissingChar(d, "apple", 'a');
    MissingChar(d, "facebook", 'f');
  }

  /** A host without the letters t, g and w contains none of the shorteners. */
  lemma SuspiciousLinkLettersNotShortened(d: string)
    requires 't' !in d && 'g' !in d && 'w' !in d
    ensures !IsShortened(d)
  {
    MissingChar(d, "bit.ly", 't');
    MissingChar(d, "tinyurl.com", 't');
    MissingChar(d, "t.co", 't');
    MissingChar(d, "goo.gl", 'g');
    MissingChar(d, "ow.ly", 'w');
  }

  // The letters the host lacks, a few per lemma. The solver settles a
  // small question about the characters of a string literal at once, but
  // one conjunction over many letters of the same literal costs it far
  // more, so the letter facts the lemmas above rely on come in small groups.
  lemma SuspiciousLinkLacksGYF(d: string)
    requires d == "suspicious-link.biz"
    ensures 'g' !in d && 'y' !in d && 'f' !in d
  {
  }

  lemma SuspiciousLinkLacksAMT(d: string)
    requires d == "suspicious-link.biz"
    ensures 'a' !in d && 'm' !in d && 't' !in d
  {
  }

  lemma SuspiciousLinkLacksEWR(d: string)
    requires d == "suspicious-link.biz"
    ensures 'e' !in d && 'w' !in d && 'r' !in d
  {
  }

  lemma SuspiciousLinkLacksX(d: string)
    requires d == "suspicious-link.biz"
    ensures 'x' !in d
  {
  }

  lemma SuspiciousLinkNoDigits(d: string)
    requires d == "suspicious-link.biz"
    ensures forall c :: c in d ==> !IsAsciiDigit(c)
  {
  }

  lemma SuspiciousLinkMalicious(d: string)
    requires d == "suspicious-link.biz"
    ensures IsKnownMalicious(d)
  {
    ListedMalicious(d);
  }

  lemma SuspiciousLinkNoTld(d: string)
    requires d == "suspicious-link.biz"
    ensures !HasSuspiciousTld(d)
  {
    NoSuspiciousEnding(d);
  }

  lemma SuspiciousLinkNotComplex(d: string)
    requires d == "suspicious-link.biz"
    ensures !IsComplex(d)
  {
    NotComplexAt(d, "suspicious-link", "biz");
  }

  /** The rule checks on "suspicious-link.biz": listed as malicious; nothing else fires. */
  lemma SuspiciousLinkChecks()
    ensures !IsWhitelisted("suspicious-link.biz")
    ensures ChecksOf("suspicious-link.biz") == RuleChecks(true, false, false, false, false, None)
  {
    var d := "suspicious-link.biz";
    SuspiciousLinkLacksGYF(d);
    SuspiciousLinkLacksAMT(d);
    SuspiciousLinkLacksEWR(d);
    SuspiciousLinkLacksX(d);
    SuspiciousLinkNoDigits(d);
    SuspiciousLinkLettersNotWhitelisted(d);
    SuspiciousLinkLettersNoBrand(d);
    SuspiciousLinkMalicious(d);
    SuspiciousLinkNoTld(d);
    SuspiciousLinkLettersNotShortened(d);
    NotSpoofedWithout(d);
    SuspiciousLinkNotComplex(d);
  }

  // ---------------------------------------------------------------------------
  // "phishing-test.com"

  /** A host without the letters l, y, f, a, r and w contains none of the first seven safe domains. */
  lemma PhishingTestNotFrontSafe(d: string)
    requires 'l' !in d && 'y' !in d && 'f' !in d && 'a' !in d && 'r' !in d && 'w' !in d
    ensures forall i :: 0 <= i < 7 ==> !Contains(d, SafeDomains[i])
  {
    forall i | 0 <= i < 7 ensures !Contains(d, SafeDomains[i]) {
      if Contains(d, SafeDomains[i]) {
        ContainedChars(d, SafeDomains[i]);
      }
    }
  }

  /** A host without the letters a, l, u, w, r and f contains none of the last seven safe domains. */
  lemma PhishingTestNotBackSafe(d: string)
    requires 'a' !in d && 'l' !in d && 'u' !in d && 'w' !in d && 'r' !in d && 'f' !in d
    ensures forall i :: 7 <= i < 14 ==> !Contains(d, SafeDomains[i])
  {
    forall i | 7 <= i < 14 ensures !Contains(d, SafeDomains[i]) {
      if Contains(d, SafeDomains[i]) {
        ContainedChars(d, SafeDomains[i]);
      }
    }
  }

  /** A host without the letters l, y, f, a, r, w and u contains none of the safe domains. */
  lemma PhishingTestLettersNotWhitelisted(d: string)
    requires 'l' !in d && 'y' !in d && 'f' !in d && 'a' !in d && 'r' !in d && 'w' !in d && 'u' !in d
    ensures !IsWhitelisted(d)
  {
    PhishingTestNotFrontSafe(d);
    PhishingTestNotBackSafe(d);
    assert |SafeDomains| == 14;
  }

  /** A host without the letters l, a, r and f impersonates none of the brands. */
  lemma PhishingTestLettersNoBrand(d: string)
    requires 'l' !in d && 'a' !in d && 'r' !in d && 'f' !in d
    ensures FirstImpersonated(d, CommonBrands) == None
  {
    MissingChar(d, "google", 'l');
    MissingChar(d, "amazon", 'a');
    MissingChar(d, "paypal", 'a');
    MissingChar(d, "microsoft", 'r');
    MissingChar(d, "apple", 'a');
    MissingChar(d, "facebook", 'f');
  }

  // The letters the host lacks, a few per lemma. The solver settles a
  // small question about the characters of a string literal at once, but
  // one conjunction over many letters of the same literal costs it far
  // more, so the letter facts the lemmas above rely on come in small groups.
  lemma PhishingTestLacksLYF(d: string)
    requires d == "phishing-test.com"
    ensures 'l' !in d && 'y' !in d && 'f' !in d
  {
  }

  lemma PhishingTestLacksARW(d: string)
    requires d == "phishing-test.com"
    ensures 'a' !in d && 'r' !in d && 'w' !in d
  {
  }

  lemma PhishingTestLacksUX(d: string)
    requires d == "phishing-test.com"
    ensures 'u' !in d && 'x' !in d
  {
  }

  lemma PhishingTestNoDigits(d: string)
    requires d == "phishing-test.com"
    ensures forall c :: c in d ==> !IsAsciiDigit(c)
  {
  }

  lemma PhishingTestMalicious(d: string)
    requires d == "phishing-test.com"
    ensures IsKnownMalicious(d)
  {
    ListedMalicious(d);
  }

  lemma PhishingTestNoTld(d: string)
    requires d == "phishing-test.com"
    ensures !HasSuspiciousTld(d)
  {
    NoSuspiciousEnding(d);
  }

  lemma PhishingTestNotComplex(d: string)
    requires d == "phishing-test.com"
    ensures !IsComplex(d)
  {
    NotComplexAt(d, "phishing-test", "com");
  }

  lemma PhishingTestShortened(d: string)
    requires d == "phishing-test.com"
    ensures IsShortened(d)
  {
    ShortenerAt(d, 12);
  }

  /** The rule checks on "phishing-test.com": listed as malicious, and shortened since it contains "t.co"; nothing else fires. */
  lemma PhishingTestChecks()
    ensures !IsWhitelisted("phishing-test.com")
    ensures ChecksOf("phishing-test.com") == RuleChecks(true, false, true, false, false, None)
  {
    var d := "phishing-test.com";
    PhishingTestLacksLYF(d);
    PhishingTestLacksARW(d);
    PhishingTestLacksUX(d);
    PhishingTestNoDigits(d);
    PhishingTestLettersNotWhitelisted(d);
    PhishingTestLettersNoBrand(d);
    PhishingTestMalicious(d);
    PhishingTestNoTld(d);
    PhishingTestShortened(d);
    NotSpoofedWithout(d);
    PhishingTestNotComplex(d);
  }

  // ---------------------------------------------------------------------------
  // "malware-test.com"

  /** A host without the letters g, y, f, z, i and p contains none of the first seven safe domains. */
  lemma MalwareTestNotFrontSafe(d: string)
    requires 'g' !in d && 'y' !in d && 'f' !in d && 'z' !in d && 'i' !in d && 'p' !in d
    ensures forall i :: 0 <= i < 7 ==> !Contains(d, SafeDomains[i])
  {
    forall i | 0 <= i < 7 ensures !Contains(d, SafeDomains[i]) {
      if Contains(d, SafeDomains[i]) {
        ContainedChars(d, SafeDomains[i]);
      }
    }
  }

  /** A host without the letters i, g, k, d and n contains none of the last seven safe domains. */
  lemma MalwareTestNotBackSafe(d: string)
    requires 'i' !in d && 'g' !in d && 'k' !in d && 'd' !in d && 'n' !in d
    ensures forall i :: 7 <= i < 14 ==> !Contains(d, SafeDomains[i])
  {
    forall i | 7 <= i < 14 ensures !Contains(d, SafeDomains[i]) {
      if Contains(d, SafeDomains[i]) {
        ContainedChars(d, SafeDomains[i]);
      }
    }
  }

  /** A host without the letters g, y, f, z, i, p, k, d and n contains none of the safe domains. */
  lemma MalwareTestLettersNotWhitelisted(d: string)
    requires 'g' !in d && 'y' !in d && 'f' !in d && 'z' !in d && 'i' !in d && 'p' !in d && 'k' !in d && 'd' !in d && 'n' !in d
    ensures !IsWhitelisted(d)
  {
    MalwareTestNotFrontSafe(d);
    MalwareTestNotBackSafe(d);
    assert |SafeDomains| == 14;
  }

  /** A host without the letters g, z, p, i and f impersonates none of the brands. */
  lemma MalwareTestLettersNoBrand(d: string)
    requires 'g' !in d && 'z' !in d && 'p' !in d && 'i' !in d && 'f' !in d
    ensures FirstImpersonated(d, CommonBrands) == None
  {
    MissingChar(d, "google", 'g');
    MissingChar(d, "amazon", 'z');
    MissingChar(d, "paypal", 'p');
    MissingChar(d, "microsoft", 'i');
    MissingChar(d, "apple", 'p');
    MissingChar(d, "facebook", 'f');
  }

  // The letters the host lacks, a few per lemma. The solver settles a
  // small question about the characters of a string literal at once, but
  // one conjunction over many letters of the same literal costs it far
  // more, so the letter facts the lemmas above rely on come in small groups.
  lemma MalwareTestLacksGYF(d: string)
    requires d == "malware-test.com"
    ensures 'g' !in d && 'y' !in d && 'f' !in d
  {
  }

  lemma MalwareTestLacksZIP(d: string)
    requires d == "malware-test.com"
    ensures 'z' !in d && 'i' !in d && 'p' !in d
  {
  }

  lemma MalwareTestLacksKDN(d: string)
    requires d == "malware-test.com"
    ensures 'k' !in d && 'd' !in d && 'n' !in d
  {
  }

  lemma MalwareTestLacksX(d: string)
    requires d == "malware-test.com"
    ensures 'x' !in d
  {
  }

  lemma MalwareTestNoDigits(d: string)
    requires d == "malware-test.com"
    ensures forall c :: c in d ==> !IsAsciiDigit(c)
  {
  }

  lemma MalwareTestMalicious(d: string)
    requires d == "malware-test.com"
    ensures IsKnownMalicious(d)
  {
    ListedMalicious(d);
  }

  lemma MalwareTestNoTld(d: string)
    requires d == "malware-test.com"
    ensures !HasSuspiciousTld(d)
  {
    NoSuspiciousEnding(d);
  }

  lemma MalwareTestNotComplex(d: string)
    requires d == "malware-test.com"
    ensures !IsComplex(d)
  {
    NotComplexAt(d, "malware-test", "com");
  }

  lemma MalwareTestShortened(d: string)
    requires d == "malware-test.com"
    ensures IsShortened(d)
  {
    ShortenerAt(d, 11);
  }

  /** The rule checks on "malware-test.com": listed as malicious, and shortened since it contains "t.co"; nothing else fires. */
  lemma MalwareTestChecks()
    ensures !IsWhitelisted("malware-test.com")
    ensures ChecksOf("malware-test.com") == RuleChecks(true, false, true, false, false, None)
  {
    var d := "malware-test.com";
    MalwareTestLacksGYF(d);
    MalwareTestLacksZIP(d);
    MalwareTestLacksKDN(d);
    MalwareTestLacksX(d);
    MalwareTestNoDigits(d);
    MalwareTestLettersNotWhitelisted(d);
    MalwareTestLettersNoBrand(d);
    MalwareTestMalicious(d);
    MalwareTestNoTld(d);
    MalwareTestShortened(d);
    NotSpoofedWithout(d);
    MalwareTestNotComplex(d);
  }

  // ---------------------------------------------------------------------------
  // The demonstration outcomes

  /** "suspicious-link.biz", labelled a medium risk on its button, matches the
      malicious list only: 80 points, tier critical. */
  lemma SuspiciousLinkIsCritical(fullUrl: string, safeDraw: int, baselineDraw: int)
    ensures FiredFindings("suspicious-link.biz") == [KnownMalicious]
    ensures var a := Assess(fullUrl, "suspicious-link.biz", safeDraw, baselineDraw);
      a.level == Critical && a.score == 80 && a.threats == [KnownMalicious]
  {
    SuspiciousLinkChecks();
    MaliciousOnlyIsCritical(fullUrl, "suspicious-link.biz", safeDraw, baselineDraw);
  }

  /** "phishing-test.com", labelled a high risk on its button, matches the
      malicious list and contains "t.co": 105 points reported as 100, tier
      critical. */
  lemma PhishingTestIsCritical(fullUrl: string, safeDraw: int, baselineDraw: int)
    ensures FiredFindings("phishing-test.com") == [KnownMalicious, UrlShortener]
    ensures var a := Assess(fullUrl, "phishing-test.com", safeDraw, baselineDraw);
      a.level == Critical && a.score == 100 && a.threats == [KnownMalicious, UrlShortener]
  {
    PhishingTestChecks();
    MaliciousShortenedIsCritical(fullUrl, "phishing-test.com", safeDraw, baselineDraw);
  }

  /** "malware-test.com" matches the malicious list and contains "t.co": 105
      points reported as 100, tier critical. */
  lemma MalwareTestIsCritical(fullUrl: string, safeDraw: int, baselineDraw: int)
    ensures FiredFindings("malware-test.com") == [KnownMalicious, UrlShortener]
    ensures var a := Assess(fullUrl, "malware-test.com", safeDraw, baselineDraw);
      a.level == Critical && a.score == 100 && a.threats == [KnownMalicious, UrlShortener]
  {
    MalwareTestChecks();
    MaliciousShortenedIsCritical(fullUrl, "malware-test.com", safeDraw, baselineDraw);
  }
}
