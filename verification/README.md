# Threat analyzer: URL risk scorer and file analysis page

This project models, in Dafny, the two places where the web application makes
decisions rather than draw pictures.

The **URL security analyzer** (`src/components/URLAnalyzer.tsx`) takes what the
user typed, refuses a blank input, adds `https://` when the text does not start
with `http`, and takes the lower-cased host name. It then scores the host:

- a host containing one of fourteen whitelisted names is safe, with a random
  score below 20;
- otherwise five pattern rules add fixed points and a finding each, in order:
  - malicious list, 80;
  - suspicious top-level domain, 30;
  - URL shortener, 25;
  - spoofing (`xn--` or three digits in a row), 20;
  - complex structure (more than 20 characters or more than three labels), 15;
- a brand search then adds 40 for the first brand the host names without
  `<brand>.com`;
- the sum decides the tier with the thresholds 70/50/30/10 and is reported
  capped at 100;
- when nothing fired, a random baseline from 5 to 29 is used and only the scores
  above 20 count as low risk.

The badge variant and the icon of a tier are modelled too. The component is a
class holding the input text, the busy flag, the analysis shown and the
notifications raised.

The **file analysis page** (`src/pages/FileAnalysis.tsx`) does the following:

- It describes each route: its title, the threats it looks for, and the
  extensions it lists.
- It accepts uploaded files under the route's rule. A file is accepted when its
  lower-cased extension is listed, or the route has an entry without a leading
  dot, or the route is one of `urls`, `web-content` and `encrypted`. Each
  refused file raises a notification.
- It removes files by index.
- It refuses to analyse when the text is blank and nothing is uploaded.
  Otherwise it runs the progress bar to 100 and builds a report:
  - the first one to three of the route's threats;
  - a methodology per threat from a fixed table, or a default entry;
  - the total size, the format, the file count and the file names;
  - four recommendations.
- It colours a score with the thresholds 80/60/40.

The page is a class with the same state the component keeps in React hooks.

The modules:

- `Wrappers` holds the Option and Result types.
- `Text` holds the JavaScript string operations the code relies on: `trim`,
  `includes`, `startsWith`/`endsWith`, `split`/`pop`/`join`, and the ASCII case
  mapping.
- `UrlAnalyzer` and `UrlAnalyzerProperties` cover the scorer and what is proved
  about it.
- `UrlDemoHosts` works out the outcome for the hosts of the component's four
  demonstration buttons. `suspicious-link.biz`, labelled a medium risk on its
  button, is on the malicious list, so the code rates it critical (80 points).
  `phishing-test.com`, labelled a high risk, contains `t.co` and so also counts
  as shortened: 105 points, reported as 100, critical. The model follows the
  code, not the labels.
- `FileAnalysis` and `FileAnalysisProperties` cover the page.

The random draws (`Math.random`), the URL parser and the timers are not
modelled as such. The draws are parameters restricted to the ranges the code
produces, the host-name parser is a function parameter, and the progress timer
is the loop alone.

## Model

| member | source | states |
|---|---|---|
| UrlAnalyzer.FullUrl | src/components/URLAnalyzer.tsx:64 | the URL analysed starts with `http` and ends with the input |
| UrlAnalyzer.Normalise | src/components/URLAnalyzer.tsx:49-66 | an all-whitespace input is refused, and only such an input; a parse failure is reported exactly when the non-blank URL has no host; otherwise the target is the full URL with the parsed host lower-cased, so the domain has no upper-case letter and the URL keeps the input as its tail |
| UrlAnalyzer.FirstImpersonated | src/components/URLAnalyzer.tsx:191-203 | no brand is found exactly when no brand is impersonated; a found brand is one of the list that the host impersonates |
| UrlAnalyzer.FirstImpersonatedAt | src/components/URLAnalyzer.tsx:191-203 | the brand search stops at the first impersonated brand in list order |
| UrlAnalyzer.ScoreAppend | src/components/URLAnalyzer.tsx:139-203 | pushing a finding adds exactly its points to the score |
| UrlAnalyzer.ApplyRule | src/components/URLAnalyzer.tsx:139-147 | a rule whose check holds adds its points and pushes its finding; one whose check fails changes nothing; the score stays the sum of the findings' points |
| UrlAnalyzer.ScorePatterns | src/components/URLAnalyzer.tsx:138-188 | the five pattern rules in order produce the rule-order list of fired findings, and the score is the sum of their points |
| UrlAnalyzer.ScoreBrands | src/components/URLAnalyzer.tsx:190-203 | the brand loop adds the finding of the first impersonated brand, or nothing, and keeps the score equal to the points of the findings |
| UrlAnalyzer.DetectThreats | src/components/URLAnalyzer.tsx:90-256 | the engine's step-by-step computation equals the whitelist / rules / fallback definition `Assess` |
| UrlAnalyzer.TierOf | src/components/URLAnalyzer.tsx:205-210 | the 70/50/30/10 thresholds; specified by UrlAnalyzerProperties.TierMonotone and UrlAnalyzerProperties.RuleOutcome |
| UrlAnalyzer.FallbackTier | src/components/URLAnalyzer.tsx:220 | low above 20, safe otherwise; specified by UrlAnalyzerProperties.FallbackOutcome and UrlAnalyzerProperties.FallbackCutDiffers |
| UrlAnalyzer.WhitelistResult | src/components/URLAnalyzer.tsx:113-136 | the record for a whitelisted host; specified by UrlAnalyzerProperties.WhitelistShortCircuit |
| UrlAnalyzer.Compose | src/components/URLAnalyzer.tsx:223-255 | the record for any other host; specified by UrlAnalyzerProperties.AdviceByTier, UrlAnalyzerProperties.RuleOutcome and UrlAnalyzerProperties.ScoreCapped |
| UrlAnalyzer.Outcome | src/components/URLAnalyzer.tsx:113-255 | whitelist, rules, or fallback; specified by UrlAnalyzerProperties.WhitelistShortCircuit, UrlAnalyzerProperties.RuleOutcome and UrlAnalyzerProperties.FallbackOutcome |
| UrlAnalyzer.Assess | src/components/URLAnalyzer.tsx:90-256 | the analysis of a host; UrlAnalyzer.DetectThreats is proved equal to it, and UrlAnalyzerProperties.FindingIffCheck and UrlAnalyzerProperties.ScoreBounds describe it |
| UrlAnalyzer.RiskBadge | src/components/URLAnalyzer.tsx:258-267 | the badge of a tier name; specified by UrlAnalyzerProperties.BadgeMatchesIcon |
| UrlAnalyzer.RiskIcon | src/components/URLAnalyzer.tsx:269-278 | the icon of a tier name; specified by UrlAnalyzerProperties.BadgeMatchesIcon |
| UrlAnalyzer.UrlAnalyzerPanel.constructor | src/components/URLAnalyzer.tsx:42-45 | empty input, idle, no analysis, no notification |
| UrlAnalyzer.UrlAnalyzerPanel.SetUrl | src/components/URLAnalyzer.tsx:302 | typing replaces the input and nothing else |
| UrlAnalyzer.UrlAnalyzerPanel.AnalyzeUrl | src/components/URLAnalyzer.tsx:48-87 | blank input: only an "invalid input" notification; unparsable URL: idle again, previous analysis kept, an error notification; otherwise the analysis of the host is shown with a notification carrying its finding count and tier |
| UrlAnalyzerProperties.FullUrlPrefix | src/components/URLAnalyzer.tsx:64 | the scheme is added exactly when the input does not start with `http`, and adding it is idempotent |
| UrlAnalyzerProperties.BlankRefusedBeforeParsing | src/components/URLAnalyzer.tsx:49-56 | a blank input is refused whatever the URL parser would say |
| UrlAnalyzerProperties.WhenKeepsOrder | src/components/URLAnalyzer.tsx:139-188 | a rule placed after every earlier finding keeps the list in rule order |
| UrlAnalyzerProperties.FindingsInRuleOrder | src/components/URLAnalyzer.tsx:138-203 | the findings are in evaluation order, at most six, at most one brand finding, and only rule findings |
| UrlAnalyzerProperties.PatternsInRuleOrder | src/components/URLAnalyzer.tsx:138-188 | the pattern findings are in rule order and all precede the brand rule |
| UrlAnalyzerProperties.DistinctPositionsBound | src/components/URLAnalyzer.tsx:138-203 | findings in strictly rising rule position number at most six |
| UrlAnalyzerProperties.RisingPositions | src/components/URLAnalyzer.tsx:138-203 | the k-th finding in rule order belongs to rule k or a later one |
| UrlAnalyzerProperties.WhenMembership | src/components/URLAnalyzer.tsx:139-188 | after a rule, a finding is present exactly when it was before or it is the rule's own and the rule fired |
| UrlAnalyzerProperties.PatternMembership | src/components/URLAnalyzer.tsx:138-188 | a finding is among the pattern findings exactly when its rule's check holds |
| UrlAnalyzerProperties.FindingIffCheck | src/components/URLAnalyzer.tsx:138-203 | each rule's finding is reported exactly when its check holds; a brand finding exactly for the brand settled on |
| UrlAnalyzerProperties.ReportedBrandIsFirst | src/components/URLAnalyzer.tsx:191-203 | the reported brand is the first impersonated brand in list order, and it is the only brand reported |
| UrlAnalyzerProperties.ScoreWhen | src/components/URLAnalyzer.tsx:139-188 | a rule adds its points exactly when it fires |
| UrlAnalyzerProperties.ScoreOfPatterns | src/components/URLAnalyzer.tsx:139-188 | the pattern score is 80/30/25/20/15 for each pattern rule that fires |
| UrlAnalyzerProperties.ScoreOfChecks | src/components/URLAnalyzer.tsx:139-203 | the uncapped score is the sum of 80/30/25/20/15/40 over the rules that fire |
| UrlAnalyzerProperties.ScoreBounds | src/components/URLAnalyzer.tsx:139-203 | the score is 0 exactly when no rule fires; otherwise it lies between 15 and 210 |
| UrlAnalyzerProperties.TierMonotone | src/components/URLAnalyzer.tsx:205-210 | a higher score never gets a lower tier |
| UrlAnalyzerProperties.WhitelistShortCircuit | src/components/URLAnalyzer.tsx:113-136 | a whitelisted host is safe, with the score drawn, the single safe finding, SSL shown, one consequence and three recommendations, whatever the rule checks say |
| UrlAnalyzerProperties.FallbackOutcome | src/components/URLAnalyzer.tsx:212-221 | with no finding the single "no major threats" finding is shown, the score is the baseline from 5 to 29, and the tier is low exactly when it exceeds 20 |
| UrlAnalyzerProperties.FallbackCutDiffers | src/components/URLAnalyzer.tsx:206-220 | on scores 10 to 20 the fallback says safe where the main thresholds say low |
| UrlAnalyzerProperties.RuleOutcome | src/components/URLAnalyzer.tsx:205-228 | with findings, the tier is that of the uncapped score, the findings are shown, and the score is capped at 100 |
| UrlAnalyzerProperties.ScoreCapped | src/components/URLAnalyzer.tsx:113-227 | every reported score lies in 0..100 |
| UrlAnalyzerProperties.AdviceByTier | src/components/URLAnalyzer.tsx:229-254 | for a host that is not whitelisted: safe tier, one consequence and three recommendations; other tiers, six each; the suspicious registrar, the creation date 2024-12-01 and the unknown country exactly on critical; SSL reported exactly below 40 uncapped points |
| UrlAnalyzerProperties.EndsInTComIsShortened | src/components/URLAnalyzer.tsx:160-169 | every host ending in `t.com` contains `t.co` and counts as shortened |
| UrlAnalyzerProperties.WhitelistBeatsBlocklist | src/components/URLAnalyzer.tsx:113-141 | every host naming both a safe domain and a malicious pattern is safe, with the single safe finding and the drawn score |
| UrlAnalyzerProperties.LookalikeHostIsSafe | src/components/URLAnalyzer.tsx:113-141 | `google.com.fake-bank.net` names both a safe domain and a malicious pattern, and is safe |
| UrlAnalyzerProperties.BrandDescriptionNamesBrand | src/components/URLAnalyzer.tsx:192-199 | the brand finding's description names the brand |
| UrlAnalyzerProperties.ErrorsAreHeavy | src/components/URLAnalyzer.tsx:139-203 | error severity goes exactly with the rule findings worth 40 points or more; info exactly with the non-rule findings |
| UrlAnalyzerProperties.BadgeMatchesIcon | src/components/URLAnalyzer.tsx:258-278 | the destructive badge goes with the cross icon exactly on the high and critical tiers; the success badge only on safe |
| UrlDemoHosts.ListedMalicious | src/components/URLAnalyzer.tsx:101-105 | a host that is itself a listed malicious name is flagged malicious |
| UrlDemoHosts.ShortenerAt | src/components/URLAnalyzer.tsx:110-111 | a host with `t.co` inside counts as shortened |
| UrlDemoHosts.NoSuspiciousEnding | src/components/URLAnalyzer.tsx:149-158 | a host whose last character ends none of the suspicious endings has no suspicious TLD |
| UrlDemoHosts.NotSpoofedWithout | src/components/URLAnalyzer.tsx:171-179 | a host without `x` and without digits does not look spoofed |
| UrlDemoHosts.NotComplexAt | src/components/URLAnalyzer.tsx:181-189 | a host of at most 20 characters with exactly two labels is not complex |
| UrlDemoHosts.MaliciousOnlyIsCritical | src/components/URLAnalyzer.tsx:138-227 | a non-whitelisted host that only matches the malicious list scores 80 and is critical |
| UrlDemoHosts.MaliciousShortenedIsCritical | src/components/URLAnalyzer.tsx:138-227 | a host that is also shortened scores 105, reported 100, critical |
| UrlDemoHosts.GoogleIsSafe | src/components/URLAnalyzer.tsx:334 | the safe demonstration host is whitelisted and safe |
| UrlDemoHosts.SuspiciousLinkChecks | src/components/URLAnalyzer.tsx:335 | on `suspicious-link.biz` only the malicious rule fires |
| UrlDemoHosts.SuspiciousLinkIsCritical | src/components/URLAnalyzer.tsx:335 | `suspicious-link.biz` scores 80 and is critical, not medium |
| UrlDemoHosts.PhishingTestChecks | src/components/URLAnalyzer.tsx:336 | on `phishing-test.com` the malicious and shortener rules fire |
| UrlDemoHosts.PhishingTestIsCritical | src/components/URLAnalyzer.tsx:336 | `phishing-test.com` scores 105, reported 100, critical, not high |
| UrlDemoHosts.MalwareTestChecks | src/components/URLAnalyzer.tsx:337 | on `malware-test.com` the malicious and shortener rules fire |
| UrlDemoHosts.MalwareTestIsCritical | src/components/URLAnalyzer.tsx:337 | `malware-test.com` scores 105, reported 100, critical |
| FileAnalysis.FileExtension | src/pages/FileAnalysis.tsx:133 | the extension is a dot followed by text with no dot and no upper-case letter |
| FileAnalysis.KindOf | src/pages/FileAnalysis.tsx:22-126 | the switch on the route parameter, the missing parameter as the empty text; specified by FileAnalysisProperties.RouteRoundTrip |
| FileAnalysis.TypeInfo | src/pages/FileAnalysis.tsx:22-124 | the title, threats and extensions of a route; specified by FileAnalysisProperties.RouteThreatCounts, FileAnalysisProperties.RouteExtensionsListed and FileAnalysisProperties.ListedKindsDotted |
| FileAnalysis.IsValidType | src/pages/FileAnalysis.tsx:134-136 | an entry equal to the extension, or any entry without a leading dot; specified by FileAnalysisProperties.DottedEntriesAccept and FileAnalysisProperties.UrlEntriesAcceptEverything |
| FileAnalysis.Accepts | src/pages/FileAnalysis.tsx:133-138 | the acceptance rule of an upload; specified by FileAnalysisProperties.AnyFileKindsAccept, FileAnalysisProperties.ListedKindsAccept and FileAnalysisProperties.UnknownKindRefuses |
| FileAnalysis.AcceptedFiles | src/pages/FileAnalysis.tsx:132-147 | the files kept by an upload, in order; specified by FileAnalysisProperties.UploadPartition and FileAnalysisProperties.UploadAppend |
| FileAnalysis.RejectionToasts | src/pages/FileAnalysis.tsx:140-145 | the notifications of an upload, in order; specified by FileAnalysisProperties.RefusalsNamed and FileAnalysisProperties.UploadPartition |
| FileAnalysis.RemoveAt | src/pages/FileAnalysis.tsx:153 | the filter that drops one index; specified by FileAnalysisProperties.RemoveAtInRange and FileAnalysisProperties.RemoveAtOutOfRange |
| FileAnalysis.TableEntry | src/pages/FileAnalysis.tsx:213-250 | the methodology table; specified by FileAnalysisProperties.TableRoundTrip |
| FileAnalysis.MethodologyOf | src/pages/FileAnalysis.tsx:252-257 | the table entry or the default; specified by FileAnalysisProperties.DefaultOnlyForUnlisted |
| FileAnalysis.DetectedThreats | src/pages/FileAnalysis.tsx:187 | the first one to three threats of the route; specified by FileAnalysisProperties.ReportThreats |
| FileAnalysis.Format | src/pages/FileAnalysis.tsx:194 | the format shown; specified by FileAnalysisProperties.FormatIsExtension and FileAnalysisProperties.SummaryFacts |
| FileAnalysis.FileSummary | src/pages/FileAnalysis.tsx:176-197 | the file part of the report; specified by FileAnalysisProperties.SummaryFacts |
| FileAnalysis.BuildReport | src/pages/FileAnalysis.tsx:176-206 | the report; specified by FileAnalysisProperties.ReportThreats, FileAnalysisProperties.ReportScoreAndSummary and FileAnalysisProperties.RecommendationNamesRoute |
| FileAnalysis.RiskColorOf | src/pages/FileAnalysis.tsx:260-265 | the colour of a score; specified by FileAnalysisProperties.RiskColorBands and FileAnalysisProperties.RiskColorMonotone |
| FileAnalysis.UploadStep | src/pages/FileAnalysis.tsx:132-147 | one more file adds at most itself to the accepted files and at most its notification to the refusals |
| FileAnalysis.AttackMethodology | src/pages/FileAnalysis.tsx:212-258 | one methodology per threat, in order: the table's entry for a listed threat, the default otherwise |
| FileAnalysis.Names | src/pages/FileAnalysis.tsx:196 | the names of the files, one per file, in order |
| FileAnalysis.FileAnalysisPage.constructor | src/pages/FileAnalysis.tsx:12-20 | the page's description is that of its route; empty input, no files, idle, progress 0, no report, no notification |
| FileAnalysis.FileAnalysisPage.SetInput | src/pages/FileAnalysis.tsx:366 | typing replaces the text and nothing else |
| FileAnalysis.FileAnalysisPage.HandleFileUpload | src/pages/FileAnalysis.tsx:128-150 | the accepted files are appended after the files already uploaded; one notification per refused file; nothing else changes |
| FileAnalysis.FileAnalysisPage.SortUpload | src/pages/FileAnalysis.tsx:132-147 | the pass over the upload collects exactly the accepted files in order and raises the refusals in order |
| FileAnalysis.FileAnalysisPage.RemoveFile | src/pages/FileAnalysis.tsx:152-154 | the file list loses the entry at the index, and only that entry |
| FileAnalysis.FileAnalysisPage.RunProgress | src/pages/FileAnalysis.tsx:171-174 | the progress bar ends at 100 |
| FileAnalysis.FileAnalysisPage.SimulateAnalysis | src/pages/FileAnalysis.tsx:156-210 | blank text and no files: only a "no content" notification; otherwise idle again, progress 100, and the report for the route, text, files and draws; text and files never change |
| FileAnalysisProperties.RouteRoundTrip | src/pages/FileAnalysis.tsx:22-124 | each known kind has its own route parameter, and a parameter selecting a known kind is that kind's |
| FileAnalysisProperties.RouteThreatCounts | src/pages/FileAnalysis.tsx:22-124 | a known route lists five threats, any other one |
| FileAnalysisProperties.RouteExtensionsListed | src/pages/FileAnalysis.tsx:22-124 | only an unknown route lists no extension |
| FileAnalysisProperties.ExtensionAfterLastDot | src/pages/FileAnalysis.tsx:133 | the extension is the lower-cased text after the last dot, or the whole lower-cased name when there is no dot |
| FileAnalysisProperties.AnyFileRoutes | src/pages/FileAnalysis.tsx:138 | the routes that take every file are exactly the URL, web content and encrypted routes |
| FileAnalysisProperties.UrlEntriesAcceptEverything | src/pages/FileAnalysis.tsx:134-136 | the URL route's scheme entries, having no leading dot, pass every extension |
| FileAnalysisProperties.AnyFileKindsAccept | src/pages/FileAnalysis.tsx:138 | the URL, web content and encrypted routes accept every file |
| FileAnalysisProperties.DottedEntriesAccept | src/pages/FileAnalysis.tsx:133-138 | on a route listing only dotted extensions, and not taking every file, a file is accepted exactly when its extension is listed |
| FileAnalysisProperties.ListedKindsDotted | src/pages/FileAnalysis.tsx:39-83 | the image, document and video routes list only dotted extensions |
| FileAnalysisProperties.ListedKindsAccept | src/pages/FileAnalysis.tsx:133-138 | the image, document and video routes accept a file exactly when its extension is listed |
| FileAnalysisProperties.UnknownKindRefuses | src/pages/FileAnalysis.tsx:114-124 | an unknown route accepts no file |
| FileAnalysisProperties.UploadAppend | src/pages/FileAnalysis.tsx:128-150 | uploading two batches accepts and refuses what each batch does, in order |
| FileAnalysisProperties.UploadPartition | src/pages/FileAnalysis.tsx:132-147 | a file is kept exactly when it was uploaded and accepted; kept plus refused is the number uploaded |
| FileAnalysisProperties.RefusalsNamed | src/pages/FileAnalysis.tsx:140-145 | each notification names a refused file and the route's title, and each refused file has one |
| FileAnalysisProperties.AnyFileRoutesKeepAll | src/pages/FileAnalysis.tsx:138 | the URL, web content and encrypted routes keep every file and refuse none |
| FileAnalysisProperties.UnknownRouteRefusesAll | src/pages/FileAnalysis.tsx:132-147 | a route with no extension that does not take every file keeps nothing and refuses everything |
| FileAnalysisProperties.UploadKeepsEarlierFiles | src/pages/FileAnalysis.tsx:149 | an upload keeps the earlier files in front, in order, and adds at most the files uploaded |
| FileAnalysisProperties.PageUploadByRoute | src/pages/FileAnalysis.tsx:126-149 | on a page showing its route's description, an upload adds every file on the URL, web content and encrypted routes, exactly the files with a listed extension on the image, document and video routes, and nothing on any other route |
| FileAnalysisProperties.RemoveAtInRange | src/pages/FileAnalysis.tsx:153 | removing at an index in range leaves the elements before and after it, in order |
| FileAnalysisProperties.RemoveAtOutOfRange | src/pages/FileAnalysis.tsx:153 | removing at an index out of range changes nothing |
| FileAnalysisProperties.RemoveAtLength | src/pages/FileAnalysis.tsx:153 | removal shortens the list by one exactly when the index is in range |
| FileAnalysisProperties.TableRoundTrip | src/pages/FileAnalysis.tsx:213-250 | a threat is listed with an entry exactly when it is that entry's name; the default entry is listed under none |
| FileAnalysisProperties.DefaultOnlyForUnlisted | src/pages/FileAnalysis.tsx:252-257 | a threat gets the default entry exactly when the table does not list it |
| FileAnalysisProperties.MethodologyAppend | src/pages/FileAnalysis.tsx:252 | the methodologies of two lists of threats are those of each, in order |
| FileAnalysisProperties.ReportThreats | src/pages/FileAnalysis.tsx:187-199 | the report lists the first one to three of the route's threats, in order, counts them, and gives each its methodology |
| FileAnalysisProperties.ReportScoreAndSummary | src/pages/FileAnalysis.tsx:189-197 | the reported score is the draw, in 0..99, and the summary is that of the input |
| FileAnalysisProperties.SummaryFacts | src/pages/FileAnalysis.tsx:176-196 | the summary carries the route's title; with files, their count and total size; without, exactly one file, the text at two bytes per character, named "Text Content", in the format of the route's first listed extension, or "Unknown" when there is none |
| FileAnalysisProperties.RouteReportThreats | src/pages/FileAnalysis.tsx:187 | on every route the report lists one to three threats, a prefix of the route's list |
| FileAnalysisProperties.FormatIsExtension | src/pages/FileAnalysis.tsx:194 | the format of uploaded files, lower-cased again behind a dot, is the first file's extension |
| FileAnalysisProperties.RecommendationNamesRoute | src/pages/FileAnalysis.tsx:200-205 | four recommendations, the first naming the route |
| FileAnalysisProperties.RiskColorBands | src/pages/FileAnalysis.tsx:260-265 | each colour covers exactly one band of scores: 80 and up, 60-79, 40-59, below 40 |
| FileAnalysisProperties.RiskColorMonotone | src/pages/FileAnalysis.tsx:260-265 | a higher score never gets a milder colour |
| Text.TrimEmptyIffBlank | src/components/URLAnalyzer.tsx:49 | the trimmed text is empty exactly when every character is whitespace |
| Text.LastPieceAfter | src/pages/FileAnalysis.tsx:133 | the last piece of a split is the text after the last separator |
| Text.SplitJoin | src/pages/FileAnalysis.tsx:133 | joining the pieces of a split with the separator gives the text back, so `Split` loses nothing |
| Text.LowerOfUpper | src/pages/FileAnalysis.tsx:194 | lower-casing the upper-cased text gives the lower-cased text |

## Left out

- Timers: the three-second delay before an analysis and the 200 ms steps of the progress bar are not modelled. The progress bar is only its loop to 100.
- `Math.random`: each draw is a parameter limited to the range the code produces.
- The URL parser (`new URL(...).hostname`) is not part of this model. It is the function parameter `hostOf`, returning no host where the parser throws. Only the lower-casing of its result is modelled.
- The size display in KB or MB with `toFixed(2)` is left out, because it is floating-point formatting. The report keeps the total size in bytes.
- Rendering is left out: the icons, the description and placeholder of each route, the texts of the notifications, navigation, and the static explanatory content.
- Text.AsciiLower: maps only the ASCII letters, unlike JavaScript's Unicode `toLowerCase`. Host names and the listed extensions are ASCII.
- Text.AsciiUpper: maps only the ASCII letters, unlike JavaScript's Unicode `toUpperCase`.
- String lengths are counted in characters, not UTF-16 code units. This matters for the length-20 complexity rule and the two-bytes-per-character size only outside the Basic Multilingual Plane.
- The findings of the URL analyzer are a datatype of kinds. Their type, severity and description texts come from functions, not records holding strings.
- The methodologies are likewise kinds with text functions. A lookup under a key inherited from JavaScript's object prototype, such as `constructor`, is not modelled: such a key gets the default entry.
- UrlAnalyzer.ScorePatterns: takes the five evaluated conditions as booleans. DetectThreats evaluates them on the host.
- A missing route parameter is modelled as the empty text. The recommendation template would print `undefined` for it.
- Concurrency between the asynchronous handlers is not modelled, e.g. a second click while an analysis is running. Each handler runs to completion.
