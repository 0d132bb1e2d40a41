/** The file analysis page: the description of each analysis route, the rule
    that decides which uploaded files a route accepts, the list of uploaded
    files with its append and remove operations, the guard in front of an
    analysis and the report it produces, the lookup of attack methodologies
    and the colour of a risk score. The random draws of the page are
    parameters. */
module FileAnalysis {
  import opened Wrappers
  import opened Text

  // ---------------------------------------------------------------------------
  // Routes

  /** The analysis routes the page knows; `General` is every other route. */
  datatype FileKind = Urls | Images | Documents | Videos | WebContent | Encrypted | General

  /** The switch on the route parameter. A missing parameter is the empty text. */
  function KindOf(fileType: string): FileKind {
    if fileType == "urls" then Urls
    else if fileType == "images" then Images
    else if fileType == "documents" then Documents
    else if fileType == "videos" then Videos
    else if fileType == "web-content" then WebContent
    else if fileType == "encrypted" then Encrypted
    else General
  }

  /** The route parameter that selects a known kind. */
  function RouteOf(k: FileKind): string {
    match k
    case Urls => "urls"
    case Images => "images"
    case Documents => "documents"
    case Videos => "videos"
    case WebContent => "web-content"
    case Encrypted => "encrypted"
    case General => ""
  }

  /** What the page shows and checks for a route (its icon, description and
      placeholder are presentation only). */
  datatype FileTypeInfo = FileTypeInfo(title: string, specificThreats: seq<string>, fileExtensions: seq<string>)

  function TypeInfo(k: FileKind): FileTypeInfo {
    FileTypeInfo(TitleOf(k), ThreatsOf(k), ExtensionsOf(k))
  }

  /** The heading of the route. */
  function TitleOf(k: FileKind): string {
    match k
    case Urls => "URL & Link Analysis"
    case Images => "Image File Analysis"
    case Documents => "Document Analysis"
    case Videos => "Video File Analysis"
    case WebContent => "Web Content Analysis"
    case Encrypted => "Encrypted File Analysis"
    case General => "File Analysis"
  }

  /** The threats the route looks for, in the order they are reported. */
  function ThreatsOf(k: FileKind): seq<string> {
    match k
    case Urls => ["Phishing landing pages", "Malicious redirects", "Drive-by downloads",
    "Credential harvesting forms", "Browser exploits"]
    case Images => ["Steganography hiding malware", "Embedded malicious scripts", "EXIF data exploitation",
    "Image-based phishing", "Polyglot files"]
    case Documents => ["Macro-based malware", "PDF JavaScript exploits", "Document metadata leaks",
    "Embedded executable files", "Template injection attacks"]
    case Videos => ["Malicious codec exploits", "Streaming service impersonation", "Video container vulnerabilities",
    "Subtitle file injection", "Fake streaming sites"]
    case WebContent => ["Cross-site scripting (XSS)", "Malicious JavaScript injection", "CSS-based attacks",
    "HTML form manipulation", "Code obfuscation techniques"]
    case Encrypted => ["Ransomware encryption", "Trojan-encrypted payloads", "Cryptojacking scripts",
    "Fake encryption software", "Key recovery scams"]
    case General => ["General security threats"]
  }

  /** The extensions the route lists. */
  function ExtensionsOf(k: FileKind): seq<string> {
    match k
    case Urls => ["http://", "https://", "ftp://"]
    case Images => [".jpg", ".png", ".gif", ".bmp", ".tiff"]
    case Documents => [".pdf", ".doc", ".docx", ".xls", ".xlsx", ".ppt", ".pptx"]
    case Videos => [".mp4", ".avi", ".mov", ".wmv", ".flv"]
    case WebContent => [".html", ".css", ".js", ".json", ".xml"]
    case Encrypted => [".zip", ".rar", ".7z", ".gpg", ".pgp"]
    case General => []
  }

  // ---------------------------------------------------------------------------
  // The acceptance rule

  /** An uploaded file: its name and its size in bytes. */
  datatype UploadedFile = UploadedFile(name: string, size: nat)

  /** A dot followed by the lower-cased text after the last dot of the name,
      or after the whole name when it has no dot. */
  function FileExtension(name: string): (ext: string)
    ensures |ext| >= 1 && ext[0] == '.' && '.' !in ext[1..]
    ensures forall i :: 0 <= i < |ext| ==> !IsAsciiUpper(ext[i])
  {
    var parts := Split(name, '.');
    var last := Last(parts);
    assert '.' !in last;
    var ext := "." + AsciiLower(last);
    assert ext[1..] == AsciiLower(last);
    assert forall i :: 0 <= i < |last| ==> AsciiLower(last)[i] != '.' by {
      forall i | 0 <= i < |last| ensures AsciiLower(last)[i] != '.' {
        assert last[i] in last;
      }
    }
    ext
  }

  /** The route's own test: some listed extension that starts with a dot is
      the file's extension, or some listed entry does not start with a dot. */
  predicate IsValidType(fileExtensions: seq<string>, fileExt: string) {
    exists i | 0 <= i < |fileExtensions| ::
      if StartsWith(fileExtensions[i], ".") then fileExt == fileExtensions[i] else true
  }

  /** The routes that take every uploaded file. */
  predicate AcceptsAnyFile(fileType: string) {
    fileType == "encrypted" || fileType == "urls" || fileType == "web-content"
  }

  /** Whether the route `fileType`, described by `info`, accepts a file of this name. */
  predicate Accepts(info: FileTypeInfo, fileType: string, name: string) {
    IsValidType(info.fileExtensions, FileExtension(name)) || AcceptsAnyFile(fileType)
  }

  // ---------------------------------------------------------------------------
  // Uploads

  /** The notifications the page raises. */
  datatype Toast =
    | InvalidFileType(fileName: string, typeTitle: string)
    | NoContent

  /** The files of an upload the route accepts, in upload order. */
  function AcceptedFiles(info: FileTypeInfo, fileType: string, files: seq<UploadedFile>): seq<UploadedFile>
    decreases |files|
  {
    if files == [] then []
    else
      var file := Last(files);
      AcceptedFiles(info, fileType, files[..|files| - 1]) + (if Accepts(info, fileType, file.name) then [file] else [])
  }

  /** One error notification per file of an upload the route refuses, in upload order. */
  function RejectionToasts(info: FileTypeInfo, fileType: string, files: seq<UploadedFile>): seq<Toast>
    decreases |files|
  {
    if files == [] then []
    else
      var file := Last(files);
      RejectionToasts(info, fileType, files[..|files| - 1])
        + (if Accepts(info, fileType, file.name) then [] else [InvalidFileType(file.name, info.title)])
  }

  /** Taking one more file of an upload adds at most that file to the
      accepted ones and at most its notification to the refusals. */
  lemma UploadStep(info: FileTypeInfo, fileType: string, files: seq<UploadedFile>, i: int)
    requires 0 <= i < |files|
    ensures AcceptedFiles(info, fileType, files[..i + 1])
      == AcceptedFiles(info, fileType, files[..i]) + (if Accepts(info, fileType, files[i].name) then [files[i]] else [])
    ensures RejectionToasts(info, fileType, files[..i + 1])
      == RejectionToasts(info, fileType, files[..i])
        + (if Accepts(info, fileType, files[i].name) then [] else [InvalidFileType(files[i].name, info.title)])
  {
    assert files[..i + 1][..i] == files[..i];
  }

  /** The list without the element at `index`: every element whose position
      differs from `index` is kept, in order. */
  function RemoveAt<T>(xs: seq<T>, index: int): seq<T>
    decreases |xs|
  {
    if xs == [] then []
    else (if index == 0 then [] else [xs[0]]) + RemoveAt(xs[1..], index - 1)
  }

  // ---------------------------------------------------------------------------
  // Attack methodologies

  /** The entries of the methodology table, and the entry given to a threat
      the table does not list. Each says how the attack works, what it uses,
      how it is made and how to prevent it. */
  datatype Methodology =
    | PhishingLandingPages
    | MaliciousRedirects
    | SteganographyHidingMalware
    | MacroBasedMalware
    | CrossSiteScripting
    | RansomwareEncryption
    | DefaultMethodology

  function Description(m: Methodology): string {
    match m
    case PhishingLandingPages => "Fake websites designed to steal credentials"
    case MaliciousRedirects => "URLs that redirect users to harmful content"
    case SteganographyHidingMalware => "Malicious code hidden within image pixels"
    case MacroBasedMalware => "Malicious VBA/JavaScript code in documents"
    case CrossSiteScripting => "Malicious scripts injected into web pages"
    case RansomwareEncryption => "Files encrypted and held for ransom"
    case DefaultMethodology => "Advanced threat with potential system impact"
  }

  function Tools(m: Methodology): seq<string> {
    match m
    case PhishingLandingPages => ["Social engineering kits", "Domain spoofing tools", "SSL certificate generators"]
    case MaliciousRedirects => ["URL shorteners", "JavaScript injection", "HTTP header manipulation"]
    case SteganographyHidingMalware => ["Steghide", "OutGuess", "Custom encoding scripts"]
    case MacroBasedMalware => ["Metasploit", "Empire framework", "Custom VBA generators"]
    case CrossSiteScripting => ["XSS Hunter", "BeEF framework", "Custom payload generators"]
    case RansomwareEncryption => ["Custom encryption tools", "Bitcoin payment systems", "Command & control servers"]
    case DefaultMethodology => ["Unknown attack vectors", "Custom exploitation tools"]
  }

  function Creation(m: Methodology): string {
    match m
    case PhishingLandingPages => "Attackers clone legitimate websites and host them on similar domains"
    case MaliciousRedirects => "Compromised websites or malicious ads redirect traffic through multiple hops"
    case SteganographyHidingMalware => "Malware is embedded in image data using LSB or frequency domain techniques"
    case MacroBasedMalware => "Attackers embed auto-executing macros that download payloads"
    case CrossSiteScripting => "Attackers inject JavaScript through vulnerable input fields or URLs"
    case RansomwareEncryption => "Malware encrypts files using strong encryption and demands payment"
    case DefaultMethodology => "Sophisticated attack methodology requiring analysis"
  }

  function Prevention(m: Methodology): string {
    match m
    case PhishingLandingPages => "Verify URLs carefully, check SSL certificates, use 2FA"
    case MaliciousRedirects => "Use URL scanners, disable automatic redirects, check destination URLs"
    case SteganographyHidingMalware => "Use steganography detection tools, scan images with multiple engines"
    case MacroBasedMalware => "Disable macros by default, use protected view, scan documents"
    case CrossSiteScripting => "Input validation, Content Security Policy, XSS filters"
    case RansomwareEncryption => "Regular backups, endpoint protection, network segmentation"
    case DefaultMethodology => "Use comprehensive security solutions and best practices"
  }

  /** The threat a table entry is listed under; the default entry is listed
      under none. */
  function ThreatName(m: Methodology): Option<string> {
    match m
    case PhishingLandingPages => Some("Phishing landing pages")
    case MaliciousRedirects => Some("Malicious redirects")
    case SteganographyHidingMalware => Some("Steganography hiding malware")
    case MacroBasedMalware => Some("Macro-based malware")
    case CrossSiteScripting => Some("Cross-site scripting (XSS)")
    case RansomwareEncryption => Some("Ransomware encryption")
    case DefaultMethodology => None
  }

  /** The table of known threats, looked up by name. */
  function TableEntry(threat: string): Option<Methodology> {
    if threat == "Phishing landing pages" then Some(PhishingLandingPages)
    else if threat == "Malicious redirects" then Some(MaliciousRedirects)
    else if threat == "Steganography hiding malware" then Some(SteganographyHidingMalware)
    else if threat == "Macro-based malware" then Some(MacroBasedMalware)
    else if threat == "Cross-site scripting (XSS)" then Some(CrossSiteScripting)
    else if threat == "Ransomware encryption" then Some(RansomwareEncryption)
    else None
  }

  /** The table's entry for a listed threat, the default for any other. */
  function MethodologyOf(threat: string): Methodology {
    match TableEntry(threat)
    case Some(m) => m
    case None => DefaultMethodology
  }

  /** One methodology per threat, in the threats' order: the table's entry for
      a listed threat, the default for any other. */
  function AttackMethodology(threats: seq<string>): (r: seq<Methodology>)
    ensures |r| == |threats|
    ensures forall i :: 0 <= i < |threats| && TableEntry(threats[i]).Some? ==> r[i] == TableEntry(threats[i]).value
    ensures forall i :: 0 <= i < |threats| && TableEntry(threats[i]).None? ==> r[i] == DefaultMethodology
  {
    seq(|threats|, i requires 0 <= i < |threats| => MethodologyOf(threats[i]))
  }

  // ---------------------------------------------------------------------------
  // The analysis report

  /** `Math.floor(Math.random() * 3)`: the draw behind the number of threats reported. */
  predicate ThreatDrawInRange(draw: int) {
    0 <= draw < 3
  }

  /** `Math.floor(Math.random() * 100)`: the reported risk score. */
  predicate ScoreDrawInRange(draw: int) {
    0 <= draw < 100
  }

  function Min(a: int, b: int): int {
    if a <= b then a else b
  }

  /** `slice(0, draw + 1)` of the route's threats: the first `draw + 1` of them,
      or all of them when there are fewer. */
  function DetectedThreats(specificThreats: seq<string>, draw: int): seq<string>
    requires draw >= 0
  {
    specificThreats[..Min(draw + 1, |specificThreats|)]
  }

  /** The total size of the files in bytes. */
  function SumSizes(files: seq<UploadedFile>): nat
    decreases |files|
  {
    if files == [] then 0 else SumSizes(files[..|files| - 1]) + Last(files).size
  }

  /** The size analysed: the uploaded files' total, or two bytes per
      character of the text when nothing is uploaded. */
  function TotalSize(input: string, files: seq<UploadedFile>): nat {
    if files != [] then SumSizes(files) else |input| * 2
  }

  function Names(files: seq<UploadedFile>): (names: seq<string>)
    ensures |names| == |files| && forall i :: 0 <= i < |files| ==> names[i] == files[i].name
  {
    seq(|files|, i requires 0 <= i < |files| => files[i].name)
  }

  /** The format shown: the upper-cased text after the last dot of the first
      file's name; without files, the route's first listed extension, or
    "Unknown" when it has none. */
  function Format(info: FileTypeInfo, files: seq<UploadedFile>): string {
    if files != [] then AsciiUpper(Last(Split(files[0].name, '.')))
    else if info.fileExtensions != [] && info.fileExtensions[0] != "" then info.fileExtensions[0]
    else "Unknown"
  }

  datatype ReportFileInfo = ReportFileInfo(
    typeTitle: string,
    totalSize: nat,
    format: string,
    filesAnalyzed: nat,
    fileNames: string)

  /** What the report says about the input: the route's title, the size, the
      format, how many files were analysed and their names, the text counting
      as one file named "Text Content" when nothing is uploaded. */
  function FileSummary(info: FileTypeInfo, input: string, files: seq<UploadedFile>): ReportFileInfo {
    ReportFileInfo(
      info.title,
      TotalSize(input, files),
      Format(info, files),
      if files != [] then |files| else 1,
      if files != [] then Join(Names(files), ", ") else "Text Content")
  }

  /** The result the page shows after an analysis. */
  datatype Report = Report(
    riskScore: int,
    threatsDetected: nat,
    fileInfo: ReportFileInfo,
    threats: seq<string>,
    attackMethods: seq<Methodology>,
    recommendations: seq<string>)

  function Recommendations(fileType: string): seq<string> {
    ["Avoid interacting with " + fileType + " files from untrusted sources",
     "Use updated antivirus software for additional protection",
     "Verify the source and authenticity before proceeding",
     "Consider using sandboxed environments for analysis"]
  }

  /** The report for the route `fileType` with description `info`, the text
      in the input box and the uploaded files, given the two random draws. */
  function BuildReport(fileType: string, info: FileTypeInfo, input: string, files: seq<UploadedFile>,
                       threatDraw: int, scoreDraw: int): Report
    requires ThreatDrawInRange(threatDraw)
  {
    var detected := DetectedThreats(info.specificThreats, threatDraw);
    Report(
      scoreDraw,
      |detected|,
      FileSummary(info, input, files),
      detected,
      AttackMethodology(detected),
      Recommendations(fileType))
  }

  // ---------------------------------------------------------------------------
  // Risk colour

  /** The text colours of a risk score, from the mildest to the most alarming. */
  datatype RiskColor = PrimaryText | YellowText | OrangeText | DestructiveText

  function ColorRank(c: RiskColor): nat {
    match c
    case PrimaryText => 0
    case YellowText => 1
    case OrangeText => 2
    case DestructiveText => 3
  }

  /** The thresholds 80, 60 and 40, checked from the highest down. */
  function RiskColorOf(score: int): RiskColor {
    if score >= 80 then DestructiveText
    else if score >= 60 then OrangeText
    else if score >= 40 then YellowText
    else PrimaryText
  }

  // ---------------------------------------------------------------------------
  // The page's state

  /** The page for one route: the text in the input box, the uploaded files,
      the busy flag and progress bar, the report shown and the notifications
      raised so far. */
  class FileAnalysisPage {
    const fileType: string
    const fileInfo: FileTypeInfo
    var input: string
    var uploadedFiles: seq<UploadedFile>
    var isAnalyzing: bool
    var progress: int
    var results: Option<Report>
    var toasts: seq<Toast>

    /** The description shown is the one of the page's route. */
    predicate Valid() {
      fileInfo == TypeInfo(KindOf(fileType))
    }

    constructor (fileType: string)
      ensures this.fileType == fileType && Valid()
      ensures input == [] && uploadedFiles == [] && !isAnalyzing && progress == 0 && results == None && toasts == []
    {
      this.fileType := fileType;
      fileInfo := TypeInfo(KindOf(fileType));
      input := [];
      uploadedFiles := [];
      isAnalyzing := false;
      progress := 0;
      results := None;
      toasts := [];
    }

    /** Typing in the input box. */
    method SetInput(text: string)
      modifies this
      ensures input == text
      ensures unchanged(this`uploadedFiles, this`isAnalyzing, this`progress, this`results, this`toasts)
    {
      input := text;
    }

    /** The upload handler: the accepted files are appended behind the ones
        already uploaded, and each refused file raises one notification. */
    method HandleFileUpload(files: seq<UploadedFile>)
      modifies this
      ensures uploadedFiles == old(uploadedFiles) + AcceptedFiles(fileInfo, fileType, files)
      ensures toasts == old(toasts) + RejectionToasts(fileInfo, fileType, files)
      ensures unchanged(this`input, this`isAnalyzing, this`progress, this`results)
    {
      var validFiles := SortUpload(files);
      uploadedFiles := uploadedFiles + validFiles;
    }

    /** The pass over an upload: collects the accepted files, in order, and
        raises a notification for each refused one as it goes. */
    method SortUpload(files: seq<UploadedFile>) returns (validFiles: seq<UploadedFile>)
      modifies this`toasts
      ensures validFiles == AcceptedFiles(fileInfo, fileType, files)
      ensures toasts == old(toasts) + RejectionToasts(fileInfo, fileType, files)
    {
      validFiles := [];
      var i := 0;
      while i < |files|
        invariant 0 <= i <= |files|
        invariant validFiles == AcceptedFiles(fileInfo, fileType, files[..i])
        invariant toasts == old(toasts) + RejectionToasts(fileInfo, fileType, files[..i])
      {
        var file := files[i];
        var ok := Accepts(fileInfo, fileType, file.name);
        UploadStep(fileInfo, fileType, files, i);
        if ok {
          validFiles := validFiles + [file];
        } else {
          toasts := toasts + [InvalidFileType(file.name, fileInfo.title)];
        }
        i := i + 1;
      }
      assert files[..|files|] == files;
    }

    /** The remove button of the uploaded file at `index`. */
    method RemoveFile(index: int)
      modifies this
      ensures uploadedFiles == RemoveAt(old(uploadedFiles), index)
      ensures unchanged(this`input, this`isAnalyzing, this`progress, this`results, this`toasts)
    {
      uploadedFiles := RemoveAt(uploadedFiles, index);
    }

    /** The progress bar, advanced in steps of ten up to 100. */
    method RunProgress()
      modifies this`progress
      ensures progress == 100
    {
      var i := 0;
      progress := 0;
      while i <= 100
        invariant 0 <= i <= 110 && i % 10 == 0
        invariant progress == if i == 0 then 0 else i - 10
      {
        progress := i;
        i := i + 10;
      }
    }

    /** The analyze handler: with a blank input and no uploaded file it only
        raises a notification; otherwise it runs the progress bar to 100 and
        shows the report. */
    method SimulateAnalysis(threatDraw: int, scoreDraw: int)
      requires ThreatDrawInRange(threatDraw) && ScoreDrawInRange(scoreDraw)
      modifies this
      ensures unchanged(this`input, this`uploadedFiles)
      ensures IsBlank(old(input)) && |old(uploadedFiles)| == 0 ==>
        && unchanged(this`isAnalyzing, this`progress, this`results)
        && toasts == old(toasts) + [NoContent]
      ensures !(IsBlank(old(input)) && |old(uploadedFiles)| == 0) ==>
        && !isAnalyzing && progress == 100 && toasts == old(toasts)
        && results == Some(BuildReport(fileType, fileInfo, old(input), old(uploadedFiles), threatDraw, scoreDraw))
    {
      if IsBlank(input) && |uploadedFiles| == 0 {
        toasts := toasts + [NoContent];
        return;
      }
      isAnalyzing := true;
      progress := 0;
      results := None;
      RunProgress();
      results := Some(BuildReport(fileType, fileInfo, input, uploadedFiles, threatDraw, scoreDraw));
      isAnalyzing := false;
    }
  }
}
