/** What the file analysis page promises, proved about the model in
    FileAnalysis: the routes, the acceptance rule by route, the append-only
    upload, removal by index, the methodology lookup, the shape of the report
    and the risk colours. */
module FileAnalysisProperties {
  import opened Wrappers
  import opened Text
  import opened FileAnalysis

  // ---------------------------------------------------------------------------
  // Routes

  /** Each known kind has its own route parameter, and a parameter that
      selects a known kind is that kind's. */
  lemma RouteRoundTrip(k: FileKind, fileType: string)
    ensures k != General ==> KindOf(RouteOf(k)) == k
    ensures KindOf(fileType) != General ==> RouteOf(KindOf(fileType)) == fileType
  {
    assert "urls"[0] != "images"[0] && "urls"[0] != "documents"[0] && "urls"[0] != "videos"[0];
    assert "images"[0] != "documents"[0] && "images"[0] != "videos"[0];
    assert "documents"[0] != "videos"[0];
    assert |"web-content"| != |"urls"| && |"web-content"| != |"images"| && |"web-content"| != |"documents"|;
    assert |"web-content"| != |"videos"|;
    assert |"encrypted"| != |"urls"| && |"encrypted"| != |"images"| && |"encrypted"| != |"videos"|;
    assert "encrypted"[0] != "documents"[0] && |"encrypted"| != |"web-content"|;
  }

  /** Every route lists threats: five for a known kind, one otherwise. */
  lemma RouteThreatCounts(k: FileKind)
    ensures |TypeInfo(k).specificThreats| == if k == General then 1 else 5
  {
    match k
    case General =>
    case _ => assert |ThreatsOf(k)| == 5;
  }

  /** Only an unknown route lists no extension. */
  lemma RouteExtensionsListed(k: FileKind)
    ensures TypeInfo(k).fileExtensions == [] <==> k == General
  {
    match k
    case General =>
    case _ => assert |ExtensionsOf(k)| > 0;
  }

  // ---------------------------------------------------------------------------
  // The acceptance rule

  /** The extension is the lower-cased text after the last dot, or the whole
      lower-cased name when there is no dot. */
  lemma ExtensionAfterLastDot(stem: string, tail: string)
    requires '.' !in tail
    ensures FileExtension(stem + "." + tail) == "." + AsciiLower(tail)
    ensures FileExtension(tail) == "." + AsciiLower(tail)
  {
    LastPieceAfter(stem, '.', tail);
  }

  /** The routes that take every file are exactly the URL, web content and
      encrypted routes. */
  lemma AnyFileRoutes(fileType: string)
    ensures AcceptsAnyFile(fileType) <==> KindOf(fileType) in {Urls, WebContent, Encrypted}
  {
  }

  /** The URL route's entries are scheme prefixes without a leading dot, so its
      own test passes for every extension. */
  lemma UrlEntriesAcceptEverything(fileExt: string)
    ensures IsValidType(TypeInfo(Urls).fileExtensions, fileExt)
  {
    var entry := TypeInfo(Urls).fileExtensions[0];
    assert entry[0] == 'h';
    assert !StartsWith(entry, ".");
  }

  /** The URL, web content and encrypted routes take every file. */
  lemma AnyFileKindsAccept(fileType: string, name: string)
    requires KindOf(fileType) in {Urls, WebContent, Encrypted}
    ensures Accepts(TypeInfo(KindOf(fileType)), fileType, name)
  {
    AnyFileRoutes(fileType);
  }

  /** A route whose entries all start with a dot, and which does not take
      every file, takes a file exactly when its extension is listed. */
  lemma DottedEntriesAccept(info: FileTypeInfo, fileType: string, name: string)
    requires forall i :: 0 <= i < |info.fileExtensions| ==> StartsWith(info.fileExtensions[i], ".")
    requires !AcceptsAnyFile(fileType)
    ensures Accepts(info, fileType, name) <==> FileExtension(name) in info.fileExtensions
  {
    var exts := info.fileExtensions;
    if FileExtension(name) in exts {
      var i :| 0 <= i < |exts| && exts[i] == FileExtension(name);
      assert IsValidType(exts, FileExtension(name));
    }
  }

  /** The image, document and video routes list only dotted extensions. */
  lemma ListedKindsDotted(k: FileKind)
    requires k in {Images, Documents, Videos}
    ensures forall i :: 0 <= i < |TypeInfo(k).fileExtensions| ==> StartsWith(TypeInfo(k).fileExtensions[i], ".")
  {
    var exts := TypeInfo(k).fileExtensions;
    forall i | 0 <= i < |exts| ensures StartsWith(exts[i], ".") {
      assert exts[i][0] == '.';
    }
  }

  /** The image, document and video routes take a file exactly when its
      extension is listed. */
  lemma ListedKindsAccept(fileType: string, name: string)
    requires KindOf(fileType) in {Images, Documents, Videos}
    ensures Accepts(TypeInfo(KindOf(fileType)), fileType, name)
      <==> FileExtension(name) in TypeInfo(KindOf(fileType)).fileExtensions
  {
    AnyFileRoutes(fileType);
    ListedKindsDotted(KindOf(fileType));
    DottedEntriesAccept(TypeInfo(KindOf(fileType)), fileType, name);
  }

  /** Any other route takes no file. */
  lemma UnknownKindRefuses(fileType: string, name: string)
    requires KindOf(fileType) == General
    ensures !Accepts(TypeInfo(KindOf(fileType)), fileType, name)
  {
    AnyFileRoutes(fileType);
  }

  // ---------------------------------------------------------------------------
  // Uploads

  /** Uploading two batches accepts what uploading each accepts, in order,
      and refuses likewise. */
  lemma {:induction false} UploadAppend(info: FileTypeInfo, fileType: string, a: seq<UploadedFile>, b: seq<UploadedFile>)
    ensures AcceptedFiles(info, fileType, a + b) == AcceptedFiles(info, fileType, a) + AcceptedFiles(info, fileType, b)
    ensures RejectionToasts(info, fileType, a + b) == RejectionToasts(info, fileType, a) + RejectionToasts(info, fileType, b)
    decreases |b|
  {
    if b != [] {
      var b' := b[..|b| - 1];
      assert (a + b)[..|a + b| - 1] == a + b';
      assert Last(a + b) == Last(b);
      UploadAppend(info, fileType, a, b');
    } else {
      assert a + b == a;
    }
  }

  /** A file is kept exactly when it is part of the upload and the route
      accepts it; every file is either kept or refused with a notification. */
  lemma {:induction false} UploadPartition(info: FileTypeInfo, fileType: string, files: seq<UploadedFile>)
    ensures forall f :: f in AcceptedFiles(info, fileType, files) <==> f in files && Accepts(info, fileType, f.name)
    ensures |AcceptedFiles(info, fileType, files)| + |RejectionToasts(info, fileType, files)| == |files|
    decreases |files|
  {
    if files != [] {
      var init := files[..|files| - 1];
      UploadPartition(info, fileType, init);
      assert files == init + [Last(files)];
      forall f ensures f in files <==> f in init || f == Last(files) {
        assert f in files <==> f in init + [Last(files)];
      }
    }
  }

  /** Each notification names a refused file of the upload and the route's
      title, and each refused file has one. */
  lemma {:induction false} RefusalsNamed(info: FileTypeInfo, fileType: string, files: seq<UploadedFile>)
    ensures forall t :: t in RejectionToasts(info, fileType, files) ==>
      t.InvalidFileType? && t.typeTitle == info.title &&
      exists f :: f in files && !Accepts(info, fileType, f.name) && f.name == t.fileName
    ensures forall f :: f in files && !Accepts(info, fileType, f.name) ==>
      InvalidFileType(f.name, info.title) in RejectionToasts(info, fileType, files)
    decreases |files|
  {
    if files != [] {
      var init := files[..|files| - 1];
      RefusalsNamed(info, fileType, init);
      assert files == init + [Last(files)];
      forall f | f in init ensures f in files {
        assert f in init + [Last(files)];
      }
      forall f | f in files ensures f in init || f == Last(files) {
        assert f in init + [Last(files)];
      }
    }
  }

  /** The URL, web content and encrypted routes keep every file and refuse none. */
  lemma {:induction false} AnyFileRoutesKeepAll(info: FileTypeInfo, fileType: string, files: seq<UploadedFile>)
    requires KindOf(fileType) in {Urls, WebContent, Encrypted}
    ensures AcceptedFiles(info, fileType, files) == files
    ensures RejectionToasts(info, fileType, files) == []
    decreases |files|
  {
    if files != [] {
      var init := files[..|files| - 1];
      AnyFileRoutesKeepAll(info, fileType, init);
      AnyFileRoutes(fileType);
      assert files == init + [Last(files)];
    }
  }

  /** A route that lists no extension and does not take every file, as an
      unknown route, keeps no file and refuses every one. */
  lemma {:induction false} UnknownRouteRefusesAll(info: FileTypeInfo, fileType: string, files: seq<UploadedFile>)
    requires info.fileExtensions == [] && !AcceptsAnyFile(fileType)
    ensures AcceptedFiles(info, fileType, files) == []
    ensures |RejectionToasts(info, fileType, files)| == |files|
    decreases |files|
  {
    if files != [] {
      UnknownRouteRefusesAll(info, fileType, files[..|files| - 1]);
      assert !IsValidType(info.fileExtensions, FileExtension(Last(files).name));
    }
  }

  /** Uploading to a page keeps the files already there in front, in order. */
  lemma UploadKeepsEarlierFiles(page: FileAnalysisPage, before: seq<UploadedFile>, files: seq<UploadedFile>)
    requires page.uploadedFiles == before + AcceptedFiles(page.fileInfo, page.fileType, files)
    ensures page.uploadedFiles[..|before|] == before
    ensures |page.uploadedFiles| <= |before| + |files|
  {
    UploadPartition(page.fileInfo, page.fileType, files);
  }

  /** What an upload adds to a page, route by route: every file on the URL,
      web content and encrypted routes; exactly the files with a listed
      extension on the image, document and video routes; nothing on any
      other route. */
  lemma PageUploadByRoute(page: FileAnalysisPage, before: seq<UploadedFile>, files: seq<UploadedFile>)
    requires page.Valid()
    requires page.uploadedFiles == before + AcceptedFiles(page.fileInfo, page.fileType, files)
    ensures KindOf(page.fileType) in {Urls, WebContent, Encrypted} ==> page.uploadedFiles == before + files
    ensures KindOf(page.fileType) == General ==> page.uploadedFiles == before
    ensures KindOf(page.fileType) in {Images, Documents, Videos} ==>
      forall f :: f in page.uploadedFiles[|before|..] <==>
        f in files && FileExtension(f.name) in page.fileInfo.fileExtensions
  {
    var fileType, info := page.fileType, page.fileInfo;
    var k := KindOf(fileType);
    assert page.uploadedFiles[|before|..] == AcceptedFiles(info, fileType, files);
    if k in {Urls, WebContent, Encrypted} {
      AnyFileRoutesKeepAll(info, fileType, files);
    } else if k == General {
      AnyFileRoutes(fileType);
      RouteExtensionsListed(k);
      UnknownRouteRefusesAll(info, fileType, files);
    } else {
      UploadPartition(info, fileType, files);
      forall f | f in files ensures Accepts(info, fileType, f.name) <==> FileExtension(f.name) in info.fileExtensions {
        ListedKindsAccept(fileType, f.name);
      }
    }
  }

  // ---------------------------------------------------------------------------
  // Removal by index

  /** Removing the element at an index in range leaves the elements before and
      after it, in order. */
  lemma {:induction false} RemoveAtInRange<T>(xs: seq<T>, index: int)
    requires 0 <= index < |xs|
    ensures RemoveAt(xs, index) == xs[..index] + xs[index + 1..]
    decreases |xs|
  {
    var rest := xs[1..];
    if index == 0 {
      RemoveAtOutOfRange(rest, -1);
      assert xs[..0] == [];
    } else {
      RemoveAtInRange(rest, index - 1);
      calc {
        RemoveAt(xs, index);
        [xs[0]] + RemoveAt(rest, index - 1);
        [xs[0]] + (rest[..index - 1] + rest[index..]);
        { assert rest[..index - 1] == xs[1..index]; assert rest[index..] == xs[index + 1..]; }
        [xs[0]] + (xs[1..index] + xs[index + 1..]);
        { assert [xs[0]] + xs[1..index] == xs[..index]; }
        xs[..index] + xs[index + 1..];
      }
    }
  }

  /** Removing at an index out of range changes nothing. */
  lemma {:induction false} RemoveAtOutOfRange<T>(xs: seq<T>, index: int)
    requires !(0 <= index < |xs|)
    ensures RemoveAt(xs, index) == xs
    decreases |xs|
  {
    if xs != [] {
      RemoveAtOutOfRange(xs[1..], index - 1);
      assert [xs[0]] + xs[1..] == xs;
    }
  }

  /** Removal shortens the list by one exactly when the index is in range. */
  lemma RemoveAtLength<T>(xs: seq<T>, index: int)
    ensures |RemoveAt(xs, index)| == if 0 <= index < |xs| then |xs| - 1 else |xs|
  {
    if 0 <= index < |xs| {
      RemoveAtInRange(xs, index);
    } else {
      RemoveAtOutOfRange(xs, index);
    }
  }

  // ---------------------------------------------------------------------------
  // Attack methodologies

  /** The table and the names of its entries agree both ways: a threat is
      listed with an entry exactly when it is that entry's name, and the
      default entry is listed under no name. */
  lemma TableRoundTrip(threat: string, m: Methodology)
    ensures TableEntry(threat) == Some(m) <==> ThreatName(m) == Some(threat)
  {
    assert |"Phishing landing pages"| == 22 && |"Malicious redirects"| == 19;
    assert |"Steganography hiding malware"| == 28 && |"Macro-based malware"| == 19;
    assert |"Cross-site scripting (XSS)"| == 26 && |"Ransomware encryption"| == 21;
    assert "Malicious redirects"[2] != "Macro-based malware"[2];
  }

  /** A threat gets the default entry exactly when the table does not list it. */
  lemma DefaultOnlyForUnlisted(threat: string)
    ensures MethodologyOf(threat) == DefaultMethodology <==> TableEntry(threat).None?
  {
    if TableEntry(threat).Some? {
      TableRoundTrip(threat, TableEntry(threat).value);
    }
  }

  /** The methodologies of two lists of threats are those of each, in order. */
  lemma MethodologyAppend(a: seq<string>, b: seq<string>)
    ensures AttackMethodology(a + b) == AttackMethodology(a) + AttackMethodology(b)
  {
    var r := AttackMethodology(a + b);
    forall i | 0 <= i < |r| ensures r[i] == (AttackMethodology(a) + AttackMethodology(b))[i] {
      if i < |a| {
        assert (a + b)[i] == a[i];
      } else {
        assert (a + b)[i] == b[i - |a|];
      }
    }
  }

  // ---------------------------------------------------------------------------
  // The report

  /** The report lists the first one to three of the route's threats, in the
      route's order, counts them and gives one methodology per threat. */
  lemma ReportThreats(fileType: string, info: FileTypeInfo, input: string, files: seq<UploadedFile>,
                      threatDraw: int, scoreDraw: int)
    requires ThreatDrawInRange(threatDraw) && info.specificThreats != []
    ensures var r := BuildReport(fileType, info, input, files, threatDraw, scoreDraw);
      && r.threats == info.specificThreats[..|r.threats|]
      && |r.threats| == Min(threatDraw + 1, |info.specificThreats|)
      && 1 <= |r.threats| <= 3
      && r.threatsDetected == |r.threats|
      && |r.attackMethods| == |r.threats|
      && (forall i :: 0 <= i < |r.threats| ==> r.attackMethods[i] == MethodologyOf(r.threats[i]))
  {
  }

  /** The report carries the score drawn, between 0 and 99, and the
      summary of the input. */
  lemma ReportScoreAndSummary(fileType: string, info: FileTypeInfo, input: string, files: seq<UploadedFile>,
                              threatDraw: int, scoreDraw: int)
    requires ThreatDrawInRange(threatDraw) && ScoreDrawInRange(scoreDraw)
    ensures var r := BuildReport(fileType, info, input, files, threatDraw, scoreDraw);
      0 <= r.riskScore < 100 && r.fileInfo == FileSummary(info, input, files)
  {
  }

  /** The summary names the route's title and counts at least one file: the
      uploaded ones with their total size, or the text, at two bytes per
      character, when nothing is uploaded. */
  lemma SummaryFacts(info: FileTypeInfo, input: string, files: seq<UploadedFile>)
    ensures var s := FileSummary(info, input, files);
      && s.typeTitle == info.title
      && s.filesAnalyzed >= 1
      && (files != [] ==> s.filesAnalyzed == |files| && s.totalSize == SumSizes(files))
      && (files == [] ==> s.filesAnalyzed == 1 && s.fileNames == "Text Content" && s.totalSize == 2 * |input|)
      && (files == [] && info.fileExtensions != [] && info.fileExtensions[0] != "" ==>
            s.format == info.fileExtensions[0])
      && (files == [] && (info.fileExtensions == [] || info.fileExtensions[0] == "") ==> s.format == "Unknown")
  {
  }

  /** On every route the report lists one to three threats. */
  lemma RouteReportThreats(fileType: string, input: string, files: seq<UploadedFile>, threatDraw: int, scoreDraw: int)
    requires ThreatDrawInRange(threatDraw)
    ensures var r := BuildReport(fileType, TypeInfo(KindOf(fileType)), input, files, threatDraw, scoreDraw);
      1 <= r.threatsDetected <= 3 && r.threats == ThreatsOf(KindOf(fileType))[..r.threatsDetected]
  {
    RouteThreatCounts(KindOf(fileType));
    ReportThreats(fileType, TypeInfo(KindOf(fileType)), input, files, threatDraw, scoreDraw);
  }

  /** The format shown for uploaded files is the first file's extension in
      upper case: lower-cased again and behind a dot, it is that extension. */
  lemma FormatIsExtension(info: FileTypeInfo, files: seq<UploadedFile>)
    requires files != []
    ensures "." + AsciiLower(Format(info, files)) == FileExtension(files[0].name)
  {
    LowerOfUpper(Last(Split(files[0].name, '.')));
  }

  /** The first recommendation names the route. */
  lemma RecommendationNamesRoute(fileType: string)
    ensures |Recommendations(fileType)| == 4
    ensures Contains(Recommendations(fileType)[0], fileType)
  {
    var first := Recommendations(fileType)[0];
    assert first[23..23 + |fileType|] == fileType;
    assert OccursAt(first, fileType, 23);
  }

  // ---------------------------------------------------------------------------
  // Risk colour

  /** Each colour covers one band of scores. */
  lemma RiskColorBands(score: int)
    ensures RiskColorOf(score) == DestructiveText <==> 80 <= score
    ensures RiskColorOf(score) == OrangeText <==> 60 <= score < 80
    ensures RiskColorOf(score) == YellowText <==> 40 <= score < 60
    ensures RiskColorOf(score) == PrimaryText <==> score < 40
  {
  }

  /** A higher score never gets a milder colour. */
  lemma RiskColorMonotone(a: int, b: int)
    requires a <= b
    ensures ColorRank(RiskColorOf(a)) <= ColorRank(RiskColorOf(b))
  {
  }
}
