/**
 * download_legislation.py: fetch the session's report table of passed bills,
 * clean the bill numbers, and for every bill fetch its details page, keep its
 * synopsis, pick the bill PDF link and the amendment links after it from the
 * page's second table, and download those PDFs.
 *
 * The HTTP requests and the HTML parsing are oracles: the report table comes
 * back as the list of raw 'Bill Number' cells, a details page as its synopsis
 * text, its number of tables and the hrefs of the anchors of its second table.
 * Files written are a map from path to contents.
 */
module DownloadLegislation {
  import opened Wrappers
  import opened Oracles
  import opened Text

  const Site := "https://mgaleg.maryland.gov"

  /** The report type asked for: bills passed by both chambers in 2025, chapters otherwise. */
  function PassedType(sessionYear: int): (reportType: string)
    ensures reportType == "passedByBoth" <==> sessionYear == 2025
    ensures reportType == "chapters" <==> sessionYear != 2025
  {
    if sessionYear == 2025 then "passedByBoth" else "chapters"
  }

  /** The form data of the report request. */
  datatype ReportQuery = ReportQuery(ys: string, reportType: string)

  function ReportQueryFor(sessionYear: int): ReportQuery {
    ReportQuery(IntToDecimal(sessionYear) + "rs", PassedType(sessionYear))
  }

  function DetailsUrl(bill: string, sessionYear: int): string {
    Site + "/mgawebsite/Legislation/Details/" + bill + "?ys=" + IntToDecimal(sessionYear) + "rs"
  }

  // ---------------------------------------------------------------------
  // Bill-number cleanup: re.sub(r'\s\(.*\)$', '', number)
  // ---------------------------------------------------------------------

  /** Python's Unicode whitespace, as `\s` matches it in a str pattern. */
  predicate IsSpace(c: char) {
    var n := c as int;
    n == 0x20 || 0x09 <= n <= 0x0D || 0x1C <= n <= 0x1F || n == 0x85 || n == 0xA0 || n == 0x1680
    || 0x2000 <= n <= 0x200A || n == 0x2028 || n == 0x2029 || n == 0x202F || n == 0x205F || n == 0x3000
  }

  /** Where `$` matches: the end of the string, or just before a final newline. */
  function MatchEnd(s: string): nat {
    if |s| > 0 && s[|s| - 1] == '\n' then |s| - 1 else |s|
  }

  /**
   * The pattern matches at i: a whitespace character, '(', then characters
   * other than newline (`.`) up to a ')' that `$` follows.
   */
  predicate ParenMatchAt(s: string, i: nat) {
    var end := MatchEnd(s);
    && i + 2 < end
    && IsSpace(s[i]) && s[i + 1] == '('
    && s[end - 1] == ')'
    && forall k :: i + 2 <= k < end - 1 ==> s[k] != '\n'
  }

  /** The leftmost match at or after `from`, as the regex search finds it. */
  function FirstParenMatch(s: string, from: nat): (m: Option<nat>)
    ensures m.Some? ==> from <= m.value && ParenMatchAt(s, m.value)
    ensures m.Some? ==> forall j :: from <= j < m.value ==> !ParenMatchAt(s, j)
    ensures m.None? ==> forall j: nat :: from <= j ==> !ParenMatchAt(s, j)
    decreases |s| - from
  {
    if from >= |s| then None
    else if ParenMatchAt(s, from) then Some(from)
    else FirstParenMatch(s, from + 1)
  }

  /**
   * The cleaned bill number.  A match always runs to `$`, so after it only a
   * final newline can remain and no second match is possible.
   */
  function CleanBillNumber(raw: string): (bill: string)
    ensures StartsWith(raw, bill) || (EndsWith(raw, "\n") && EndsWith(bill, "\n") && StartsWith(raw, bill[..|bill| - 1]))
  {
    match FirstParenMatch(raw, 0)
    case None => raw
    case Some(i) =>
      var r := raw[..i] + raw[MatchEnd(raw)..];
      assert MatchEnd(raw) == |raw| ==> r == raw[..i];
      r
  }

  /**
   * A (newline-free) number ending in ')' loses everything from its first
   * whitespace-then-'(' onward.
   */
  lemma CleanStripsParenthetical(raw: string, i: nat)
    requires '\n' !in raw && EndsWith(raw, ")")
    requires i + 1 < |raw| && IsSpace(raw[i]) && raw[i + 1] == '('
    requires forall j :: 0 <= j < i ==> !(IsSpace(raw[j]) && raw[j + 1] == '(')
    ensures CleanBillNumber(raw) == raw[..i]
  {
    assert raw[|raw| - 1] == ')';
    assert MatchEnd(raw) == |raw|;
    assert ParenMatchAt(raw, i) by {
      forall k | i + 2 <= k < |raw| - 1 ensures raw[k] != '\n' {
        assert raw[k] in raw;
      }
    }
    assert forall j :: 0 <= j < i ==> !ParenMatchAt(raw, j);
    assert FirstParenMatch(raw, 0) == Some(i);
  }

  /** Every other (newline-free) number is left as it is. */
  lemma CleanKeepsOtherNumbers(raw: string)
    requires '\n' !in raw
    requires !EndsWith(raw, ")") || forall j :: 0 <= j < |raw| - 1 ==> !(IsSpace(raw[j]) && raw[j + 1] == '(')
    ensures CleanBillNumber(raw) == raw
  {
    if |raw| > 0 {
      assert raw[|raw| - 1] in raw;
    }
    assert MatchEnd(raw) == |raw|;
    var m := FirstParenMatch(raw, 0);
    if m.Some? {
      assert ParenMatchAt(raw, m.value);
      assert EndsWith(raw, ")");
    }
  }

  // ---------------------------------------------------------------------
  // The anchor scan over the second table of a details page
  // ---------------------------------------------------------------------

  function BillPrefix(sessionYear: int): string {
    "/" + IntToDecimal(sessionYear) + "RS/bills/"
  }

  function AmendmentPrefix(sessionYear: int): string {
    "/" + IntToDecimal(sessionYear) + "RS/amds/"
  }

  /** No href starts with both prefixes, so the order of the two tests does not matter. */
  lemma PrefixesExclusive(sessionYear: int, href: string)
    ensures !(StartsWith(href, BillPrefix(sessionYear)) && StartsWith(href, AmendmentPrefix(sessionYear)))
  {
    var k := |IntToDecimal(sessionYear)| + 4;
    assert BillPrefix(sessionYear)[k] == 'b';
    assert AmendmentPrefix(sessionYear)[k] == 'a';
    assert StartsWith(href, BillPrefix(sessionYear)) ==> href[k] == 'b';
    assert StartsWith(href, AmendmentPrefix(sessionYear)) ==> href[k] == 'a';
  }

  /** last_bill_link and subsequent_amd_links. */
  datatype Links = Links(lastBill: Option<string>, amendments: seq<string>)

  /** The position of the last href with the prefix. */
  function LastIndexWithPrefix(hrefs: seq<string>, prefix: string): (r: Option<nat>)
    ensures r.Some? ==> r.value < |hrefs| && StartsWith(hrefs[r.value], prefix)
    ensures r.Some? ==> forall j :: r.value < j < |hrefs| ==> !StartsWith(hrefs[j], prefix)
    ensures r.None? ==> forall j :: 0 <= j < |hrefs| ==> !StartsWith(hrefs[j], prefix)
  {
    if |hrefs| == 0 then None
    else if StartsWith(hrefs[|hrefs| - 1], prefix) then Some(|hrefs| - 1)
    else LastIndexWithPrefix(hrefs[..|hrefs| - 1], prefix)
  }

  /** The hrefs with the prefix, in document order. */
  function WithPrefix(hrefs: seq<string>, prefix: string): (r: seq<string>)
  {
    if |hrefs| == 0 then []
    else
      var last := hrefs[|hrefs| - 1];
      WithPrefix(hrefs[..|hrefs| - 1], prefix) + (if StartsWith(last, prefix) then [last] else [])
  }

  /** WithPrefix keeps exactly the hrefs that have the prefix. */
  lemma {:induction false} WithPrefixMembers(hrefs: seq<string>, prefix: string)
    ensures var r := WithPrefix(hrefs, prefix);
      && |r| <= |hrefs|
      && (forall x :: x in r ==> x in hrefs && StartsWith(x, prefix))
      && (forall x :: x in hrefs && StartsWith(x, prefix) ==> x in r)
  {
    if |hrefs| > 0 {
      var init := hrefs[..|hrefs| - 1];
      WithPrefixMembers(init, prefix);
      assert hrefs == init + [hrefs[|hrefs| - 1]];
    }
  }

  /**
   * What the scan of a details page keeps, stated without the loop: the last
   * bill link, and the amendment links after it, in document order.
   */
  function ScanLinks(hrefs: seq<string>, billPrefix: string, amdPrefix: string): (links: Links)
  {
    match LastIndexWithPrefix(hrefs, billPrefix)
    case None => Links(None, [])
    case Some(i) => Links(Some(hrefs[i]), WithPrefix(hrefs[i + 1..], amdPrefix))
  }

  /**
   * Without a bill link nothing is kept; otherwise the kept bill link is one
   * of the hrefs with the bill prefix, and every kept amendment link is one
   * of the hrefs with the amendment prefix.
   */
  lemma ScanLinksKeeps(hrefs: seq<string>, billPrefix: string, amdPrefix: string)
    ensures var links := ScanLinks(hrefs, billPrefix, amdPrefix);
      && (links.lastBill.None? <==> forall j :: 0 <= j < |hrefs| ==> !StartsWith(hrefs[j], billPrefix))
      && (links.lastBill.None? ==> links.amendments == [])
      && (links.lastBill.Some? ==> links.lastBill.value in hrefs && StartsWith(links.lastBill.value, billPrefix))
      && (forall a :: a in links.amendments ==> a in hrefs && StartsWith(a, amdPrefix))
  {
    var m := LastIndexWithPrefix(hrefs, billPrefix);
    if m.Some? {
      WithPrefixMembers(hrefs[m.value + 1..], amdPrefix);
      assert forall a :: a in hrefs[m.value + 1..] ==> a in hrefs;
    }
  }

  /**
   * One anchor of the scan: a bill link replaces the bill link and clears the
   * amendment links; an amendment link is appended only once a bill link has
   * been seen; any other href changes nothing.
   */
  lemma {:induction false} ScanStep(hrefs: seq<string>, href: string, billPrefix: string, amdPrefix: string)
    ensures var before := ScanLinks(hrefs, billPrefix, amdPrefix);
      ScanLinks(hrefs + [href], billPrefix, amdPrefix) ==
        if StartsWith(href, billPrefix) then Links(Some(href), [])
        else if StartsWith(href, amdPrefix) && before.lastBill.Some? then
          Links(before.lastBill, before.amendments + [href])
        else before
  {
    if StartsWith(href, billPrefix) {
      ScanAfterBillLink(hrefs, href, billPrefix, amdPrefix);
    } else {
      ScanAfterOtherLink(hrefs, href, billPrefix, amdPrefix);
    }
  }

  lemma ScanAfterBillLink(hrefs: seq<string>, href: string, billPrefix: string, amdPrefix: string)
    requires StartsWith(href, billPrefix)
    ensures ScanLinks(hrefs + [href], billPrefix, amdPrefix) == Links(Some(href), [])
  {
    var s := hrefs + [href];
    assert s[|s| - 1] == href;
    assert LastIndexWithPrefix(s, billPrefix) == Some(|hrefs|);
    assert s[|hrefs| + 1..] == [];
  }

  lemma ScanAfterOtherLink(hrefs: seq<string>, href: string, billPrefix: string, amdPrefix: string)
    requires !StartsWith(href, billPrefix)
    ensures var before := ScanLinks(hrefs, billPrefix, amdPrefix);
      ScanLinks(hrefs + [href], billPrefix, amdPrefix) ==
        if StartsWith(href, amdPrefix) && before.lastBill.Some? then
          Links(before.lastBill, before.amendments + [href])
        else before
  {
    var bp := billPrefix;
    LastIndexSkipsOther(hrefs, href, bp);
    var m := LastIndexWithPrefix(hrefs, bp);
    if m.Some? {
      ScanAfterOtherWithBill(hrefs, href, billPrefix, amdPrefix, m.value);
      WithPrefixAppend(hrefs[m.value + 1..], href, amdPrefix);
    }
  }

  lemma LastIndexSkipsOther(hrefs: seq<string>, href: string, prefix: string)
    requires !StartsWith(href, prefix)
    ensures LastIndexWithPrefix(hrefs + [href], prefix) == LastIndexWithPrefix(hrefs, prefix)
  {
    var s := hrefs + [href];
    assert s[..|s| - 1] == hrefs;
  }

  lemma ScanAfterOtherWithBill(hrefs: seq<string>, href: string, billPrefix: string, amdPrefix: string, i: nat)
    requires i < |hrefs|
    requires LastIndexWithPrefix(hrefs + [href], billPrefix) == Some(i)
    ensures ScanLinks(hrefs + [href], billPrefix, amdPrefix) ==
      Links(Some(hrefs[i]), WithPrefix(hrefs[i + 1..] + [href], amdPrefix))
  {
    var s := hrefs + [href];
    assert s[i] == hrefs[i];
    assert s[i + 1..] == hrefs[i + 1..] + [href];
  }

  lemma WithPrefixAppend(hrefs: seq<string>, href: string, prefix: string)
    ensures WithPrefix(hrefs + [href], prefix) == WithPrefix(hrefs, prefix) + (if StartsWith(href, prefix) then [href] else [])
  {
    var s := hrefs + [href];
    assert s[..|s| - 1] == hrefs;
  }

  /** A later href with the prefix hides every earlier one. */
  lemma {:induction false} LastIndexOfConcat(pre: seq<string>, post: seq<string>, prefix: string)
    requires LastIndexWithPrefix(post, prefix).Some?
    ensures LastIndexWithPrefix(pre + post, prefix) == Some(|pre| + LastIndexWithPrefix(post, prefix).value)
  {
    var s := pre + post;
    var last := post[|post| - 1];
    assert s[|s| - 1] == last;
    if !StartsWith(last, prefix) {
      var init := post[..|post| - 1];
      assert s[..|s| - 1] == pre + init;
      LastIndexOfConcat(pre, init, prefix);
    }
  }

  /** What comes before a bill link has no effect: its amendment links are never collected. */
  lemma EverythingBeforeBillLinkIgnored(pre: seq<string>, post: seq<string>, billPrefix: string, amdPrefix: string)
    requires exists j :: 0 <= j < |post| && StartsWith(post[j], billPrefix)
    ensures ScanLinks(pre + post, billPrefix, amdPrefix) == ScanLinks(post, billPrefix, amdPrefix)
  {
    var bp := billPrefix;
    var j :| 0 <= j < |post| && StartsWith(post[j], bp);
    var m := LastIndexWithPrefix(post, bp);
    assert m.Some?;
    var i := m.value;
    LastIndexOfConcat(pre, post, bp);
    var s := pre + post;
    assert s[|pre| + i] == post[i];
    assert s[|pre| + i + 1..] == post[i + 1..];
  }

  /** The loop at download_legislation.py:84-92, over the anchors of the second table. */
  method ScanAnchors(hrefs: seq<string>, sessionYear: int) returns (lastBill: Option<string>, amendments: seq<string>)
    ensures Links(lastBill, amendments) == ScanLinks(hrefs, BillPrefix(sessionYear), AmendmentPrefix(sessionYear))
  {
    var billPrefix := BillPrefix(sessionYear);
    var amdPrefix := AmendmentPrefix(sessionYear);
    lastBill := None;
    amendments := [];
    for k := 0 to |hrefs|
      invariant Links(lastBill, amendments) == ScanLinks(hrefs[..k], billPrefix, amdPrefix)
    {
      var href := hrefs[k];
      ScanStep(hrefs[..k], href, billPrefix, amdPrefix);
      assert hrefs[..k + 1] == hrefs[..k] + [href];
      if StartsWith(href, billPrefix) {
        lastBill := Some(href);
        amendments := [];
      } else if StartsWith(href, amdPrefix) {
        if lastBill.Some? {
          amendments := amendments + [href];
        }
      }
    }
    assert hrefs[..|hrefs|] == hrefs;
  }

  // ---------------------------------------------------------------------
  // The PDFs of one bill
  // ---------------------------------------------------------------------

  /** A details page as the model sees it. */
  datatype BillPage = BillPage(synopsis: string, tableCount: nat, linkHrefs: seq<string>)

  /** Only a page with a second table is scanned. */
  function PageLinks(page: BillPage, sessionYear: int): Links {
    if page.tableCount > 1 then ScanLinks(page.linkHrefs, BillPrefix(sessionYear), AmendmentPrefix(sessionYear)) else Links(None, [])
  }

  datatype Download = Download(url: string, path: string)

  function PdfDir(sessionYear: int): string {
    "data/" + IntToDecimal(sessionYear) + "rs/pdf"
  }

  function BillPdfName(bill: string): string {
    bill + ".pdf"
  }

  function AmendmentPdfName(bill: string, i: nat): string {
    bill + "_amd" + NatToDecimal(i) + ".pdf"
  }

  /** The PDF count the script reports for a bill with a bill link. */
  function ReportedPdfCount(links: Links): nat {
    |links.amendments| + 1
  }

  /**
   * The downloads attempted for one bill: the bill PDF, then amendment i
   * (counting from 1) of the links found; nothing without a bill link.
   */
  function PdfDownloads(pdfDir: string, bill: string, links: Links): (ds: seq<Download>)
    ensures links.lastBill.None? ==> ds == []
    ensures links.lastBill.Some? ==> |ds| == ReportedPdfCount(links)
    ensures links.lastBill.Some? ==>
      ds[0] == Download(Site + links.lastBill.value, PathJoin(pdfDir, BillPdfName(bill)))
    ensures forall i :: 1 <= i < |ds| ==>
      ds[i] == Download(Site + links.amendments[i - 1], PathJoin(pdfDir, AmendmentPdfName(bill, i)))
  {
    if links.lastBill.None? then []
    else
      [Download(Site + links.lastBill.value, PathJoin(pdfDir, BillPdfName(bill)))]
      + seq(|links.amendments|, k requires 0 <= k < |links.amendments| =>
              Download(Site + links.amendments[k], PathJoin(pdfDir, AmendmentPdfName(bill, k + 1))))
  }

  /** A page with fewer than two tables yields no link and no download. */
  lemma FewTablesNothingDownloaded(sessionYear: int, bill: string, page: BillPage)
    requires page.tableCount < 2
    ensures PdfDownloads(PdfDir(sessionYear), bill, PageLinks(page, sessionYear)) == []
  {
  }

  lemma AmendmentPdfNamesDistinct(bill: string, i: nat, j: nat)
    requires i != j
    ensures AmendmentPdfName(bill, i) != AmendmentPdfName(bill, j)
  {
    var a, b := AmendmentPdfName(bill, i), AmendmentPdfName(bill, j);
    var k := |bill| + 4;
    assert a[k..|a| - 4] == NatToDecimal(i);
    assert b[k..|b| - 4] == NatToDecimal(j);
    NatToDecimalInjective(i, j);
  }

  /** The name of download i of a bill: the bill PDF first, then the amendments. */
  function PdfName(bill: string, i: nat): string {
    if i == 0 then BillPdfName(bill) else AmendmentPdfName(bill, i)
  }

  lemma PdfNamesDistinct(dir: string, bill: string, i: nat, j: nat)
    requires i < j
    ensures PathJoin(dir, PdfName(bill, i)) != PathJoin(dir, PdfName(bill, j))
  {
    var a, b := PdfName(bill, i), PdfName(bill, j);
    assert StartsWith(a, "/") == StartsWith(b, "/") by {
      if |bill| == 0 {
        assert a[0] != '/' && b[0] != '/';
      } else {
        assert a[0] == bill[0] && b[0] == bill[0];
      }
    }
    if i == 0 {
      assert a[|bill|] == '.' && b[|bill|] == '_';
    } else {
      AmendmentPdfNamesDistinct(bill, i, j);
    }
    PathJoinInjective(dir, a, b);
  }

  /** The files of one bill never overwrite one another. */
  lemma DownloadPathsDistinct(pdfDir: string, bill: string, links: Links)
    ensures var ds := PdfDownloads(pdfDir, bill, links);
      forall i, j :: 0 <= i < j < |ds| ==> ds[i].path != ds[j].path
  {
    var ds := PdfDownloads(pdfDir, bill, links);
    forall i, j | 0 <= i < j < |ds| ensures ds[i].path != ds[j].path {
      assert ds[i].path == PathJoin(pdfDir, PdfName(bill, i));
      assert ds[j].path == PathJoin(pdfDir, PdfName(bill, j));
      PdfNamesDistinct(pdfDir, bill, i, j);
    }
  }

  /**
   * requests.exceptions.RequestException and IOError: the two handlers around
   * the download of a PDF.  IOError is OSError, so FileNotFoundError, its
   * subclass, is reported and skipped too.  Any other exception ends the script.
   */
  predicate Caught(e: ErrorKind) {
    e == RequestError || e == IoError || e == FileNotFoundError
  }

  /** Download i raises an exception the download loop does not catch. */
  predicate Uncaught(fetchPdf: string -> Reply<string>, ds: seq<Download>, i: int) {
    0 <= i < |ds| && fetchPdf(ds[i].url).Err? && !Caught(fetchPdf(ds[i].url).error)
  }

  predicate Fetched(fetchPdf: string -> Reply<string>, ds: seq<Download>, i: int) {
    0 <= i < |ds| && fetchPdf(ds[i].url).Ok?
  }

  /** The files written so far, and the exception that ended the script, if any. */
  datatype Downloads = Downloads(files: map<string, string>, crashed: Option<ErrorKind>)

  /**
   * The files after the downloads ds: a successful fetch writes its path, a
   * caught failure is skipped, and any other failure ends the loop.
   */
  function WriteFetched(files: map<string, string>, ds: seq<Download>, fetchPdf: string -> Reply<string>): Downloads
  {
    if |ds| == 0 then Downloads(files, None)
    else
      var before := WriteFetched(files, ds[..|ds| - 1], fetchPdf);
      var d := ds[|ds| - 1];
      if before.crashed.Some? then before
      else
        match fetchPdf(d.url)
        case Ok(content) => Downloads(before.files[d.path := content], None)
        case Err(e) => if Caught(e) then before else Downloads(before.files, Some(e))
  }

  /** The position of the first download that raises an uncaught exception, or |ds|. */
  function FirstUncaught(fetchPdf: string -> Reply<string>, ds: seq<Download>): (m: nat)
    ensures m <= |ds|
    ensures forall i :: 0 <= i < m ==> !Uncaught(fetchPdf, ds, i)
    ensures m < |ds| ==> Uncaught(fetchPdf, ds, m)
  {
    if |ds| == 0 || Uncaught(fetchPdf, ds, 0) then 0
    else
      var m := FirstUncaught(fetchPdf, ds[1..]);
      assert forall i :: 1 <= i <= m ==> (Uncaught(fetchPdf, ds[1..], i - 1) <==> Uncaught(fetchPdf, ds, i));
      1 + m
  }

  /** Dropping the last download hides an uncaught exception there, and only there. */
  lemma FirstUncaughtOfInit(fetchPdf: string -> Reply<string>, ds: seq<Download>)
    requires |ds| > 0
    ensures var m := FirstUncaught(fetchPdf, ds);
      FirstUncaught(fetchPdf, ds[..|ds| - 1]) == if m < |ds| - 1 then m else |ds| - 1
  {
    var init := ds[..|ds| - 1];
    var m, m' := FirstUncaught(fetchPdf, ds), FirstUncaught(fetchPdf, init);
    if m' < |init| {
      assert init[m'] == ds[m'];
      assert Uncaught(fetchPdf, ds, m');
    }
    if m < |init| {
      assert init[m] == ds[m];
      assert Uncaught(fetchPdf, init, m);
    }
  }

  /** The loop ends with the first uncaught exception, and runs to the end without one. */
  lemma {:induction false} WriteFetchedCrash(files: map<string, string>, ds: seq<Download>, fetchPdf: string -> Reply<string>)
    ensures var m := FirstUncaught(fetchPdf, ds);
      WriteFetched(files, ds, fetchPdf).crashed == if m < |ds| then Some(fetchPdf(ds[m].url).error) else None
  {
    if |ds| > 0 {
      var init := ds[..|ds| - 1];
      WriteFetchedCrash(files, init, fetchPdf);
      FirstUncaughtOfInit(fetchPdf, ds);
      var m' := FirstUncaught(fetchPdf, init);
      if m' < |init| {
        assert init[m'] == ds[m'];
      } else {
        var before := WriteFetched(files, init, fetchPdf);
        var last := |ds| - 1;
        assert before.crashed.None?;
        match fetchPdf(ds[last].url)
        case Ok(content) =>
          assert !Uncaught(fetchPdf, ds, last);
        case Err(e) =>
          assert Caught(e) <==> !Uncaught(fetchPdf, ds, last);
      }
    }
  }

  /** When every failure is one the handlers catch, the downloads never end the script. */
  lemma CaughtFailuresNeverCrash(files: map<string, string>, ds: seq<Download>, fetchPdf: string -> Reply<string>)
    requires forall i :: 0 <= i < |ds| && fetchPdf(ds[i].url).Err? ==> Caught(fetchPdf(ds[i].url).error)
    ensures WriteFetched(files, ds, fetchPdf).crashed == None
  {
    WriteFetchedCrash(files, ds, fetchPdf);
    var m := FirstUncaught(fetchPdf, ds);
    if m < |ds| {
      assert false;
    }
  }

  /**
   * With distinct paths, every download that succeeds before the first
   * uncaught exception is written to its own path.
   */
  lemma {:induction false} WriteFetchedSaves(files: map<string, string>, ds: seq<Download>, fetchPdf: string -> Reply<string>)
    requires forall i, j :: 0 <= i < j < |ds| ==> ds[i].path != ds[j].path
    ensures var out := WriteFetched(files, ds, fetchPdf).files;
      forall i :: i < FirstUncaught(fetchPdf, ds) && Fetched(fetchPdf, ds, i) ==>
        ds[i].path in out && out[ds[i].path] == fetchPdf(ds[i].url).value
  {
    if |ds| > 0 {
      var init := ds[..|ds| - 1];
      var last := |ds| - 1;
      var m, m' := FirstUncaught(fetchPdf, ds), FirstUncaught(fetchPdf, init);
      WriteFetchedSaves(files, init, fetchPdf);
      WriteFetchedCrash(files, init, fetchPdf);
      FirstUncaughtOfInit(fetchPdf, ds);
      var before := WriteFetched(files, init, fetchPdf).files;
      var out := WriteFetched(files, ds, fetchPdf).files;
      forall i | i < m && Fetched(fetchPdf, ds, i)
        ensures ds[i].path in out && out[ds[i].path] == fetchPdf(ds[i].url).value
      {
        if m' == |init| && Fetched(fetchPdf, ds, last) {
          assert out == before[ds[last].path := fetchPdf(ds[last].url).value];
          if i < last {
            assert init[i] == ds[i] && Fetched(fetchPdf, init, i);
            assert ds[i].path != ds[last].path;
          }
        } else {
          assert out == before;
          assert i < last;
          assert init[i] == ds[i] && Fetched(fetchPdf, init, i);
        }
      }
    }
  }

  /**
   * A path that no download succeeding before the first uncaught exception
   * targets keeps what it had, or stays absent.
   */
  lemma {:induction false} WriteFetchedKeeps(files: map<string, string>, ds: seq<Download>, fetchPdf: string -> Reply<string>)
    ensures var out := WriteFetched(files, ds, fetchPdf).files;
      var m := FirstUncaught(fetchPdf, ds);
      forall p :: (forall i :: i < m && Fetched(fetchPdf, ds, i) ==> ds[i].path != p) ==>
        (p in out <==> p in files) && (p in files ==> out[p] == files[p])
  {
    if |ds| > 0 {
      var init := ds[..|ds| - 1];
      var last := |ds| - 1;
      var m, m' := FirstUncaught(fetchPdf, ds), FirstUncaught(fetchPdf, init);
      WriteFetchedKeeps(files, init, fetchPdf);
      WriteFetchedCrash(files, init, fetchPdf);
      FirstUncaughtOfInit(fetchPdf, ds);
      var before := WriteFetched(files, init, fetchPdf).files;
      var out := WriteFetched(files, ds, fetchPdf).files;
      forall p | forall i :: i < m && Fetched(fetchPdf, ds, i) ==> ds[i].path != p
        ensures (p in out <==> p in files) && (p in files ==> out[p] == files[p])
      {
        forall i | i < m' && Fetched(fetchPdf, init, i) ensures init[i].path != p {
          assert init[i] == ds[i] && Fetched(fetchPdf, ds, i);
        }
        if m' == |init| && Fetched(fetchPdf, ds, last) {
          assert ds[last].path != p;
          assert out == before[ds[last].path := fetchPdf(ds[last].url).value];
        } else {
          assert out == before;
        }
      }
    }
  }

  /** Once an uncaught exception has ended the loop, the later downloads change nothing. */
  lemma {:induction false} DownloadsStopAfterCrash(files: map<string, string>, ds: seq<Download>,
                                                   fetchPdf: string -> Reply<string>, k: nat)
    requires k <= |ds|
    requires WriteFetched(files, ds[..k], fetchPdf).crashed.Some?
    ensures WriteFetched(files, ds, fetchPdf) == WriteFetched(files, ds[..k], fetchPdf)
  {
    if k < |ds| {
      var init := ds[..|ds| - 1];
      assert init[..k] == ds[..k];
      DownloadsStopAfterCrash(files, init, fetchPdf, k);
    } else {
      assert ds[..k] == ds;
    }
  }

  /** The download loop of one bill; a caught failure is reported and skipped, any other ends it. */
  method DownloadPdfs(ds: seq<Download>, fetchPdf: string -> Reply<string>, files: map<string, string>)
    returns (out: map<string, string>, crashed: Option<ErrorKind>)
    ensures Downloads(out, crashed) == WriteFetched(files, ds, fetchPdf)
  {
    out := files;
    for k := 0 to |ds|
      invariant WriteFetched(files, ds[..k], fetchPdf) == Downloads(out, None)
    {
      assert ds[..k + 1][..k] == ds[..k];
      var d := ds[k];
      var reply := fetchPdf(d.url);
      if reply.Ok? {
        out := out[d.path := reply.value];
      } else if !Caught(reply.error) {
        DownloadsStopAfterCrash(files, ds, fetchPdf, k + 1);
        return out, Some(reply.error);
      }
    }
    assert ds[..|ds|] == ds;
    crashed := None;
  }

  // ---------------------------------------------------------------------
  // The whole session
  // ---------------------------------------------------------------------

  datatype SessionOutcome =
    | NoTables                                                  // the report held no table
    | Crashed(error: ErrorKind)                                 // an uncaught exception ended the script
    | Saved(billNumbers: seq<string>, synopses: seq<string>)    // the rows written to legislation.csv

  function CleanColumn(column: seq<string>): (bills: seq<string>)
    ensures |bills| == |column|
  {
    seq(|column|, i requires 0 <= i < |column| => CleanBillNumber(column[i]))
  }

  /** The reply to the request for a bill's details page. */
  function PageReply(fetchPage: string -> Reply<BillPage>, bill: string, sessionYear: int): Reply<BillPage> {
    fetchPage(DetailsUrl(bill, sessionYear))
  }

  /** The downloads of one bill whose details page was fetched. */
  function BillDownloads(sessionYear: int, bill: string, page: BillPage): seq<Download> {
    PdfDownloads(PdfDir(sessionYear), bill, PageLinks(page, sessionYear))
  }

  /** The files after the downloads of one bill whose details page was fetched. */
  function BillFiles(files: map<string, string>, sessionYear: int, bill: string, page: BillPage,
                     fetchPdf: string -> Reply<string>): Downloads
  {
    WriteFetched(files, BillDownloads(sessionYear, bill, page), fetchPdf)
  }

  /** The files, the synopses collected so far, and the exception that ended the script, if any. */
  datatype SessionState = SessionState(files: map<string, string>, synopses: seq<string>, crashed: Option<ErrorKind>)

  /** One iteration of the bill loop: the page request, the synopsis, then the PDFs. */
  function BillStep(s: SessionState, sessionYear: int, bill: string,
                    fetchPage: string -> Reply<BillPage>, fetchPdf: string -> Reply<string>): SessionState
  {
    match PageReply(fetchPage, bill, sessionYear)
    case Err(e) => SessionState(s.files, s.synopses, Some(e))
    case Ok(page) =>
      var d := BillFiles(s.files, sessionYear, bill, page, fetchPdf);
      SessionState(d.files, s.synopses + [page.synopsis], d.crashed)
  }

  /** The bill loop over the bills in order; an uncaught exception ends it. */
  function SessionRun(files: map<string, string>, sessionYear: int, bills: seq<string>,
                      fetchPage: string -> Reply<BillPage>, fetchPdf: string -> Reply<string>): SessionState
  {
    if |bills| == 0 then SessionState(files, [], None)
    else
      var before := SessionRun(files, sessionYear, bills[..|bills| - 1], fetchPage, fetchPdf);
      if before.crashed.Some? then before
      else BillStep(before, sessionYear, bills[|bills| - 1], fetchPage, fetchPdf)
  }

  /**
   * The exception with which a bill ends the script, if any: the page
   * request's, or else the first uncaught exception of its downloads.
   */
  function BillCrash(sessionYear: int, bill: string, fetchPage: string -> Reply<BillPage>,
                     fetchPdf: string -> Reply<string>): Option<ErrorKind>
  {
    match PageReply(fetchPage, bill, sessionYear)
    case Err(e) => Some(e)
    case Ok(page) =>
      var ds := BillDownloads(sessionYear, bill, page);
      var m := FirstUncaught(fetchPdf, ds);
      if m < |ds| then Some(fetchPdf(ds[m].url).error) else None
  }

  /** What each bill, on its own, would end the script with. */
  function BillCrashes(bills: seq<string>, sessionYear: int, fetchPage: string -> Reply<BillPage>,
                       fetchPdf: string -> Reply<string>): (cs: seq<Option<ErrorKind>>)
    ensures |cs| == |bills|
  {
    if |bills| == 0 then []
    else BillCrashes(bills[..|bills| - 1], sessionYear, fetchPage, fetchPdf) + [BillCrash(sessionYear, bills[|bills| - 1], fetchPage, fetchPdf)]
  }

  /** The position of the first exception in cs, or |cs|: how many leading bills the loop gets through. */
  function FirstCrash(cs: seq<Option<ErrorKind>>): (n: nat)
    ensures n <= |cs|
    ensures forall i :: 0 <= i < n ==> cs[i].None?
    ensures n < |cs| ==> cs[n].Some?
  {
    if |cs| == 0 || cs[0].Some? then 0 else 1 + FirstCrash(cs[1..])
  }

  lemma FirstCrashOfInit(cs: seq<Option<ErrorKind>>)
    requires |cs| > 0
    ensures var n := FirstCrash(cs);
      FirstCrash(cs[..|cs| - 1]) == if n < |cs| - 1 then n else |cs| - 1
  {
    var init := cs[..|cs| - 1];
    var n, n' := FirstCrash(cs), FirstCrash(init);
    if n' < |init| {
      assert init[n'] == cs[n'];
    }
    if n < |init| {
      assert init[n] == cs[n];
    }
  }

  /** The synopses of the first n bills, in order. */
  function Synopses(bills: seq<string>, n: nat, sessionYear: int, fetchPage: string -> Reply<BillPage>): (r: seq<string>)
    requires n <= |bills|
    requires forall i :: 0 <= i < n ==> PageReply(fetchPage, bills[i], sessionYear).Ok?
  {
    seq(n, i requires 0 <= i < n => PageReply(fetchPage, bills[i], sessionYear).value.synopsis)
  }

  /** One more bill the loop gets through adds its synopsis. */
  lemma SynopsesStep(bills: seq<string>, k: nat, sessionYear: int, fetchPage: string -> Reply<BillPage>)
    requires k < |bills|
    requires forall i :: 0 <= i <= k ==> PageReply(fetchPage, bills[i], sessionYear).Ok?
    ensures Synopses(bills[..k], k, sessionYear, fetchPage) + [PageReply(fetchPage, bills[k], sessionYear).value.synopsis]
         == Synopses(bills, k + 1, sessionYear, fetchPage)
  {
  }

  /** Processing one bill ends the script exactly with that bill's exception. */
  lemma BillStepCrash(s: SessionState, sessionYear: int, bill: string,
                      fetchPage: string -> Reply<BillPage>, fetchPdf: string -> Reply<string>)
    ensures BillStep(s, sessionYear, bill, fetchPage, fetchPdf).crashed == BillCrash(sessionYear, bill, fetchPage, fetchPdf)
  {
    var reply := PageReply(fetchPage, bill, sessionYear);
    if reply.Ok? {
      WriteFetchedCrash(s.files, BillDownloads(sessionYear, bill, reply.value), fetchPdf);
    }
  }

  /** The script ends with the exception of the first bill it cannot get through, if there is one. */
  lemma {:induction false} SessionRunCrash(files: map<string, string>, sessionYear: int, bills: seq<string>,
                                           fetchPage: string -> Reply<BillPage>, fetchPdf: string -> Reply<string>)
    ensures var cs := BillCrashes(bills, sessionYear, fetchPage, fetchPdf);
      var n := FirstCrash(cs);
      SessionRun(files, sessionYear, bills, fetchPage, fetchPdf).crashed == if n < |cs| then cs[n] else None
  {
    if |bills| > 0 {
      var init := bills[..|bills| - 1];
      var cs := BillCrashes(bills, sessionYear, fetchPage, fetchPdf);
      var before := SessionRun(files, sessionYear, init, fetchPage, fetchPdf);
      SessionRunCrash(files, sessionYear, init, fetchPage, fetchPdf);
      assert BillCrashes(init, sessionYear, fetchPage, fetchPdf) == cs[..|init|];
      FirstCrashOfInit(cs);
      var n' := FirstCrash(cs[..|init|]);
      if n' == |init| {
        assert before.crashed.None?;
        BillStepCrash(before, sessionYear, bills[|init|], fetchPage, fetchPdf);
        assert cs[|init|] == BillCrash(sessionYear, bills[|init|], fetchPage, fetchPdf);
      } else {
        assert before.crashed.Some?;
        assert cs[..|init|][n'] == cs[n'];
      }
    }
  }

  /** A bill that does not end the script had its page fetched and adds its synopsis. */
  lemma BillStepClean(s: SessionState, sessionYear: int, bill: string,
                      fetchPage: string -> Reply<BillPage>, fetchPdf: string -> Reply<string>)
    requires BillStep(s, sessionYear, bill, fetchPage, fetchPdf).crashed.None?
    ensures PageReply(fetchPage, bill, sessionYear).Ok?
    ensures BillStep(s, sessionYear, bill, fetchPage, fetchPdf).synopses
         == s.synopses + [PageReply(fetchPage, bill, sessionYear).value.synopsis]
  {
  }

  /**
   * A loop that gets through all the bills got through all but the last,
   * fetched the last one's page, and ends with its synopsis.
   */
  lemma SessionRunLastClean(files: map<string, string>, sessionYear: int, bills: seq<string>,
                            fetchPage: string -> Reply<BillPage>, fetchPdf: string -> Reply<string>)
    requires |bills| > 0
    requires SessionRun(files, sessionYear, bills, fetchPage, fetchPdf).crashed.None?
    ensures var before := SessionRun(files, sessionYear, bills[..|bills| - 1], fetchPage, fetchPdf);
      var reply := PageReply(fetchPage, bills[|bills| - 1], sessionYear);
      && before.crashed.None?
      && reply.Ok?
      && SessionRun(files, sessionYear, bills, fetchPage, fetchPdf).synopses == before.synopses + [reply.value.synopsis]
  {
    var before := SessionRun(files, sessionYear, bills[..|bills| - 1], fetchPage, fetchPdf);
    BillStepClean(before, sessionYear, bills[|bills| - 1], fetchPage, fetchPdf);
  }

  /** A script that gets through every bill fetched every details page. */
  lemma {:induction false} SessionRunPagesFetched(files: map<string, string>, sessionYear: int, bills: seq<string>,
                                                  fetchPage: string -> Reply<BillPage>, fetchPdf: string -> Reply<string>)
    requires SessionRun(files, sessionYear, bills, fetchPage, fetchPdf).crashed.None?
    ensures forall i :: 0 <= i < |bills| ==> PageReply(fetchPage, bills[i], sessionYear).Ok?
  {
    if |bills| > 0 {
      var init := bills[..|bills| - 1];
      SessionRunLastClean(files, sessionYear, bills, fetchPage, fetchPdf);
      SessionRunPagesFetched(files, sessionYear, init, fetchPage, fetchPdf);
      forall i | 0 <= i < |bills| ensures PageReply(fetchPage, bills[i], sessionYear).Ok? {
        if i < |init| {
          assert init[i] == bills[i];
        }
      }
    }
  }

  /**
   * A script that gets through every bill (and so, by SessionRunPagesFetched,
   * fetched every page) has the synopsis of every bill, in order.
   */
  lemma {:induction false} SessionRunSynopses(files: map<string, string>, sessionYear: int, bills: seq<string>,
                                              fetchPage: string -> Reply<BillPage>, fetchPdf: string -> Reply<string>)
    requires SessionRun(files, sessionYear, bills, fetchPage, fetchPdf).crashed.None?
    requires forall i :: 0 <= i < |bills| ==> PageReply(fetchPage, bills[i], sessionYear).Ok?
    ensures SessionRun(files, sessionYear, bills, fetchPage, fetchPdf).synopses == Synopses(bills, |bills|, sessionYear, fetchPage)
  {
    if |bills| > 0 {
      var init := bills[..|bills| - 1];
      SessionRunLastClean(files, sessionYear, bills, fetchPage, fetchPdf);
      forall i | 0 <= i < |init| ensures PageReply(fetchPage, init[i], sessionYear).Ok? {
        assert init[i] == bills[i];
      }
      SessionRunSynopses(files, sessionYear, init, fetchPage, fetchPdf);
      SynopsesStep(bills, |init|, sessionYear, fetchPage);
    }
  }

  /** The links and downloads of one bill whose details page was fetched. */
  method ProcessBill(sessionYear: int, bill: string, page: BillPage, fetchPdf: string -> Reply<string>,
                     files: map<string, string>)
    returns (out: map<string, string>, crashed: Option<ErrorKind>)
    ensures Downloads(out, crashed) == BillFiles(files, sessionYear, bill, page, fetchPdf)
  {
    var lastBill: Option<string> := None;
    var amendments: seq<string> := [];
    if page.tableCount > 1 {
      lastBill, amendments := ScanAnchors(page.linkHrefs, sessionYear);
    }
    out, crashed := DownloadPdfs(PdfDownloads(PdfDir(sessionYear), bill, Links(lastBill, amendments)), fetchPdf, files);
  }

  lemma SessionStep(files: map<string, string>, sessionYear: int, bills: seq<string>, k: nat,
                    fetchPage: string -> Reply<BillPage>, fetchPdf: string -> Reply<string>)
    requires k < |bills|
    requires SessionRun(files, sessionYear, bills[..k], fetchPage, fetchPdf).crashed.None?
    ensures SessionRun(files, sessionYear, bills[..k + 1], fetchPage, fetchPdf)
         == BillStep(SessionRun(files, sessionYear, bills[..k], fetchPage, fetchPdf), sessionYear, bills[k], fetchPage, fetchPdf)
  {
    assert bills[..k + 1][..k] == bills[..k];
  }

  /** Once an exception has ended the bill loop, the later bills change nothing. */
  lemma {:induction false} SessionStopsAfterCrash(files: map<string, string>, sessionYear: int, bills: seq<string>, k: nat,
                                                  fetchPage: string -> Reply<BillPage>, fetchPdf: string -> Reply<string>)
    requires k <= |bills|
    requires SessionRun(files, sessionYear, bills[..k], fetchPage, fetchPdf).crashed.Some?
    ensures SessionRun(files, sessionYear, bills, fetchPage, fetchPdf) == SessionRun(files, sessionYear, bills[..k], fetchPage, fetchPdf)
  {
    if k < |bills| {
      var init := bills[..|bills| - 1];
      assert init[..k] == bills[..k];
      SessionStopsAfterCrash(files, sessionYear, init, k, fetchPage, fetchPdf);
    } else {
      assert bills[..k] == bills;
    }
  }

  /**
   * The loop over the bills: each bill's synopsis, then its PDFs, until an
   * uncaught exception ends the script.
   */
  method ProcessBills(bills: seq<string>, sessionYear: int, fetchPage: string -> Reply<BillPage>,
                      fetchPdf: string -> Reply<string>, files: map<string, string>)
    returns (failed: Option<ErrorKind>, synopses: seq<string>, out: map<string, string>)
    ensures SessionState(out, synopses, failed) == SessionRun(files, sessionYear, bills, fetchPage, fetchPdf)
  {
    out := files;
    synopses := [];
    for k := 0 to |bills|
      invariant SessionRun(files, sessionYear, bills[..k], fetchPage, fetchPdf) == SessionState(out, synopses, None)
    {
      SessionStep(files, sessionYear, bills, k, fetchPage, fetchPdf);
      var bill := bills[k];
      var page := PageReply(fetchPage, bill, sessionYear);
      if page.Err? {
        SessionStopsAfterCrash(files, sessionYear, bills, k + 1, fetchPage, fetchPdf);
        return Some(page.error), synopses, out;
      }
      synopses := synopses + [page.value.synopsis];
      var crashed;
      out, crashed := ProcessBill(sessionYear, bill, page.value, fetchPdf, out);
      if crashed.Some? {
        SessionStopsAfterCrash(files, sessionYear, bills, k + 1, fetchPage, fetchPdf);
        return crashed, synopses, out;
      }
    }
    assert bills[..|bills|] == bills;
    failed := None;
  }

  /**
   * main(session_year).  The report and details-page requests are not guarded,
   * so a failure there ends the run, as does a PDF download failing with
   * anything but a request or IO error.
   */
  method DownloadSession(sessionYear: int, fetchReport: ReportQuery -> Reply<Option<seq<string>>>,
                         fetchPage: string -> Reply<BillPage>, fetchPdf: string -> Reply<string>,
                         files: map<string, string>)
    returns (outcome: SessionOutcome, out: map<string, string>)
    ensures fetchReport(ReportQueryFor(sessionYear)).Err? ==>
      outcome == Crashed(fetchReport(ReportQueryFor(sessionYear)).error) && out == files
    ensures fetchReport(ReportQueryFor(sessionYear)) == Ok(None) ==> outcome == NoTables && out == files
    ensures fetchReport(ReportQueryFor(sessionYear)).Ok? && fetchReport(ReportQueryFor(sessionYear)).value.Some? ==>
      var bills := CleanColumn(fetchReport(ReportQueryFor(sessionYear)).value.value);
      var r := SessionRun(files, sessionYear, bills, fetchPage, fetchPdf);
      && out == r.files
      && outcome == (if r.crashed.Some? then Crashed(r.crashed.value) else Saved(bills, r.synopses))
  {
    out := files;
    var report := fetchReport(ReportQueryFor(sessionYear));
    if report.Err? {
      return Crashed(report.error), out;
    }
    if report.value.None? {
      return NoTables, out;
    }
    var bills := CleanColumn(report.value.value);
    var failed, synopses;
    failed, synopses, out := ProcessBills(bills, sessionYear, fetchPage, fetchPdf, files);
    if failed.Some? {
      outcome := Crashed(failed.value);
    } else {
      outcome := Saved(bills, synopses);
    }
  }
}
