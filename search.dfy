/**
 * The full-text search side of _utils.py: the request payload, the metadata
 * built from one search hit, and the paginated loop that collects the hits to
 * download. The search service is an input: the answers it gives, in order.
 */
module Search {
  import opened Wrappers
  import opened Strings
  import opened EdgarConstants
  import opened Accession
  import opened Filings

  // ---------------------------------------------------------------------------
  // The request

  /** The JSON body of a full-text search request. */
  datatype Payload = Payload(dateRange: string, startdt: string, enddt: string, entityName: string,
                             forms: seq<string>, startIndex: int, q: string)

  /** `form_request_payload`: a custom date range and the request's fields under the service's names. */
  function FormRequestPayload(tickerOrCik: string, filingTypes: seq<string>, startDate: string, endDate: string,
                              startIndex: int, query: string): (p: Payload)
    ensures p.dateRange == "custom" && p.entityName == tickerOrCik && p.forms == filingTypes
    ensures p.startdt == startDate && p.enddt == endDate && p.startIndex == startIndex && p.q == query
  {
    Payload("custom", startDate, endDate, tickerOrCik, filingTypes, startIndex, query)
  }

  // ---------------------------------------------------------------------------
  // One hit

  /** A search hit: its `_id`, its `_source.ciks` and its `_source.file_type`. */
  datatype ApiHit = ApiHit(id: string, ciks: seq<string>, fileType: string)

  /** The `FilingMetadata` record `build_filing_metadata_from_hit` returns. */
  datatype FilingMetadata = FilingMetadata(
    cik: string, ticker: string, accessionNumber: string, documentMetadataList: string,
    filingDetailsFilename: string, fullSubmissionUrl: string, filingDetailsUrl: string,
    filingDetailPageUrl: string, xlsxFinancialReportUrl: string, htmlExhibitsUrl: string,
    xbrlInstanceDocUrl: string, zipCompressedFileUrl: string)

  /** The position of the last occurrence of c in s. */
  function LastIndexOf(s: string, c: char): (r: Option<nat>)
    ensures r.None? <==> c !in s
    ensures r.Some? ==> r.value < |s| && s[r.value] == c && c !in s[r.value + 1..]
  {
    if s == [] then None
    else if s[|s| - 1] == c then Some(|s| - 1)
    else
      var r := LastIndexOf(s[..|s| - 1], c);
      assert r.Some? ==> s[r.value + 1..] == s[..|s| - 1][r.value + 1..] + [s[|s| - 1]];
      assert r.None? ==> s == s[..|s| - 1] + [s[|s| - 1]];
      r
  }

  /**
   * `Path(p).suffix`: in the last '/'-piece, the text from its last '.', unless
   * that '.' is its first or its last character, when the suffix is empty.
   */
  function Suffix(p: string): (r: string)
    ensures r != [] ==> r[0] == '.' && '.' !in r[1..] && |r| >= 2 && EndsWith(LastPiece(p, '/'), r)
    ensures r != [] ==> |r| < |LastPiece(p, '/')|
    ensures '.' !in LastPiece(p, '/') ==> r == []
    ensures var name := LastPiece(p, '/'); var dot := LastIndexOf(name, '.');
      r == if dot.Some? && 0 < dot.value < |name| - 1 then name[dot.value..] else []
  {
    var name := LastPiece(p, '/');
    match LastIndexOf(name, '.')
    case None => []
    case Some(i) => if 0 < i < |name| - 1 then name[i..] else []
  }

  /** The extension as written: `suffix.replace("htm", "html")`, every occurrence. */
  function ExtensionAsWritten(suffix: string): (r: string)
    ensures !Contains(suffix, "htm") ==> r == suffix
  {
    ReplaceAll(suffix, "htm", "html")
  }

  /** As written, an ".html" suffix gains a second 'l'. */
  lemma HtmlSuffixDoubled()
    ensures ExtensionAsWritten(".html") == ".htmll"
  {
    assert ".html"[0..3][0] != "htm"[0];
    assert ".html"[1..4] == "htm";
    assert Find(".html", "htm") == Some(1) by {
      assert Find(".html"[1..], "htm") == Some(0);
    }
    assert ".html"[1 + 3..] == "l";
    assert ReplaceAll("l", "htm", "html") == "l";
  }

  /** So the as-written rewriting is not idempotent: applied to its own ".htm" result it changes it again. */
  lemma ExtensionAsWrittenNotIdempotent()
    ensures ExtensionAsWritten(".htm") == ".html"
    ensures ExtensionAsWritten(ExtensionAsWritten(".htm")) != ExtensionAsWritten(".htm")
  {
    assert Find(".htm", "htm") == Some(1) by {
      assert ".htm"[0..3][0] != "htm"[0];
      assert Find(".htm"[1..], "htm") == Some(0);
    }
    assert ".htm"[1 + 3..] == [];
    HtmlSuffixDoubled();
  }

  /** The evidently intended extension: ".htm" becomes ".html"; every other suffix is kept. */
  function Extension(suffix: string): (r: string)
    ensures suffix == ".htm" ==> r == ".html"
    ensures suffix != ".htm" ==> r == suffix
    ensures r != ".htm"
    ensures suffix == ".htm" || suffix == ".html" ==> r == ".html"
  {
    if suffix == ".htm" then ".html" else suffix
  }

  /** The intended rewriting is idempotent, and both HTML spellings end up as ".html". */
  lemma ExtensionIdempotent(suffix: string)
    ensures Extension(Extension(suffix)) == Extension(suffix)
    ensures suffix == ".htm" || suffix == ".html" ==> Extension(suffix) == ".html"
  {
  }

  /** The local name of the filing's details document: the stem and the intended extension. */
  function DetailsFilename(c: Constants, filename: string): (r: string)
    ensures Suffix(filename) == ".htm" || Suffix(filename) == ".html" ==> r == c.filingDetailsFilenameStem + ".html"
    ensures Suffix(filename) != ".htm" ==> r == c.filingDetailsFilenameStem + Suffix(filename)
  {
    c.filingDetailsFilenameStem + Extension(Suffix(filename))
  }

  /** The same name as written: a details document saved as ".html" would be named with ".htmll". */
  function DetailsFilenameAsWritten(c: Constants, filename: string): (r: string)
    ensures Suffix(filename) == ".html" ==> r == c.filingDetailsFilenameStem + ".htmll"
  {
    HtmlSuffixDoubled();
    c.filingDetailsFilenameStem + ExtensionAsWritten(Suffix(filename))
  }

  /** `accession_number.replace("-", "", 2)`: when the number has exactly two dashes, its three pieces glued together. */
  lemma NoDashOfThree(acc: string)
    requires |Split(acc, '-')| == 3
    ensures var parts := Split(acc, '-');
      && DeleteFirst(acc, '-', 2) == parts[0] + parts[1] + parts[2]
      && DeleteFirst(acc, '-', 2) == NoDash(acc)
  {
    var parts := Split(acc, '-');
    ThreePieces(acc);
    DeleteBothDashes(parts[0], parts[1], parts[2]);
  }

  /** Both dashes between three dash-free pieces go, whether the first two or all are taken out. */
  lemma DeleteBothDashes(a: string, b: string, d: string)
    requires '-' !in a && '-' !in b && '-' !in d
    ensures DeleteFirst(a + ['-'] + (b + ['-'] + d), '-', 2) == a + b + d
    ensures DeleteChar(a + ['-'] + (b + ['-'] + d), '-') == a + b + d
  {
    DeleteFirstStep(a, '-', b + ['-'] + d, 2);
    DeleteFirstStep(b, '-', d, 1);
    DeleteFirstNothing(d, '-', 0);
    DeleteCharStep(a, '-', b + ['-'] + d);
    DeleteCharStep(b, '-', d);
    DeleteCharRemoves(d, '-');
    assert a + (b + d) == a + b + d;
  }

  /** A string that splits into three pieces is the pieces with a dash between each two. */
  lemma ThreePieces(acc: string)
    requires |Split(acc, '-')| == 3
    ensures var parts := Split(acc, '-');
      && acc == parts[0] + ['-'] + (parts[1] + ['-'] + parts[2])
      && '-' !in parts[0] && '-' !in parts[1] && '-' !in parts[2]
  {
    var parts := Split(acc, '-');
    JoinThree(parts, '-');
  }

  /**
   * `build_filing_metadata_from_hit`. The `_id` is the accession number and the
   * details file name, split at the first ':'; no ':' or an accession number
   * without exactly two dashes fails to unpack (ValueError); no CIK is an
   * IndexError. MetadataOfHit states what the record holds.
   */
  function BuildFilingMetadataFromHit(c: Constants, hit: ApiHit): (r: Result<FilingMetadata>)
    ensures ':' !in hit.id ==> r == Failure(ValueError(UnpackMismatch))
    ensures ':' in hit.id && |Split(SplitOnce(hit.id, ':').value.0, '-')| != 3 ==> r == Failure(ValueError(UnpackMismatch))
    ensures ':' in hit.id && |Split(SplitOnce(hit.id, ':').value.0, '-')| == 3 && hit.ciks == [] ==> r == Failure(IndexError)
    ensures r.Success? <==> ':' in hit.id && |Split(SplitOnce(hit.id, ':').value.0, '-')| == 3 && hit.ciks != []
  {
    match SplitOnce(hit.id, ':')
    case None => Failure(ValueError(UnpackMismatch))
    case Some((acc, file)) =>
      if |Split(acc, '-')| != 3 then Failure(ValueError(UnpackMismatch))
      else if hit.ciks == [] then Failure(IndexError)
      else
        var cik := hit.ciks[|hit.ciks| - 1];
        var nodash := DeleteFirst(acc, '-', 2);
        var cikShort := LStrip(cik, '0');
        Success(FilingMetadata(
          cikShort, [], acc, [], DetailsFilename(c, file),
          ArchiveUrl(c, cik, nodash, acc + ".txt"),
          ArchiveUrl(c, cik, nodash, file),
          ArchiveUrl(c, cikShort, nodash, acc + "-index.htm"),
          ArchiveUrl(c, cik, nodash, "Financial_Report.xlsx"),
          [], [],
          ArchiveUrl(c, cikShort, nodash, acc + "-xbrl.zip")))
  }

  /**
   * The record built from a hit: the CIK is the last one listed, with its
   * leading zeros stripped for the record and for the detail page and archive
   * URLs; the other URLs use it as listed. The folder is named by the accession
   * number with its two dashes removed. The ticker, the document list and the
   * exhibit and instance URLs are empty.
   */
  lemma MetadataOfHit(c: Constants, hit: ApiHit)
    requires BuildFilingMetadataFromHit(c, hit).Success?
    ensures var r := BuildFilingMetadataFromHit(c, hit).value;
      var (acc, file) := SplitOnce(hit.id, ':').value;
      var cik := hit.ciks[|hit.ciks| - 1];
      var nodash := NoDash(acc);
      && hit.id == acc + ":" + file && ':' !in acc
      && '-' !in nodash && |Split(acc, '-')| == 3
      && r.cik == LStrip(cik, '0') && r.ticker == [] && r.accessionNumber == acc
      && r.documentMetadataList == []
      && r.filingDetailsFilename == DetailsFilename(c, file)
      && r.fullSubmissionUrl == ArchiveUrl(c, cik, nodash, acc + ".txt")
      && r.filingDetailsUrl == ArchiveUrl(c, cik, nodash, file)
      && r.filingDetailPageUrl == ArchiveUrl(c, LStrip(cik, '0'), nodash, acc + "-index.htm")
      && r.xlsxFinancialReportUrl == ArchiveUrl(c, cik, nodash, "Financial_Report.xlsx")
      && r.htmlExhibitsUrl == [] && r.xbrlInstanceDocUrl == []
      && r.zipCompressedFileUrl == ArchiveUrl(c, LStrip(cik, '0'), nodash, acc + "-xbrl.zip")
  {
    var (acc, file) := SplitOnce(hit.id, ':').value;
    NoDashOfThree(acc);
  }

  /**
   * A hit and a `Filing` with the same accession number and short CIK agree on
   * the detail page and compressed archive URLs, though one removes the first
   * two dashes and the other all of them.
   */
  lemma MetadataAgreesWithFiling(c: Constants, hit: ApiHit, st: FilingState, docs: seq<DocumentMetadata>)
    requires BuildFilingMetadataFromHit(c, hit).Success?
    requires st.shortCik == BuildFilingMetadataFromHit(c, hit).value.cik
    ensures var m := BuildFilingMetadataFromHit(c, hit).value;
      var loaded := Loaded(st, docs, c, m.accessionNumber);
      && loaded.filingDetailPageUrl == Some(m.filingDetailPageUrl)
      && loaded.zipCompressedFileUrl == Some(m.zipCompressedFileUrl)
  {
    MetadataOfHit(c, hit);
  }

  // ---------------------------------------------------------------------------
  // The paginated search

  /** One answer of the search service: its hits and its `query.size`. */
  datatype Page = Page(hits: seq<ApiHit>, size: int)

  /** `hit_filing_type[-2:] == "/A"`. */
  predicate IsAmend(fileType: string)
  {
    EndsWith(fileType, "/A")
  }

  /** A hit is kept when it is an amendment and amendments are wanted, or it is not one and has the requested type. */
  predicate Wanted(hit: ApiHit, filingType: string, includeAmends: bool)
  {
    if IsAmend(hit.fileType) then includeAmends else hit.fileType == filingType
  }

  /** The hits of the answers up to the first one without hits; after the last answer there are no more hits. */
  function Hits(pages: seq<Page>): (r: seq<ApiHit>)
  {
    if pages == [] || pages[0].hits == [] then [] else pages[0].hits + Hits(pages[1..])
  }

  /** The hits from the answer at `page` on: that answer's hits and the later ones, or none. */
  lemma HitsFrom(pages: seq<Page>, page: nat)
    requires page <= |pages|
    ensures page == |pages| || pages[page].hits == [] ==> Hits(pages[page..]) == []
    ensures page < |pages| && pages[page].hits != [] ==> Hits(pages[page..]) == pages[page].hits + Hits(pages[page + 1..])
  {
    if page < |pages| {
      assert pages[page..][0] == pages[page] && pages[page..][1..] == pages[page + 1..];
    }
  }

  /** The start index of the i-th request: the sizes of the answers before it added up. */
  function Offset(pages: seq<Page>, i: nat): int
    requires i <= |pages|
  {
    if i == 0 then 0 else Offset(pages, i - 1) + pages[i - 1].size
  }

  /** The first n requests of the loop: each asks for the next batch, from the offset the earlier answers reached. */
  function Requests(tickerOrCik: string, filingType: string, after: string, before: string, query: string,
                    pages: seq<Page>, n: nat): (r: seq<Payload>)
    requires n <= |pages| + 1
    ensures |r| == n
  {
    if n == 0 then []
    else Requests(tickerOrCik, filingType, after, before, query, pages, n - 1)
         + [FormRequestPayload(tickerOrCik, [filingType], after, before, Offset(pages, n - 1), query)]
  }

  /** The i-th of the requests carries the offset of the i-th answer. */
  lemma {:induction false} RequestsAt(tickerOrCik: string, filingType: string, after: string, before: string, query: string,
                                      pages: seq<Page>, n: nat)
    requires n <= |pages| + 1
    ensures forall i :: 0 <= i < n ==>
      Requests(tickerOrCik, filingType, after, before, query, pages, n)[i]
        == FormRequestPayload(tickerOrCik, [filingType], after, before, Offset(pages, i), query)
  {
    if n > 0 {
      RequestsAt(tickerOrCik, filingType, after, before, query, pages, n - 1);
    }
  }

  /** The result list in front of what the rest of the scan gives, or the rest's exception. */
  function Prepend(done: seq<FilingMetadata>, rest: Result<seq<FilingMetadata>>): Result<seq<FilingMetadata>>
  {
    match rest
    case Success(more) => Success(done + more)
    case Failure(e) => Failure(e)
  }

  /** The metadata builder `build_filing_metadata_from_hit` under the given constants, as a function value. */
  function Builder(c: Constants): (b: ApiHit -> Result<FilingMetadata>)
    ensures forall hit :: b(hit) == BuildFilingMetadataFromHit(c, hit)
  {
    hit => BuildFilingMetadataFromHit(c, hit)
  }

  /**
   * What the scan of the given hits returns: the metadata of the wanted hits, in
   * order, until `num` are collected; building the metadata of a wanted hit may
   * raise, which ends the scan.
   */
  function Select(build: ApiHit -> Result<FilingMetadata>, hits: seq<ApiHit>, filingType: string, includeAmends: bool, num: int): (r: Result<seq<FilingMetadata>>)
    ensures r.Success? ==> |r.value| <= (if num < 0 then 0 else num)
    decreases |hits|
  {
    if num <= 0 || hits == [] then Success([])
    else if !Wanted(hits[0], filingType, includeAmends) then Select(build, hits[1..], filingType, includeAmends, num)
    else
      match build(hits[0])
      case Failure(e) => Failure(e)
      case Success(m) => Prepend([m], Select(build, hits[1..], filingType, includeAmends, num - 1))
  }

  /** The wanted hits, in order. */
  function WantedHits(hits: seq<ApiHit>, filingType: string, includeAmends: bool): (r: seq<ApiHit>)
    ensures |r| <= |hits|
  {
    if hits == [] then []
    else
      var rest := WantedHits(hits[1..], filingType, includeAmends);
      if Wanted(hits[0], filingType, includeAmends) then [hits[0]] + rest else rest
  }

  /** The wanted hits are exactly the hits of the list that are wanted. */
  lemma {:induction false} WantedHitsSpec(hits: seq<ApiHit>, filingType: string, includeAmends: bool)
    ensures var r := WantedHits(hits, filingType, includeAmends);
      forall h :: h in r <==> h in hits && Wanted(h, filingType, includeAmends)
    decreases |hits|
  {
    if hits != [] {
      WantedHitsSpec(hits[1..], filingType, includeAmends);
      assert forall h :: h in hits <==> h == hits[0] || h in hits[1..];
    }
  }

  /** The metadata of each hit, in order, or the first exception raised. */
  function BuildAll(build: ApiHit -> Result<FilingMetadata>, hits: seq<ApiHit>): (r: Result<seq<FilingMetadata>>)
    ensures r.Success? ==> |r.value| == |hits|
  {
    if hits == [] then Success([])
    else
      match build(hits[0])
      case Failure(e) => Failure(e)
      case Success(m) =>
        match BuildAll(build, hits[1..])
        case Failure(e) => Failure(e)
        case Success(rest) => Success([m] + rest)
  }

  /**
   * Building succeeds exactly when every hit builds, and then each entry is its
   * hit's metadata; a failure is the exception of a hit that fails.
   */
  lemma {:induction false} BuildAllSpec(build: ApiHit -> Result<FilingMetadata>, hits: seq<ApiHit>)
    ensures var r := BuildAll(build, hits);
      && (r.Success? <==> forall i :: 0 <= i < |hits| ==> build(hits[i]).Success?)
      && (r.Success? ==> forall i :: 0 <= i < |hits| ==> build(hits[i]) == Success(r.value[i]))
      && (r.Failure? ==> exists i :: 0 <= i < |hits| && build(hits[i]) == Failure(r.error))
    decreases |hits|
  {
    if hits != [] {
      BuildAllSpec(build, hits[1..]);
      assert forall i :: 1 <= i < |hits| ==> hits[i] == hits[1..][i - 1];
      if build(hits[0]).Success? && BuildAll(build, hits[1..]).Success? {
        var rest := BuildAll(build, hits[1..]).value;
        assert forall i :: 1 <= i < |hits| ==> ([build(hits[0]).value] + rest)[i] == rest[i - 1];
      }
    }
  }

  /**
   * The scan as filter, take and map: the first `num` wanted hits, each built into
   * its metadata. So the result never holds more than `num` entries, holds only
   * wanted hits and keeps their order.
   */
  lemma {:induction false} SelectIsFilterTakeMap(build: ApiHit -> Result<FilingMetadata>, hits: seq<ApiHit>, filingType: string, includeAmends: bool, num: int)
    requires num >= 0
    ensures var w := WantedHits(hits, filingType, includeAmends);
      Select(build, hits, filingType, includeAmends, num) == BuildAll(build, w[..if num < |w| then num else |w|])
    decreases |hits|
  {
    var w := WantedHits(hits, filingType, includeAmends);
    if num == 0 || hits == [] {
      assert w[..if num < |w| then num else |w|] == [];
    } else if !Wanted(hits[0], filingType, includeAmends) {
      SelectIsFilterTakeMap(build, hits[1..], filingType, includeAmends, num);
    } else {
      var rest := WantedHits(hits[1..], filingType, includeAmends);
      assert w == [hits[0]] + rest;
      SelectIsFilterTakeMap(build, hits[1..], filingType, includeAmends, num - 1);
      BuildTakeCons(build, hits[0], rest, num);
    }
  }

  /** Building the first `num` of a list that starts with a hit: that hit first, then the first `num - 1` others. */
  lemma BuildTakeCons(build: ApiHit -> Result<FilingMetadata>, hit: ApiHit, hits: seq<ApiHit>, num: int)
    requires num >= 1
    ensures var w := [hit] + hits;
      var taken := BuildAll(build, w[..if num < |w| then num else |w|]);
      var others := BuildAll(build, hits[..if num - 1 < |hits| then num - 1 else |hits|]);
      && (build(hit).Failure? ==> taken == Failure(build(hit).error))
      && (build(hit).Success? ==> taken == Prepend([build(hit).value], others))
  {
    var w := [hit] + hits;
    var m := if num - 1 < |hits| then num - 1 else |hits|;
    assert (if num < |w| then num else |w|) == m + 1;
    var t := w[..m + 1];
    assert t[0] == hit && t[1..] == hits[..m];
  }

  /** Scanning past a hit: the step the search loop makes for each hit of a page. */
  lemma SelectStep(build: ApiHit -> Result<FilingMetadata>, hits: seq<ApiHit>, k: nat, filingType: string, includeAmends: bool, num: int)
    requires k < |hits| && num > 0
    ensures !Wanted(hits[k], filingType, includeAmends) ==>
      Select(build, hits[k..], filingType, includeAmends, num) == Select(build, hits[k + 1..], filingType, includeAmends, num)
    ensures Wanted(hits[k], filingType, includeAmends) ==>
      Select(build, hits[k..], filingType, includeAmends, num) ==
        match build(hits[k])
        case Failure(e) => Failure(e)
        case Success(m) => Prepend([m], Select(build, hits[k + 1..], filingType, includeAmends, num - 1))
  {
    assert hits[k..][0] == hits[k] && hits[k..][1..] == hits[k + 1..];
  }

  lemma PrependNothing(r: Result<seq<FilingMetadata>>)
    ensures Prepend([], r) == r
  {
    if r.Success? {
      assert [] + r.value == r.value;
    }
  }

  lemma PrependAssoc(a: seq<FilingMetadata>, b: seq<FilingMetadata>, r: Result<seq<FilingMetadata>>)
    ensures Prepend(a, Prepend(b, r)) == Prepend(a + b, r)
  {
    if r.Success? {
      assert a + (b + r.value) == (a + b) + r.value;
    }
  }

  /** One step of the scan, stated on the hits still to scan, `[hit] + rest`, behind the entries already found. */
  lemma ScanStep(build: ApiHit -> Result<FilingMetadata>, hit: ApiHit, rest: seq<ApiHit>, filingType: string, includeAmends: bool, want: int,
                 found: seq<FilingMetadata>)
    requires want > 0
    ensures var before := Prepend(found, Select(build, [hit] + rest, filingType, includeAmends, want));
      var m := build(hit);
      && (!Wanted(hit, filingType, includeAmends) ==>
            before == Prepend(found, Select(build, rest, filingType, includeAmends, want)))
      && (Wanted(hit, filingType, includeAmends) && m.Failure? ==> before == Failure(m.error))
      && (Wanted(hit, filingType, includeAmends) && m.Success? ==>
            before == Prepend(found + [m.value], Select(build, rest, filingType, includeAmends, want - 1)))
  {
    assert ([hit] + rest)[0] == hit && ([hit] + rest)[1..] == rest;
    if Wanted(hit, filingType, includeAmends) && build(hit).Success? {
      PrependAssoc(found, [build(hit).value], Select(build, rest, filingType, includeAmends, want - 1));
    }
  }

  /**
   * The scan of one answer's hits, ahead of the hits of the later answers
   * (`tail`). A failure is the scan's failure; a complete result holds the `want`
   * entries the scan stops at; otherwise fewer were found and the scan goes on
   * into the later answers.
   */
  method ScanPage(build: ApiHit -> Result<FilingMetadata>, hits: seq<ApiHit>, ghost tail: seq<ApiHit>, filingType: string, includeAmends: bool,
                  want: int)
    returns (r: Result<seq<FilingMetadata>>, complete: bool)
    requires want > 0
    ensures r.Failure? ==> Select(build, hits + tail, filingType, includeAmends, want) == r
    ensures r.Success? && complete ==>
      Select(build, hits + tail, filingType, includeAmends, want) == r && |r.value| == want
    ensures r.Success? && !complete ==>
      && |r.value| < want
      && Select(build, hits + tail, filingType, includeAmends, want)
         == Prepend(r.value, Select(build, tail, filingType, includeAmends, want - |r.value|))
    ensures r == Select(build, hits, filingType, includeAmends, want)
    ensures complete <==> r.Failure? || |r.value| == want
  {
    var found: seq<FilingMetadata> := [];
    PrependNothing(Select(build, hits + tail, filingType, includeAmends, want));
    PrependNothing(Select(build, hits, filingType, includeAmends, want));
    assert hits[0..] == hits;
    var k := 0;
    while k < |hits|
      invariant k <= |hits| && |found| < want
      invariant Select(build, hits + tail, filingType, includeAmends, want)
        == Prepend(found, Select(build, hits[k..] + tail, filingType, includeAmends, want - |found|))
      invariant Select(build, hits, filingType, includeAmends, want)
        == Prepend(found, Select(build, hits[k..], filingType, includeAmends, want - |found|))
    {
      var hit := hits[k];
      assert hits[k..] + tail == [hit] + (hits[k + 1..] + tail);
      assert hits[k..] == [hit] + hits[k + 1..];
      ScanStep(build, hit, hits[k + 1..] + tail, filingType, includeAmends, want - |found|, found);
      ScanStep(build, hit, hits[k + 1..], filingType, includeAmends, want - |found|, found);
      if Wanted(hit, filingType, includeAmends) {
        var metadata := build(hit);
        if metadata.Failure? {
          return Failure(metadata.error), true;
        }
        found := found + [metadata.value];
        if |found| == want {
          SelectNone(build, hits[k + 1..] + tail, filingType, includeAmends);
          SelectNone(build, hits[k + 1..], filingType, includeAmends);
          assert found + [] == found;
          return Success(found), true;
        }
      }
      k := k + 1;
    }
    assert hits[k..] + tail == tail;
    assert hits[k..] == [];
    assert found + [] == found;
    return Success(found), false;
  }

  /**
   * One answer of the search loop, behind the entries `filings` already found:
   * the scan stops at a missing or empty answer, a failure or a complete result;
   * otherwise it goes on with the next answer and the entries found so far.
   */
  method ReadAnswer(build: ApiHit -> Result<FilingMetadata>, pages: seq<Page>, page: nat, filingType: string, includeAmends: bool,
                    num: int, filings: seq<FilingMetadata>)
    returns (r: Result<seq<FilingMetadata>>, stop: bool)
    requires page <= |pages| && |filings| < num
    ensures stop ==> r == Prepend(filings, Select(build, Hits(pages[page..]), filingType, includeAmends, num - |filings|))
    ensures !stop ==>
      && page < |pages| && pages[page].hits != [] && r.Success? && |r.value| < num
      && Prepend(filings, Select(build, Hits(pages[page..]), filingType, includeAmends, num - |filings|))
         == Prepend(r.value, Select(build, Hits(pages[page + 1..]), filingType, includeAmends, num - |r.value|))
    ensures stop <==>
      || page == |pages| || pages[page].hits == []
      || Select(build, pages[page].hits, filingType, includeAmends, num - |filings|).Failure?
      || |Select(build, pages[page].hits, filingType, includeAmends, num - |filings|).value| == num - |filings|
    ensures !stop ==> r.value == filings + Select(build, pages[page].hits, filingType, includeAmends, num - |filings|).value
  {
    HitsFrom(pages, page);
    if page == |pages| || pages[page].hits == [] {
      assert filings + [] == filings;
      return Success(filings), true;
    }
    ghost var tail := Hits(pages[page + 1..]);
    var got, complete := ScanPage(build, pages[page].hits, tail, filingType, includeAmends, num - |filings|);
    if got.Failure? || complete {
      r := if got.Failure? then Failure(got.error) else Success(filings + got.value);
      return r, true;
    }
    PageStep(build, pages, page, filingType, includeAmends, num, filings, got.value);
    return Success(filings + got.value), false;
  }

  /** The scan position after a page whose hits did not complete the result. */
  lemma PageStep(build: ApiHit -> Result<FilingMetadata>, pages: seq<Page>, page: nat, filingType: string, includeAmends: bool,
                 num: int, filings: seq<FilingMetadata>, got: seq<FilingMetadata>)
    requires page < |pages| && pages[page].hits != []
    requires Select(build, Hits(pages[page..]), filingType, includeAmends, num - |filings|)
      == Prepend(got, Select(build, Hits(pages[page + 1..]), filingType, includeAmends, num - |filings| - |got|))
    ensures Prepend(filings, Select(build, Hits(pages[page..]), filingType, includeAmends, num - |filings|))
      == Prepend(filings + got, Select(build, Hits(pages[page + 1..]), filingType, includeAmends, num - |filings + got|))
  {
    PrependAssoc(filings, got, Select(build, Hits(pages[page + 1..]), filingType, includeAmends, num - |filings| - |got|));
  }

  lemma SelectNone(build: ApiHit -> Result<FilingMetadata>, hits: seq<ApiHit>, filingType: string, includeAmends: bool)
    ensures Select(build, hits, filingType, includeAmends, 0) == Success([])
  {
  }

  /**
   * The requests of the loop before the answer at `page` is read: one per earlier
   * answer, each with hits, and the next start index.
   */
  predicate Sent(tickerOrCik: string, filingType: string, after: string, before: string, query: string,
                 pages: seq<Page>, page: nat, startIndex: int, requests: seq<Payload>)
  {
    && page <= |pages| && |requests| == page
    && startIndex == Offset(pages, page)
    && requests == Requests(tickerOrCik, filingType, after, before, query, pages, page)
    && forall i :: 0 <= i < page ==> pages[i].hits != []
  }

  /**
   * How many requests the search loop sends, from the answer at `page` on, while
   * `want` entries are still missing: one for this answer, and one more round
   * only when this answer has hits whose scan neither raises nor completes.
   */
  function Rounds(build: ApiHit -> Result<FilingMetadata>, pages: seq<Page>, page: nat, want: int, filingType: string,
                  includeAmends: bool): (n: nat)
    requires page <= |pages|
    ensures 1 <= n <= |pages| - page + 1
    decreases |pages| - page
  {
    if page == |pages| || pages[page].hits == [] then 1
    else
      var s := Select(build, pages[page].hits, filingType, includeAmends, want);
      if s.Failure? || |s.value| == want then 1
      else 1 + Rounds(build, pages, page + 1, want - |s.value|, filingType, includeAmends)
  }

  /** One round: the last one at a stop, otherwise followed by the rounds of the next answer. */
  lemma RoundsAt(build: ApiHit -> Result<FilingMetadata>, pages: seq<Page>, page: nat, want: int, filingType: string,
                 includeAmends: bool)
    requires page <= |pages|
    ensures page == |pages| || pages[page].hits == [] ==> Rounds(build, pages, page, want, filingType, includeAmends) == 1
    ensures page < |pages| && pages[page].hits != [] ==>
      var s := Select(build, pages[page].hits, filingType, includeAmends, want);
      Rounds(build, pages, page, want, filingType, includeAmends)
        == if s.Failure? || |s.value| == want then 1
           else 1 + Rounds(build, pages, page + 1, want - |s.value|, filingType, includeAmends)
  {
  }

  /**
   * The state of the search loop before the answer at `page` is read: the
   * requests sent so far, the rounds still to come, and the entries found so
   * far in front of the scan of the later answers.
   */
  ghost predicate Scanning(build: ApiHit -> Result<FilingMetadata>, tickerOrCik: string, filingType: string, after: string,
                           before: string, includeAmends: bool, query: string, pages: seq<Page>, num: int,
                           page: nat, startIndex: int, filings: seq<FilingMetadata>, requests: seq<Payload>)
  {
    && Sent(tickerOrCik, filingType, after, before, query, pages, page, startIndex, requests)
    && (num <= 0 ==> page == 0 && filings == [])
    && (num > 0 ==>
          && |filings| < num
          && Rounds(build, pages, 0, num, filingType, includeAmends)
             == |requests| + Rounds(build, pages, page, num - |filings|, filingType, includeAmends))
    && Select(build, Hits(pages), filingType, includeAmends, num)
       == Prepend(filings, Select(build, Hits(pages[page..]), filingType, includeAmends, num - |filings|))
  }

  /** Before the first request, nothing is sent or found. */
  lemma ScanningStart(build: ApiHit -> Result<FilingMetadata>, tickerOrCik: string, filingType: string, after: string,
                      before: string, includeAmends: bool, query: string, pages: seq<Page>, num: int)
    ensures Scanning(build, tickerOrCik, filingType, after, before, includeAmends, query, pages, num, 0, 0, [], [])
  {
    assert pages[0..] == pages;
    PrependNothing(Select(build, Hits(pages), filingType, includeAmends, num));
  }

  /**
   * An answer that neither stops nor completes the scan: one more request is
   * sent, the entries it gave are kept, and the loop moves to the next answer
   * and the next start index.
   */
  lemma ScanningNext(build: ApiHit -> Result<FilingMetadata>, tickerOrCik: string, filingType: string, after: string,
                     before: string, includeAmends: bool, query: string, pages: seq<Page>, num: int,
                     page: nat, startIndex: int, filings: seq<FilingMetadata>, requests: seq<Payload>, got: seq<FilingMetadata>)
    requires Scanning(build, tickerOrCik, filingType, after, before, includeAmends, query, pages, num, page, startIndex, filings, requests)
    requires |filings| < num && page < |pages| && pages[page].hits != []
    requires var s := Select(build, pages[page].hits, filingType, includeAmends, num - |filings|);
      s.Success? && |s.value| != num - |filings| && got == filings + s.value && |got| < num
    requires Prepend(filings, Select(build, Hits(pages[page..]), filingType, includeAmends, num - |filings|))
      == Prepend(got, Select(build, Hits(pages[page + 1..]), filingType, includeAmends, num - |got|))
    ensures Scanning(build, tickerOrCik, filingType, after, before, includeAmends, query, pages, num, page + 1,
                     startIndex + pages[page].size, got,
                     requests + [FormRequestPayload(tickerOrCik, [filingType], after, before, startIndex, query)])
  {
    RoundsAt(build, pages, page, num - |filings|, filingType, includeAmends);
  }

  /**
   * An answer that stops the loop: with its request, the requests sent are
   * exactly the rounds, each for the next start index, and the result is the
   * whole scan.
   */
  lemma ScanningStop(build: ApiHit -> Result<FilingMetadata>, tickerOrCik: string, filingType: string, after: string,
                     before: string, includeAmends: bool, query: string, pages: seq<Page>, num: int,
                     page: nat, startIndex: int, filings: seq<FilingMetadata>, requests: seq<Payload>, r: Result<seq<FilingMetadata>>)
    requires Scanning(build, tickerOrCik, filingType, after, before, includeAmends, query, pages, num, page, startIndex, filings, requests)
    requires |filings| < num
    requires page == |pages| || pages[page].hits == []
      || Select(build, pages[page].hits, filingType, includeAmends, num - |filings|).Failure?
      || |Select(build, pages[page].hits, filingType, includeAmends, num - |filings|).value| == num - |filings|
    requires r == Prepend(filings, Select(build, Hits(pages[page..]), filingType, includeAmends, num - |filings|))
    ensures var sent := requests + [FormRequestPayload(tickerOrCik, [filingType], after, before, startIndex, query)];
      && r == Select(build, Hits(pages), filingType, includeAmends, num)
      && |sent| == Rounds(build, pages, 0, num, filingType, includeAmends) <= |pages| + 1
      && sent == Requests(tickerOrCik, filingType, after, before, query, pages, |sent|)
      && forall i :: 0 <= i < |sent| - 1 ==> pages[i].hits != []
  {
    RoundsAt(build, pages, page, num - |filings|, filingType, includeAmends);
  }

  /**
   * The search loop over any metadata builder: the requests it sends and the
   * scan of the hits it reads, page by page.
   */
  method Paginate(build: ApiHit -> Result<FilingMetadata>, filingType: string, tickerOrCik: string, num: int, after: string,
                 before: string, includeAmends: bool, query: string, pages: seq<Page>)
    returns (r: Result<seq<FilingMetadata>>, requests: seq<Payload>)
    ensures r == Select(build, Hits(pages), filingType, includeAmends, num)
    ensures requests != [] <==> num > 0
    ensures |requests| == if num <= 0 then 0 else Rounds(build, pages, 0, num, filingType, includeAmends)
    ensures |requests| <= |pages| + 1
    ensures requests == Requests(tickerOrCik, filingType, after, before, query, pages, |requests|)
    ensures forall i :: 0 <= i < |requests| - 1 ==> pages[i].hits != []
  {
    var filings: seq<FilingMetadata> := [];
    var startIndex := 0;
    var page := 0;
    requests := [];
    ScanningStart(build, tickerOrCik, filingType, after, before, includeAmends, query, pages, num);
    while |filings| < num
      invariant Scanning(build, tickerOrCik, filingType, after, before, includeAmends, query, pages, num,
                         page, startIndex, filings, requests)
      decreases |pages| - page
    {
      var payload := FormRequestPayload(tickerOrCik, [filingType], after, before, startIndex, query);
      var got, stop := ReadAnswer(build, pages, page, filingType, includeAmends, num, filings);
      if stop {
        ScanningStop(build, tickerOrCik, filingType, after, before, includeAmends, query, pages, num,
                     page, startIndex, filings, requests, got);
        return got, requests + [payload];
      }
      ScanningNext(build, tickerOrCik, filingType, after, before, includeAmends, query, pages, num,
                   page, startIndex, filings, requests, got.value);
      requests := requests + [payload];
      filings := got.value;
      startIndex := startIndex + pages[page].size;
      page := page + 1;
    }
    r := Success(filings);
  }

  /**
   * `get_filing_urls_to_download`, with `pages` standing for the search service:
   * the i-th request is answered by `pages[i]`, and a request past the last
   * answer finds no hits. The result is the scan Select describes over the hits
   * of the pages read; the requests sent carry the start index advanced by each
   * answer's size, and the loop only moves on past a page with hits.
   */
  method GetFilingUrlsToDownload(c: Constants, filingType: string, tickerOrCik: string, num: int, after: string,
                                 before: string, includeAmends: bool, query: string, pages: seq<Page>)
    returns (r: Result<seq<FilingMetadata>>, requests: seq<Payload>)
    ensures r == Select(Builder(c), Hits(pages), filingType, includeAmends, num)
    ensures requests != [] <==> num > 0
    ensures |requests| == if num <= 0 then 0 else Rounds(Builder(c), pages, 0, num, filingType, includeAmends)
    ensures |requests| <= |pages| + 1
    ensures forall i :: 0 <= i < |requests| ==>
      requests[i] == FormRequestPayload(tickerOrCik, [filingType], after, before, Offset(pages, i), query)
    ensures forall i :: 0 <= i < |requests| - 1 ==> pages[i].hits != []
  {
    r, requests := Paginate(Builder(c), filingType, tickerOrCik, num, after, before, includeAmends, query, pages);
    RequestsAt(tickerOrCik, filingType, after, before, query, pages, |requests|);
  }
}
