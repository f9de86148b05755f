/**
 * Filings (`Filing` in sec_edgar_downloader/UrlComponent.py).
 *
 * A filing is identified by an accession number and the filer's short CIK and
 * described by its form type and dates. `Filing(...)` resolves whichever of these
 * are missing by asking the EDGAR search service or the firm's browse page, then
 * reads the filing's detail page: a table of documents and the anchors linking
 * them. The answers of those services are parameters here (a list of search
 * hits, the browse page's description text, the parsed detail page), so the
 * model describes what the object ends up holding for any answer.
 */
module Filings {
  import opened Wrappers
  import opened Strings
  import opened Accession
  import opened EdgarConstants

  // ---------------------------------------------------------------------------
  // What the services answer

  /** A hit of the full-text search, as far as `_get_filing_details` reads it; JSON null is None. */
  datatype SearchHit = SearchHit(ciks: seq<string>, form: Option<string>, fileDate: Option<string>)

  /** One row of the detail page's document tables; an empty cell is None. */
  datatype Row = Row(seqNo: string, description: Option<string>, document: string, docType: Option<string>, size: string)

  /**
   * The parsed detail page: the rows of all its tables, the hrefs of all their
   * anchors in document order, and the Type, Filing Date and Period of Report fields.
   */
  datatype DetailPage = DetailPage(rows: seq<Row>, hrefs: seq<string>, fileType: string, fileDate: string, reportDate: string)

  /** `DocumentMetadata`: one document of a filing. */
  datatype DocumentMetadata = DocumentMetadata(
    seqNo: string,
    description: Option<string>,
    document: string,
    docType: Option<string>,
    size: string,
    url: string,
    extension: string,
    fsLocation: Option<string>,
    reportDate: string)

  /** The host that document hrefs are relative to. */
  const SecBaseUrl := "https://www.sec.gov"

  // ---------------------------------------------------------------------------
  // Choosing how to resolve the filing

  /** Python truthiness of an optional string argument: given and not empty. */
  predicate Given(s: Option<string>)
  {
    s.Some? && s.value != []
  }

  /** The branch `Filing.__init__` takes. */
  datatype Path = AllGiven | ByAccession | ByFirmTypeDate | NoPath

  /**
   * The branch taken: everything given is stored as it is; an accession number
   * without all the rest is looked up; a CIK, type and date without an accession
   * number look the accession number up; anything else is a TypeError.
   */
  function Dispatch(hasAccession: bool, shortCik: Option<string>, fileType: Option<string>, fileDate: Option<string>): (p: Path)
    ensures p == AllGiven <==> hasAccession && Given(shortCik) && Given(fileType) && Given(fileDate)
    ensures p == ByAccession <==> hasAccession && !(Given(shortCik) && Given(fileType) && Given(fileDate))
    ensures p == ByFirmTypeDate <==> !hasAccession && Given(shortCik) && Given(fileType) && Given(fileDate)
    ensures p == NoPath <==> !hasAccession && !(Given(shortCik) && Given(fileType) && Given(fileDate))
  {
    if hasAccession && Given(shortCik) && Given(fileType) && Given(fileDate) then AllGiven
    else if hasAccession then ByAccession
    else if Given(shortCik) && Given(fileType) && Given(fileDate) then ByFirmTypeDate
    else NoPath
  }

  /**
   * `_get_filing_details` once the search has answered: the first hit's first CIK
   * without leading zeros, its form and its filing date. No hit, or a hit without
   * CIKs, is an IndexError.
   */
  function FilingDetails(hits: seq<SearchHit>): (r: Result<(string, Option<string>, Option<string>)>)
    ensures r.Failure? <==> hits == [] || hits[0].ciks == []
    ensures r.Failure? ==> r.error == IndexError
    ensures r.Success? ==> hits[0].ciks[0] == Repeat('0', |hits[0].ciks[0]| - |r.value.0|) + r.value.0
    ensures r.Success? ==> (r.value.0 == [] || r.value.0[0] != '0')
    ensures r.Success? ==> r.value.1 == hits[0].form && r.value.2 == hits[0].fileDate
  {
    if hits == [] || hits[0].ciks == [] then Failure(IndexError)
    else Success((LStrip(hits[0].ciks[0], '0'), hits[0].form, hits[0].fileDate))
  }

  /**
   * `_get_accession_number` once the browse page has answered: in the description
   * text of the matching row, the accession number follows "Acc-no: " and ends at
   * the next backslash. Without "Acc-no: " the text gives an IndexError.
   */
  function AccNoFromBrowse(text: string): (r: Result<string>)
    ensures r.Failure? <==> !Contains(text, "Acc-no: ")
    ensures r.Failure? ==> r.error == IndexError
    ensures r.Success? ==> '\\' !in r.value && StartsWith(After(text, "Acc-no: ").value, r.value)
    ensures r.Success? ==> !Contains(r.value, "Acc-no: ")
    ensures r.Success? ==> var rest := After(text, "Acc-no: ").value;
      || |r.value| == |rest|
      || rest[|r.value|] == '\\'
      || OccursAt(rest, "Acc-no: ", |r.value|)
  {
    match SecondPiece(text, "Acc-no: ")
    case None => Failure(IndexError)
    case Some(t) =>
      var a := Before(t, "\\");
      BeforeCharInPrefix(After(text, "Acc-no: ").value, t, '\\');
      PrefixContains(t, a, "Acc-no: ");
      Success(a)
  }

  /** How far the filing's identity is resolved before the detail page is read. */
  datatype Identity = Identity(accession: AccessionState, shortCik: string, fileType: Option<string>, fileDate: Option<string>)

  /**
   * The identity the three constructor branches leave, or the exception they raise.
   * The accession branch replaces the short CIK, type and date by the search's
   * answer; the CIK branch builds a new accession number from the browse page.
   */
  function Identify(acc: Option<AccessionState>, shortCik: Option<string>, fileType: Option<string>, fileDate: Option<string>,
                    hits: seq<SearchHit>, browseText: string): (r: Result<Identity>)
    ensures Dispatch(acc.Some?, shortCik, fileType, fileDate) == NoPath ==> r == Failure(TypeError)
    ensures Dispatch(acc.Some?, shortCik, fileType, fileDate) == AllGiven ==>
      r == Success(Identity(acc.value, shortCik.value, fileType, fileDate))
    ensures Dispatch(acc.Some?, shortCik, fileType, fileDate) == ByAccession ==>
      && (r.Success? <==> FilingDetails(hits).Success?)
      && (r.Success? ==> r.value.accession == acc.value && r.value.shortCik == FilingDetails(hits).value.0)
      && (r.Success? ==> r.value.fileType == hits[0].form && r.value.fileDate == hits[0].fileDate)
    ensures Dispatch(acc.Some?, shortCik, fileType, fileDate) == ByFirmTypeDate ==>
      && (r.Success? <==> AccNoFromBrowse(browseText).Success? && Construct(Some(AccNoFromBrowse(browseText).value)).Success?)
      && (r.Success? ==> r.value.shortCik == shortCik.value && r.value.fileType == fileType && r.value.fileDate == fileDate)
      && (r.Success? ==> r.value.accession.accessionNumber == Some(AccNoFromBrowse(browseText).value))
      && (r.Success? ==> Valid(r.value.accession.components))
    ensures r.Success? ==> Given(Some(r.value.shortCik)) || Dispatch(acc.Some?, shortCik, fileType, fileDate) == ByAccession
  {
    match Dispatch(acc.Some?, shortCik, fileType, fileDate)
    case AllGiven => Success(Identity(acc.value, shortCik.value, fileType, fileDate))
    case ByAccession =>
      var d :- FilingDetails(hits);
      Success(Identity(acc.value, d.0, d.1, d.2))
    case ByFirmTypeDate =>
      var accNo :- AccNoFromBrowse(browseText);
      var made :- Construct(Some(accNo));
      Success(Identity(AccessionState(made.0, made.1), shortCik.value, fileType, fileDate))
    case NoPath => Failure(TypeError)
  }

  // ---------------------------------------------------------------------------
  // Reading the detail page

  /** The first href without the inline viewer's prefix: the text after "/ix?doc=", when that occurs. */
  function WithoutViewerPrefix(h: string): (r: string)
    ensures !Contains(h, "/ix?doc=") ==> r == h
    ensures Contains(h, "/ix?doc=") ==> !Contains(r, "/ix?doc=") && StartsWith(After(h, "/ix?doc=").value, r)
    ensures Contains(h, "/ix?doc=") ==> var rest := After(h, "/ix?doc=").value;
      |r| == |rest| || OccursAt(rest, "/ix?doc=", |r|)
  {
    match SecondPiece(h, "/ix?doc=")
    case None => h
    case Some(t) => t
  }

  /** `ref.split('.')[1]`: the text between the first and the second '.'; an IndexError without a '.'. */
  function Extension(ref: string): (r: Result<string>)
    ensures r.Failure? <==> '.' !in ref
    ensures r.Failure? ==> r.error == IndexError
    ensures r.Success? ==>
      var i := IndexOf(ref, '.').value;
      && '.' !in r.value && StartsWith(ref[i + 1..], r.value)
      && (i + 1 + |r.value| == |ref| || ref[i + 1 + |r.value|] == '.')
  {
    match IndexOf(ref, '.')
    case None => Failure(IndexError)
    case Some(i) =>
      var rest := ref[i + 1..];
      match IndexOf(rest, '.')
      case None => Success(rest)
      case Some(j) => Success(rest[..j])
  }

  /** The extension of every href, in order; the first href without a '.' raises IndexError. */
  function Extensions(hrefs: seq<string>): (r: Result<seq<string>>)
    ensures r.Success? ==> |r.value| == |hrefs|
  {
    if hrefs == [] then Success([])
    else
      match Extension(hrefs[0])
      case Failure(e) => Failure(e)
      case Success(e) =>
        match Extensions(hrefs[1..])
        case Failure(err) => Failure(err)
        case Success(rest) => Success([e] + rest)
  }

  /** Extensions fails, with IndexError, exactly when some href has no '.'; otherwise it holds each href's extension. */
  lemma {:induction false} ExtensionsSpec(hrefs: seq<string>)
    ensures var r := Extensions(hrefs);
      && (r.Failure? <==> exists i :: 0 <= i < |hrefs| && '.' !in hrefs[i])
      && (r.Failure? ==> r.error == IndexError)
      && (r.Success? ==> forall i :: 0 <= i < |hrefs| ==> Extension(hrefs[i]) == Success(r.value[i]))
    decreases |hrefs|
  {
    if hrefs != [] {
      ExtensionsSpec(hrefs[1..]);
      assert forall i :: 1 <= i < |hrefs| ==> hrefs[i] == hrefs[1..][i - 1];
    }
  }

  /** The hrefs as the document table's URL column holds them: the first one without the viewer prefix. */
  function DocumentHrefs(hrefs: seq<string>): (r: seq<string>)
    requires hrefs != []
    ensures |r| == |hrefs| && r[0] == WithoutViewerPrefix(hrefs[0]) && r[1..] == hrefs[1..]
  {
    [WithoutViewerPrefix(hrefs[0])] + hrefs[1..]
  }

  /** The document made of a table row, its href and the page's period of report, not yet on disk. */
  predicate DescribesRow(d: DocumentMetadata, row: Row, href: string, reportDate: string)
  {
    && d.seqNo == row.seqNo && d.description == row.description && d.document == row.document
    && d.docType == row.docType && d.size == row.size
    && d.url == href && Extension(href) == Success(d.extension)
    && d.fsLocation.None? && d.reportDate == reportDate
  }

  /**
   * The documents of the detail page: one per table row, in order, with the row's
   * cells, the matching href as URL, its extension, no file-system location and
   * the page's period of report. No href is an IndexError; so is an href without
   * a '.'; a different number of hrefs and rows is a ValueError.
   */
  function DocumentsOf(page: DetailPage): (r: Result<seq<DocumentMetadata>>)
    ensures page.hrefs == [] ==> r == Failure(IndexError)
    ensures page.hrefs != [] ==>
      var hrefs := DocumentHrefs(page.hrefs);
      && (r.Failure? <==> Extensions(hrefs).Failure? || |hrefs| != |page.rows|)
      && (Extensions(hrefs).Failure? ==> r == Failure(IndexError))
      && (Extensions(hrefs).Success? && |hrefs| != |page.rows| ==> r == Failure(ValueError(LengthMismatch)))
      && (r.Success? ==> && |r.value| == |page.rows|
                         && forall i :: 0 <= i < |page.rows| ==> DescribesRow(r.value[i], page.rows[i], hrefs[i], page.reportDate))
  {
    if page.hrefs == [] then Failure(IndexError)
    else
      var hrefs := DocumentHrefs(page.hrefs);
      ExtensionsSpec(hrefs);
      var ext :- Extensions(hrefs);
      if |hrefs| != |page.rows| then Failure(ValueError(LengthMismatch))
      else
        Success(seq(|page.rows|, i requires 0 <= i < |page.rows| =>
          var row := page.rows[i];
          DocumentMetadata(row.seqNo, row.description, row.document, row.docType, row.size,
                           hrefs[i], ext[i], None, page.reportDate)))
  }

  /** The well-known documents a filing points at. */
  datatype Rule =
    | DetailDocument  // Type is a supported filing type
    | InstanceDocument  // Description contains "INSTANCE"
    | TextDocument  // Extension contains "txt"
    | Exhibit  // Type is "99.1"

  predicate Matches(d: DocumentMetadata, rule: Rule, supported: set<string>)
  {
    match rule
    case DetailDocument => d.docType.Some? && d.docType.value in supported
    case InstanceDocument => d.description.Some? && Contains(d.description.value, "INSTANCE")
    case TextDocument => Contains(d.extension, "txt")
    case Exhibit => d.docType == Some("99.1")
  }

  /** The position of the first document the rule picks, if any. */
  function FirstMatch(docs: seq<DocumentMetadata>, rule: Rule, supported: set<string>): (r: Option<nat>)
    ensures r.Some? ==> r.value < |docs|
  {
    if docs == [] then None
    else if Matches(docs[0], rule, supported) then Some(0)
    else
      match FirstMatch(docs[1..], rule, supported)
      case None => None
      case Some(i) => Some(i + 1)
  }

  /** FirstMatch finds a matching row with no match before it, and None only when no row matches. */
  lemma {:induction false} FirstMatchSpec(docs: seq<DocumentMetadata>, rule: Rule, supported: set<string>)
    ensures var r := FirstMatch(docs, rule, supported);
      && (r.None? <==> forall j :: 0 <= j < |docs| ==> !Matches(docs[j], rule, supported))
      && (r.Some? ==> Matches(docs[r.value], rule, supported))
      && (r.Some? ==> forall j :: 0 <= j < r.value ==> !Matches(docs[j], rule, supported))
    decreases |docs|
  {
    if docs != [] && !Matches(docs[0], rule, supported) {
      FirstMatchSpec(docs[1..], rule, supported);
      assert forall j :: 1 <= j < |docs| ==> docs[j] == docs[1..][j - 1];
    }
  }

  /** The absolute URL of the first document the rule picks; None when no row matches. */
  function DocumentUrl(docs: seq<DocumentMetadata>, rule: Rule, supported: set<string>): Option<string>
  {
    match FirstMatch(docs, rule, supported)
    case None => None
    case Some(i) => Some(SecBaseUrl + docs[i].url)
  }

  /**
   * A URL chosen by first match: None exactly when no row matches; otherwise the
   * absolute URL of a matching row with no match before it.
   */
  predicate PicksFirstMatch(u: Option<string>, docs: seq<DocumentMetadata>, rule: Rule, supported: set<string>)
  {
    && (u.None? <==> forall j :: 0 <= j < |docs| ==> !Matches(docs[j], rule, supported))
    && (u.Some? ==> exists j :: && 0 <= j < |docs| && Matches(docs[j], rule, supported)
                                && u.value == SecBaseUrl + docs[j].url
                                && (forall k :: 0 <= k < j ==> !Matches(docs[k], rule, supported)))
  }

  lemma DocumentUrlSpec(docs: seq<DocumentMetadata>, rule: Rule, supported: set<string>)
    ensures PicksFirstMatch(DocumentUrl(docs, rule, supported), docs, rule, supported)
  {
    FirstMatchSpec(docs, rule, supported);
    var m := FirstMatch(docs, rule, supported);
    if m.Some? {
      var j := m.value;
      assert DocumentUrl(docs, rule, supported).value == SecBaseUrl + docs[j].url;
    }
  }

  /** The archive folder of a filing: the archives base URL, the short CIK and the accession number without dashes. */
  function FolderUrl(c: Constants, shortCik: string, nodash: string): string
  {
    c.archivesBaseUrl + "/" + shortCik + "/" + nodash
  }

  /** `_url_filing_document` and `_url_filing_detail_page`: a file in the filing's archive folder. */
  function ArchiveUrl(c: Constants, shortCik: string, nodash: string, file: string): string
  {
    FolderUrl(c, shortCik, nodash) + "/" + file
  }

  /** The last '/'-piece of a folder URL is the accession number without dashes, when that holds no '/'. */
  lemma FolderEndsWithAccession(c: Constants, shortCik: string, nodash: string)
    requires '/' !in nodash
    ensures LastPiece(FolderUrl(c, shortCik, nodash), '/') == nodash
  {
    var front := c.archivesBaseUrl + "/" + shortCik;
    assert FolderUrl(c, shortCik, nodash) == front + ['/'] + nodash;
    SplitConcat(front, nodash, '/');
  }

  // ---------------------------------------------------------------------------
  // The object's state

  /** Every attribute of a `Filing`; the accession number object is represented by its state. */
  datatype FilingState = FilingState(
    accession: AccessionState,
    shortCik: string,
    fileType: Option<string>,
    fileDate: Option<string>,
    reportDate: Option<string>,
    documentMetadataList: seq<DocumentMetadata>,
    filingDetailsFilename: Option<string>,
    fullSubmissionUrl: Option<string>,
    filingDetailsUrl: Option<string>,
    filingDetailPageUrl: Option<string>,
    xlsxFinancialReportUrl: Option<string>,
    htmlExhibitsUrl: Option<string>,
    xbrlInstanceDocUrl: Option<string>,
    zipCompressedFileUrl: Option<string>)

  /** The attributes `__init__` provisions once the identity is resolved: no report date, no documents, no URLs. */
  function Provision(id: Identity): FilingState
  {
    FilingState(id.accession, id.shortCik, id.fileType, id.fileDate, None, [], None, None, None, None, None, None, None, None)
  }

  /** A value read from the detail page is taken only where the attribute is still None. */
  function FillIn(current: Option<string>, fromPage: string): (r: Option<string>)
    ensures r.Some?
    ensures current.Some? ==> r == current
    ensures current.None? ==> r == Some(fromPage)
  {
    if current.None? then Some(fromPage) else current
  }

  /** The state after the detail page's type and dates have been filled in. */
  function Filled(st: FilingState, page: DetailPage): FilingState
  {
    st.(fileType := FillIn(st.fileType, page.fileType),
        fileDate := FillIn(st.fileDate, page.fileDate),
        reportDate := FillIn(st.reportDate, page.reportDate))
  }

  /**
   * The state once the detail page's documents are read: they are appended, and
   * the four well-known document URLs are chosen by first match.
   */
  function WithDocuments(st: FilingState, docs: seq<DocumentMetadata>, supported: set<string>): FilingState
  {
    st.(documentMetadataList := st.documentMetadataList + docs,
        filingDetailsFilename := None,
        fullSubmissionUrl := DocumentUrl(docs, TextDocument, supported),
        filingDetailsUrl := DocumentUrl(docs, DetailDocument, supported),
        htmlExhibitsUrl := DocumentUrl(docs, Exhibit, supported),
        xbrlInstanceDocUrl := DocumentUrl(docs, InstanceDocument, supported))
  }

  /** The detail-page, xlsx and zip URLs: files in the filing's archive folder. */
  function WithArchiveUrls(st: FilingState, c: Constants, acc: string, nodash: string): FilingState
  {
    st.(filingDetailPageUrl := Some(ArchiveUrl(c, st.shortCik, nodash, acc + "-index.htm")),
        xlsxFinancialReportUrl := Some(ArchiveUrl(c, st.shortCik, nodash, "Financial_Report.xlsx")),
        zipCompressedFileUrl := Some(ArchiveUrl(c, st.shortCik, nodash, acc + "-xbrl.zip")))
  }

  /** Both steps, for the accession string `acc`. */
  function Loaded(st: FilingState, docs: seq<DocumentMetadata>, c: Constants, acc: string): FilingState
  {
    WithArchiveUrls(WithDocuments(st, docs, c.supportedFilings), c, acc, NoDash(acc))
  }

  /**
   * `_get_filing_documents` once the detail page has answered: the page's type and
   * dates fill the attributes still None, then its documents are loaded. An
   * accession number object whose string is None raises AttributeError before
   * anything changes; unusable rows or hrefs raise what DocumentsOf says.
   */
  function ReadDetailPage(st: FilingState, c: Constants, page: DetailPage): (r: Result<FilingState>)
    ensures st.accession.accessionNumber.None? ==> r == Failure(AttributeError)
    ensures st.accession.accessionNumber.Some? ==> (r.Success? <==> DocumentsOf(page).Success?)
    ensures r.Failure? && st.accession.accessionNumber.Some? ==> r.error == DocumentsOf(page).error
    ensures r.Success? ==> r.value == Loaded(Filled(st, page), DocumentsOf(page).value, c, st.accession.accessionNumber.value)
    ensures r.Success? ==>
      && r.value.accession == st.accession && r.value.shortCik == st.shortCik
      && r.value.fileType.Some? && r.value.fileDate.Some? && r.value.reportDate.Some?
      && (st.fileType.Some? ==> r.value.fileType == st.fileType)
      && (st.fileDate.Some? ==> r.value.fileDate == st.fileDate)
      && (st.reportDate.Some? ==> r.value.reportDate == st.reportDate)
      && r.value.documentMetadataList == st.documentMetadataList + DocumentsOf(page).value
    ensures r.Success? ==>
      var docs, supported := DocumentsOf(page).value, c.supportedFilings;
      && PicksFirstMatch(r.value.fullSubmissionUrl, docs, TextDocument, supported)
      && PicksFirstMatch(r.value.filingDetailsUrl, docs, DetailDocument, supported)
      && PicksFirstMatch(r.value.htmlExhibitsUrl, docs, Exhibit, supported)
      && PicksFirstMatch(r.value.xbrlInstanceDocUrl, docs, InstanceDocument, supported)
  {
    match st.accession.accessionNumber
    case None => Failure(AttributeError)
    case Some(acc) =>
      var docs :- DocumentsOf(page);
      DocumentUrlSpec(docs, TextDocument, c.supportedFilings);
      DocumentUrlSpec(docs, DetailDocument, c.supportedFilings);
      DocumentUrlSpec(docs, Exhibit, c.supportedFilings);
      DocumentUrlSpec(docs, InstanceDocument, c.supportedFilings);
      Success(Loaded(Filled(st, page), docs, c, acc))
  }

  /** Everything `Filing(...)` does once the services have answered: the object's state or the exception. */
  function Build(acc: Option<AccessionState>, shortCik: Option<string>, fileType: Option<string>, fileDate: Option<string>,
                 c: Constants, hits: seq<SearchHit>, browseText: string, page: DetailPage): (r: Result<FilingState>)
    ensures Identify(acc, shortCik, fileType, fileDate, hits, browseText).Failure? ==>
      r == Failure(Identify(acc, shortCik, fileType, fileDate, hits, browseText).error)
    ensures Identify(acc, shortCik, fileType, fileDate, hits, browseText).Success? ==>
      r == ReadDetailPage(Provision(Identify(acc, shortCik, fileType, fileDate, hits, browseText).value), c, page)
    ensures r.Success? ==>
      var id := Identify(acc, shortCik, fileType, fileDate, hits, browseText).value;
      && r.value.accession == id.accession && r.value.shortCik == id.shortCik
      && r.value.fileType.Some? && r.value.fileDate.Some?
      && r.value.reportDate == Some(page.reportDate)
      && r.value.documentMetadataList == DocumentsOf(page).value
    ensures r.Success? && acc.None? ==>
      && Valid(r.value.accession.components)
      && r.value.accession.accessionNumber == Some(AccNoFromBrowse(browseText).value)
  {
    var id :- Identify(acc, shortCik, fileType, fileDate, hits, browseText);
    ReadDetailPage(Provision(id), c, page)
  }

  // ---------------------------------------------------------------------------
  // Keys and records

  /** `create_key`'s result: the short CIK and the accession string joined by '|'. */
  function Key(shortCik: string, accessionString: string): (k: string)
    ensures |k| == |shortCik| + 1 + |accessionString|
    ensures '|' !in shortCik && '|' !in accessionString ==> Split(k, '|') == [shortCik, accessionString]
  {
    var k := shortCik + "|" + accessionString;
    assert '|' !in shortCik && '|' !in accessionString ==> Split(k, '|') == [shortCik, accessionString] by {
      if '|' !in shortCik && '|' !in accessionString {
        assert k == shortCik + ['|'] + accessionString;
        SplitTwo(shortCik, accessionString, '|');
      }
    }
    k
  }

  /** The key of Apple's 2016 annual report, and the two pieces it splits back into. */
  lemma KeyExample()
    ensures Key("320193", "0001628280-16-020309") == "320193|0001628280-16-020309"
    ensures Split(Key("320193", "0001628280-16-020309"), '|') == ["320193", "0001628280-16-020309"]
  {
    var a, b := "320193", "0001628280-16-020309";
    assert Key(a, b) == a + "|" + b;
    assert a + "|" + b == "320193|0001628280-16-020309";
    assert '|' !in a && '|' !in b;
  }

  /** `get_file_record`: the attributes whose names contain no "url", and the set of document types. */
  datatype FileRecord = FileRecord(
    accessionNumber: string,
    shortCik: string,
    fileType: Option<string>,
    fileDate: Option<string>,
    reportDate: Option<string>,
    filingDetailsFilename: Option<string>,
    docTypes: set<Option<string>>)

  function Record(st: FilingState): (rec: FileRecord)
    ensures rec.accessionNumber == AccessionString(st.accession.accessionNumber) && rec.shortCik == st.shortCik
    ensures rec.fileType == st.fileType && rec.fileDate == st.fileDate && rec.reportDate == st.reportDate
    ensures rec.filingDetailsFilename == st.filingDetailsFilename
    ensures forall d :: d in st.documentMetadataList ==> d.docType in rec.docTypes
    ensures forall t :: t in rec.docTypes ==> exists d :: d in st.documentMetadataList && d.docType == t
  {
    FileRecord(AccessionString(st.accession.accessionNumber), st.shortCik, st.fileType, st.fileDate, st.reportDate,
               st.filingDetailsFilename, set d | d in st.documentMetadataList :: d.docType)
  }

  // ---------------------------------------------------------------------------
  // The object

  class Filing {
    var accessionNumber: AccessionNumber
    var shortCik: string
    var fileType: Option<string>
    var fileDate: Option<string>
    var reportDate: Option<string>
    var documentMetadataList: seq<DocumentMetadata>
    var filingDetailsFilename: Option<string>
    var fullSubmissionUrl: Option<string>
    var filingDetailsUrl: Option<string>
    var filingDetailPageUrl: Option<string>
    var xlsxFinancialReportUrl: Option<string>
    var htmlExhibitsUrl: Option<string>
    var xbrlInstanceDocUrl: Option<string>
    var zipCompressedFileUrl: Option<string>

    /** The identity attributes of one constructor branch, followed by the provisioned ones. */
    constructor Init(id: Identity, a: AccessionNumber)
      requires a.State() == id.accession
      ensures accessionNumber == a && State() == Provision(id)
    {
      accessionNumber, shortCik, fileType, fileDate := a, id.shortCik, id.fileType, id.fileDate;
      reportDate, documentMetadataList, filingDetailsFilename := None, [], None;
      fullSubmissionUrl, filingDetailsUrl, filingDetailPageUrl, xlsxFinancialReportUrl := None, None, None, None;
      htmlExhibitsUrl, xbrlInstanceDocUrl, zipCompressedFileUrl := None, None, None;
    }

    function State(): FilingState
      reads this, accessionNumber
    {
      FilingState(accessionNumber.State(), shortCik, fileType, fileDate, reportDate, documentMetadataList,
                  filingDetailsFilename, fullSubmissionUrl, filingDetailsUrl, filingDetailPageUrl,
                  xlsxFinancialReportUrl, htmlExhibitsUrl, xbrlInstanceDocUrl, zipCompressedFileUrl)
    }

    /**
     * `_get_filing_documents`: updates the attributes as ReadDetailPage describes.
     * When the page's rows or hrefs are unusable, the type and dates are already
     * filled in and nothing else has changed.
     */
    method GetFilingDocuments(c: Constants, page: DetailPage) returns (o: Outcome)
      modifies this
      ensures accessionNumber == old(accessionNumber)
      ensures old(accessionNumber.accessionNumber).None? ==> o == Fail(AttributeError) && State() == old(State())
      ensures old(accessionNumber.accessionNumber).Some? ==>
        && (o.Pass? <==> DocumentsOf(page).Success?)
        && (o.Fail? ==> o.error == DocumentsOf(page).error && State() == Filled(old(State()), page))
        && (o.Pass? ==> State() == Loaded(Filled(old(State()), page), DocumentsOf(page).value, c, old(accessionNumber.accessionNumber).value))
    {
      var nodash := accessionNumber.GetNodashAccessionNumber();
      if nodash.Failure? {
        return Fail(nodash.error);
      }
      var acc := accessionNumber.GetAccessionNumberString();
      FillFromPage(page);
      var docs := DocumentsOf(page);
      if docs.Failure? {
        return Fail(docs.error);
      }
      LoadDocuments(docs.value, c, acc, nodash.value);
      o := Pass;
    }

    /** The documents, then the archive URLs, once the page's rows are read. */
    method LoadDocuments(docs: seq<DocumentMetadata>, c: Constants, acc: string, nodash: string)
      modifies this`documentMetadataList, this`filingDetailsFilename, this`fullSubmissionUrl, this`filingDetailsUrl
      modifies this`htmlExhibitsUrl, this`xbrlInstanceDocUrl
      modifies this`filingDetailPageUrl, this`xlsxFinancialReportUrl, this`zipCompressedFileUrl
      ensures State() == WithArchiveUrls(WithDocuments(old(State()), docs, c.supportedFilings), c, acc, nodash)
    {
      ghost var before := State();
      AppendDocuments(docs, c.supportedFilings);
      ghost var appended := State();
      assert appended == WithDocuments(before, docs, c.supportedFilings);
      SetArchiveUrls(c, acc, nodash);
    }

    /** The part of `_get_filing_documents` that takes the page's type and dates where the attributes are None. */
    method FillFromPage(page: DetailPage)
      modifies this
      ensures accessionNumber == old(accessionNumber)
      ensures State() == Filled(old(State()), page)
    {
      fileType := FillIn(fileType, page.fileType);
      fileDate := FillIn(fileDate, page.fileDate);
      reportDate := FillIn(reportDate, page.reportDate);
    }

    /** The part of `_get_filing_documents` that appends the documents and picks the first-match URLs. */
    method AppendDocuments(docs: seq<DocumentMetadata>, supported: set<string>)
      modifies this`documentMetadataList, this`filingDetailsFilename, this`fullSubmissionUrl, this`filingDetailsUrl
      modifies this`htmlExhibitsUrl, this`xbrlInstanceDocUrl
      ensures documentMetadataList == old(documentMetadataList) + docs && filingDetailsFilename.None?
      ensures fullSubmissionUrl == DocumentUrl(docs, TextDocument, supported)
      ensures filingDetailsUrl == DocumentUrl(docs, DetailDocument, supported)
      ensures htmlExhibitsUrl == DocumentUrl(docs, Exhibit, supported)
      ensures xbrlInstanceDocUrl == DocumentUrl(docs, InstanceDocument, supported)
    {
      documentMetadataList, filingDetailsFilename := documentMetadataList + docs, None;
      fullSubmissionUrl := DocumentUrl(docs, TextDocument, supported);
      filingDetailsUrl := DocumentUrl(docs, DetailDocument, supported);
      htmlExhibitsUrl := DocumentUrl(docs, Exhibit, supported);
      xbrlInstanceDocUrl := DocumentUrl(docs, InstanceDocument, supported);
    }

    /** The part of `_get_filing_documents` that sets the URLs of files in the filing's archive folder. */
    method SetArchiveUrls(c: Constants, acc: string, nodash: string)
      modifies this`filingDetailPageUrl, this`xlsxFinancialReportUrl, this`zipCompressedFileUrl
      ensures filingDetailPageUrl == Some(ArchiveUrl(c, shortCik, nodash, acc + "-index.htm"))
      ensures xlsxFinancialReportUrl == Some(ArchiveUrl(c, shortCik, nodash, "Financial_Report.xlsx"))
      ensures zipCompressedFileUrl == Some(ArchiveUrl(c, shortCik, nodash, acc + "-xbrl.zip"))
    {
      var pageUrl := ArchiveUrl(c, shortCik, nodash, acc + "-index.htm");
      var xlsxUrl := ArchiveUrl(c, shortCik, nodash, "Financial_Report.xlsx");
      var zipUrl := ArchiveUrl(c, shortCik, nodash, acc + "-xbrl.zip");
      filingDetailPageUrl, xlsxFinancialReportUrl, zipCompressedFileUrl := Some(pageUrl), Some(xlsxUrl), Some(zipUrl);
    }

    /**
     * The three branches of the constructor up to the detail page: the accession
     * number object the filing keeps (the one passed in, or a new one built from
     * the browse page) and the identity it resolves.
     */
    static method ResolveIdentity(acc: Option<AccessionNumber>, shortCik: Option<string>, fileType: Option<string>,
                                  fileDate: Option<string>, hits: seq<SearchHit>, browseText: string)
      returns (r: Result<(AccessionNumber, Identity)>)
      ensures var spec := Identify(if acc.Some? then Some(acc.value.State()) else None, shortCik, fileType, fileDate, hits, browseText);
        && (r.Success? <==> spec.Success?)
        && (r.Failure? ==> r.error == spec.error)
        && (r.Success? ==> r.value.1 == spec.value && r.value.0.State() == r.value.1.accession)
      ensures r.Success? && acc.Some? ==> r.value.0 == acc.value
      ensures r.Success? && acc.None? ==> fresh(r.value.0)
    {
      var path := Dispatch(acc.Some?, shortCik, fileType, fileDate);
      match path {
        case AllGiven =>
          r := Success((acc.value, Identity(acc.value.State(), shortCik.value, fileType, fileDate)));
        case ByAccession =>
          var details := FilingDetails(hits);
          if details.Failure? {
            return Failure(details.error);
          }
          r := Success((acc.value, Identity(acc.value.State(), details.value.0, details.value.1, details.value.2)));
        case ByFirmTypeDate =>
          var accNo := AccNoFromBrowse(browseText);
          if accNo.Failure? {
            return Failure(accNo.error);
          }
          var made := AccessionNumber.New(Some(accNo.value));
          if made.Failure? {
            return Failure(made.error);
          }
          r := Success((made.value, Identity(made.value.State(), shortCik.value, fileType, fileDate)));
        case NoPath =>
          r := Failure(TypeError);
      }
    }

    /**
     * `Filing(accession_number, short_cik, file_type, file_date)`: the new object's
     * state is what Build describes. An accession number object passed in is kept
     * (not copied); without one, a new accession number object is made.
     */
    static method New(acc: Option<AccessionNumber>, shortCik: Option<string>, fileType: Option<string>, fileDate: Option<string>,
                      c: Constants, hits: seq<SearchHit>, browseText: string, page: DetailPage) returns (r: Result<Filing>)
      ensures var spec := Build(if acc.Some? then Some(acc.value.State()) else None, shortCik, fileType, fileDate, c, hits, browseText, page);
        && (r.Success? <==> spec.Success?)
        && (r.Failure? ==> r.error == spec.error)
        && (r.Success? ==> fresh(r.value) && r.value.State() == spec.value)
      ensures r.Success? && acc.Some? ==> r.value.accessionNumber == acc.value
      ensures r.Success? && acc.None? ==> fresh(r.value.accessionNumber)
    {
      var resolved := ResolveIdentity(acc, shortCik, fileType, fileDate, hits, browseText);
      if resolved.Failure? {
        return Failure(resolved.error);
      }
      var (a, id) := resolved.value;
      r := Provisioned(id, a, c, page);
    }

    /** A new filing with the resolved identity, completed from its detail page. */
    static method Provisioned(id: Identity, a: AccessionNumber, c: Constants, page: DetailPage) returns (r: Result<Filing>)
      requires a.State() == id.accession
      ensures var spec := ReadDetailPage(Provision(id), c, page);
        && (r.Success? <==> spec.Success?)
        && (r.Failure? ==> r.error == spec.error)
        && (r.Success? ==> fresh(r.value) && r.value.State() == spec.value && r.value.accessionNumber == a)
    {
      var f := new Filing.Init(id, a);
      var o := f.GetFilingDocuments(c, page);
      if o.Fail? {
        return Failure(o.error);
      }
      r := Success(f);
    }

    /**
     * `create_key`: a key from the given short CIK and accession number, or, unless
     * both are given, from the object's own.
     */
    function CreateKey(cik: Option<string>, acc: Option<AccessionNumber>): (k: string)
      reads this, accessionNumber, if acc.Some? then {acc.value} else {}
      ensures cik.None? || acc.None? ==> k == Key(shortCik, AccessionString(accessionNumber.accessionNumber))
      ensures cik.Some? && acc.Some? ==> k == Key(cik.value, AccessionString(acc.value.accessionNumber))
    {
      if cik.None? || acc.None? then Key(shortCik, accessionNumber.GetAccessionNumberString())
      else Key(cik.value, acc.value.GetAccessionNumberString())
    }

    /** `get_file_record`. */
    function GetFileRecord(): (rec: FileRecord)
      reads this, accessionNumber
      ensures rec == Record(State())
    {
      Record(State())
    }
  }

  // ---------------------------------------------------------------------------
  // Properties

  /** On the accession branch a short CIK passed in is ignored: the search's answer replaces it. */
  lemma PassedCikIgnored(acc: AccessionState, cik1: Option<string>, cik2: Option<string>, fileType: Option<string>, fileDate: Option<string>,
                         c: Constants, hits: seq<SearchHit>, browseText: string, page: DetailPage)
    requires !Given(fileType) || !Given(fileDate)
    ensures Build(Some(acc), cik1, fileType, fileDate, c, hits, browseText, page)
         == Build(Some(acc), cik2, fileType, fileDate, c, hits, browseText, page)
  {
  }

  /** With all four arguments given nothing is looked up: the services' answers other than the detail page do not matter. */
  lemma AllGivenStoresArguments(acc: AccessionState, shortCik: string, fileType: string, fileDate: string,
                                c: Constants, hits1: seq<SearchHit>, hits2: seq<SearchHit>, text1: string, text2: string, page: DetailPage)
    requires shortCik != [] && fileType != [] && fileDate != []
    ensures var r := Build(Some(acc), Some(shortCik), Some(fileType), Some(fileDate), c, hits1, text1, page);
      && r == Build(Some(acc), Some(shortCik), Some(fileType), Some(fileDate), c, hits2, text2, page)
      && (r.Success? ==> r.value.accession == acc && r.value.shortCik == shortCik)
      && (r.Success? ==> r.value.fileType == Some(fileType) && r.value.fileDate == Some(fileDate))
  {
  }

  /** A filing built from nothing usable is a TypeError, whatever the services would answer. */
  lemma NothingGivenIsTypeError(shortCik: Option<string>, fileType: Option<string>, fileDate: Option<string>,
                                c: Constants, hits: seq<SearchHit>, browseText: string, page: DetailPage)
    requires !(Given(shortCik) && Given(fileType) && Given(fileDate))
    ensures Build(None, shortCik, fileType, fileDate, c, hits, browseText, page) == Failure(TypeError)
  {
  }

  /**
   * The period of report always comes from the detail page, and the zip, xlsx and
   * detail-page URLs all name files in the same archive folder, whose last piece
   * is the accession number without dashes.
   */
  lemma BuiltUrls(acc: Option<AccessionState>, shortCik: Option<string>, fileType: Option<string>, fileDate: Option<string>,
                  c: Constants, hits: seq<SearchHit>, browseText: string, page: DetailPage)
    requires Build(acc, shortCik, fileType, fileDate, c, hits, browseText, page).Success?
    ensures var st := Build(acc, shortCik, fileType, fileDate, c, hits, browseText, page).value;
      var a := st.accession.accessionNumber.value;
      var dir := FolderUrl(c, st.shortCik, NoDash(a));
      && st.reportDate == Some(page.reportDate)
      && st.documentMetadataList == DocumentsOf(page).value
      && st.zipCompressedFileUrl == Some(dir + "/" + (a + "-xbrl.zip"))
      && st.xlsxFinancialReportUrl == Some(dir + "/" + "Financial_Report.xlsx")
      && st.filingDetailPageUrl == Some(dir + "/" + (a + "-index.htm"))
      && ('/' !in NoDash(a) ==> LastPiece(dir, '/') == NoDash(a))
  {
    var id := Identify(acc, shortCik, fileType, fileDate, hits, browseText).value;
    var pre := Provision(id);
    var a := pre.accession.accessionNumber.value;
    var docs := DocumentsOf(page).value;
    assert Build(acc, shortCik, fileType, fileDate, c, hits, browseText, page).value == Loaded(Filled(pre, page), docs, c, a);
    assert [] + docs == docs;
    if '/' !in NoDash(a) {
      FolderEndsWithAccession(c, pre.shortCik, NoDash(a));
    }
  }
}
