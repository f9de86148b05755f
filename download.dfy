/**
 * `download_urls` of _utils.py: the pass over a list of (key, document) pairs
 * that fetches every document not yet on disk and sorts each one into the
 * new, previous or fail list. The network, the file write and the filing
 * storage are inputs: `fetch` says how the request for a URL ends (the body
 * written to disk, an HTTP error, or another exception), and `update` how
 * `modify_document_in_record` ends.
 */
module Download {
  import opened Wrappers
  import opened Strings
  import opened EdgarConstants
  import opened Filings

  /** A document's entry: the key `cik|acc_no|doc_seq` and the document. */
  datatype Entry = Entry(key: string, doc: DocumentMetadata)

  /** The dictionary `download_urls` returns: its 'new', 'previous' and 'fail' lists. */
  datatype Sorted = Sorted(downloaded: seq<DocumentMetadata>, previous: seq<DocumentMetadata>,
                           failed: seq<DocumentMetadata>)

  /** The list a document lands in: 'new', 'previous' or 'fail'. */
  datatype Kind = NewDoc | PreviousDoc | FailDoc

  /** What became of one document: its list and the document as it is put there. */
  datatype Fate = Fate(kind: Kind, doc: DocumentMetadata)

  /** The handling of one entry: its fate or the exception that ends the pass, and the URLs requested for it. */
  datatype Step = Step(fate: Result<Fate>, requested: seq<string>)

  /** The handling of a list of entries: the fates in order or the exception, and every URL requested. */
  datatype Run = Run(fates: Result<seq<Fate>>, requested: seq<string>)

  /** The document's URL on the SEC host. */
  function DocumentAddress(doc: DocumentMetadata): (u: string)
    ensures u == SecBaseUrl + doc.url && |u| == |SecBaseUrl| + |doc.url|
  {
    SecBaseUrl + doc.url
  }

  /** Where a fetched document is written: `download_folder / ROOT_SAVE_FOLDER_NAME / cik / acc_no / Document`. */
  function SavePath(c: Constants, folder: string, cik: string, accNo: string, doc: DocumentMetadata): (p: string)
  {
    PathJoin([folder, c.rootSaveFolderName, cik, accNo, doc.document])
  }

  /** The saved file carries the document's own name, whatever the folder and key hold. */
  lemma SavePathName(c: Constants, folder: string, cik: string, accNo: string, doc: DocumentMetadata)
    requires '/' !in doc.document
    ensures LastPiece(SavePath(c, folder, cik, accNo, doc), '/') == doc.document
  {
    LastPieceOfJoin([folder, c.rootSaveFolderName, cik, accNo, doc.document], '/');
  }

  /**
   * One pass of the loop. A key that does not split into three '|'-pieces is a
   * ValueError before anything else. A document with a file-system location is
   * kept as it is and nothing is requested. Otherwise its URL is requested: an
   * HTTP error marks it failed; any other exception ends the pass. A fetched
   * document is written and the storage updated inside the same `try`: when the
   * update succeeds the document comes back with its save path as location, an
   * HTTP error of the update marks it failed, and any other exception ends the pass.
   */
  function Handle(c: Constants, folder: string, e: Entry, fetch: string -> Outcome,
                  update: (string, DocumentMetadata, DocumentMetadata) -> Outcome): (s: Step)
    ensures |Split(e.key, '|')| != 3 ==> s == Step(Failure(ValueError(UnpackMismatch)), [])
    ensures |Split(e.key, '|')| == 3 && e.doc.fsLocation.Some? ==> s == Step(Success(Fate(PreviousDoc, e.doc)), [])
    ensures |Split(e.key, '|')| == 3 && e.doc.fsLocation.None? ==> s.requested == [DocumentAddress(e.doc)]
    ensures (|Split(e.key, '|')| == 3 && e.doc.fsLocation.None? && fetch(DocumentAddress(e.doc)).Fail?) ==>
      s.fate == if fetch(DocumentAddress(e.doc)).error == HttpError then Success(Fate(FailDoc, e.doc))
                else Failure(fetch(DocumentAddress(e.doc)).error)
    ensures (|Split(e.key, '|')| == 3 && e.doc.fsLocation.None? && fetch(DocumentAddress(e.doc)).Pass?) ==>
      var parts := Split(e.key, '|');
      var newDoc := e.doc.(fsLocation := Some(SavePath(c, folder, parts[0], parts[1], e.doc)));
      var stored := update(parts[0] + "|" + parts[1], e.doc, newDoc);
      s.fate == if stored.Pass? then Success(Fate(NewDoc, newDoc))
                else if stored.error == HttpError then Success(Fate(FailDoc, e.doc))
                else Failure(stored.error)
    ensures s.fate.Success? && s.fate.value.kind == NewDoc ==>
      var parts := Split(e.key, '|');
      && e.doc.fsLocation.None? && fetch(DocumentAddress(e.doc)).Pass?
      && s.fate.value.doc == e.doc.(fsLocation := Some(SavePath(c, folder, parts[0], parts[1], e.doc)))
      && update(parts[0] + "|" + parts[1], e.doc, s.fate.value.doc).Pass?
    ensures s.fate.Success? ==> s.fate.value.doc.(fsLocation := e.doc.fsLocation) == e.doc
  {
    var parts := Split(e.key, '|');
    if |parts| != 3 then Step(Failure(ValueError(UnpackMismatch)), [])
    else if e.doc.fsLocation.Some? then Step(Success(Fate(PreviousDoc, e.doc)), [])
    else
      var url := DocumentAddress(e.doc);
      match fetch(url)
      case Fail(err) => if err == HttpError then Step(Success(Fate(FailDoc, e.doc)), [url]) else Step(Failure(err), [url])
      case Pass =>
        var newDoc := e.doc.(fsLocation := Some(SavePath(c, folder, parts[0], parts[1], e.doc)));
        match update(parts[0] + "|" + parts[1], e.doc, newDoc)
        case Fail(err) => if err == HttpError then Step(Success(Fate(FailDoc, e.doc)), [url]) else Step(Failure(err), [url])
        case Pass => Step(Success(Fate(NewDoc, newDoc)), [url])
  }

  /** The fates already settled in front of a run, and the URLs requested for them. */
  function After(done: seq<Fate>, asked: seq<string>, rest: Run): Run
  {
    Run(match rest.fates
        case Success(more) => Success(done + more)
        case Failure(err) => Failure(err),
        asked + rest.requested)
  }

  /** The loop over the entries, in order, up to the first exception. */
  function HandleAll(c: Constants, folder: string, entries: seq<Entry>, fetch: string -> Outcome,
                     update: (string, DocumentMetadata, DocumentMetadata) -> Outcome): (r: Run)
    ensures r.fates.Success? ==> |r.fates.value| == |entries|
    decreases |entries|
  {
    if entries == [] then Run(Success([]), [])
    else
      var s := Handle(c, folder, entries[0], fetch, update);
      match s.fate
      case Failure(err) => Run(Failure(err), s.requested)
      case Success(f) => After([f], s.requested, HandleAll(c, folder, entries[1..], fetch, update))
  }

  /** The documents of the fates of one kind, in order. */
  function DocsOf(fates: seq<Fate>, k: Kind): (r: seq<DocumentMetadata>)
    ensures |r| <= |fates|
  {
    if fates == [] then []
    else if fates[0].kind == k then [fates[0].doc] + DocsOf(fates[1..], k)
    else DocsOf(fates[1..], k)
  }

  /** The three lists the fates fill, each in the order of the entries. */
  function SortFates(fates: seq<Fate>): (s: Sorted)
  {
    Sorted(DocsOf(fates, NewDoc), DocsOf(fates, PreviousDoc), DocsOf(fates, FailDoc))
  }

  /** One more fate adds its document to the end of its own list and to no other. */
  lemma DocsOfAppend(fates: seq<Fate>, f: Fate, k: Kind)
    ensures DocsOf(fates + [f], k) == DocsOf(fates, k) + (if f.kind == k then [f.doc] else [])
  {
    DocsOfConcat(fates, [f], k);
  }

  /** Every fate lands in exactly one of the three lists. */
  lemma {:induction false} SortedSizes(fates: seq<Fate>)
    ensures var s := SortFates(fates); |s.downloaded| + |s.previous| + |s.failed| == |fates|
  {
    if fates != [] {
      SortedSizes(fates[1..]);
    }
  }

  /** `download_urls`: the three lists, or the exception that ends the pass. */
  function DownloadResult(c: Constants, folder: string, entries: seq<Entry>, fetch: string -> Outcome,
                          update: (string, DocumentMetadata, DocumentMetadata) -> Outcome): (r: Result<Sorted>)
    ensures r.Success? <==> HandleAll(c, folder, entries, fetch, update).fates.Success?
    ensures r.Success? ==> r.value == SortFates(HandleAll(c, folder, entries, fetch, update).fates.value)
    ensures r.Failure? ==> r.error == HandleAll(c, folder, entries, fetch, update).fates.error
    ensures r.Success? ==>
      && |r.value.downloaded| + |r.value.previous| + |r.value.failed| == |entries|
      && r.value.previous == OnDisk(entries)
      && (forall d :: d in r.value.downloaded ==> d.fsLocation.Some?)
  {
    match HandleAll(c, folder, entries, fetch, update).fates
    case Success(fates) =>
      EveryDocumentSortedOnce(c, folder, entries, fetch, update);
      Success(SortFates(fates))
    case Failure(err) => Failure(err)
  }

  // ---------------------------------------------------------------------------
  // Lemmas about the loop

  lemma AfterNothing(r: Run)
    ensures After([], [], r) == r
  {
    if r.fates.Success? {
      assert [] + r.fates.value == r.fates.value;
    }
    assert [] + r.requested == r.requested;
  }

  lemma AfterAssoc(a: seq<Fate>, u: seq<string>, b: seq<Fate>, v: seq<string>, r: Run)
    ensures After(a, u, After(b, v, r)) == After(a + b, u + v, r)
  {
    if r.fates.Success? {
      assert a + (b + r.fates.value) == (a + b) + r.fates.value;
    }
    assert u + (v + r.requested) == (u + v) + r.requested;
  }

  /** Picking the documents of a kind from a concatenation picks them from each part. */
  lemma {:induction false} DocsOfConcat(f: seq<Fate>, g: seq<Fate>, k: Kind)
    ensures DocsOf(f + g, k) == DocsOf(f, k) + DocsOf(g, k)
    decreases |f|
  {
    if f == [] {
      assert f + g == g;
    } else {
      var h := f + g;
      assert h[0] == f[0] && h[1..] == f[1..] + g;
      var head := if f[0].kind == k then [f[0].doc] else [];
      assert DocsOf(h, k) == head + DocsOf(f[1..] + g, k);
      DocsOfConcat(f[1..], g, k);
      assert DocsOf(f, k) == head + DocsOf(f[1..], k);
      assert head + (DocsOf(f[1..], k) + DocsOf(g, k)) == (head + DocsOf(f[1..], k)) + DocsOf(g, k);
    }
  }

  /** The entries whose documents already have a file-system location, in order. */
  function OnDisk(entries: seq<Entry>): (r: seq<DocumentMetadata>)
    ensures |r| <= |entries|
    ensures forall d :: d in r ==> d.fsLocation.Some?
  {
    if entries == [] then []
    else if entries[0].doc.fsLocation.Some? then [entries[0].doc] + OnDisk(entries[1..])
    else OnDisk(entries[1..])
  }

  /** The entries whose documents have no file-system location, in order. */
  function NotOnDisk(entries: seq<Entry>): (r: seq<DocumentMetadata>)
    ensures |r| + |OnDisk(entries)| == |entries|
    ensures forall d :: d in r ==> d.fsLocation.None?
  {
    if entries == [] then []
    else if entries[0].doc.fsLocation.Some? then NotOnDisk(entries[1..])
    else [entries[0].doc] + NotOnDisk(entries[1..])
  }

  /** A document as it was before its location was filled in. */
  function Unlocated(d: DocumentMetadata): DocumentMetadata
  {
    d.(fsLocation := None)
  }

  /** The documents of many fates, each as it was before its location was filled in, in order. */
  function Originals(fates: seq<Fate>): (r: seq<DocumentMetadata>)
    ensures |r| == |fates|
  {
    if fates == [] then [] else [Unlocated(fates[0].doc)] + Originals(fates[1..])
  }

  /** The fates of the documents that were not on disk: downloaded or failed, in order. */
  function Attempted(fates: seq<Fate>): (r: seq<Fate>)
    ensures |r| <= |fates|
  {
    if fates == [] then []
    else if fates[0].kind == PreviousDoc then Attempted(fates[1..])
    else [fates[0]] + Attempted(fates[1..])
  }

  /**
   * How a fate fits its entry: the document goes to the previous list exactly
   * when it already had a location, and then unchanged; a failed document is
   * unchanged too; a new one differs from its entry only in having a location.
   */
  predicate Fits(e: Entry, f: Fate)
  {
    && (f.kind == PreviousDoc <==> e.doc.fsLocation.Some?)
    && (f.kind != NewDoc ==> f.doc == e.doc)
    && (f.kind == NewDoc ==> f.doc.fsLocation.Some? && Unlocated(f.doc) == e.doc)
  }

  /** Each handled entry's fate fits it. */
  lemma HandleFits(c: Constants, folder: string, e: Entry, fetch: string -> Outcome,
                   update: (string, DocumentMetadata, DocumentMetadata) -> Outcome)
    requires Handle(c, folder, e, fetch, update).fate.Success?
    ensures Fits(e, Handle(c, folder, e, fetch, update).fate.value)
  {
  }

  /** A completed pass is the first entry's fate followed by the completed pass over the others. */
  lemma HandleAllStep(c: Constants, folder: string, entries: seq<Entry>, fetch: string -> Outcome,
                      update: (string, DocumentMetadata, DocumentMetadata) -> Outcome)
    requires entries != [] && HandleAll(c, folder, entries, fetch, update).fates.Success?
    ensures Handle(c, folder, entries[0], fetch, update).fate.Success?
    ensures HandleAll(c, folder, entries[1..], fetch, update).fates.Success?
    ensures HandleAll(c, folder, entries, fetch, update).fates.value
      == [Handle(c, folder, entries[0], fetch, update).fate.value] + HandleAll(c, folder, entries[1..], fetch, update).fates.value
  {
  }

  /** On a completed pass there is one fate per entry, and each fits its entry. */
  lemma {:induction false} FatesFit(c: Constants, folder: string, entries: seq<Entry>, fetch: string -> Outcome,
                                    update: (string, DocumentMetadata, DocumentMetadata) -> Outcome)
    requires HandleAll(c, folder, entries, fetch, update).fates.Success?
    ensures var fates := HandleAll(c, folder, entries, fetch, update).fates.value;
      |fates| == |entries| && forall i :: 0 <= i < |entries| ==> Fits(entries[i], fates[i])
    decreases |entries|
  {
    if entries != [] {
      var fates := HandleAll(c, folder, entries, fetch, update).fates.value;
      HandleAllStep(c, folder, entries, fetch, update);
      var first := Handle(c, folder, entries[0], fetch, update).fate.value;
      var rest := HandleAll(c, folder, entries[1..], fetch, update).fates.value;
      HandleFits(c, folder, entries[0], fetch, update);
      FatesFit(c, folder, entries[1..], fetch, update);
      FitsCons(entries, fates, first, rest);
    }
  }

  /** The fates fit their entries when the first fits and the others fit theirs. */
  lemma FitsCons(entries: seq<Entry>, fates: seq<Fate>, first: Fate, rest: seq<Fate>)
    requires entries != [] && fates == [first] + rest && |rest| == |entries| - 1
    requires Fits(entries[0], first)
    requires forall i :: 0 <= i < |entries[1..]| ==> Fits(entries[1..][i], rest[i])
    ensures forall i :: 0 <= i < |entries| ==> Fits(entries[i], fates[i])
  {
    forall i | 1 <= i < |entries|
      ensures Fits(entries[i], fates[i])
    {
      assert entries[i] == entries[1..][i - 1] && fates[i] == rest[i - 1];
    }
  }

  /** Fates that fit their entries fill the lists as the entries dictate. */
  lemma {:induction false} FittingLists(entries: seq<Entry>, fates: seq<Fate>)
    requires |fates| == |entries| && forall i :: 0 <= i < |entries| ==> Fits(entries[i], fates[i])
    ensures DocsOf(fates, PreviousDoc) == OnDisk(entries)
    ensures Originals(Attempted(fates)) == NotOnDisk(entries)
    ensures forall d :: d in DocsOf(fates, NewDoc) ==> d.fsLocation.Some?
  {
    if entries != [] {
      assert forall i :: 1 <= i < |entries| ==> entries[1..][i - 1] == entries[i] && fates[1..][i - 1] == fates[i];
      FittingLists(entries[1..], fates[1..]);
      assert Fits(entries[0], fates[0]);
    }
  }

  /**
   * When the pass completes, every entry has exactly one fate: the previous list
   * is exactly the documents already on disk, unchanged and in order; the
   * documents that were not on disk each ended as new or failed, in order, and
   * a new document differs from its entry only in its location; and the three
   * lists together hold as many documents as there were entries.
   */
  lemma EveryDocumentSortedOnce(c: Constants, folder: string, entries: seq<Entry>, fetch: string -> Outcome,
                                update: (string, DocumentMetadata, DocumentMetadata) -> Outcome)
    requires HandleAll(c, folder, entries, fetch, update).fates.Success?
    ensures var fates := HandleAll(c, folder, entries, fetch, update).fates.value;
      var s := SortFates(fates);
      && |s.downloaded| + |s.previous| + |s.failed| == |entries|
      && s.previous == OnDisk(entries)
      && Originals(Attempted(fates)) == NotOnDisk(entries)
      && (forall d :: d in s.downloaded ==> d.fsLocation.Some?)
  {
    var fates := HandleAll(c, folder, entries, fetch, update).fates.value;
    FatesFit(c, folder, entries, fetch, update);
    FittingLists(entries, fates);
    SortedSizes(fates);
  }

  /**
   * Only the documents that are not on disk are requested, one request each, in
   * order: on a completed pass the URLs requested are exactly theirs.
   */
  lemma {:induction false} OnlyMissingFetched(c: Constants, folder: string, entries: seq<Entry>, fetch: string -> Outcome,
                                              update: (string, DocumentMetadata, DocumentMetadata) -> Outcome)
    requires HandleAll(c, folder, entries, fetch, update).fates.Success?
    ensures HandleAll(c, folder, entries, fetch, update).requested == Addresses(NotOnDisk(entries))
    decreases |entries|
  {
    if entries != [] {
      OnlyMissingFetched(c, folder, entries[1..], fetch, update);
    }
  }

  /** The URLs of documents, in order. */
  function Addresses(docs: seq<DocumentMetadata>): (r: seq<string>)
    ensures |r| == |docs|
    ensures forall i :: 0 <= i < |docs| ==> r[i] == DocumentAddress(docs[i])
  {
    if docs == [] then [] else [DocumentAddress(docs[0])] + Addresses(docs[1..])
  }

  /**
   * The documents on disk are kept whatever the network does: two fetchers that
   * agree on the other documents' URLs give the same outcome and the same
   * requests.
   */
  lemma {:induction false} OnDiskIndependentOfNetwork(c: Constants, folder: string, entries: seq<Entry>,
                                                      fetch: string -> Outcome, fetch': string -> Outcome,
                                                      update: (string, DocumentMetadata, DocumentMetadata) -> Outcome)
    requires forall i :: 0 <= i < |entries| && entries[i].doc.fsLocation.None? ==>
      fetch(DocumentAddress(entries[i].doc)) == fetch'(DocumentAddress(entries[i].doc))
    ensures HandleAll(c, folder, entries, fetch, update) == HandleAll(c, folder, entries, fetch', update)
    decreases |entries|
  {
    if entries != [] {
      assert forall i :: 1 <= i < |entries| ==> entries[1..][i - 1] == entries[i];
      OnDiskIndependentOfNetwork(c, folder, entries[1..], fetch, fetch', update);
      HandleIndependentOfNetwork(c, folder, entries[0], fetch, fetch', update);
    }
  }

  /** One entry's handling asks the network only about its own URL, and only when it is not on disk. */
  lemma HandleIndependentOfNetwork(c: Constants, folder: string, e: Entry, fetch: string -> Outcome, fetch': string -> Outcome,
                                   update: (string, DocumentMetadata, DocumentMetadata) -> Outcome)
    requires e.doc.fsLocation.None? ==> fetch(DocumentAddress(e.doc)) == fetch'(DocumentAddress(e.doc))
    ensures Handle(c, folder, e, fetch, update) == Handle(c, folder, e, fetch', update)
  {
  }

  /** An HTTP error on one document does not stop the pass: that document fails and the rest are handled. */
  lemma HttpErrorContinues(c: Constants, folder: string, e: Entry, more: seq<Entry>, fetch: string -> Outcome,
                           update: (string, DocumentMetadata, DocumentMetadata) -> Outcome)
    requires |Split(e.key, '|')| == 3 && e.doc.fsLocation.None? && fetch(DocumentAddress(e.doc)) == Fail(HttpError)
    ensures HandleAll(c, folder, [e] + more, fetch, update)
      == After([Fate(FailDoc, e.doc)], [DocumentAddress(e.doc)], HandleAll(c, folder, more, fetch, update))
  {
    assert ([e] + more)[0] == e && ([e] + more)[1..] == more;
  }

  /**
   * `FilingStorage` as shipped has no `modify_document_in_record`, so the
   * storage update raises AttributeError: the first document that is fetched
   * ends the whole pass, after its file is written.
   */
  lemma MissingStorageMethodAborts(c: Constants, folder: string, e: Entry, more: seq<Entry>, fetch: string -> Outcome)
    requires |Split(e.key, '|')| == 3 && e.doc.fsLocation.None? && fetch(DocumentAddress(e.doc)) == Pass
    ensures DownloadResult(c, folder, [e] + more, fetch, (k, d, d') => Fail(AttributeError)) == Failure(AttributeError)
  {
    assert ([e] + more)[0] == e;
  }

  /**
   * With a storage whose update succeeds, as the call is evidently meant, and
   * a network that fails only with HTTP errors, the pass over well-formed keys
   * always completes.
   */
  lemma {:induction false} CompletesWithWorkingStorage(c: Constants, folder: string, entries: seq<Entry>,
                                                       fetch: string -> Outcome,
                                                       update: (string, DocumentMetadata, DocumentMetadata) -> Outcome)
    requires forall i :: 0 <= i < |entries| ==> |Split(entries[i].key, '|')| == 3
    requires forall u :: fetch(u).Fail? ==> fetch(u).error == HttpError
    requires forall k, d, d' :: update(k, d, d') == Pass
    ensures HandleAll(c, folder, entries, fetch, update).fates.Success?
    decreases |entries|
  {
    if entries != [] {
      assert forall i :: 1 <= i < |entries| ==> entries[1..][i - 1] == entries[i];
      CompletesWithWorkingStorage(c, folder, entries[1..], fetch, update);
      HandleSucceeds(c, folder, entries[0], fetch, update);
    }
  }

  lemma HandleSucceeds(c: Constants, folder: string, e: Entry, fetch: string -> Outcome,
                       update: (string, DocumentMetadata, DocumentMetadata) -> Outcome)
    requires |Split(e.key, '|')| == 3
    requires fetch(DocumentAddress(e.doc)).Fail? ==> fetch(DocumentAddress(e.doc)).error == HttpError
    requires forall k, d, d' :: update(k, d, d') == Pass
    ensures Handle(c, folder, e, fetch, update).fate.Success?
  {
  }

  /** The loop from entry i on: that entry's handling, then the rest unless it raised. */
  lemma HandleAllFrom(c: Constants, folder: string, entries: seq<Entry>, i: nat, fetch: string -> Outcome,
                      update: (string, DocumentMetadata, DocumentMetadata) -> Outcome)
    requires i < |entries|
    ensures var s := Handle(c, folder, entries[i], fetch, update);
      HandleAll(c, folder, entries[i..], fetch, update)
        == if s.fate.Failure? then Run(Failure(s.fate.error), s.requested)
           else After([s.fate.value], s.requested, HandleAll(c, folder, entries[i + 1..], fetch, update))
  {
    assert entries[i..][0] == entries[i] && entries[i..][1..] == entries[i + 1..];
  }

  // ---------------------------------------------------------------------------
  // The loop

  /** The body of the loop for one entry: how it ends and the URLs it requests. */
  method HandleEntry(c: Constants, folder: string, e: Entry, fetch: string -> Outcome,
                     update: (string, DocumentMetadata, DocumentMetadata) -> Outcome)
    returns (fate: Result<Fate>, asked: seq<string>)
    ensures Step(fate, asked) == Handle(c, folder, e, fetch, update)
  {
    asked := [];
    var parts := Split(e.key, '|');
    if |parts| != 3 {
      return Failure(ValueError(UnpackMismatch)), asked;
    }
    if e.doc.fsLocation.Some? {
      return Success(Fate(PreviousDoc, e.doc)), asked;
    }
    var url := DocumentAddress(e.doc);
    asked := [url];
    var got := fetch(url);
    if got.Fail? {
      if got.error == HttpError {
        return Success(Fate(FailDoc, e.doc)), asked;
      }
      return Failure(got.error), asked;
    }
    var newDoc := e.doc.(fsLocation := Some(SavePath(c, folder, parts[0], parts[1], e.doc)));
    var stored := update(parts[0] + "|" + parts[1], e.doc, newDoc);
    if stored.Fail? {
      if stored.error == HttpError {
        return Success(Fate(FailDoc, e.doc)), asked;
      }
      return Failure(stored.error), asked;
    }
    return Success(Fate(NewDoc, newDoc)), asked;
  }

  /**
   * `download_urls`. The three lists are filled as the entries are handled; the
   * first exception ends the pass. Besides the outcome it returns the URLs it
   * requested, in order.
   */
  method DownloadUrls(c: Constants, folder: string, entries: seq<Entry>, fetch: string -> Outcome,
                      update: (string, DocumentMetadata, DocumentMetadata) -> Outcome)
    returns (r: Result<Sorted>, requested: seq<string>)
    ensures r == DownloadResult(c, folder, entries, fetch, update)
    ensures requested == HandleAll(c, folder, entries, fetch, update).requested
  {
    var downloaded: seq<DocumentMetadata> := [];
    var previous: seq<DocumentMetadata> := [];
    var failed: seq<DocumentMetadata> := [];
    requested := [];
    ghost var fates: seq<Fate> := [];
    AfterNothing(HandleAll(c, folder, entries, fetch, update));
    assert entries[0..] == entries;
    var i := 0;
    while i < |entries|
      invariant i <= |entries|
      invariant downloaded == DocsOf(fates, NewDoc) && previous == DocsOf(fates, PreviousDoc)
      invariant failed == DocsOf(fates, FailDoc)
      invariant HandleAll(c, folder, entries, fetch, update)
        == After(fates, requested, HandleAll(c, folder, entries[i..], fetch, update))
    {
      var e := entries[i];
      HandleAllFrom(c, folder, entries, i, fetch, update);
      var outcome, asked := HandleEntry(c, folder, e, fetch, update);
      if outcome.Failure? {
        r := Failure(outcome.error);
        requested := requested + asked;
        return;
      }
      var fate := outcome.value;
      AfterAssoc(fates, requested, [fate], asked, HandleAll(c, folder, entries[i + 1..], fetch, update));
      DocsOfAppend(fates, fate, NewDoc);
      DocsOfAppend(fates, fate, PreviousDoc);
      DocsOfAppend(fates, fate, FailDoc);
      match fate.kind {
        case NewDoc => downloaded := downloaded + [fate.doc];
        case PreviousDoc => previous := previous + [fate.doc];
        case FailDoc => failed := failed + [fate.doc];
      }
      fates := fates + [fate];
      requested := requested + asked;
      i := i + 1;
    }
    assert entries[i..] == [];
    assert fates + [] == fates;
    r := Success(Sorted(downloaded, previous, failed));
  }
}
