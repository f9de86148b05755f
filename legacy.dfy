/**
 * The legacy `Downloader` class of downloader.py: it scrapes the EDGAR company
 * browse page for the "documents" buttons of one filing type, rewrites each
 * button's link into the URL of the full submission text, and saves each file
 * under the download folder. The browse page, the file fetches and today's date
 * are inputs here: `page` gives the anchors' hrefs of the page at a URL (or the
 * HTTP error raised), `fetch` how the download of a URL ends.
 */
module Legacy {
  import opened Wrappers
  import opened Strings
  import Filings

  /** `FilingInfo`: the name a filing is saved under and the URL it is fetched from. */
  datatype FilingInfo = FilingInfo(filename: string, url: string)

  /** One file written: where, and the URL its content came from. */
  datatype Saved = Saved(path: string, url: string)

  /** How a download call ended, and the files it wrote before that. */
  datatype Saving = Saving(outcome: Outcome, saved: seq<Saved>)

  /** `self.count`: the number of entries the browse page lists. */
  const Count: int := 100

  /** `self.base_url`, with `count` filled in. */
  const BrowseBaseUrl: string := "https://www.sec.gov/cgi-bin/browse-edgar?action=getcompany&owner=exclude&count=100"

  /** The folder below the download folder that every filing is saved in. */
  const SaveFolderName: string := "sec-edgar-filings"

  /** `self.filing_method_dict`, each key mapped to the filing type its method downloads. */
  const FilingTypes: map<string, string> :=
    map["8-k" := "8-K", "10-k" := "10-K", "10-q" := "10-Q", "13f" := "13F", "sd" := "SD", "sc 13g" := "SC 13G"]

  /** The filing types `get_all_available_filings_for_ticker` downloads, in its order. */
  const AllTypes: seq<string> := ["8-K", "10-K", "10-Q", "13F", "SC 13G", "SD"]

  // ---------------------------------------------------------------------------
  // URLs and names

  /** `filing_type.replace(' ', '+')`: every space becomes a plus. */
  function SpacesToPlus(s: string): (r: string)
    ensures |r| == |s|
    ensures forall i :: 0 <= i < |s| ==> r[i] == if s[i] == ' ' then '+' else s[i]
  {
    if s == [] then [] else [if s[0] == ' ' then '+' else s[0]] + SpacesToPlus(s[1..])
  }

  /** The reverse replacement, to show what the query value still says. */
  function PlusToSpaces(s: string): (r: string)
    ensures |r| == |s|
    ensures forall i :: 0 <= i < |s| ==> r[i] == if s[i] == '+' then ' ' else s[i]
  {
    if s == [] then [] else [if s[0] == '+' then ' ' else s[0]] + PlusToSpaces(s[1..])
  }

  /** The replacement leaves no space, and a filing type without '+' can be read back from it. */
  lemma SpacesToPlusInverse(s: string)
    ensures ' ' !in SpacesToPlus(s)
    ensures '+' !in s ==> PlusToSpaces(SpacesToPlus(s)) == s
  {
    var r := SpacesToPlus(s);
    assert forall i :: 0 <= i < |r| ==> r[i] != ' ';
    if '+' !in s {
      assert forall i :: 0 <= i < |s| ==> PlusToSpaces(r)[i] == s[i];
    }
  }

  /** `filing_detail_url`: the SEC host and the href, with an 'l' appended unless it already ends in one. */
  function DetailUrl(href: string): (r: string)
    ensures EndsWith(r, "l")
    ensures var s := Filings.SecBaseUrl + href;
      r == if s[|s| - 1] == 'l' then s else s + "l"
  {
    var s := Filings.SecBaseUrl + href;
    if s[|s| - 1] != 'l' then s + "l" else s
  }

  /** `full_filing_url`: every "-index.html" of the detail URL replaced by ".txt". */
  function FullFilingUrl(detail: string): (r: string)
    ensures !Contains(detail, "-index.html") ==> r == detail
  {
    ReplaceAll(detail, "-index.html", ".txt")
  }

  /** `full_filing_url.split("/")[-1]`: the name the filing is saved under. */
  function FileName(url: string): (r: string)
    ensures '/' !in r && EndsWith(url, r)
    ensures '/' !in url ==> r == url
    ensures |r| < |url| ==> url[|url| - |r| - 1] == '/'
  {
    LastPieceSpec(url, '/');
    LastPiece(url, '/')
  }

  /** The `FilingInfo` one documents button gives. */
  function InfoOf(href: string): (r: FilingInfo)
    ensures r.url == FullFilingUrl(DetailUrl(href)) && r.filename == FileName(r.url)
    ensures '/' !in r.filename && EndsWith(r.url, r.filename)
    ensures !Contains(DetailUrl(href), "-index.html") ==> r.url == DetailUrl(href) && EndsWith(r.url, "l")
  {
    var url := FullFilingUrl(DetailUrl(href));
    FilingInfo(FileName(url), url)
  }

  /** The `FilingInfo` list of a page's documents buttons, in the page's order. */
  function Infos(hrefs: seq<string>): (r: seq<FilingInfo>)
  {
    seq(|hrefs|, i requires 0 <= i < |hrefs| => InfoOf(hrefs[i]))
  }

  /**
   * The button of a filing index page, "<path>-index.htm", leads to the full
   * submission "<path>.txt", saved under the last piece of "<path>" with ".txt",
   * as long as "-index.html" does not already occur earlier in the URL.
   */
  lemma IndexHrefGivesText(q: string)
    requires var p := Filings.SecBaseUrl + q;
      forall j :: 0 <= j < |p| ==> !OccursAt(p + "-index.html", "-index.html", j)
    ensures InfoOf(q + "-index.htm").url == Filings.SecBaseUrl + q + ".txt"
    ensures InfoOf(q + "-index.htm").filename == LastPiece(Filings.SecBaseUrl + q, '/') + ".txt"
  {
    var p := Filings.SecBaseUrl + q;
    var h := q + "-index.htm";
    assert DetailUrl(h) == p + "-index.html" by {
      assert Filings.SecBaseUrl + h == p + "-index.htm";
      assert Filings.SecBaseUrl + h + "l" == p + "-index.html";
    }
    assert FullFilingUrl(DetailUrl(h)) == p + ".txt" by {
      IndexPageToText(p);
    }
    assert FileName(p + ".txt") == LastPiece(p, '/') + ".txt" by {
      LastPieceAppend(p, ".txt", '/');
    }
  }

  /** Replacing the one "-index.html", at the end, leaves the path with ".txt". */
  lemma IndexPageToText(p: string)
    requires forall j :: 0 <= j < |p| ==> !OccursAt(p + "-index.html", "-index.html", j)
    ensures FullFilingUrl(p + "-index.html") == p + ".txt"
  {
    var x := p + "-index.html";
    assert x[|p|..|p| + 11] == "-index.html";
    assert OccursAt(x, "-index.html", |p|);
    var i := Find(x, "-index.html").value;
    assert i == |p|;
    ReplaceAllAt(x, "-index.html", ".txt", i);
    assert x[..|p|] == p && x[|p| + 11..] == [];
  }

  /** Where a filing is saved: `download_folder/sec-edgar-filings/ticker/filing_type/filename`. */
  function SavePath(folder: string, ticker: string, filingType: string, filename: string): string
  {
    PathJoin([folder, SaveFolderName, ticker, filingType, filename])
  }

  /** The saved file carries the filing's own name, whatever the folder, ticker and type hold. */
  lemma SavePathName(folder: string, ticker: string, filingType: string, info: FilingInfo)
    requires info.filename == FileName(info.url)
    ensures LastPiece(SavePath(folder, ticker, filingType, info.filename), '/') == info.filename
  {
    LastPieceOfJoin([folder, SaveFolderName, ticker, filingType, info.filename], '/');
  }

  // ---------------------------------------------------------------------------
  // What the downloads do

  /** Where each filing of one ticker and type is saved, as a function of its file name. */
  function Placer(folder: string, ticker: string, filingType: string): (place: string -> string)
    ensures forall name :: place(name) == SavePath(folder, ticker, filingType, name)
  {
    name => SavePath(folder, ticker, filingType, name)
  }

  /**
   * The writes of the second loop of `download_filings`: each filing in order,
   * saved at `place` of its name, up to the first failed fetch.
   */
  function SaveAll(place: string -> string, infos: seq<FilingInfo>, fetch: string -> Outcome): (r: Saving)
    ensures |r.saved| <= |infos|
    ensures r.outcome.Pass? ==> |r.saved| == |infos|
    ensures forall k :: 0 <= k < |r.saved| ==> r.saved[k] == Saved(place(infos[k].filename), infos[k].url)
    ensures forall k :: 0 <= k < |r.saved| ==> fetch(infos[k].url).Pass?
    ensures r.outcome.Fail? ==> |r.saved| < |infos| && fetch(infos[|r.saved|].url) == r.outcome
  {
    if infos == [] then Saving(Pass, [])
    else
      match fetch(infos[0].url)
      case Fail(e) => Saving(Fail(e), [])
      case Pass =>
        var rest := SaveAll(place, infos[1..], fetch);
        Saving(rest.outcome, [Saved(place(infos[0].filename), infos[0].url)] + rest.saved)
  }

  /** A download pass writes everything exactly when no fetch fails. */
  lemma {:induction false} SaveAllPasses(place: string -> string, infos: seq<FilingInfo>, fetch: string -> Outcome)
    ensures SaveAll(place, infos, fetch).outcome.Pass? <==> forall k :: 0 <= k < |infos| ==> fetch(infos[k].url).Pass?
    decreases |infos|
  {
    if infos != [] {
      SaveAllPasses(place, infos[1..], fetch);
      assert forall k :: 1 <= k < |infos| ==> infos[1..][k - 1] == infos[k];
    }
  }

  /** `download_filings` at a browse URL: the page's error, or its buttons saved one by one. */
  function DownloadAt(folder: string, url: string, filingType: string, ticker: string,
                      page: string -> Result<seq<string>>, fetch: string -> Outcome): (r: Saving)
    ensures page(url).Failure? ==> r == Saving(Fail(page(url).error), [])
    ensures page(url).Success? ==> r == SaveAll(Placer(folder, ticker, filingType), Infos(page(url).value), fetch)
    ensures page(url).Success? && page(url).value == [] ==> r == Saving(Pass, [])
  {
    match page(url)
    case Failure(e) => Saving(Fail(e), [])
    case Success(hrefs) => SaveAll(Placer(folder, ticker, filingType), Infos(hrefs), fetch)
  }

  /** `form_url` as a value: the base URL, the CIK, the type with '+' for spaces and the date. */
  function BrowseUrl(baseUrl: string, ticker: string, filingType: string, today: string): string
  {
    baseUrl + "&CIK=" + ticker + "&type=" + SpacesToPlus(filingType) + "&dateb=" + today
  }

  /**
   * The query of the browse URL, read back: with no '&' in the ticker, the type
   * or the date, the URL's '&'-pieces are those of the base URL followed by the
   * CIK, the type with '+' for spaces, and the date.
   */
  lemma BrowseUrlFields(baseUrl: string, ticker: string, filingType: string, today: string)
    requires '&' !in ticker && '&' !in filingType && '&' !in today
    ensures Split(BrowseUrl(baseUrl, ticker, filingType, today), '&')
      == Split(baseUrl, '&') + ["CIK=" + ticker, "type=" + SpacesToPlus(filingType), "dateb=" + today]
  {
    var t := SpacesToPlus(filingType);
    assert '&' !in t by {
      assert forall i :: 0 <= i < |t| ==> t[i] != '&';
    }
    var a, b, c := "CIK=" + ticker, "type=" + t, "dateb=" + today;
    assert '&' !in a && '&' !in b && '&' !in c;
    assert BrowseUrl(baseUrl, ticker, filingType, today) == baseUrl + ['&'] + (a + ['&'] + b + ['&'] + c);
    SplitConcat(baseUrl, a + ['&'] + b + ['&'] + c, '&');
    SplitThree(a, b, c, '&');
  }

  /** `get_filing_wrapper`: the browse URL for the type, then the download there. */
  function RunType(folder: string, baseUrl: string, ticker: string, filingType: string, today: string,
                   page: string -> Result<seq<string>>, fetch: string -> Outcome): Saving
  {
    DownloadAt(folder, BrowseUrl(baseUrl, ticker, filingType, today), filingType, ticker, page, fetch)
  }

  /** One download per item, in order: the files of all of them, up to the first exception. */
  function Chain(run: string -> Saving, items: seq<string>): (r: Saving)
    decreases |items|
  {
    if items == [] then Saving(Pass, [])
    else
      var first := run(items[0]);
      if first.outcome.Fail? then first
      else Then(first.saved, Chain(run, items[1..]))
  }

  /** `get_filing_wrapper` for one ticker, as a function of the filing type. */
  function TypeRunner(folder: string, baseUrl: string, ticker: string, today: string,
                      page: string -> Result<seq<string>>, fetch: string -> Outcome): (run: string -> Saving)
    ensures forall t :: run(t) == RunType(folder, baseUrl, ticker, t, today, page, fetch)
  {
    t => RunType(folder, baseUrl, ticker, t, today, page, fetch)
  }

  /** Several types for one ticker, in order, up to the first exception. */
  function RunTypes(folder: string, baseUrl: string, ticker: string, types: seq<string>, today: string,
                    page: string -> Result<seq<string>>, fetch: string -> Outcome): Saving
  {
    Chain(TypeRunner(folder, baseUrl, ticker, today, page, fetch), types)
  }

  /** Every type for a ticker, as a function of the ticker. */
  function TickerRunner(folder: string, baseUrl: string, today: string,
                        page: string -> Result<seq<string>>, fetch: string -> Outcome): (run: string -> Saving)
    ensures forall k :: run(k) == RunTypes(folder, baseUrl, k, AllTypes, today, page, fetch)
  {
    k => RunTypes(folder, baseUrl, k, AllTypes, today, page, fetch)
  }

  /** Several tickers in order, each with every type, up to the first exception. */
  function RunTickers(folder: string, baseUrl: string, tickers: seq<string>, today: string,
                      page: string -> Result<seq<string>>, fetch: string -> Outcome): Saving
  {
    Chain(TickerRunner(folder, baseUrl, today, page, fetch), tickers)
  }

  /** The filing types `get_select_filings_for_ticker` downloads: each known lower-cased key's type, in order. */
  function SelectedTypes(dict: map<string, string>, filings: seq<string>): (r: seq<string>)
    ensures |r| <= |filings|
  {
    if filings == [] then []
    else
      var rest := SelectedTypes(dict, filings[1..]);
      var key := Lower(filings[0]);
      if key in dict then [dict[key]] + rest else rest
  }

  /** The requested filings that are not available, in order. */
  function Unknown(dict: map<string, string>, filings: seq<string>): seq<string>
  {
    if filings == [] then []
    else if Lower(filings[0]) in dict then Unknown(dict, filings[1..])
    else [filings[0]] + Unknown(dict, filings[1..])
  }

  // ---------------------------------------------------------------------------
  // Properties of the selection

  /** Every selected type is the type of some requested filing whose lower-cased name is a key. */
  lemma {:induction false} SelectedSound(dict: map<string, string>, filings: seq<string>)
    ensures forall t :: t in SelectedTypes(dict, filings) ==>
      exists f :: f in filings && Lower(f) in dict && dict[Lower(f)] == t
    decreases |filings|
  {
    if filings != [] {
      SelectedSound(dict, filings[1..]);
      assert forall f :: f in filings[1..] ==> f in filings;
    }
  }

  /** Each requested filing is either selected or skipped. */
  lemma {:induction false} SelectedOrUnknown(dict: map<string, string>, filings: seq<string>)
    ensures |Unknown(dict, filings)| + |SelectedTypes(dict, filings)| == |filings|
    decreases |filings|
  {
    if filings != [] {
      SelectedOrUnknown(dict, filings[1..]);
    }
  }

  /** Every skipped filing was requested and its lower-cased name is not a key. */
  lemma {:induction false} UnknownSound(dict: map<string, string>, filings: seq<string>)
    ensures forall f :: f in Unknown(dict, filings) ==> f in filings && Lower(f) !in dict
    decreases |filings|
  {
    if filings != [] {
      UnknownSound(dict, filings[1..]);
      assert forall f :: f in filings[1..] ==> f in filings;
    }
  }

  /** An unknown filing is skipped and the ones after it are still selected. */
  lemma {:induction false} UnknownSkipped(dict: map<string, string>, a: seq<string>, x: string, b: seq<string>)
    requires Lower(x) !in dict
    ensures SelectedTypes(dict, a + [x] + b) == SelectedTypes(dict, a) + SelectedTypes(dict, b)
    decreases |a|
  {
    if a == [] {
      assert (a + [x] + b)[1..] == b;
    } else {
      UnknownSkipped(dict, a[1..], x, b);
      assert (a + [x] + b)[1..] == a[1..] + [x] + b;
    }
  }

  /** Selection ignores case: requesting the lower-case keys selects the same types. */
  lemma {:induction false} SelectionIgnoresCase(dict: map<string, string>, filings: seq<string>)
    ensures SelectedTypes(dict, filings) == SelectedTypes(dict, LowerAll(filings))
    decreases |filings|
  {
    if filings != [] {
      LowerIdempotent(filings[0]);
      SelectionIgnoresCase(dict, filings[1..]);
      assert LowerAll(filings)[1..] == LowerAll(filings[1..]);
    }
  }

  /** Each string lower-cased. */
  function LowerAll(filings: seq<string>): (r: seq<string>)
    ensures |r| == |filings|
    ensures forall i :: 0 <= i < |filings| ==> r[i] == Lower(filings[i])
  {
    if filings == [] then [] else [Lower(filings[0])] + LowerAll(filings[1..])
  }

  /** The fixed keys: e.g. '13F' and 'SC 13G', in any case, select the types 13F and SC 13G; '10-K405' nothing. */
  lemma KnownKeys()
    ensures SelectedTypes(FilingTypes, ["13F"]) == ["13F"]
    ensures SelectedTypes(FilingTypes, ["sc 13g"]) == ["SC 13G"]
    ensures SelectedTypes(FilingTypes, ["10-K405"]) == []
  {
    assert Lower("13F") == "13f";
    assert Lower("sc 13g") == "sc 13g";
    assert Lower("10-K405") == "10-k405";
    assert "10-k405" !in FilingTypes;
  }

  // ---------------------------------------------------------------------------
  // The class

  class Downloader {
    var downloadFolder: string
    var count: int
    var baseUrl: string
    var filingMethodDict: map<string, string>

    /** The settings `__init__` gives every downloader. */
    predicate Valid()
      reads this
    {
      count == Count && baseUrl == BrowseBaseUrl && filingMethodDict == FilingTypes
    }

    constructor Init(downloadFolder: string)
      ensures this.downloadFolder == downloadFolder && Valid()
    {
      this.downloadFolder := downloadFolder;
      count := Count;
      baseUrl := BrowseBaseUrl;
      filingMethodDict := FilingTypes;
    }

    /** `__init__`: an IOError when the download folder does not exist. */
    static method New(downloadFolder: string, folderExists: bool) returns (r: Result<Downloader>)
      ensures r.Failure? <==> !folderExists
      ensures r.Failure? ==> r.error == IOError
      ensures r.Success? ==> fresh(r.value) && r.value.downloadFolder == downloadFolder && r.value.Valid()
    {
      if !folderExists {
        return Failure(IOError);
      }
      var d := new Downloader.Init(downloadFolder);
      return Success(d);
    }

    /** `form_url`, with today's date passed in as YYYYMMDD. */
    function FormUrl(ticker: string, filingType: string, today: string): (u: string)
      reads this
    {
      BrowseUrl(baseUrl, ticker, filingType, today)
    }

    /**
     * `download_filings`: first the browse page, whose error escapes; then the
     * `FilingInfo` of each documents button, in order; with none, nothing is
     * fetched; otherwise each filing is fetched and saved, and the first failed
     * fetch escapes.
     */
    method DownloadFilings(edgarSearchUrl: string, filingType: string, ticker: string,
                           page: string -> Result<seq<string>>, fetch: string -> Outcome)
      returns (r: Saving, infos: seq<FilingInfo>)
      ensures r == DownloadAt(downloadFolder, edgarSearchUrl, filingType, ticker, page, fetch)
      ensures page(edgarSearchUrl).Success? ==> infos == Infos(page(edgarSearchUrl).value)
    {
      infos := [];
      var answer := page(edgarSearchUrl);
      if answer.Failure? {
        return Saving(Fail(answer.error), []), infos;
      }
      infos := CollectInfos(answer.value);
      if |infos| == 0 {
        return Saving(Pass, []), infos;
      }
      r := SaveInfos(Placer(downloadFolder, ticker, filingType), infos, fetch);
    }

    /** `get_filing_wrapper`, behind each of the six `get_*_filing_for_ticker` methods. */
    method GetFilingWrapper(filingType: string, ticker: string, today: string,
                            page: string -> Result<seq<string>>, fetch: string -> Outcome)
      returns (r: Saving)
      ensures r == RunType(downloadFolder, baseUrl, ticker, filingType, today, page, fetch)
      ensures Valid() ==> r == RunType(downloadFolder, BrowseBaseUrl, ticker, filingType, today, page, fetch)
    {
      var url := FormUrl(ticker, filingType, today);
      var infos;
      r, infos := DownloadFilings(url, filingType, ticker, page, fetch);
    }

    /** Downloading the types in order, stopping at the first exception. */
    method GetFilingTypes(ticker: string, types: seq<string>, today: string,
                          page: string -> Result<seq<string>>, fetch: string -> Outcome)
      returns (r: Saving)
      ensures r == RunTypes(downloadFolder, baseUrl, ticker, types, today, page, fetch)
    {
      ghost var run := TypeRunner(downloadFolder, baseUrl, ticker, today, page, fetch);
      var saved: seq<Saved> := [];
      var i := 0;
      assert types[0..] == types;
      ThenNothing(Chain(run, types));
      while i < |types|
        invariant i <= |types|
        invariant Chain(run, types) == Then(saved, Chain(run, types[i..]))
      {
        ChainAt(run, types, i);
        var one := GetFilingWrapper(types[i], ticker, today, page, fetch);
        if one.outcome.Fail? {
          return Saving(one.outcome, saved + one.saved);
        }
        ThenAssoc(saved, one.saved, Chain(run, types[i + 1..]));
        saved := saved + one.saved;
        i := i + 1;
      }
      assert saved + [] == saved;
      return Saving(Pass, saved);
    }

    /** `get_all_available_filings_for_ticker`: the six types one after the other. */
    method GetAllAvailableFilingsForTicker(ticker: string, today: string,
                                           page: string -> Result<seq<string>>, fetch: string -> Outcome)
      returns (r: Saving)
      ensures r == RunTypes(downloadFolder, baseUrl, ticker, AllTypes, today, page, fetch)
    {
      r := GetFilingTypes(ticker, AllTypes, today, page, fetch);
    }

    /** `get_all_available_filings_for_ticker_list`: every ticker in order. */
    method GetAllAvailableFilingsForTickerList(tickers: seq<string>, today: string,
                                               page: string -> Result<seq<string>>, fetch: string -> Outcome)
      returns (r: Saving)
      ensures r == RunTickers(downloadFolder, baseUrl, tickers, today, page, fetch)
    {
      ghost var run := TickerRunner(downloadFolder, baseUrl, today, page, fetch);
      var saved: seq<Saved> := [];
      var i := 0;
      assert tickers[0..] == tickers;
      ThenNothing(Chain(run, tickers));
      while i < |tickers|
        invariant i <= |tickers|
        invariant Chain(run, tickers) == Then(saved, Chain(run, tickers[i..]))
      {
        ChainAt(run, tickers, i);
        var one := GetAllAvailableFilingsForTicker(tickers[i], today, page, fetch);
        if one.outcome.Fail? {
          return Saving(one.outcome, saved + one.saved);
        }
        ThenAssoc(saved, one.saved, Chain(run, tickers[i + 1..]));
        saved := saved + one.saved;
        i := i + 1;
      }
      assert saved + [] == saved;
      return Saving(Pass, saved);
    }

    /**
     * `get_select_filings_for_ticker`: each requested filing is lower-cased and
     * looked up; an unknown one is reported and skipped, a known one downloaded.
     * It returns the skipped requests alongside.
     */
    method GetSelectFilingsForTicker(ticker: string, filings: seq<string>, today: string,
                                     page: string -> Result<seq<string>>, fetch: string -> Outcome)
      returns (r: Saving, skipped: seq<string>)
      ensures r == RunTypes(downloadFolder, baseUrl, ticker, SelectedTypes(filingMethodDict, filings), today, page, fetch)
      ensures r.outcome.Pass? ==> skipped == Unknown(filingMethodDict, filings)
      ensures Valid() ==> r == RunTypes(downloadFolder, BrowseBaseUrl, ticker, SelectedTypes(FilingTypes, filings), today, page, fetch)
    {
      var dict := filingMethodDict;
      ghost var run := TypeRunner(downloadFolder, baseUrl, ticker, today, page, fetch);
      var saved: seq<Saved> := [];
      skipped := [];
      var i := 0;
      assert filings[0..] == filings;
      ThenNothing(Chain(run, SelectedTypes(dict, filings)));
      while i < |filings|
        invariant i <= |filings|
        invariant skipped == Unknown(dict, filings[..i])
        invariant Chain(run, SelectedTypes(dict, filings))
          == Then(saved, Chain(run, SelectedTypes(dict, filings[i..])))
      {
        var formatted := Lower(filings[i]);
        SelectedStep(dict, filings, i);
        UnknownStep(dict, filings, i);
        ghost var rest := SelectedTypes(dict, filings[i + 1..]);
        if formatted in dict {
          var filingType := dict[formatted];
          ChainCons(run, filingType, rest);
          var one := GetFilingWrapper(filingType, ticker, today, page, fetch);
          if one.outcome.Fail? {
            return Saving(one.outcome, saved + one.saved), skipped;
          }
          ThenAssoc(saved, one.saved, Chain(run, rest));
          saved := saved + one.saved;
        } else {
          skipped := skipped + [filings[i]];
        }
        i := i + 1;
      }
      assert filings[..i] == filings;
      assert saved + [] == saved;
      return Saving(Pass, saved), skipped;
    }
  }

  // ---------------------------------------------------------------------------
  // Helpers for the loops

  /** The first loop of `download_filings`: one `FilingInfo` per documents button, in order. */
  method CollectInfos(anchors: seq<string>) returns (infos: seq<FilingInfo>)
    ensures infos == Infos(anchors)
  {
    infos := RewriteEach(InfoRule(), anchors);
    InfosByRule(anchors, infos);
  }

  /** The loop itself, with the rewriting of one button passed in as `rule`. */
  method RewriteEach(rule: string -> FilingInfo, anchors: seq<string>) returns (infos: seq<FilingInfo>)
    ensures |infos| == |anchors|
    ensures forall k :: 0 <= k < |anchors| ==> infos[k] == rule(anchors[k])
  {
    infos := [];
    var i := 0;
    while i < |anchors|
      invariant i <= |anchors| && |infos| == i
      invariant forall k :: 0 <= k < i ==> infos[k] == rule(anchors[k])
    {
      infos := infos + [rule(anchors[i])];
      i := i + 1;
    }
  }

  /** `InfoOf` as a function value, so that the loop can speak of it without unfolding it. */
  function InfoRule(): (rule: string -> FilingInfo)
    ensures forall h :: rule(h) == InfoOf(h)
  {
    h => InfoOf(h)
  }

  /** A list that agrees with `InfoOf` at every position is the `FilingInfo` list. */
  lemma InfosByRule(hrefs: seq<string>, infos: seq<FilingInfo>)
    requires |infos| == |hrefs| && forall k :: 0 <= k < |hrefs| ==> infos[k] == InfoRule()(hrefs[k])
    ensures infos == Infos(hrefs)
  {
  }

  /** The second loop of `download_filings`: fetch and save each filing, stopping at the first failed fetch. */
  method SaveInfos(place: string -> string, infos: seq<FilingInfo>, fetch: string -> Outcome) returns (r: Saving)
    ensures r == SaveAll(place, infos, fetch)
  {
    var saved: seq<Saved> := [];
    var k := 0;
    assert infos[0..] == infos;
    ThenNothing(SaveAll(place, infos, fetch));
    while k < |infos|
      invariant k <= |infos|
      invariant SaveAll(place, infos, fetch) == Then(saved, SaveAll(place, infos[k..], fetch))
    {
      assert infos[k..][0] == infos[k] && infos[k..][1..] == infos[k + 1..];
      var got := fetch(infos[k].url);
      if got.Fail? {
        return Saving(got, saved);
      }
      var path := place(infos[k].filename);
      ThenAssoc(saved, [Saved(path, infos[k].url)], SaveAll(place, infos[k + 1..], fetch));
      saved := saved + [Saved(path, infos[k].url)];
      k := k + 1;
    }
    assert saved + [] == saved;
    return Saving(Pass, saved);
  }

  /** One step of the selection: a known filing contributes its type, an unknown one nothing. */
  lemma SelectedStep(dict: map<string, string>, filings: seq<string>, i: int)
    requires 0 <= i < |filings|
    ensures Lower(filings[i]) in dict ==>
      SelectedTypes(dict, filings[i..]) == [dict[Lower(filings[i])]] + SelectedTypes(dict, filings[i + 1..])
    ensures Lower(filings[i]) !in dict ==> SelectedTypes(dict, filings[i..]) == SelectedTypes(dict, filings[i + 1..])
  {
    assert filings[i..][0] == filings[i] && filings[i..][1..] == filings[i + 1..];
  }

  /** One step of the skipped list: an unknown filing is added at its end. */
  lemma UnknownStep(dict: map<string, string>, filings: seq<string>, i: int)
    requires 0 <= i < |filings|
    ensures Lower(filings[i]) in dict ==> Unknown(dict, filings[..i + 1]) == Unknown(dict, filings[..i])
    ensures Lower(filings[i]) !in dict ==> Unknown(dict, filings[..i + 1]) == Unknown(dict, filings[..i]) + [filings[i]]
  {
    assert filings[..i + 1] == filings[..i] + [filings[i]];
    UnknownSnoc(dict, filings[..i], filings[i]);
  }

  /** The chain from the first item: that item's download, then the others unless it failed. */
  lemma ChainCons(run: string -> Saving, x: string, rest: seq<string>)
    ensures Chain(run, [x] + rest)
      == if run(x).outcome.Fail? then run(x) else Then(run(x).saved, Chain(run, rest))
  {
    assert ([x] + rest)[0] == x && ([x] + rest)[1..] == rest;
  }

  /** The chain from position i: item i's download, then the ones after it unless it failed. */
  lemma ChainAt(run: string -> Saving, items: seq<string>, i: int)
    requires 0 <= i < |items|
    ensures Chain(run, items[i..])
      == if run(items[i]).outcome.Fail? then run(items[i]) else Then(run(items[i]).saved, Chain(run, items[i + 1..]))
  {
    assert items[i..] == [items[i]] + items[i + 1..];
    ChainCons(run, items[i], items[i + 1..]);
  }

  /** Files already written in front of what a later call does. */
  function Then(done: seq<Saved>, rest: Saving): Saving
  {
    Saving(rest.outcome, done + rest.saved)
  }

  lemma ThenNothing(r: Saving)
    ensures Then([], r) == r
  {
    assert [] + r.saved == r.saved;
  }

  lemma ThenAssoc(a: seq<Saved>, b: seq<Saved>, r: Saving)
    ensures Then(a, Then(b, r)) == Then(a + b, r)
  {
    assert a + (b + r.saved) == (a + b) + r.saved;
  }

  lemma {:induction false} UnknownSnoc(dict: map<string, string>, filings: seq<string>, f: string)
    ensures Unknown(dict, filings + [f]) == Unknown(dict, filings) + (if Lower(f) in dict then [] else [f])
    decreases |filings|
  {
    if filings == [] {
      assert [f][1..] == [];
    } else {
      UnknownSnoc(dict, filings[1..], f);
      assert (filings + [f])[1..] == filings[1..] + [f];
    }
  }
}
