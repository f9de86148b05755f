# sec-edgar-downloader in Dafny

This project models the core of sec-edgar-downloader, a Python client for the
SEC's EDGAR system. It covers the identifier and URL handling around filings
and the few rules that decide what gets fetched:

- **the accession-number codec** (`AccessionNumber`):
  - splitting `0001193125-15-118890` into short CIK, year and annual sequence;
  - the shape check;
  - rebuilding the ten-digit, zero-padded, dashed form;
- **the `Filing` object**:
  - the choice of constructor path from the arguments present;
  - the documents and well-known URLs taken from a filing's detail page;
  - the dictionary key and the file record;
- **the `Firm` object**:
  - identifier selection by priority;
  - registry lookup;
  - the class-level set of initialised CIKs;
  - the registry cache;
- **request validation** (`_check_params`), with its ordered error exits;
- **the full-text search**:
  - the request payload;
  - the metadata built from one search hit;
  - the paginated hit filter of `get_filing_urls_to_download`;
- **`download_urls`**, which sorts every document into the new, previous or fail
  list and never fetches a document that is already on disk;
- **the legacy `Downloader` class** of `downloader.py`:
  - the browse URL;
  - the anchor → detail URL → `.txt` URL → file name rewriting and the save path;
  - the download loops and the lower-cased dispatch table.

The network, the HTML and JSON parsers, the clock and the file system are not
modelled as such. Their answers come in as parameters:

- the search hits;
- the browse page's description text;
- the parsed detail page (rows, hrefs and fields);
- the successive pages of the full-text search;
- a `fetch` function from URL to outcome;
- the fetched firm registry;
- the fuzzy matcher's choice;
- today's date.

The results are therefore stated for every possible answer.

The modules follow the source:

| module | source |
|---|---|
| `Accession` | the `AccessionNumber` class |
| `Filings` | `Filing` |
| `Firms` | `Firm` |
| `Params` | `_check_params` |
| `Search` | `form_request_payload`, `build_filing_metadata_from_hit` and `get_filing_urls_to_download` |
| `Download` | `download_urls` |
| `Legacy` | `downloader.py` |

Three support modules hold the shared pieces:

- `Strings` has the Python string operations the code relies on, with their laws;
- `Wrappers` has `Option`, `Result`, `Outcome` and the exception kinds;
- `EdgarConstants` has the `_constants` values that are not part of this model,
  as one `Constants` parameter.

The source mutates objects in several places, and those parts are classes with
`modifies` clauses:

- `AccessionNumber`;
- `Filing`;
- `FirmRegistry`, which holds `Firm`'s class-level attributes;
- `Firm`;
- `Downloader`.

Each method is proved against a function of the old state and the services'
answers, and the properties are lemmas about those functions. The source's
loops stay loops with invariants:

- the paginated search;
- the `download_urls` partition;
- the legacy download and selection loops.

A few points of the code are easy to misread, and the model follows the code in each:

- **Short CIK length.** The length test is `1 < len < 10` (UrlComponent.py:111), so a
  short CIK of 2 to 9 characters is accepted and one of a single character is not.
- **Digits.** The shape check looks only at lengths; a component of letters of
  the right length passes.
- **Mutability.** An `AccessionNumber` is updated in place by its parse and
  format methods, so it is a class with fields.
- **`create_from_components`.** The shape check runs on the components already
  stored in the object, not on the arguments passed in.
- **The `Firm` state.** The registry cache and the initialised CIKs are
  class-level attributes of `Firm`, shared by every instance; `FirmRegistry`
  is the one object that holds them.

## Model

| member | source | states |
|---|---|---|
| Accession.Parse | sec_edgar_downloader/UrlComponent.py:88-95 | Fails with IndexError exactly when the string has fewer than three '-'-pieces; otherwise the year starts with "20", and the short CIK has no leading '0' and no dash |
| Accession.ParseOfPieces | sec_edgar_downloader/UrlComponent.py:92-95 | Parsing three dash-free pieces gives (first piece without leading zeros, "20" + second, third) |
| Accession.ParseExample | sec_edgar_downloader/UrlComponent.py:88-95 | '0001193125-15-118890' parses to ('1193125', '2015', '118890') |
| Accession.ParseIgnoresExtraPieces | sec_edgar_downloader/UrlComponent.py:92-95 | Pieces after the third are ignored |
| Accession.ParseIgnoresPadding | sec_edgar_downloader/UrlComponent.py:93 | Extra leading zeros do not change the parse |
| Accession.Format | sec_edgar_downloader/UrlComponent.py:103-107 | For valid components: 20 characters, dashes at 10 and 13, the CIK left-padded with '0' to ten, the year's last two digits, then the sequence |
| Accession.FormatExample | sec_edgar_downloader/UrlComponent.py:103-107 | ('1193125', '2015', '118890') formats to '0001193125-15-118890' |
| Accession.ParseThenFormat | sec_edgar_downloader/UrlComponent.py:88-107 | A valid string whose CIK part is already ten characters is returned unchanged by parse then format |
| Accession.FormatThenParse | sec_edgar_downloader/UrlComponent.py:88-107 | Valid, dash-free components without a leading zero survive format then parse |
| Accession.CanonicalFormIgnoresPadding | sec_edgar_downloader/UrlComponent.py:88-107 | Differently zero-padded spellings of one accession number have the same canonical form |
| Accession.Construct | sec_edgar_downloader/UrlComponent.py:63-83 | The constructor succeeds exactly when the parse succeeds and its components are valid; it then stores the input unchanged; no input gives the placeholder components and None |
| Accession.ConstructByParts | sec_edgar_downloader/UrlComponent.py:73-82 | Construction is the shape check on the parsed (or placeholder) components: success with the input, or TypeError |
| Accession.NoDash | sec_edgar_downloader/UrlComponent.py:132 | The result has no '-' and is no longer than the input; a dash-free string is unchanged |
| Accession.NoDashOfFormat | sec_edgar_downloader/UrlComponent.py:130-132 | The no-dash form of a canonical accession number is its three parts glued together, 18 characters |
| Accession.AccessionNumber.Unset | sec_edgar_downloader/UrlComponent.py:63 | A fresh object with empty components and no accession string |
| Accession.AccessionNumber.GetComponents | sec_edgar_downloader/UrlComponent.py:120-124 | The stored short CIK, year and sequence |
| Accession.AccessionNumber.State | sec_edgar_downloader/UrlComponent.py:63-83 | The components together with the stored accession string |
| Accession.AccessionNumber.VerifyComponentsMeetRequirements | sec_edgar_downloader/UrlComponent.py:109-118 | True exactly when the short CIK has 2 to 9 characters, the year 4 starting with "20", and the sequence 6 |
| Accession.AccessionNumber.GetAccessionNumberString | sec_edgar_downloader/UrlComponent.py:126-128 | The stored string, or "None" when there is none |
| Accession.AccessionNumber.GetNodashAccessionNumber | sec_edgar_downloader/UrlComponent.py:130-132 | The stored string without dashes; AttributeError exactly when no string is stored |
| Accession.AccessionNumber.ParseAccessionNumber | sec_edgar_downloader/UrlComponent.py:88-95 | Parses the argument or the stored string, assigning the components one at a time: a missing piece raises IndexError after the earlier ones are set; AttributeError when neither string exists |
| Accession.AccessionNumber.CreateFromComponents | sec_edgar_downloader/UrlComponent.py:97-107 | Formats the given components, or the stored ones unless all three are given; TypeError decided by the stored components; the components themselves stay unchanged |
| Accession.AccessionNumber.SetPlaceholder | sec_edgar_downloader/UrlComponent.py:73-77 | The placeholder ('999999999', '2099', '999999') and its formatted string, which parses back to it |
| Accession.AccessionNumber.SetUpComponents | sec_edgar_downloader/UrlComponent.py:73-78 | The placeholder step and the parse of the argument or the placeholder string, with the parse's error |
| Accession.AccessionNumber.New | sec_edgar_downloader/UrlComponent.py:63-83 | A fresh object in the state Construct describes, or its exception; the accession string is the raw input (None for the default constructor) |
| Filings.Dispatch | sec_edgar_downloader/UrlComponent.py:175-204 | The four constructor branches, each as an if-and-only-if over which arguments are truthy |
| Filings.FilingDetails | sec_edgar_downloader/UrlComponent.py:256-264 | IndexError exactly when there is no hit or the first hit has no CIK; otherwise the first CIK without leading zeros, with the first hit's form and file date |
| Filings.AccNoFromBrowse | sec_edgar_downloader/UrlComponent.py:300-301 | IndexError exactly when "Acc-no: " does not occur; otherwise the text after it up to the first backslash, the next "Acc-no: " or the end, whichever comes first; the result never holds "Acc-no: " |
| Filings.Identify | sec_edgar_downloader/UrlComponent.py:175-204 | Per branch: all given are stored; on the accession branch short CIK, type and date come from the search answer; on the CIK branch the accession number is built from the browse page; otherwise TypeError |
| Filings.Filing.ResolveIdentity | sec_edgar_downloader/UrlComponent.py:175-204 | The branch as Identify describes, keeping the accession object passed in or making a fresh one |
| Filings.PassedCikIgnored | sec_edgar_downloader/UrlComponent.py:181-192 | On the accession branch the short CIK passed in does not affect the result |
| Filings.AllGivenStoresArguments | sec_edgar_downloader/UrlComponent.py:175-180 | With all four arguments given, the search and browse answers do not matter and the arguments are stored |
| Filings.NothingGivenIsTypeError | sec_edgar_downloader/UrlComponent.py:195-204 | Without an accession number and without all of CIK, type and date, construction is a TypeError |
| Filings.WithoutViewerPrefix | sec_edgar_downloader/UrlComponent.py:349 | The href is unchanged without "/ix?doc="; otherwise the whole text after it, up to a second "/ix?doc=" or the end |
| Filings.Extension | sec_edgar_downloader/UrlComponent.py:350 | IndexError exactly when there is no '.'; otherwise the text between the first '.' and the next '.' or the end |
| Filings.ExtensionsSpec | sec_edgar_downloader/UrlComponent.py:350 | The list comprehension fails with IndexError exactly when some href has no '.', and otherwise holds each href's extension in order |
| Filings.Extensions | sec_edgar_downloader/UrlComponent.py:350 | A successful list has one extension per href |
| Filings.DocumentsOf | sec_edgar_downloader/UrlComponent.py:345-366 | One document per row, in order, with the row's cells, its href, its extension, no location and the report date; no href or an href without '.' is IndexError; a count mismatch is ValueError |
| Filings.FirstMatchSpec | sec_edgar_downloader/UrlComponent.py:370-375 | The first-match index is None exactly when no row matches; otherwise it matches and no earlier row does |
| Filings.FirstMatch | sec_edgar_downloader/UrlComponent.py:370-375 | The index found lies within the documents |
| Filings.DocumentUrlSpec | sec_edgar_downloader/UrlComponent.py:369-375 | Each well-known URL is None exactly when no row matches, else the SEC host plus the first matching row's URL |
| Filings.FolderEndsWithAccession | sec_edgar_downloader/UrlComponent.py:373-374 | The archive folder's last path piece is the no-dash accession number |
| Filings.ReadDetailPage | sec_edgar_downloader/UrlComponent.py:306-389 | AttributeError when there is no accession string, else the documents' error; on success the identity is kept, type and dates are all set, each one already present is kept, the page's documents are appended, and each of the four URLs is the SEC host plus the first matching document's URL, or None exactly when no document matches |
| Filings.Build | sec_edgar_downloader/UrlComponent.py:164-220 | The whole constructor: Identify's error, or a filing with the identified accession and short CIK, type and filing date set, the page's report date and exactly the page's documents; built from a browse page, the accession number is the valid one read from it |
| Filings.BuiltUrls | sec_edgar_downloader/UrlComponent.py:369-386 | A built filing's report date comes from the page, and its zip, xlsx and detail-page URLs lie in the archive folder named by the no-dash accession number |
| Filings.Filing.Init | sec_edgar_downloader/UrlComponent.py:206-217 | The provisioned state: identity set, no report date, no documents, no URLs |
| Filings.Filing.GetFilingDocuments | sec_edgar_downloader/UrlComponent.py:306-389 | The object's new state is ReadDetailPage's; on a bad page the type and dates are already filled in |
| Filings.Filing.FillFromPage | sec_edgar_downloader/UrlComponent.py:335-337 | Type, filing date and report date filled from the page where None |
| Filings.Filing.AppendDocuments | sec_edgar_downloader/UrlComponent.py:369-385 | Documents appended; details filename None; the text, detail, exhibit and instance URLs by first match |
| Filings.Filing.SetArchiveUrls | sec_edgar_downloader/UrlComponent.py:373-386 | The detail page, xlsx and zip URLs built from the short CIK and the no-dash accession number |
| Filings.Filing.LoadDocuments | sec_edgar_downloader/UrlComponent.py:369-386 | Both updates of the document and URL attributes, in order |
| Filings.Filing.New | sec_edgar_downloader/UrlComponent.py:164-220 | A fresh Filing in the state Build describes, or Build's exception; an accession object passed in is shared, not copied |
| Filings.Filing.Provisioned | sec_edgar_downloader/UrlComponent.py:206-219 | A fresh Filing provisioned and completed from the detail page, or the page's exception |
| Filings.KeyExample | tests/test_url_component.py:67-71 | The key of '0001628280-16-020309' under short CIK '320193' is '320193\|0001628280-16-020309' and splits back into the two |
| Filings.Key | sec_edgar_downloader/UrlComponent.py:397 | The key splits at '\|' back into the short CIK and the accession string when neither holds '\|' |
| Filings.Filing.CreateKey | sec_edgar_downloader/UrlComponent.py:392-397 | The key of the arguments when both are given, else of the object's own fields |
| Filings.Record | sec_edgar_downloader/UrlComponent.py:400-409 | The record keeps the non-URL attributes, and its document types are exactly the types of the documents |
| Filings.Filing.GetFileRecord | sec_edgar_downloader/UrlComponent.py:400-409 | The record of the object's current state |
| Firms.SelectIdentifier | sec_edgar_downloader/UrlComponent.py:449-456 | TypeError exactly when nothing is given; otherwise name before ticker before CIK, upper-cased |
| Firms.NameTakesPriority | sec_edgar_downloader/UrlComponent.py:450-456 | A given name is chosen whatever ticker and CIK say |
| Firms.FieldIndex | sec_edgar_downloader/UrlComponent.py:499 | The first position of the field name; None exactly when it is absent |
| Firms.MatchingSpec | sec_edgar_downloader/UrlComponent.py:500 | The filtered rows are exactly those holding the value in the column; the first of them is the first such row |
| Firms.GetItem | sec_edgar_downloader/UrlComponent.py:497-501 | The first data row whose named column equals the value; KeyError for a missing key; IndexError for an unknown field, a short row or no match, and no other error once the key, the field and the data are present |
| Firms.NumericColumnNeverMatches | sec_edgar_downloader/UrlComponent.py:500 | A column of JSON numbers never equals the text value, so the lookup is an IndexError |
| Firms.FirmRegistry.GetItemFromSecRegistry | sec_edgar_downloader/UrlComponent.py:496-501 | TypeError while the cache is None; otherwise GetItem on the cached registry |
| Firms.ByName | sec_edgar_downloader/UrlComponent.py:538-544 | The first registry row whose name is the matcher's choice, found whenever the choice is one of the names; KeyError without data; IndexError for a row without a name column or when the matcher chooses nothing |
| Firms.Names | sec_edgar_downloader/UrlComponent.py:540 | The second cell of every row, in order |
| Firms.Cached | sec_edgar_downloader/UrlComponent.py:530-534 | A truthy cache (fields, data or any other key) is kept and a falsy one replaced by the fetched registry; the result is truthy exactly when the old cache or the fetched registry is |
| Firms.CachedOnce | sec_edgar_downloader/UrlComponent.py:530-534 | Once a truthy registry is cached, later fetches change nothing |
| Firms.NatStringRoundTrip | sec_edgar_downloader/UrlComponent.py:460 | The decimal rendering used by `str` of a JSON number reads back as the number |
| Firms.CellString | sec_edgar_downloader/UrlComponent.py:460 | `str` of a registry cell: text as is, numbers in decimal with a sign, null as "None" |
| Firms.ZipValue | sec_edgar_downloader/UrlComponent.py:546 | `dict(zip(keys, row))` maps each key present to the row's cell at its position |
| Firms.ZipHas | sec_edgar_downloader/UrlComponent.py:546 | Every key with a cell at its position is in the dictionary |
| Firms.ZipOnly | sec_edgar_downloader/UrlComponent.py:546 | Only keys with a cell at their position are in the dictionary |
| Firms.Provision | sec_edgar_downloader/UrlComponent.py:460-463 | KeyError exactly when one of the four keys is missing; otherwise the CIK rendered with `str` and the other cells as they are |
| Firms.ProvisionOfRow | sec_edgar_downloader/UrlComponent.py:459-463 | A registry row provisions a firm exactly when it has four cells: CIK, name, ticker, exchange |
| Firms.Create | sec_edgar_downloader/UrlComponent.py:442-476 | TypeError without an identifier; otherwise the lookup's error, KeyError for a row of fewer than four cells, LookupError for a CIK already initialised, and in every other case a firm provisioned from the selected row |
| Firms.CreateTwice | sec_edgar_downloader/UrlComponent.py:470-474 | Creating the same firm again, once its CIK is recorded, is a LookupError |
| Firms.FirmRegistry.constructor | sec_edgar_downloader/UrlComponent.py:439-440 | No CIKs initialised and no registry cached |
| Firms.FirmRegistry.GetInitializedCiks | sec_edgar_downloader/UrlComponent.py:483-485 | The recorded CIKs |
| Firms.FirmRegistry.AddToInitializedCiks | sec_edgar_downloader/UrlComponent.py:487-490 | The CIK is added, the cache untouched, and True returned |
| Firms.FirmRegistry.GetSecRegistry | sec_edgar_downloader/UrlComponent.py:492-494 | The cached registry |
| Firms.FirmRegistry.SetSecRegistry | sec_edgar_downloader/UrlComponent.py:503-506 | The registry is cached, the CIKs untouched, and True returned |
| Firms.FirmRegistry.CheckFirmForPreviousInitializeUpdateIfNot | sec_edgar_downloader/UrlComponent.py:509-517 | True exactly when the CIK was recorded before; afterwards it is recorded |
| Firms.FirmRegistry.GetFirmInfoFromSecRegistry | sec_edgar_downloader/UrlComponent.py:519-547 | The cache as Cached leaves it, and the selected row zipped with the four keys, or the lookup's error |
| Firms.Firm.Init | sec_edgar_downloader/UrlComponent.py:459-463 | The four provisioned attributes |
| Firms.Firm.GetFirmInfo | sec_edgar_downloader/UrlComponent.py:549-559 | None exactly when the CIK is empty; otherwise the four attributes under their keys |
| Firms.Firm.New | sec_edgar_downloader/UrlComponent.py:442-476 | A fresh firm as Create describes, or its exception; the cache is filled once an identifier is chosen; the CIK is recorded on success |
| Firms.Firm.Provisioned | sec_edgar_downloader/UrlComponent.py:459-474 | KeyError for missing information; LookupError for a CIK seen before; the CIK is recorded either way once provisioned |
| Params.NormaliseTickerOrCik | sec_edgar_downloader/_utils.py:280-293 | Stripped and upper-cased; blank is ValueError; a CIK longer than 10 is ValueError, otherwise it is zero-filled to exactly 10; a ticker is kept |
| Params.NormaliseFixed | sec_edgar_downloader/_utils.py:280-293 | An already upper-case, unpadded ticker, or a CIK of exactly 10 characters, normalises to itself |
| Params.NormaliseIdempotent | sec_edgar_downloader/_utils.py:280-293 | Normalising a normalised ticker or CIK changes nothing |
| Params.CheckAmount | sec_edgar_downloader/_utils.py:295-305 | None becomes sys.maxsize; a given amount is kept exactly when it is at least 1, else ValueError |
| Params.CheckAfter | sec_edgar_downloader/_utils.py:308-317 | Default when None; a given date must parse and must not be lexically before the default |
| Params.CheckBefore | sec_edgar_downloader/_utils.py:319-322 | Default when None; it fails with ValueError exactly when a date is given that does not parse, and a given date that is returned always parses |
| Params.CheckParams | sec_edgar_downloader/_utils.py:254-340 | Each error exit in the source's order; on success the normalised values with filing, amends flag and query unchanged, the filing supported, the amount at least 1 and after ≤ before |
| Params.CheckParamsIdempotent | sec_edgar_downloader/_utils.py:254-340 | Checking the checked parameters again returns them unchanged |
| Strings.Split | sec_edgar_downloader/UrlComponent.py:92 | `str.split(sep)`: separator-free pieces, at least one, that join back to the string; one piece exactly when the separator is absent |
| Strings.SplitJoin | sec_edgar_downloader/_utils.py:366-367 | Splitting a join of separator-free pieces gives the pieces back |
| Strings.LStrip | sec_edgar_downloader/UrlComponent.py:93 | `lstrip('0')`: the input is some zeros followed by the result, which does not start with '0' |
| Strings.LStripRepeat | sec_edgar_downloader/UrlComponent.py:93 | Leading copies of the stripped character do not change the result |
| Strings.Strip | sec_edgar_downloader/_utils.py:280 | `strip()`: no longer than the input, and neither end of the result is white space; StripIsSlice gives what is removed |
| Strings.StripIsSlice | sec_edgar_downloader/_utils.py:280 | The stripped string is a contiguous slice of the input, and every character removed before or after it is white space |
| Strings.StripBlank | sec_edgar_downloader/_utils.py:280-284 | Stripping leaves nothing exactly when the input is all white space |
| Strings.UpperIdempotent | sec_edgar_downloader/_utils.py:280 | Upper-casing twice is upper-casing once; no lower-case letter remains |
| Strings.Upper | sec_edgar_downloader/_utils.py:280 | `upper()`, character by character, keeping the length: no lower-case letter is left, and every other character is kept |
| Strings.Lower | sec_edgar_downloader/downloader.py:147 | `lower()`, character by character, keeping the length: no upper-case letter is left, and every other character is kept |
| Strings.LowerIdempotent | sec_edgar_downloader/downloader.py:147 | Lower-casing twice is lower-casing once; no upper-case letter remains |
| Strings.ZFill | sec_edgar_downloader/_utils.py:293 | `zfill(width)`: a string at least as long is kept; otherwise zeros are inserted after any sign up to the width |
| Strings.LessTransitive | sec_edgar_downloader/_utils.py:324 | The lexical order the dates are compared in is transitive |
| Strings.LessIrreflexive | sec_edgar_downloader/_utils.py:313 | No date is before itself |
| Strings.LessAsymmetric | sec_edgar_downloader/_utils.py:324 | Two dates are never before each other |
| Strings.LessTotal | sec_edgar_downloader/_utils.py:324 | Any two distinct dates are ordered one way or the other |
| Strings.SplitOnce | sec_edgar_downloader/_utils.py:86 | `split(":", 1)`: None exactly without the separator; otherwise a separator-free head, the separator and the rest |
| Strings.LastPieceSpec | sec_edgar_downloader/downloader.py:70 | `split("/")[-1]`: a separator-free suffix of the string |
| Strings.LastPieceOfJoin | sec_edgar_downloader/_utils.py:376-383 | The last piece of a joined path is its last part when that has no separator |
| Strings.Find | sec_edgar_downloader/downloader.py:69 | The first occurrence of a pattern, or None exactly when there is none |
| Strings.DeleteCharRemoves | sec_edgar_downloader/UrlComponent.py:132 | `replace('-', '')` leaves no dash and keeps a dash-free string |
| Strings.DeleteFirstStep | sec_edgar_downloader/_utils.py:92 | `replace('-', '', n)` removes the first dash and continues with n - 1 |
| Strings.Before | sec_edgar_downloader/UrlComponent.py:301 | A prefix without the pattern, ending exactly at the position `find` gives for the first occurrence, or all of the text |
| Strings.After | sec_edgar_downloader/UrlComponent.py:301 | The text after the pattern's first occurrence; None exactly without one |
| Search.Suffix | sec_edgar_downloader/_utils.py:106 | `Path.suffix`: in the last path piece, the text from its last '.' when that dot is neither the first nor the last character, and empty otherwise; a suffix starts with its only '.' |
| Search.LastIndexOf | sec_edgar_downloader/_utils.py:106 | The last position of a character; None exactly when it is absent |
| Search.ExtensionAsWritten | sec_edgar_downloader/_utils.py:106 | `replace("htm", "html")` on every occurrence; a suffix without "htm" is kept |
| Search.HtmlSuffixDoubled | sec_edgar_downloader/_utils.py:106 | As written, ".html" becomes ".htmll" |
| Search.ExtensionAsWrittenNotIdempotent | sec_edgar_downloader/_utils.py:106 | As written, the rewriting changes its own ".html" result again |
| Search.DetailsFilenameAsWritten | sec_edgar_downloader/_utils.py:106-107 | As written, a details document ending in ".html" is named stem + ".htmll" |
| Search.Extension | sec_edgar_downloader/_utils.py:106 | The intended rewriting: ".htm" becomes ".html", every other suffix is kept; both HTML spellings give ".html" and no result is ".htm" again |
| Search.ExtensionIdempotent | sec_edgar_downloader/_utils.py:106 | The intended rewriting is idempotent and maps both HTML spellings to ".html" |
| Search.DetailsFilename | sec_edgar_downloader/_utils.py:105-107 | The stem plus the original suffix, with ".htm" and ".html" both giving ".html" |
| Search.BuildFilingMetadataFromHit | sec_edgar_downloader/_utils.py:85-129 | Succeeds exactly when `_id` holds ':', its accession part has three dash pieces and `ciks` is non-empty; otherwise the unpack ValueError or IndexError |
| Search.MetadataOfHit | sec_edgar_downloader/_utils.py:86-128 | Every field of the built record: the last CIK without leading zeros for the record, detail page and zip; as listed for the text, details and xlsx URLs; both dashes removed; the empty fields |
| Search.NoDashOfThree | sec_edgar_downloader/_utils.py:92 | `replace("-", "", 2)` on an accession with two dashes equals removing every dash |
| Search.ThreePieces | sec_edgar_downloader/_utils.py:87 | An accession part with three dash pieces is the three pieces joined by two dashes |
| Search.DeleteBothDashes | sec_edgar_downloader/_utils.py:92 | Removing the first two dashes of "a-b-d" and removing every dash both give "abd" |
| Search.MetadataAgreesWithFiling | sec_edgar_downloader/_utils.py:109-113 | For the same short CIK and accession, a hit's detail page and zip URLs equal those a Filing builds |
| Search.Select | sec_edgar_downloader/_utils.py:204-220 | The scan's result never holds more than the requested count |
| Search.WantedHitsSpec | sec_edgar_downloader/_utils.py:205-214 | The kept hits are exactly the hits that are not unwanted amendments and have the requested type or are amendments |
| Search.BuildAllSpec | sec_edgar_downloader/_utils.py:216-217 | Building succeeds exactly when every hit builds, then entry by entry; a failure is some hit's error |
| Search.SelectIsFilterTakeMap | sec_edgar_downloader/_utils.py:204-220 | The scan is: keep the wanted hits in order, take the first count, build each |
| Search.WantedHits | sec_edgar_downloader/_utils.py:205-214 | The hits kept number at most the hits given |
| Search.BuildAll | sec_edgar_downloader/_utils.py:216-217 | A successful build has one record per hit |
| Search.SelectNone | sec_edgar_downloader/_utils.py:182 | Asking for no filings selects nothing |
| Search.HitsFrom | sec_edgar_downloader/_utils.py:198-202 | The hits read stop at the first empty answer |
| Search.RequestsAt | sec_edgar_downloader/_utils.py:183-225 | The i-th request starts at the sizes of the previous answers added up |
| Search.ScanPage | sec_edgar_downloader/_utils.py:204-220 | The scan of one answer's hits is Select over them, and also the start of Select over them and the later answers; it completes exactly when it raises or collects the missing count |
| Search.ReadAnswer | sec_edgar_downloader/_utils.py:198-225 | One answer: the loop stops exactly at a missing or empty answer, a build failure or a complete result, and otherwise carries on with the entries found so far plus this answer's |
| Search.Rounds | sec_edgar_downloader/_utils.py:182-225 | The number of requests the loop sends: at least one, at most one more than the answers left |
| Search.Paginate | sec_edgar_downloader/_utils.py:177-232 | The loop returns the scan of the hits of the pages read; the requests carry the advancing start index; it sends requests exactly when the count is positive, exactly Rounds of them, moving on only past answers with hits |
| Search.GetFilingUrlsToDownload | sec_edgar_downloader/_utils.py:168-232 | The filtered, capped, order-preserving scan of the search answers; exactly Rounds requests are sent, each for the next start index, and none for a count of zero |
| Download.SavePathName | sec_edgar_downloader/_utils.py:376-383 | The saved file's name is the document's own name |
| Download.Handle | sec_edgar_downloader/_utils.py:366-399 | One entry: a bad key is ValueError; a document on disk goes to previous unfetched; a fetch HTTP error goes to fail and other fetch errors escape; after a successful fetch, a successful storage update gives the document with its save path as location, an HTTP error of the update sends it to fail, and any other error escapes |
| Download.HandleEntry | sec_edgar_downloader/_utils.py:366-399 | The loop body ends as Handle says and requests the URLs it says |
| Download.DownloadResult | sec_edgar_downloader/_utils.py:345-404 | The three lists sorted from the fates, or the exception ending the pass; on success the lists hold one document per entry, previous is exactly the entries on disk, in order, and every new document has a location |
| Download.DownloadUrls | sec_edgar_downloader/_utils.py:345-404 | The loop returns DownloadResult and requests exactly HandleAll's URLs |
| Download.SortedSizes | sec_edgar_downloader/_utils.py:362-399 | The three lists together hold as many documents as there are fates |
| Download.FatesFit | sec_edgar_downloader/_utils.py:365-399 | On a completed pass each entry has one fate, which fits it |
| Download.FittingLists | sec_edgar_downloader/_utils.py:368-399 | Fitting fates put exactly the on-disk documents in previous, and the others, in order, in new or fail |
| Download.EveryDocumentSortedOnce | sec_edgar_downloader/_utils.py:362-404 | Each document lands in exactly one list; previous is exactly the on-disk documents; new documents have a location |
| Download.OnlyMissingFetched | sec_edgar_downloader/_utils.py:368-372 | The URLs requested are exactly those of the documents not on disk, in order |
| Download.HandleAll | sec_edgar_downloader/_utils.py:365-399 | A completed pass has one fate per entry |
| Download.OnDisk | sec_edgar_downloader/_utils.py:398-399 | The documents that already have a location |
| Download.NotOnDisk | sec_edgar_downloader/_utils.py:368-371 | The documents without a location; with OnDisk they account for every entry |
| Download.OnDiskIndependentOfNetwork | sec_edgar_downloader/_utils.py:368-371 | The network's answers for documents on disk do not affect the pass |
| Download.HttpErrorContinues | sec_edgar_downloader/_utils.py:393-397 | An HTTP error puts the document in fail and the pass continues with the rest |
| Download.HandleIndependentOfNetwork | sec_edgar_downloader/_utils.py:368-371 | One entry's handling depends on the network only through its own document's URL, and only when it is not on disk |
| Download.HandleSucceeds | sec_edgar_downloader/_utils.py:366-397 | A well-formed key, only HTTP errors and a working update let the entry be sorted |
| Download.MissingStorageMethodAborts | sec_edgar_downloader/_utils.py:388 | As written, the first fetched document ends the pass with AttributeError |
| Download.CompletesWithWorkingStorage | sec_edgar_downloader/_utils.py:365-399 | With a working storage update, well-formed keys and only HTTP errors, the pass completes |
| Legacy.SpacesToPlus | sec_edgar_downloader/downloader.py:51 | `replace(' ', '+')`, character by character |
| Legacy.SpacesToPlusInverse | sec_edgar_downloader/downloader.py:51 | No space is left, and a type without '+' can be read back |
| Legacy.PlusToSpaces | sec_edgar_downloader/downloader.py:51 | The reverse rewriting, '+' to ' ', character by character |
| Legacy.BrowseUrlFields | sec_edgar_downloader/downloader.py:48-51 | The browse URL's '&'-fields are the base URL's, then CIK, type with '+' for spaces, and the date |
| Legacy.DetailUrl | sec_edgar_downloader/downloader.py:65-68 | The SEC host plus the href, with 'l' appended unless it already ends in 'l' |
| Legacy.FullFilingUrl | sec_edgar_downloader/downloader.py:69 | A URL without "-index.html" is unchanged (the replacement itself is IndexPageToText) |
| Legacy.FileName | sec_edgar_downloader/downloader.py:70 | `split("/")[-1]`: the whole slash-free end of the URL: the URL itself when it has no '/', otherwise a '/' comes right before it |
| Legacy.InfoOf | sec_edgar_downloader/downloader.py:65-71 | The FilingInfo of one documents button is the rewritten URL and its last piece: a name without '/' that ends the URL; without "-index.html" the URL is the detail URL, ending in 'l' |
| Legacy.IndexHrefGivesText | sec_edgar_downloader/downloader.py:65-71 | An index-page href "<p>-index.htm" leads to "<p>.txt", saved under its last piece |
| Legacy.IndexPageToText | sec_edgar_downloader/downloader.py:69 | A single trailing "-index.html" becomes ".txt" |
| Legacy.SavePathName | sec_edgar_downloader/downloader.py:83 | The saved file carries the filing's own name |
| Legacy.SaveAll | sec_edgar_downloader/downloader.py:79-99 | Each filing in order is saved at its path, up to the first failed fetch; every saved filing's fetch passed, and a failure is the fetch of the filing right after the saved ones |
| Legacy.SaveAllPasses | sec_edgar_downloader/downloader.py:79-81 | The download loop completes exactly when no fetch fails |
| Legacy.DownloadAt | sec_edgar_downloader/downloader.py:53-101 | The browse page's error, or the buttons' filings saved; with no buttons nothing is fetched |
| Legacy.Downloader.Init | sec_edgar_downloader/downloader.py:25-40 | The folder, count 100, the base URL and the six-entry dispatch table |
| Legacy.Downloader.New | sec_edgar_downloader/downloader.py:16-40 | IOError exactly when the download folder does not exist |
| Legacy.Downloader.DownloadFilings | sec_edgar_downloader/downloader.py:53-101 | The method's result is DownloadAt's, and the FilingInfo list is one per button in order |
| Legacy.CollectInfos | sec_edgar_downloader/downloader.py:63-71 | The first loop builds one FilingInfo per button, in order |
| Legacy.SaveInfos | sec_edgar_downloader/downloader.py:79-99 | The second loop saves as SaveAll says |
| Legacy.Downloader.GetFilingWrapper | sec_edgar_downloader/downloader.py:103-106 | Forms the browse URL for the type and downloads there; on a downloader set up by `__init__` the URL starts with the EDGAR browse base |
| Legacy.Downloader.GetFilingTypes | sec_edgar_downloader/downloader.py:109-131 | The given types run one after another through the wrapper, stopping at the first exception |
| Legacy.Downloader.GetAllAvailableFilingsForTicker | sec_edgar_downloader/downloader.py:133-139 | The six types in their order, stopping at the first exception |
| Legacy.Downloader.GetAllAvailableFilingsForTickerList | sec_edgar_downloader/downloader.py:141-143 | Every ticker in order, each with every type |
| Legacy.Downloader.GetSelectFilingsForTicker | sec_edgar_downloader/downloader.py:145-152 | Downloads the types of the known lower-cased keys in order; `skipped` stands for the message the method prints about the unknown requests (the method itself returns None); on a downloader set up by `__init__` the keys are those of the six-entry table |
| Legacy.SelectedSound | sec_edgar_downloader/downloader.py:146-152 | Every type selected comes from a requested filing whose lower-cased name is a key |
| Legacy.SelectedTypes | sec_edgar_downloader/downloader.py:146-152 | The types selected number at most the filings requested |
| Legacy.LowerAll | sec_edgar_downloader/downloader.py:147 | Each requested filing lower-cased, in order |
| Legacy.UnknownSound | sec_edgar_downloader/downloader.py:147-151 | Every skipped filing was requested and is not a key once lower-cased |
| Legacy.SelectedOrUnknown | sec_edgar_downloader/downloader.py:146-152 | Each requested filing is either selected or skipped |
| Legacy.UnknownSkipped | sec_edgar_downloader/downloader.py:148-151 | An unknown filing is skipped and the later ones are still selected |
| Legacy.SelectionIgnoresCase | sec_edgar_downloader/downloader.py:147 | Requests differing only in case select the same types |
| Legacy.KnownKeys | sec_edgar_downloader/downloader.py:33-40 | '13F' selects 13F, 'sc 13g' selects SC 13G, '10-K405' nothing |

## Left out

- HTTP and rate limiting are not modelled. This covers `requests`, the retries, `raise_for_status`, `time.sleep` and the random user agents. Each service's answer is a parameter instead: the search hits, the browse text, the detail page, the search pages, `fetch`, the registry and `update`.
- HTML and DataFrame parsing are not modelled: BeautifulSoup, `pd.read_html` and the concatenation of the detail page's tables. The rows, the hrefs and the page fields are given as sequences. The row whose filing date matches, for the browse page's accession number, is given as its description text.
- `resolve_relative_urls_in_filing` is HTML rewriting, and is not modelled.
- The fuzzy name match (rapidfuzz WRatio) is a foreign library. It stands as the `best` function that answers the chosen name.
- `strptime` is not modelled. `validate_date_format` uses the uninterpreted `isDateFormat`; its TypeError for a non-string date cannot arise, because dates are strings here.
- `Filing` keeps the file and report dates as strings, not `datetime`.
- Today's date is not modelled. It is the `defaultBeforeDate` constant and the `today` parameter of the legacy browse URL.
- The `_constants` values are not part of this model: `is_cik`, `SUPPORTED_FILINGS`, the base URLs, `ROOT_SAVE_FOLDER_NAME`, `FILING_DETAILS_FILENAME_STEM` and the default dates. They are fields of `Constants`.
- `sys.maxsize` is the 64-bit value.
- `int(amount)` on a value that is not an int is not modelled: the amount is an `Option<int>`.
- File writes, `mkdir`, streaming in chunks, `print` and logging are left out. A saved file is recorded as its path and URL.
- FilingStorage.py is not part of this model. It holds pickle I/O, grep subprocesses and mmap, and several of its methods are broken. Its `modify_document_in_record`, which `download_urls` calls, does not exist, so that call is the `update` parameter. `dump_to_pickle` after the loop is not modelled.
- Downloader.py, the newer orchestration class, is not part of this model. It resolves file-system paths and imports a helper that `_utils.py` does not define.
- The trailing commas at UrlComponent.py:377-385 turn most URL attributes into 1-tuples. The model stores the values themselves.
- The `__repr__` methods are not modelled. Neither are `Filing.get_document_record_list`, `Firm.get_initialized_firms` and the `Firm` report getters; they are outside the modelled core.
- The constructor's `type(...) == str` and `type(...) == AccessionNumber` tests always hold, because the arguments are typed. Their silent fall-through on the first branch is not modelled.
- Strings are modelled on ASCII only:
  - `upper`, `lower` and `strip` use the ASCII letters and white space, not Unicode case mapping;
  - `Path` joining is plain '/' concatenation, without normalisation.
- `Downloader.validate_ticker` does nothing and is not modelled.
- `get_filing_urls_to_download`'s `finally: print` is not modelled.
- A request past the last page given finds no hits.
- Search.BuildFilingMetadataFromHit: builds the details file name with the corrected extension (Search.DetailsFilename), not the ".htmll" the code gives an ".html" document (_utils.py:106-107); the as-written name is Search.DetailsFilenameAsWritten, listed under Findings.
- Search.MetadataOfHit: states the record of the corrected builder, so an ".html" details document is named with the stem plus ".html", not ".htmll".
- The default `download_folder` of the legacy `Downloader` (the home directory's "Downloads", downloader.py:16) is a file-system lookup: the folder is always a parameter.
- Params.CheckAfter: the date comparison is the lexical order of the strings, exactly as the code compares them; the model does not relate it to calendar order.

## Findings

| source | as written | input that shows it | evidently intended | confidence | as-written member | corrected member |
|---|---|---|---|---|---|---|
| sec_edgar_downloader/_utils.py:106 | `Path(filing_details_filename).suffix.replace("htm", "html")` replaces every "htm" | a hit whose document name ends in ".html": the suffix ".html" becomes ".htmll" | only the ".htm" suffix becomes ".html"; ".html" is kept | high (not executed) | Search.HtmlSuffixDoubled, Search.DetailsFilenameAsWritten | Search.ExtensionIdempotent, Search.DetailsFilename |
| sec_edgar_downloader/_utils.py:388 | `filing_storage.modify_document_in_record(...)` calls a method `FilingStorage` does not define | any entry with a well-formed key, no `FS_Location` and a successful fetch: the pass raises AttributeError after writing the first file | the record of the document is updated and the loop continues | high (not executed) | Download.MissingStorageMethodAborts | Download.CompletesWithWorkingStorage |
