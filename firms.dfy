/**
 * The `Firm` part of UrlComponent.py: choosing the identifier a firm is looked up
 * by, the lookup in the bulk company registry (`company_tickers_exchange.json`),
 * the registry cache and the set of CIKs already initialised. The two class-level
 * attributes of `Firm` are the fields of an explicit FirmRegistry object.
 */
module Firms {
  import opened Wrappers
  import opened Strings

  // ---------------------------------------------------------------------------
  // The registry document

  /** A value in a row of the registry's `data`: JSON text, a JSON number or null. */
  datatype Cell = Text(text: string) | Number(n: int) | Null

  /**
   * The registry document as the code reads it: its `fields` and `data` entries,
   * None where the key is absent, and whether it holds any other key. A document
   * with none of these stands for the empty dict.
   */
  datatype Registry = Registry(fields: Option<seq<string>>, data: Option<seq<seq<Cell>>>, otherKeys: bool)

  /** Python's truth value of the cached registry: None and the empty dict are false. */
  predicate Truthy(reg: Option<Registry>)
  {
    reg.Some? && (reg.value.fields.Some? || reg.value.data.Some? || reg.value.otherKeys)
  }

  /**
   * The cache after `get_firm_info_from_sec_registry`'s first step: fetched only
   * while false. Once either the cache or the fetched document is non-empty, the
   * result is non-empty, so the next call keeps it.
   */
  function Cached(reg: Option<Registry>, fetched: Registry): (r: Option<Registry>)
    ensures r.Some?
    ensures Truthy(reg) ==> r == reg
    ensures !Truthy(reg) ==> r == Some(fetched)
    ensures Truthy(r) <==> Truthy(reg) || Truthy(Some(fetched))
  {
    if Truthy(reg) then reg else Some(fetched)
  }

  // ---------------------------------------------------------------------------
  // Rendering numbers as `str` does

  function DigitChar(d: nat): (c: char)
    requires d < 10
    ensures '0' <= c <= '9' && c as int - '0' as int == d
  {
    ('0' as int + d) as char
  }

  function DigitValue(c: char): (d: nat)
    requires '0' <= c <= '9'
    ensures d < 10 && d == c as int - '0' as int
  {
    (c as int - '0' as int) as nat
  }

  predicate AllDigits(s: string)
  {
    forall i :: 0 <= i < |s| ==> '0' <= s[i] <= '9'
  }

  /** The decimal digits of `n`, most significant first, without leading zeros. */
  function NatString(n: nat): (r: string)
    ensures r != [] && AllDigits(r)
    ensures r[0] == '0' ==> r == "0"
    decreases n
  {
    if n < 10 then [DigitChar(n)] else NatString(n / 10) + [DigitChar(n % 10)]
  }

  /** The number a string of decimal digits denotes. */
  function DigitsValue(s: string): nat
    requires AllDigits(s)
  {
    if s == [] then 0 else DigitsValue(s[..|s| - 1]) * 10 + DigitValue(s[|s| - 1])
  }

  /** Reading back the digits of a number gives the number. */
  lemma {:induction false} NatStringRoundTrip(n: nat)
    ensures DigitsValue(NatString(n)) == n
    decreases n
  {
    if n >= 10 {
      NatStringRoundTrip(n / 10);
      var s := NatString(n);
      assert s[..|s| - 1] == NatString(n / 10);
    }
  }

  /** `str(cell)`: text as it is, a number in decimal with a '-' when negative, null as "None". */
  function CellString(c: Cell): (r: string)
    ensures c.Text? ==> r == c.text
    ensures c.Number? ==> r != []
    ensures c.Number? && c.n >= 0 ==> AllDigits(r) && DigitsValue(r) == c.n && (r[0] == '0' ==> r == "0")
    ensures c.Number? && c.n < 0 ==> r[0] == '-' && AllDigits(r[1..]) && DigitsValue(r[1..]) == -c.n
    ensures c.Null? ==> r == "None"
  {
    match c
    case Text(s) => s
    case Number(n) =>
      if n >= 0 then
        NatStringRoundTrip(n);
        NatString(n)
      else
        NatStringRoundTrip(-n);
        assert ("-" + NatString(-n))[1..] == NatString(-n);
        "-" + NatString(-n)
    case Null => "None"
  }

  // ---------------------------------------------------------------------------
  // Choosing the identifier

  /** The registry field an identifier is looked up in. */
  datatype Param = NameParam | TickerParam | CikParam

  function FieldName(p: Param): (f: string)
    ensures f in ["name", "ticker", "cik"]
  {
    match p
    case NameParam => "name"
    case TickerParam => "ticker"
    case CikParam => "cik"
  }

  /**
   * The selection loop of `Firm.__init__`: the first of name, ticker and cik that
   * is given, upper-cased; a TypeError when none is.
   */
  function SelectIdentifier(cik: Option<string>, ticker: Option<string>, name: Option<string>): (r: Result<(Param, string)>)
    ensures r.Failure? <==> cik.None? && ticker.None? && name.None?
    ensures r.Failure? ==> r.error == TypeError
    ensures r.Success? && r.value.0 == NameParam ==> name.Some? && r.value.1 == Upper(name.value)
    ensures r.Success? && r.value.0 == TickerParam ==> name.None? && ticker.Some? && r.value.1 == Upper(ticker.value)
    ensures r.Success? && r.value.0 == CikParam ==> name.None? && ticker.None? && cik.Some? && r.value.1 == Upper(cik.value)
  {
    if name.Some? then Success((NameParam, Upper(name.value)))
    else if ticker.Some? then Success((TickerParam, Upper(ticker.value)))
    else if cik.Some? then Success((CikParam, Upper(cik.value)))
    else Failure(TypeError)
  }

  /** A name, when given, wins over the other identifiers whatever they are. */
  lemma NameTakesPriority(cik1: Option<string>, ticker1: Option<string>, cik2: Option<string>, ticker2: Option<string>, name: string)
    ensures SelectIdentifier(cik1, ticker1, Some(name)) == SelectIdentifier(cik2, ticker2, Some(name))
    ensures SelectIdentifier(cik1, ticker1, Some(name)) == Success((NameParam, Upper(name)))
  {
  }

  // ---------------------------------------------------------------------------
  // Looking a firm up

  /** The position of the first field called `name`. */
  function FieldIndex(fields: seq<string>, name: string): (r: Option<nat>)
    ensures r.None? <==> name !in fields
    ensures r.Some? ==> r.value < |fields| && fields[r.value] == name && name !in fields[..r.value]
  {
    if fields == [] then None
    else if fields[0] == name then Some(0)
    else
      match FieldIndex(fields[1..], name)
      case None => None
      case Some(i) =>
        assert fields[..i + 1] == [fields[0]] + fields[1..][..i];
        Some(i + 1)
  }

  /** Some row of `data` is too short to hold column `index`. */
  predicate HasShortRow(data: seq<seq<Cell>>, index: nat)
  {
    exists k :: 0 <= k < |data| && |data[k]| <= index
  }

  /** Without its first row, `data` has no short row either. */
  lemma NoShortRowTail(data: seq<seq<Cell>>, index: nat)
    requires data != [] && !HasShortRow(data, index)
    ensures !HasShortRow(data[1..], index) && |data[0]| > index
  {
    forall k | 0 <= k < |data[1..]| ensures |data[1..][k]| > index {
      assert data[1..][k] == data[k + 1];
    }
  }

  /** The rows whose column `index` holds `value`, in order. */
  function Matching(data: seq<seq<Cell>>, index: nat, value: Cell): seq<seq<Cell>>
    requires !HasShortRow(data, index)
  {
    if data == [] then []
    else
      NoShortRowTail(data, index);
      var rest := Matching(data[1..], index, value);
      if data[0][index] == value then [data[0]] + rest else rest
  }

  /** Matching holds exactly the rows with `value` in column `index`; its first is the first such row. */
  lemma {:induction false} MatchingSpec(data: seq<seq<Cell>>, index: nat, value: Cell)
    requires !HasShortRow(data, index)
    ensures var r := Matching(data, index, value);
      && (forall row :: row in r <==> row in data && row[index] == value)
      && (r != [] ==> exists k :: 0 <= k < |data| && data[k] == r[0] && forall j :: 0 <= j < k ==> data[j][index] != value)
    decreases |data|
  {
    if data != [] {
      NoShortRowTail(data, index);
      MatchingSpec(data[1..], index, value);
      var rest := Matching(data[1..], index, value);
      if data[0][index] != value && rest != [] {
        var k :| 0 <= k < |data[1..]| && data[1..][k] == rest[0] && forall j :: 0 <= j < k ==> data[1..][j][index] != value;
        assert forall j :: 1 <= j < k + 1 ==> data[j] == data[1..][j - 1];
        assert data[k + 1] == rest[0];
      }
    }
  }

  /**
   * `get_item_from_sec_registry`: the first row whose column named `param` holds
   * the text `value`. A missing key is a KeyError; an unknown field, a row too
   * short for the column and no matching row are IndexErrors.
   */
  function GetItem(reg: Registry, param: string, value: string): (r: Result<seq<Cell>>)
    ensures reg.fields.None? ==> r == Failure(KeyError)
    ensures reg.fields.Some? && param !in reg.fields.value ==> r == Failure(IndexError)
    ensures reg.fields.Some? && param in reg.fields.value && reg.data.None? ==> r == Failure(KeyError)
    ensures r.Success? ==>
      var i := FieldIndex(reg.fields.value, param).value;
      && reg.data.Some? && !HasShortRow(reg.data.value, i)
      && i < |r.value| && r.value[i] == Text(value)
      && (exists k :: 0 <= k < |reg.data.value| && reg.data.value[k] == r.value
           && forall j :: 0 <= j < k ==> reg.data.value[j][i] != Text(value))
    ensures reg.fields.Some? && param in reg.fields.value && reg.data.Some? ==>
      var i := FieldIndex(reg.fields.value, param).value;
      (r.Success? <==> !HasShortRow(reg.data.value, i) && exists row :: row in reg.data.value && row[i] == Text(value))
    ensures reg.fields.Some? && param in reg.fields.value && reg.data.Some? && r.Failure? ==> r == Failure(IndexError)
  {
    match reg.fields
    case None => Failure(KeyError)
    case Some(fields) =>
      match FieldIndex(fields, param)
      case None => Failure(IndexError)
      case Some(i) =>
        match reg.data
        case None => Failure(KeyError)
        case Some(data) =>
          if HasShortRow(data, i) then Failure(IndexError)
          else
            MatchingSpec(data, i, Text(value));
            var found := Matching(data, i, Text(value));
            if found == [] then Failure(IndexError) else Success(found[0])
  }

  /**
   * The value the code compares with a registry cell is text, so a column of
   * JSON numbers never matches: looking a firm up in such a column is an IndexError.
   */
  lemma NumericColumnNeverMatches(reg: Registry, param: string, value: string)
    requires reg.fields.Some? && param in reg.fields.value && reg.data.Some?
    requires forall row: seq<Cell> :: row in reg.data.value ==> |row| > FieldIndex(reg.fields.value, param).value
    requires forall row: seq<Cell> :: row in reg.data.value ==> row[FieldIndex(reg.fields.value, param).value].Number?
    ensures GetItem(reg, param, value) == Failure(IndexError)
  {
    var i := FieldIndex(reg.fields.value, param).value;
    assert !HasShortRow(reg.data.value, i) by {
      forall k | 0 <= k < |reg.data.value| ensures |reg.data.value[k]| > i {
        assert reg.data.value[k] in reg.data.value;
      }
    }
  }

  /** The second cell of every row: the firm names the fuzzy match chooses from. */
  function Names(data: seq<seq<Cell>>): (r: seq<Cell>)
    requires !HasShortRow(data, 1)
    ensures |r| == |data| && forall k :: 0 <= k < |data| ==> r[k] == data[k][1]
  {
    if data == [] then []
    else
      assert !HasShortRow(data[1..], 1) by {
        forall k | 0 <= k < |data[1..]| ensures |data[1..][k]| > 1 {
          assert data[1..][k] == data[k + 1];
        }
      }
      [data[0][1]] + Names(data[1..])
  }

  /**
   * The name branch of `get_firm_info_from_sec_registry`: `best` stands for the
   * fuzzy matcher, which answers the best of the choices or None when it has
   * nothing to offer; the first row with that name is the firm. The registry
   * without `data` is a KeyError; a row without a name, no candidate and no row
   * with the candidate's name are IndexErrors.
   */
  function ByName(reg: Registry, value: string, best: (string, seq<Cell>) -> Option<Cell>): (r: Result<seq<Cell>>)
    ensures reg.data.None? ==> r == Failure(KeyError)
    ensures reg.data.Some? && HasShortRow(reg.data.value, 1) ==> r == Failure(IndexError)
    ensures reg.data.Some? && !HasShortRow(reg.data.value, 1) ==>
      var choice := best(value, Names(reg.data.value));
      && (choice.None? ==> r == Failure(IndexError))
      && (choice.Some? && choice.value in Names(reg.data.value) ==> r.Success? && r.value in reg.data.value && r.value[1] == choice.value)
    ensures r.Success? ==> r.value in reg.data.value && |r.value| > 1 && Some(r.value[1]) == best(value, Names(reg.data.value))
    ensures r.Success? ==>
      (exists k :: 0 <= k < |reg.data.value| && reg.data.value[k] == r.value
         && forall j :: 0 <= j < k ==> reg.data.value[j][1] != r.value[1])
  {
    match reg.data
    case None => Failure(KeyError)
    case Some(data) =>
      if HasShortRow(data, 1) then Failure(IndexError)
      else
        match best(value, Names(data))
        case None => Failure(IndexError)
        case Some(choice) =>
          MatchingSpec(data, 1, choice);
          var found := Matching(data, 1, choice);
          assert choice in Names(data) ==> found != [] by {
            if choice in Names(data) {
              var k :| 0 <= k < |Names(data)| && Names(data)[k] == choice;
              assert data[k] in found;
            }
          }
          if found == [] then Failure(IndexError)
          else
            assert found[0] in found;
            Success(found[0])
  }

  /** The row the identifier selects, on the name branch or by exact lookup. */
  function Lookup(reg: Registry, p: Param, value: string, best: (string, seq<Cell>) -> Option<Cell>): (r: Result<seq<Cell>>)
    ensures p == NameParam ==> r == ByName(reg, value, best)
    ensures p != NameParam ==> r == GetItem(reg, FieldName(p), value)
  {
    if p == NameParam then ByName(reg, value, best) else GetItem(reg, FieldName(p), value)
  }

  // ---------------------------------------------------------------------------
  // The firm's attributes

  function Min(a: nat, b: nat): nat
  {
    if a < b then a else b
  }

  /** The keys of the firm information dict. */
  datatype InfoKey = CikKey | NameKey | TickerKey | ExchangeKey

  /** The keys `dict(zip(keys, info_items))` pairs with a row's cells, in that order. */
  const InfoKeys: seq<InfoKey> := [CikKey, NameKey, TickerKey, ExchangeKey]

  /** `dict(zip(keys, items))`: pairs as far as the shorter runs; a later pair wins over an earlier one. */
  function Zip<K>(keys: seq<K>, items: seq<Cell>): map<K, Cell>
    decreases |keys|
  {
    if keys == [] || items == [] then map[]
    else
      var rest := Zip(keys[1..], items[1..]);
      if keys[0] in rest then rest else rest[keys[0] := items[0]]
  }

  /** Every key paired with an item is in the dict. */
  lemma {:induction false} ZipHas<K>(keys: seq<K>, items: seq<Cell>, i: nat)
    requires i < |keys| && i < |items|
    ensures keys[i] in Zip(keys, items)
    decreases i
  {
    if i > 0 {
      ZipHas(keys[1..], items[1..], i - 1);
      assert keys[1..][i - 1] == keys[i];
    }
  }

  /** The dict holds no key but those paired with an item. */
  lemma {:induction false} ZipOnly<K>(keys: seq<K>, items: seq<Cell>, k: K)
    ensures k in Zip(keys, items) ==> exists i :: 0 <= i < |keys| && i < |items| && keys[i] == k
    decreases |keys|
  {
    if keys != [] && items != [] && k != keys[0] {
      ZipOnly(keys[1..], items[1..], k);
      if k in Zip(keys[1..], items[1..]) {
        var i :| 0 <= i < |keys[1..]| && i < |items[1..]| && keys[1..][i] == k;
        assert keys[i + 1] == k;
      }
    }
  }

  /** A key that does not occur again later holds its own item. */
  lemma {:induction false} ZipValue<K>(keys: seq<K>, items: seq<Cell>, i: nat)
    requires i < |keys| && i < |items| && keys[i] !in keys[i + 1..]
    ensures keys[i] in Zip(keys, items) && Zip(keys, items)[keys[i]] == items[i]
    decreases i
  {
    ZipHas(keys, items, i);
    var rest := Zip(keys[1..], items[1..]);
    if i == 0 {
      ZipOnly(keys[1..], items[1..], keys[0]);
    } else {
      assert keys[1..][i - 1] == keys[i] && keys[1..][i - 1 + 1..] == keys[i + 1..];
      ZipValue(keys[1..], items[1..], i - 1);
      ZipHas(keys[1..], items[1..], i - 1);
    }
  }

  /** The attributes `__init__` provisions, and the raw CIK cell it records as initialised. */
  datatype FirmFields = FirmFields(cik: string, ticker: Cell, name: Cell, exchange: Cell, rawCik: Cell)

  /** The provisioning step: each of the four keys is read, so any one missing is a KeyError. */
  function Provision(info: map<InfoKey, Cell>): (r: Result<FirmFields>)
    ensures r.Success? <==> CikKey in info && TickerKey in info && NameKey in info && ExchangeKey in info
    ensures r.Failure? ==> r.error == KeyError
    ensures r.Success? ==> r.value == FirmFields(CellString(info[CikKey]), info[TickerKey], info[NameKey], info[ExchangeKey], info[CikKey])
  {
    if CikKey in info && TickerKey in info && NameKey in info && ExchangeKey in info then
      Success(FirmFields(CellString(info[CikKey]), info[TickerKey], info[NameKey], info[ExchangeKey], info[CikKey]))
    else Failure(KeyError)
  }

  /**
   * A registry row provisions a firm exactly when it has at least four cells:
   * the CIK is the first cell rendered with `str`, the name the second, the
   * ticker the third and the exchange the fourth.
   */
  lemma ProvisionOfRow(row: seq<Cell>)
    ensures Provision(Zip(InfoKeys, row)).Success? <==> |row| >= 4
    ensures |row| >= 4 ==> Provision(Zip(InfoKeys, row)).value == FirmFields(CellString(row[0]), row[2], row[1], row[3], row[0])
  {
    var keys := InfoKeys;
    assert keys[1..] == [NameKey, TickerKey, ExchangeKey] && keys[2..] == [TickerKey, ExchangeKey];
    assert keys[3..] == [ExchangeKey] && keys[4..] == [];
    if |row| >= 4 {
      ZipValue(keys, row, 0);
      ZipValue(keys, row, 1);
      ZipValue(keys, row, 2);
      ZipValue(keys, row, 3);
    } else {
      ZipOnly(keys, row, ExchangeKey);
      assert forall i :: 0 <= i < 3 ==> keys[i] != ExchangeKey;
    }
  }

  /**
   * What `Firm(cik, ticker, name)` does once the registry has answered: the
   * attributes of the new firm, or the exception. The registry is the cache as
   * `get_firm_info_from_sec_registry` leaves it; a CIK already initialised is a
   * LookupError.
   */
  function Create(reg: Option<Registry>, initialized: set<Cell>, cik: Option<string>, ticker: Option<string>, name: Option<string>,
                  fetched: Registry, best: (string, seq<Cell>) -> Option<Cell>): (r: Result<FirmFields>)
    ensures SelectIdentifier(cik, ticker, name).Failure? ==> r == Failure(TypeError)
    ensures r.Success? ==>
      var (p, v) := SelectIdentifier(cik, ticker, name).value;
      var row := Lookup(Cached(reg, fetched).value, p, v, best);
      && row.Success? && |row.value| >= 4
      && r.value == FirmFields(CellString(row.value[0]), row.value[2], row.value[1], row.value[3], row.value[0])
      && row.value[0] !in initialized
    ensures SelectIdentifier(cik, ticker, name).Success? ==>
      var (p, v) := SelectIdentifier(cik, ticker, name).value;
      var row := Lookup(Cached(reg, fetched).value, p, v, best);
      r == if row.Failure? then Failure(row.error)
           else if |row.value| < 4 then Failure(KeyError)
           else if row.value[0] in initialized then Failure(LookupError)
           else Success(FirmFields(CellString(row.value[0]), row.value[2], row.value[1], row.value[3], row.value[0]))
  {
    var (p, v) :- SelectIdentifier(cik, ticker, name);
    var row :- Lookup(Cached(reg, fetched).value, p, v, best);
    ProvisionOfRow(row);
    var fields :- Provision(Zip(InfoKeys, row));
    if fields.rawCik in initialized then Failure(LookupError) else Success(fields)
  }

  /** A firm cannot be created twice: once its CIK is recorded, the same request is a LookupError. */
  lemma CreateTwice(reg: Option<Registry>, initialized: set<Cell>, cik: Option<string>, ticker: Option<string>, name: Option<string>,
                    fetched: Registry, best: (string, seq<Cell>) -> Option<Cell>)
    requires Create(reg, initialized, cik, ticker, name, fetched, best).Success?
    ensures var f := Create(reg, initialized, cik, ticker, name, fetched, best).value;
      Create(Cached(reg, fetched), initialized + {f.rawCik}, cik, ticker, name, fetched, best) == Failure(LookupError)
  {
    var (p, v) := SelectIdentifier(cik, ticker, name).value;
    var row := Lookup(Cached(reg, fetched).value, p, v, best);
    ProvisionOfRow(row.value);
  }

  /** The registry is fetched at most once: a cache that is already filled is kept, whatever a later fetch would answer. */
  lemma CachedOnce(reg: Option<Registry>, first: Registry, later: Registry)
    requires first.fields.Some? || first.data.Some? || first.otherKeys
    ensures Cached(Cached(reg, first), later) == Cached(reg, first)
  {
  }

  // ---------------------------------------------------------------------------
  // The class-level state

  /** The class-level attributes of `Firm`: the CIKs already initialised and the cached registry. */
  class FirmRegistry {
    var initializedCiks: set<Cell>
    var secRegistry: Option<Registry>

    /** The state when the module is first imported. */
    constructor ()
      ensures initializedCiks == {} && secRegistry == None
    {
      initializedCiks, secRegistry := {}, None;
    }

    /** `get_initialized_ciks` (a list in an unspecified order, so a set here). */
    function GetInitializedCiks(): (s: set<Cell>)
      reads this
      ensures s == initializedCiks
    {
      initializedCiks
    }

    /** `add_to_initialized_ciks`. */
    method AddToInitializedCiks(cik: Cell) returns (ok: bool)
      modifies this
      ensures initializedCiks == old(initializedCiks) + {cik} && secRegistry == old(secRegistry)
      ensures ok
    {
      initializedCiks := initializedCiks + {cik};
      ok := true;
    }

    /** `get_sec_registry`. */
    function GetSecRegistry(): (r: Option<Registry>)
      reads this
      ensures r == secRegistry
    {
      secRegistry
    }

    /** `set_sec_registry`. */
    method SetSecRegistry(registry: Registry) returns (ok: bool)
      modifies this
      ensures secRegistry == Some(registry) && initializedCiks == old(initializedCiks)
      ensures ok
    {
      secRegistry := Some(registry);
      ok := true;
    }

    /** `get_item_from_sec_registry`; subscripting the registry while it is None is a TypeError. */
    function GetItemFromSecRegistry(param: string, value: string): (r: Result<seq<Cell>>)
      reads this
      ensures secRegistry.None? ==> r == Failure(TypeError)
      ensures secRegistry.Some? ==> r == GetItem(secRegistry.value, param, value)
    {
      match secRegistry
      case None => Failure(TypeError)
      case Some(reg) => GetItem(reg, param, value)
    }

    /** `check_firm_for_previous_initialize_update_if_not`: whether the CIK was recorded before; it is recorded now. */
    method CheckFirmForPreviousInitializeUpdateIfNot(cik: Cell) returns (previously: bool)
      modifies this
      ensures previously <==> cik in old(initializedCiks)
      ensures initializedCiks == old(initializedCiks) + {cik} && secRegistry == old(secRegistry)
    {
      if cik in GetInitializedCiks() {
        return true;
      }
      var _ := AddToInitializedCiks(cik);
      previously := false;
    }

    /**
     * `get_firm_info_from_sec_registry`: `fetched` stands for the registry the
     * network would answer; it is stored only while the cache is false. The
     * answer is the selected row zipped with the four keys.
     */
    method GetFirmInfoFromSecRegistry(p: Param, value: string, fetched: Registry, best: (string, seq<Cell>) -> Option<Cell>)
      returns (r: Result<map<InfoKey, Cell>>)
      modifies this
      ensures secRegistry == Cached(old(secRegistry), fetched) && initializedCiks == old(initializedCiks)
      ensures var row := Lookup(secRegistry.value, p, value, best);
        && (r.Success? <==> row.Success?)
        && (r.Failure? ==> r.error == row.error)
        && (r.Success? ==> r.value == Zip(InfoKeys, row.value))
    {
      if !Truthy(GetSecRegistry()) {
        var _ := SetSecRegistry(fetched);
      }
      var row;
      if p == CikParam || p == TickerParam {
        row := GetItemFromSecRegistry(FieldName(p), value);
      } else {
        row := ByName(secRegistry.value, value, best);
      }
      if row.Failure? {
        return Failure(row.error);
      }
      r := Success(Zip(InfoKeys, row.value));
    }
  }

  /** A firm created from the registry. */
  class Firm {
    var cik: string
    var ticker: Cell
    var name: Cell
    var exchange: Cell

    constructor Init(f: FirmFields)
      ensures cik == f.cik && ticker == f.ticker && name == f.name && exchange == f.exchange
    {
      cik, ticker, name, exchange := f.cik, f.ticker, f.name, f.exchange;
    }

    /** `get_firm_info`: the four attributes, or None while the CIK is empty. */
    function GetFirmInfo(): (r: Option<map<InfoKey, Cell>>)
      reads this
      ensures r.None? <==> cik == []
      ensures r.Some? ==> r.value.Keys == {CikKey, NameKey, TickerKey, ExchangeKey}
      ensures r.Some? ==> r.value[CikKey] == Text(cik) && r.value[NameKey] == name && r.value[TickerKey] == ticker && r.value[ExchangeKey] == exchange
    {
      if cik == [] then None
      else Some(map[CikKey := Text(cik), NameKey := name, TickerKey := ticker, ExchangeKey := exchange])
    }

    /**
     * `Firm(cik, ticker, name)`: the firm Create describes. The registry cache is
     * left as the lookup leaves it even when the constructor raises later; the CIK
     * is recorded once the attributes are provisioned.
     */
    static method New(ctx: FirmRegistry, cik: Option<string>, ticker: Option<string>, name: Option<string>,
                      fetched: Registry, best: (string, seq<Cell>) -> Option<Cell>) returns (r: Result<Firm>)
      modifies ctx
      ensures var spec := Create(old(ctx.secRegistry), old(ctx.initializedCiks), cik, ticker, name, fetched, best);
        && (r.Success? <==> spec.Success?)
        && (r.Failure? ==> r.error == spec.error)
        && (r.Success? ==> fresh(r.value) && r.value.cik == spec.value.cik && r.value.ticker == spec.value.ticker
                           && r.value.name == spec.value.name && r.value.exchange == spec.value.exchange)
      ensures SelectIdentifier(cik, ticker, name).Failure? ==> ctx.secRegistry == old(ctx.secRegistry)
      ensures SelectIdentifier(cik, ticker, name).Success? ==> ctx.secRegistry == Cached(old(ctx.secRegistry), fetched)
      ensures var spec := Create(old(ctx.secRegistry), old(ctx.initializedCiks), cik, ticker, name, fetched, best);
        ctx.initializedCiks == old(ctx.initializedCiks) + (if spec.Success? then {spec.value.rawCik} else {})
    {
      var selection := SelectIdentifier(cik, ticker, name);
      if selection.Failure? {
        r := Failure(selection.error);
      } else {
        var (p, v) := selection.value;
        var info := ctx.GetFirmInfoFromSecRegistry(p, v, fetched, best);
        if info.Failure? {
          r := Failure(info.error);
        } else {
          ProvisionOfRow(Lookup(ctx.secRegistry.value, p, v, best).value);
          r := Provisioned(ctx, info.value);
        }
      }
    }

    /**
     * The rest of `__init__` once the firm information is read: the attributes
     * are provisioned from it, then the CIK is checked against, and added to, the
     * CIKs already initialised.
     */
    static method Provisioned(ctx: FirmRegistry, info: map<InfoKey, Cell>) returns (r: Result<Firm>)
      modifies ctx
      ensures var fields := Provision(info);
        && (r.Success? <==> fields.Success? && fields.value.rawCik !in old(ctx.initializedCiks))
        && (r.Failure? ==> r.error == if fields.Failure? then fields.error else LookupError)
        && (r.Success? ==> fresh(r.value) && r.value.cik == fields.value.cik && r.value.ticker == fields.value.ticker
                           && r.value.name == fields.value.name && r.value.exchange == fields.value.exchange)
        && ctx.initializedCiks == old(ctx.initializedCiks) + (if fields.Success? then {fields.value.rawCik} else {})
      ensures ctx.secRegistry == old(ctx.secRegistry)
    {
      var fields := Provision(info);
      if fields.Failure? {
        return Failure(fields.error);
      }
      var f := new Firm.Init(fields.value);
      var previously := ctx.CheckFirmForPreviousInitializeUpdateIfNot(fields.value.rawCik);
      if previously {
        return Failure(LookupError);
      }
      r := Success(f);
    }
  }
}
