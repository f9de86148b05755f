/**
 * EDGAR accession numbers (`AccessionNumber` in sec_edgar_downloader/UrlComponent.py).
 *
 * An accession number such as `0001193125-15-118890` is made of the filer's CIK
 * (zero-padded to ten digits), a two-digit year and a six-digit annual sequence.
 * The object keeps the three components in decoded form (short CIK without
 * leading zeros, four-digit year) next to the accession string it was built from.
 */
module Accession {
  import opened Wrappers
  import opened Strings

  /** The decoded parts an accession number object keeps. */
  datatype Components = Components(shortCik: string, year: string, annualSequence: string)

  /** What an accession number object holds: its components and its `accession_number` attribute. */
  datatype AccessionState = AccessionState(components: Components, accessionNumber: Option<string>)

  /** The placeholder components of an object built without an accession string. */
  const DefaultComponents := Components("999999999", "2099", "999999")

  /**
   * `verify_components_meet_requirements`: the short CIK has 2 to 9 characters,
   * the year has 4 and starts with "20", the sequence has 6. Digits are not checked.
   */
  predicate Valid(c: Components)
  {
    && 1 < |c.shortCik| < 10
    && |c.year| == 4 && c.year[0..2] == "20"
    && |c.annualSequence| == 6
  }

  /**
   * `parse_accession_number` on a string: split on '-', strip the leading zeros of
   * the first piece, put "20" before the second and keep the third. Fewer than
   * three pieces is an IndexError; pieces after the third are ignored.
   */
  function Parse(s: string): (r: Result<Components>)
    ensures r.Failure? <==> |Split(s, '-')| < 3
    ensures r.Failure? ==> r.error == IndexError
    ensures r.Success? ==> StartsWith(r.value.year, "20") && '-' !in r.value.annualSequence
    ensures r.Success? ==> '-' !in r.value.shortCik && (r.value.shortCik == [] || r.value.shortCik[0] != '0')
  {
    var parts := Split(s, '-');
    if |parts| < 3 then Failure(IndexError)
    else
      assert ("20" + parts[1])[..2] == "20";
      Success(Components(LStrip(parts[0], '0'), "20" + parts[1], parts[2]))
  }

  /**
   * `create_from_components`: the CIK left-padded with zeros to ten characters,
   * the last two characters of the year and the sequence, joined by dashes.
   */
  function Format(c: Components): (r: string)
    ensures Valid(c) ==> |r| == 20 && r[10] == '-' && r[13] == '-'
    ensures Valid(c) ==> r[..10] == Repeat('0', 10 - |c.shortCik|) + c.shortCik
    ensures Valid(c) ==> r[11..13] == c.year[2..4] && r[14..] == c.annualSequence
  {
    Repeat('0', 10 - |c.shortCik|) + c.shortCik + "-" + Slice(c.year, 2, 4) + "-" + c.annualSequence
  }

  /**
   * What `AccessionNumber(accession_number)` leaves in the new object (its
   * components and its `accession_number` attribute), or the exception it raises.
   * Without an argument the placeholder components stay and the attribute is None.
   */
  function Construct(input: Option<string>): (r: Result<(Components, Option<string>)>)
    ensures r.Success? ==> Valid(r.value.0) && r.value.1 == input
    ensures input.None? ==> r == Success((DefaultComponents, None))
    ensures input.Some? ==> (r.Success? <==> Parse(input.value).Success? && Valid(Parse(input.value).value))
  {
    match input
    case None =>
      assert Parse(Format(DefaultComponents)) == Success(DefaultComponents) by {
        FormatThenParse(DefaultComponents);
      }
      Success((DefaultComponents, None))
    case Some(s) =>
      match Parse(s)
      case Failure(e) => Failure(e)
      case Success(c) => if Valid(c) then Success((c, input)) else Failure(TypeError)
  }

  /** Construct once the components are known: the parse of the given string, or the placeholder. */
  lemma ConstructByParts(input: Option<string>, c: Components)
    requires input.None? ==> c == DefaultComponents
    requires input.Some? ==> Parse(input.value) == Success(c)
    ensures Construct(input) == if Valid(c) then Success((c, input)) else Failure(TypeError)
  {
  }

  /** `get_nodash_accession_number` on an accession string. */
  function NoDash(s: string): (r: string)
    ensures '-' !in r && |r| <= |s|
    ensures '-' !in s ==> r == s
  {
    DeleteCharRemoves(s, '-');
    DeleteChar(s, '-')
  }

  /** `str(self.accession_number)`: Python renders a missing value as "None". */
  function AccessionString(a: Option<string>): string
  {
    match a
    case None => "None"
    case Some(s) => s
  }

  // ---------------------------------------------------------------------------
  // Properties of the codec

  /** Three pieces without dashes parse to the stripped CIK, "20" plus the year digits, and the sequence. */
  lemma ParseOfPieces(cik: string, yy: string, sequence: string)
    requires '-' !in cik && '-' !in yy && '-' !in sequence
    ensures Parse(cik + "-" + yy + "-" + sequence) == Success(Components(LStrip(cik, '0'), "20" + yy, sequence))
  {
    assert cik + "-" + yy + "-" + sequence == cik + ['-'] + yy + ['-'] + sequence;
    SplitThree(cik, yy, sequence, '-');
  }

  /** The documented example: "0001193125-15-118890" has components 1193125, 2015, 118890. */
  lemma ParseExample(s: string, cik: string, yy: string, sequence: string, shortCik: string)
    requires cik == "0001193125" && yy == "15" && sequence == "118890" && shortCik == "1193125"
    requires s == cik + "-" + yy + "-" + sequence
    ensures Parse(s) == Success(Components(shortCik, "20" + yy, sequence))
  {
    ParseOfPieces(cik, yy, sequence);
    StripExampleCik(cik, shortCik);
  }

  lemma StripExampleCik(cik: string, shortCik: string)
    requires cik == "0001193125" && shortCik == "1193125"
    ensures LStrip(cik, '0') == shortCik
  {
    assert Repeat('0', 3) == "000";
    assert cik == Repeat('0', 3) + shortCik;
    LStripRepeat('0', 3, shortCik);
    assert LStrip(shortCik, '0') == shortCik;
  }

  /** Formatting the components of the documented example gives its canonical string. */
  lemma FormatExample()
    ensures Format(Components("1193125", "2015", "118890")) == "0001193125-15-118890"
  {
    FormatExamplePieces();
    FormatExampleJoin();
  }

  /** The padding and the year piece of the example. */
  lemma FormatExamplePieces()
    ensures Repeat('0', 3) == "000" && Slice("2015", 2, 4) == "15"
  {
    assert Repeat('0', 3) == "000";
  }

  /** The example's pieces joined. */
  lemma FormatExampleJoin()
    ensures "000" + "1193125" + "-" + "15" + "-" + "118890" == "0001193125-15-118890"
  {
  }

  /** More than three dash-separated pieces parse exactly like the first three. */
  lemma ParseIgnoresExtraPieces(s: string, t: string)
    requires |Split(s, '-')| >= 3
    ensures Parse(s + "-" + t) == Parse(s)
  {
    SplitConcat(s, t, '-');
    assert s + "-" + t == s + ['-'] + t;
  }

  /** Zeros in front of an accession string do not change what it parses to. */
  lemma ParseIgnoresPadding(k: nat, s: string)
    ensures Parse(Repeat('0', k) + s) == Parse(s)
  {
    var z := Repeat('0', k);
    SplitShift(z, s, '-');
    var p := Split(s, '-');
    LStripRepeat('0', k, p[0]);
  }

  /** Hence differently padded strings have the same canonical form. */
  lemma CanonicalFormIgnoresPadding(k: nat, s: string)
    requires Parse(s).Success?
    ensures Parse(Repeat('0', k) + s).Success?
    ensures Format(Parse(Repeat('0', k) + s).value) == Format(Parse(s).value)
  {
    ParseIgnoresPadding(k, s);
  }

  /**
   * Round trip from the string: an accession string of exactly three pieces whose
   * CIK part already has ten characters is given back by formatting its parse.
   */
  lemma ParseThenFormat(s: string)
    requires |Split(s, '-')| == 3 && |Split(s, '-')[0]| == 10
    requires Parse(s).Success? && Valid(Parse(s).value)
    ensures Format(Parse(s).value) == s
  {
    var p := Split(s, '-');
    var c := Parse(s).value;
    assert Join(p[2..], '-') == p[2];
    assert Join(p[1..], '-') == p[1] + ['-'] + p[2];
    assert s == p[0] + ['-'] + p[1] + ['-'] + p[2];
    assert Repeat('0', 10 - |c.shortCik|) + c.shortCik == p[0];
    assert Slice(c.year, 2, 4) == p[1];
  }

  /**
   * Round trip from the components: valid components without dashes whose CIK does
   * not start with '0' are recovered by parsing their formatted string.
   */
  lemma FormatThenParse(c: Components)
    requires Valid(c)
    requires '-' !in c.shortCik && '-' !in c.annualSequence && '-' !in c.year
    requires c.shortCik[0] != '0'
    ensures Parse(Format(c)) == Success(c)
  {
    var long := Repeat('0', 10 - |c.shortCik|) + c.shortCik;
    var yy := Slice(c.year, 2, 4);
    assert '-' !in long by {
      assert forall i :: 0 <= i < |long| ==> long[i] == if i < 10 - |c.shortCik| then '0' else c.shortCik[i - (10 - |c.shortCik|)];
    }
    assert '-' !in yy by { assert forall i :: 0 <= i < 2 ==> yy[i] == c.year[i + 2]; }
    assert Format(c) == long + "-" + yy + "-" + c.annualSequence;
    ParseOfPieces(long, yy, c.annualSequence);
    LStripRepeat('0', 10 - |c.shortCik|, c.shortCik);
    assert LStrip(c.shortCik, '0') == c.shortCik;
    YearOfPieces(c.year);
  }

  /** A four-digit year starting with "20" is "20" followed by its last two characters. */
  lemma YearOfPieces(year: string)
    requires |year| == 4 && year[0..2] == "20"
    ensures year == "20" + year[2..4]
  {
    assert year[0] == '2' && year[1] == '0';
  }

  /** The dash-free form of a canonical accession string is its 18 characters without the two dashes. */
  lemma NoDashOfFormat(c: Components)
    requires Valid(c)
    requires '-' !in Format(c)[..10] && '-' !in c.year[2..4] && '-' !in c.annualSequence
    ensures NoDash(Format(c)) == Format(c)[..10] + c.year[2..4] + c.annualSequence
    ensures |NoDash(Format(c))| == 18
  {
    var s := Format(c);
    assert s == s[..10] + ['-'] + (c.year[2..4] + ['-'] + c.annualSequence);
    DeleteCharStep(s[..10], '-', c.year[2..4] + ['-'] + c.annualSequence);
    DeleteCharStep(c.year[2..4], '-', c.annualSequence);
    DeleteCharRemoves(c.annualSequence, '-');
  }

  // ---------------------------------------------------------------------------
  // The object

  /**
   * An `AccessionNumber` object. Its methods update its fields in place, as the
   * Python methods update the instance attributes.
   */
  class AccessionNumber {
    var shortCik: string
    var year: string
    var annualSequence: string
    var accessionNumber: Option<string>

    /** The object before `__init__` has assigned any attribute. */
    constructor Unset()
      ensures shortCik == [] && year == [] && annualSequence == [] && accessionNumber == None
    {
      shortCik, year, annualSequence, accessionNumber := [], [], [], None;
    }

    /** `get_components`. */
    function GetComponents(): (c: Components)
      reads this
      ensures c.shortCik == shortCik && c.year == year && c.annualSequence == annualSequence
    {
      Components(shortCik, year, annualSequence)
    }

    /** All the object's attributes as one value. */
    function State(): (st: AccessionState)
      reads this
      ensures st.components == GetComponents() && st.accessionNumber == accessionNumber
    {
      AccessionState(GetComponents(), accessionNumber)
    }

    /** `verify_components_meet_requirements`, on the stored fields. */
    function VerifyComponentsMeetRequirements(): (ok: bool)
      reads this
      ensures ok <==> 1 < |shortCik| < 10 && |year| == 4 && year[0..2] == "20" && |annualSequence| == 6
    {
      Valid(GetComponents())
    }

    /** `get_accession_number_string`. */
    function GetAccessionNumberString(): (s: string)
      reads this
      ensures accessionNumber.Some? ==> s == accessionNumber.value
      ensures accessionNumber.None? ==> s == "None"
    {
      AccessionString(accessionNumber)
    }

    /** `get_nodash_accession_number`: an AttributeError when the attribute is None. */
    function GetNodashAccessionNumber(): (r: Result<string>)
      reads this
      ensures r.Failure? <==> accessionNumber.None?
      ensures r.Failure? ==> r.error == AttributeError
      ensures r.Success? ==> r.value == NoDash(accessionNumber.value)
    {
      match accessionNumber
      case None => Failure(AttributeError)
      case Some(s) => Success(NoDash(s))
    }

    /**
     * `parse_accession_number`: splits the given string, or the stored one when none
     * is given, and assigns the components one by one; a missing piece raises
     * IndexError after the earlier components have been assigned.
     */
    method ParseAccessionNumber(input: Option<string>) returns (r: Outcome)
      modifies this
      ensures accessionNumber == old(accessionNumber)
      ensures input.None? && old(accessionNumber).None? ==> r == Fail(AttributeError) && unchanged(this)
      ensures var source := if input.Some? then input else old(accessionNumber);
        source.Some? ==>
          var parts := Split(source.value, '-');
          && shortCik == LStrip(parts[0], '0')
          && year == (if |parts| >= 2 then "20" + parts[1] else old(year))
          && annualSequence == (if |parts| >= 3 then parts[2] else old(annualSequence))
          && (r.Pass? <==> |parts| >= 3)
          && (r.Fail? ==> r.error == IndexError)
          && (r.Pass? ==> Parse(source.value) == Success(GetComponents()))
    {
      var source := input;
      if source.None? {
        source := accessionNumber;
      }
      if source.None? {
        return Fail(AttributeError);
      }
      var parts := Split(source.value, '-');
      shortCik := LStrip(parts[0], '0');
      if |parts| < 2 {
        return Fail(IndexError);
      }
      year := "20" + parts[1];
      if |parts| < 3 {
        return Fail(IndexError);
      }
      annualSequence := parts[2];
      r := Pass;
    }

    /**
     * `create_from_components`: formats the given components, or the stored ones
     * unless all three are given. The check that may raise TypeError looks at the
     * stored components, not at the ones being formatted; the components
     * themselves are never updated.
     */
    method CreateFromComponents(cik: Option<string>, yr: Option<string>, sequence: Option<string>) returns (r: Outcome)
      modifies this`accessionNumber
      ensures r.Pass? <==> Valid(GetComponents())
      ensures r.Fail? ==> r.error == TypeError && accessionNumber == old(accessionNumber)
      ensures r.Pass? ==> accessionNumber == Some(Format(
        if cik.None? || yr.None? || sequence.None? then GetComponents()
        else Components(cik.value, yr.value, sequence.value)))
    {
      var c := Components(shortCik, year, annualSequence);
      if cik.Some? && yr.Some? && sequence.Some? {
        c := Components(cik.value, yr.value, sequence.value);
      }
      var longCik := Repeat('0', 10 - |c.shortCik|) + c.shortCik;
      if !VerifyComponentsMeetRequirements() {
        return Fail(TypeError);
      }
      accessionNumber := Some(longCik + "-" + Slice(c.year, 2, 4) + "-" + c.annualSequence);
      r := Pass;
    }

    /**
     * The branch of `__init__` without an argument: the placeholder components and
     * the accession string formatted from them, which parses back to them.
     */
    method SetPlaceholder()
      modifies this
      ensures GetComponents() == DefaultComponents
      ensures accessionNumber == Some(Format(DefaultComponents))
      ensures Parse(accessionNumber.value) == Success(DefaultComponents)
    {
      shortCik, year, annualSequence := "999999999", "2099", "999999";
      var made := CreateFromComponents(None, None, None);
      assert made.Pass?;
      FormatThenParse(DefaultComponents);
    }

    /**
     * The first two steps of `__init__`: the placeholder components and their
     * accession string when no argument is given, then `parse_accession_number`
     * on the argument, or on that placeholder string.
     */
    method SetUpComponents(input: Option<string>) returns (parsed: Outcome)
      modifies this
      ensures accessionNumber == if input.None? then Some(Format(DefaultComponents)) else old(accessionNumber)
      ensures parsed.Pass? <==> input.None? || Parse(input.value).Success?
      ensures parsed.Fail? ==> parsed.error == Parse(input.value).error
      ensures parsed.Pass? && input.None? ==> GetComponents() == DefaultComponents
      ensures parsed.Pass? && input.Some? ==> Parse(input.value) == Success(GetComponents())
    {
      if input.None? {
        SetPlaceholder();
      }
      parsed := ParseAccessionNumber(input);
    }

    /**
     * `AccessionNumber(accession_number)`: a fresh object whose state is what
     * Construct describes, or the exception `__init__` raises.
     */
    static method New(input: Option<string>) returns (r: Result<AccessionNumber>)
      ensures r.Success? <==> Construct(input).Success?
      ensures r.Failure? ==> r.error == Construct(input).error
      ensures r.Success? ==>
        && fresh(r.value)
        && r.value.GetComponents() == Construct(input).value.0
        && r.value.accessionNumber == input
    {
      var a := new AccessionNumber.Unset();
      var parsed := a.SetUpComponents(input);
      if parsed.Fail? {
        return Failure(parsed.error);
      }
      ghost var c := a.GetComponents();
      ConstructByParts(input, c);
      if a.VerifyComponentsMeetRequirements() {
        a.accessionNumber := input;
        assert a.GetComponents() == c;
        r := Success(a);
      } else {
        r := Failure(TypeError);
      }
    }
  }
}
