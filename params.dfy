/**
 * `_check_params` of _utils.py: the validation and normalisation of a download
 * request, with its ordered error exits.
 */
module Params {
  import opened Wrappers
  import opened Strings
  import opened EdgarConstants

  /** `sys.maxsize` on a 64-bit interpreter: the amount that stands for "all filings". */
  const MaxSize: int := 9223372036854775807

  /** The `query` argument: a string, or a value of some other type. */
  datatype Query = QueryText(text: string) | NotText

  /** The tuple `_check_params` returns. */
  datatype CheckedParams = CheckedParams(filing: string, tickerOrCik: string, amount: int, after: string,
                                         before: string, includeAmends: bool, query: string)

  /**
   * The ticker or CIK stripped and upper-cased; blank is a ValueError. A value
   * that looks like a CIK is zero-filled to ten characters; longer than ten is a
   * ValueError.
   */
  function NormaliseTickerOrCik(c: Constants, tickerOrCik: string): (r: Result<string>)
    ensures var t := Upper(Strip(tickerOrCik));
      && (t == [] ==> r == Failure(ValueError(BlankTickerOrCik)))
      && (t != [] && c.isCik(t) && |t| > 10 ==> r == Failure(ValueError(CikTooLong)))
      && (t != [] && c.isCik(t) && |t| <= 10 ==> r == Success(ZFill(t, 10)) && |r.value| == 10)
      && (t != [] && !c.isCik(t) ==> r == Success(t))
  {
    var t := Upper(Strip(tickerOrCik));
    if t == [] then Failure(ValueError(BlankTickerOrCik))
    else if c.isCik(t) then
      if |t| > 10 then Failure(ValueError(CikTooLong)) else Success(ZFill(t, 10))
    else Success(t)
  }

  /** The amount: all filings when not given, otherwise at least one. */
  function CheckAmount(amount: Option<int>): (r: Result<int>)
    ensures amount.None? ==> r == Success(MaxSize)
    ensures amount.Some? ==> (r.Success? <==> amount.value >= 1)
    ensures amount.Some? && r.Success? ==> r.value == amount.value
    ensures r.Failure? ==> r.error == ValueError(AmountTooSmall)
    ensures r.Success? ==> r.value >= 1
  {
    match amount
    case None => Success(MaxSize)
    case Some(n) => if n < 1 then Failure(ValueError(AmountTooSmall)) else Success(n)
  }

  /** `validate_date_format` on a string: the date parser's verdict, a ValueError when it refuses. */
  function ValidateDateFormat(c: Constants, date: string): (o: Outcome)
    ensures o.Pass? <==> c.isDateFormat(date)
    ensures o.Fail? ==> o.error == ValueError(BadDateFormat)
  {
    if c.isDateFormat(date) then Pass else Fail(ValueError(BadDateFormat))
  }

  /** The after date: the default when not given; a given one must parse and not precede the default. */
  function CheckAfter(c: Constants, after: Option<string>): (r: Result<string>)
    ensures after.None? ==> r == Success(c.defaultAfterDate)
    ensures after.Some? && !c.isDateFormat(after.value) ==> r == Failure(ValueError(BadDateFormat))
    ensures after.Some? && c.isDateFormat(after.value) ==>
      r == if Less(after.value, c.defaultAfterDate) then Failure(ValueError(AfterTooEarly)) else Success(after.value)
    ensures r.Success? ==> !Less(r.value, c.defaultAfterDate)
  {
    match after
    case None =>
      LessIrreflexive(c.defaultAfterDate);
      Success(c.defaultAfterDate)
    case Some(d) =>
      var o := ValidateDateFormat(c, d);
      if o.Fail? then Failure(o.error)
      else if Less(d, c.defaultAfterDate) then Failure(ValueError(AfterTooEarly))
      else Success(d)
  }

  /** The before date: the default when not given; a given one must parse. */
  function CheckBefore(c: Constants, before: Option<string>): (r: Result<string>)
    ensures before.None? ==> r == Success(c.defaultBeforeDate)
    ensures before.Some? ==> r == if c.isDateFormat(before.value) then Success(before.value) else Failure(ValueError(BadDateFormat))
    ensures r.Success? ==> before.None? || c.isDateFormat(r.value)
    ensures r.Failure? <==> before.Some? && !c.isDateFormat(before.value)
  {
    match before
    case None => Success(c.defaultBeforeDate)
    case Some(d) =>
      var o := ValidateDateFormat(c, d);
      if o.Fail? then Failure(o.error) else Success(d)
  }

  /**
   * `_check_params`: the checks in the order the source makes them. The first
   * one that fails decides the exception; when none fails, the normalised values
   * come back with the filing type, the amends flag and the query unchanged.
   */
  function CheckParams(c: Constants, filing: string, tickerOrCik: string, amount: Option<int>, after: Option<string>,
                       before: Option<string>, includeAmends: bool, query: Query): (r: Result<CheckedParams>)
    ensures NormaliseTickerOrCik(c, tickerOrCik).Failure? ==> r == Failure(NormaliseTickerOrCik(c, tickerOrCik).error)
    ensures NormaliseTickerOrCik(c, tickerOrCik).Success? && CheckAmount(amount).Failure? ==> r == Failure(CheckAmount(amount).error)
    ensures NormaliseTickerOrCik(c, tickerOrCik).Success? && CheckAmount(amount).Success? && CheckAfter(c, after).Failure? ==>
      r == Failure(CheckAfter(c, after).error)
    ensures (NormaliseTickerOrCik(c, tickerOrCik).Success? && CheckAmount(amount).Success? && CheckAfter(c, after).Success?
             && CheckBefore(c, before).Failure?) ==> r == Failure(CheckBefore(c, before).error)
    ensures (NormaliseTickerOrCik(c, tickerOrCik).Success? && CheckAmount(amount).Success? && CheckAfter(c, after).Success?
             && CheckBefore(c, before).Success?) ==>
        var a := CheckAfter(c, after).value;
        var b := CheckBefore(c, before).value;
        && (Less(b, a) ==> r == Failure(ValueError(AfterLaterThanBefore)))
        && (!Less(b, a) && filing !in c.supportedFilings ==> r == Failure(ValueError(UnsupportedFiling)))
        && (!Less(b, a) && filing in c.supportedFilings && query.NotText? ==> r == Failure(TypeError))
        && (!Less(b, a) && filing in c.supportedFilings && query.QueryText? ==>
              r == Success(CheckedParams(filing, NormaliseTickerOrCik(c, tickerOrCik).value, CheckAmount(amount).value,
                                         a, b, includeAmends, query.text)))
    ensures r.Success? ==>
      && r.value.filing in c.supportedFilings && r.value.amount >= 1
      && !Less(r.value.after, c.defaultAfterDate) && !Less(r.value.before, r.value.after)
  {
    var t :- NormaliseTickerOrCik(c, tickerOrCik);
    var n :- CheckAmount(amount);
    var a :- CheckAfter(c, after);
    var b :- CheckBefore(c, before);
    if Less(b, a) then Failure(ValueError(AfterLaterThanBefore))
    else if filing !in c.supportedFilings then Failure(ValueError(UnsupportedFiling))
    else if query.NotText? then Failure(TypeError)
    else Success(CheckedParams(filing, t, n, a, b, includeAmends, query.text))
  }

  // ---------------------------------------------------------------------------
  // Properties

  /** A string whose ends are not whitespace is its own strip. */
  lemma StripUnpadded(s: string)
    requires s != [] && !IsSpace(s[0]) && !IsSpace(s[|s| - 1])
    ensures Strip(s) == s
  {
  }

  /** Upper-casing leaves a string without lower-case ASCII letters as it is. */
  lemma UpperOfUpper(s: string)
    requires forall i :: 0 <= i < |s| ==> !('a' <= s[i] <= 'z')
    ensures Upper(s) == s
  {
  }

  /** Upper-casing keeps a string's ends free of whitespace and leaves no lower-case letter. */
  lemma UpperEnds(s: string)
    requires s != [] && !IsSpace(s[0]) && !IsSpace(s[|s| - 1])
    ensures var u := Upper(s);
      && u != [] && !IsSpace(u[0]) && !IsSpace(u[|u| - 1])
      && forall i :: 0 <= i < |u| ==> !('a' <= u[i] <= 'z')
  {
  }

  /** Zero-filling an upper-case string with non-space ends keeps both properties. */
  lemma ZFillEnds(t: string)
    requires t != [] && !IsSpace(t[0]) && !IsSpace(t[|t| - 1])
    requires forall i :: 0 <= i < |t| ==> !('a' <= t[i] <= 'z')
    ensures var z := ZFill(t, 10);
      && z != [] && !IsSpace(z[0]) && !IsSpace(z[|z| - 1])
      && forall i :: 0 <= i < |z| ==> !('a' <= z[i] <= 'z')
  {
    var z := ZFill(t, 10);
    if |t| < 10 {
      var zeros := Repeat('0', 10 - |t|);
      if t[0] == '+' || t[0] == '-' {
        assert z == [t[0]] + zeros + t[1..];
        assert z[|z| - 1] == if |t| == 1 then '0' else t[|t| - 1];
      } else {
        assert z == zeros + t;
        assert z[|z| - 1] == t[|t| - 1];
      }
    }
  }

  /**
   * A string with non-space ends and no lower-case letter, not longer than ten
   * characters when it passes as a CIK, normalises to itself.
   */
  lemma NormaliseFixed(c: Constants, t: string)
    requires t != [] && !IsSpace(t[0]) && !IsSpace(t[|t| - 1])
    requires forall i :: 0 <= i < |t| ==> !('a' <= t[i] <= 'z')
    requires c.isCik(t) ==> |t| == 10
    ensures NormaliseTickerOrCik(c, t) == Success(t)
  {
    StripUnpadded(t);
    UpperOfUpper(t);
  }

  /** A normalised ticker or CIK normalises to itself. */
  lemma NormaliseIdempotent(c: Constants, tickerOrCik: string)
    requires NormaliseTickerOrCik(c, tickerOrCik).Success?
    ensures var t := NormaliseTickerOrCik(c, tickerOrCik).value;
      NormaliseTickerOrCik(c, t) == Success(t)
  {
    var u := Upper(Strip(tickerOrCik));
    UpperEnds(Strip(tickerOrCik));
    if c.isCik(u) {
      ZFillEnds(u);
      NormaliseFixed(c, ZFill(u, 10));
    } else {
      NormaliseFixed(c, u);
    }
  }

  /**
   * Checking the normalised parameters again accepts them and returns them as
   * they are, provided the default dates themselves are in the date format.
   */
  lemma CheckParamsIdempotent(c: Constants, filing: string, tickerOrCik: string, amount: Option<int>, after: Option<string>,
                              before: Option<string>, includeAmends: bool, query: Query)
    requires c.isDateFormat(c.defaultAfterDate) && c.isDateFormat(c.defaultBeforeDate)
    requires CheckParams(c, filing, tickerOrCik, amount, after, before, includeAmends, query).Success?
    ensures var p := CheckParams(c, filing, tickerOrCik, amount, after, before, includeAmends, query).value;
      CheckParams(c, p.filing, p.tickerOrCik, Some(p.amount), Some(p.after), Some(p.before), p.includeAmends, QueryText(p.query))
        == Success(p)
  {
    NormaliseIdempotent(c, tickerOrCik);
  }
}
