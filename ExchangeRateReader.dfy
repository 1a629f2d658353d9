/** The exchange rate reader: per-date URL construction, and the scan of the
    `fx` records of a rate feed for the first record of a currency.

    Floating-point rates are not modelled: a rate is a value of an arbitrary
    type `R`, `Float.parseFloat` is the partial function `parse`, the default
    rate `1.0` is the value `one`, and float division is `divide`. Fetching the
    URL and extracting the `fx` records from the XML document is the partial
    function `fetch`. */
module XRate {
  import opened Options
  import opened JavaInt

  /** One `fx` element: the text contents of its child nodes, in document order. */
  type Record = seq<string>

  /** Every way a lookup can fail. `FetchFailed` stands for the I/O, XML parser
      and parser-configuration exceptions; the others are the exceptions the
      scan itself raises on the record at index `record`. */
  datatype Error =
    | FetchFailed
    | MissingChild(record: nat, child: nat)
    | UnparseableRate(record: nat)

  datatype Result<+T> = Ok(value: T) | Err(error: Error)

  // ---------------------------------------------------------------------------
  // URL construction
  // ---------------------------------------------------------------------------

  /** `monthString` / `dayString`: the decimal form of `n`, with a `0` in front
      when that form is a single character. */
  function PaddedField(n: int32): (r: string)
    ensures 0 <= n <= 9 ==> r == "0" + Decimal(n as int)
    ensures !(0 <= n <= 9) ==> r == Decimal(n as int)
    ensures 0 <= n <= 99 ==> |r| == 2 && AllDigits(r)
  {
    var s := Decimal(n as int);
    if |s| == 1 then
      "0" + s
    else if 10 <= n <= 99 then
      assert Digits(n as nat) == Digits(n as nat / 10) + [DigitChar(n as nat % 10)];
      s
    else
      s
  }

  /** The padded field holds no `/` and reads back as the value it renders. */
  lemma PaddedFieldRoundTrip(n: int32)
    ensures '/' !in PaddedField(n)
    ensures ParseInt(PaddedField(n)) == Some(n as int)
  {
    if 0 <= n <= 9 {
      PaddedRoundTrip(n as nat);
    } else {
      DecimalRoundTrip(n as int);
    }
  }

  /** The part of the URL after the base: year, month and day, then `.xml`. */
  function DatePath(year: int32, month: int32, day: int32): (p: string)
    ensures |p| >= 4 && p[|p| - 4..] == ".xml"
  {
    Decimal(year as int) + "/" + PaddedField(month) + "/" + PaddedField(day) + ".xml"
  }

  /** The date path determines the date: reading it back gives year, month and
      day, for every `int` value of each, negative ones included. */
  lemma DatePathRoundTrip(year: int32, month: int32, day: int32)
    ensures ParseDatePath(DatePath(year, month, day)) == Some((year as int, month as int, day as int))
  {
    DecimalRoundTrip(year as int);
    PaddedFieldRoundTrip(month);
    PaddedFieldRoundTrip(day);
    DatePathSplits(Decimal(year as int), PaddedField(month), PaddedField(day));
  }

  /** The index of the first `c` in `s`, or `|s|` when there is none. */
  function IndexOf(s: string, c: char): (k: nat)
    ensures k <= |s|
    ensures k < |s| ==> s[k] == c
    ensures forall j :: 0 <= j < k ==> s[j] != c
  {
    if s == [] then 0 else if s[0] == c then 0 else 1 + IndexOf(s[1..], c)
  }

  /** Reads year, month and day back out of `year/month/day.xml`. */
  function ParseDatePath(p: string): Option<(int, int, int)>
  {
    if |p| < 4 || p[|p| - 4..] != ".xml" then None
    else
      var t := p[..|p| - 4];
      var i := IndexOf(t, '/');
      if i == |t| then None
      else
        var rest := t[i + 1..];
        var j := IndexOf(rest, '/');
        if j == |rest| then None
        else
          match (ParseInt(t[..i]), ParseInt(rest[..j]), ParseInt(rest[j + 1..]))
          case (Some(y), Some(m), Some(d)) => Some((y, m, d))
          case _ => None
  }

  /** Reads the date back out of a URL that starts with `base`. */
  function ParseURL(base: string, url: string): Option<(int, int, int)>
  {
    if base <= url then ParseDatePath(url[|base|..]) else None
  }

  /** `ParseDatePath` takes apart the three fields it is given, when the
      first two hold no `/`. */
  lemma DatePathSplits(y: string, m: string, d: string)
    requires '/' !in y && '/' !in m
    ensures ParseDatePath(y + "/" + m + "/" + d + ".xml")
         == match (ParseInt(y), ParseInt(m), ParseInt(d))
            case (Some(a), Some(b), Some(c)) => Some((a, b, c))
            case _ => None
  {
    var p := y + "/" + m + "/" + d + ".xml";
    var t := y + "/" + m + "/" + d;
    assert p[|p| - 4..] == ".xml";
    assert p[..|p| - 4] == t;
    IndexOfFirst(y, '/', m + "/" + d);
    assert t == y + ['/'] + (m + "/" + d);
    var rest := t[|y| + 1..];
    assert rest == m + "/" + d;
    IndexOfFirst(m, '/', d);
    assert rest == m + ['/'] + d;
    assert t[..|y|] == y;
    assert rest[..|m|] == m;
    assert rest[|m| + 1..] == d;
  }

  lemma IndexOfFirst(a: string, c: char, b: string)
    requires c !in a
    ensures IndexOf(a + [c] + b, c) == |a|
  {
    var s := a + [c] + b;
    assert s[|a|] == c;
  }

  /** The date path of the URL for 25 June 2010 in the class's documentation
      comment: both month and day come out as two digits. */
  lemma DocumentedDate()
    ensures DatePath(2010, 6, 25) == "2010/06/25.xml"
  {
  }

  /** Month and day are padded independently of each other. */
  lemma PaddingPerField()
    ensures DatePath(2010, 11, 3) == "2010/11/03.xml"
  {
  }

  // ---------------------------------------------------------------------------
  // The first-match scan over the `fx` records
  // ---------------------------------------------------------------------------

  /** What the scan takes from the record at index `k`: the text of child 1
      (the currency code) and the parsed text of child 3 (the rate). A missing
      child or an unparseable rate string is an error. */
  function ReadRecord<R>(node: Record, k: nat, parse: string -> Option<R>): (r: Result<(string, R)>)
    ensures r.Ok? <==> WellFormed(node, parse)
    ensures r.Ok? ==> r.value == (node[1], parse(node[3]).value)
    ensures |node| <= 1 ==> r == Err(MissingChild(k, 1))
    ensures 1 < |node| <= 3 ==> r == Err(MissingChild(k, 3))
    ensures 3 < |node| && parse(node[3]).None? ==> r == Err(UnparseableRate(k))
  {
    if |node| <= 1 then Err(MissingChild(k, 1))
    else if |node| <= 3 then Err(MissingChild(k, 3))
    else match parse(node[3])
      case None => Err(UnparseableRate(k))
      case Some(rate) => Ok((node[1], rate))
  }

  /** The record has children 1 and 3 and its rate string parses. */
  predicate WellFormed<R>(node: Record, parse: string -> Option<R>) {
    |node| > 3 && parse(node[3]).Some?
  }

  /** The record's currency code is `code`. */
  predicate Matches(node: Record, code: string) {
    |node| > 1 && node[1] == code
  }

  /** The scan from index `i` on: the rate of the first record whose code is
      `code`, stopping at the first record that cannot be read, and `one` when
      the records run out. */
  function LookupFrom<R>(nodes: seq<Record>, i: nat, code: string, parse: string -> Option<R>, one: R): Result<R>
    requires i <= |nodes|
    decreases |nodes| - i
  {
    if i == |nodes| then Ok(one)
    else match ReadRecord(nodes[i], i, parse)
      case Err(e) => Err(e)
      case Ok((currency, rate)) =>
        if currency == code then Ok(rate) else LookupFrom(nodes, i + 1, code, parse, one)
  }

  /** The rate of currency `code` in the record list `nodes`. */
  function Lookup<R>(nodes: seq<Record>, code: string, parse: string -> Option<R>, one: R): Result<R>
  {
    LookupFrom(nodes, 0, code, parse, one)
  }

  /** Some record of `nodes` stops the scan: it cannot be read or it matches. */
  predicate Decided<R>(nodes: seq<Record>, code: string, parse: string -> Option<R>) {
    exists k :: 0 <= k < |nodes| && (!WellFormed(nodes[k], parse) || Matches(nodes[k], code))
  }

  /** First match wins: the rate of the first record with code `code` is
      returned when every record up to it can be read. */
  lemma LookupFirstMatch<R>(nodes: seq<Record>, k: nat, code: string, parse: string -> Option<R>, one: R)
    requires k < |nodes| && WellFormed(nodes[k], parse) && Matches(nodes[k], code)
    requires forall j :: 0 <= j < k ==> WellFormed(nodes[j], parse) && !Matches(nodes[j], code)
    ensures Lookup(nodes, code, parse, one) == Ok(parse(nodes[k][3]).value)
  {
    FirstMatchFrom(nodes, 0, k, code, parse, one);
  }

  lemma {:induction false} FirstMatchFrom<R>(nodes: seq<Record>, i: nat, k: nat, code: string, parse: string -> Option<R>, one: R)
    requires i <= k < |nodes| && WellFormed(nodes[k], parse) && Matches(nodes[k], code)
    requires forall j :: i <= j < k ==> WellFormed(nodes[j], parse) && !Matches(nodes[j], code)
    ensures LookupFrom(nodes, i, code, parse, one) == Ok(parse(nodes[k][3]).value)
    decreases k - i
  {
    if i < k {
      assert WellFormed(nodes[i], parse) && !Matches(nodes[i], code);
      FirstMatchFrom(nodes, i + 1, k, code, parse, one);
    }
  }

  /** No record has code `code`, and every record can be read: the default. */
  lemma LookupDefault<R>(nodes: seq<Record>, code: string, parse: string -> Option<R>, one: R)
    requires forall j :: 0 <= j < |nodes| ==> WellFormed(nodes[j], parse)
    requires forall j :: 0 <= j < |nodes| ==> !Matches(nodes[j], code)
    ensures Lookup(nodes, code, parse, one) == Ok(one)
  {
    DefaultFrom(nodes, 0, code, parse, one);
  }

  lemma {:induction false} DefaultFrom<R>(nodes: seq<Record>, i: nat, code: string, parse: string -> Option<R>, one: R)
    requires i <= |nodes|
    requires forall j :: i <= j < |nodes| ==> WellFormed(nodes[j], parse)
    requires forall j :: i <= j < |nodes| ==> !Matches(nodes[j], code)
    ensures LookupFrom(nodes, i, code, parse, one) == Ok(one)
    decreases |nodes| - i
  {
    if i < |nodes| {
      assert WellFormed(nodes[i], parse) && !Matches(nodes[i], code);
      DefaultFrom(nodes, i + 1, code, parse, one);
    }
  }

  /** A record that cannot be read, reached before any match, makes the lookup
      fail with that record's error, even when its own code matches. */
  lemma LookupFailure<R>(nodes: seq<Record>, k: nat, code: string, parse: string -> Option<R>, one: R)
    requires k < |nodes| && !WellFormed(nodes[k], parse)
    requires forall j :: 0 <= j < k ==> WellFormed(nodes[j], parse) && !Matches(nodes[j], code)
    ensures Lookup(nodes, code, parse, one) == Err(ReadRecord(nodes[k], k, parse).error)
  {
    FailureFrom(nodes, 0, k, code, parse, one);
  }

  lemma {:induction false} FailureFrom<R>(nodes: seq<Record>, i: nat, k: nat, code: string, parse: string -> Option<R>, one: R)
    requires i <= k < |nodes| && !WellFormed(nodes[k], parse)
    requires forall j :: i <= j < k ==> WellFormed(nodes[j], parse) && !Matches(nodes[j], code)
    ensures LookupFrom(nodes, i, code, parse, one) == Err(ReadRecord(nodes[k], k, parse).error)
    decreases k - i
  {
    if i < k {
      assert WellFormed(nodes[i], parse) && !Matches(nodes[i], code);
      FailureFrom(nodes, i + 1, k, code, parse, one);
    }
  }

  /** Records after the one that stops the scan are never consulted. */
  lemma LookupIgnoresRest<R>(nodes: seq<Record>, rest: seq<Record>, code: string, parse: string -> Option<R>, one: R)
    requires Decided(nodes, code, parse)
    ensures Lookup(nodes + rest, code, parse, one) == Lookup(nodes, code, parse, one)
  {
    var k :| 0 <= k < |nodes| && (!WellFormed(nodes[k], parse) || Matches(nodes[k], code));
    IgnoresRestFrom(nodes, rest, 0, k, code, parse, one);
  }

  lemma {:induction false} IgnoresRestFrom<R>(nodes: seq<Record>, rest: seq<Record>, i: nat, k: nat,
                                               code: string, parse: string -> Option<R>, one: R)
    requires i <= k < |nodes| && (!WellFormed(nodes[k], parse) || Matches(nodes[k], code))
    ensures LookupFrom(nodes + rest, i, code, parse, one) == LookupFrom(nodes, i, code, parse, one)
    decreases k - i
  {
    assert (nodes + rest)[i] == nodes[i];
    if i < k && WellFormed(nodes[i], parse) && !Matches(nodes[i], code) {
      IgnoresRestFrom(nodes, rest, i + 1, k, code, parse, one);
    }
  }

  /** A lookup that succeeds returns either the default or the rate of a
      record that has the requested code. */
  lemma LookupOkSource<R>(nodes: seq<Record>, code: string, parse: string -> Option<R>, one: R)
    requires Lookup(nodes, code, parse, one).Ok?
    ensures var v := Lookup(nodes, code, parse, one).value;
            v == one || exists k :: 0 <= k < |nodes| && WellFormed(nodes[k], parse) && Matches(nodes[k], code) && parse(nodes[k][3]) == Some(v)
  {
    OkSourceFrom(nodes, 0, code, parse, one);
  }

  lemma {:induction false} OkSourceFrom<R>(nodes: seq<Record>, i: nat, code: string, parse: string -> Option<R>, one: R)
    requires i <= |nodes| && LookupFrom(nodes, i, code, parse, one).Ok?
    ensures var v := LookupFrom(nodes, i, code, parse, one).value;
            v == one || exists k :: i <= k < |nodes| && WellFormed(nodes[k], parse) && Matches(nodes[k], code) && parse(nodes[k][3]) == Some(v)
    decreases |nodes| - i
  {
    if i < |nodes| {
      assert WellFormed(nodes[i], parse);
      if !Matches(nodes[i], code) {
        OkSourceFrom(nodes, i + 1, code, parse, one);
      }
    }
  }

  // ---------------------------------------------------------------------------
  // The reader
  // ---------------------------------------------------------------------------

  /** Reads exchange rates from a feed with one XML document per date, found
      under a fixed base URL. */
  class ExchangeRateReader {
    /** Every request URL is this string followed by the date path. */
    const baseURL: string

    constructor (baseURL: string)
      ensures this.baseURL == baseURL
    {
      this.baseURL := baseURL;
    }

    /** The URL of the feed document for the given date. */
    function BuildURLString(year: int32, month: int32, day: int32): (url: string)
      ensures baseURL <= url
      ensures |url| >= |baseURL| + 4 && url[|url| - 4..] == ".xml"
      ensures ParseURL(baseURL, url) == Some((year as int, month as int, day as int))
    {
      var p := DatePath(year, month, day);
      DatePathRoundTrip(year, month, day);
      var url := baseURL + p;
      assert url[..|baseURL|] == baseURL && url[|baseURL|..] == p;
      assert url[|url| - 4..] == p[|p| - 4..];
      url
    }

    /** The scan of the record list for `currencyCode`: each record in turn is
        read (code and parsed rate) and the first one whose code matches gives
        the rate; `one` when none does. */
    method FindRate<R>(nodes: seq<Record>, currencyCode: string, parse: string -> Option<R>, one: R)
      returns (r: Result<R>)
      ensures r == Lookup(nodes, currencyCode, parse, one)
    {
      var rate := one;
      var i := 0;
      while i < |nodes|
        invariant 0 <= i <= |nodes|
        invariant rate == one
        invariant LookupFrom(nodes, i, currencyCode, parse, one) == Lookup(nodes, currencyCode, parse, one)
      {
        var children := nodes[i];
        if |children| <= 1 {
          return Err(MissingChild(i, 1));
        }
        var currencyString := children[1];
        if |children| <= 3 {
          return Err(MissingChild(i, 3));
        }
        var rateString := children[3];
        var currentRate := parse(rateString);
        if currentRate.None? {
          return Err(UnparseableRate(i));
        }
        if currencyString == currencyCode {
          rate := currentRate.value;
          break;
        }
        i := i + 1;
      }
      return Ok(rate);
    }

    /** The rate of `currencyCode` against the feed's base currency on the
        given date. */
    method GetExchangeRate<R>(currencyCode: string, year: int32, month: int32, day: int32,
                              fetch: string -> Option<seq<Record>>, parse: string -> Option<R>, one: R)
      returns (r: Result<R>)
      ensures fetch(BuildURLString(year, month, day)).None? ==> r == Err(FetchFailed)
      ensures fetch(BuildURLString(year, month, day)).Some? ==>
                r == Lookup(fetch(BuildURLString(year, month, day)).value, currencyCode, parse, one)
    {
      var urlString := BuildURLString(year, month, day);
      var exchangeRates := fetch(urlString);
      if exchangeRates.None? {
        return Err(FetchFailed);
      }
      r := FindRate(exchangeRates.value, currencyCode, parse, one);
    }

    /** The rate of `fromCurrency` against `toCurrency` on the given date: both
        are looked up in the one record list fetched for that date, the first
        lookup's failure wins, and the two rates are divided. */
    method GetCrossExchangeRate<R>(fromCurrency: string, toCurrency: string, year: int32, month: int32, day: int32,
                                   fetch: string -> Option<seq<Record>>, parse: string -> Option<R>, one: R,
                                   divide: (R, R) -> R)
      returns (r: Result<R>)
      ensures fetch(BuildURLString(year, month, day)).None? ==> r == Err(FetchFailed)
      ensures fetch(BuildURLString(year, month, day)).Some? ==>
                var nodes := fetch(BuildURLString(year, month, day)).value;
                var from := Lookup(nodes, fromCurrency, parse, one);
                var to := Lookup(nodes, toCurrency, parse, one);
                (from.Err? ==> r == Err(from.error)) &&
                (from.Ok? && to.Err? ==> r == Err(to.error)) &&
                (from.Ok? && to.Ok? ==> r == Ok(divide(from.value, to.value)))
    {
      var urlString := BuildURLString(year, month, day);
      var exchangeRates := fetch(urlString);
      if exchangeRates.None? {
        return Err(FetchFailed);
      }
      var fromCurrencyRate := FindRate(exchangeRates.value, fromCurrency, parse, one);
      if fromCurrencyRate.Err? {
        return Err(fromCurrencyRate.error);
      }
      var toCurrencyRate := FindRate(exchangeRates.value, toCurrency, parse, one);
      if toCurrencyRate.Err? {
        return Err(toCurrencyRate.error);
      }
      return Ok(divide(fromCurrencyRate.value, toCurrencyRate.value));
    }
  }
}
