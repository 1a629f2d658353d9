# Exchange rate reader, modelled in Dafny

`xrate.ExchangeRateReader` reads historical currency exchange rates from a
feed that publishes one XML document per date. A reader is built from a base
URL. For a date it appends `year/month/day.xml` to that URL, with month and day
zero-padded when they are a single digit. It fetches and parses the document
and lists its `fx` elements. It then scans them in document order: child 1 of
an element holds a currency code and child 3 its rate against the feed's base
currency. The rate of the first element with the requested code is returned,
and `1.0` when no element matches. A second public operation looks up two
currencies in the same document and divides their rates.

The model:

- `Options.dfy` holds the `Option` datatype.
- `JavaInt.dfy` models Java's 32-bit `int` (`int32`) and `String.valueOf(int)`
  (`Decimal`): an optional minus sign, then the digits without leading zeros.
  `ParseInt` reads such a string back; it is the inverse used in the
  round-trip lemmas.
- `ExchangeRateReader.dfy` (module `XRate`) holds the rest:
  - URL construction: `PaddedField`, `DatePath` and their inverse
    `ParseDatePath` / `ParseURL`.
  - The scan specification: `ReadRecord`, `LookupFrom` and `Lookup`, with
    lemmas for first match, default, failure and unread suffix.
  - The class `ExchangeRateReader`. Its one field `baseURL` is a `const` set by
    the constructor. Its members are `BuildURLString`, the scan `FindRate` (a
    `while` loop with early exit, proved equal to `Lookup`) and the two public
    lookups `GetExchangeRate` and `GetCrossExchangeRate`.

Floating-point numbers are not modelled. A rate has an arbitrary type `R`.
`Float.parseFloat` is a partial function `parse: string -> Option<R>`. The
default `1.0` is a value `one: R`, and float division is a function
`divide: (R, R) -> R`. Opening the URL, parsing the XML and collecting the `fx`
elements together form one partial function `fetch: string -> Option<seq<Record>>`.
A `Record` is the sequence of the text contents of an element's child nodes,
whitespace text nodes included, just as the DOM node list the source indexes.

Failures are values of `Error`:

- `FetchFailed` covers every `IOException` (a malformed URL included),
  `SAXException` and `ParserConfigurationException`.
- `MissingChild(record, child)` is the `NullPointerException` raised when
  child 1 or child 3 does not exist.
- `UnparseableRate(record)` is the `NumberFormatException` of `parseFloat`.

Two details follow the code exactly. First, a record that lacks child
1 or 3, or whose rate does not parse, makes the scan fail whenever the scan
reaches it, even if its code does not match. The code reads and parses every
record it visits before it compares the code (src/xrate/ExchangeRateReader.java:161-164);
it does not check only the matching record. Second, the code pads every value
whose decimal form has one character, `0` included, and leaves negative
single-digit values (`-5`) unpadded, since their form has two characters.

## Model

| member | source | states |
|---|---|---|
| JavaInt.Digits | src/xrate/ExchangeRateReader.java:136 | the decimal digits of a non-negative number are all digits, at least one, a single one exactly when the number is below 10, and start with `0` only for zero |
| JavaInt.Decimal | src/xrate/ExchangeRateReader.java:136 | `String.valueOf(int)` is non-empty, is one character long exactly when the value is 0..9, is all digits for non-negative values and a `-` followed by digits for negative ones |
| JavaInt.DecimalRoundTrip | src/xrate/ExchangeRateReader.java:136 | reading the decimal rendering of any integer back gives that integer |
| JavaInt.PaddedRoundTrip | src/xrate/ExchangeRateReader.java:137-139 | a `0` put in front of the rendering of a non-negative number keeps it all digits and still reads back as that number |
| XRate.PaddedField | src/xrate/ExchangeRateReader.java:136-144 | the month or day field is `"0"` followed by the decimal form when the value is 0..9 and the decimal form unchanged otherwise (negatives and values of 10 and more); for 0..99 it is exactly two digits |
| XRate.PaddedFieldRoundTrip | src/xrate/ExchangeRateReader.java:136-144 | the month or day field contains no `/` and reads back as the value it renders, for every `int` |
| XRate.DatePath | src/xrate/ExchangeRateReader.java:146 | the part of the URL after the base always ends in `.xml` |
| XRate.DatePathRoundTrip | src/xrate/ExchangeRateReader.java:136-146 | the year, month and day can be read back from the date path for every `int` value of each, so distinct dates give distinct URLs |
| XRate.DocumentedDate | src/xrate/ExchangeRateReader.java:30-32 | 25 June 2010 gives the path `2010/06/25.xml` |
| XRate.PaddingPerField | src/xrate/ExchangeRateReader.java:136-146 | 3 November 2010 gives `2010/11/03.xml`: month and day are padded independently |
| XRate.ReadRecord | src/xrate/ExchangeRateReader.java:158-163 | reading a record succeeds exactly when it has children 1 and 3 and its child-3 text parses, and then yields child 1 and the parsed rate; otherwise the error names the missing child or the unparseable rate, child 1 being checked first |
| XRate.LookupFirstMatch | src/xrate/ExchangeRateReader.java:157-166 | when every record up to the first one with the requested code can be read, the lookup returns that record's parsed rate; later records with the same code are never used |
| XRate.LookupDefault | src/xrate/ExchangeRateReader.java:156-169 | when every record can be read and none has the requested code, the lookup returns the default rate |
| XRate.LookupFailure | src/xrate/ExchangeRateReader.java:158-163 | the first record that cannot be read, if no earlier record matched, makes the lookup fail with that record's error, whether or not its own code matches |
| XRate.LookupIgnoresRest | src/xrate/ExchangeRateReader.java:164-167 | once some record matches or cannot be read, appending any further records does not change the lookup (the early `break` and the exception) |
| XRate.LookupOkSource | src/xrate/ExchangeRateReader.java:155-170 | a successful lookup returns either the default or the parsed rate of a readable record with the requested code |
| XRate.ExchangeRateReader.constructor | src/xrate/ExchangeRateReader.java:38-40 | the reader stores the given base URL unchanged |
| XRate.ExchangeRateReader.BuildURLString | src/xrate/ExchangeRateReader.java:129-149 | the URL begins with exactly the base URL, ends in `.xml`, and the year, month and day can be read back from what follows the base |
| XRate.ExchangeRateReader.FindRate | src/xrate/ExchangeRateReader.java:155-170 | the loop with its early exit returns exactly the lookup specification: first match, default, or the failure of the first unreadable record |
| XRate.ExchangeRateReader.GetExchangeRate | src/xrate/ExchangeRateReader.java:59-75 | the URL for the date is built and fetched; a fetch failure is returned as such, otherwise the result is the lookup of the code in the fetched records |
| XRate.ExchangeRateReader.GetCrossExchangeRate | src/xrate/ExchangeRateReader.java:94-118 | one URL is built and fetched and both codes are looked up in the same record list; the first currency's failure wins, then the second's, and otherwise the result is the first rate divided by the second |

Both public lookups are functions of their arguments and the fetched content,
so two calls with the same arguments against an unchanged feed give the same
result.

## Left out

- Opening the URL, `openStream` and closing the stream (src/xrate/ExchangeRateReader.java:65-66, 72, 100-101, 115) are network I/O; they are folded into the `fetch` parameter. The model does not capture that the stream is left open when the scan throws.
- XML parsing with `DocumentBuilderFactory`, `normalize` and `getElementsByTagName("fx")` (src/xrate/ExchangeRateReader.java:120-127, 151-153) are library calls; the scan is given the already extracted record list.
- `Float.parseFloat` and the `float` type (src/xrate/ExchangeRateReader.java:163) are floating point; parsing is the abstract partial function `parse` over an arbitrary rate type.
- The division `fromCurrencyRate / toCurrencyRate` (src/xrate/ExchangeRateReader.java:112) is float division, including division by zero; it is the abstract total function `divide`.
- The exception classes are collapsed into the three `Error` cases described above; the exact exception type and message are not modelled.
- A `null` base URL (Java would insert the text `null`) cannot occur, because Dafny strings are never null.
- The `throws IOException` of the constructor is never raised by its body and is not modelled.
