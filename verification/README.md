# Withdrawal report, tax entry and player loading, modelled in Dafny

The `selenium_project` scripts drive a payment back office through a browser.
Once the browser calls are set aside, three pieces of plain logic remain, and
this project models them:

- **The withdrawal crawler** (`selenium-crawler-wd.py`).
  - Each row of the transaction table is a list of cell texts. A row is
    dropped or parsed into a record, and malformed amounts become zero.
  - Each page's records are grouped by gateway. Pages are merged into the
    run's collection, and a repeated Order ID is counted as a duplicate
    instead of being kept.
  - The collection is printed as a report: per-gateway blocks with totals,
    records newest first, a grand total, and one
    `(wd) pg <GATEWAY> <DD/MM/YYYY> | Total Fee: Rs <fee>` line per gateway.
- **The tax tool** (`add-tax.py`).
  - It cuts the text after the `==== GRAND TOTAL` line out of each history
    file and scans it for fee lines with one regular expression.
  - It keeps the supported gateways. Each fee becomes a tax record dated the
    following day at 00:00, with an order ID, bank reference and remarks
    built from templates.
  - It groups the records by gateway and sets each gateway up once before
    entering its records.
  - Also modelled: the gateway name map, the AM/PM rule of the time picker,
    and `remove_bom`.
- **The player tool** (`selenium-add-player.py`).
  - It reads `#<n> - Phone: <digits>, Email: <email>, Affiliate: <code>`
    lines. Blank lines are dropped, the last line comes first, and lines the
    pattern rejects are skipped.
  - It fills the add-player form from each record. An email of `-` leaves the
    email input alone.

A fourth module joins the first two. It proves that the fee lines the crawler
writes are read back by the tax tool's pattern, and that they become one tax
record per gateway, dated the day after the gateway's first transaction, for
the gateway's total fee.

## How the model is built

- Money is an integer number of hundredths (`Money.Cents`).
  - `Money.Fixed2` is `%.2f`.
  - `Money.Thousands` is `:,.2f`.
  - `Money.ParseDecimal` reads decimal text the way `float` does for the
    texts these tools produce.
- Dates are a `(day, month, year)` datatype with a validity predicate and a
  Gregorian `NextDay`. `%d/%m/%Y` and `%Y-%m-%d %H:%M:%S` are parsed with
  the field widths of CPython's `_strptime`.
- Each regular expression is a hand-written matcher:
  - the fee-line pattern of `add-tax.py:771` is `FeeMatcher.MatchAt`, with
    `re.findall` as `FeeMatcher.FindAll`;
  - the grand-total search of `add-tax.py:763` is `FeeMatcher.Section`;
  - the player pattern of `selenium-add-player.py:86` is
    `PhoneRecords.ParseLine`.
- Python's insertion-ordered dicts of lists are sequences of keyed groups
  (`OrderedGroups`).
  - `GroupBy` is the `defaultdict(list)` grouping.
  - `Append` is `groups[key].append(x)`.
- Browser work becomes data:
  - the crawler reads `seq<seq<string>>` rows per page, and a run is a given
    finite list of pages;
  - the tax tool's browser phase is a list of `Setup`/`Enter` actions;
  - the player form is a list of `(placeholder, value)` inputs.

The crawler's cell-count handling is modelled as written:
- A row of fewer than 5 cells is skipped.
- A row of 5 to 13 cells fails at `cols[12]` and is dropped by the handler.
- A row of 14 to 21 cells gets the gateway `"Unknown"`.
- A row of 22 to 24 cells passes the `len(cols) > 21` guard but fails at
  `cols[24]`, so it is dropped.

The player file is processed last line first, which is what
`[::-1]` at `selenium-add-player.py:90` does.

## Model

| member | source | states |
|---|---|---|
| Crawler.ParseRow | selenium_project/selenium-crawler-wd.py:168-211 | Fewer than 5 cells is skipped, and a first cell holding "Page Summary" or "Total Summary" is a summary row. Any other row is parsed exactly when it has at least 14 cells and not 22 to 24 cells. A parsed record holds the stripped Order ID (cell 1), phone (cell 8), amount (cell 12) and fee (cell 13). Its gateway is "Unknown" up to 21 cells and cell 24 beyond that. Its time is "" up to 20 cells and cell 18 beyond that. |
| Crawler.CellTextDoesNotDropRow | selenium_project/selenium-crawler-wd.py:182-197 | Whatever text the amount and fee cells hold, the row is parsed or dropped just as before: bad numbers become 0 instead of losing the row. |
| Crawler.ExtractPage | selenium_project/selenium-crawler-wd.py:155-217 | The page's groups have distinct gateways, and every record sits under its own gateway. Each gateway's list is exactly that gateway's parsed records in row order, and the groups together hold every parsed record. |
| Crawler.MergePage | selenium_project/selenium-crawler-wd.py:323-331 | Merging a page keeps one group per gateway. Crawler.MergePageGroups and Crawler.MergePageKeys state what it collects and in which order. |
| Crawler.MergeListGroups | selenium_project/selenium-crawler-wd.py:324-331 | Merging one gateway's page list appends, one by one, exactly the records whose Order ID is not yet seen and not on an earlier record of the list. |
| Crawler.MergePageGroups | selenium_project/selenium-crawler-wd.py:323-331 | After merging a page, the dict is the old dict with the page's first-occurrence records of new Order IDs appended one by one, in merge order. |
| Crawler.MergePageKeys | selenium_project/selenium-crawler-wd.py:323-331 | The old gateways keep their place and order, and they are a prefix of the new key order. New gateways follow in the order their first new record arrives (dict insertion order). No gateway's list is empty. |
| Crawler.MergePageInv | selenium_project/selenium-crawler-wd.py:323-331 | The merge keeps the collector invariant: groups keyed by their records' gateway, and the collected Order IDs are exactly `seen`, each once. |
| Crawler.MergePageItems | selenium_project/selenium-crawler-wd.py:323-331 | After the merge, each gateway's list is its old list unchanged, followed by that gateway's records from the independent first-occurrence filter `Fresh`. Collected records and their order are untouched, and the first occurrence of an ID wins. |
| Crawler.MergePageCounts | selenium_project/selenium-crawler-wd.py:323-331 | `seen` grows by the page's Order IDs, and `duplicate_count` grows by exactly the number of page records that `Fresh` rejects. No gateway is lost. |
| Crawler.FreshFirstWins | selenium_project/selenium-crawler-wd.py:325-330 | `Fresh` keeps no ID twice and only records with unseen IDs. It keeps every record whose ID is unseen and not on an earlier record. |
| Crawler.Run | selenium_project/selenium-crawler-wd.py:313-340 | Over a finite list of pages the collector invariant holds. The duplicates plus the collected records account for every record parsed on every page. Crawler.RunCollects states what is collected. |
| Crawler.RunCollects | selenium_project/selenium-crawler-wd.py:310-331 | `gateway_groups` is exactly the insertion-ordered grouping by gateway of every page's records, page after page. Only the first record of each Order ID is kept. Each gateway's list is its records in that order, and the keys come in order of first appearance. No list is empty. `seen_order_ids` is the set of Order IDs of all records read. The records the merge visits are exactly the records of all pages. |
| Crawler.RunHasNoDuplicateIds | selenium_project/selenium-crawler-wd.py:310-331 | After the whole run, no two collected records share an Order ID. |
| Report.TimeKey | selenium_project/selenium-crawler-wd.py:240-248 | The sort key is never below the `datetime.min` key 0, which blank and unparsable times get. Report.TimeKeyChronological and Report.MissingTimeIsOldest state its order. |
| Report.TimeKeyChronological | selenium_project/selenium-crawler-wd.py:240-243 | For two parsed times, one key is below the other exactly when its time is earlier in datetime order. Equal keys mean equal times. |
| Report.MissingTimeIsOldest | selenium_project/selenium-crawler-wd.py:240-248 | A blank or unparsable time gets a key no higher than any parsed time. The keys are equal only when the parsed time is exactly `datetime.min`. |
| Report.SortedNewestFirst | selenium_project/selenium-crawler-wd.py:250 | In the sorted list, no parsed time is earlier than a parsed time after it. |
| Calendar.RankOrder | selenium_project/selenium-crawler-wd.py:243-250 | For timestamps strptime can produce, a lower rank means an earlier datetime (by day, then hour, minute and second) and the converse. Equal ranks mean equal timestamps. |
| Calendar.RankZero | selenium_project/selenium-crawler-wd.py:245-248 | Only `datetime.min` (0001-01-01 00:00:00) has rank 0. |
| Report.SortNewestFirst | selenium_project/selenium-crawler-wd.py:250 | The output is a permutation of the records and descends by time key. Records with equal keys keep their input order (stable, as `sorted(..., reverse=True)` is). |
| Report.MissingTimesLast | selenium_project/selenium-crawler-wd.py:240-250 | After a record with a blank or unparsable time, only records with the `datetime.min` key follow. |
| Report.RecordWord | selenium_project/selenium-crawler-wd.py:235 | The header says "record" exactly for one record and "records" otherwise, including for none. |
| Report.Entries | selenium_project/selenium-crawler-wd.py:252-261 | One entry per record, in order, numbered consecutively from the given start (1 in every block). |
| Report.FeeLine | selenium_project/selenium-crawler-wd.py:279-291 | No contract of its own. FeeRoundTrip.FeeLineShape and FeeRoundTrip.ReadRow prove that the tax tool's pattern reads this line back as the gateway, the first record's date and the two-decimal total fee. |
| Report.ReportText | selenium_project/selenium-crawler-wd.py:221-291 | No contract of its own. FeeRoundTrip.ReportSection proves that the text after its grand-total line is exactly the fee lines, one per gateway in gateway order. Report.GrandTotalIsSumOfAll proves the grand total. |
| Report.GrandTotalIsSumOfAll | selenium_project/selenium-crawler-wd.py:269-274 | The sum of the per-gateway totals is the sum of all collected amounts, and the sum of group sizes is the number of collected records. |
| Report.TotalIgnoresArrivalOrder | selenium_project/selenium-crawler-wd.py:229 | A gateway's total amount does not depend on the order of its records. |
| Report.SortKeepsTotal | selenium_project/selenium-crawler-wd.py:229-250 | Sorting a gateway's records newest first keeps its total amount. |
| Money.ParseDecimal | selenium_project/selenium-crawler-wd.py:184-197 | No contract of its own. Money.ParseFixed2 proves that it reads back every `%.2f` text exactly, negative amounts included. |
| Money.ParseFixed2 | selenium_project/add-tax.py:781 | Reading back the `%.2f` text of any amount gives that amount. |
| Money.Fixed2 | selenium_project/selenium-crawler-wd.py:235 | `%.2f` text has at least four characters (sign aside, "0.00"). Money.ParseFixed2 is its inverse. |
| Money.Thousands | selenium_project/selenium-crawler-wd.py:259 | No contract of its own. Money.ThousandsWithoutCommas ties it to `%.2f`. |
| Money.ThousandsWithoutCommas | selenium_project/selenium-crawler-wd.py:229 | `:,.2f` text with its commas removed is the `%.2f` text of the same amount. That is the text the report's totals are read back from. |
| Money.SumPermutation | selenium_project/selenium-crawler-wd.py:229-232 | A sum does not depend on the order of its terms. |
| Calendar.NextDay | selenium_project/add-tax.py:785 | The next day of a valid date is valid, and its day ordinal is one more. |
| Calendar.OrdinalInjective | selenium_project/add-tax.py:785 | Two valid dates with the same day ordinal are the same date, so the next day is unique. |
| Calendar.AddOneDay | selenium_project/add-tax.py:785 | `date + timedelta(days=1)` succeeds exactly when the date is not 31/12/9999, and then it equals NextDay and stays in range. |
| Calendar.ParseDMY | selenium_project/add-tax.py:784 | `strptime(s, "%d/%m/%Y")` gives only dates in the range `datetime` allows. |
| Calendar.ParseFormatDMY | selenium_project/selenium-crawler-wd.py:284 | A date written as DD/MM/YYYY is parsed back as itself. |
| Calendar.ParseTimestamp | selenium_project/selenium-crawler-wd.py:243 | `strptime(s, "%Y-%m-%d %H:%M:%S")` gives an in-range date, an hour below 24, and a minute and second below 60. |
| OrderedGroups.GroupBy | selenium_project/add-tax.py:828-833 | Groups have distinct keys in first-appearance order. Each key's list is exactly the items with that key in input order, and together the groups hold every item. |
| OrderedGroups.GroupByWellKeyed | selenium_project/add-tax.py:828-833 | Every grouped item sits under its own key. |
| OrderedGroups.Append | selenium_project/selenium-crawler-wd.py:327 | Appending to a keyed group list keeps keys distinct, and adds the key at the end only when it is new. |
| OrderedGroups.AppendAllKeys | selenium_project/selenium-crawler-wd.py:327 | Appending a run of items keeps the existing keys in place. New keys follow in the order of their first item. |
| OrderedGroups.AppendAllItems | selenium_project/selenium-crawler-wd.py:327 | Appending a run of items grows each key's list by exactly that key's items, in order. |
| OrderedGroups.AppendAllJoin | selenium_project/selenium-crawler-wd.py:324-327 | Appending two runs of items one after the other equals appending their concatenation. |
| OrderedGroups.GroupByIsAppendAll | selenium_project/add-tax.py:828-833 | Grouping a list is appending its items one by one to an empty dict. |
| OrderedGroups.GroupByNoEmpty | selenium_project/add-tax.py:828-833 | Grouping never yields a key with an empty list. |
| OrderedGroups.AppendItems | selenium_project/selenium-crawler-wd.py:327 | Appending adds the item at the end of its key's list and changes no other list. |
| FeeMatcher.MatchAt | selenium_project/add-tax.py:771 | A match of the fee pattern consumes at least one character and has captures of the pattern's shape. No match starts anywhere but at "(". |
| FeeMatcher.FindAll | selenium_project/add-tax.py:772 | No contract of its own. The lemmas in the rows below state what it finds. |
| FeeMatcher.FindAllShaped | selenium_project/add-tax.py:771-772 | Every capture `findall` returns has the pattern's shape: a word tag, an alphanumeric gateway, a date of digits and slashes, and an amount of digits and commas with at most one point. |
| FeeMatcher.FindAllMatch | selenium_project/add-tax.py:772 | A match at the scan position is reported, and the scan resumes after it. |
| FeeMatcher.SkipNoParen | selenium_project/add-tax.py:772 | Text without "(" contributes no match. |
| FeeMatcher.Section | selenium_project/add-tax.py:763-766 | The section found is a suffix of the file's content. |
| FeeMatcher.NoMarkerNoSection | selenium_project/add-tax.py:763-765 | Content without the `==== GRAND TOTAL` marker has no section. |
| FeeMatcher.SectionAfter | selenium_project/add-tax.py:763-766 | With the marker line first seen after a marker-free prefix, the section is exactly the text after the marker line and its blank lines. |
| FeeScan.MatchLine | selenium_project/add-tax.py:771 | On a line "(tag) pg gateway date \| Total Fee: Rs whole.frac" with a word tag, an alphanumeric gateway, a date of digits and slashes and a decimal amount, the pattern matches at the "(". It captures exactly the tag, gateway, date and amount, and stops at the line's newline. |
| FeeScan.DateFails | selenium_project/add-tax.py:771 | A fee line whose date starts with a character that is neither a digit, a slash nor a space (such as "Unknown") does not match. |
| FeeScan.AmountFails | selenium_project/add-tax.py:771 | A fee line whose amount starts with a character that is neither a digit, a comma nor a space (such as a minus sign) does not match. |
| FeeScan.SpacedGatewayFails | selenium_project/add-tax.py:771 | A gateway written as a word, a space and a word starting with a letter cannot fill `([A-Z0-9a-z]+)\s+([\d/]+)`, so the line does not match. |
| FeeRoundTrip.FeeLineShape | selenium_project/selenium-crawler-wd.py:289 | The report's fee line is the generic fee line built from the gateway, its date and its `%.2f` total. |
| FeeRoundTrip.ReadRow | selenium_project/add-tax.py:771-772 | Wherever such a line occurs in a text, `findall` reads it as its tag, gateway, date and amount, then goes on after it. |
| FeeRoundTrip.UnreadFails | selenium_project/add-tax.py:771 | A fee line whose date is "Unknown" or whose fee is negative matches nothing. |
| FeeRoundTrip.SpacedLineFails | selenium_project/add-tax.py:771 | A fee line for a gateway name with spaces, such as "MOHAMMED AMEER ABBAS", matches nothing. |
| FeeRoundTrip.RowsReadBack | selenium_project/add-tax.py:772 | `findall` over a run of fee lines returns what each line reads as, in order. |
| FeeRoundTrip.ReportSection | selenium_project/add-tax.py:763-766 | The tax tool's section of the crawler's report is exactly the report's fee lines. |
| FeeRoundTrip.ReportReadBack | selenium_project/selenium-crawler-wd.py:289 | For the crawler's report, `findall` over the tax tool's section returns one capture per gateway whose line is readable, in gateway order. Readable means a one-word name, a known date and a fee that is not negative. The capture holds that gateway, date and fee. |
| FeeRoundTrip.ReadOfFields | selenium_project/add-tax.py:774-784 | A readable gateway's capture has tag "wd", the gateway's name, a date that parses to its first record's day, and an amount that parses to its total fee. |
| FeeRoundTrip.ReadBackCount | selenium_project/add-tax.py:772 | At most one capture per gateway, and one for every gateway exactly when every gateway is readable. |
| Tax.SetupTarget | selenium_project/add-tax.py:292-312 | The map has an entry exactly for the 16 supported gateways. "MOHAMMED AMEER ABBAS" maps to "Karnataka Bank 2" and every other entry to itself. |
| Tax.Derive | selenium_project/add-tax.py:774-800 | An unsupported gateway is skipped. A supported one fails exactly when its amount has no digit, its date does not parse, or it is 31/12/9999. Otherwise the record has the gateway, the label, the date text and the comma-free amount. Its datetime is one day after the date, at hour "00" and minute "00". Its order ID is `TAX-<gateway>-<LABEL>-<ddmmyyyy>`. Its bank reference and remarks are "Interest Charge" with the title-cased or upper-cased label and dd/mm. |
| Tax.DeriveExample | selenium_project/add-tax.py:769 | The documented fee line for label "depo", gateway SKPAY, date 29/07/2025 and fee "3739.20" gives the record TAX-SKPAY-DEPO-29072025 for 30/07/2025, "3739.20", "Interest Charge Depo 29/07" and "Interest Charge DEPO 29/07". |
| Tax.Collect | selenium_project/add-tax.py:774-811 | A file yields at most one record per match, and only records its matches made. Tax.CollectBeforeFailure states exactly which. |
| Tax.CollectBeforeFailure | selenium_project/add-tax.py:802-811 | A failure ends the file: the records are exactly those made before the first failing match, and skipped matches add nothing. |
| Tax.CollectAllMade | selenium_project/add-tax.py:774-802 | When every match makes a record, the file yields those records one to one, in order. |
| Tax.TaxRecords | selenium_project/add-tax.py:757-811 | No contract of its own. The lemmas in the rows below state what it reads. |
| Tax.TaxRecordsAppend | selenium_project/add-tax.py:757-811 | Files are read independently: the records of two lists of files are the first list's followed by the second's. |
| Tax.UnmarkedFileAddsNothing | selenium_project/add-tax.py:763-806 | A file without the grand-total marker adds no records. |
| Tax.TaxRecordGateways | selenium_project/add-tax.py:771-778 | Every record read has a supported, non-empty, alphanumeric gateway. |
| Tax.ReferenceMatchesRemarks | selenium_project/add-tax.py:796-797 | Bank reference and remarks have the same length and agree when upper-cased. |
| Tax.OrderIdInjective | selenium_project/add-tax.py:790 | For gateways without "-", the order ID determines the gateway, the upper-cased label and the date. |
| Tax.Plan | selenium_project/add-tax.py:827-843 | No contract of its own. Tax.PlanFacts states what it does. |
| Tax.PlanFacts | selenium_project/add-tax.py:827-843 | Gateways are set up in the order their first record was read, each exactly once. Every record is entered exactly once, each gateway's records in read order. No record is entered before its gateway's setup. |
| Tax.PerformSetups | selenium_project/add-tax.py:836-839 | For groups not yet performed, the setups are exactly the group keys in order. |
| Tax.PerformEntered | selenium_project/add-tax.py:842-843 | The records entered are the grouped records, group after group. |
| Tax.PerformSetUpFirst | selenium_project/add-tax.py:836-843 | Every entry follows its gateway's setup, or its gateway was performed before. |
| Tax.NoBankAccountSetup | selenium_project/add-tax.py:305 | No setup the tool performs types a name other than the gateway's own. The bank account entry is never used because its name cannot come out of the fee pattern. |
| Tax.Meridiem | selenium_project/add-tax.py:676 | The target is "AM" or "PM", and "AM" exactly when the hour is below 12. |
| Tax.HourValue | selenium_project/add-tax.py:676 | `int` of the hour text succeeds exactly on non-empty ASCII digit text. |
| Tax.ToggleReachesMeridiem | selenium_project/add-tax.py:682-688 | The toggle is clicked exactly when its stripped, upper-cased text differs from the target. With a click switching AM and PM, the picker ends on the target. |
| Tax.ZeroHourIsAM | selenium_project/add-tax.py:676 | An hour of zeros of any length reads as 0 and is entered as AM. |
| Tax.MidnightIsAM | selenium_project/add-tax.py:794 | Every derived tax record's hour reads as 0 and is entered as AM. |
| Tax.RemoveBom | selenium_project/add-tax.py:281-285 | The result is a suffix of the line that does not start with a byte-order mark, and everything removed is marks. `remove_bom` is never called by the program. |
| Tax.RemoveBomOf | selenium_project/add-tax.py:281-285 | Any number of marks in front of mark-free text are all removed. |
| Tax.RemoveBomIdempotent | selenium_project/add-tax.py:281-285 | Removing the marks twice removes nothing more. |
| ReportToTax.TaxOfGroup | selenium_project/add-tax.py:774-800 | A taxable group's fee line is read as one capture. The capture derives a record for the group's gateway, label "wd", the group's total fee, and the day after its first transaction. Taxable means readable, supported, and not dated 31/12/9999. |
| ReportToTax.RecordsFromReadBack | selenium_project/add-tax.py:774-802 | When every group is taxable, the captures read back from the groups yield one such record per group, in order. |
| ReportToTax.OneFile | selenium_project/add-tax.py:759-772 | A file's records are the records of the captures found in its section. |
| ReportToTax.ReportToTaxRecords | selenium_project/selenium-crawler-wd.py:289 | The crawler's report, given to the tax tool as its one file, yields one tax record per gateway in report order. Each record is for the gateway's total fee, dated the day after its first transaction. This needs every gateway taxable and the marker absent from the record blocks. |
| ReportToTax.Fixed2Plain | selenium_project/add-tax.py:781 | `%.2f` of a fee that is not negative has a digit and no comma, so `float` accepts it unchanged. |
| PhoneRecords.PhoneField | selenium_project/selenium-add-player.py:86 | The phone group is a non-empty run of digits inside the line. |
| PhoneRecords.LazyEnd | selenium_project/selenium-add-player.py:86 | The lazy `.*?` stops at the first position where the rest of the pattern matches, and crosses no line break. |
| PhoneRecords.EmailEnd | selenium_project/selenium-add-player.py:86 | The email group ends at the first ", Affiliate:" separator (with its whitespace) where the affiliate group then matches. |
| PhoneRecords.EmailField | selenium_project/selenium-add-player.py:86 | The email and affiliate groups are consecutive pieces of the line, and the email has no line break. |
| PhoneRecords.ParseLine | selenium_project/selenium-add-player.py:86-95 | A parsed player has a non-empty digit phone, and a trimmed email and affiliate without line breaks. |
| PhoneRecords.ParseFormatLine | selenium_project/selenium-add-player.py:86-95 | A line written as `#<n> - Phone: <p>, Email: <e>, Affiliate: <a>` is parsed back as exactly those fields, for a comma-free email and a non-empty affiliate. |
| PhoneRecords.Kept | selenium_project/selenium-add-player.py:90 | The kept lines are non-empty, stripped, and no more than the file's lines. |
| PhoneRecords.LoadRecords | selenium_project/selenium-add-player.py:83-104 | No contract of its own. The lemmas in the rows below state what it loads. |
| PhoneRecords.LoadNewestFirst | selenium_project/selenium-add-player.py:90-104 | The records loaded are the records of the kept lines in file order, reversed. |
| PhoneRecords.LoadCount | selenium_project/selenium-add-player.py:90-104 | At most one record per non-blank line, and one for each exactly when every non-blank line matches. |
| PhoneRecords.SomesCount | selenium_project/selenium-add-player.py:92-102 | Skipping the unmatched lines loses a record exactly when some line does not match. |
| PhoneRecords.SkippedLineIgnored | selenium_project/selenium-add-player.py:93-102 | A blank or malformed line anywhere in the file changes nothing about the records loaded. |
| PhoneRecords.LoadWritten | selenium_project/selenium-add-player.py:83-104 | A file written one player per line is loaded as those players, the last line's first. |
| PhoneRecords.WrittenParsed | selenium_project/selenium-add-player.py:92-100 | Parsing the written lines in file order gives the players back. |
| PhoneRecords.WrittenTrimmed | selenium_project/selenium-add-player.py:90 | A written line is non-blank and has no surrounding whitespace, so stripping keeps it. |
| PhoneRecords.KeptTrimmed | selenium_project/selenium-add-player.py:90 | When every line is non-blank and stripped, all lines are kept as they are. |
| PhoneRecords.Filled | selenium_project/selenium-add-player.py:142-181 | No contract of its own. PhoneRecords.FormLookups states what ends up in each input. |
| PhoneRecords.FilledSkip | selenium_project/selenium-add-player.py:142-181 | Inputs with other placeholders in front do not change what an input holds. |
| PhoneRecords.FormLookups | selenium_project/selenium-add-player.py:142-181 | Player ID and Phone Number get the phone. Email gets the email unless it is "-", in which case it is not filled. Both affiliate inputs get the affiliate code. There are 4 inputs with a "-" email and 5 otherwise. |
| PhoneRecords.FormFromLine | selenium_project/selenium-add-player.py:95-181 | For a written line, the form is filled from the fields written: the phone twice, the email unless "-", and the affiliate twice. |

## Left out

- Browser work is not modelled: the driver, login, captcha, overlays, click
  retries, selectors, waits and sleeps. The model's inputs are the cell
  texts, file contents and input placeholders that the browser work produces
  or consumes.
- File reading and writing, `fsync` and coloured printing are not modelled.
  The report is a returned string, and files are given as optional strings
  (`None` for a missing file).
- The tax tool's summary printout (`add-tax.py:813-825`) is not modelled.
- The crawler's re-find of rows and its stale-element handler are not
  modelled: rows are given as texts, so none goes stale.
- `click_next_page` is not modelled. Crawler.Run folds over a given finite
  list of pages, because the source loop ends only when the browser refuses
  a click.
- The player tool's top-level loop (`selenium-add-player.py:201-204`) is not
  modelled. It fills one form per loaded record, in load order.
- The `is_tax_record` flag of a tax record is always true and is not kept.
- Money.ParseDecimal: only plain decimal text with at most two decimals is
  accepted. Any other text reads as non-numeric, and so becomes zero in a
  crawler cell. Python's `float` also accepts "1234.567", exponents ("1e3",
  ".5e2"), underscores ("1_000"), "inf" and "nan", and non-ASCII digits.
  For example, the amount cell "1,234.567" totals "1,234.57" in the source
  and "0.00" in the model. Money is exact hundredths, so binary
  floating-point sums and `round(..., 2)` are not modelled either.
- Strings.IsDigit: `\d` is ASCII `0`-`9` only. In Python 3 string patterns,
  `\d` also matches other Unicode decimal digits (`add-tax.py:771`,
  `selenium-add-player.py:86`).
- Strings.IsWord: `\w` is ASCII letters, digits and `_` only. Python's `\w`
  also matches other Unicode letters and digits.
- FeeMatcher.InClass: the pattern's classes are built on the ASCII
  Strings.IsDigit and Strings.IsWord, with the limits stated in those two
  lines.
- FeeMatcher.PieceEnd: the `Fold` piece models `re.IGNORECASE` as ASCII
  case folding (Strings.Lower). Python also matches some non-ASCII letters
  against ASCII ones. Of the letters in the player pattern
  (`selenium-add-player.py:86`), this affects only the 'i' of "Email:" and
  "Affiliate:": Python matches it against 'İ' (U+0130) and 'ı' (U+0131).
  So a line spelled "Emaİl:" or "Affılıate:" is rejected by
  PhoneRecords.ParseLine but accepted by the source. The fee pattern is
  compiled without `re.IGNORECASE` (`add-tax.py:772`), so it is not
  affected.
- FeeMatcher.FoldStep: it steps over a `Fold` piece under the same ASCII
  folding as FeeMatcher.PieceEnd.
- PhoneRecords.ParseLine: its pattern pieces use the ASCII folding stated for
  FeeMatcher.PieceEnd and the ASCII classes stated for Strings.IsDigit.
- Calendar.ParseDMY: `strptime` digits are ASCII only here, with the same
  limit as Strings.IsDigit.
- Tax.HourValue: only non-empty ASCII digit text is read. `int` also allows
  surrounding whitespace, a sign and underscores, but the tool only ever
  passes "00".
- Tax.TaxRecord: the amount is kept as the comma-free fee text. The source
  stores `float(...)` (`add-tax.py:781`, `:791`) and types
  `str(record["Amount"])` (`:629`). So "3739.20" is typed as "3739.2" and
  "54.00" as "54.0". Tax.Derive and Tax.DeriveExample state the text before
  that conversion.
- Tax.Plan: the actions are the intended sequence of setups and entries.
  `add_transaction_details` waits for the amount, hour and minute inputs
  with unguarded `WebDriverWait(...).until` calls (`add-tax.py:625`, `:664`,
  `:670`), and the loop at `:842-843` has no handler. So one time-out ends
  the whole run, and the records after it are never entered. Tax.PlanFacts
  describes a run in which every wait succeeds.
- PhoneRecords.FormInputs: the same holds for the add-player form. Its waits
  (`selenium-add-player.py:128-181`) are unguarded, so one time-out ends the
  run.
- Tax.ToggleReachesMeridiem: it assumes the toggle shows "AM" or "PM" and
  that one click switches it. The retries of `smart_click` are not modelled.
- Tax.RemoveBom: `remove_bom` (`add-tax.py:281-285`) is dead code, because
  the program never calls it. It is modelled because it is part of the
  tool's text handling, but nothing else in the model uses it.
- FeeRoundTrip.ReportReadBack: it needs every gateway name in a known shape.
  That is either one alphanumeric word, or an alphanumeric word followed by a
  space and a letter, with no parenthesis. It also needs no record block to
  contain the `==== GRAND TOTAL` marker text, since that would move the
  section.
- ReportToTax.ReportToTaxRecords: it covers reports whose every gateway is
  taxable. Unreadable and unsupported gateways are covered separately, by
  FeeRoundTrip.ReportReadBack (which of them are read) and Tax.Derive (what
  becomes of each).
- PhoneRecords.ParseFormatLine: the round trip is proved for emails without
  commas. An email containing ", Affiliate: " would be split by the lazy
  group, so the source does not round-trip those.
