# PO vs SO pricing report — a Dafny model

This project models the core of an Odoo add-on that compares what purchase
order lines cost against the cost recorded on the sale order lines they
fulfil. It runs over the sale orders of the previous calendar month. It
reports, line by line, every case where the purchase came in cheaper than the
sale order assumed, as a spreadsheet attached to an email.

The model covers the five decisions in `models/po_vs_so_pricing_report.py`:

- **Reporting window** (`calendar.dfy`, module `Calendar`): Gregorian dates
  in the range of Python's `date` (years 1 to 9999, leap years included), a
  time of day in microseconds, the step back by one day, and the first and
  last instants of the previous month.
- **Order selection** (`pricing_report.dfy`, `PricingReport.SaleOrderSelected`):
  the search domain of `get_sale_orders`.
- **Row building** (`pricing_report.dfy`): sale orders, sale lines, purchase
  orders, purchase lines and products as plain values. Each (sale order, sale
  line, purchase line) triple goes through the four eligibility filters. The
  purchase price is converted when the currencies differ, and the price
  difference is computed. A row is kept when that difference is strictly
  positive. `PrepareReportData` is the loop the source runs; it is proved
  equal to the specification function `ReportRows`. The lemmas about
  `ReportRows` state what the report contains.
- **Spreadsheet layout** (`spreadsheet.dfy`): the header row, the width rule
  of each column, the amber highlight of non-empty notes and the final width
  of the note column.
- **Attachment name** (`notifier.dfy`): the subject with `.xlsx` appended
  and `(`, `)`, space and `/` replaced by `_`.

`filter_map.dfy` holds the generic filter-and-map over a sequence that the
row building is an instance of. `wrappers.dfy` holds `Option`.

Inputs the source reads from its environment are parameters:

- `today` stands for `date.today()`.
- `convert` stands for `res.currency._convert`: an arbitrary function of the
  amount, both currencies, the company and the date.
- The sale orders stand for the result of the ORM search.

Where Python raises, the model returns `None`. The only such case is the
step back from 0001-01-01, in January of year 1.

Two points worth knowing about the code:

- The attachment name replaces only `(`, `)`, space and `/`. It does not
  replace every non-alphanumeric separator.
- The note column is set to the length of each non-empty note in turn, so
  the last such note decides its final width. It is not widened to fit the
  longest note.

## Model

| member | source | states |
|---|---|---|
| `Calendar.DaysInMonth` | models/po_vs_so_pricing_report.py:53-54 | the Gregorian month lengths that stepping back a day relies on: between 28 and 31, and February has 29 days exactly in leap years |
| `Calendar.PreviousDay` | models/po_vs_so_pricing_report.py:53-54 | one day back: a valid date that precedes `d`, with no valid date in between, and whose next day is `d`; no result exactly for 0001-01-01, where Python overflows |
| `Calendar.FirstDayOfMonth` | models/po_vs_so_pricing_report.py:42 | `replace(day=1)`: same year and month, day 1, not after the input |
| `Calendar.FirstDayOfPreviousMonth` | models/po_vs_so_pricing_report.py:39-48 | day 1 of the month before today's month at 00:00 (December of the previous year in January); no result only in January of year 1 |
| `Calendar.LastDayOfPreviousMonth` | models/po_vs_so_pricing_report.py:50-58 | the last day of the month before today's month (leap years included) at 23:59:59.999999, and that day is immediately followed by day 1 of today's month |
| `Calendar.PreviousMonthWindow` | models/po_vs_so_pricing_report.py:39-58 | both ends exist together, start is not after end, both lie in the same month before today's month, and a datetime lies in the window exactly when it falls in that month |
| `Calendar.JanuaryWindowIsPreviousDecember` | models/po_vs_so_pricing_report.py:39-58 | for 15 January 2025 the window is 1 December 2024 00:00 to 31 December 2024 at the end of the day |
| `Calendar.LeapFebruaryWindow` | models/po_vs_so_pricing_report.py:50-58 | the window of March ends on 29 February in 2024 and on 28 February in 2023 |
| `PricingReport.SaleOrderSelected` | models/po_vs_so_pricing_report.py:65-69 | the search domain: an order is selected only when its date lies between the two window ends, inclusive (so the window is not empty), and its state is "sale" or "done" |
| `PricingReport.SelectionIsPreviousMonth` | models/po_vs_so_pricing_report.py:60-69 | with the previous-month window, an order is selected exactly when it was placed in the month before today's month, both ends included, and its state is "sale" or "done" |
| `PricingReport.RowOf` | models/po_vs_so_pricing_report.py:84-121 | the innermost loop body for one triple: no row when the purchase line fails a filter, and any row it yields describes the triple (fields, converted unit price, formula, positive difference, note exactly on a currency mismatch) |
| `PricingReport.FiltersExclude` | models/po_vs_so_pricing_report.py:85-92 | each filter alone excludes a triple: a purchase order state outside {purchase, done}, the report-exclusion flag, a positive licence length, a product type other than "product" |
| `PricingReport.RowOfSpec` | models/po_vs_so_pricing_report.py:94-121 | a triple yields a row exactly when it passes the filters and its price difference is strictly positive, and that row carries the ten fields, the formula and the note that the source computes |
| `PricingReport.CurrencyNoteNamesBoth` | models/po_vs_so_pricing_report.py:99 | the currency note is never empty and names the sale currency, then the purchase currency, at fixed positions |
| `PricingReport.EvaluatePurchaseLine` | models/po_vs_so_pricing_report.py:84-121 | the innermost loop body, with its four early exits, computes exactly the row (or no row) of its triple |
| `PricingReport.SaleLineRows` | models/po_vs_so_pricing_report.py:83-121 | the loop over one sale line's purchase lines returns the rows of its triples, in order |
| `PricingReport.SaleOrderRows` | models/po_vs_so_pricing_report.py:79-121 | the loop over one order's lines, skipping lines without purchase lines, returns the rows of its triples, in order |
| `PricingReport.PrepareReportData` | models/po_vs_so_pricing_report.py:71-123 | the three nested loops, skipping orders without lines, return exactly `ReportRows` of the orders |
| `PricingReport.ReportRows` | models/po_vs_so_pricing_report.py:71-123 | the report `prepare_report_data` builds: at most one row per triple, and every row has a strictly positive price difference |
| `PricingReport.ReportRowsDescribeTheirTriples` | models/po_vs_so_pricing_report.py:106-121 | every row comes from a distinct triple, at increasing positions in iteration order. It has the ten fields in the source's order and the price difference (cost − unit price) × quantity, strictly positive. The unit price is converted exactly when the currencies differ, and the note is non-empty exactly then. There are at most as many rows as triples. |
| `PricingReport.EveryPositiveTripleIsReported` | models/po_vs_so_pricing_report.py:109-121 | conversely, every eligible triple with a strictly positive difference has its row in the report |
| `PricingReport.ReportRowsArePositive` | models/po_vs_so_pricing_report.py:109 | every reported price difference is strictly positive |
| `PricingReport.ReportRowsAppend` | models/po_vs_so_pricing_report.py:75-83 | the report of two order lists in sequence is the first report followed by the second: rows follow the sale-order order |
| `PricingReport.OrderWithoutPurchaseLinesContributesNothing` | models/po_vs_so_pricing_report.py:75-81 | an order without lines, or whose lines have no purchase lines, adds no row wherever it stands |
| `PricingReport.RowCountBounded` | models/po_vs_so_pricing_report.py:75-83 | the number of rows is at most the number of (order, line, purchase line) triples |
| `PricingReport.SameCurrencyScenario` | models/po_vs_so_pricing_report.py:94-121 | cost 100, purchase price 80, quantity 2, one currency: one row with difference 40 and an empty note |
| `PricingReport.ConvertedCurrencyScenario` | models/po_vs_so_pricing_report.py:98-121 | the same in EUR converting to 85 USD: one row with unit price 85, difference 30 and the note naming USD then EUR |
| `PricingReport.UsdEurNote` | models/po_vs_so_pricing_report.py:99 | that note reads "SO currency is USD and PO currency is EUR" |
| `FilterMaps.KeptIndices` | models/po_vs_so_pricing_report.py:109-110 | the kept rows are the images of the kept elements at strictly increasing positions, and every kept element appears |
| `Spreadsheet.RowCells` | models/po_vs_so_pricing_report.py:151-152 | a data row has ten cells and the tenth (column 9) is the note |
| `Spreadsheet.HeaderColumnWidth` | models/po_vs_so_pricing_report.py:139-147 | the header length, plus 15 for column 6, plus 40 for columns 7 and 8, and nothing more elsewhere |
| `Spreadsheet.HeaderWidthsOfTheReport` | models/po_vs_so_pricing_report.py:139-147 | the nine header widths are 10, 14, 18, 28, 8, 16, 27, 52 and 48 |
| `Spreadsheet.CellFormat` | models/po_vs_so_pricing_report.py:153-163 | a data cell is amber exactly when it is in column 9 and truthy, and never bold |
| `Spreadsheet.Layout` | models/po_vs_so_pricing_report.py:139-163 | row 0 holds the nine headers in bold. Each report row becomes one sheet row of ten cells in order. A data cell is amber exactly when it is a non-empty note. |
| `Spreadsheet.LastNoteIndex` | models/po_vs_so_pricing_report.py:153-159 | the position of the last row with a non-empty note; none exactly when every note is empty |
| `Spreadsheet.FinalColumnWidth` | models/po_vs_so_pricing_report.py:139-159 | header columns keep their header width. The note column ends with the length of the last non-empty note, or the default when no note is set. Other columns keep the default. |
| `Notifier.Sanitize` | models/po_vs_so_pricing_report.py:220 | same length and no `(`, `)`, space or `/` left. Each of those becomes `_`, and every other character is kept. |
| `Notifier.AttachmentName` | models/po_vs_so_pricing_report.py:220 | as long as the subject plus `.xlsx` and ending in `.xlsx`. It contains no `(`, `)`, space or `/`, and elsewhere equals the subject. |
| `Notifier.SanitizeIdempotent` | models/po_vs_so_pricing_report.py:220 | sanitising an already sanitised name changes nothing |
| `Notifier.AttachmentNameExample` | models/po_vs_so_pricing_report.py:220 | the subject "PO vs SO Pricing Report (14/10/26)" becomes "PO_vs_SO_Pricing_Report__14_10_26_.xlsx" |

## Left out

- The ORM search and record traversal: orders come in as a sequence in whatever order the search returns them. The model does not fix that order (Odoo's default sort of `sale.order`) and only states the selection predicate.
- `get_first_day_of_previous_month` and `get_last_day_of_previous_month` each read the clock. The model passes one `today` to both, so a run that crosses midnight at a month boundary is not modelled.
- Time zones: order dates and window ends are naive datetimes compared as such, as the source does.
- `res.currency._convert` and its rounding: conversion is an arbitrary function parameter.
- Float arithmetic of Odoo's monetary and quantity fields: prices and quantities are exact `real`s. The sign test and the formula are modelled; rounding is not.
- Odoo's `False` for an unset product code: `defaultCode` is always a string.
- Currency identity: two currencies are equal when their codes are equal (Odoo keeps currency codes unique), instead of by record id.
- The xlsxwriter workbook bytes, `io.BytesIO` and base64 encoding: only the cell values, formats and column widths are modelled. The spreadsheet functions take report rows, the only input the source passes. So the note column always holds a string, and `len` of a non-string cell (a TypeError in Python) cannot arise.
- `generate_email_attachment` returns the binary data unchanged beside the name; only the name is modelled.
- `generate_email_html` and `prepare_email_content`: fixed HTML and text layout with a `strftime` call.
- `get_config_param`, `log_message` and `send_email_with_attachment`: configuration lookups, log writes and mail sending, which are external side effects with exceptions swallowed.
- `send_pricing_report`: I/O glue that builds the subject, returns early on an empty report and sends the mail.
- `models/res_config_settings.py` and `__manifest__.py`: declarative settings fields and the module manifest, with no behaviour.
- The three nested loops of `prepare_report_data` are three methods, one loop each (`PrepareReportData`, `SaleOrderRows`, `SaleLineRows`, with the loop body in `EvaluatePurchaseLine`). A `continue` in the innermost loop is an early return of `None` from `EvaluatePurchaseLine`.
