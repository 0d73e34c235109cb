# Estimate PDF generator — verified model of the calculation and assembly core

`generate_pdf.py` turns JSON estimate records into PDF quotations ("견 적 서")
and delivery statements ("거 래 명 세 서"). This project models in Dafny the
part of it that computes and assembles. These parts are:

- **Amounts** (`money.dfy`). An integer is rendered with a comma every three
  digits (`f"{n:,}"`) and read back by deleting the commas and calling `int`.
- **JSON values** (`json.dfy`). These are the values an item dictionary holds.
  Also modelled are `str(v)`, Python truthiness and `dict.get`.
- **The item calculator** (`item_calc.dfy`). `calculate_item_total` gives
  quantity × price as grouped text, or `"0"` when either fails to parse. The
  per-item tax is `int(amount * tax / 100)`.
- **The totals aggregator** (`totals.dfy`). `calculate_totals` is one loop over
  the item list. It fills each item's `total` and `tax_amount` in place and
  accumulates the supply price, the sum of per-item taxes and the quantity.
  The method works on an `array` of item maps and is proved against the
  reference functions `FillItem` and `TotalsOf`.
- **The item rows** (`items_html.dfy`). `generate_items_html` builds one
  `<tr>` block per item and joins the blocks with newlines.
- **The generator** (`pdf_generator.dfy`):
  - the class `EstimatePdfGenerator` with its template cache;
  - the choice of template name and output path;
  - the in-place `total_str` back-fill;
  - the assembly of the values handed to the template engine, where record
    overrides win and the aliases are set.
- **The batch loop of `main`** (`batch.dfy`). Every data file is rendered
  under every chosen template and both document titles, each attempt
  isolated from the others. The outcome of one attempt is an abstract
  function. The run is observed as a log indexed by file, template and title.

Tax rates are whole percentages. A tax is computed exactly in integers, as
`amount * percent / 100` truncated toward zero.

## Model

| member | source | states |
|---|---|---|
| Money.Format | generate_pdf.py:104-107 | `f"{n:,}"` (also at line 60): the digits of the magnitude with a comma before every group of three from the right, after a `-` when negative. Its properties are `FormatRoundTrip` and `FormatInjective`. |
| Money.ParseInt | generate_pdf.py:56 | `int(s)` narrowed to an optional `-` followed by decimal digits, `None` where Python raises `ValueError`. Its partner is `DecimalRoundTrip`. |
| Money.ParseAmount | generate_pdf.py:77-79 | `int(s.replace(",", ""))`, as also applied to the price at lines 57-58. Its partner is `FormatRoundTrip`. |
| Money.FormatRoundTrip | generate_pdf.py:57-60 | Deleting the commas from the grouped text of any integer and parsing it gives back that integer. |
| Money.FormatInjective | generate_pdf.py:104-107 | Two amounts have the same grouped text only if they are equal. |
| Money.DecimalRoundTrip | generate_pdf.py:56 | `str(n)` parses back as `n`, both with and without comma deletion. |
| Money.GroupRoundTrip | generate_pdf.py:60 | The grouping with its commas deleted is a non-empty digit string whose value is `n`. |
| Money.FormattedLargeAmountRejectedByInt | generate_pdf.py:56 | Plain `int` rejects the grouped text of any amount with four or more digits. |
| Json.IntOf | generate_pdf.py:56 | `int(str(v))` yields the integer of an `Int` value and the plain integer parse of a string, so "3" reads as 3 and "1,000" fails. It fails on booleans, `None`, floats, lists and dicts. |
| Json.AmountOf | generate_pdf.py:57-58 | An `Int` value reads as itself, a string as its comma-deleted parse, and every other kind fails. |
| ItemCalc.CalculateItemTotal | generate_pdf.py:53-62 | When quantity and price both parse, the result is the comma-grouped text of their product and reads back as that product. If either fails the result is `"0"`. The result always reads back as an amount. |
| ItemCalc.ItemTax | generate_pdf.py:83 | The tax on an amount (per item here, on the supply price at line 97) at a whole percentage: `amount * percent / 100` truncated toward zero, as `int()` truncates. It is defined by that expression; its properties are `ItemTaxSuperadditive` and `TaxSumAtMostAggregate`. |
| ItemCalc.GroupedQuantityYieldsZero | generate_pdf.py:56 | A comma-grouped quantity such as `"1,000"` makes the item total `"0"`. |
| ItemCalc.GroupedPriceAccepted | generate_pdf.py:57-59 | A comma-grouped price is accepted and yields quantity × price. |
| ItemCalc.MissingQuantityCountsAsZero | generate_pdf.py:56 | A missing quantity counts as 0, so the total is `"0"`. |
| ItemCalc.ItemTaxSuperadditive | generate_pdf.py:83 | For non-negative amounts, the truncated tax of a sum is at least the sum of the truncated taxes. |
| Totals.FillItem | generate_pdf.py:71-88 | The item as one loop body leaves it: `total` filled in when missing or falsy, then `tax_amount` set from the total. Its properties are `FillItemShape` and `FillItemTax`, and `UpdateItem` and `CalculateTotals` are proved against it. |
| Totals.FillItemShape | generate_pdf.py:72-74 | After the loop body, `total` is kept when present and truthy and is otherwise the calculator's result. `tax_amount` is present. No other key changes. |
| Totals.FillItemTax | generate_pdf.py:76-88 | `tax_amount` is `"0"` when the total does not parse. Otherwise it reads back as the item's tax. |
| Totals.ComputedTotalAlwaysParses | generate_pdf.py:73-79 | A total filled in by the calculator always parses, so only a supplied total can fail. |
| Totals.UpdateItem | generate_pdf.py:71-94 | One loop body returns the updated item and the item's additions to the supply price, the tax sum and the quantity. Each addition is defined by its reference function. |
| Totals.SumsStep | generate_pdf.py:80-92 | Each accumulator grows by exactly the current item's contribution. |
| Totals.CalculateTotals | generate_pdf.py:64-109 | Every element of the array, in place and in order, becomes `FillItem` of its old value. The returned figures are `TotalsOf` the old items. |
| Totals.TotalsOf | generate_pdf.py:96-109 | The dictionary `calculate_totals` returns, from the supply price, its truncated tax, the tax sum and the quantity of the items. Its properties are `TotalsReadBack`, `TaxSumAtMostAggregate` and `TaxPathsCanDiffer`, and `CalculateTotals` is proved against it. |
| Totals.SupplyAppend | generate_pdf.py:80 | The supply price of a concatenation is the sum of the parts' supply prices. |
| Totals.TaxSumAppend | generate_pdf.py:85 | The per-item tax sum of a concatenation is the sum of the parts' sums. |
| Totals.QuantityAppend | generate_pdf.py:92 | The quantity of a concatenation is the sum of the parts' quantities. |
| Totals.UnparseableTotalContributesNothing | generate_pdf.py:86-88 | An item whose total does not parse adds nothing to the supply price or to the tax sum and gets `tax_amount` `"0"`. The items around it still count. |
| Totals.UnparseableQuantitySkipped | generate_pdf.py:91-94 | An item whose quantity does not parse is skipped by the quantity sum. |
| Totals.PriceFailureStillCountsQuantity | generate_pdf.py:73-94 | An item whose price fails gets total `"0"` and tax `"0"` but still adds its quantity. |
| Totals.TaxBoundStep | generate_pdf.py:83-97 | Adding one non-negative amount keeps the per-item tax sum at or below the aggregate tax. |
| Totals.TaxSumAtMostAggregate | generate_pdf.py:83-97 | For non-negative totals and rate, the supply price is non-negative and the sum of per-item taxes is at most the tax on the supply price. |
| Totals.TaxPathsCanDiffer | generate_pdf.py:83-106 | Two items of total 5 at 10% give aggregate tax `"1"` and tax sum `"0"`. |
| Totals.FiguresReadBack | generate_pdf.py:104-107 | The four grouped figures read back as their integers. |
| Totals.TotalsReadBack | generate_pdf.py:97-108 | Each returned figure reads back as its integer. The total is the supply price plus the truncated aggregate tax. |
| Totals.ComputedItem | generate_pdf.py:53-80 | An item without a total, with quantity `q` and price text `Format(p)`, is filled with `Format(q * p)` and contributes `q * p`. |
| Totals.TwoItemSums | generate_pdf.py:71-94 | The three accumulators on a two-item list are the sums of the two items' contributions. |
| Totals.ThreeDigitFormats | generate_pdf.py:60 | 200 and 500 render without a comma. |
| Totals.GroupedFormats | generate_pdf.py:60 | 1000, 2000 and 2200 render as "1,000", "2,000" and "2,200". |
| Totals.TwoItemScenario | generate_pdf.py:64-109 | 2 × "500" and 1 × "1,000" at 10% give supply "2,000", tax "200", tax sum "200", total "2,200" and quantity 3. Both totals are filled as "1,000". |
| ItemTable.Row | generate_pdf.py:43-49 | One `<tr>` block with the exact indentation of the f-string and the cells name, quantity, price and total. Its properties are `MissingFieldRendersEmpty` and `ItemsHtmlAppend`. |
| ItemTable.GenerateItemsHtml | generate_pdf.py:39-51 | The markup is the newline-join of the items' rows. It is empty for no items and a single row for one item. |
| ItemTable.JoinSplit | generate_pdf.py:51 | Joining splits at any inner position into the two joins around a separator. |
| ItemTable.RowsSlices | generate_pdf.py:42-50 | The rows of a prefix or a suffix of the items are that prefix or suffix of the rows. |
| ItemTable.ItemsHtmlInOrder | generate_pdf.py:39-51 | The markup of a list is the markup of any split of it, joined by a newline. |
| ItemTable.ItemsHtmlAppend | generate_pdf.py:42-51 | Appending an item appends a newline and exactly that item's row. |
| ItemTable.MissingFieldRendersEmpty | generate_pdf.py:45-48 | A missing field renders exactly as an empty string would. |
| PdfGenerator.TemplateName | generate_pdf.py:117-120 | A non-empty override is used. Otherwise the name is `clean_gradient`. |
| PdfGenerator.RemoveSpaces | generate_pdf.py:129 | The result has no spaces, keeps every other character with its count, and is the text itself when it has no space. |
| PdfGenerator.RemoveSpacesAppend | generate_pdf.py:129 | Removing spaces works piecewise on a concatenation, so the remaining characters keep their order. |
| PdfGenerator.ResolveOutputPath | generate_pdf.py:127-130 | A given output path is used as is. Otherwise the path is `output/{stem}_{template}_{title without spaces}.pdf`. |
| PdfGenerator.OutputPathDeterminedByTitle | generate_pdf.py:129-130 | For one record and template, two titles share a default file name exactly when they agree once spaces are removed. |
| PdfGenerator.DocumentTitlesHaveDistinctPaths | generate_pdf.py:129-130 | The estimate and the statement of one record under one template go to different files. |
| PdfGenerator.Assemble | generate_pdf.py:145-182 | A record override wins for supply price, tax and total, and the computed figure is used otherwise. The aliases equal the resolved figures. Tax sum, quantity, title, tax rate, items and rows are passed through. |
| PdfGenerator.ViewOf | generate_pdf.py:137-182 | The values `generate_pdf` hands to the template: the record's items filled by the aggregator and back-filled, their rows, and `Assemble` of the record with the computed totals. `GeneratePdf` is proved against it. |
| PdfGenerator.ViewTotalsConsistent | generate_pdf.py:145-168 | Without overrides, the grand total reads back as the subtotal plus the tax, and the subtotal is the supply price of the items. |
| PdfGenerator.TotalStrMirrorsTotal | generate_pdf.py:150-152 | After assembly every item has `total_str`, `total` and `tax_amount`. A missing `total_str` equals the filled total, and a given one is kept. |
| PdfGenerator.BackFillTotalStr | generate_pdf.py:150-152 | Each array element, in place, gains `total_str` from its `total` (or `"0"`) only when absent. |
| PdfGenerator.EstimatePdfGenerator.constructor | generate_pdf.py:18-20 | The template cache starts empty. |
| PdfGenerator.EstimatePdfGenerator.LoadTemplate | generate_pdf.py:22-32 | A cached template is returned unchanged. Otherwise an existing file is read and cached, and a missing file fails without touching the cache. Cached entries are never evicted. |
| PdfGenerator.EstimatePdfGenerator.GeneratePdf | generate_pdf.py:111-192 | The call succeeds exactly when the chosen template is cached or exists, and fails with the missing template path otherwise. On success the job carries that template, the resolved output path and `ViewOf` the record. The cache is unchanged when the template was cached and otherwise gains exactly that template, read from its file. |
| Batch.TemplatePlan | generate_pdf.py:278-299 | Under "all", one override per available template, in listing order. Otherwise the selection alone. |
| Batch.RunDoneUnique | generate_pdf.py:283-303 | A log satisfying `RunDone` is unique for given files, plan, titles and outcome function. |
| Batch.RunDoneAt | generate_pdf.py:283-303 | File `i`, template `j` and title `k` are logged exactly at `[i][j][k]` with that combination's own outcome. The log has one entry per combination. |
| Batch.RunTitles | generate_pdf.py:285-291 | Both titles are attempted, estimate first, each with its own outcome. |
| Batch.RunAllTemplates | generate_pdf.py:283-291 | Every file × every available template × both titles is attempted once, in loop order. |
| Batch.RunOneTemplate | generate_pdf.py:296-303 | Every file × both titles is attempted once under the selection. |
| Batch.RunBatch | generate_pdf.py:263-303 | A missing data directory and an empty one end the run with their own outcomes. Otherwise every combination of the plan is attempted exactly once. |
| Batch.SingleSelectionRun | generate_pdf.py:296-303 | Without "all", each file gets exactly the estimate and the statement under the selection. |

## Left out

- Reading the JSON record (`load_json`) is not modelled. `GeneratePdf` takes the loaded record and the file stem of its path as parameters.
- The existence check and file read in `load_template` are replaced by a parameter. It maps each existing template path to its text.
- Creating the output directory is not modelled.
- Jinja2 rendering and WeasyPrint output are outside the model. `GeneratePdf` returns the job (path, template, values) that would be handed to them.
- `get_available_templates` and the interactive `select_template` are not modelled. Their results, the template listing and the selection, are parameters of `RunBatch`. A cancelled selection is `None`, and `generate_pdf` turns it into the default template.
- All printing and traceback output is not modelled.
- The data directory listing is a parameter of `RunBatch`, `None` when the directory does not exist.
- A failure to construct the generator is not modelled. The constructor cannot fail.
- The tax rate is not modelled as a Python float. The model computes `int(x * tax / 100)` exactly, truncating toward zero. For the default rate 10 this agrees with the float computation on amounts below 10^15 in absolute value. Larger amounts can differ, by more than one above 2^53: 9007199254740989 at rate 10 gives 900719925474099 in floating point and 900719925474098 here, and 123456789012345678901 gives 12345678901234569216 in floating point and 12345678901234567890 here. Other rates can differ by one on small amounts too: total 100 at tax 29 gives 28 in floating point and 29 here.
- A non-integer `tax` in a record is not modelled.
- `int()` is narrowed to an optional `-` followed by ASCII digits. Surrounding whitespace, `_` separators, a leading `+` and non-ASCII digits are rejected by the model although Python accepts them.
- The `OverflowError` raised at generate_pdf.py:83 and 97 is not modelled. A total above about 1.8e308 but of at most 4300 digits cannot be converted to a float. `except ValueError` does not catch the error, so `calculate_totals` aborts. The model computes the tax of any amount.
- Python's default limit of 4300 digits on conversions between `int` and `str` is not modelled. `Money.ParseInt`, `Money.Format` and so `ItemCalc.CalculateItemTotal` accept integers of any length. In `generate_pdf.py` a longer quantity or price string raises `ValueError` at lines 56-58, and so does a longer product in `f"{total:,}"` at line 60; the item total is then `"0"`. A longer total string fails `int` at line 79, and the `except ValueError` at line 86 gives the item tax `"0"` and adds nothing. A longer quantity string is skipped at line 92. Grouped figures of more than 4300 digits also raise at lines 104-107, which the model renders.
- Floats, lists and dicts are `Other` values, which never parse as integers.
- Ill-typed records are not modelled. The `Record` and `Item` types admit only JSON objects for items, and objects or absent keys for `receiver` and `supplier`. An `items` value that cannot be iterated (`null`, a number, a boolean) raises `TypeError` at generate_pdf.py:71. A non-empty object or string is iterated and raises at line 73 or, through `item.get`, at line 56. An empty object or string runs through as no items. `Record.items` is either absent or a list, so none of these is represented. An item that is not an object makes `calculate_totals` raise at generate_pdf.py:73-74 (through `item.get` at line 56 when it reaches the calculator). A `receiver` or `supplier` that is `null` is passed on by `data.get` at lines 138-139 and makes `.get` raise at lines 170-176.
- The default `doc_title` of `generate_pdf` (the estimate title) is not modelled. `GeneratePdf` always takes the title as a parameter, and `main` always passes one.
- `Batch.RunBatch`: the outcome of one `generate_pdf` attempt is an abstract function of the file, the template and the title. The generator's shared template cache can make a real outcome depend on earlier attempts. Only the enumeration is modelled: each combination is attempted exactly once and isolated from the others' failures.
- The run of `main` is observed as a nested log rather than as the files written.
- A template literally named "all" cannot be selected on its own in `generate_pdf.py`. The model keeps that behaviour: "all" always means every template.
- Aliasing between items (the same dictionary twice in the list) is not modelled. A JSON record cannot produce it.
- Dictionary key order is not modelled. Items are maps.
