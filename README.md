# Purchase-order pipeline: a verified model of its core

The pipeline reads purchase orders as PDF text. It asks a language model to
extract each order's fields as JSON, then cleans the replies and flattens them
into one table. From that table it writes SAP documents in two formats: an
ORDERS05 IDoc-XML text and an ANSI ASC X12 850 (Purchase Order) text.
A separate script groups the customer master sheet into one entry per
customer number.

This project models the deterministic core of the pipeline in Dafny and
proves what it computes. The core is:

- **`SapIntegration`** (`sap_integration.dfy`) models `generate_idoc_xml_data`.
  - `OrderFields` holds the cells a row is read for, with their `row.get` defaults.
  - `DeliveryDate` is the delivery-date rule: a date that `strptime` accepts as `%Y-%m-%d` is written `%Y%m%d`; any other date falls back to today's date.
  - Each XML line is an `XmlLine` value whose text is given by `Render`.
  - One writer method per segment (`WriteE1EDK01` … `WriteE1EDP19`) appends, to an `io.StringIO` buffer, exactly the rendering of that segment's line list.
  - The block lemmas say what a block writes into each element: `BEGIN`, `DATUM`, `NAME1` and `PARTN`.
- **`SapX12`** (`sap_x12.dfy`) models `generate_ansi_x12_850_data`.
  - Each row gives one transaction set of `X12Segment` values: ST, BEG, the optional N1 segments, DTM, PO1, CTT and SE.
  - `Emit` models writing segments into the buffer one after another.
  - The SE count follows the code: 5, plus one for each N1 segment written. That is every segment from ST to CTT but not SE itself. The X12 standard's SE01 element counts SE as well; the model keeps the code's count.
- **`TextIO`** (`text_io.dfy`) models `io.StringIO` as a class whose one field `write` appends to.
- **`Dates`** (`dates.dfy`) models `strptime` with `%Y-%m-%d` under CPython's rules for those directives, and `strftime('%Y%m%d')`.
- **`JsonModel`** (`json_model.dfy`) holds the values `json.loads` returns. A dict is an ordered list of key-value pairs. `Put` is `d[k] = v`.
- **`DataProcessing`** (`data_processing.dfy`) models `process_api_response` and `convert_to_dataframe`.
  - Reply cleaning uses `str.strip` with a *set* of characters. The argument `"```json"` removes any leading or trailing backtick, `j`, `s`, `o` or `n`, not the prefix. So a bare `null` reply becomes `ull` (`CleanNullReply`).
  - Records are tagged with their file name. Their delivery addresses have `\n` and `\r` replaced by spaces.
  - Errors the code does not catch are `Err` results. `AttributeError` is `.replace` on an address that is not a string. `TypeError` is an item that is not a dict.
- **`Utils`** (`utils.dfy`) models `fix_number_format`. It is the regex substitution `(\d{1,3}),(\d{3}\.\d+)` → `\1\2`, run as a left-to-right scan of leftmost, non-overlapping matches.
- **`CustomerMaster`** (`customer_master.dfy`) models lines 9-36 of `update_customer_master.py`:
  - customer numbers are normalised;
  - names are forward-filled;
  - the fill, check and insert loop builds, for each customer number, a name set and a ship-to map;
  - the set-to-list loop follows.
- **`Prompts`** (`prompts.dfy`) models the three chat messages.
  - Every literal of the source is a constant.
  - The source's quirks are kept: the spelling `contetns`, and the missing line break before `- Purchase Order Number`.
- **`Common`** (`common.dfy`) holds `Option`/`Result`, decimal text and zero padding, `str.strip` and small sequence lemmas.

Inputs the code reads from its environment are parameters:
- the current date (`datetime.now()`) is the `today: Date` argument, read once per call (see "## Left out");
- `json.loads` is the argument `loads: string -> Option<Json>`, whose `None` stands for `JSONDecodeError`.

## Model

| member | source | states |
|---|---|---|
| SapIntegration.GenerateIdocXmlData | sap_integration.py:7-140 | `None` exactly when the table (pandas `df.empty`, `EmptyTable`) has no rows or no columns, that is every row map is empty; otherwise the text is the XML declaration and `<ORDERS05>`, the blocks of all rows in row order, then `</ORDERS05>` |
| SapIntegration.IdocXmlFrame | sap_integration.py:24-134 | the IDoc text starts with the XML declaration line followed by `<ORDERS05>` and ends with `</ORDERS05>\n` |
| SapIntegration.WriteIdocRecords | sap_integration.py:28-131 | the loop over the rows appends the blocks of the rows, in row order, to what the buffer held |
| SapIntegration.WriteIdocRecord | sap_integration.py:29-131 | one pass of the loop appends the block of row `idx`, with that row's fields, defaults and delivery date |
| SapIntegration.DocumentNumbers | sap_integration.py:51-54 | the `BEGIN` attributes written for the first `n` rows are `DOC{1000+i:04d}` for `i = 0 … n-1`, once each and in row order |
| SapIntegration.DocNumbersAt | sap_integration.py:51 | the `i`-th of those numbers is the document number of row `i` |
| SapIntegration.DocNumberDistinct | sap_integration.py:51 | different rows get different document numbers |
| SapIntegration.DocNumberShape | sap_integration.py:51 | below 9000 rows the document number is `DOC` followed by the four digits of `1000 + idx` |
| SapIntegration.BlockFrame | sap_integration.py:53-131 | a block opens with `<IDOC BEGIN=…>` and closes with `</IDOC>`, and has 53 lines with a customer name and 52 without |
| SapIntegration.BlockNumber | sap_integration.py:54 | a block writes exactly one `BEGIN` value, its own document number |
| SapIntegration.BlockDates | sap_integration.py:94-115 | a block writes the formatted delivery date exactly three times, once each in E1EDK02, E1EDP02 and E1EDP03 |
| SapIntegration.BlockName | sap_integration.py:86-87 | `<NAME1>` carries the customer name when it is non-empty and is absent from the block when it is empty |
| SapIntegration.BlockPartners | sap_integration.py:77-121 | the partner numbers written are, in order, the sold-to customer, the ship-to number and the end-user customer |
| SapIntegration.DeliveryDateIso | sap_integration.py:41-45 | a valid date written `YYYY-MM-DD` is reformatted as the same digits without hyphens, `YYYYMMDD` |
| SapIntegration.DeliveryDateFallback | sap_integration.py:39-48 | an empty or unparseable delivery date falls back to today's date |
| SapIntegration.DeliveryDateShape | sap_integration.py:39-45 | the written delivery date is always eight digits |
| SapIntegration.FormatDeliveryDate | sap_integration.py:39-48 | the method computes the delivery-date rule |
| SapIntegration.WriteIdocBlock | sap_integration.py:51-131 | appends the block: the `IDOC` opening, header segments, item segments and `</IDOC>` |
| SapIntegration.WriteIdocHeaderSegments | sap_integration.py:56-95 | appends E1EDK01, the two E1EDK14, the two E1EDKA1 and E1EDK02, in that order |
| SapIntegration.WriteIdocItemSegments | sap_integration.py:97-128 | appends E1EDP01, E1EDP02, E1EDP03, E1EDPA1 and E1EDP19, in that order |
| SapIntegration.WriteE1EDK01 | sap_integration.py:57-60 | appends exactly the four lines of the header general data |
| SapIntegration.WriteOrderType | sap_integration.py:63-66 | appends exactly the E1EDK14 order-type lines, `QUALF` 012 and `ORGID` OR |
| SapIntegration.WritePoType | sap_integration.py:69-72 | appends exactly the E1EDK14 PO-type lines, `QUALF` 019 and `ORGID` B2B |
| SapIntegration.WriteSoldTo | sap_integration.py:75-79 | appends exactly the sold-to E1EDKA1 lines, with the customer number |
| SapIntegration.WriteShipTo | sap_integration.py:82-88 | appends exactly the ship-to E1EDKA1 lines, with the `NAME1` line only for a non-empty name |
| SapIntegration.ShipToWritten | sap_integration.py:82-88 | the ship-to segment's text, line by line, for both cases of the name |
| SapIntegration.WriteE1EDK02 | sap_integration.py:91-95 | appends exactly the E1EDK02 lines, with the PO number and the delivery date |
| SapIntegration.WriteE1EDP01 | sap_integration.py:98-102 | appends exactly the E1EDP01 lines, with the quantity in KG |
| SapIntegration.WriteE1EDP02 | sap_integration.py:105-110 | appends exactly the E1EDP02 lines, with the PO number and the delivery date |
| SapIntegration.WriteE1EDP03 | sap_integration.py:113-116 | appends exactly the E1EDP03 lines, with the delivery date |
| SapIntegration.WriteE1EDPA1 | sap_integration.py:119-122 | appends exactly the E1EDPA1 lines, with the customer number |
| SapIntegration.WriteE1EDP19 | sap_integration.py:125-128 | appends exactly the E1EDP19 lines, with the customer part number |
| SapX12.GenerateAnsiX12850Data | sap_integration.py:203-285 | `None` exactly when the table (pandas `df.empty`, `EmptyTable`) has no rows or no columns, that is every row map is empty; otherwise the transaction sets of all rows, in row order |
| SapX12.WriteTransactions | sap_integration.py:220-279 | the loop over the rows appends the transaction sets of the rows in row order |
| SapX12.WriteTransaction | sap_integration.py:221-279 | one pass appends the transaction set of row `idx`, dated today in `BEG` and with the row's delivery date in `DTM` |
| SapX12.WriteTransactionSet | sap_integration.py:247-279 | appends ST, BEG, the N1 lines, DTM, PO1, CTT and SE, each as one segment |
| SapX12.EmitTransaction | sap_integration.py:247-279 | the text of a transaction set, segment by segment, with each N1 segment present only for a non-empty number |
| SapX12.TransactionFrame | sap_integration.py:242-279 | a set opens with `ST*850*{ctrl}` and closes with `SE*{count}*{ctrl}` with the same control number; the count is the number of segments before SE and CTT comes just before SE |
| SapX12.TransactionParties | sap_integration.py:254-259 | an `N1*ST` segment appears exactly when the ship-to number is non-empty, and `N1*BY` exactly when the customer number is; each carries its own number |
| SapX12.TransactionControls | sap_integration.py:242-247 | a transaction set holds exactly one ST, with the row's control number |
| SapX12.DocumentControls | sap_integration.py:220-247 | the ST control numbers of the first `n` rows are `1000+i` for `i = 0 … n-1`, in row order |
| SapX12.ControlNumbersAt | sap_integration.py:242 | the `i`-th of those control numbers is the one of row `i` |
| SapX12.ControlNumberDistinct | sap_integration.py:242 | different rows get different control numbers |
| SapX12.ControlNumberShape | sap_integration.py:242 | below 9000 rows the control number is four digits |
| TextIO.StringBuffer.constructor | sap_integration.py:21 | a new buffer is empty |
| TextIO.StringBuffer.Write | sap_integration.py:24 | `write` appends its argument and changes nothing else |
| TextIO.StringBuffer.GetValue | sap_integration.py:137 | `getvalue` returns all that was written |
| Dates.ParseIsoDate | sap_integration.py:44 | whatever `strptime` accepts is a valid calendar date |
| Dates.ParseIsoText | sap_integration.py:44 | `strptime` accepts the canonical `YYYY-MM-DD` text of every valid date and gives that date back |
| Dates.IsoToYmd | sap_integration.py:45 | `strftime('%Y%m%d')` is the canonical text without its hyphens, eight digits |
| DataProcessing.ConvertToDataFrame | data_processing.py:5-36 | the loop's result is the table of all records, or the first error the record loop raises |
| DataProcessing.AllRecordsOk | data_processing.py:8-27 | the flattening succeeds exactly when every line item of every file can be tagged |
| DataProcessing.AllRecordsSources | data_processing.py:8-27 | there is one record per line item of a list and one per dict, in input order, and each is its source item tagged with that item's filename |
| DataProcessing.SourcesEnumerate | data_processing.py:8-27 | the record sources are every (file, item) pair, each once, in increasing order |
| DataProcessing.ItemRecordsSpec | data_processing.py:13-27 | a list gives one record per element and a dict exactly one, each the tagged item |
| DataProcessing.LineRecordsSpec | data_processing.py:15-20 | the inner loop succeeds exactly when every line item can be tagged, and then gives one record per item, in order |
| DataProcessing.LineRecordsStop | data_processing.py:15-20 | the inner loop stops at the first item that raises |
| DataProcessing.AllRecordsStop | data_processing.py:8-27 | the outer loop stops at the first file that raises |
| DataProcessing.TagRecordSpec | data_processing.py:16-26 | a tagged record has `filename` set to its file and a newline-free address, and every other key unchanged; a new `filename` key goes last; a non-dict raises `TypeError` and a non-string address raises `AttributeError` |
| DataProcessing.RetagClean | data_processing.py:23-26 | tagging a dict whose address is already clean keeps its address |
| DataProcessing.ReplaceChar | data_processing.py:19 | `str.replace` of one character by another, position by position |
| DataProcessing.CleanAddressProperties | data_processing.py:19 | each `\n` or `\r` of an address becomes one space; the length is kept, and neither character is left |
| DataProcessing.CleanAddressFixed | data_processing.py:19 | the address fix changes an address exactly when it holds `\n` or `\r` |
| DataProcessing.FixAddressSpec | data_processing.py:53-54 | the dict fix raises exactly for a non-string address; otherwise it cleans the address, keeps the other keys and their order, and is idempotent |
| DataProcessing.FrameColumns | data_processing.py:30-36 | no records give an empty table; otherwise `filename` is the first column and the columns are distinct and are exactly the keys of the records |
| DataProcessing.FirstColumns | data_processing.py:31 | the columns start with the keys of the first record, in its order |
| DataProcessing.ColumnsKeys | data_processing.py:31 | a column is exactly a key of some record |
| DataProcessing.ColumnsDistinct | data_processing.py:31 | no column appears twice |
| DataProcessing.AddColumnsSpec | data_processing.py:31 | a record's keys are added after the columns seen so far, without repeats |
| DataProcessing.WithoutSpec | data_processing.py:33 | the comprehension keeps exactly the labels other than `filename`, keeps them distinct, and leaves a list without `filename` unchanged |
| DataProcessing.WithoutAppend | data_processing.py:33 | filtering a concatenation filters each part in turn, so the kept labels stay in their order |
| DataProcessing.FrameColumnsOrder | data_processing.py:31-34 | when pandas' columns are `before`, then `filename`, then `after`, the table's columns are `filename`, `before`, `after`: the other columns keep their order |
| DataProcessing.FrameColumnsAdded | data_processing.py:31-34 | records without a `filename` key give `filename` followed by pandas' columns in their order |
| DataProcessing.CleanResponseSpec | data_processing.py:44 | the cleaned reply neither starts nor ends with a character of the set, so the final backtick strip is a no-op |
| DataProcessing.CleanFenced | data_processing.py:44 | a reply fenced as a json code block gives back the inner text when that text does not start or end with a fence character |
| DataProcessing.CleanNullReply | data_processing.py:44 | the reply `null` is cleaned to `ull`, because the strip is set-based |
| DataProcessing.FixItemSpec | data_processing.py:49-51 | an item fix leaves the keys in order, cleans the address and keeps every other value |
| DataProcessing.FixItemsSpec | data_processing.py:48-51 | the list fix succeeds exactly when every item's fix does, and then fixes each item in place |
| DataProcessing.FixListItems | data_processing.py:48-51 | the in-place loop over the list computes the list fix |
| DataProcessing.FixResponseSpec | data_processing.py:47-54 | after the fix every address is newline-free; a list keeps its length and its non-dict items, a dict keeps its keys, and any other value is unchanged |
| DataProcessing.FixParsed | data_processing.py:47-54 | the dispatch on list and dict computes the response fix |
| DataProcessing.ProcessApiResponse | data_processing.py:39-61 | a parse failure gives `None`; otherwise the result is `{"filename": name, "data": fixed}`, or the error the fix raises |
| DataProcessing.PipelineAddress | data_processing.py:15-54 | addresses fixed once by the reply processing are not changed by the table conversion |
| JsonModel.Lookup | data_processing.py:18 | `k in d` holds exactly when the lookup finds a value |
| JsonModel.PutLookup | data_processing.py:16 | after `d[k] = v`, `d[k]` is `v`, the other keys keep their values, and only a new key is added, at the end |
| JsonModel.PutDistinct | data_processing.py:16 | assignment keeps the keys of a dict distinct |
| Utils.FixNumberFormatSpec | utils.py:19-21 | only commas are removed, every other character is kept in order, and a comma is removed exactly when it is a candidate not blocked by an earlier removal; the length drops by the number removed |
| Utils.SubFromKeeps | utils.py:20 | the scan's output is the input with the removed positions left out |
| Utils.SubFromLength | utils.py:20 | the output is shorter by exactly the number of removed commas |
| Utils.RemovedCandidates | utils.py:20 | a removed position is a comma with a digit before it and three digits, a dot and a digit after it |
| Utils.CandidateRemoved | utils.py:20 | every candidate comma is removed unless an earlier match has used up its digits |
| Utils.RemovedApart | utils.py:20 | two removed commas never share the digits of one match |
| Utils.NoCandidateUnchanged | utils.py:20 | text with no candidate comma, including text with no comma at all, is returned unchanged |
| Utils.ThousandsExample | utils.py:20 | `41,976.050` becomes `41976.050` |
| Utils.UnitExample | utils.py:20 | `1,000 kg` is kept |
| Utils.DigitRun | utils.py:20 | the run of digits from a position, as far as it goes |
| Utils.MatchAt | utils.py:20 | a match begins at the scan position and ends after its comma |
| CustomerMaster.BuildCustomerMaster | update_customer_master.py:9-36 | the script's dictionary has one key per normalised customer number, and each entry is the grouped entry with its name set turned into a list |
| CustomerMaster.CustomerMasterSpec | update_customer_master.py:9-32 | a customer number is a key exactly when some sheet row normalises to it, and its names are the filled names of exactly those rows |
| CustomerMaster.NormalizeNumberSpec | update_customer_master.py:9 | a normalised number has no surrounding whitespace and no lower-case letter, and normalising it again changes nothing |
| CustomerMaster.MissingNumber | update_customer_master.py:9 | an empty number cell becomes `NAN` |
| CustomerMaster.Upper | update_customer_master.py:9 | upper-casing works character by character and keeps the length |
| CustomerMaster.FilledNameSpec | update_customer_master.py:12 | a present name is kept; an empty one takes the nearest earlier present name, and stays empty only when no earlier row has one |
| CustomerMaster.PreparedAt | update_customer_master.py:9-21 | the loop reads row `i` as its normalised number, its filled name and its ship-to cells |
| CustomerMaster.GroupedKeys | update_customer_master.py:23-27 | there is one entry per distinct customer number of the rows, and no other |
| CustomerMaster.GroupedNames | update_customer_master.py:29 | a customer's names are exactly the names of its rows |
| CustomerMaster.GroupedShipTo | update_customer_master.py:31-32 | a ship-to number is recorded exactly when a row of the customer has both number and address, and then holds the address of the last such row |
| CustomerMaster.GroupRows | update_customer_master.py:15-32 | the loop over the rows builds the grouped dictionary |
| CustomerMaster.SetToList | update_customer_master.py:36 | `list(s)` holds the elements of the set, each once |
| CustomerMaster.NamesToLists | update_customer_master.py:35-36 | the second loop keeps the keys and turns each name set into a list with the same elements and no duplicates, keeping the ship-to map |
| Prompts.CreatePrompts | prompts.py:29-44 | exactly three messages: the system message, the user prompt and the multi-line prompt, with roles system, user and system; the user content ends with the PDF text |
| Prompts.UserPrompt | prompts.py:31 | the user prompt is the fixed preamble followed by the PDF text |
| Prompts.UserPromptInjective | prompts.py:31 | different PDF texts give different user prompts |
| Prompts.SystemMessageAsksForAddress | prompts.py:1-19 | the system message names the `Delivery Address` key that the reply processing fixes |
| Prompts.MultiLinePromptNamesAddress | prompts.py:21-27 | the multi-line prompt names the `Delivery Address` key |

## Left out

- `send_idoc_xml_to_sap` is an HTTP client built on `requests`, which is not part of this model.
- The Streamlit display calls (`st.error`, `st.text`, `st.code`) in `process_api_response` are left out. Their only effect is display.
- The Excel read and the JSON file write in `update_customer_master.py`, lines 6 and 39-44, are I/O and are left out.
- `json.loads` is an abstract parameter. Only its success or `JSONDecodeError` is modelled, not its grammar.
- `loads` is unconstrained, so it may return objects with repeated keys. A Python dict never has them (`json.loads` keeps the last value), and `DataProcessing.FirstColumns` therefore requires `DistinctKeys` of the first record rather than getting it from `loads`.
- Tables are sequences of string maps, with the row position as index. pandas NaN cells, non-string cells and non-default index labels are not modelled.
- `SapIntegration.GenerateIdocXmlData` and `SapX12.GenerateAnsiX12850Data` assume every row map has the same keys, although they do not require it. In the model, a key absent from one row but present in others gets its `row.get` default (`""`, `"1"` or `PO{10000+idx}`). In pandas that cell is NaN, and the source does something else (`sap_integration.py` lines 30-36, 86 and 222-227):
  - NaN is truthy, so the field is written as `nan` and a NaN name still writes `NAME1`;
  - a NaN delivery date makes `strptime` raise a `TypeError` that nothing catches.
  - A DataFrame cell read by the SAP generators is its text.
  - The number-to-text rendering of numeric Excel cells is not modelled.
- `convert_to_dataframe` and `process_api_response` change the caller's dicts in place. The model returns the changed values instead, so an alias that sees the change is not captured.
- A missing `filename` or `data` key in an extraction (a `KeyError`) is not modelled. An `Extraction` always has both.
- `DataProcessing.ConvertToDataFrame`: the table keeps its records and column order, not pandas' alignment of missing values as NaN.
- `CustomerMaster.SetToList`: the list's order is whichever order the proof picks, not CPython's set iteration order.
- `CustomerMaster.BuildCustomerMaster`: the dictionary is a Dafny map, so the key insertion order the JSON output shows is not modelled.
- NaN cells are one `Missing` value. Python's NaN identity in a set, where distinct NaN objects can appear as several names, is not modelled.
- Ship-to numbers are keyed by their text.
- Regex `\d` and `str.upper` are modelled on ASCII only. Unicode digits and case mappings outside ASCII are not modelled.
- `SapIntegration.RowBlock` and `SapX12.RowTransaction`: the clock is read once per call, as the single `today` argument. The source reads it once per row (`sap_integration.py` lines 39 and 230), so a run that crosses midnight can give rows different dates.
- `Dates.IsoToYmd`: `strftime('%Y')` is assumed to pad years below 1000 to four digits. That padding is platform-dependent in CPython.
- The `"Material Number"` and `"Order Quantity in kg"` fields the prompt asks for differ from the `Customer Part Number` and `Order Quantity` columns the SAP generators read. The model keeps both as written; the generators then use their defaults.
