# Inventory, supplier and sales core — a Dafny model

This project models the in-memory core of a small retail back office written
in Python. The model has these parts:

- **Products** (`src/models.py`): a six-field product record and its
  dictionary form.
- **List inventory** (`src/managers/inventory_manager.py`): a manager that
  owns an ordered list of products. It supports append, edit and delete by
  first matching id, and a case-insensitive search. Its products are stored in
  a pipe-delimited text form and a JSON form.
- **Unified inventory** (`src/managers/inventory_manager_legacy.py`): point of
  sale products and general items, kept in two insertion-ordered
  dictionaries. Stock and quantity changes are guarded, and the manager also
  has searches, filters, low-stock queries, statistics, a JSON import that
  merges or replaces, and a migration from the old file formats.
- **Data manager** (`src/managers/data_manager.py`): the format helpers.
  These are:
  - the CSV header, which is the sorted union of the record keys;
  - CSV cell type inference;
  - pipe-delimited TXT records;
  - the JSON metadata envelope;
  - SQLite table shaping;
  - the `convert_format` dispatch.
- **Suppliers** (`src/managers/supplier_manager.py`): suppliers and purchase
  orders. Ids are sequential and zero-padded. The manager validates that a
  supplier exists, keeps order status within a closed set, computes order
  totals, and derives on-time and delay metrics.
- **Sales analytics** (`src/managers/sales_analytics_legacy.py`): window
  filtering and totals, and grouping by product and by category. It also
  builds the zero-filled daily trend and the 24-hour pattern, composes the
  report, and flattens it for CSV.
- **Product validator** (`src/utils/file_utils.py`): the ordered list of
  validation errors for a product dictionary.

The Dafny modules follow the source files:

| module | file | models |
|---|---|---|
| `Basics` | basics.dfy | Option/Result, and insertion-ordered dictionaries as `seq<(string, V)>` |
| `Text` | text.dfy | ASCII lower-casing, `strip` with Python's whitespace set, split/join on one character, the lines of a text-mode file, integer and decimal text |
| `Values` | values.dfy | Python's dynamic values, truthiness, `int()`, `float()`, `str()` |
| `Models` | models.dfy | `Product` |
| `Inventory` | inventory.dfy | `InventoryManager` (list based) |
| `Legacy` | legacy.dfy | `POSProduct`, `GeneralItem`, the unified `InventoryManager` |
| `DataFiles` | data_manager.dfy | `DataManager` |
| `Suppliers` | suppliers.dfy | `Supplier`, `PurchaseOrder`, `SupplierManager` |
| `Sales` | sales.dfy | `SalesRecord`, `SalesAnalytics` |
| `FileUtils` | file_utils.dfy | `FileUtils.validate_product_data` |

The managers are classes whose fields the methods update in place:
`Inventory.InventoryManager`, `Legacy.LegacyInventory`,
`Suppliers.SupplierManager` and `Sales.SalesAnalytics`. The loops of the
source are methods, each proved against a specification function. The facts
the source promises are proved as lemmas about those functions.

Several inputs become parameters:

- wall-clock time (`now`);
- generated uuid tokens (`token`);
- file contents, either `Option<string>` (missing or text) or a `JsonFile`
  (missing, malformed, or parsed).

## Model

| member | source | states |
|---|---|---|
| Basics.KeepAppend | src/managers/supplier_manager.py:230-236 | the filter of a list comprehension keeps order: filtering a concatenation is the concatenation of the filtered parts |
| Basics.KeepSingle | src/managers/supplier_manager.py:230-236 | a single element is kept exactly when it passes the test |
| Models.ToDict | src/models.py:14-23 | the dictionary has exactly the six keys product_id, name, category, quantity, price, description, each holding that field's value |
| Models.FromEmptyDict | src/models.py:25-35 | `from_dict({})` is the default product: empty texts, quantity 0, price 0.0 |
| Models.FromDict | src/models.py:26-35 | `from_dict`, with no contract of its own: Models.FromEmptyDict states its defaults, Models.FromDictToDict that it inverts `to_dict`, and Models.FromDictIgnoresOtherKeys the keys it reads |
| Models.FromDictToDict | src/models.py:14-35 | `from_dict(to_dict(p))` gives back `p` |
| Models.FromDictIgnoresOtherKeys | src/models.py:28-35 | two dictionaries that agree on the six keys give the same product, so other keys are ignored |
| Inventory.UpdatesTouchOnlyNamedFields | src/managers/inventory_manager.py:20-22 | a keyword argument changes only the attribute it names; keywords that are not attributes change nothing |
| Inventory.FirstWithId | src/managers/inventory_manager.py:18-19 | the index of the first product with the id, or the length when there is none |
| Inventory.SearchProducts | src/managers/inventory_manager.py:33-35 | exactly the products whose lower-cased name or category contains the lower-cased query; the result is the order-keeping filter `Keep` of the list (see Basics.KeepAppend) |
| Inventory.SearchEmptyQuery | src/managers/inventory_manager.py:33-35 | an empty query returns the whole list |
| Inventory.LoadStopsAtFailure | src/managers/inventory_manager.py:73-89 | a line whose quantity or price does not convert ends the load; later lines change nothing |
| Inventory.SaveToTxt | src/managers/inventory_manager.py:58-64 | the file text `save_to_txt` writes, with no contract of its own: Inventory.TxtRoundTrip states that `load_from_txt` reads it back |
| Inventory.ParseTxtLine | src/managers/inventory_manager.py:76-85 | one line step of `load_from_txt`, with no contract of its own: Inventory.ParseTxtLineOfSave states what it reads from a written line and Inventory.LoadStopsAtFailure what a failing line does to the load |
| Inventory.ParseTxtLineOfSave | src/managers/inventory_manager.py:58-85 | a written line of a product with no pipe, `\n` or `\r` in its texts, no leading space in its id, no trailing space in its description and a whole-cent price reads back as that product |
| Inventory.LoadSavedLines | src/managers/inventory_manager.py:58-89 | the lines written for such products (whole-cent prices included) load back as the same list without error |
| Inventory.TxtRoundTrip | src/managers/inventory_manager.py:58-89 | `load_from_txt` of the file text `save_to_txt` writes, read in text mode with universal newlines, reproduces a list of such products with whole-cent prices |
| Inventory.JsonRoundTrip | src/managers/inventory_manager.py:37-56 | `from_dict` of each dictionary `save_to_json` writes gives back the product list |
| Inventory.InventoryManager.constructor | src/managers/inventory_manager.py:11-12 | the list starts empty |
| Inventory.InventoryManager.AddProduct | src/managers/inventory_manager.py:14-15 | the product is appended at the end; earlier products are unchanged and duplicates are accepted |
| Inventory.InventoryManager.EditProduct | src/managers/inventory_manager.py:17-24 | true exactly when some product has the id; only the first such product changes, by the keyword updates; otherwise nothing changes |
| Inventory.InventoryManager.DeleteProduct | src/managers/inventory_manager.py:26-31 | true exactly when some product has the id; exactly the first such product is removed and the rest keep their order; otherwise nothing changes |
| Inventory.InventoryManager.LoadFromTxt | src/managers/inventory_manager.py:69-89 | a missing file gives false with the list unchanged; otherwise the list is replaced by the products of the lines (split with universal newlines), skipping lines with fewer than six parts and stopping with false at a line that does not convert |
| Inventory.InventoryManager.LoadFromJson | src/managers/inventory_manager.py:46-56 | a missing or malformed file, a document that is not iterable (a number, boolean or null), or an item that does not convert gives false with the list unchanged (an object iterates its keys and a text its characters, which do not convert); otherwise the list is replaced by the converted items |
| Legacy.NewPos | src/managers/inventory_manager_legacy.py:30-47 | a POS product holding every given field; each timestamp is the given one, or the current time when it is empty |
| Legacy.NewItem | src/managers/inventory_manager_legacy.py:49-67 | a general item holding every given field; each timestamp is the given one, or the current time when it is empty |
| Legacy.PosUpdatesTouchOnlyNamed | src/managers/inventory_manager_legacy.py:169-172 | unknown keywords change nothing; stock and price change only when named |
| Legacy.ItemUpdatesTouchOnlyNamed | src/managers/inventory_manager_legacy.py:266-269 | unknown keywords change nothing; quantity and min_quantity change only when named |
| Legacy.PutKeepsStock | src/managers/inventory_manager_legacy.py:196-218 | storing a product with non-negative stock keeps every stock non-negative |
| Legacy.PutKeepsQuantity | src/managers/inventory_manager_legacy.py:293-315 | storing an item with non-negative quantity keeps every quantity non-negative |
| Legacy.SearchSpec | src/managers/inventory_manager_legacy.py:318-360 | the outcome of a search, with no contract of its own: Legacy.SearchSpecMeaning, Legacy.SearchUnknownField and Legacy.SearchStopsAtError state its meaning |
| Legacy.SearchSpecMeaning | src/managers/inventory_manager_legacy.py:318-360 | a search fails exactly when some element's field is not text; otherwise it returns the order-keeping filter `Keep` of the elements whose field is text containing the lower-cased query |
| Legacy.SearchUnknownField | src/managers/inventory_manager_legacy.py:330-336 | searching a field no product has finds nothing and does not fail |
| Legacy.SearchStopsAtError | src/managers/inventory_manager_legacy.py:328-338 | once an element's field raises, the search fails whatever follows |
| Legacy.SearchErrorMessage | src/managers/inventory_manager_legacy.py:328-338 | a failing search always reports the same error |
| Legacy.FilterPosByCategory | src/managers/inventory_manager_legacy.py:362-376 | exactly the POS products whose category equals the argument case-insensitively |
| Legacy.FilterItemsByCategory | src/managers/inventory_manager_legacy.py:362-376 | exactly the general items whose category equals the argument case-insensitively |
| Legacy.LowStockPos | src/managers/inventory_manager_legacy.py:378-394 | exactly the POS products whose stock is at most the threshold |
| Legacy.LowStockItems | src/managers/inventory_manager_legacy.py:378-394 | exactly the general items whose quantity is at most their own minimum |
| Legacy.LowStockMonotone | src/managers/inventory_manager_legacy.py:378-394 | raising the threshold never drops a product from the low-stock list |
| Legacy.Distinct | src/managers/inventory_manager_legacy.py:462-463 | `set(...)` of a list of category names holds exactly the names that occur, at most one per entry, and is empty exactly when the list is |
| Legacy.SumStockNonNegative | src/managers/inventory_manager_legacy.py:459 | non-negative stocks give a non-negative total |
| Legacy.SumQuantityNonNegative | src/managers/inventory_manager_legacy.py:460 | non-negative quantities give a non-negative total |
| Legacy.GetInventoryStats | src/managers/inventory_manager_legacy.py:452-477 | the counts equal the dictionary sizes; the total value, stock and quantity are the sums over the dictionaries; the category counts are the numbers of distinct categories; the low-stock counts are the numbers of products at or under the threshold and of items at or under their minimum; the time is `now`; bounds and non-negativity follow |
| Legacy.PosCategoriesOf | src/managers/inventory_manager_legacy.py:462 | the distinct categories of the POS dictionary's values are exactly the categories stored under its keys |
| Legacy.ItemCategoriesOf | src/managers/inventory_manager_legacy.py:463 | the distinct categories of the general dictionary's values are exactly the categories stored under its keys |
| Legacy.PosValueRoundTrip | src/managers/inventory_manager_legacy.py:30-47 | `POSProduct(**asdict(p))` rebuilds a product with its timestamps set |
| Legacy.PosFromFields | src/managers/inventory_manager_legacy.py:30-47 | a dictionary with exactly the eight fields of a product, each of the right type, builds that product |
| Legacy.ImportSpec | src/managers/inventory_manager_legacy.py:426-445 | the outcome of `import_from_json` on a parsed document, with no contract of its own: Legacy.ImportPosMerges, Legacy.ImportPosStops, Legacy.ImportItemsStops and Legacy.ImportEmptyDocument state its meaning |
| Legacy.ImportPosMerges | src/managers/inventory_manager_legacy.py:432-436 | a complete import leaves keys it does not mention as they were and stores every key it mentions |
| Legacy.ImportPosUnique | src/managers/inventory_manager_legacy.py:432-436 | importing keeps the keys of the POS dictionary distinct |
| Legacy.ImportItemsUnique | src/managers/inventory_manager_legacy.py:438-441 | importing keeps the keys of the general dictionary distinct |
| Legacy.ImportPosStops | src/managers/inventory_manager_legacy.py:432-450 | after an entry fails to build, later entries change nothing |
| Legacy.ImportItemsStops | src/managers/inventory_manager_legacy.py:438-450 | after an entry fails to build, later entries change nothing |
| Legacy.ImportEmptyDocument | src/managers/inventory_manager_legacy.py:433-441 | importing a document without sections succeeds and changes nothing |
| Legacy.MigratedRowsAppend | src/managers/inventory_manager_legacy.py:491-508 | the rows of two runs of lines are the rows of each in order, so a skipped line does not stop the rest |
| Legacy.MigrateLine | src/managers/inventory_manager_legacy.py:492-504 | one line of the old POS file, with no contract of its own: Legacy.MigrateLineRoundTrip states what it reads from a line in the old format |
| Legacy.MigrateLineRoundTrip | src/managers/inventory_manager_legacy.py:492-500 | a line of id, name, price and stock joined by pipes in the old format, with no `|` in id or name and a whole-cent price, yields that name, price and stock; whitespace before the id is stripped away |
| Legacy.AddPosRowsUnique | src/managers/inventory_manager_legacy.py:496-506 | adding the migrated products keeps the keys distinct |
| Legacy.AddItemRowsUnique | src/managers/inventory_manager_legacy.py:511-520 | adding the migrated items keeps the keys distinct |
| Legacy.LegacyInventory.constructor | src/managers/inventory_manager_legacy.py:75-85 | both dictionaries start empty |
| Legacy.LegacyInventory.AddPosProduct | src/managers/inventory_manager_legacy.py:129-155 | the product is stored under `prod_` + token with both timestamps `now`; the id is returned; the general items are unchanged |
| Legacy.LegacyInventory.UpdatePosProduct | src/managers/inventory_manager_legacy.py:157-178 | false with nothing changed for an unknown id; otherwise only that product changes, by its keyword updates, with the new time; other keys keep their products |
| Legacy.LegacyInventory.DeletePosProduct | src/managers/inventory_manager_legacy.py:188-194 | true exactly when the key was present; exactly that key is removed and every other lookup is unchanged |
| Legacy.LegacyInventory.UpdatePosStock | src/managers/inventory_manager_legacy.py:196-218 | true exactly when the id is known and stock + change is not negative; then the stock becomes stock + change; otherwise nothing changes; non-negative stock stays non-negative |
| Legacy.LegacyInventory.AddGeneralItem | src/managers/inventory_manager_legacy.py:221-252 | the item is stored under `item_` + token with both timestamps `now`; the POS products are unchanged |
| Legacy.LegacyInventory.UpdateGeneralItem | src/managers/inventory_manager_legacy.py:254-275 | false with nothing changed for an unknown id; otherwise only that item changes; other keys keep their items |
| Legacy.LegacyInventory.DeleteGeneralItem | src/managers/inventory_manager_legacy.py:285-291 | true exactly when the key was present; exactly that key is removed and every other lookup is unchanged |
| Legacy.LegacyInventory.UpdateGeneralQuantity | src/managers/inventory_manager_legacy.py:293-315 | true exactly when the id is known and quantity + change is not negative; then the quantity becomes quantity + change; otherwise nothing changes; non-negative quantities stay non-negative |
| Legacy.LegacyInventory.SearchPosProducts | src/managers/inventory_manager_legacy.py:318-338 | the result of the search loop is the search specification over the products in insertion order |
| Legacy.LegacyInventory.SearchGeneralItems | src/managers/inventory_manager_legacy.py:340-360 | the result of the search loop is the search specification over the items in insertion order |
| Legacy.LegacyInventory.ImportPosEntries | src/managers/inventory_manager_legacy.py:432-436 | the POS loop stores each entry under its key in order, stopping at the first that fails to build |
| Legacy.LegacyInventory.ImportItemEntries | src/managers/inventory_manager_legacy.py:438-441 | the general loop stores each entry under its key in order, stopping at the first that fails to build |
| Legacy.LegacyInventory.ImportFromJson | src/managers/inventory_manager_legacy.py:415-449 | an unreadable file gives false with nothing changed; otherwise both dictionaries are cleared unless merging, and the two sections are imported; a failure part-way keeps what was imported before it |
| Legacy.LegacyInventory.MigratePosLines | src/managers/inventory_manager_legacy.py:491-508 | one product is added per line that parses, in file order; the count of additions is returned |
| Legacy.LegacyInventory.MigrateItemValues | src/managers/inventory_manager_legacy.py:511-522 | one item is added per suitable element, in order; unsuitable elements are skipped |
| Legacy.LegacyInventory.MigrateFromOldFormat | src/managers/inventory_manager_legacy.py:479-527 | the old POS lines (split with universal newlines) are migrated, then the old general items; a general file that is not valid JSON or not iterable (a number, boolean or null) gives false after the products were added; an object or a text iterates its keys or characters, which are skipped |
| DataFiles.StrLessIrreflexive | src/managers/data_manager.py:96 | the order `sorted` uses on keys is irreflexive |
| DataFiles.StrLessTransitive | src/managers/data_manager.py:96 | the order `sorted` uses on keys is transitive |
| DataFiles.StrLessTotal | src/managers/data_manager.py:96 | the order `sorted` uses on keys is total on distinct keys |
| DataFiles.Insert | src/managers/data_manager.py:92-96 | adding a key to a sorted header keeps it strictly sorted with exactly the old keys and the new one |
| DataFiles.InsertAll | src/managers/data_manager.py:92-96 | adding keys to a sorted header keeps it strictly sorted with exactly the old and new keys |
| DataFiles.CsvHeader | src/managers/data_manager.py:92-96 | the header is strictly sorted and holds exactly the keys of some record |
| DataFiles.SortedHeaderDistinct | src/managers/data_manager.py:92-96 | no column name appears twice in the header |
| DataFiles.SaveCsv | src/managers/data_manager.py:85-105 | a table exists exactly for a non-empty list of dictionaries; its header is strictly sorted and holds exactly the keys of the records; there is one row per record, and the cell of record i under key k is the text of its value, empty when the key is absent |
| DataFiles.Without | src/managers/data_manager.py:124 | `replace(c, '')` keeps exactly the other characters |
| DataFiles.InferCell | src/managers/data_manager.py:120-131 | the type `load_csv` gives one cell, with no contract of its own: DataFiles.InferCellOrder states the order in which the types are tried and DataFiles.CellRoundTrip which written values come back |
| DataFiles.InferCellOrder | src/managers/data_manager.py:120-131 | the cell types in order of priority: the empty cell is None; `true` or `false` in any case is a boolean; text that is digits once `.` and `-` are removed is a float when it holds a `.` and an int otherwise, or the error their conversion raises; any other text stays as it is |
| DataFiles.CellRoundTrip | src/managers/data_manager.py:118-131 | a None, a boolean, an integer, or a whole-cent float below 10**16 in magnitude is read back from its cell unchanged |
| DataFiles.NumberDigitsOnly | src/managers/data_manager.py:124 | the text of an integer, or of a float below 10**16 in magnitude, passes the digit test once `.` and `-` are removed |
| DataFiles.FloatTextHasPoint | src/managers/data_manager.py:125 | the text of a float below 10**16 in magnitude contains `.`, so it is read back as a float |
| DataFiles.ProcessRow | src/managers/data_manager.py:117-132 | the conversion of one CSV row, with no contract of its own: DataFiles.ProcessRowKeys states its keys, DataFiles.RowStopsAtError its failure and DataFiles.ProcessRowLoop the loop that computes it |
| DataFiles.ProcessRowKeys | src/managers/data_manager.py:119-131 | a converted row has exactly the header's keys |
| DataFiles.ProcessRowLoop | src/managers/data_manager.py:119-132 | the cell loop fails exactly when the row conversion fails, and otherwise gives the converted row |
| DataFiles.LoadCsv | src/managers/data_manager.py:107-137 | a missing file or any cell whose conversion raises gives `[]`; otherwise the converted rows in order |
| DataFiles.RowStopsAtError | src/managers/data_manager.py:119-137 | one cell that does not convert fails its whole row |
| DataFiles.RowsStopAtError | src/managers/data_manager.py:117-137 | one row that does not convert fails the whole load |
| DataFiles.SaveTxt | src/managers/data_manager.py:139-153 | false exactly for an empty list (the line contents are stated by DataFiles.SaveTxtLines) |
| DataFiles.SaveTxtLines | src/managers/data_manager.py:139-153 | for records whose values hold no line break, the file read back in text mode has exactly one line per record, the record's values joined by the delimiter, and a final empty line |
| DataFiles.SaveTxtRoundTrip | src/managers/data_manager.py:139-177 | a whole file written by `save_txt` for records of texts sharing their keys, with no delimiter, line break or outer space, is read back by `load_txt`, with those keys as headers, as the same records |
| DataFiles.LoadTxt | src/managers/data_manager.py:155-177 | a missing file gives `[]`; otherwise the text is split into lines with universal newlines, blank lines are skipped and each other line is split, zipped with the headers (truncated to the shorter) or keyed `field_0`, `field_1`, … |
| DataFiles.LineRecord | src/managers/data_manager.py:166-172 | one non-blank line becomes the record of the line step: its values zipped with the headers, or keyed `field_0`, `field_1`, … in order when there are none |
| DataFiles.ZipRecord | src/managers/data_manager.py:169 | zipping a record's keys with its values' texts gives the record back for text values |
| DataFiles.TxtRecordRoundTrip | src/managers/data_manager.py:139-177 | the one line written for a record of texts with no delimiter, no line break and no outer spaces is read back by the line step of `load_txt` with the record's own keys as headers |
| DataFiles.SaveJson | src/managers/data_manager.py:50-68 | the written document holds the data under `data` and metadata with format json, version 1.0 and the time |
| DataFiles.LoadJson | src/managers/data_manager.py:70-83 | a result exactly for a parsed object whose `data` is not `null`; a document without `data` gives `{}`, otherwise the result is its `data` |
| DataFiles.JsonNullData | src/managers/data_manager.py:50-83 | `load_json` of an envelope saved with `None` as data gives None |
| DataFiles.JsonEnvelopeRoundTrip | src/managers/data_manager.py:50-83 | `load_json` of what `save_json` wrote gives back any data other than `None` |
| DataFiles.TableRows | src/managers/data_manager.py:219-226 | rows exist exactly when every item is a dictionary; one row per item, each as wide as the columns |
| DataFiles.TableRowsLoop | src/managers/data_manager.py:219-226 | the row loop builds the table rows of the specification |
| DataFiles.SaveSqlite | src/managers/data_manager.py:203-232 | the table loop builds the tables of the specification; it fails at the first truthy table data that is not a list starting with a non-empty dictionary, or that holds a row that is not a dictionary |
| DataFiles.SqliteStopsAtError | src/managers/data_manager.py:210-232 | one table that cannot be shaped fails the whole save |
| DataFiles.SqliteNoColumns | src/managers/data_manager.py:210-217 | a table whose data starts with an empty dictionary makes the whole save fail, since `CREATE TABLE t ()` is rejected |
| DataFiles.SqliteShape | src/managers/data_manager.py:210-226 | every saved table has at least one column and one row, and every row is as wide as its columns |
| DataFiles.LoadSource | src/managers/data_manager.py:279-294 | an unsupported source format gives None; csv and txt sources always load a list of dictionaries, never None |
| DataFiles.SaveTarget | src/managers/data_manager.py:296-310 | success always comes with written output; an unsupported target gives false without writing; json and yaml always succeed; txt succeeds exactly for a non-empty list of dictionaries or a single dictionary |
| DataFiles.ConvertFormat | src/managers/data_manager.py:267-315 | an unsupported source format, a source that loads as None, or JSON whose data is `null` gives false without writing anything; success always comes with written output |
| DataFiles.TxtTargetPartialWrite | src/managers/data_manager.py:139-153 | converting to txt a list whose element k is the first that is not a dictionary gives false after the file was opened: it holds the lines of the k dictionaries before it, or nothing when k is 0 |
| DataFiles.NullJsonDataNotConverted | src/managers/data_manager.py:267-315 | a JSON source whose `data` is `null` is not converted to any format |
| DataFiles.JsonToJsonKeepsData | src/managers/data_manager.py:267-315 | converting JSON to JSON keeps the data of the envelope |
| DataFiles.CsvWrapsSingleRecord | src/managers/data_manager.py:302-305 | a single dictionary converted to CSV becomes a one-row table |
| Suppliers.SupplierIdInjective | src/managers/supplier_manager.py:101 | different counts give different supplier ids `SUP` + zero-padded number |
| Suppliers.OrderIdInjective | src/managers/supplier_manager.py:140 | different counts give different order ids `PO` + zero-padded number |
| Suppliers.NextIdFresh | src/managers/supplier_manager.py:98-140 | with ids numbered 1..n in order, the next id is not yet in use and storing under it appends |
| Suppliers.UpdatesTouchOnlyNamed | src/managers/supplier_manager.py:125-127 | unknown keywords change nothing; rating and active change only when named |
| Suppliers.LineAmount | src/managers/supplier_manager.py:144 | a missing quantity or unit price counts as 0; an item that is not a dictionary or holds a non-number raises |
| Suppliers.OrderTotal | src/managers/supplier_manager.py:144 | the order total, with no contract of its own: Suppliers.OrderTotalOk, Suppliers.OrderTotalNonNegative and Suppliers.OrderTotalOfUnpricedItems state its meaning |
| Suppliers.OrderTotalOk | src/managers/supplier_manager.py:144 | the total exists exactly when every line amount does |
| Suppliers.OrderTotalNonNegative | src/managers/supplier_manager.py:144 | non-negative quantities and prices give a non-negative total |
| Suppliers.OrderTotalOfUnpricedItems | src/managers/supplier_manager.py:144 | items without a unit price total 0 |
| Suppliers.OrderHistory | src/managers/supplier_manager.py:234-236 | exactly the orders of the supplier; the result is the order-keeping filter `Keep` (see Basics.KeepAppend) |
| Suppliers.PendingOrders | src/managers/supplier_manager.py:230-232 | exactly the orders whose status is pending; the result is the order-keeping filter `Keep` (see Basics.KeepAppend) |
| Suppliers.SearchSuppliers | src/managers/supplier_manager.py:238-244 | exactly the suppliers whose lower-cased name or contact person contains the lower-cased query |
| Suppliers.SearchEmptyQuery | src/managers/supplier_manager.py:238-244 | an empty query finds every supplier |
| Suppliers.DelayDays | src/managers/supplier_manager.py:208-210 | `(actual - expected).days` in whole seconds, with no contract of its own: Suppliers.DelayDaysSign states when it is at most 0 |
| Suppliers.DelayDaysSign | src/managers/supplier_manager.py:208-212 | an order is on time exactly when it was last updated less than 86400 seconds after the expected moment |
| Suppliers.OnTimeCount | src/managers/supplier_manager.py:207-212 | at most one on-time count per delivered order |
| Suppliers.NoDelayIffAllOnTime | src/managers/supplier_manager.py:207-215 | the total delay is zero exactly when every delivered order is on time |
| Suppliers.DelayCoversLateOrders | src/managers/supplier_manager.py:207-215 | each late order adds at least one day of delay |
| Suppliers.CountStatus | src/managers/supplier_manager.py:222-224 | at most one count per order |
| Suppliers.Delivered | src/managers/supplier_manager.py:200-203 | exactly the supplier's delivered orders |
| Suppliers.Percentage | src/managers/supplier_manager.py:217 | a part of a whole is between 0 and 100 percent, and 100 exactly when the part is the whole |
| Suppliers.PerformanceOf | src/managers/supplier_manager.py:179-228 | the performance report of a supplier's orders, with no contract of its own: Suppliers.PerformanceBounds and Suppliers.PerfectRate state its meaning |
| Suppliers.PerformanceBounds | src/managers/supplier_manager.py:179-228 | the on-time rate is between 0 and 100; the delay is not negative; a supplier without orders has all-zero metrics |
| Suppliers.PerfectRate | src/managers/supplier_manager.py:200-219 | the on-time rate is 100 exactly when something was delivered and every delivery was on time, and then the average delay is 0 |
| Suppliers.DeliveryLoop | src/managers/supplier_manager.py:205-215 | the loop's counters are the on-time count and the total positive delay, and the on-time count is at most the number of deliveries |
| Suppliers.SupplierManager.constructor | src/managers/supplier_manager.py:52-58 | no suppliers and no orders |
| Suppliers.SupplierManager.AddSupplier | src/managers/supplier_manager.py:98-118 | the supplier is appended under the fresh id `SUP` + (count+1) padded to four digits, with rating 5.0, active and empty notes, created and updated at the same time; orders are unchanged |
| Suppliers.SupplierManager.UpdateSupplier | src/managers/supplier_manager.py:120-132 | false with nothing changed for an unknown id; otherwise only that supplier changes, by its keyword updates, with the new time; the keys are unchanged |
| Suppliers.SupplierManager.CreatePurchaseOrder | src/managers/supplier_manager.py:134-159 | an unknown supplier gives the error "Invalid supplier ID" and adds nothing; otherwise the order is appended under the fresh id `PO` + (count+1) padded to six digits, with the computed total, status pending and payment unpaid |
| Suppliers.SupplierManager.UpdatePoStatus | src/managers/supplier_manager.py:161-177 | false for an unknown order; an error for a status outside pending, confirmed, shipped, delivered, cancelled; otherwise the status and time are set, and notes are replaced only when non-empty |
| Suppliers.SupplierManager.GetSupplierPerformance | src/managers/supplier_manager.py:179-228 | an error for an unknown supplier; otherwise the performance of its orders |
| Sales.HourOf | src/managers/sales_analytics_legacy.py:306 | an hour of the day is between 0 and 23 |
| Sales.InRange | src/managers/sales_analytics_legacy.py:138-141 | exactly the records with start ≤ timestamp ≤ end; order is kept, as Sales.InRangeAppend states |
| Sales.InRangeAppend | src/managers/sales_analytics_legacy.py:116-141 | a new record joins the window's sales at the end exactly when it is inside the window |
| Sales.SalesSummary | src/managers/sales_analytics_legacy.py:121-165 | the transaction count is the number of sales in the window; sales and revenue are the sum of their totals; tax is the sum of their tax; the average times the count is the revenue, or 0 for an empty window |
| Sales.SummaryAfterSale | src/managers/sales_analytics_legacy.py:116-165 | recording a sale changes a window's summary only when the sale falls inside it, by one transaction, its total and its tax |
| Sales.EmptyWindow | src/managers/sales_analytics_legacy.py:143-151 | a window that ends before it starts gives an all-zero summary |
| Sales.InsertDesc | src/managers/sales_analytics_legacy.py:219 | inserting adds exactly the element |
| Sales.InsertDescSorted | src/managers/sales_analytics_legacy.py:219 | inserting into a list sorted by falling key keeps it sorted |
| Sales.SortDesc | src/managers/sales_analytics_legacy.py:219 | the sorted list is a permutation of the input, sorted by falling revenue |
| Sales.SortedHasSameElements | src/managers/sales_analytics_legacy.py:219 | sorting neither loses nor adds an element |
| Sales.FirstTen | src/managers/sales_analytics_legacy.py:223 | `xs[:10]`: a prefix of length min(10, len(xs)) |
| Sales.LastTen | src/managers/sales_analytics_legacy.py:224 | `xs[-10:]`: the last min(10, len(xs)) elements |
| Sales.GroupByAppend | src/managers/sales_analytics_legacy.py:196-205 | one more item adds to exactly its own group |
| Sales.GroupByKeys | src/managers/sales_analytics_legacy.py:196-205 | the grouped dictionary has distinct keys, exactly the keys of the items |
| Sales.GroupByMeaning | src/managers/sales_analytics_legacy.py:196-205 | each group holds the accumulation of exactly the items with its key |
| Sales.GroupByCount | src/managers/sales_analytics_legacy.py:196-205 | there are as many groups as distinct keys |
| Sales.GroupItems | src/managers/sales_analytics_legacy.py:196-205 | the nested loop over sales and items builds the grouped dictionary of all their items |
| Sales.ProductReportOf | src/managers/sales_analytics_legacy.py:208-226 | as many rows as products, sorted by falling revenue; top sellers are the first ten rows and worst sellers the last ten |
| Sales.ProductRowFigures | src/managers/sales_analytics_legacy.py:196-217 | each row carries the quantity, revenue and count of exactly the items of its name, and its average price is revenue over quantity (0 when nothing was sold) |
| Sales.ProductNameHasRow | src/managers/sales_analytics_legacy.py:196-217 | every product name of the items has a row |
| Sales.ProductReportMeaning | src/managers/sales_analytics_legacy.py:167-226 | one row per distinct name, each with the figures of exactly that name's items, and total_products is the number of distinct names |
| Sales.CategoryReportOf | src/managers/sales_analytics_legacy.py:370-388 | as many rows as categories, sorted by falling revenue; no top category exactly when there are no rows, otherwise a row with the most revenue |
| Sales.CategoryRowFigures | src/managers/sales_analytics_legacy.py:357-380 | each row carries the figures of exactly the items of its category and counts their distinct names; its average is revenue over transactions (0 without transactions) |
| Sales.CategoryReportMeaning | src/managers/sales_analytics_legacy.py:327-388 | one row per distinct category with the figures of exactly its items; no top category exactly when there are no items |
| Sales.UncategorizedItems | src/managers/sales_analytics_legacy.py:359 | an item without a category is counted under Uncategorized |
| Sales.WindowStatsSummary | src/managers/sales_analytics_legacy.py:255-260 | the revenue and count of the window's sales are the summary's |
| Sales.DailyOf | src/managers/sales_analytics_legacy.py:255-260 | the `daily_sales` dictionary, with no contract of its own: Sales.DailyMeaning states what each date holds |
| Sales.DailyMeaning | src/managers/sales_analytics_legacy.py:255-260 | each day holds the figures of exactly the window's sales on that day |
| Sales.CollectDays | src/managers/sales_analytics_legacy.py:255-260 | the loop over the sales builds the daily figures |
| Sales.DateRange | src/managers/sales_analytics_legacy.py:242-246 | the while loop lists the consecutive dates from the start date to the end date |
| Sales.TrendData | src/managers/sales_analytics_legacy.py:263-271 | one entry per date, zero-filled where there were no sales |
| Sales.TrendOf | src/managers/sales_analytics_legacy.py:228-278 | the trend has exactly days + 1 entries, and fails (the average divides by zero) exactly for a negative number of days |
| Sales.TrendEntries | src/managers/sales_analytics_legacy.py:242-271 | the k-th entry is the k-th date from the start date and holds the figures of exactly the window's sales on that date |
| Sales.TrendOfData | src/managers/sales_analytics_legacy.py:242-271 | the entries are the daily figures over the consecutive dates |
| Sales.SumDaysUpdate | src/managers/sales_analytics_legacy.py:255-260 | adding a sale to one day adds it to the sum over a run of days exactly when that day is in the run |
| Sales.DailyCoverWindow | src/managers/sales_analytics_legacy.py:242-260 | when every sale of the window falls on a listed date, the days together hold the window's figures |
| Sales.TrendDataTotal | src/managers/sales_analytics_legacy.py:273-277 | the totals over the entries are the sums over the days |
| Sales.TrendTotals | src/managers/sales_analytics_legacy.py:228-278 | the trend's total revenue and transactions are those of all the window's sales |
| Sales.DayOfMonotone | src/managers/sales_analytics_legacy.py:242-246 | a later time never has an earlier date |
| Sales.BuildTrend | src/managers/sales_analytics_legacy.py:263-271 | the loop over the dates builds the trend entries |
| Sales.HourlyOf | src/managers/sales_analytics_legacy.py:305-308 | the `hourly_sales` dictionary, with no contract of its own: Sales.HourlyMeaning states what each hour holds |
| Sales.HourlyMeaning | src/managers/sales_analytics_legacy.py:305-308 | each hour holds the revenue and count of exactly the sales in that hour |
| Sales.CollectHours | src/managers/sales_analytics_legacy.py:305-308 | the loop over the sales builds the hourly figures |
| Sales.PeakIndex | src/managers/sales_analytics_legacy.py:323 | `max` by revenue: the first entry with the greatest revenue |
| Sales.QuietIndex | src/managers/sales_analytics_legacy.py:324 | `min` by revenue: the first entry with the least revenue |
| Sales.PatternOf | src/managers/sales_analytics_legacy.py:280-325 | exactly 24 entries for hours 0 to 23 in order; the peak and quiet hours are entries with the greatest and least revenue |
| Sales.PatternEntries | src/managers/sales_analytics_legacy.py:305-319 | each hour carries the revenue and count of exactly the window's sales in it, and averages 0 without sales |
| Sales.BuildHours | src/managers/sales_analytics_legacy.py:311-319 | the loop over range(24) builds the zero-filled hourly entries |
| Sales.ReportOf | src/managers/sales_analytics_legacy.py:390-428 | the sales report, with no contract of its own: Sales.ReportSections states its sections and when it fails |
| Sales.ReportSections | src/managers/sales_analytics_legacy.py:390-428 | the report always has the summary; product figures for comprehensive and product reports; category figures for comprehensive and category reports; trend and pattern only for comprehensive ones; it fails only for a comprehensive report over a window that ends before it starts |
| Sales.FlattenReport | src/managers/sales_analytics_legacy.py:469-497 | two summary rows, then one row per product of the report's product figures |
| Sales.SalesAnalytics.constructor | src/managers/sales_analytics_legacy.py:58-68 | no sales recorded |
| Sales.SalesAnalytics.AddSale | src/managers/sales_analytics_legacy.py:116-119 | the record is appended at the end; earlier records are unchanged |
| Sales.SalesAnalytics.GetProductPerformance | src/managers/sales_analytics_legacy.py:167-226 | the product report of the items of the window's sales (the last 30 days by default) |
| Sales.SalesAnalytics.GetCategoryPerformance | src/managers/sales_analytics_legacy.py:327-388 | the category report of the items of the window's sales |
| Sales.SalesAnalytics.GetDailySalesTrend | src/managers/sales_analytics_legacy.py:228-278 | the trend of the last `days` days |
| Sales.SalesAnalytics.GetHourlySalesPattern | src/managers/sales_analytics_legacy.py:280-325 | the hourly pattern of the last `days` days |
| Sales.SalesAnalytics.GenerateSalesReport | src/managers/sales_analytics_legacy.py:390-428 | the report of the window (the last 30 days by default) with the sections of its type |
| FileUtils.ValidationErrors | src/utils/file_utils.py:147-183 | the list `validate_product_data` returns, with no contract of its own: FileUtils.MissingReported, FileUtils.MissingBeforeTypeErrors, FileUtils.TypeErrorsReported and FileUtils.NoErrorsIffAcceptable state its meaning |
| FileUtils.ValidateProductData | src/utils/file_utils.py:147-183 | the loop and the guarded checks return the missing-field errors in field order followed by the conversion errors |
| FileUtils.MissingErrorInjective | src/utils/file_utils.py:163 | different fields give different missing-field messages |
| FileUtils.MissingFieldsMeaning | src/utils/file_utils.py:157-163 | a missing-field error is reported exactly for a listed field that is absent or falsy |
| FileUtils.TypeErrorsNotMissing | src/utils/file_utils.py:166-182 | no conversion error reads as a missing-field error |
| FileUtils.MissingBeforeTypeErrors | src/utils/file_utils.py:157-183 | all missing-field errors come before all conversion errors |
| FileUtils.MissingReported | src/utils/file_utils.py:157-163 | a field is reported missing exactly when it is required and absent or falsy, so a zero price or quantity counts as missing |
| FileUtils.TypeErrorsReported | src/utils/file_utils.py:166-182 | each conversion error appears exactly when its check fails; min_stock is checked only when present and truthy |
| FileUtils.NoErrorsIffAcceptable | src/utils/file_utils.py:147-183 | no error exactly when every required field is filled and price, quantity and a truthy min_stock convert |
| FileUtils.MissingFieldsEmpty | src/utils/file_utils.py:157-163 | no missing-field error exactly when every listed field is filled |
| FileUtils.ErrorCountBound | src/utils/file_utils.py:147-183 | at most one error per check: seven in all |
| FileUtils.MissingFieldsLength | src/utils/file_utils.py:157-163 | at most one missing-field error per field |
| FileUtils.ZeroQuantityRejected | src/utils/file_utils.py:157-176 | a quantity of 0 is reported missing, but not as badly typed |

## Left out

- Persistence: `save_data`/`load_data` of the unified inventory and the supplier manager, and `load_sales_data`/`save_sales_data`/`export_report`. They are file I/O. The load in the managers' constructors is not modelled, so every manager starts empty.
- `export_to_csv`, `export_to_json` and `_format_report_as_text`: they only write text.
- Library serialisation (`json.dump`, `yaml`, the `csv` module's quoting, `sqlite3` statements). Files are their contents: `Option<string>` for text, a `JsonFile` for JSON, rows of cells for CSV. `save_yaml`/`load_yaml` and `load_sqlite` are not modelled.
- `create_backup`, `list_files` and `get_file_info` of the data manager, and the file dialogs, backups and JSON/CSV wrappers of `FileUtils`: these are filesystem and GUI helpers.
- main.py, src/main.py and src/utils/migrate_data.py: the Tk GUI and a command-line script.
- `SalesVisualization` and `SalesDashboard` (src/managers/sales_analytics_legacy.py:529-896): charts and widgets.
- Time and randomness: `datetime.now()` is the parameter `now`, and `uuid4` tokens are a parameter `token`. Timestamps are ISO strings in the unified inventory and whole seconds in the supplier and sales managers. A date is seconds divided by 86400, so time zones are not modelled. ISO parsing and formatting are not modelled.
- Floating point: prices and money are `real`, so rounding is not modelled. `str(float)` is modelled for whole-cent values below 10**16 in magnitude only; other fractions are rendered floored to cents.
- Values.Render: lists and dicts are written as the placeholders `[...]` and `{...}`, not as their `repr`; a float of magnitude 10**16 or more is written in digits, where Python switches to exponent form (`1e+16`). The CSV lemmas that depend on the text of a float require a magnitude below 10**16.
- Models.FromDict: a non-text value for a text field is an error here; Python would store any value in the attribute.
- Text.ParseInt: accepts an optional sign and ASCII digits only. Python's `int()` also accepts `_` between digits (`1_000`) and non-ASCII decimal digits, which are an error here.
- Text.ParseDecimal: accepts an optional sign, ASCII digits and at most one point only. Python's `float()` also accepts exponents (`1e3`), `inf`, `nan`, `_` between digits and non-ASCII digits, which are an error here.
- Text.Lower: lower-cases ASCII letters only. Python's `str.lower` also maps other letters (`É` to `é`). It is exact for the `true`/`false` test of CSV cells; searches and category filters may miss a match on non-ASCII capitals.
- Text.IsDigit: the digit test is ASCII. Python's `str.isdigit` is also true of other Unicode digits and of superscripts.
- DataFiles.LoadCsv: because of the ASCII digit test and number grammar above, a cell such as `٣` stays text here, while Python converts it with `int()`. Repeated header columns are handled as the DataFiles.ProcessRow line says.
- DataFiles.ProcessRow: with a repeated header name the key holds the last cell, as in Python, but every cell is converted. A cell that raises (`1-2`) under a name that a later cell overrides fails the row here. Python never converts the overridden cell.
- FileUtils.ValidationErrors: the price and quantity checks use the grammar of Text.ParseDecimal and Text.ParseInt. Text such as `1e3`, `inf` or `1_000` is reported as a conversion error here, though Python accepts it.
- FileUtils.TypeErrorsReported: "converts" means the grammar of Text.ParseDecimal and Text.ParseInt, so the gaps of FileUtils.ValidationErrors apply.
- FileUtils.NoErrorsIffAcceptable: "acceptable" uses the grammar of Text.ParseDecimal and Text.ParseInt, so `1e3` and `1_000` are not acceptable here.
- Inventory.InventoryManager.LoadFromTxt: quantity and price use the grammar of Text.ParseInt and Text.ParseDecimal, so a line Python converts (`1_000`, `1e3`) stops the load here.
- Legacy.LegacyInventory.MigratePosLines: price and stock use the grammar of Text.ParseDecimal and Text.ParseInt, so a line Python converts (`1e3`) is skipped here.
- Legacy.PosField: `hasattr` is true of the record's fields only. Python's is also true of inherited attributes such as `__doc__`. Searching such a field raises in Python because the value is not text; here it finds nothing.
- Legacy.ItemField: the same as Legacy.PosField for general items.
- Legacy.PosFromKeywords: a value of the wrong JSON type for a field (text for `stock`, say) is an error here. Python's dataclass constructor does not check types and stores the value.
- Legacy.ItemFromKeywords: the same typing as Legacy.PosFromKeywords, for general items.
- Legacy.PosFromValue: inherits the typing of Legacy.PosFromKeywords.
- Legacy.ItemFromValue: inherits the typing of Legacy.ItemFromKeywords.
- Legacy.MigrateItem: an old general item whose name, quantity or category has the wrong type is skipped here. Python passes it to `add_general_item` unchanged.
- Legacy.LegacyInventory.ImportPosEntries: because of the typed Legacy.PosFromKeywords, an entry with a mistyped field stops the import here. Python stores it.
- Legacy.LegacyInventory.ImportItemEntries: because of the typed Legacy.ItemFromKeywords, an entry with a mistyped field stops the import here. Python stores it.
- Legacy.LegacyInventory.ImportFromJson: returns false for a document with a mistyped field, which Python imports, as the two import loops above say.
- Legacy.LegacyInventory.MigrateItemValues: because of Legacy.MigrateItem, a mistyped old item is skipped here. Python adds it.
- Legacy.LegacyInventory.MigrateFromOldFormat: inherits the gaps of Legacy.LegacyInventory.MigratePosLines and Legacy.LegacyInventory.MigrateItemValues.
- Inventory.ProductUpdate: a keyword update carries a value of the field's own type, so `setattr` with a value of another type is not modelled.
- Legacy.PosUpdate: the same as Inventory.ProductUpdate, for POS products.
- Legacy.ItemUpdate: the same as Inventory.ProductUpdate, for general items.
- Suppliers.SupplierUpdate: the same as Inventory.ProductUpdate, for suppliers.
- Sales.SaleItem: the item fields of a sale have fixed types. Python reads them from dictionaries with `.get` and does not check their types.
- Legacy.LegacyInventory.AddPosProduct, Legacy.LegacyInventory.AddGeneralItem: the generated token is assumed fresh, which is what a uuid gives. The key is not checked against existing ones.
- Inventory.ParseTxtLineOfSave: requires a whole-cent price. Python's `repr` of a float reads back as the same float for any value; the model renders other fractions floored to cents (see Floating point).
- Inventory.LoadSavedLines: requires whole-cent prices, for the reason of Inventory.ParseTxtLineOfSave.
- Inventory.TxtRoundTrip: requires whole-cent prices, for the reason of Inventory.ParseTxtLineOfSave.
- Legacy.MigrateLineRoundTrip: requires a whole-cent price, for the reason of Inventory.ParseTxtLineOfSave, and no `|` in id or name, without which the split gives other fields.
- Inventory.InventoryManager.EditProduct: products are values, so two slots of the list that hold the same Python object, which `add_product` accepts, are not modelled; Python's `setattr` changes every slot that shares it. A keyword that is not a data field is `OtherKey` and changes nothing here, but Python's `hasattr` is also true of methods and dunder attributes such as `to_dict` or `__class__`, which `setattr` then overwrites or fails on.
- Inventory.InventoryManager.AddProduct: stores a copy, so the aliasing described on the Inventory.InventoryManager.EditProduct line is not modelled.
- Legacy.LegacyInventory.UpdatePosProduct: a keyword that is not a data field is `PosOther` and changes only `updated_at` here, but Python's `hasattr` is also true of methods and dunder attributes such as `to_dict` or `__class__`: `setattr` then stores a new instance attribute over the method or raises TypeError out of the call.
- Legacy.LegacyInventory.UpdateGeneralItem: the same as Legacy.LegacyInventory.UpdatePosProduct, with `ItemOther` for general items.
- Suppliers.SupplierManager.UpdateSupplier: the same as Legacy.LegacyInventory.UpdatePosProduct, with `OtherKey` for suppliers; `update_supplier(sid, __class__=1)` raises TypeError in Python and succeeds here.
- DataFiles.SaveSqlite: table and column names are not checked against SQLite's grammar. A name SQLite rejects, such as one with a space (`unit price`) or a keyword (`order`), makes Python's save return false; here it is saved. The same holds for DataFiles.SqliteSpec and the sqlite branch of DataFiles.SaveTarget.
- Sales.SortDesc: Python's sort is stable. The model's insertion sort keeps equal-revenue rows in some order, but stability is not proved.
- Sales.TrendOf, Sales.PatternOf: the window is the last `days` days up to `now`, as the code computes. In a report these use the number of days of the report window, not its end. A negative `days` (a report window that ends before it starts) gives the error the average's division raises.
- Suppliers.PerformanceOf: the average delay is the total positive delay divided by the number of delivered orders, as the code computes.
- `get_pos_product`, `get_all_pos_products`, `get_general_item` and `get_all_general_items` are single dictionary lookups. They are `Lookup` and `ValuesOf` on the dictionaries.
- `get_sales_summary` has no loop and no state change, so it is the function `Sales.SalesSummary` rather than a method of the class.
