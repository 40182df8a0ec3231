# Sector hierarchy editor — a Dafny model

The stock dashboard keeps a four-level hierarchy of **sectors → industries →
sub-industries → stocks** in the session. Sidebar buttons edit it in place, and
every accepted edit is written to `sectors.json`. The code comes in two
revisions, and both are modelled here:

* the stock dashboard page (`stock_dashbaord/stock_dashboard.py`). An industry
  is either a *grouping* of named sub-industries, each holding a stock list, or
  a *leaf* holding a stock list directly. A stock entry is either a bare symbol
  or an annotated object with optional `symbol`, `name`, `price` and `change`.
  There are add and delete buttons at every level, plus the renderer of one
  stock entry;
* the earlier main page (`main.py`). Every industry holds sub-industries. It has
  four add buttons and the loop that spreads the sectors over eight display
  columns.

How the model is built:

* A Python `dict` is an insertion-ordered list of key/value pairs (`Dicts`):
  * `Put` is `d[k] = v`: a key already present keeps its place, and a new key
    goes last;
  * `Del` is `del d[k]` on a key that is present. Python raises `KeyError` on
    an absent key, but `Del` is total and returns the dictionary unchanged.
    Every delete handler tests `k in d` before deleting, so that case is
    never reached.
* Each page is a class `Dashboard`:
  * its field `sectors` is the session hierarchy;
  * a ghost snapshot `stored` and a ghost counter `saves` stand for
    `sectors.json` and the calls of `save_data`;
  * each button branch is one method, taking the picked select-box values and
    the typed text as parameters.
* Every method states when the edit is accepted, what the new hierarchy is,
  and that nothing outside the addressed node changed. The twostate predicate
  `SavedIff` states that `save_data` is called exactly once, with the new hierarchy,
  on the accepting branch and not at all otherwise.
* On the stock dashboard page every handler keeps `ShapesKept`: a leaf never
  turns into a grouping, and a grouping that holds sub-industries never turns
  into a leaf.
* Select boxes without a placeholder always return one of their options, so
  "the chosen key exists" is a precondition. Where the source offers an empty
  placeholder (the delete buttons), the empty choice is an input like any other
  and leads to no change.
* The duplicate check of the stock dashboard page is modelled as written. A
  typed symbol is compared with each bare entry and with the **`name`** field
  of each annotated entry, not with its `symbol` field
  (`Stocks.SymbolFieldIsNotCompared`). The main page compares by equality. The
  two rules agree on lists of bare symbols
  (`MainPage.SameDuplicateRuleOnBareLists`).
* The renderer produces a list of styled spans, not HTML. `FormatExactlyShowsView`
  proves that two entries render identically exactly when they show the same
  visible fields.

## Model

| member | source | states |
|---|---|---|
| `Dicts.Get` | stock_dashbaord/stock_dashboard.py:62 | a key is found exactly when it is among the keys, and the value returned is one paired with it |
| `Dicts.Put` | stock_dashbaord/stock_dashboard.py:63 | assigning to a present key keeps the key order, a new key is appended after all existing keys, and the key then reads back the assigned value |
| `Dicts.Del` | stock_dashbaord/stock_dashboard.py:146 | the deleted key is absent afterwards; on an absent key, where Python raises `KeyError`, the total model returns the dictionary unchanged |
| `Dicts.AtIsPairedValue` | stock_dashbaord/stock_dashboard.py:74 | in a dictionary without repeated keys, looking a key up gives the value stored beside it |
| `Dicts.PutPairs` | stock_dashbaord/stock_dashboard.py:63 | after an assignment every pair is either old or the new one |
| `Dicts.PutKeepsDistinct` | stock_dashbaord/stock_dashboard.py:63 | assignment never creates a repeated key |
| `Dicts.DelPairs` | stock_dashbaord/stock_dashboard.py:146 | the pairs left by a delete are exactly the old pairs with another key |
| `Dicts.DelKeepsDistinct` | stock_dashbaord/stock_dashboard.py:146 | deleting never creates a repeated key |
| `Dicts.DelRemovesOnePair` | stock_dashbaord/stock_dashboard.py:146 | deleting a present key drops exactly one pair, and the others keep their order |
| `Dicts.DelAtIndex` | stock_dashbaord/stock_dashboard.py:146 | in a dictionary without repeated keys, deleting the key at position i removes that pair alone and keeps the others in order |
| `Dicts.PutChangesOneKey` | stock_dashbaord/stock_dashboard.py:75 | assigning to one key changes the lookup of that key only |
| `Dicts.DelChangesOneKey` | stock_dashbaord/stock_dashboard.py:159 | deleting one key changes the lookup of that key only |
| `Stocks.IndexOf` | stock_dashbaord/stock_dashboard.py:196 | the position found holds the entry, and no earlier position does |
| `Stocks.RemoveFirst` | stock_dashbaord/stock_dashboard.py:196 | removing an entry shortens the list by one, drops the first occurrence, and keeps the remaining order |
| `Stocks.RemoveFirstMultiset` | stock_dashbaord/stock_dashboard.py:202 | removing an entry takes out exactly one copy of it and nothing else |
| `Stocks.AppendNewKeepsKeysUnique` | stock_dashbaord/stock_dashboard.py:116-117 | appending a symbol that passed the duplicate check keeps a list free of entries with equal comparison keys |
| `Stocks.RemoveFirstKeepsKeysUnique` | stock_dashbaord/stock_dashboard.py:196 | removing an entry keeps a list free of entries with equal comparison keys |
| `Stocks.SymbolFieldIsNotCompared` | stock_dashbaord/stock_dashboard.py:116 | a symbol equal to the `symbol` field of an annotated entry with a different name passes the duplicate check |
| `StockDisplay.NatToString` | stock_dashbaord/stock_dashboard.py:37 | the decimal text of a number is non-empty and made of digits only |
| `StockDisplay.NatToStringInjective` | stock_dashbaord/stock_dashboard.py:37 | different numbers have different decimal texts |
| `StockDisplay.IntToStringSign` | stock_dashbaord/stock_dashboard.py:35 | an integer's text starts with a minus sign exactly when it is negative |
| `StockDisplay.IntToStringInjective` | stock_dashbaord/stock_dashboard.py:35 | different integers have different texts |
| `StockDisplay.FormatStockDisplay` | stock_dashbaord/stock_dashboard.py:19-39 | a bare entry gives one plain span with its text. An annotated entry starts with its symbol, or `N/A` when there is none, followed by at most three non-symbol spans. The spans run in the order symbol, name, price, change: their `Rank` strictly increases |
| `StockDisplay.FormatParts` | stock_dashbaord/stock_dashboard.py:31-37 | picking the spans of each kind out of an annotated rendering gives back the symbol, name, price and change parts, so none is lost or merged |
| `StockDisplay.FormatShowsTruthyFields` | stock_dashbaord/stock_dashboard.py:22-38 | name, price and change appear exactly when truthy. The change is green with ▲ exactly when positive and red with ▼ exactly when negative, followed by its absolute value and `%` |
| `StockDisplay.NamePartShowsName` | stock_dashbaord/stock_dashboard.py:32-33 | equal name parts come from equal visible names |
| `StockDisplay.PricePartShowsPrice` | stock_dashbaord/stock_dashboard.py:34-35 | equal price parts come from equal visible prices |
| `StockDisplay.ChangePartShowsChange` | stock_dashbaord/stock_dashboard.py:28-37 | equal change parts come from equal changes |
| `StockDisplay.FormatExactlyShowsView` | stock_dashbaord/stock_dashboard.py:19-39 | two entries render identically exactly when their visible fields are equal |
| `StockDashboard.ChangeInOneIndustryKeepsShapes` | stock_dashbaord/stock_dashboard.py:111 | an edit confined to one industry keeps the shape of every other industry, so the whole hierarchy keeps its shapes when that industry does |
| `StockDashboard.ChangeInOneSectorKeepsShapes` | stock_dashbaord/stock_dashboard.py:142-148 | adding or deleting a whole sector keeps the shape of every industry present before and after |
| `StockDashboard.Dashboard.Load` | stock_dashbaord/stock_dashboard.py:9-13 | the session starts from the stored document, or from an empty hierarchy when there is no file |
| `StockDashboard.Dashboard.SaveData` | stock_dashbaord/stock_dashboard.py:15-17 | the stored document becomes the session hierarchy |
| `StockDashboard.Dashboard.SetIndustries` | stock_dashbaord/stock_dashboard.py:75 | replacing one sector's industries changes only that sector and keeps keys distinct |
| `StockDashboard.Dashboard.SetNode` | stock_dashbaord/stock_dashboard.py:126 | replacing one industry changes only that industry; if its shape is kept, every shape is kept |
| `StockDashboard.Dashboard.SetSubStocks` | stock_dashbaord/stock_dashboard.py:93 | replacing one sub-industry's list changes only that industry, which stays a grouping |
| `StockDashboard.Dashboard.AddSector` | stock_dashbaord/stock_dashboard.py:61-67 | accepted exactly when the name is non-empty and new. The sector is then appended with no industries and saved; otherwise nothing changes and nothing is saved |
| `StockDashboard.Dashboard.AddIndustry` | stock_dashbaord/stock_dashboard.py:73-79 | accepted exactly when the name is non-empty and new in the sector. An empty grouping is then appended there, other sectors are untouched, and the result is saved |
| `StockDashboard.Dashboard.AddSubIndustry` | stock_dashbaord/stock_dashboard.py:90-99 | refused on a leaf, even an empty one. On a grouping, accepted exactly when the name is non-empty and new; an empty list is then appended and saved; only that industry changes |
| `StockDashboard.Dashboard.AddStock` | stock_dashbaord/stock_dashboard.py:114-121 | accepted exactly when the symbol is non-empty and clashes with no entry. The bare symbol is then appended to that list alone, other sub-industries are unchanged, and the result is saved. A list without entries with equal comparison keys stays so |
| `StockDashboard.Dashboard.AddStockDirect` | stock_dashbaord/stock_dashboard.py:122-133 | offered only on a leaf or an empty grouping, so no grouping holding sub-industries becomes a leaf. The industry always ends as a leaf; the symbol is appended and saved exactly when non-empty and not clashing, and nothing is saved otherwise. A list without entries with equal comparison keys stays so |
| `StockDashboard.Dashboard.DeleteSector` | stock_dashbaord/stock_dashboard.py:142-148 | accepted exactly when the chosen name is non-empty and a sector. That sector goes with its whole subtree, one pair fewer, every other sector unchanged, and the result is saved |
| `StockDashboard.Dashboard.DeleteIndustry` | stock_dashbaord/stock_dashboard.py:151-161 | accepted exactly when sector and name are chosen and the name is an industry of the sector. Only that industry goes, its siblings and other sectors are unchanged, and the result is saved |
| `StockDashboard.Dashboard.DeleteSubIndustry` | stock_dashbaord/stock_dashboard.py:164-178 | accepted exactly when the industry is a grouping holding the chosen name. Only that sub-industry goes, its siblings are unchanged, and the result is saved |
| `StockDashboard.Dashboard.DeleteStock` | stock_dashbaord/stock_dashboard.py:182-198 | on a sub-industry list, accepted exactly when everything is chosen and the entry is truthy. The first equal entry is removed from that list alone, and the result is saved. A list without entries with equal comparison keys stays so |
| `StockDashboard.Dashboard.DeleteStockDirect` | stock_dashbaord/stock_dashboard.py:199-204 | on a leaf, accepted exactly when everything is chosen and the entry is truthy. The first equal entry is removed, and the result is saved. A list without entries with equal comparison keys stays so |
| `MainPage.SameDuplicateRuleOnBareLists` | main.py:104 | on lists of bare symbols, `not in` and the dashboard's clash test accept the same symbols |
| `MainPage.Dashboard.Load` | main.py:10-14 | the session starts from the stored document, or from an empty hierarchy when there is no file |
| `MainPage.Dashboard.SaveData` | main.py:16-18 | the stored document becomes the session hierarchy |
| `MainPage.Dashboard.SetIndustries` | main.py:59 | replacing one sector's industries changes only that sector and keeps keys distinct |
| `MainPage.Dashboard.SetSubs` | main.py:79 | replacing one industry's sub-industries changes only that industry |
| `MainPage.Dashboard.AddSector` | main.py:43-49 | accepted exactly when the name is non-empty and new. The sector is then appended with no industries and saved, every other sector is unchanged, and nothing is saved on refusal |
| `MainPage.Dashboard.AddIndustry` | main.py:57-63 | accepted exactly when the name is non-empty and new in the sector. An industry with no sub-industries is then appended, other sectors are untouched, and the result is saved |
| `MainPage.Dashboard.AddSubIndustry` | main.py:77-83 | with no shape check, accepted exactly when the name is non-empty and new in the industry. An empty list is then appended, only that industry changes, and the result is saved |
| `MainPage.Dashboard.AddStock` | main.py:99-109 | accepted exactly when the symbol is non-empty and not equal to any entry. It is then appended to that list alone and saved |
| `MainPage.PlaceNext` | main.py:124-125 | placing the next sector in column i mod 8 turns a correct layout of the first i sectors into one of the first i + 1 |
| `MainPage.EverySectorPlaced` | main.py:124-125 | in a correct layout, the sector at position i is in column i mod 8 at row i div 8, so every sector appears, in order within its column |
| `MainPage.Dashboard.DisplayColumns` | main.py:122-125 | the result is a correct layout of all sectors over 8 columns: column c holds n div 8 sectors, plus one when c < n mod 8, and its row j holds the sector at position 8j + c |

## Left out

- The Streamlit widgets, the success, warning and info messages, the CSS and
  the HTML markup. Only branch conditions and changes to the hierarchy are
  modelled.
- JSON file I/O. The content of `sectors.json` is a constructor parameter.
  Loading requires distinct keys, which `json.load` guarantees by keeping the
  last duplicate. `save_data` is a ghost assignment.
- The grid layout of the stock dashboard page (`math.ceil` rows and columns,
  stock_dashbaord/stock_dashboard.py:220-291). The nested listing inside each
  main-page column (main.py:126-158) is also left out; only the column each
  sector goes to is modelled.
- `price` and `change` are integers. JSON floats, and the decimal formatting
  Python gives them, are not modelled.
- The `str(stock_info)` fallback of the renderer, for entries that are neither
  strings nor objects, is not modelled. Stock entries have exactly the two
  shapes. Annotated fields of other JSON types, and extra keys, are also not
  modelled.
- Errors the Python code would raise under a select box that cannot produce
  them are excluded by preconditions: a missing key, or a value of the wrong
  JSON type.
- Dicts.Del: does not raise `KeyError` on an absent key; it returns the
  dictionary unchanged. The delete handlers test membership before every
  delete (stock_dashbaord/stock_dashboard.py:145, 158, 175), so the models of
  the handlers never reach that case.
- MainPage: industries always hold sub-industry dictionaries. A document
  holding direct stock lists, as written by the stock dashboard page, is
  outside this model. On it the main page's Add Sub-Industry and Add Stock
  fail at run time.
- Stock rating and flattening are not part of this code, so they are not
  modelled.
- `equity_research_template/equity_research_template.py` (PDF report drawing
  and file output) and `app.py` (page routing) are not part of this model.
