# Quote manager page: a verified model

A Dafny model of the page script `dom-manipulation/script.js`, a "dynamic
quote generator". The page keeps a global list of quotes (text and
category). It shows a random quote, optionally only from the category
chosen in a dropdown. It adds quotes from a two-field form and imports them
from a JSON file. It rebuilds the category dropdown after every change. Every
30 seconds it replaces the whole list with the first five posts of a remote
endpoint ("server wins").

The model has six modules:

- `QuoteData` (`quote_data.dfy`): the `Quote` record and JavaScript
  truthiness of a stored value (`IsSet`, where a missing key and `""` are
  both falsy). It also holds `String.prototype.trim` over the ECMAScript
  whitespace and line-terminator characters, and the add form's check
  (`FormQuote`).
- `Selector` (`selector.dfy`): the candidate list of `showRandomQuote` and
  the choice of one candidate. `Math.floor(Math.random() * n)` is modelled
  on a real `random` in [0, 1) (`RandomIndex`). The page class takes the
  draw as a function `choose` from list length to index; `IsIndexDraw`
  requires that index to be below the length.
- `CategoryIndex` (`category_index.dfy`): `[...new Set(...)]` as
  `Distinct`, the option list of the dropdown, and the rule that restores
  its value.
- `ServerSync` (`server_sync.dfy`): what `fetchQuotesFromServer` resolves
  to, given how the request ended.
- `PageText` and `QuotePage` (`quote_page.dfy`):
  - `PageText` holds the page's fixed texts and default quotes.
  - `QuotePage.Page` is a class holding the global `quotes`, the local and
    session storage entries, the dropdown, the form inputs, the quote
    display and the sync status.
  - Each handler of the script is a method that changes only the fields it
    names. The invariant `Valid()` says that storage is either still empty
    or holds the current collection, and that the dropdown lists exactly the
    collection's categories. Storage stays empty on a first visit, because
    the default quotes are not written back. The constructor establishes
    `Valid()`, and `AddQuote`, `ImportFromJsonFile`, `SyncQuotes` and
    `FilterQuotes` keep it.
- `Scenarios` (`scenarios.dfy`): client code that walks the page through
  several sessions. Its assertions follow from the handlers' contracts and
  from the definitions and lemmas of the functions those contracts name. The sessions are:
  - seed two quotes, then add one;
  - filter by a category;
  - import a quote of a new category;
  - sync one server record;
  - reject a blank input;
  - re-import an export;
  - a failed or empty sync.

Storage entries are `Option` fields: `None` is a missing key. An imported
file is given as what `JSON.parse` made of it: `Unparsable`, `NotAnArray` or
`QuoteArray(entries)`. The outcome of a fetch is given as `FetchFailed` or
`Fetched(records)`.

## Model

| member | source | states |
|---|---|---|
| QuoteData.TrimStartSpec | dom-manipulation/script.js:40-41 | the leading part `trim` drops is all whitespace, what it keeps is a suffix of the input, and that suffix does not start with whitespace |
| QuoteData.TrimEndSpec | dom-manipulation/script.js:40-41 | the trailing part `trim` drops is all whitespace, what it keeps is a prefix, and that prefix does not end with whitespace |
| QuoteData.TrimSpec | dom-manipulation/script.js:40-41 | a trimmed value has no whitespace at either end, and it is empty exactly when the input is all whitespace |
| QuoteData.TrimSlice | dom-manipulation/script.js:40-41 | the trimmed value is a contiguous slice of the input, with only whitespace on both sides of it |
| QuoteData.TrimKeepsTrimmed | dom-manipulation/script.js:40-41 | a value with no whitespace at either end is left unchanged by `trim` |
| QuoteData.TrimIdempotent | dom-manipulation/script.js:40-41 | trimming twice gives the same result as trimming once |
| QuoteData.FormQuoteSpec | dom-manipulation/script.js:40-44 | the form yields a quote exactly when neither input is all whitespace; that quote holds the two trimmed inputs, both non-empty with no whitespace at either end |
| QuoteData.FormQuoteIdempotent | dom-manipulation/script.js:40-44 | typing the fields of an accepted quote into the form again yields the same quote |
| Selector.InCategory | dom-manipulation/script.js:23 | the filter keeps exactly the quotes of the category, each as many times as it occurs in the collection, and nothing else |
| Selector.Candidates | dom-manipulation/script.js:20-24 | with filtering asked for and a stored category that is set and is not "all", a quote is a candidate exactly when it is in the collection with that category; otherwise the candidates are the whole collection |
| Selector.RandomIndex | dom-manipulation/script.js:31 | `Math.floor(random * n)` with `random` in [0, 1) is an index below `n` |
| Selector.RandomIndexInterval | dom-manipulation/script.js:31 | index `i` is drawn exactly when `random` lies in [i/n, (i+1)/n), so every index gets an interval of the same width |
| Selector.RandomIndexIsDraw | dom-manipulation/script.js:31 | the script's draw with any `random` in [0, 1) is an index draw, which is what the page methods require |
| Selector.Pick | dom-manipulation/script.js:26-32 | an empty candidate list gives "No quotes found." and nothing is drawn; otherwise the index drawn for the list's length lies within it, and the quote picked is the candidate at that index |
| CategoryIndex.FirstIndex | dom-manipulation/script.js:112 | the position where a value first occurs in a list |
| CategoryIndex.Distinct | dom-manipulation/script.js:112 | the de-duplicated list has no repeats and holds exactly the values of the input |
| CategoryIndex.FirstIndexExtend | dom-manipulation/script.js:112 | appending to a list does not move the first occurrence of a value already in it |
| CategoryIndex.DistinctFirstAppearanceOrder | dom-manipulation/script.js:112 | the de-duplicated values come in the order in which each first appears |
| CategoryIndex.CategoriesOf | dom-manipulation/script.js:112 | one category per quote, in the order of the quotes |
| CategoryIndex.CategoryOptions | dom-manipulation/script.js:110-118 | the dropdown starts with "all", then lists each category of the collection exactly once, and no other value |
| CategoryIndex.CategoryOptionsOrder | dom-manipulation/script.js:110-118 | after the leading "all", the options come in the order in which their categories first appear in the collection |
| CategoryIndex.DistinctAppendKnown | dom-manipulation/script.js:112 | appending values that already occur leaves the de-duplicated list as it was |
| CategoryIndex.CategoryOptionsAppendKnown | dom-manipulation/script.js:110-118 | adding quotes whose categories are all already listed leaves the dropdown's options unchanged |
| CategoryIndex.RestoreSelection | dom-manipulation/script.js:120-122 | the dropdown shows the stored category when it is set, else its previous value when that is non-empty, else "all"; it is never empty |
| ServerSync.ToSyncedQuotes | dom-manipulation/script.js:155-158 | each record becomes one quote, with the record's title as its text and "Synced" as its category, in the same order |
| ServerSync.MapServerRecords | dom-manipulation/script.js:155-158 | the result has min(n, 5) quotes, and quote i has the title of record i as its text and "Synced" as its category |
| ServerSync.FetchQuotes | dom-manipulation/script.js:151-164 | a failed request gives the empty list; a successful one gives min(n, 5) quotes, none exactly when the server sent none; quote i has the title of record i, and all are in "Synced" |
| QuotePage.Page.constructor | dom-manipulation/script.js:197-201 | at start-up the stored collection is used if there is one, else the two default quotes; the dropdown lists the collection's categories with the value restored; the last viewed quote, if any, is shown |
| QuotePage.Page.LoadQuotes | dom-manipulation/script.js:3-13 | the collection is the stored one if present, else the two default quotes; storage stays in step with the collection |
| QuotePage.Page.SaveQuotes | dom-manipulation/script.js:15-17 | storage then holds the current collection |
| QuotePage.Page.ShowRandomQuote | dom-manipulation/script.js:19-37 | the outcome is the pick from the candidate list; a picked quote is displayed and becomes the last viewed quote; otherwise "No quotes found." is displayed and the last viewed quote is unchanged |
| QuotePage.Page.CommitQuotes | dom-manipulation/script.js:44-47 | a change of the collection is saved, the dropdown is rebuilt with its value restored, and a filtered quote is shown |
| QuotePage.Page.AddQuote | dom-manipulation/script.js:39-54 | with both trimmed inputs non-empty, the collection gains exactly that quote at its end, which is saved, listed, shown and posted, and the inputs are cleared; otherwise only the alert is given and nothing changes |
| QuotePage.Page.ImportFromJsonFile | dom-manipulation/script.js:88-105 | a parsed list is appended as given, with no de-duplication or field checks, then saved, listed and shown with the success alert; a value that is not a list changes nothing; text that does not parse gives the error alert and changes nothing |
| QuotePage.Page.PopulateCategories | dom-manipulation/script.js:107-123 | the dropdown lists exactly the options of the current collection, and its value is restored by the selection rule; nothing about storage is needed |
| QuotePage.Page.FilterQuotes | dom-manipulation/script.js:125-129 | the dropdown's value becomes the stored category, and a quote is shown through the filter |
| QuotePage.Page.ShowLastViewedQuote | dom-manipulation/script.js:131-138 | the session's last quote, if any, is shown again; otherwise the display is untouched |
| QuotePage.Page.SyncQuotes | dom-manipulation/script.js:183-192 | the collection is replaced exactly when the server sent quotes; it then equals them whatever it held before, is saved, listed and shown, with the synced message in green; otherwise the collection is unchanged, and only a failed request shows its message in red |
| QuotePage.Page.ShowSyncMessage | dom-manipulation/script.js:143-148 | the status region shows the message in the given colour |

## Left out

- Rendering: `innerHTML` markup, `alert`, the form built by `createAddQuoteForm` and the click-handler wiring. The display is a `Display` value, and alerts are returned as outcome values.
- `exportToJson`: it only serialises the collection into a downloaded Blob. Re-importing what it wrote is modelled by `Scenarios.ExportThenImport`.
- `JSON.parse` and `JSON.stringify`: storage holds quote values directly, and an import is given as its parse result.
- Entries of an imported list that are not quotes: a `null` entry would make `populateCategories` throw inside the `try`. Then "Invalid JSON file." would be shown after the entries had already been appended and saved. The model admits only quote entries.
- Storage and push failures: `localStorage.setItem` can throw (quota exceeded, storage disabled) at script.js:16. Inside the import's `try` that shows "Invalid JSON file." after the push has already changed `quotes`. `quotes.push(...importedQuotes)` throws a RangeError for a very large array, which shows the same alert with nothing changed. The model treats both calls as always succeeding.
- A stored "quotes" value that does not parse: `loadQuotes` does not handle it, and the model treats stored values as already parsed.
- Records whose `title` is not a string: a record is modelled by its title string.
- `postQuoteToServer`: it is network output whose result the page ignores. The quote it posts is returned in `Added(posted)`.
- `fetch` and `res.json()`: the way the request ended is an argument of `SyncQuotes`.
- The `setTimeout` that clears the sync status after five seconds: timers are not modelled.
- `setInterval` and syncs that overlap in time: each sync is one atomic step.
- The distribution of `Math.random`: the page methods take the draw as a function `choose`. `RandomIndex` and `RandomIndexInterval` relate that draw to the script's floating-point expression over exact reals; floating-point rounding is not modelled.
- What a browser does when the dropdown is set to a value that is not among its options: the model keeps the value as it was set.
- `console.log` and `console.error` output.
