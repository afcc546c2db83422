/** The fixed texts of the page script. */
module PageText {
  import opened QuoteData

  const DefaultQuotes: seq<Quote> := [
    Quote("The best way to get started is to quit talking and begin doing.", "Motivation"),
    Quote("Life is what happens when you're busy making other plans.", "Life")
  ]

  const AddAlert: string := "Please enter both a quote and a category."
  const ImportedAlert: string := "Quotes imported successfully!"
  const InvalidJsonAlert: string := "Invalid JSON file."
  const SyncedMessage: string := "Quotes synced with server!"
  const FetchFailedMessage: string := "Failed to fetch from server"
}

/** The page's state and its event handlers: the global `quotes` list, the
    values kept in local and session storage, and the parts of the page the
    handlers read and write. */
module QuotePage {
  import opened QuoteData
  import opened Selector
  import opened CategoryIndex
  import opened ServerSync
  import opened PageText

  /** What the quote display region holds. */
  datatype Display = InitialMarkup | NoQuotesMessage | ShowsQuote(quote: Quote)

  datatype Color = Green | Red

  /** The text and colour of the sync status region. */
  datatype StatusMessage = StatusMessage(text: string, color: Color)

  /** The result of the add button: the quote that is also posted to the
      server, or the alert shown instead. */
  datatype AddOutcome = Added(posted: Quote) | Rejected(alert: string)

  /** What `JSON.parse` makes of an imported file's text. */
  datatype ImportFile = Unparsable | NotAnArray | QuoteArray(entries: seq<Quote>)

  /** The result of an import: success alert, silently nothing, or error alert. */
  datatype ImportOutcome = Imported(alert: string) | Ignored | InvalidJson(alert: string)

  class Page {
    /** The global `quotes` array. */
    var quotes: seq<Quote>
    /** localStorage "quotes"; `None` when the key is missing. */
    var storedQuotes: Option<seq<Quote>>
    /** localStorage "selectedCategory". */
    var selectedCategory: Option<string>
    /** sessionStorage "lastQuote". */
    var lastQuote: Option<Quote>
    /** The option values and the current value of the #categoryFilter dropdown. */
    var categoryOptions: seq<string>
    var categoryValue: string
    /** The #newQuoteText and #newQuoteCategory inputs. */
    var textInput: string
    var categoryInput: string
    /** The #quoteDisplay and #syncStatus regions. */
    var display: Display
    var syncStatus: Option<StatusMessage>

    /** Durable storage never holds a collection other than the current one:
        it is either still empty or was written after the last change. */
    ghost predicate Persisted()
      reads this`storedQuotes, this`quotes
    {
      storedQuotes.None? || storedQuotes == Some(quotes)
    }

    /** Once the page has started: storage is in step with `quotes`, and the
        dropdown lists exactly the categories of `quotes`. */
    ghost predicate Valid()
      reads this`storedQuotes, this`quotes, this`categoryOptions
    {
      Persisted() && categoryOptions == CategoryOptions(quotes)
    }

    /** The display and `lastQuote` after `showRandomQuote(filtered)` with the
        index draw `choose`, where `lastBefore` was the session's last quote before. */
    ghost predicate Rendered(filtered: bool, choose: nat -> nat, lastBefore: Option<Quote>)
      requires IsIndexDraw(choose)
      reads this`quotes, this`selectedCategory, this`display, this`lastQuote
    {
      match Pick(Candidates(quotes, filtered, selectedCategory), choose)
      case NoQuotesFound => display == NoQuotesMessage && lastQuote == lastBefore
      case Picked(_, q) => display == ShowsQuote(q) && lastQuote == Some(q)
    }

    /** The page script's start: `quotes` is empty, then `loadQuotes`,
        `populateCategories` and `showLastViewedQuote` run. The arguments are
        what the storages hold from earlier visits and the dropdown's value in
        the page markup. */
    constructor (stored: Option<seq<Quote>>, selected: Option<string>, last: Option<Quote>,
                 initialCategoryValue: string)
      ensures Valid()
      ensures quotes == if stored.Some? then stored.value else DefaultQuotes
      ensures storedQuotes == stored && selectedCategory == selected && lastQuote == last
      ensures categoryValue == RestoreSelection(selected, initialCategoryValue)
      ensures display == if last.Some? then ShowsQuote(last.value) else InitialMarkup
      ensures textInput == "" && categoryInput == "" && syncStatus == None
    {
      quotes := [];
      storedQuotes, selectedCategory, lastQuote := stored, selected, last;
      categoryOptions, categoryValue := [], initialCategoryValue;
      textInput, categoryInput := "", "";
      display, syncStatus := InitialMarkup, None;
      new;
      LoadQuotes();
      PopulateCategories();
      ShowLastViewedQuote();
    }

    /** `loadQuotes`: the stored collection if there is one, else the two
        default quotes (which are not written back). */
    method LoadQuotes()
      modifies this`quotes
      ensures quotes == if storedQuotes.Some? then storedQuotes.value else DefaultQuotes
      ensures Persisted()
    {
      if storedQuotes.Some? {
        quotes := storedQuotes.value;
      } else {
        quotes := DefaultQuotes;
      }
    }

    /** `saveQuotes`. */
    method SaveQuotes()
      modifies this`storedQuotes
      ensures storedQuotes == Some(quotes)
    {
      storedQuotes := Some(quotes);
    }

    /** `showRandomQuote(filtered)`; `choose(n)` is the index
        `Math.floor(Math.random() * n)` the script draws for `n` candidates
        (see `RandomIndex`), and nothing is drawn when there are none. */
    method ShowRandomQuote(filtered: bool, choose: nat -> nat) returns (outcome: PickOutcome)
      requires IsIndexDraw(choose)
      modifies this`display, this`lastQuote
      ensures outcome == Pick(Candidates(quotes, filtered, selectedCategory), choose)
      ensures Rendered(filtered, choose, old(lastQuote))
    {
      var candidates := Candidates(quotes, filtered, selectedCategory);
      outcome := Pick(candidates, choose);
      if outcome.Picked? {
        display := ShowsQuote(outcome.quote);
        lastQuote := Some(outcome.quote);
      } else {
        display := NoQuotesMessage;
      }
    }

    /** What every change of the collection does: the new collection becomes
        `quotes`, then `saveQuotes`, `populateCategories` and
        `showRandomQuote(true)` run. */
    method CommitQuotes(newQuotes: seq<Quote>, choose: nat -> nat)
      requires IsIndexDraw(choose)
      modifies this`quotes, this`storedQuotes, this`categoryOptions, this`categoryValue,
               this`display, this`lastQuote
      ensures Valid()
      ensures quotes == newQuotes && storedQuotes == Some(newQuotes)
      ensures categoryValue == RestoreSelection(selectedCategory, old(categoryValue))
      ensures Rendered(true, choose, old(lastQuote))
    {
      quotes := newQuotes;
      SaveQuotes();
      PopulateCategories();
      var _ := ShowRandomQuote(true, choose);
    }

    /** `addQuote`: a quote whose trimmed fields are both non-empty is appended,
        saved, listed in the dropdown, shown through the filter and posted; the
        inputs are cleared. Otherwise the page only alerts. */
    method AddQuote(choose: nat -> nat) returns (outcome: AddOutcome)
      requires Valid() && IsIndexDraw(choose)
      modifies this`quotes, this`storedQuotes, this`categoryOptions, this`categoryValue,
               this`display, this`lastQuote, this`textInput, this`categoryInput
      ensures Valid()
      ensures outcome == match FormQuote(old(textInput), old(categoryInput))
                         case Some(q) => Added(q)
                         case None => Rejected(AddAlert)
      ensures outcome.Rejected? ==>
        && quotes == old(quotes) && storedQuotes == old(storedQuotes)
        && categoryOptions == old(categoryOptions) && categoryValue == old(categoryValue)
        && display == old(display) && lastQuote == old(lastQuote)
        && textInput == old(textInput) && categoryInput == old(categoryInput)
      ensures outcome.Added? ==>
        && quotes == old(quotes) + [outcome.posted]
        && storedQuotes == Some(quotes)
        && categoryValue == RestoreSelection(selectedCategory, old(categoryValue))
        && Rendered(true, choose, old(lastQuote))
        && textInput == "" && categoryInput == ""
    {
      var form := FormQuote(textInput, categoryInput);
      if form.Some? {
        CommitQuotes(quotes + [form.value], choose);
        textInput, categoryInput := "", "";
        outcome := Added(form.value);
      } else {
        outcome := Rejected(AddAlert);
      }
    }

    /** The load handler of `importFromJsonFile`: a parsed list is appended as
        it is (no de-duplication, no field checks), then saved, listed and
        shown; a value that is not a list changes nothing; text that does not
        parse only alerts. */
    method ImportFromJsonFile(file: ImportFile, choose: nat -> nat) returns (outcome: ImportOutcome)
      requires Valid() && IsIndexDraw(choose)
      modifies this`quotes, this`storedQuotes, this`categoryOptions, this`categoryValue,
               this`display, this`lastQuote
      ensures Valid()
      ensures file.QuoteArray? ==>
        && outcome == Imported(ImportedAlert)
        && quotes == old(quotes) + file.entries
        && storedQuotes == Some(quotes)
        && categoryValue == RestoreSelection(selectedCategory, old(categoryValue))
        && Rendered(true, choose, old(lastQuote))
      ensures file.NotAnArray? ==> outcome == Ignored && unchanged(this)
      ensures file.Unparsable? ==> outcome == InvalidJson(InvalidJsonAlert) && unchanged(this)
    {
      match file
      case QuoteArray(entries) =>
        CommitQuotes(quotes + entries, choose);
        outcome := Imported(ImportedAlert);
      case NotAnArray =>
        outcome := Ignored;
      case Unparsable =>
        outcome := InvalidJson(InvalidJsonAlert);
    }

    /** `populateCategories`: the dropdown is rebuilt from the current
        collection and its value restored. */
    method PopulateCategories()
      modifies this`categoryOptions, this`categoryValue
      ensures categoryOptions == CategoryOptions(quotes)
      ensures categoryValue == RestoreSelection(selectedCategory, old(categoryValue))
    {
      var current := categoryValue;
      categoryOptions := CategoryOptions(quotes);
      categoryValue := RestoreSelection(selectedCategory, current);
    }

    /** `filterQuotes`: the dropdown's value becomes the stored category and a
        filtered quote is shown. */
    method FilterQuotes(choose: nat -> nat)
      requires Valid() && IsIndexDraw(choose)
      modifies this`selectedCategory, this`display, this`lastQuote
      ensures Valid()
      ensures selectedCategory == Some(categoryValue)
      ensures Rendered(true, choose, old(lastQuote))
    {
      selectedCategory := Some(categoryValue);
      var _ := ShowRandomQuote(true, choose);
    }

    /** `showLastViewedQuote`: the session's last quote, if any, is shown again
        without drawing a new one. */
    method ShowLastViewedQuote()
      modifies this`display
      ensures display == if lastQuote.Some? then ShowsQuote(lastQuote.value) else old(display)
    {
      if lastQuote.Some? {
        display := ShowsQuote(lastQuote.value);
      }
    }

    /** `syncQuotes`, given how the fetch ended: a non-empty server list
        replaces the whole collection ("server wins"), which is saved, listed,
        shown and reported; otherwise the collection stays as it was, and only a
        failed fetch writes its status message. */
    method SyncQuotes(fetched: FetchResult, choose: nat -> nat) returns (synced: bool)
      requires Valid() && IsIndexDraw(choose)
      modifies this`quotes, this`storedQuotes, this`categoryOptions, this`categoryValue,
               this`display, this`lastQuote, this`syncStatus
      ensures Valid()
      ensures synced <==> FetchQuotes(fetched) != []
      ensures synced ==>
        && quotes == FetchQuotes(fetched)
        && storedQuotes == Some(quotes)
        && categoryValue == RestoreSelection(selectedCategory, old(categoryValue))
        && Rendered(true, choose, old(lastQuote))
        && syncStatus == Some(StatusMessage(SyncedMessage, Green))
      ensures !synced ==>
        && quotes == old(quotes) && storedQuotes == old(storedQuotes)
        && categoryOptions == old(categoryOptions) && categoryValue == old(categoryValue)
        && display == old(display) && lastQuote == old(lastQuote)
        && syncStatus == if fetched.FetchFailed?
                         then Some(StatusMessage(FetchFailedMessage, Red)) else old(syncStatus)
    {
      var serverQuotes := FetchQuotes(fetched);
      synced := |serverQuotes| > 0;
      // a failed fetch reports itself and yields no quotes, so at most one of
      // the two messages is shown
      if synced {
        CommitQuotes(serverQuotes, choose);
        ShowSyncMessage(SyncedMessage, Green);
      } else if fetched.FetchFailed? {
        ShowSyncMessage(FetchFailedMessage, Red);
      }
    }

    /** `showSyncMessage`; the timer that clears it again is not modelled. */
    method ShowSyncMessage(message: string, color: Color)
      modifies this`syncStatus
      ensures syncStatus == Some(StatusMessage(message, color))
    {
      syncStatus := Some(StatusMessage(message, color));
    }
  }
}
