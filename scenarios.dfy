/** Client code that walks the page through its usual sessions; every
    assertion follows from the handlers' contracts and the definitions and
    lemmas of the functions they name. */
module Scenarios {
  import opened QuoteData
  import opened Selector
  import opened CategoryIndex
  import opened ServerSync
  import opened PageText
  import opened QuotePage

  /** Seed two quotes and add a third through the form. */
  method SeedAndAdd(choose: nat -> nat) returns (page: Page)
    requires IsIndexDraw(choose)
  {
    var x, y, z := Quote("Do X", "A"), Quote("Do Y", "B"), Quote("Do Z", "A");
    page := new Page(Some([x, y]), None, None, "");
    assert page.quotes == [x, y];
    assert page.categoryValue == AllCategories;

    page.textInput, page.categoryInput := "Do Z", "A";
    TrimKeepsTrimmed("Do Z");
    TrimKeepsTrimmed("A");
    var added := page.AddQuote(choose);
    assert added == Added(z);
    assert page.quotes == [x, y, z];
    assert page.textInput == "" && page.categoryInput == "";
  }

  /** With category "A" chosen, a filtered render shows only quotes of "A". */
  method FilterByCategory(page: Page, choose: nat -> nat)
    requires page.Valid() && IsIndexDraw(choose)
    requires page.quotes == [Quote("Do X", "A"), Quote("Do Y", "B"), Quote("Do Z", "A")]
    modifies page
  {
    page.categoryValue := "A";
    page.FilterQuotes(choose);
    assert page.selectedCategory == Some("A");
    assert Quote("Do X", "A") in Candidates(page.quotes, true, page.selectedCategory) by {
      assert page.quotes[0] == Quote("Do X", "A");
    }
    assert page.display.ShowsQuote? && page.display.quote.category == "A";
    assert page.display.quote in page.quotes;
  }

  /** Importing one quote of a new category lists that category. */
  method ImportNewCategory(page: Page, choose: nat -> nat)
    requires page.Valid() && IsIndexDraw(choose) && |page.quotes| == 3
    modifies page
  {
    var q := Quote("Imported Q", "C");
    var imported := page.ImportFromJsonFile(QuoteArray([q]), choose);
    assert |page.quotes| == 4;
    assert "C" in page.categoryOptions[1..] by {
      assert page.quotes[3] == q;
    }
  }

  /** A sync that fetched one record replaces everything with it. */
  method SyncOneRecord(page: Page, choose: nat -> nat)
    requires page.Valid() && IsIndexDraw(choose)
    modifies page
  {
    var synced := page.SyncQuotes(Fetched([ServerRecord("T1")]), choose);
    assert synced;
    assert page.quotes == [Quote("T1", "Synced")];
    assert page.syncStatus.value.text == "Quotes synced with server!";
  }

  /** A blank input is refused and changes nothing. */
  method BlankInputRejected(page: Page, choose: nat -> nat)
    requires page.Valid() && IsIndexDraw(choose)
    modifies page
  {
    var before := page.quotes;
    page.textInput, page.categoryInput := " \t", "Life";
    FormQuoteSpec(page.textInput, page.categoryInput);
    var outcome := page.AddQuote(choose);
    assert outcome == Rejected(AddAlert);
    assert page.quotes == before;
  }

  /** Importing what the export wrote doubles the collection, and the
      dropdown lists the same categories as before. */
  method ExportThenImport(page: Page, choose: nat -> nat)
    requires page.Valid() && IsIndexDraw(choose)
    modifies page
  {
    var before := page.quotes;
    var optionsBefore := page.categoryOptions;
    var _ := page.ImportFromJsonFile(QuoteArray(before), choose);
    assert page.quotes == before + before;
    CategoryOptionsAppendKnown(before, before);
    assert page.categoryOptions == optionsBefore;
  }

  /** A failed or empty fetch leaves the collection alone. */
  method FailedSyncKeepsQuotes(page: Page, choose: nat -> nat)
    requires page.Valid() && IsIndexDraw(choose)
    modifies page
  {
    var before := page.quotes;
    var synced := page.SyncQuotes(FetchFailed, choose);
    assert !synced && page.quotes == before;
    assert page.syncStatus == Some(StatusMessage(FetchFailedMessage, Red));
    synced := page.SyncQuotes(Fetched([]), choose);
    assert !synced && page.quotes == before;
  }
}
