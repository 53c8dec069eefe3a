/**
 * The advanced bank search: a structured filter over the bank directory by routing
 * number, country and state, the filter inputs' change handler, and the two callbacks
 * run when a result is chosen.
 */
module AdvancedBankSearch {
  import opened Wrappers
  import opened JsString
  import SeqOps
  import opened Constants

  /** The `filters` state: filter name to the text typed or chosen. The change handler
      writes whatever name the input carries, so this is a map rather than a record. */
  type Filters = map<string, string>

  /** The filters the search starts with: all three empty. */
  const InitialFilters: Filters := map["country" := "", "state" := "", "routingNumber" := ""]

  /** `filters[name]`, with a missing entry read as the empty string (both are falsy). */
  function Get(filters: Filters, name: string): string {
    if name in filters then filters[name] else ""
  }

  /** No routing filter, or the bank's routing number contains it (case-sensitive). */
  predicate MatchesRouting(bank: Bank, filters: Filters) {
    Get(filters, "routingNumber") == "" || Includes(bank.ach.routing, Get(filters, "routingNumber"))
  }

  /** No country filter, or the country filter is "US": every directory bank is taken
      to be in the United States, so this test does not look at the bank. */
  predicate MatchesCountry(filters: Filters) {
    Get(filters, "country") == "" || Get(filters, "country") == "US"
  }

  /** No state filter, or the bank's address contains it (case-sensitive). */
  predicate MatchesState(bank: Bank, filters: Filters) {
    Get(filters, "state") == "" || Includes(bank.address, Get(filters, "state"))
  }

  /** `filteredBanks`: the directory banks that pass all three tests, in directory order. */
  function FilteredBanks(filters: Filters): (r: seq<Bank>)
    ensures SeqOps.IsSubsequence(r, MockBanks)
    ensures forall b :: b in r ==> b in MockBanks
    ensures forall b :: b in MockBanks ==>
      (b in r <==> MatchesRouting(b, filters) && MatchesCountry(filters) && MatchesState(b, filters))
  {
    SeqOps.Filter(MockBanks, (b: Bank) => MatchesRouting(b, filters) && MatchesCountry(filters) && MatchesState(b, filters))
  }

  /** With all three filters empty, the whole directory is listed, in order. */
  lemma NoFiltersKeepsAll(filters: Filters)
    requires Get(filters, "routingNumber") == "" && Get(filters, "country") == "" && Get(filters, "state") == ""
    ensures FilteredBanks(filters) == MockBanks
  {
  }

  /** Any country other than "US" lists nothing, whatever the other filters say. */
  lemma OtherCountryFindsNothing(filters: Filters)
    requires Get(filters, "country") != "" && Get(filters, "country") != "US"
    ensures FilteredBanks(filters) == []
  {
  }

  /** A routing filter holding a bank's full routing number keeps that bank, as long as
      the country and state filters let it through. */
  lemma FullRoutingNumberKeepsBank(b: Bank, filters: Filters)
    requires b in MockBanks && Get(filters, "routingNumber") == b.ach.routing
    requires MatchesCountry(filters) && MatchesState(b, filters)
    ensures b in FilteredBanks(filters)
  {
    assert MatchesAt(b.ach.routing, b.ach.routing, 0);
  }

  /** The callbacks the component receives from its parent. */
  datatype Callback = SelectBank(bankId: string) | Close

  /** `handleBankSelect`: reports the bank id, then asks to be closed. */
  function HandleBankSelect(bankId: string): (calls: seq<Callback>)
    ensures |calls| == 2 && calls[0].SelectBank? && calls[0].bankId == bankId && calls[1].Close?
  {
    [SelectBank(bankId), Close]
  }

  /** The state of an open advanced search. */
  class Search {
    var filters: Filters

    constructor ()
      ensures filters == InitialFilters
    {
      filters := InitialFilters;
    }

    /** `handleFilterChange`: replaces the filter the input is named after and keeps the
        others. */
    method HandleFilterChange(name: string, value: string)
      modifies this
      ensures filters == old(filters)[name := value]
      ensures forall other :: other != name ==> Get(filters, other) == Get(old(filters), other)
    {
      filters := filters[name := value];
    }

    /** Clicking a result: the parent is told that result's id, which looks up that very
        bank, and is then asked to close the search. */
    method ClickResult(bank: Bank) returns (calls: seq<Callback>)
      requires bank in FilteredBanks(filters)
      ensures calls == HandleBankSelect(bank.id)
      ensures FindBank(calls[0].bankId) == Some(bank)
    {
      FindBankById(bank);
      calls := HandleBankSelect(bank.id);
    }
  }
}
