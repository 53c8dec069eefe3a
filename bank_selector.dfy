/**
 * The bank dropdown: free-text search over the bank directory, the selected-bank
 * lookup, and the open/closed state of the dropdown.
 */
module BankSelector {
  import opened Wrappers
  import opened JsString
  import SeqOps
  import opened Constants

  /** The search predicate: the lower-cased query occurs in the lower-cased name,
      address, SWIFT code or IBAN, or the query as typed occurs in the routing number. */
  predicate MatchesQuery(bank: Bank, query: string) {
    var q := Lower(query);
    || Includes(Lower(bank.name), q)
    || Includes(Lower(bank.address), q)
    || Includes(Lower(bank.swift), q)
    || Includes(bank.ach.routing, query)
    || Includes(Lower(bank.iban), q)
  }

  /** `filteredBanks`: the banks that match the query, in directory order. */
  function FilteredBanks(query: string): (r: seq<Bank>)
    ensures SeqOps.IsSubsequence(r, MockBanks)
    ensures forall i :: 0 <= i < |r| ==> r[i] in MockBanks && MatchesQuery(r[i], query)
    ensures forall b :: b in MockBanks ==> (b in r <==> MatchesQuery(b, query))
    ensures (forall b :: b in MockBanks ==> !MatchesQuery(b, query)) ==> r == []
  {
    SeqOps.Filter(MockBanks, (b: Bank) => MatchesQuery(b, query))
  }

  /** An empty query keeps the whole directory, in order. */
  lemma EmptyQueryKeepsAll()
    ensures FilteredBanks("") == MockBanks
  {
    forall i | 0 <= i < |MockBanks| ensures MatchesQuery(MockBanks[i], "") {
      IncludesEmpty(Lower(MockBanks[i].name));
    }
  }

  /** The dropdown's own state: whether the bank list is showing and the text in its
      search box. The selected bank id belongs to the parent form. */
  class BankDropdown {
    var isOpen: bool
    var searchQuery: string

    constructor ()
      ensures !isOpen && searchQuery == ""
    {
      isOpen := false;
      searchQuery := "";
    }

    /** Clicking the trigger button flips the dropdown open or closed. */
    method ClickTrigger()
      modifies this
      ensures isOpen == !old(isOpen) && searchQuery == old(searchQuery)
    {
      isOpen := !isOpen;
    }

    /** A mouse-down anywhere on the page closes the dropdown when it lands outside it. */
    method MouseDown(insideDropdown: bool)
      modifies this
      ensures isOpen == (old(isOpen) && insideDropdown) && searchQuery == old(searchQuery)
    {
      if !insideDropdown {
        isOpen := false;
      }
    }

    /** Typing in the search box replaces the query. */
    method ChangeSearch(query: string)
      modifies this
      ensures searchQuery == query && isOpen == old(isOpen)
    {
      searchQuery := query;
    }

    /** Clicking the card of a listed bank reports that bank's id to the form and
        closes the dropdown; the query is kept. Looking the reported id up finds the
        very bank that was clicked. */
    method ClickCard(bank: Bank) returns (bankId: string)
      requires isOpen && bank in FilteredBanks(searchQuery)
      modifies this
      ensures bankId == bank.id && FindBank(bankId) == Some(bank)
      ensures !isOpen && searchQuery == old(searchQuery)
    {
      FindBankById(bank);
      bankId := bank.id;
      isOpen := false;
    }
  }
}
