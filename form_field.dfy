/**
 * The form field's searchable select: the label search over the option list, the
 * lookup of the option for the current value, and the handler that picks an option.
 */
module FormField {
  import opened Wrappers
  import opened JsString
  import SeqOps
  import opened Constants

  /** An option is shown when its lower-cased label contains the lower-cased query. */
  predicate LabelMatches(option: SelectOption, searchQuery: string) {
    Includes(Lower(option.labelText), Lower(searchQuery))
  }

  /** `options?.filter(...)`: `undefined` without options, otherwise the options whose
      label matches the query, in their original order. */
  function FilteredOptions(options: Option<seq<SelectOption>>, searchQuery: string): (r: Option<seq<SelectOption>>)
    ensures r.Some? <==> options.Some?
    ensures r.Some? ==> SeqOps.IsSubsequence(r.value, options.value)
    ensures r.Some? ==> forall o :: o in r.value ==> o in options.value && LabelMatches(o, searchQuery)
    ensures r.Some? ==> forall o :: o in options.value ==> (o in r.value <==> LabelMatches(o, searchQuery))
    ensures r.Some? ==> forall o :: multiset(r.value)[o] == if LabelMatches(o, searchQuery) then multiset(options.value)[o] else 0
  {
    match options
    case None => None
    case Some(opts) =>
      var keep := (o: SelectOption) => LabelMatches(o, searchQuery);
      SeqOps.FilterCounts(opts, keep);
      Some(SeqOps.Filter(opts, keep))
  }

  /** An empty search shows every option, in order. */
  lemma EmptySearchKeepsAll(options: Option<seq<SelectOption>>)
    ensures FilteredOptions(options, "") == options
  {
    if options.Some? {
      forall i | 0 <= i < |options.value| ensures LabelMatches(options.value[i], "") {
        IncludesEmpty(Lower(options.value[i].labelText));
      }
    }
  }

  /** `options?.find(option => option.value === value)`: the first option carrying the
      value, `undefined` when there are no options or none carries it. */
  function SelectedOption(options: Option<seq<SelectOption>>, value: string): (r: Option<SelectOption>)
    ensures options.None? ==> r.None?
    ensures options.Some? ==> (r.None? <==> forall o :: o in options.value ==> o.value != value)
    ensures r.Some? ==> r.value.value == value
    ensures r.Some? ==> exists i :: (0 <= i < |options.value| && options.value[i] == r.value
      && forall j :: 0 <= j < i ==> options.value[j].value != value)
  {
    match options
    case None => None
    case Some(opts) => SeqOps.FindFirst(opts, (o: SelectOption) => o.value == value)
  }

  /** Once an option's value is the field's value, the trigger shows an option with that
      value: the first one, which is the chosen option itself when values are unique. */
  lemma ChosenOptionIsSelected(options: seq<SelectOption>, chosen: SelectOption)
    requires chosen in options
    ensures SelectedOption(Some(options), chosen.value).Some?
    ensures SelectedOption(Some(options), chosen.value).value.value == chosen.value
  {
  }

  /** The synthetic change event `handleSelectOption` passes to `onChange`. */
  datatype ChangeEvent = ChangeEvent(name: string, value: string)

  /** The state of a searchable select: whether its list is open and its search text. */
  class SearchableSelect {
    const name: string
    var isOpen: bool
    var searchQuery: string

    constructor (name: string)
      ensures this.name == name && !isOpen && searchQuery == ""
    {
      this.name := name;
      isOpen := false;
      searchQuery := "";
    }

    /** Clicking the trigger flips the list open or closed. */
    method ClickTrigger()
      modifies this
      ensures isOpen == !old(isOpen) && searchQuery == old(searchQuery)
    {
      isOpen := !isOpen;
    }

    /** A mouse-down anywhere on the page closes the list when it lands outside it. */
    method MouseDown(insideDropdown: bool)
      modifies this
      ensures isOpen == (old(isOpen) && insideDropdown) && searchQuery == old(searchQuery)
    {
      if !insideDropdown {
        isOpen := false;
      }
    }

    /** Typing in the search box replaces the query. */
    method ChangeSearch(query: string)
      modifies this
      ensures searchQuery == query && isOpen == old(isOpen)
    {
      searchQuery := query;
    }

    /** `handleSelectOption`: reports the field's name with the option's value, closes
        the list and clears the search. */
    method HandleSelectOption(optionValue: string) returns (change: ChangeEvent)
      modifies this
      ensures change.name == name && change.value == optionValue
      ensures !isOpen && searchQuery == ""
    {
      change := ChangeEvent(name, optionValue);
      isOpen := false;
      searchQuery := "";
    }
  }
}
