/** The city search box: what each handler does to the query, the
    suggestion list and the two visibility flags, and when the debounced
    query may fetch suggestions. The parent's callbacks are recorded as
    logs of the calls made; the suggestion fetch's outcome is an input. */
module CitySearch {
  import opened Common
  import opened Http
  import CitySearchRoute

  type Suggestion = CitySearchRoute.Suggestion

  /** The debounced query fetches only when it is at least two UTF-16 units
      long once trimmed and no city has just been chosen. */
  predicate MayFetch(debounced: string, citySelected: bool) {
    Utf16Length(Trim(debounced)) >= 2 && !citySelected
  }

  class SearchBox {
    var query: string
    var suggestions: seq<Suggestion>
    var isSearching: bool
    var showSuggestions: bool
    var citySelected: bool
    /** Arguments of the calls made to `onChange`, `onSearch` and
        `onCitySelect`, oldest first. */
    var changes: seq<string>
    var searches: seq<string>
    var selections: seq<Suggestion>

    constructor(value: string)
      ensures query == value && suggestions == [] && !isSearching
      ensures !showSuggestions && !citySelected
      ensures changes == [] && searches == [] && selections == []
    {
      query := value;
      suggestions := [];
      isSearching := false;
      showSuggestions := false;
      citySelected := false;
      changes := [];
      searches := [];
      selections := [];
    }

    /** `showSuggestions && suggestions.length > 0`. */
    predicate DropdownVisible()
      reads this
    {
      showSuggestions && |suggestions| > 0
    }

    /** The debounced fetch. `sent` is the query a request was made for; a
        failed or unreadable answer leaves no suggestions; either way the
        spinner stops. */
    method FetchSuggestions(debounced: string, upstream: Upstream<seq<Suggestion>>)
        returns (sent: Option<string>)
      modifies this
      ensures sent.Some? <==> MayFetch(debounced, old(citySelected))
      ensures sent.Some? ==> sent.value == debounced
      ensures sent.None? ==> suggestions == [] && showSuggestions == old(showSuggestions) &&
                             isSearching == old(isSearching)
      ensures sent.Some? && upstream.Responded? && Ok(upstream.status) && upstream.json.Some? ==>
        suggestions == upstream.json.value && showSuggestions
      ensures sent.Some? && !(upstream.Responded? && Ok(upstream.status) && upstream.json.Some?) ==>
        suggestions == [] && showSuggestions == old(showSuggestions)
      ensures sent.Some? ==> !isSearching
      ensures query == old(query) && citySelected == old(citySelected)
      ensures changes == old(changes) && searches == old(searches) && selections == old(selections)
    {
      if !MayFetch(debounced, citySelected) {
        suggestions := [];
        return None;
      }
      isSearching := true;
      sent := Some(debounced);
      if upstream.Responded? && Ok(upstream.status) && upstream.json.Some? {
        suggestions := upstream.json.value;
        showSuggestions := true;
      } else {
        // a non-ok status throws, and the catch clears the list
        suggestions := [];
      }
      isSearching := false;
    }

    method HandleInputChange(value: string)
      modifies this
      ensures query == value && !citySelected
      ensures showSuggestions <==> Trim(value) != ""
      ensures changes == old(changes) + [value]
      ensures suggestions == old(suggestions) && isSearching == old(isSearching)
      ensures searches == old(searches) && selections == old(selections)
    {
      query := value;
      changes := changes + [value];
      citySelected := false;
      if |Trim(value)| > 0 {
        showSuggestions := true;
      } else {
        showSuggestions := false;
      }
    }

    method HandleSelectCity(c: Suggestion)
      modifies this
      ensures query == c.name && !showSuggestions && citySelected
      ensures changes == old(changes) + [c.name] && selections == old(selections) + [c]
      ensures !DropdownVisible()
      ensures suggestions == old(suggestions) && isSearching == old(isSearching)
      ensures searches == old(searches)
    {
      query := c.name;
      changes := changes + [c.name];
      selections := selections + [c];
      showSuggestions := false;
      citySelected := true;
    }

    /** A non-blank query is searched once, as typed; a blank one changes
        nothing. */
    method HandleSubmit()
      modifies this
      ensures Trim(old(query)) != "" ==>
        searches == old(searches) + [old(query)] && !showSuggestions && citySelected
      ensures Trim(old(query)) == "" ==>
        searches == old(searches) && showSuggestions == old(showSuggestions) &&
        citySelected == old(citySelected)
      ensures query == old(query) && suggestions == old(suggestions) && isSearching == old(isSearching)
      ensures changes == old(changes) && selections == old(selections)
    {
      if Trim(query) != "" {
        searches := searches + [query];
        showSuggestions := false;
        citySelected := true;
      }
    }

    /** Focus may open the list but never closes it. */
    method HandleInputFocus()
      modifies this
      ensures showSuggestions == (old(showSuggestions) || MayFetch(query, citySelected))
      ensures query == old(query) && suggestions == old(suggestions) && isSearching == old(isSearching)
      ensures citySelected == old(citySelected)
      ensures changes == old(changes) && searches == old(searches) && selections == old(selections)
    {
      if !citySelected && Utf16Length(Trim(query)) >= 2 {
        showSuggestions := true;
      }
    }

    /** The parent's `value` changed. */
    method SyncValue(value: string)
      modifies this
      ensures query == value
      ensures suggestions == old(suggestions) && isSearching == old(isSearching)
      ensures showSuggestions == old(showSuggestions) && citySelected == old(citySelected)
      ensures changes == old(changes) && searches == old(searches) && selections == old(selections)
    {
      query := value;
    }

    /** A click outside the box. */
    method ClickOutside()
      modifies this
      ensures !showSuggestions && !DropdownVisible()
      ensures query == old(query) && suggestions == old(suggestions) && isSearching == old(isSearching)
      ensures citySelected == old(citySelected)
      ensures changes == old(changes) && searches == old(searches) && selections == old(selections)
    {
      showSuggestions := false;
    }
  }

  /** Choosing a suggestion closes the list, and the fetch it triggers
      sends nothing and empties the list, whatever the upstream would
      answer: the chosen name is not searched again. */
  method SelectThenFetch(box: SearchBox, c: Suggestion, upstream: Upstream<seq<Suggestion>>)
      returns (sent: Option<string>)
    modifies box
    ensures sent.None?
    ensures box.query == c.name && box.citySelected
    ensures box.suggestions == [] && !box.DropdownVisible()
  {
    box.HandleSelectCity(c);
    sent := box.FetchSuggestions(box.query, upstream);
  }

  /** Typing re-enables fetching: after an input change, the gate depends
      on the typed text alone. */
  method TypeThenFetch(box: SearchBox, value: string, upstream: Upstream<seq<Suggestion>>)
      returns (sent: Option<string>)
    modifies box
    ensures sent.Some? <==> Utf16Length(Trim(value)) >= 2
    ensures sent.Some? ==> sent.value == value
  {
    box.HandleInputChange(value);
    sent := box.FetchSuggestions(box.query, upstream);
  }
}
