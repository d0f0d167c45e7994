/** The collapsible search box the list pages put above their grids. Each
    edit is handed to the page's `onChange` callback, which is returned
    here as the emitted text. */
module SearchInput {
  import opened Base

  class SearchInput {
    var inputOpen: bool
    var searchTerm: string

    constructor ()
      ensures !inputOpen && searchTerm == ""
    {
      inputOpen := false;
      searchTerm := "";
    }

    /** The search icon opens the box. */
    method HandleIconClick()
      modifies this
      ensures inputOpen && searchTerm == old(searchTerm)
    {
      inputOpen := true;
    }

    /** Typing: the raw text becomes the term and is emitted as is. */
    method HandleSearchChange(value: string) returns (emitted: string)
      modifies this
      ensures searchTerm == value && emitted == value && inputOpen == old(inputOpen)
    {
      searchTerm := value;
      emitted := value;
    }

    /** The clear icon empties the term and emits the empty string. */
    method HandleClearClick() returns (emitted: string)
      modifies this
      ensures searchTerm == "" && emitted == "" && inputOpen == old(inputOpen)
    {
      searchTerm := "";
      emitted := "";
    }

    /** A click outside collapses the box only when the term is empty. */
    method HandleClickAway()
      modifies this
      ensures inputOpen == (old(inputOpen) && old(searchTerm) != "")
      ensures searchTerm == old(searchTerm)
    {
      if searchTerm == "" {
        inputOpen := false;
      }
    }

    /** The effect run on mount and after every change of the term: a
        non-empty `query` parameter in the location becomes the term and
        opens the box. Nothing is emitted. */
    method SyncFromLocation(query: Option<string>)
      modifies this
      ensures Truthy(query) ==> searchTerm == query.value && inputOpen
      ensures !Truthy(query) ==> searchTerm == old(searchTerm) && inputOpen == old(inputOpen)
    {
      if Truthy(query) {
        searchTerm := query.value;
        inputOpen := true;
      }
    }
  }
}
