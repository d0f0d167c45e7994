/** The searchable select whose option list fetches further pages when
    scrolled to its end. */
module InfiniteScrollDropdown {
  import opened Base

  /** An option's value: `string | number`, compared strictly. */
  datatype OptionValue = TextValue(s: string) | NumberValue(n: int)

  /** One option; `caption` is its `label`. */
  datatype DropdownOption = DropdownOption(caption: string, value: OptionValue)

  /** The list's scroll handler asks for more exactly when the list is
      scrolled to its very end, nothing is loading and more exists. */
  function ShouldLoadMore(scrollHeight: int, scrollTop: int, clientHeight: int,
                          loading: bool, hasMore: bool): (load: bool)
    ensures load ==> !loading && hasMore
    ensures load <==> scrollHeight - scrollTop == clientHeight && !loading && hasMore
  {
    var bottom := scrollHeight - scrollTop == clientHeight;
    bottom && !loading && hasMore
  }

  /** The text input's change handler: only the "clear" reason makes a
      selection call, and that call passes no option. */
  function OnInputChange(reason: string): (select: Option<Option<DropdownOption>>)
    ensures select.Some? <==> reason == "clear"
    ensures select.Some? ==> select.value.None?
  {
    if reason == "clear" then Some(None) else None
  }

  /** An option is drawn highlighted when it has the selected option's
      value. */
  predicate IsHighlighted(selected: Option<DropdownOption>, option: DropdownOption) {
    selected.Some? && selected.value.value == option.value
  }

  /** Without a selection nothing is highlighted; the selected option is;
      options with values other than the selected one's are not, so a
      text value never matches a number. */
  lemma HighlightLaws(selected: Option<DropdownOption>, option: DropdownOption, s: string, n: int)
    ensures selected.None? ==> !IsHighlighted(selected, option)
    ensures selected.Some? ==> IsHighlighted(selected, selected.value)
    ensures IsHighlighted(selected, option) ==> option.value == selected.value.value
    ensures !IsHighlighted(Some(DropdownOption(s, TextValue(s))), DropdownOption(s, NumberValue(n)))
  {
  }
}
