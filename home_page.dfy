/** The category list page: a searchable, filterable, infinitely scrolled
    grid of categories with create, edit, delete and verify controls. */
module HomePage {
  import opened Base
  import opened Text
  import opened Entities
  import opened Api
  import SlugLists
  import CategoryApi
  import CategoryReducer
  import FormFields
  import opened AppStore

  /** All of the page's own state at one moment. `menuOpen` stands for the
      filter menu's anchor being set; `urlQuery` is the `query` parameter
      of the browser location, which the page reads and rewrites. */
  datatype PageState = PageState(
    popupOpen: bool, openDeletePopup: bool, mode: FormMode,
    updatingCategory: Option<Category>, value: string,
    deleteCategoryId: Option<string>, menuOpen: bool,
    filter: Option<FilterOption>, currentPage: int, totalPages: int,
    isLoading: bool, urlQuery: Option<string>)

  /** Whether a category's card is drawn: never an unverified card the user
      cannot modify, and under a filter other than "All" only cards whose
      verification matches it. */
  function CardVisible(filter: Option<FilterOption>, c: Category): (visible: bool)
    ensures visible ==> c.canModify || c.verified
    ensures filter == None || filter == Some(FilterOptions[0]) ==> (visible <==> c.canModify || c.verified)
    ensures filter == Some(FilterOptions[1]) ==> (visible <==> c.verified)
    ensures filter == Some(FilterOptions[2]) ==> (visible <==> c.canModify && !c.verified)
  {
    if !c.canModify && !c.verified then false
    else if filter.Some? && filter.value.caption != "All" && BooleanOf(filter.value.value) != c.verified then false
    else true
  }

  /** The `name` default an opened form starts from: the name of the first
      category with slug `id`, or empty when `id` is empty or unknown. */
  function GetCategoryValue(categories: seq<Category>, id: string): (d: FormFields.DefaultValue)
    ensures d.name == "name" && d.value.StrValue?
    ensures id == "" ==> d.value.s == ""
    ensures (forall i :: 0 <= i < |categories| ==> categories[i].slug != id) ==> d.value.s == ""
    ensures forall k :: (0 <= k < |categories| && id != "" && categories[k].slug == id &&
      (forall i :: 0 <= i < k ==> categories[i].slug != id)) ==> d.value.s == categories[k].name
  {
    if id == "" then FormFields.DefaultValue("name", FormFields.StrValue(""))
    else
      var c := SlugLists.FindBySlug(categories, CategorySlug, id);
      FormFields.DefaultValue("name", FormFields.StrValue(if c.Some? then c.value.name else ""))
  }

  class HomePage {
    var popupOpen: bool
    var openDeletePopup: bool
    var mode: FormMode
    var updatingCategory: Option<Category>
    var value: string
    var deleteCategoryId: Option<string>
    var menuOpen: bool
    var filter: Option<FilterOption>
    var currentPage: int
    var totalPages: int
    var isLoading: bool
    var urlQuery: Option<string>

    ghost function Snapshot(): PageState
      reads this
    {
      PageState(popupOpen, openDeletePopup, mode, updatingCategory, value,
                deleteCategoryId, menuOpen, filter, currentPage, totalPages,
                isLoading, urlQuery)
    }

    /** The page as first rendered at a location whose `query` parameter
        is `urlQuery`. */
    constructor (urlQuery: Option<string>)
      ensures Snapshot() == PageState(false, false, Create, None, "", None, false, None, 1, 1, false, urlQuery)
    {
      popupOpen := false;
      openDeletePopup := false;
      mode := Create;
      updatingCategory := None;
      value := "";
      deleteCategoryId := None;
      menuOpen := false;
      filter := None;
      currentPage := 1;
      totalPages := 1;
      isLoading := false;
      this.urlQuery := urlQuery;
    }

    /** What the infinite scroller is told about further pages. */
    predicate HasMore()
      reads this
    {
      currentPage < totalPages
    }

    /** The slug handed to the form: the edited category's, or empty. */
    function FormSlug(): (slug: string)
      reads this
      ensures updatingCategory.None? ==> slug == ""
      ensures updatingCategory.Some? ==> slug == updatingCategory.value.slug
    {
      OrElse(if updatingCategory.Some? then Some(updatingCategory.value.slug) else None, "")
    }

    /** The defaults handed to the form. */
    function FormDefaults(store: Store): seq<FormFields.DefaultValue>
      reads this, store
    {
      [GetCategoryValue(store.category.categories, FormSlug())]
    }

    method HandleOpenPopup()
      modifies this
      ensures Snapshot() == old(Snapshot()).(popupOpen := true)
    {
      popupOpen := true;
    }

    /** Closing the form popup also returns it to create mode. */
    method HandleClosePopup()
      modifies this
      ensures Snapshot() == old(Snapshot()).(popupOpen := false, mode := Create, updatingCategory := None)
    {
      popupOpen := false;
      mode := Create;
      updatingCategory := None;
    }

    /** The edit icon on a card. */
    method EditCategory(c: Category)
      modifies this
      ensures Snapshot() == old(Snapshot()).(mode := Update, popupOpen := true, updatingCategory := Some(c))
    {
      mode := Update;
      popupOpen := true;
      updatingCategory := Some(c);
    }

    /** The delete icon on a card: remember its slug and ask for
        confirmation. */
    method AskDelete(c: Category)
      modifies this
      ensures Snapshot() == old(Snapshot()).(openDeletePopup := true, deleteCategoryId := Some(c.slug))
    {
      openDeletePopup := true;
      deleteCategoryId := Some(c.slug);
    }

    /** Dismissing the confirmation keeps the remembered slug. */
    method CloseDeletePopup()
      modifies this
      ensures Snapshot() == old(Snapshot()).(openDeletePopup := false)
    {
      openDeletePopup := false;
    }

    method HandleDropdownClick()
      modifies this
      ensures Snapshot() == old(Snapshot()).(menuOpen := true)
    {
      menuOpen := true;
    }

    method HandleCloseDropdown()
      modifies this
      ensures Snapshot() == old(Snapshot()).(menuOpen := false)
    {
      menuOpen := false;
    }

    /** Confirmed delete: with a remembered slug, ask the server to delete
        it; once it has, close the confirmation and drop that slug's
        entries from the cached list. Without a slug, or when the server
        refuses, nothing changes. */
    method HandleDelete(store: Store, reply: Reply<()>) returns (call: Option<CategoryApi.Call>)
      modifies this, store`category
      ensures call.Some? <==> Truthy(old(deleteCategoryId))
      ensures call.Some? ==> call.value == CategoryApi.DeleteCall(old(deleteCategoryId).value)
      ensures call.Some? && reply.Ok? ==>
        && Snapshot() == old(Snapshot()).(openDeletePopup := false)
        && store.category.categories
           == SlugLists.RemoveBySlug(old(store.category.categories), CategorySlug, old(deleteCategoryId).value)
      ensures !(call.Some? && reply.Ok?) ==>
        Snapshot() == old(Snapshot()) && store.category == old(store.category)
    {
      call := None;
      if Truthy(deleteCategoryId) {
        var id := deleteCategoryId.value;
        call := Some(CategoryApi.DeleteCall(id));
        if reply.Ok? {
          openDeletePopup := false;
          var data := SlugLists.RemoveBySlug(store.category.categories, CategorySlug, id);
          store.DispatchCategory(CategoryReducer.SetCategories(data));
        }
      }
    }

    /** First load: a non-empty `query` in the location becomes the search
        text, and page 1 is fetched with it. On success the page count and
        the cached list are replaced; either way loading ends. */
    method OnLoad(store: Store, reply: Reply<CategoryApi.ListBody>) returns (call: CategoryApi.Call)
      modifies this, store`category
      ensures call == CategoryApi.ListCall(1, old(urlQuery).GetOr(""), None)
      ensures reply.Ok? ==>
        && Snapshot() == old(Snapshot()).(value := OrElse(old(urlQuery), old(value)),
                                          totalPages := reply.value.totalPages, isLoading := false)
        && store.category.categories == reply.value.data
      ensures reply.Failed? ==>
        && Snapshot() == old(Snapshot()).(value := OrElse(old(urlQuery), old(value)), isLoading := false)
        && store.category == old(store.category)
    {
      isLoading := true;
      var query := urlQuery;
      if Truthy(query) {
        value := query.value;
      }
      call := CategoryApi.ListCall(1, query.GetOr(""), None);
      if reply.Ok? {
        totalPages := reply.value.totalPages;
        store.DispatchCategory(CategoryReducer.SetCategories(reply.value.data));
      }
      isLoading := false;
    }

    /** A (debounced) search edit: the raw text becomes the search text and
        the location's `query` (removed when blank). Page 1 is refetched
        with the trimmed text and the current filter only when the trimmed
        text differs from the previous search text; the page number is not
        reset. There is no error handling: a refused refetch leaves loading
        on and the list as it was. */
    method HandleChange(store: Store, newValue: string, reply: Reply<CategoryApi.ListBody>)
      returns (call: Option<CategoryApi.Call>)
      modifies this, store`category
      ensures call.Some? <==> Trim(newValue) != old(value)
      ensures call.Some? ==> call.value == CategoryApi.ListCall(1, Trim(newValue), FilterValue(old(filter)))
      ensures Snapshot() == old(Snapshot()).(
        value := newValue,
        urlQuery := if IsBlank(newValue) then None else Some(newValue),
        isLoading := call.Some? && reply.Failed?)
      ensures call.Some? && reply.Ok? ==> store.category.categories == reply.value.data
      ensures !(call.Some? && reply.Ok?) ==> store.category == old(store.category)
    {
      isLoading := true;
      var previous := value;
      var trimmed := Trim(newValue);
      value := newValue;
      if trimmed != "" {
        urlQuery := Some(newValue);
      } else {
        urlQuery := None;
      }
      call := None;
      if trimmed != previous {
        call := Some(CategoryApi.ListCall(1, trimmed, FilterValue(filter)));
        if reply.Ok? {
          store.DispatchCategory(CategoryReducer.SetCategories(reply.value.data));
          isLoading := false;
        }
      } else {
        isLoading := false;
      }
    }

    /** Choosing a filter entry: it becomes the filter; page 1 is refetched
        with the search text and the entry's value when its label differs
        from the previous filter's (always, when there was none); then the
        menu closes. There is no error handling: a refused refetch leaves
        the menu open. */
    method HandleSelectFilter(store: Store, selected: FilterOption, reply: Reply<CategoryApi.ListBody>)
      returns (call: Option<CategoryApi.Call>)
      modifies this, store`category
      ensures call.Some? <==> old(filter).None? || old(filter).value.caption != selected.caption
      ensures call.Some? ==> call.value == CategoryApi.ListCall(1, old(value), selected.value)
      ensures Snapshot() == old(Snapshot()).(
        filter := Some(selected),
        menuOpen := if call.Some? && reply.Failed? then old(menuOpen) else false)
      ensures call.Some? && reply.Ok? ==> store.category.categories == reply.value.data
      ensures !(call.Some? && reply.Ok?) ==> store.category == old(store.category)
    {
      var previous := filter;
      filter := Some(selected);
      call := None;
      if previous.None? || previous.value.caption != selected.caption {
        call := Some(CategoryApi.ListCall(1, value, selected.value));
        if reply.Failed? {
          return;
        }
        store.DispatchCategory(CategoryReducer.SetCategories(reply.value.data));
      }
      menuOpen := false;
    }

    /** The verification switch (which passes the card's negated flag):
        send the new flag, then replace the entries with the returned
        category's slug by it. A refusal changes nothing. */
    method HandleVerified(store: Store, slug: string, isVerified: bool, reply: Reply<Category>)
      returns (call: CategoryApi.Call)
      modifies store`category
      ensures call == CategoryApi.UpdateCall(map["verified" := BoolV(isVerified)], slug)
      ensures reply.Ok? ==>
        store.category.categories == SlugLists.ReplaceBySlug(old(store.category.categories), CategorySlug, reply.value)
      ensures reply.Failed? ==> store.category == old(store.category)
    {
      call := CategoryApi.UpdateCall(map["verified" := BoolV(isVerified)], slug);
      if reply.Ok? {
        var data := SlugLists.ReplaceBySlug(store.category.categories, CategorySlug, reply.value);
        store.DispatchCategory(CategoryReducer.SetCategories(data));
      }
    }

    /** Scrolling to the end: when more pages exist, the page number is
        advanced before the next page is fetched with the search text and
        filter; on success the page count is refreshed and the page's
        categories are appended after the cached ones. A refused fetch
        still advances the page number. Loading always ends. */
    method LoadMoreCategories(store: Store, reply: Reply<CategoryApi.ListBody>)
      returns (call: Option<CategoryApi.Call>)
      modifies this, store`category
      ensures call.Some? <==> old(HasMore())
      ensures call.Some? ==>
        call.value == CategoryApi.ListCall(old(currentPage) + 1, old(value), FilterValue(old(filter)))
      ensures call.Some? && reply.Ok? ==>
        && Snapshot() == old(Snapshot()).(currentPage := old(currentPage) + 1,
                                          totalPages := reply.value.totalPages, isLoading := false)
        && store.category.categories == old(store.category.categories) + reply.value.data
      ensures call.Some? && reply.Failed? ==>
        && Snapshot() == old(Snapshot()).(currentPage := old(currentPage) + 1, isLoading := false)
        && store.category == old(store.category)
      ensures call.None? ==>
        Snapshot() == old(Snapshot()).(isLoading := false) && store.category == old(store.category)
    {
      isLoading := true;
      call := None;
      if currentPage < totalPages {
        var next := currentPage + 1;
        currentPage := next;
        call := Some(CategoryApi.ListCall(next, value, FilterValue(filter)));
        if reply.Ok? {
          totalPages := reply.value.totalPages;
          store.DispatchCategory(CategoryReducer.SetCategories(store.category.categories + reply.value.data));
        }
      }
      isLoading := false;
    }
  }
}
