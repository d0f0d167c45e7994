/** The topic list of one category (the `categoryId` route parameter): a
    filterable grid of topic cards with create, edit, delete and verify
    controls. Its search box and filter menu refetch the category list,
    not the topics. */
module TopicsPage {
  import opened Base
  import opened Text
  import opened Entities
  import opened Api
  import SlugLists
  import CategoryApi
  import TopicApi
  import CategoryReducer
  import TopicReducer
  import HomePage
  import opened AppStore

  /** All of the page's own state at one moment; `menuOpen` stands for the
      filter menu's anchor being set. */
  datatype PageState = PageState(
    popupOpen: bool, openDeletePopup: bool, mode: FormMode,
    updatingTopic: Option<Topic>, value: string,
    deleteTopicId: Option<string>, menuOpen: bool,
    filter: Option<FilterOption>)

  /** Whether a topic's card is drawn: the category page's rule applied to
      the topic, and only for topics of the route's category (none at all
      without a route category). */
  function TopicCardVisible(filter: Option<FilterOption>, categoryId: Option<string>, t: Topic): (visible: bool)
    ensures visible ==> categoryId == Some(t.category.slug)
    ensures visible <==>
      HomePage.CardVisible(filter, Category(t.name, t.slug, t.verified, t.canModify))
      && categoryId == Some(t.category.slug)
  {
    if !t.canModify && !t.verified then false
    else if filter.Some? && filter.value.caption != "All" && BooleanOf(filter.value.value) != t.verified then false
    else if categoryId != Some(t.category.slug) then false
    else true
  }

  /** Where a click on a topic card navigates; a missing route category is
      rendered as `undefined`. */
  function TopicLink(categoryId: Option<string>, slug: string): (path: string)
    ensures categoryId.Some? ==> path == "/category/" + categoryId.value + "/topic/" + slug
    ensures categoryId.None? ==> path == "/category/undefined/topic/" + slug
  {
    "/category/" + (match categoryId case Some(c) => c case None => "undefined") + "/topic/" + slug
  }

  class TopicsPage {
    const categoryId: Option<string>
    var popupOpen: bool
    var openDeletePopup: bool
    var mode: FormMode
    var updatingTopic: Option<Topic>
    var value: string
    var deleteTopicId: Option<string>
    var menuOpen: bool
    var filter: Option<FilterOption>

    ghost function Snapshot(): PageState
      reads this
    {
      PageState(popupOpen, openDeletePopup, mode, updatingTopic, value, deleteTopicId, menuOpen, filter)
    }

    constructor (categoryId: Option<string>)
      ensures this.categoryId == categoryId
      ensures Snapshot() == PageState(false, false, Create, None, "", None, false, None)
    {
      this.categoryId := categoryId;
      popupOpen := false;
      openDeletePopup := false;
      mode := Create;
      updatingTopic := None;
      value := "";
      deleteTopicId := None;
      menuOpen := false;
      filter := None;
    }

    /** The slug handed to the form: the edited topic's, or empty. The
        form gets no defaults. */
    function FormSlug(): (slug: string)
      reads this
      ensures updatingTopic.None? ==> slug == ""
      ensures updatingTopic.Some? ==> slug == updatingTopic.value.slug
    {
      OrElse(if updatingTopic.Some? then Some(updatingTopic.value.slug) else None, "")
    }

    method HandleOpenPopup()
      modifies this
      ensures Snapshot() == old(Snapshot()).(popupOpen := true)
    {
      popupOpen := true;
    }

    method HandleClosePopup()
      modifies this
      ensures Snapshot() == old(Snapshot()).(popupOpen := false, mode := Create, updatingTopic := None)
    {
      popupOpen := false;
      mode := Create;
      updatingTopic := None;
    }

    method EditTopic(t: Topic)
      modifies this
      ensures Snapshot() == old(Snapshot()).(mode := Update, popupOpen := true, updatingTopic := Some(t))
    {
      mode := Update;
      popupOpen := true;
      updatingTopic := Some(t);
    }

    method AskDelete(t: Topic)
      modifies this
      ensures Snapshot() == old(Snapshot()).(openDeletePopup := true, deleteTopicId := Some(t.slug))
    {
      openDeletePopup := true;
      deleteTopicId := Some(t.slug);
    }

    method CloseDeletePopup()
      modifies this
      ensures Snapshot() == old(Snapshot()).(openDeletePopup := false)
    {
      openDeletePopup := false;
    }

    method HandleDropdownClick()
      modifies this
      ensures Snapshot() == old(Snapshot()).(menuOpen := true)
    {
      menuOpen := true;
    }

    method HandleCloseDropdown()
      modifies this
      ensures Snapshot() == old(Snapshot()).(menuOpen := false)
    {
      menuOpen := false;
    }

    /** Confirmed delete: with a remembered slug, delete it on the server;
        once deleted, close the confirmation and drop that slug's entries
        from the cached topics. Otherwise nothing changes. */
    method HandleDelete(store: Store, reply: Reply<()>) returns (call: Option<TopicApi.Call>)
      modifies this, store`topic
      ensures call.Some? <==> Truthy(old(deleteTopicId))
      ensures call.Some? ==> call.value == TopicApi.DeleteCall(old(deleteTopicId).value)
      ensures call.Some? && reply.Ok? ==>
        && Snapshot() == old(Snapshot()).(openDeletePopup := false)
        && store.topic.topics == SlugLists.RemoveBySlug(old(store.topic.topics), TopicSlug, old(deleteTopicId).value)
      ensures !(call.Some? && reply.Ok?) ==> Snapshot() == old(Snapshot()) && store.topic == old(store.topic)
    {
      call := None;
      if Truthy(deleteTopicId) {
        var id := deleteTopicId.value;
        call := Some(TopicApi.DeleteCall(id));
        if reply.Ok? {
          openDeletePopup := false;
          var data := SlugLists.RemoveBySlug(store.topic.topics, TopicSlug, id);
          store.DispatchTopic(TopicReducer.SetTopic(data));
        }
      }
    }

    /** First load: with a route category, fetch its first page of topics
        (no search, no filter) and cache them. Without one nothing is
        fetched; a refusal is not handled and changes nothing. */
    method OnLoad(store: Store, reply: Reply<TopicApi.ListBody>) returns (call: Option<TopicApi.Call>)
      modifies store`topic
      ensures call.Some? <==> Truthy(categoryId)
      ensures call.Some? ==> call.value == TopicApi.ListCall(categoryId.value, 1, "", None)
      ensures call.Some? && reply.Ok? ==> store.topic.topics == reply.value.data
      ensures !(call.Some? && reply.Ok?) ==> store.topic == old(store.topic)
    {
      call := None;
      if Truthy(categoryId) {
        call := Some(TopicApi.ListCall(categoryId.value, 1, "", None));
        if reply.Ok? {
          store.DispatchTopic(TopicReducer.SetTopic(reply.value.data));
        }
      }
    }

    /** A (debounced) search edit: the raw text becomes the search text;
        when the trimmed text differs from the previous one, page 1 of the
        CATEGORY list is fetched with it and the current filter and the
        cached categories are replaced. The topics are never refetched. */
    method HandleChange(store: Store, newValue: string, reply: Reply<CategoryApi.ListBody>)
      returns (call: Option<CategoryApi.Call>)
      modifies this, store`category
      ensures call.Some? <==> Trim(newValue) != old(value)
      ensures call.Some? ==> call.value == CategoryApi.ListCall(1, Trim(newValue), FilterValue(old(filter)))
      ensures Snapshot() == old(Snapshot()).(value := newValue)
      ensures call.Some? && reply.Ok? ==> store.category.categories == reply.value.data
      ensures !(call.Some? && reply.Ok?) ==> store.category == old(store.category)
    {
      var previous := value;
      value := newValue;
      call := None;
      if Trim(newValue) != previous {
        call := Some(CategoryApi.ListCall(1, Trim(newValue), FilterValue(filter)));
        if reply.Ok? {
          store.DispatchCategory(CategoryReducer.SetCategories(reply.value.data));
        }
      }
    }

    /** Choosing a filter entry: as on the category page, and it too
        refetches the category list; a refused refetch leaves the menu
        open. */
    method HandleSelectFilter(store: Store, selected: FilterOption, reply: Reply<CategoryApi.ListBody>)
      returns (call: Option<CategoryApi.Call>)
      modifies this, store`category
      ensures call.Some? <==> old(filter).None? || old(filter).value.caption != selected.caption
      ensures call.Some? ==> call.value == CategoryApi.ListCall(1, old(value), selected.value)
      ensures Snapshot() == old(Snapshot()).(
        filter := Some(selected),
        menuOpen := if call.Some? && reply.Failed? then old(menuOpen) else false)
      ensures call.Some? && reply.Ok? ==> store.category.categories == reply.value.data
      ensures !(call.Some? && reply.Ok?) ==> store.category == old(store.category)
    {
      var previous := filter;
      filter := Some(selected);
      call := None;
      if previous.None? || previous.value.caption != selected.caption {
        call := Some(CategoryApi.ListCall(1, value, selected.value));
        if reply.Failed? {
          return;
        }
        store.DispatchCategory(CategoryReducer.SetCategories(reply.value.data));
      }
      menuOpen := false;
    }

    /** The verification switch: send the new flag for the topic, then
        replace the cached entries with the returned topic's slug by it. A
        refusal changes nothing. */
    method HandleVerified(store: Store, slug: string, isVerified: bool, reply: Reply<Topic>)
      returns (call: TopicApi.Call)
      modifies store`topic
      ensures call == TopicApi.UpdateCall(map["verified" := BoolV(isVerified)], slug)
      ensures reply.Ok? ==>
        store.topic.topics == SlugLists.ReplaceBySlug(old(store.topic.topics), TopicSlug, reply.value)
      ensures reply.Failed? ==> store.topic == old(store.topic)
    {
      call := TopicApi.UpdateCall(map["verified" := BoolV(isVerified)], slug);
      if reply.Ok? {
        var data := SlugLists.ReplaceBySlug(store.topic.topics, TopicSlug, reply.value);
        store.DispatchTopic(TopicReducer.SetTopic(data));
      }
    }
  }
}
