/** The popup form that creates or updates a topic and picks its
    category. */
module TopicForm {
  import opened Base
  import Text
  import opened Entities
  import opened Api
  import SlugLists
  import CategoryApi
  import TopicApi
  import CategoryReducer
  import TopicReducer
  import FormFields
  import opened AppStore

  const NameRequired := "Topic name is required"

  /** The name field's validator. */
  function ValidateName(value: string): (error: Option<string>)
    ensures error.None? <==> exists i :: 0 <= i < |value| && !Text.IsSpace(value[i])
    ensures error.Some? ==> error.value == NameRequired
  {
    FormFields.Required(value, NameRequired)
  }

  /** The JSON body of `{ ...data, categorySlug: slug }`: the category
      slug overrides any `categorySlug` in the data and, when undefined,
      leaves the body without one. */
  function WithCategorySlug(data: Json, slug: Option<string>): (body: Json)
    ensures "categorySlug" in body <==> slug.Some?
    ensures slug.Some? ==> body["categorySlug"] == StrV(slug.value)
    ensures forall k :: k != "categorySlug" ==> (k in body <==> k in data)
    ensures forall k :: k != "categorySlug" && k in data ==> body[k] == data[k]
  {
    if slug.Some? then data["categorySlug" := StrV(slug.value)] else data - {"categorySlug"}
  }

  class TopicForm {
    const mode: FormMode
    const defaultValues: Option<seq<FormFields.DefaultValue>>
    const slug: Option<string>
    const updatingTopic: Option<Topic>
    /** The `categoryId` route parameter. */
    const categoryId: Option<string>
    var formData: map<string, string>
    var onCloseCalls: nat
    var selectedCategory: Option<CategoryRef>

    constructor (mode: FormMode, defaultValues: Option<seq<FormFields.DefaultValue>>, slug: Option<string>,
                 updatingTopic: Option<Topic>, categoryId: Option<string>)
      ensures this.mode == mode && this.defaultValues == defaultValues && this.slug == slug
      ensures this.updatingTopic == updatingTopic && this.categoryId == categoryId
      ensures formData == map[] && onCloseCalls == 0 && selectedCategory == None
    {
      this.mode := mode;
      this.defaultValues := defaultValues;
      this.slug := slug;
      this.updatingTopic := updatingTopic;
      this.categoryId := categoryId;
      formData := map[];
      onCloseCalls := 0;
      selectedCategory := None;
    }

    /** The category the picker shows and a new topic is filed under: the
        picked one, else the route's. */
    function SelectedSlug(): (s: Option<string>)
      reads this
      ensures selectedCategory.Some? ==> s == Some(selectedCategory.value.slug)
      ensures selectedCategory.None? ==> s == categoryId
    {
      match selectedCategory
      case Some(c) => Some(c.slug)
      case None => categoryId
    }

    method HandleChange(name: string, value: string)
      modifies this`formData
      ensures formData == old(formData)[name := value]
    {
      formData := formData[name := value];
    }

    /** Picking a category in the selector. */
    method HandleTopicClick(c: Category)
      modifies this`selectedCategory
      ensures selectedCategory == Some(CategoryRef(c.name, c.slug))
    {
      selectedCategory := Some(CategoryRef(c.name, c.slug));
    }

    /** Mount: fetch the first page of categories for the selector and
        cache them; then an update form with defaults takes each default as
        if typed and, when editing a topic, preselects that topic's
        category. Without defaults nothing is preselected. A refused fetch
        is not handled and changes nothing. */
    method OnLoad(store: Store, reply: Reply<CategoryApi.ListBody>) returns (call: CategoryApi.Call)
      modifies this`formData, this`selectedCategory, store`category
      ensures call == CategoryApi.ListCall(CategoryApi.DefaultPage, CategoryApi.DefaultSearch, CategoryApi.DefaultIsVerified)
      ensures reply.Ok? ==> store.category.categories == reply.value.data
      ensures reply.Ok? && mode == Update && defaultValues.Some? ==>
        && formData == FormFields.Prefill(old(formData), defaultValues.value)
        && selectedCategory == (if updatingTopic.Some? then Some(updatingTopic.value.category) else old(selectedCategory))
      ensures !(reply.Ok? && mode == Update && defaultValues.Some?) ==>
        formData == old(formData) && selectedCategory == old(selectedCategory)
      ensures reply.Failed? ==> store.category == old(store.category)
    {
      call := CategoryApi.ListCall(CategoryApi.DefaultPage, CategoryApi.DefaultSearch, CategoryApi.DefaultIsVerified);
      if reply.Failed? {
        return;
      }
      store.DispatchCategory(CategoryReducer.SetCategories(reply.value.data));
      if mode == Update && defaultValues.Some? {
        var ds := defaultValues.value;
        for i := 0 to |ds|
          invariant formData == FormFields.Prefill(old(formData), ds[..i])
          invariant selectedCategory == old(selectedCategory)
          invariant store.category.categories == reply.value.data
        {
          assert ds[..i + 1][..i] == ds[..i];
          HandleChange(ds[i].name, FormFields.ValueText(ds[i].value));
        }
        assert ds[..|ds|] == ds;
        if updatingTopic.Some? {
          selectedCategory := Some(CategoryRef(updatingTopic.value.category.name, updatingTopic.value.category.slug));
        }
      }
    }

    /** Submitting valid data: a create form files the topic under the
        selected (else the route's) category and appends the result; an
        update form with a slug sends the picked category only, and
        replaces the entries with the returned slug; an update form without
        a slug sends nothing. `onClose` is called once in every case. */
    method HandleFormSubmit(store: Store, data: map<string, string>, reply: Reply<Topic>)
      returns (call: Option<TopicApi.Call>)
      modifies this`onCloseCalls, store`topic
      ensures mode == Create ==>
        call == Some(TopicApi.CreateCall(WithCategorySlug(AsJson(data), SelectedSlug())))
      ensures mode == Update ==> (call.Some? <==> Truthy(slug))
      ensures mode == Update && call.Some? ==>
        call.value == TopicApi.UpdateCall(
          WithCategorySlug(AsJson(data), if selectedCategory.Some? then Some(selectedCategory.value.slug) else None),
          slug.value)
      ensures call.Some? && reply.Ok? && mode == Create ==>
        store.topic.topics == old(store.topic.topics) + [reply.value]
      ensures call.Some? && reply.Ok? && mode == Update ==>
        store.topic.topics == SlugLists.ReplaceBySlug(old(store.topic.topics), TopicSlug, reply.value)
      ensures !(call.Some? && reply.Ok?) ==> store.topic == old(store.topic)
      ensures onCloseCalls == old(onCloseCalls) + 1
    {
      call := None;
      if mode == Create {
        call := Some(TopicApi.CreateCall(WithCategorySlug(AsJson(data), SelectedSlug())));
        if reply.Ok? {
          store.DispatchTopic(TopicReducer.AddNewTopic(reply.value));
        }
      } else if Truthy(slug) {
        var picked := if selectedCategory.Some? then Some(selectedCategory.value.slug) else None;
        call := Some(TopicApi.UpdateCall(WithCategorySlug(AsJson(data), picked), slug.value));
        if reply.Ok? {
          var updated := SlugLists.ReplaceBySlug(store.topic.topics, TopicSlug, reply.value);
          store.DispatchTopic(TopicReducer.SetTopic(updated));
        }
      }
      onCloseCalls := onCloseCalls + 1;
    }
  }
}
